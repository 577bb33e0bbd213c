/** The distance-banded fare tables of the metro and of the city buses: how a
    row of a fare CSV becomes a band, how the loaded table is ordered, and how
    a distance is priced. A band is `(upper bound in km, fare in rupees)`. */
module Fares {
  import opened Base
  import opened Text
  import Sorting

  /** The upper end of a distance band; `Infinite` is Python's `float('inf')`. */
  datatype Bound = Finite(km: real) | Infinite

  datatype Band = Band(bound: Bound, fare: real)

  /** One row of a fare CSV: the `Distance_km` and `Fare_Rupees` cells. */
  datatype FareRow = FareRow(distance: string, fare: string)

  /** Python's `float(text)`: `None` where it raises `ValueError`. */
  type ParseFloat = string -> Option<real>

  /** `d <= bound`, with every distance below an infinite bound. */
  predicate Within(d: real, b: Bound) {
    b.Infinite? || d <= b.km
  }

  /** The order of the sort key `lambda x: x[0]`. */
  predicate BoundLe(a: Bound, b: Bound) {
    b.Infinite? || (a.Finite? && a.km <= b.km)
  }

  predicate BandLe(x: Band, y: Band) { BoundLe(x.bound, y.bound) }

  lemma BandLeTotalPreorder()
    ensures Sorting.TotalPreorder(BandLe)
  {
    assert forall a: Band, b: Band :: BandLe(a, b) || BandLe(b, a);
    assert forall a: Band, b: Band, c: Band :: BandLe(a, b) && BandLe(b, c) ==> BandLe(a, c);
  }

  /** The parse of one fare row. The fare cell is read first; then a distance
      cell mentioning `"Above"` opens an unbounded band when `openEnded` (the
      metro table only), and otherwise the cell must have the form `"a-b"`,
      whose `b` is the upper bound. `None` means the row is skipped. */
  function ParseRow(row: FareRow, parse: ParseFloat, openEnded: bool): (r: Option<Band>)
    ensures r.Some? ==> parse(row.fare) == Some(r.value.fare)
    ensures r.Some? && r.value.bound.Infinite? ==> openEnded && Contains(row.distance, "Above")
  {
    match parse(row.fare)
    case None => None
    case Some(fare) =>
      if openEnded && Contains(row.distance, "Above") then Some(Band(Infinite, fare))
      else
        var parts := Split(row.distance, '-');
        if |parts| == 2 then
          match parse(parts[1])
          case None => None
          case Some(upper) => Some(Band(Finite(upper), fare))
        else None
  }

  /** A range cell `a-b` (exactly one hyphen) yields the band ending at `b`
      whenever both `b` and the fare parse, and the row is skipped otherwise. */
  lemma RangeRow(a: string, b: string, fare: string, parse: ParseFloat, openEnded: bool)
    requires '-' !in a && '-' !in b
    requires !(openEnded && Contains(a + "-" + b, "Above"))
    ensures ParseRow(FareRow(a + "-" + b, fare), parse, openEnded)
            == if parse(fare).Some? && parse(b).Some?
               then Some(Band(Finite(parse(b).value), parse(fare).value))
               else None
  {
    SplitAtOnly(a, b, '-');
    assert a + "-" + b == a + ['-'] + b;
  }

  /** A distance cell that is neither an `"Above"` cell (metro) nor has exactly
      one hyphen is skipped. */
  lemma OtherShapeSkipped(row: FareRow, parse: ParseFloat, openEnded: bool)
    requires !(openEnded && Contains(row.distance, "Above"))
    requires Occurrences(row.distance, '-') != 1
    ensures ParseRow(row, parse, openEnded) == None
  {
    SplitJoin(row.distance, '-');
  }

  /** The bands of the rows that parse, in row order (the loading loop's
      appends). */
  function Parsed(rows: seq<FareRow>, parse: ParseFloat, openEnded: bool): seq<Band> {
    if rows == [] then []
    else
      var last := ParseRow(rows[|rows| - 1], parse, openEnded);
      Parsed(rows[..|rows| - 1], parse, openEnded) + (if last.Some? then [last.value] else [])
  }

  /** The load step: each row that parses appends its band, and the table is
      then sorted (stably) by bound. */
  method LoadFareRows(table: seq<Band>, rows: seq<FareRow>, parse: ParseFloat, openEnded: bool)
    returns (t: seq<Band>)
    ensures t == Sorting.SortBy(table + Parsed(rows, parse, openEnded), BandLe)
    ensures Sorting.SortedBy(t, BandLe)
    ensures multiset(t) == multiset(table + Parsed(rows, parse, openEnded))
  {
    t := table;
    for i := 0 to |rows|
      invariant t == table + Parsed(rows[..i], parse, openEnded)
    {
      assert rows[..i + 1][..i] == rows[..i];
      var band := ParseRow(rows[i], parse, openEnded);
      if band.Some? {
        t := t + [band.value];
      }
    }
    assert rows[..|rows|] == rows;
    var unsorted := t;
    t := Sorting.SortBy(t, BandLe);
    BandLeTotalPreorder();
    Sorting.SortByCorrect(unsorted, BandLe);
  }

  /** The index of the first band whose bound is at least `d`. */
  function FirstMatch(table: seq<Band>, d: real): (r: Option<nat>)
    ensures r.None? <==> forall i :: 0 <= i < |table| ==> !Within(d, table[i].bound)
    ensures r.Some? ==> r.value < |table| && Within(d, table[r.value].bound)
    ensures r.Some? ==> forall j :: 0 <= j < r.value ==> !Within(d, table[j].bound)
  {
    if table == [] then None
    else if Within(d, table[0].bound) then Some(0)
    else
      match FirstMatch(table[1..], d)
      case None => None
      case Some(k) => Some(k + 1)
  }

  /** `get_metro_fare`: the first matching band's fare, else 90.0. */
  function MetroFareOf(table: seq<Band>, d: real): real {
    match FirstMatch(table, d)
    case Some(i) => table[i].fare
    case None => 90.0
  }

  /** `get_bus_fare`: the first matching band's fare, else the last band's
      fare, else `5 + 2d` for an empty table. */
  function BusFareOf(table: seq<Band>, d: real): real {
    match FirstMatch(table, d)
    case Some(i) => table[i].fare
    case None => if table != [] then table[|table| - 1].fare else 5.0 + d * 2.0
  }

  method MetroFare(table: seq<Band>, d: real) returns (fare: real)
    ensures fare == MetroFareOf(table, d)
  {
    for i := 0 to |table|
      invariant forall j :: 0 <= j < i ==> !Within(d, table[j].bound)
    {
      if Within(d, table[i].bound) {
        return table[i].fare;
      }
    }
    return 90.0;
  }

  method BusFare(table: seq<Band>, d: real) returns (fare: real)
    ensures fare == BusFareOf(table, d)
  {
    for i := 0 to |table|
      invariant forall j :: 0 <= j < i ==> !Within(d, table[j].bound)
    {
      if Within(d, table[i].bound) {
        return table[i].fare;
      }
    }
    if |table| > 0 {
      return table[|table| - 1].fare;
    }
    return 5.0 + d * 2.0;
  }

  /** Fares that never fall as the bands go up. */
  predicate FaresRise(table: seq<Band>) {
    forall i, j :: 0 <= i < j < |table| ==> table[i].fare <= table[j].fare
  }

  /** A longer trip never matches an earlier band than a shorter one. */
  lemma FirstMatchMonotone(table: seq<Band>, d1: real, d2: real)
    requires d1 <= d2 && FirstMatch(table, d2).Some?
    ensures FirstMatch(table, d1).Some?
    ensures FirstMatch(table, d1).value <= FirstMatch(table, d2).value
  {
    var i2 := FirstMatch(table, d2).value;
    assert Within(d1, table[i2].bound);
  }

  /** On a table whose fares rise with the bands and stay within 90.0, a
      longer metro trip never costs less. */
  lemma MetroFareMonotone(table: seq<Band>, d1: real, d2: real)
    requires FaresRise(table) && forall i :: 0 <= i < |table| ==> table[i].fare <= 90.0
    requires d1 <= d2
    ensures MetroFareOf(table, d1) <= MetroFareOf(table, d2)
  {
    if FirstMatch(table, d2).Some? {
      FirstMatchMonotone(table, d1, d2);
    }
  }

  /** On a table whose fares rise with the bands, a longer bus trip never
      costs less, the last-band fallback included. */
  lemma BusFareMonotone(table: seq<Band>, d1: real, d2: real)
    requires FaresRise(table)
    requires d1 <= d2
    ensures BusFareOf(table, d1) <= BusFareOf(table, d2)
  {
    if FirstMatch(table, d2).Some? {
      FirstMatchMonotone(table, d1, d2);
    } else if FirstMatch(table, d1).Some? && table != [] {
      var i1 := FirstMatch(table, d1).value;
      assert i1 < |table| - 1 || i1 == |table| - 1;
    }
  }

  /** In a table sorted by bound, every band from the first match on also
      covers the distance: the first match is the tightest band. */
  lemma SortedFirstMatchTightest(table: seq<Band>, d: real)
    requires Sorting.SortedBy(table, BandLe) && FirstMatch(table, d).Some?
    ensures forall j :: FirstMatch(table, d).value <= j < |table| ==> Within(d, table[j].bound)
  {
    var i := FirstMatch(table, d).value;
    forall j | i <= j < |table| ensures Within(d, table[j].bound) {
      if j > i { assert BandLe(table[i], table[j]); }
    }
  }

  lemma {:induction false} ParsedHasRow(rows: seq<FareRow>, parse: ParseFloat, openEnded: bool, k: nat)
    requires k < |rows| && ParseRow(rows[k], parse, openEnded).Some?
    ensures ParseRow(rows[k], parse, openEnded).value in Parsed(rows, parse, openEnded)
  {
    var init := rows[..|rows| - 1];
    if k < |rows| - 1 {
      assert init[k] == rows[k];
      ParsedHasRow(init, parse, openEnded, k);
    }
  }

  /** Once a metro row `"Above …"` with a readable fare has been loaded, every
      distance finds a band, so the 90.0 fallback is never reached. */
  lemma AboveRowCoversAll(table: seq<Band>, rows: seq<FareRow>, parse: ParseFloat, k: nat, d: real)
    requires k < |rows| && Contains(rows[k].distance, "Above") && parse(rows[k].fare).Some?
    ensures FirstMatch(Sorting.SortBy(table + Parsed(rows, parse, true), BandLe), d).Some?
  {
    var all := table + Parsed(rows, parse, true);
    var band := Band(Infinite, parse(rows[k].fare).value);
    ParsedHasRow(rows, parse, true, k);
    assert band in all;
    BandLeTotalPreorder();
    Sorting.SortByCorrect(all, BandLe);
    var sorted := Sorting.SortBy(all, BandLe);
    assert band in multiset(sorted);
    var i :| 0 <= i < |sorted| && sorted[i] == band;
    assert Within(d, sorted[i].bound);
  }
}
