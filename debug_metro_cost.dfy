/** The stand-alone metro fare checker: its own metro fare list, loaded by the
    same rules as the planner's metro table ("Above …" rows open-ended, other
    rows `a-b`, then a stable sort by bound), and its own fare lookup. */
module DebugMetroCost {
  import Sorting
  import opened Fares

  class FareChecker {
    var metroFares: seq<Band>

    constructor()
      ensures metroFares == []
    {
      metroFares := [];
    }

    /** `load_fares`: the readable rows are appended and the list is sorted
        by bound. */
    method LoadFares(rows: seq<FareRow>, parse: ParseFloat)
      modifies this
      ensures metroFares == Sorting.SortBy(old(metroFares) + Parsed(rows, parse, true), BandLe)
      ensures Sorting.SortedBy(metroFares, BandLe)
      ensures multiset(metroFares) == multiset(old(metroFares) + Parsed(rows, parse, true))
    {
      metroFares := LoadFareRows(metroFares, rows, parse, true);
    }

    /** `get_metro_fare`: the first band covering the distance, else 90.0. */
    method GetMetroFare(d: real) returns (fare: real)
      ensures fare == MetroFareOf(metroFares, d)
      ensures FirstMatch(metroFares, d).Some? ==> fare == metroFares[FirstMatch(metroFares, d).value].fare
      ensures FirstMatch(metroFares, d).None? ==> fare == 90.0
    {
      fare := MetroFare(metroFares, d);
    }
  }
}
