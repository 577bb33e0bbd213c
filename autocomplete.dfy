/** The `/autocomplete` endpoint: suggestions for a partly typed place name,
    drawn from the locality table, the metro stations and (at most five) bus
    stops, topped up from the external geocoder when fewer than five local
    suggestions were found, and cut to ten. */
module Autocomplete {
  import opened Base
  import opened Text
  import opened Stations
  import opened Places
  import opened TransitData

  datatype Kind = Location | MetroStation | BusStopKind | Address

  /** One suggestion; `fullName` is only given for geocoder addresses. */
  datatype Suggestion = Suggestion(name: string, kind: Kind, at: Coord, fullName: Option<string>)

  /** One place as the geocoder lists it: its display name, and its
      coordinates when both parse as numbers. */
  datatype Place = Place(displayName: string, at: Option<Coord>)

  /** Table localities whose (lowercase) name contains the query, title-cased. */
  function LocationHits(q: string, entries: seq<(string, Coord)>): seq<Suggestion> {
    if entries == [] then []
    else
      var e := entries[|entries| - 1];
      LocationHits(q, entries[..|entries| - 1])
      + (if Contains(e.0, q) then [Suggestion(Title(e.0), Location, e.1, None)] else [])
  }

  /** Metro stations whose lowercased name contains the query. */
  function StationHits(q: string, stations: seq<Station>): seq<Suggestion> {
    if stations == [] then []
    else
      var s := stations[|stations| - 1];
      StationHits(q, stations[..|stations| - 1])
      + (if Contains(Lower(s.name), q) then [Suggestion(s.name, MetroStation, s.pos, None)] else [])
  }

  /** Bus stops whose lowercased name contains the query (all of them). */
  function StopHits(q: string, stops: seq<BusStop>): seq<Suggestion> {
    if stops == [] then []
    else
      var s := stops[|stops| - 1];
      StopHits(q, stops[..|stops| - 1])
      + (if Contains(Lower(s.name), q) then [Suggestion(s.name, BusStopKind, s.pos, None)] else [])
  }

  /** The hits of a prefix of the stops come first among the hits of all. */
  lemma {:induction false} StopHitsPrefix(q: string, stops: seq<BusStop>, i: nat)
    requires i <= |stops|
    ensures StopHits(q, stops[..i]) <= StopHits(q, stops)
    decreases |stops| - i
  {
    if i < |stops| {
      StopHitsPrefix(q, stops, i + 1);
      assert stops[..i + 1][..i] == stops[..i];
    } else {
      assert stops[..i] == stops;
    }
  }

  /** A geocoder place as a suggestion: the name up to its first comma. */
  function AddressOf(p: Place): Suggestion
    requires p.at.Some?
  {
    Suggestion(Split(p.displayName, ',')[0], Address, p.at.value, Some(p.displayName))
  }

  /** How many places lead the list before the first one whose coordinates
      do not parse (where the geocoder step gives up). */
  function Parsable(places: seq<Place>): (n: nat)
    ensures n <= |places|
    ensures forall i :: 0 <= i < n ==> places[i].at.Some?
    ensures n < |places| ==> places[n].at.None?
  {
    if places == [] || places[0].at.None? then 0
    else
      var n := Parsable(places[1..]);
      assert forall i :: 1 <= i < n + 1 ==> places[i] == places[1..][i - 1];
      n + 1
  }

  function Addresses(places: seq<Place>): seq<Suggestion>
    requires forall i :: 0 <= i < |places| ==> places[i].at.Some?
  {
    if places == [] then [] else Addresses(places[..|places| - 1]) + [AddressOf(places[|places| - 1])]
  }

  /** Local suggestions: localities, then stations, then the first five
      matching stops. */
  function LocalHits(q: string, stations: seq<Station>, stops: seq<BusStop>): seq<Suggestion> {
    var b := StopHits(q, stops);
    LocationHits(q, Locations) + StationHits(q, stations) + b[..if |b| < 5 then |b| else 5]
  }

  /** The whole answer for the raw query text. */
  function Suggestions(query: string, stations: seq<Station>, stops: seq<BusStop>, places: seq<Place>)
    : seq<Suggestion>
  {
    var q := Lower(query);
    var local := LocalHits(q, stations, stops);
    var all := if |local| < 5 then local + Addresses(places[..Parsable(places)]) else local;
    all[..if |all| < 10 then |all| else 10]
  }

  /** The endpoint: three scans over the local data (the stop scan stops at
      the fifth hit), the geocoder places when few were found, the first
      ten. `places` is the geocoder's answer, empty when it fails. */
  method Autocomplete(data: TransitData, query: string, places: seq<Place>) returns (results: seq<Suggestion>)
    requires |query| >= 2
    ensures results == Suggestions(query, data.metroStations, data.busStops, places)
  {
    var q := Lower(query);
    results := LocationScan(q);
    var stations := StationScan(q, data.metroStations);
    results := results + stations;
    var stops := StopScan(q, data.busStops);
    results := results + stops;
    if |results| < 5 {
      var extra := AddressScan(places);
      results := results + extra;
    }
    if |results| > 10 {
      results := results[..10];
    }
  }

  method LocationScan(q: string) returns (found: seq<Suggestion>)
    ensures found == LocationHits(q, Locations)
  {
    found := [];
    for i := 0 to |Locations|
      invariant found == LocationHits(q, Locations[..i])
    {
      assert Locations[..i + 1][..i] == Locations[..i];
      var (name, at) := Locations[i];
      if Contains(name, q) {
        found := found + [Suggestion(Title(name), Location, at, None)];
      }
    }
    assert Locations[..|Locations|] == Locations;
  }

  method StationScan(q: string, stations: seq<Station>) returns (found: seq<Suggestion>)
    ensures found == StationHits(q, stations)
  {
    found := [];
    for i := 0 to |stations|
      invariant found == StationHits(q, stations[..i])
    {
      assert stations[..i + 1][..i] == stations[..i];
      if Contains(Lower(stations[i].name), q) {
        found := found + [Suggestion(stations[i].name, MetroStation, stations[i].pos, None)];
      }
    }
    assert stations[..|stations|] == stations;
  }

  /** The stop scan, which stops at the fifth hit. */
  method StopScan(q: string, stops: seq<BusStop>) returns (found: seq<Suggestion>)
    ensures var b := StopHits(q, stops); found == b[..if |b| < 5 then |b| else 5]
  {
    found := [];
    var i := 0;
    while i < |stops|
      invariant i <= |stops|
      invariant found == StopHits(q, stops[..i]) && |found| < 5
    {
      assert stops[..i + 1][..i] == stops[..i];
      if Contains(Lower(stops[i].name), q) {
        found := found + [Suggestion(stops[i].name, BusStopKind, stops[i].pos, None)];
        if |found| >= 5 {
          StopHitsPrefix(q, stops, i + 1);
          return;
        }
      }
      i := i + 1;
    }
    assert stops[..i] == stops;
  }

  /** The geocoder places in order, up to the first whose coordinates do
      not parse. */
  method AddressScan(places: seq<Place>) returns (found: seq<Suggestion>)
    ensures found == Addresses(places[..Parsable(places)])
  {
    found := [];
    var i := 0;
    while i < |places| && places[i].at.Some?
      invariant i <= Parsable(places)
      invariant found == Addresses(places[..i])
    {
      assert places[..i + 1][..i] == places[..i];
      found := found + [AddressOf(places[i])];
      i := i + 1;
    }
  }

  // ---- what every answer satisfies ----

  /** Where a kind of suggestion is listed: localities, stations, stops,
      then addresses. */
  function KindRank(k: Kind): nat {
    match k
    case Location => 0
    case MetroStation => 1
    case BusStopKind => 2
    case Address => 3
  }

  /** The suggestion is of kind `k` and, when it comes from local data, its
      name lowercased contains the query. */
  predicate Hit(s: Suggestion, q: string, k: Kind) {
    s.kind == k && (k != Address ==> Contains(Lower(s.name), q))
  }

  predicate AllHits(ss: seq<Suggestion>, q: string, k: Kind) {
    forall i :: 0 <= i < |ss| ==> Hit(ss[i], q, k)
  }

  lemma TableLowercase()
    ensures forall i :: 0 <= i < |Locations| ==> NoUpper(Locations[i].0)
  {
  }

  lemma {:induction false} LocationHitsMatch(q: string, entries: seq<(string, Coord)>)
    requires forall i :: 0 <= i < |entries| ==> NoUpper(entries[i].0)
    ensures AllHits(LocationHits(q, entries), q, Location)
    decreases |entries|
  {
    if entries != [] {
      var e := entries[|entries| - 1];
      LocationHitsMatch(q, entries[..|entries| - 1]);
      LowerOfTitle(e.0);
    }
  }

  lemma {:induction false} StationHitsMatch(q: string, stations: seq<Station>)
    ensures AllHits(StationHits(q, stations), q, MetroStation)
    decreases |stations|
  {
    if stations != [] {
      StationHitsMatch(q, stations[..|stations| - 1]);
    }
  }

  lemma {:induction false} StopHitsMatch(q: string, stops: seq<BusStop>)
    ensures AllHits(StopHits(q, stops), q, BusStopKind)
    decreases |stops|
  {
    if stops != [] {
      StopHitsMatch(q, stops[..|stops| - 1]);
    }
  }

  lemma {:induction false} AddressesMatch(q: string, places: seq<Place>)
    requires forall i :: 0 <= i < |places| ==> places[i].at.Some?
    ensures AllHits(Addresses(places), q, Address)
    decreases |places|
  {
    if places != [] {
      AddressesMatch(q, places[..|places| - 1]);
    }
  }

  /** Every locality containing the query is among the locality hits. */
  lemma {:induction false} LocationHitsComplete(q: string, entries: seq<(string, Coord)>, k: nat)
    requires k < |entries| && Contains(entries[k].0, q)
    ensures Suggestion(Title(entries[k].0), Location, entries[k].1, None) in LocationHits(q, entries)
    decreases |entries|
  {
    if k < |entries| - 1 {
      LocationHitsComplete(q, entries[..|entries| - 1], k);
    }
  }

  /** Every station whose lowercased name contains the query is among the station hits. */
  lemma {:induction false} StationHitsComplete(q: string, stations: seq<Station>, k: nat)
    requires k < |stations| && Contains(Lower(stations[k].name), q)
    ensures Suggestion(stations[k].name, MetroStation, stations[k].pos, None) in StationHits(q, stations)
    decreases |stations|
  {
    if k < |stations| - 1 {
      StationHitsComplete(q, stations[..|stations| - 1], k);
    }
  }

  /** Every stop whose lowercased name contains the query is among the stop hits. */
  lemma {:induction false} StopHitsComplete(q: string, stops: seq<BusStop>, k: nat)
    requires k < |stops| && Contains(Lower(stops[k].name), q)
    ensures Suggestion(stops[k].name, BusStopKind, stops[k].pos, None) in StopHits(q, stops)
    decreases |stops|
  {
    if k < |stops| - 1 {
      StopHitsComplete(q, stops[..|stops| - 1], k);
    }
  }

  /** A matching stop preceded by fewer than five matching stops survives
      the stop scan's break at five. */
  lemma StopKeptBeforeBreak(q: string, stops: seq<BusStop>, k: nat)
    requires k < |stops| && Contains(Lower(stops[k].name), q)
    requires |StopHits(q, stops[..k])| < 5
    ensures var b := StopHits(q, stops);
      Suggestion(stops[k].name, BusStopKind, stops[k].pos, None) in b[..if |b| < 5 then |b| else 5]
  {
    var b := StopHits(q, stops);
    var before := StopHits(q, stops[..k]);
    assert stops[..k + 1][..k] == stops[..k];
    assert StopHits(q, stops[..k + 1]) == before + [Suggestion(stops[k].name, BusStopKind, stops[k].pos, None)];
    StopHitsPrefix(q, stops, k + 1);
    assert b[|before|] == Suggestion(stops[k].name, BusStopKind, stops[k].pos, None);
  }

  /** The local suggestions in their three groups, the stops cut to five. */
  lemma LocalHitsParts(q: string, stations: seq<Station>, stops: seq<BusStop>)
    returns (l: seq<Suggestion>, m: seq<Suggestion>, b: seq<Suggestion>)
    ensures LocalHits(q, stations, stops) == l + m + b
    ensures AllHits(l, q, Location) && AllHits(m, q, MetroStation) && AllHits(b, q, BusStopKind)
    ensures |b| <= 5
  {
    TableLowercase();
    LocationHitsMatch(q, Locations);
    StationHitsMatch(q, stations);
    StopHitsMatch(q, stops);
    l, m := LocationHits(q, Locations), StationHits(q, stations);
    var all := StopHits(q, stops);
    b := all[..if |all| < 5 then |all| else 5];
  }

  /** The answer before the cut to ten, in its four groups. */
  lemma AnswerParts(query: string, stations: seq<Station>, stops: seq<BusStop>, places: seq<Place>)
    returns (all: seq<Suggestion>)
    ensures var r := Suggestions(query, stations, stops, places);
      r == all[..if |all| < 10 then |all| else 10]
    ensures var local := LocalHits(Lower(query), stations, stops);
      local <= all && (|local| >= 5 ==> all == local)
    ensures forall i :: 0 <= i < |all| ==> Hit(all[i], Lower(query), all[i].kind)
    ensures forall i, j :: 0 <= i <= j < |all| ==> KindRank(all[i].kind) <= KindRank(all[j].kind)
    ensures forall i, j :: 0 <= i < j < |all| && all[i].kind == BusStopKind && all[j].kind == BusStopKind ==> j - i < 5
  {
    var q := Lower(query);
    var l, m, b := LocalHitsParts(q, stations, stops);
    var extra := Addresses(places[..Parsable(places)]);
    AddressesMatch(q, places[..Parsable(places)]);
    all := if |l + m + b| < 5 then l + m + b + extra else l + m + b;
    assert forall i :: 0 <= i < |all| ==>
      (i < |l| ==> Hit(all[i], q, Location))
      && (|l| <= i < |l| + |m| ==> Hit(all[i], q, MetroStation))
      && (|l| + |m| <= i < |l| + |m| + |b| ==> Hit(all[i], q, BusStopKind))
      && (|l| + |m| + |b| <= i ==> Hit(all[i], q, Address));
  }

  /** At most ten suggestions; localities, then stations, then at most five
      stops, then addresses; every local suggestion's lowercased name
      contains the lowercased query. */
  lemma SuggestionsShape(query: string, stations: seq<Station>, stops: seq<BusStop>, places: seq<Place>)
    ensures var r := Suggestions(query, stations, stops, places);
      && |r| <= 10
      && (forall i :: 0 <= i < |r| ==> Hit(r[i], Lower(query), r[i].kind))
      && (forall i, j :: 0 <= i <= j < |r| ==> KindRank(r[i].kind) <= KindRank(r[j].kind))
      && (forall i, j :: 0 <= i < j < |r| && r[i].kind == BusStopKind && r[j].kind == BusStopKind ==> j - i < 5)
  {
    var all := AnswerParts(query, stations, stops, places);
  }

  /** The local suggestions are listed first, as many as fit in ten, and the
      geocoder's addresses appear only when fewer than five were found. */
  lemma LocalFirst(query: string, stations: seq<Station>, stops: seq<BusStop>, places: seq<Place>)
    ensures var r := Suggestions(query, stations, stops, places);
      var local := LocalHits(Lower(query), stations, stops);
      && (|local| >= 5 ==> forall i :: 0 <= i < |r| ==> r[i].kind != Address)
      && (var k := if |local| < 10 then |local| else 10; r[..k] == local[..k])
  {
    var all := AnswerParts(query, stations, stops, places);
    var local := LocalHits(Lower(query), stations, stops);
    if |local| >= 5 {
      var l, m, b := LocalHitsParts(Lower(query), stations, stops);
    }
  }

  /** Nothing that matches is lost while the local suggestions fit in ten:
      every locality and station containing the query is suggested, and so
      is every matching stop before the fifth. */
  lemma MatchesSuggested(query: string, stations: seq<Station>, stops: seq<BusStop>, places: seq<Place>)
    requires |LocalHits(Lower(query), stations, stops)| <= 10
    ensures var r, q := Suggestions(query, stations, stops, places), Lower(query);
      && (forall k :: 0 <= k < |Locations| && Contains(Locations[k].0, q) ==>
            Suggestion(Title(Locations[k].0), Location, Locations[k].1, None) in r)
      && (forall k :: 0 <= k < |stations| && Contains(Lower(stations[k].name), q) ==>
            Suggestion(stations[k].name, MetroStation, stations[k].pos, None) in r)
      && (forall k :: 0 <= k < |stops| && Contains(Lower(stops[k].name), q) && |StopHits(q, stops[..k])| < 5 ==>
            Suggestion(stops[k].name, BusStopKind, stops[k].pos, None) in r)
  {
    var r, q := Suggestions(query, stations, stops, places), Lower(query);
    var local := LocalHits(q, stations, stops);
    LocalFirst(query, stations, stops, places);
    assert local == r[..|local|];
    var l, m, b := LocationHits(q, Locations), StationHits(q, stations), StopHits(q, stops);
    var cut := b[..if |b| < 5 then |b| else 5];
    assert local == l + m + cut;
    forall k | 0 <= k < |Locations| && Contains(Locations[k].0, q)
      ensures Suggestion(Title(Locations[k].0), Location, Locations[k].1, None) in r
    {
      LocationHitsComplete(q, Locations, k);
      InPrefix(l + m + cut, r, Suggestion(Title(Locations[k].0), Location, Locations[k].1, None));
    }
    forall k | 0 <= k < |stations| && Contains(Lower(stations[k].name), q)
      ensures Suggestion(stations[k].name, MetroStation, stations[k].pos, None) in r
    {
      StationHitsComplete(q, stations, k);
      InPrefix(l + m + cut, r, Suggestion(stations[k].name, MetroStation, stations[k].pos, None));
    }
    forall k | 0 <= k < |stops| && Contains(Lower(stops[k].name), q) && |StopHits(q, stops[..k])| < 5
      ensures Suggestion(stops[k].name, BusStopKind, stops[k].pos, None) in r
    {
      StopKeptBeforeBreak(q, stops, k);
      InPrefix(l + m + cut, r, Suggestion(stops[k].name, BusStopKind, stops[k].pos, None));
    }
  }

  lemma InPrefix<T>(p: seq<T>, s: seq<T>, x: T)
    requires x in p && |p| <= |s| && p == s[..|p|]
    ensures x in s
  {
    var i :| 0 <= i < |p| && p[i] == x;
    assert s[i] == x;
  }
}
