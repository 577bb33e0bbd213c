/** `search_routes`: resolve both ends, measure the trip, find the nearest
    stations and stops, offer the cab card, the metro options and the bus
    option in that order, then rescore and rank them. The outside services
    (the road-distance routers, the geocoder, the clock and the great-circle
    distance) are parameters. */
module Search {
  import opened Base
  import opened Text
  import Sorting
  import opened Fares
  import opened Stations
  import opened Journeys
  import opened Preferences
  import opened Scoring
  import opened Places
  import opened TransitData

  /** The query parameters that shape the answer. */
  datatype Query = Query(
    start: string, destination: string,
    startLat: Option<real>, startLon: Option<real>,
    destLat: Option<real>, destLon: Option<real>,
    preference: string)

  /** What the planner asks of the world: the great-circle distance, a
      routing service's road distance for a pair of points (none when the
      services fail), the geocoder, and the hour of the day. */
  datatype World = World(
    dist: Metric, road: (Coord, Coord) -> Option<real>, geocode: string -> Option<Coord>, hour: int)

  datatype Response = Response(
    start: string, startCoords: Coord, destination: string, destinationCoords: Coord,
    totalDistanceKm: real, routes: seq<Route>)

  /** The coordinates given with the query, when both are given; else the
      table entry for the lowercased name; else the geocoder's answer; else
      the table entry for the fallback place (which may in principle be
      missing, hence the option). */
  function Locate(lat: Option<real>, lon: Option<real>, name: string, geocode: string -> Option<Coord>,
                  fallback: string): Option<Coord> {
    if lat.Some? && lon.Some? then Some(Coord(lat.value, lon.value))
    else if LookupLocation(Lower(name)).Some? then LookupLocation(Lower(name))
    else if geocode(name).Some? then geocode(name)
    else LookupLocation(fallback)
  }

  /** The last-resort defaults used when a location is still unresolved. */
  const DefaultStart := Coord(12.9784, 77.6408)
  const DefaultDest := Coord(12.9719, 77.6101)

  function OrElse(c: Option<Coord>, d: Coord): Coord { if c.Some? then c.value else d }

  function StartOf(q: Query, w: World): Coord {
    OrElse(Locate(q.startLat, q.startLon, q.start, w.geocode, "indiranagar"), DefaultStart)
  }

  function DestOf(q: Query, w: World): Coord {
    OrElse(Locate(q.destLat, q.destLon, q.destination, w.geocode, "mg road"), DefaultDest)
  }

  /** `get_road_distance`: the routing services' answer, else 1.3 times the
      straight-line distance, which is then never shorter than it. */
  function RoadKm(w: World, a: Coord, b: Coord): (km: real)
    ensures w.road(a, b).Some? ==> km == w.road(a, b).value
    ensures w.road(a, b).None? ==> km == w.dist(a, b) * 1.3
    ensures w.road(a, b).None? ==> km >= w.dist(a, b) >= 0.0
  {
    if w.road(a, b).Some? then w.road(a, b).value else w.dist(a, b) * 1.3
  }

  /** The journeys offered for a trip from `s` to `d` of `total` road km,
      before scoring: the cab card, then the metro options, then the bus
      option. */
  function Cards(s: Coord, d: Coord, total: real, hour: int, dist: Metric,
                 sm: Nearest<Station>, em: Nearest<Station>, sb: Nearest<BusStop>, eb: Nearest<BusStop>,
                 busFares: seq<Band>, metroFares: seq<Band>, destination: string): seq<Route> {
    [CabRoute(total, Surge(hour), s, d)]
    + MetroOptions(sm, em, metroFares, dist, s, d)
    + BusOptions(sb, eb, busFares, total, s, d, destination)
  }

  /** The journeys offered for a query. */
  function Offered(stations: seq<Station>, stops: seq<BusStop>, busFares: seq<Band>, metroFares: seq<Band>,
                   q: Query, w: World): seq<Route> {
    var s, d := StartOf(q, w), DestOf(q, w);
    Cards(s, d, RoadKm(w, s, d), w.hour, w.dist,
      NearestOf(s, stations, StationPos, w.dist), NearestOf(d, stations, StationPos, w.dist),
      NearestOf(s, stops, StopPos, w.dist), NearestOf(d, stops, StopPos, w.dist),
      busFares, metroFares, q.destination)
  }

  /** The whole answer to a query. */
  function Plan(stations: seq<Station>, stops: seq<BusStop>, busFares: seq<Band>, metroFares: seq<Band>,
                weights: map<Mode, real>, q: Query, w: World): Response
    requires Complete(weights)
  {
    var s, d := StartOf(q, w), DestOf(q, w);
    Response(q.start, s, q.destination, d, RoundHalfEven(RoadKm(w, s, d), 100),
      Ranked(ScoredAll(Offered(stations, stops, busFares, metroFares, q, w), weights, q.preference)))
  }

  /** The endpoint itself, over the loaded transit data and the learnt
      weights; it changes neither. */
  method SearchRoutes(data: TransitData, store: WeightStore, q: Query, w: World) returns (resp: Response)
    requires store.Valid()
    ensures resp == Plan(data.metroStations, data.busStops, data.busFares, data.metroFares, store.weights, q, w)
  {
    var s := OrElse(Locate(q.startLat, q.startLon, q.start, w.geocode, "indiranagar"), DefaultStart);
    var d := OrElse(Locate(q.destLat, q.destLon, q.destination, w.geocode, "mg road"), DefaultDest);
    var total := RoadKm(w, s, d);
    var startMetro := FindNearest(s, data.metroStations, StationPos, w.dist);
    var endMetro := FindNearest(d, data.metroStations, StationPos, w.dist);
    var startBus := FindNearest(s, data.busStops, StopPos, w.dist);
    var endBus := FindNearest(d, data.busStops, StopPos, w.dist);
    var routes := [CabRoute(total, Surge(w.hour), s, d)];
    routes := routes + MetroOptions(startMetro, endMetro, data.metroFares, w.dist, s, d);
    routes := routes + BusOptions(startBus, endBus, data.busFares, total, s, d, q.destination);
    var scored := ScoreRoutes(routes, store.weights, q.preference);
    resp := Response(q.start, s, q.destination, d, RoundHalfEven(total, 100), Ranked(scored));
  }

  // ---- what every answer satisfies ----

  /** Coordinates sent with the query are used as they are. */
  lemma GivenCoordinatesWin(q: Query, w: World)
    requires q.startLat.Some? && q.startLon.Some?
    ensures StartOf(q, w) == Coord(q.startLat.value, q.startLon.value)
  {
  }

  /** A place from the table is resolved without the geocoder: any two
      geocoders give the same start. */
  lemma ListedPlaceSkipsGeocoder(q: Query, w1: World, w2: World)
    requires LookupLocation(Lower(q.start)).Some?
    ensures StartOf(q, w1) == StartOf(q, w2)
  {
  }

  /** The fallback places are always in the table, so the last-resort
      defaults are never used: every unresolved start is Indiranagar and
      every unresolved destination MG Road (which the defaults equal). */
  lemma DefaultsUnused(q: Query, w: World)
    ensures Locate(q.startLat, q.startLon, q.start, w.geocode, "indiranagar").Some?
    ensures Locate(q.destLat, q.destLon, q.destination, w.geocode, "mg road").Some?
    ensures LookupLocation("indiranagar") == Some(DefaultStart)
    ensures LookupLocation("mg road") == Some(DefaultDest)
  {
    FallbacksListed();
    FallbackFound(q.startLat, q.startLon, q.start, w.geocode, "indiranagar");
    FallbackFound(q.destLat, q.destLon, q.destination, w.geocode, "mg road");
  }

  lemma FallbackFound(lat: Option<real>, lon: Option<real>, name: string, geocode: string -> Option<Coord>,
                      fallback: string)
    requires LookupLocation(fallback).Some?
    ensures Locate(lat, lon, name, geocode, fallback).Some?
  {
  }

  predicate IsCabCard(r: Route) { r.id == 1 }

  lemma {:induction false} ScoringKeepsIds(rs: seq<Route>, weights: map<Mode, real>, priority: string)
    requires Complete(weights)
    ensures Sorting.Count(ScoredAll(rs, weights, priority), IsCabCard) == Sorting.Count(rs, IsCabCard)
  {
    if rs != [] {
      assert ScoredAll(rs, weights, priority)[1..] == ScoredAll(rs[1..], weights, priority);
      ScoringKeepsIds(rs[1..], weights, priority);
    }
  }

  lemma {:induction false} NoCabCardAmong(rs: seq<Route>)
    requires forall i :: 0 <= i < |rs| ==> rs[i].id != 1
    ensures Sorting.Count(rs, IsCabCard) == 0
  {
    if rs != [] {
      NoCabCardAmong(rs[1..]);
    }
  }

  /** Rescoring and ranking keep the number of journeys and of cab cards,
      and leave every score in [1, 10]. */
  lemma RankingKeepsCards(offered: seq<Route>, weights: map<Mode, real>, priority: string)
    requires Complete(weights)
    ensures var rs := Ranked(ScoredAll(offered, weights, priority));
      && |rs| == |offered|
      && Sorting.Count(rs, IsCabCard) == Sorting.Count(offered, IsCabCard)
      && forall i :: 0 <= i < |rs| ==> 1.0 <= rs[i].aiScore <= 10.0
  {
    var scored := ScoredAll(offered, weights, priority);
    ScoringKeepsIds(offered, weights, priority);
    var ranked := Ranked(scored);
    Sorting.CountPermutation(ranked, scored, IsCabCard);
    assert |ranked| == |scored| by {
      assert |multiset(ranked)| == |multiset(scored)|;
    }
    forall i | 0 <= i < |ranked| ensures 1.0 <= ranked[i].aiScore <= 10.0 {
      assert ranked[i] in multiset(scored);
    }
  }

  /** A cab card followed by up to two metro options and up to one bus
      option, none of them a cab card, holds exactly one cab card. */
  lemma OneCabCard(cab: Route, metro: seq<Route>, bus: seq<Route>)
    requires cab.id == 1
    requires forall i :: 0 <= i < |metro| ==> metro[i].id != 1
    requires forall i :: 0 <= i < |bus| ==> bus[i].id != 1
    ensures Sorting.Count([cab] + metro + bus, IsCabCard) == 1
  {
    NoCabCardAmong(metro);
    NoCabCardAmong(bus);
    Sorting.CountAppend([cab], metro, IsCabCard);
    Sorting.CountAppend([cab] + metro, bus, IsCabCard);
    assert Sorting.Count([cab], IsCabCard) == 1;
  }

  /** The journeys offered: the cab card first, and then at most three more,
      none of them a cab card. */
  lemma CardsShape(s: Coord, d: Coord, total: real, hour: int, dist: Metric,
                   sm: Nearest<Station>, em: Nearest<Station>, sb: Nearest<BusStop>, eb: Nearest<BusStop>,
                   busFares: seq<Band>, metroFares: seq<Band>, destination: string)
    ensures var cards := Cards(s, d, total, hour, dist, sm, em, sb, eb, busFares, metroFares, destination);
      && 1 <= |cards| <= 4 && cards[0] == CabRoute(total, Surge(hour), s, d)
      && Sorting.Count(cards, IsCabCard) == 1
  {
    var metro := MetroOptions(sm, em, metroFares, dist, s, d);
    var bus := BusOptions(sb, eb, busFares, total, s, d, destination);
    MetroOptionsShape(sm, em, metroFares, dist, s, d);
    BusOptionsShape(sb, eb, busFares, total, s, d, destination);
    OneCabCard(CabRoute(total, Surge(hour), s, d), metro, bus);
  }

  /** Every answer offers between one and four journeys, exactly one of them
      the cab card, ranked by score with every score in [1, 10]. */
  lemma AnswerShape(stations: seq<Station>, stops: seq<BusStop>, busFares: seq<Band>, metroFares: seq<Band>,
                    weights: map<Mode, real>, q: Query, w: World)
    requires Complete(weights)
    ensures var rs := Plan(stations, stops, busFares, metroFares, weights, q, w).routes;
      && 1 <= |rs| <= 4
      && Sorting.Count(rs, IsCabCard) == 1
      && Sorting.SortedBy(rs, ByScore)
      && forall i :: 0 <= i < |rs| ==> 1.0 <= rs[i].aiScore <= 10.0
  {
    var s, d := StartOf(q, w), DestOf(q, w);
    CardsShape(s, d, RoadKm(w, s, d), w.hour, w.dist,
      NearestOf(s, stations, StationPos, w.dist), NearestOf(d, stations, StationPos, w.dist),
      NearestOf(s, stops, StopPos, w.dist), NearestOf(d, stops, StopPos, w.dist),
      busFares, metroFares, q.destination);
    RankingKeepsCards(Offered(stations, stops, busFares, metroFares, q, w), weights, q.preference);
  }

  /** When speed matters and the cab weight has not been trained below -2,
      the first journey offered is the cab card, scored 10. */
  lemma SpeedAnswersCabFirst(stations: seq<Station>, stops: seq<BusStop>, busFares: seq<Band>, metroFares: seq<Band>,
                             weights: map<Mode, real>, q: Query, w: World)
    requires Complete(weights) && weights[Cab] >= -2.0 && q.preference == "speed"
    ensures var rs := Plan(stations, stops, busFares, metroFares, weights, q, w).routes;
      rs[0].id == 1 && rs[0].mode == "Cab Direct" && rs[0].aiScore == 10.0
  {
    var s, d := StartOf(q, w), DestOf(q, w);
    var total := RoadKm(w, s, d);
    var cards := Cards(s, d, total, w.hour, w.dist,
      NearestOf(s, stations, StationPos, w.dist), NearestOf(d, stations, StationPos, w.dist),
      NearestOf(s, stops, StopPos, w.dist), NearestOf(d, stops, StopPos, w.dist),
      busFares, metroFares, q.destination);
    var cab := CabRoute(total, Surge(w.hour), s, d);
    assert cards == [cab] + cards[1..];
    SpeedPutsCabFirst(cab, cards[1..], weights);
  }
}
