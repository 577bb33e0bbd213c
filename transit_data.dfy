/** The data the planner loads once at start-up and keeps in module-level
    lists: metro lines and stations from the GeoJSON file, bus stops, the bus
    and metro fare tables, and the route numbers of each bus stop. Each load
    stage appends to its list; the fare stages then sort their table. */
module TransitData {
  import opened Base
  import opened Text
  import Sorting
  import opened Fares
  import opened Stations
  import opened BusRoutes

  /** A GeoJSON position: longitude first. */
  datatype LonLat = LonLat(lon: real, lat: real)

  /** A feature of the metro GeoJSON file, with its optional `Name` property. */
  datatype Feature =
    | LineFeature(name: Option<string>, coords: seq<LonLat>)
    | PointFeature(name: Option<string>, at: LonLat)
    | OtherFeature

  /** A row of the bus-stop CSV: the `NAME`, `X` (longitude) and `Y`
      (latitude) cells. */
  datatype StopRow = StopRow(name: string, x: string, y: string)

  function NameOr(name: Option<string>, default: string): string {
    if name.Some? then name.value else default
  }

  function ToCoord(p: LonLat): Coord { Coord(p.lat, p.lon) }

  /** The names given to features without a `Name` property. */
  const UnknownLine: string := "Unknown Line"
  const UnknownStation: string := "Unknown Station"

  /** The metro line a `LineString` feature describes, its path turned into
      (latitude, longitude) order. */
  function LineOf(name: Option<string>, coords: seq<LonLat>): MetroLine {
    var n := NameOr(name, UnknownLine);
    MetroLine(n, LineColor(n), PathOf(coords))
  }

  /** A GeoJSON path in (latitude, longitude) order. */
  function PathOf(coords: seq<LonLat>): (path: seq<Coord>)
    ensures |path| == |coords|
    ensures forall i :: 0 <= i < |coords| ==> path[i] == ToCoord(coords[i])
  {
    if coords == [] then [] else PathOf(coords[..|coords| - 1]) + [ToCoord(coords[|coords| - 1])]
  }

  /** The lines of the file, in file order. */
  function LinesIn(features: seq<Feature>): seq<MetroLine> {
    if features == [] then []
    else
      var f := features[|features| - 1];
      LinesIn(features[..|features| - 1]) + (if f.LineFeature? then [LineOf(f.name, f.coords)] else [])
  }

  lemma LinesInSnoc(features: seq<Feature>, i: nat)
    requires i < |features|
    ensures LinesIn(features[..i + 1]) == LinesIn(features[..i])
      + (if features[i].LineFeature? then [LineOf(features[i].name, features[i].coords)] else [])
  {
    assert features[..i + 1][..i] == features[..i];
  }

  /** The stations of the file, in file order, each assigned to a line of
      `lines`. */
  function StationsIn(features: seq<Feature>, lines: seq<MetroLine>): seq<Station> {
    if features == [] then []
    else
      var f := features[|features| - 1];
      StationsIn(features[..|features| - 1], lines)
      + (if f.PointFeature?
         then [Station(NameOr(f.name, UnknownStation), ToCoord(f.at), LineAt(lines, ToCoord(f.at)))]
         else [])
  }

  /** The stop a bus-stop row describes; a row whose `X` or `Y` does not
      parse is skipped. */
  function StopOf(row: StopRow, parse: ParseFloat): Option<BusStop> {
    match parse(row.x)
    case None => None
    case Some(lon) =>
      match parse(row.y)
      case None => None
      case Some(lat) => Some(BusStop(row.name, Coord(lat, lon), []))
  }

  function StopsIn(rows: seq<StopRow>, parse: ParseFloat): seq<BusStop> {
    if rows == [] then []
    else
      var s := StopOf(rows[|rows| - 1], parse);
      StopsIn(rows[..|rows| - 1], parse) + (if s.Some? then [s.value] else [])
  }

  /** The stops after one place name of a route row has been applied. */
  function ApplyPoint(stops: seq<BusStop>, route: string, point: string): (r: seq<BusStop>)
    ensures |r| == |stops|
    ensures forall i :: 0 <= i < |stops| ==> r[i] == AfterPoint(stops[i], route, point)
  {
    seq(|stops|, i requires 0 <= i < |stops| => AfterPoint(stops[i], route, point))
  }

  function ApplyPoints(stops: seq<BusStop>, route: string, points: seq<string>): (r: seq<BusStop>)
    ensures |r| == |stops|
    ensures forall i :: 0 <= i < |stops| ==> r[i] == AfterPoints(stops[i], route, points)
  {
    seq(|stops|, i requires 0 <= i < |stops| => AfterPoints(stops[i], route, points))
  }

  function ApplyRow(stops: seq<BusStop>, row: RouteRow): (r: seq<BusStop>)
    ensures |r| == |stops|
    ensures forall i :: 0 <= i < |stops| ==> r[i] == AfterRow(stops[i], row)
  {
    seq(|stops|, i requires 0 <= i < |stops| => AfterRow(stops[i], row))
  }

  class TransitData {
    var metroLines: seq<MetroLine>
    var metroStations: seq<Station>
    var busStops: seq<BusStop>
    var busFares: seq<Band>
    var metroFares: seq<Band>

    /** All lists start empty. */
    constructor()
      ensures metroLines == [] && metroStations == [] && busStops == []
      ensures busFares == [] && metroFares == []
    {
      metroLines, metroStations, busStops := [], [], [];
      busFares, metroFares := [], [];
    }

    /** The first pass over the metro file: each line feature is appended,
        coloured by its name. */
    method LoadLines(features: seq<Feature>)
      modifies this
      ensures metroLines == old(metroLines) + LinesIn(features)
      ensures metroStations == old(metroStations) && busStops == old(busStops)
      ensures busFares == old(busFares) && metroFares == old(metroFares)
    {
      for i := 0 to |features|
        invariant metroLines == old(metroLines) + LinesIn(features[..i])
        invariant metroStations == old(metroStations) && busStops == old(busStops)
        invariant busFares == old(busFares) && metroFares == old(metroFares)
      {
        LinesInSnoc(features, i);
        var f := features[i];
        if f.LineFeature? {
          metroLines := metroLines + [LineOf(f.name, f.coords)];
        }
      }
      assert features[..|features|] == features;
    }

    /** The second pass: each point feature is appended as a station,
        assigned to the closest line among all lines loaded so far. */
    method LoadStations(features: seq<Feature>)
      modifies this
      ensures metroStations == old(metroStations) + StationsIn(features, metroLines)
      ensures metroLines == old(metroLines) && busStops == old(busStops)
      ensures busFares == old(busFares) && metroFares == old(metroFares)
    {
      for i := 0 to |features|
        invariant metroStations == old(metroStations) + StationsIn(features[..i], metroLines)
        invariant metroLines == old(metroLines) && busStops == old(busStops)
        invariant busFares == old(busFares) && metroFares == old(metroFares)
      {
        assert features[..i + 1][..i] == features[..i];
        var f := features[i];
        if f.PointFeature? {
          var at := ToCoord(f.at);
          var line := AssignLine(metroLines, at);
          metroStations := metroStations + [Station(NameOr(f.name, UnknownStation), at, line)];
        }
      }
      assert features[..|features|] == features;
    }

    /** Stage 1: lines first, then stations. */
    method LoadMetro(features: seq<Feature>)
      modifies this
      ensures metroLines == old(metroLines) + LinesIn(features)
      ensures metroStations == old(metroStations) + StationsIn(features, metroLines)
      ensures busStops == old(busStops) && busFares == old(busFares) && metroFares == old(metroFares)
    {
      LoadLines(features);
      LoadStations(features);
    }

    /** Stage 2: every bus-stop row with readable coordinates appends a stop
        with no routes yet. */
    method LoadBusStops(rows: seq<StopRow>, parse: ParseFloat)
      modifies this
      ensures busStops == old(busStops) + StopsIn(rows, parse)
      ensures metroLines == old(metroLines) && metroStations == old(metroStations)
      ensures busFares == old(busFares) && metroFares == old(metroFares)
    {
      for i := 0 to |rows|
        invariant busStops == old(busStops) + StopsIn(rows[..i], parse)
        invariant metroLines == old(metroLines) && metroStations == old(metroStations)
        invariant busFares == old(busFares) && metroFares == old(metroFares)
      {
        assert rows[..i + 1][..i] == rows[..i];
        var lon := parse(rows[i].x);
        if lon.Some? {
          var lat := parse(rows[i].y);
          if lat.Some? {
            busStops := busStops + [BusStop(rows[i].name, Coord(lat.value, lon.value), [])];
          }
        }
      }
      assert rows[..|rows|] == rows;
    }

    /** Stage 3: the bus fare table (no open-ended band), sorted by bound. */
    method LoadBusFares(rows: seq<FareRow>, parse: ParseFloat)
      modifies this
      ensures busFares == Sorting.SortBy(old(busFares) + Parsed(rows, parse, false), BandLe)
      ensures Sorting.SortedBy(busFares, BandLe)
      ensures metroLines == old(metroLines) && metroStations == old(metroStations)
      ensures busStops == old(busStops) && metroFares == old(metroFares)
    {
      busFares := LoadFareRows(busFares, rows, parse, false);
    }

    /** Stage 4: the metro fare table ("Above …" rows open-ended), sorted by
        bound. */
    method LoadMetroFares(rows: seq<FareRow>, parse: ParseFloat)
      modifies this
      ensures metroFares == Sorting.SortBy(old(metroFares) + Parsed(rows, parse, true), BandLe)
      ensures Sorting.SortedBy(metroFares, BandLe)
      ensures metroLines == old(metroLines) && metroStations == old(metroStations)
      ensures busStops == old(busStops) && busFares == old(busFares)
    {
      metroFares := LoadFareRows(metroFares, rows, parse, true);
    }

    /** One place name of a route row: every stop it matches gets the route
        appended unless it already has it. */
    method AssignPoint(route: string, point: string)
      modifies this
      ensures busStops == ApplyPoint(old(busStops), route, point)
      ensures metroLines == old(metroLines) && metroStations == old(metroStations)
      ensures busFares == old(busFares) && metroFares == old(metroFares)
    {
      var pClean := Strip(Lower(point));
      if pClean == [] {
        assert busStops == ApplyPoint(busStops, route, point);
        return;
      }
      var matched := MatchStops(pClean, busStops);
      ghost var before := busStops;
      for m := 0 to |matched|
        invariant |busStops| == |before|
        invariant forall i :: 0 <= i < |before| ==>
          busStops[i] == if i in matched[..m] then AddRoute(before[i], route) else before[i]
        invariant metroLines == old(metroLines) && metroStations == old(metroStations)
        invariant busFares == old(busFares) && metroFares == old(metroFares)
      {
        var idx := matched[m];
        assert idx in matched && idx < |busStops|;
        assert idx !in matched[..m] by {
          assert forall t :: 0 <= t < m ==> matched[..m][t] == matched[t] < idx;
        }
        assert matched[..m + 1] == matched[..m] + [idx];
        if route !in busStops[idx].routes {
          busStops := busStops[idx := busStops[idx].(routes := busStops[idx].routes + [route])];
        }
      }
      assert matched[..|matched|] == matched;
    }

    /** One row of the route table: a row with a blank route number is
        skipped; otherwise each of its place names is applied in turn. */
    method AssignRow(row: RouteRow)
      modifies this
      ensures busStops == ApplyRow(old(busStops), row)
      ensures metroLines == old(metroLines) && metroStations == old(metroStations)
      ensures busFares == old(busFares) && metroFares == old(metroFares)
    {
      var route := RouteNumber(row);
      if route == [] {
        return;
      }
      var points := RoutePoints(row);
      for j := 0 to |points|
        invariant busStops == ApplyPoints(old(busStops), route, points[..j])
        invariant metroLines == old(metroLines) && metroStations == old(metroStations)
        invariant busFares == old(busFares) && metroFares == old(metroFares)
      {
        assert points[..j + 1][..j] == points[..j];
        AssignPoint(route, points[j]);
      }
      assert points[..|points|] == points;
    }

    /** Stage 5: the route table, row by row. */
    method AssignRoutes(rows: seq<RouteRow>)
      modifies this
      ensures busStops == AssignAll(old(busStops), rows)
      ensures metroLines == old(metroLines) && metroStations == old(metroStations)
      ensures busFares == old(busFares) && metroFares == old(metroFares)
    {
      for r := 0 to |rows|
        invariant busStops == AssignAll(old(busStops), rows[..r])
        invariant metroLines == old(metroLines) && metroStations == old(metroStations)
        invariant busFares == old(busFares) && metroFares == old(metroFares)
      {
        assert rows[..r + 1][..r] == rows[..r];
        AssignRow(rows[r]);
      }
      assert rows[..|rows|] == rows;
    }

    /** `load_data`: the five stages in order. */
    method LoadAll(features: seq<Feature>, stopRows: seq<StopRow>, busFareRows: seq<FareRow>,
                   metroFareRows: seq<FareRow>, routeRows: seq<RouteRow>, parse: ParseFloat)
      modifies this
      ensures metroLines == old(metroLines) + LinesIn(features)
      ensures metroStations == old(metroStations) + StationsIn(features, metroLines)
      ensures busStops == AssignAll(old(busStops) + StopsIn(stopRows, parse), routeRows)
      ensures busFares == Sorting.SortBy(old(busFares) + Parsed(busFareRows, parse, false), BandLe)
      ensures metroFares == Sorting.SortBy(old(metroFares) + Parsed(metroFareRows, parse, true), BandLe)
    {
      LoadMetro(features);
      LoadBusStops(stopRows, parse);
      LoadBusFares(busFareRows, parse);
      LoadMetroFares(metroFareRows, parse);
      AssignRoutes(routeRows);
    }
  }
}
