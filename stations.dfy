/** The transit facilities the planner knows: metro lines (a colour and a
    path), metro stations (with the line they are assigned to) and bus stops
    (with the route numbers that serve them); the nearest-facility search; and
    the rules that colour a line and assign a station to a line. */
module Stations {
  import opened Base
  import opened Text

  datatype MetroLine = MetroLine(name: string, color: string, path: seq<Coord>)

  datatype Station = Station(name: string, pos: Coord, line: string)

  datatype BusStop = BusStop(name: string, pos: Coord, routes: seq<string>)

  function StationPos(s: Station): Coord { s.pos }

  function StopPos(s: BusStop): Coord { s.pos }

  /** The answer of `find_nearest_station`: `(None, None, inf)` when there is
      nothing to search, else the facility, its position and its distance. */
  datatype Nearest<T> = NoneFound | Found(item: T, coords: Coord, dist: real)

  /** The index of the least value of `ds`, the first one among equal least
      values (see `FirstMinIsLeast`). */
  function FirstMin(ds: seq<real>): (r: Option<nat>)
    ensures r.None? <==> ds == []
    ensures r.Some? ==> r.value < |ds|
  {
    if ds == [] then None
    else
      var k := FirstMin(ds[..|ds| - 1]);
      if k.None? || ds[|ds| - 1] < ds[k.value] then Some(|ds| - 1) else k
  }

  lemma FirstMinSnoc(ds: seq<real>, d: real)
    ensures FirstMin(ds + [d])
            == var k := FirstMin(ds); if k.None? || d < ds[k.value] then Some(|ds|) else k
  {
    assert (ds + [d])[..|ds|] == ds;
  }

  /** The scan keeps a least value, and every value before it is strictly
      greater. */
  lemma {:induction false} FirstMinIsLeast(ds: seq<real>)
    requires ds != []
    ensures var i := FirstMin(ds).value;
      && (forall j :: 0 <= j < |ds| ==> ds[i] <= ds[j])
      && (forall j :: 0 <= j < i ==> ds[i] < ds[j])
  {
    var init := ds[..|ds| - 1];
    assert forall j :: 0 <= j < |init| ==> init[j] == ds[j];
    if init != [] {
      FirstMinIsLeast(init);
    }
  }

  /** The distance from `p` to each facility. */
  function Distances<T>(p: Coord, items: seq<T>, pos: T -> Coord, dist: (Coord, Coord) -> real)
    : (ds: seq<real>)
    ensures |ds| == |items|
    ensures forall i :: 0 <= i < |items| ==> ds[i] == dist(p, pos(items[i]))
  {
    seq(|items|, i requires 0 <= i < |items| => dist(p, pos(items[i])))
  }

  function NearestOf<T>(p: Coord, items: seq<T>, pos: T -> Coord, dist: (Coord, Coord) -> real)
    : Nearest<T>
  {
    match FirstMin(Distances(p, items, pos, dist))
    case None => NoneFound
    case Some(i) => Found(items[i], pos(items[i]), dist(p, pos(items[i])))
  }

  /** `find_nearest_station` answers `(None, None, inf)` exactly for an
      empty collection, and otherwise a closest facility with its position and
      distance, every facility before it being strictly farther. */
  lemma NearestOfIsFirstClosest<T>(p: Coord, items: seq<T>, pos: T -> Coord, dist: (Coord, Coord) -> real)
    ensures var r := NearestOf(p, items, pos, dist);
      && (r.NoneFound? <==> items == [])
      && (r.Found? ==>
            exists i :: 0 <= i < |items| && items[i] == r.item
              && r.coords == pos(items[i]) && r.dist == dist(p, pos(items[i]))
              && (forall j :: 0 <= j < |items| ==> r.dist <= dist(p, pos(items[j])))
              && (forall j :: 0 <= j < i ==> r.dist < dist(p, pos(items[j]))))
  {
    var ds := Distances(p, items, pos, dist);
    if items != [] {
      FirstMinIsLeast(ds);
      var i := FirstMin(ds).value;
      assert items[i] == NearestOf(p, items, pos, dist).item;
    }
  }

  /** `find_nearest_station`: a scan that keeps the first strictly closer
      facility. */
  method FindNearest<T>(p: Coord, items: seq<T>, pos: T -> Coord, dist: Metric) returns (r: Nearest<T>)
    ensures r == NearestOf(p, items, pos, dist)
  {
    ghost var ds := Distances(p, items, pos, dist);
    var nearest: Option<T> := None;
    var minDist: Option<real> := None;  // None stands for float('inf')
    ghost var k: Option<nat> := None;
    for i := 0 to |items|
      invariant k == FirstMin(ds[..i])
      invariant k.None? <==> nearest.None?
      invariant k.None? <==> minDist.None?
      invariant k.Some? ==> k.value < i && nearest == Some(items[k.value]) && minDist == Some(ds[k.value])
    {
      FirstMinSnoc(ds[..i], ds[i]);
      assert ds[..i + 1] == ds[..i] + [ds[i]];
      var d := dist(p, pos(items[i]));
      if minDist.None? || d < minDist.value {
        minDist := Some(d);
        nearest := Some(items[i]);
        k := Some(i);
      }
    }
    assert ds[..|items|] == ds;
    if nearest.None? {
      return NoneFound;
    }
    r := Found(nearest.value, pos(nearest.value), minDist.value);
  }

  /** The colour a line gets from its name: purple for "purple" or "line-1",
      green otherwise, and green whenever the name also says "green" or
      "line-2" (case-insensitively). */
  function LineColor(name: string): (color: string)
    ensures color == "purple" || color == "green"
    ensures var n := Lower(name);
      color == "purple"
      <==> (Contains(n, "purple") || Contains(n, "line-1")) && !(Contains(n, "green") || Contains(n, "line-2"))
  {
    var n := Lower(name);
    var first := if Contains(n, "purple") || Contains(n, "line-1") then "purple" else "green";
    if Contains(n, "green") || Contains(n, "line-2") then "green" else first
  }

  /** The squared planar distance from a station at `q` to a path point `pt`,
      used only to pick a line. */
  function SquaredOffset(q: Coord, pt: Coord): (d: real)
    ensures d >= 0.0
  {
    (pt.lat - q.lat) * (pt.lat - q.lat) + (pt.lon - q.lon) * (pt.lon - q.lon)
  }

  /** A path point together with the colour of its line. */
  datatype ColoredPoint = ColoredPoint(pt: Coord, color: string)

  function PointOf(c: ColoredPoint): Coord { c.pt }

  function Colored(line: MetroLine): (r: seq<ColoredPoint>)
    ensures |r| == |line.path|
    ensures forall i :: 0 <= i < |r| ==> r[i] == ColoredPoint(line.path[i], line.color)
  {
    seq(|line.path|, i requires 0 <= i < |line.path| => ColoredPoint(line.path[i], line.color))
  }

  /** Every path point of every line, line after line. */
  function AllPoints(lines: seq<MetroLine>): seq<ColoredPoint> {
    if lines == [] then []
    else AllPoints(lines[..|lines| - 1]) + Colored(lines[|lines| - 1])
  }

  /** The squared offset from `q` to each path point. */
  function Offsets(q: Coord, pts: seq<ColoredPoint>): (ds: seq<real>)
    ensures |ds| == |pts|
    ensures forall i :: 0 <= i < |pts| ==> ds[i] == SquaredOffset(q, pts[i].pt)
  {
    seq(|pts|, i requires 0 <= i < |pts| => SquaredOffset(q, pts[i].pt))
  }

  /** The colour of the first of the points closest to `q`, "Unknown" when
      there are no points. */
  function ClosestColor(q: Coord, pts: seq<ColoredPoint>): string {
    match FirstMin(Offsets(q, pts))
    case None => "Unknown"
    case Some(k) => pts[k].color
  }

  /** The line a station at `q` is assigned to. */
  function LineAt(lines: seq<MetroLine>, q: Coord): string {
    ClosestColor(q, AllPoints(lines))
  }

  /** A station is "Unknown" exactly when there is no path point, and
      otherwise takes the colour of a path point at the least squared offset,
      the first such point among ties. */
  lemma ClosestColorIsFirstClosest(q: Coord, pts: seq<ColoredPoint>)
    ensures pts == [] ==> ClosestColor(q, pts) == "Unknown"
    ensures pts != [] ==>
      exists k :: 0 <= k < |pts| && ClosestColor(q, pts) == pts[k].color
        && (forall j :: 0 <= j < |pts| ==> SquaredOffset(q, pts[k].pt) <= SquaredOffset(q, pts[j].pt))
        && (forall j :: 0 <= j < k ==> SquaredOffset(q, pts[k].pt) < SquaredOffset(q, pts[j].pt))
  {
    if pts != [] {
      var ds := Offsets(q, pts);
      FirstMinIsLeast(ds);
      var k := FirstMin(ds).value;
      assert ClosestColor(q, pts) == pts[k].color;
    }
  }

  lemma AllPointsSnoc(lines: seq<MetroLine>, i: nat)
    requires i < |lines|
    ensures AllPoints(lines[..i + 1]) == AllPoints(lines[..i]) + Colored(lines[i])
  {
    assert lines[..i + 1][..i] == lines[..i];
  }

  /** The loop state `(min_dist_to_line, station_line)` after scanning the
      points `pts`: `None` stands for `float('inf')`. */
  predicate Tracks(q: Coord, pts: seq<ColoredPoint>, minDist: Option<real>, color: string) {
    var k := FirstMin(Offsets(q, pts));
    && (k.None? <==> minDist.None?)
    && (k.None? ==> color == "Unknown")
    && (k.Some? ==> minDist == Some(SquaredOffset(q, pts[k.value].pt)) && color == pts[k.value].color)
  }

  lemma TracksStep(q: Coord, pts: seq<ColoredPoint>, minDist: Option<real>, color: string, cp: ColoredPoint)
    requires Tracks(q, pts, minDist, color)
    ensures var d := SquaredOffset(q, cp.pt);
      if minDist.None? || d < minDist.value then Tracks(q, pts + [cp], Some(d), cp.color)
      else Tracks(q, pts + [cp], minDist, color)
  {
    var d := SquaredOffset(q, cp.pt);
    FirstMinSnoc(Offsets(q, pts), d);
    assert Offsets(q, pts + [cp]) == Offsets(q, pts) + [d];
  }

  /** One point of a line scanned: `TracksStep` stated on prefixes of `cs`. */
  lemma ScanStep(q: Coord, done: seq<ColoredPoint>, cs: seq<ColoredPoint>, j: nat,
                 minDist: Option<real>, color: string)
    requires j < |cs| && Tracks(q, done + cs[..j], minDist, color)
    ensures var d := SquaredOffset(q, cs[j].pt);
      if minDist.None? || d < minDist.value then Tracks(q, done + cs[..j + 1], Some(d), cs[j].color)
      else Tracks(q, done + cs[..j + 1], minDist, color)
  {
    TracksStep(q, done + cs[..j], minDist, color, cs[j]);
    assert done + cs[..j + 1] == done + cs[..j] + [cs[j]];
  }

  /** The inner loop of the assignment: the points of one line, in order. */
  method ScanPath(line: MetroLine, q: Coord, minDist0: Option<real>, color0: string, ghost done: seq<ColoredPoint>)
    returns (minDist: Option<real>, color: string)
    requires Tracks(q, done, minDist0, color0)
    ensures Tracks(q, done + Colored(line), minDist, color)
  {
    minDist, color := minDist0, color0;
    ghost var cs := Colored(line);
    assert done + cs[..0] == done;
    for j := 0 to |line.path|
      invariant Tracks(q, done + cs[..j], minDist, color)
    {
      var d := SquaredOffset(q, line.path[j]);
      ScanStep(q, done, cs, j, minDist, color);
      if minDist.None? || d < minDist.value {
        minDist := Some(d);
        color := line.color;
      }
    }
    assert cs[..|line.path|] == cs;
  }

  /** The station-to-line assignment loop: every point of every line is
      compared with the best so far, and only a strictly closer one wins. */
  method AssignLine(lines: seq<MetroLine>, q: Coord) returns (color: string)
    ensures color == LineAt(lines, q)
  {
    color := "Unknown";
    var minDist: Option<real> := None;  // None stands for float('inf')
    for li := 0 to |lines|
      invariant Tracks(q, AllPoints(lines[..li]), minDist, color)
    {
      minDist, color := ScanPath(lines[li], q, minDist, color, AllPoints(lines[..li]));
      AllPointsSnoc(lines, li);
    }
    assert lines[..|lines|] == lines;
  }
}
