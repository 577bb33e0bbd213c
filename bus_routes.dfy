/** Which bus routes serve which stop. The stop list carries no route numbers;
    they come from a table of route definitions whose place names (start,
    destination and a comma-separated VIA list) are matched against stop names
    by four fuzzy rules, and each matched stop gets the route number appended
    to its list if it is not there yet. */
module BusRoutes {
  import opened Base
  import opened Text
  import opened Stations

  /** One row of the route table: the `Bus Route`, `Starting From`,
      `Destination` and `VIA` cells, `None` where the column is absent. */
  datatype RouteRow = RouteRow(
    busRoute: Option<string>, startingFrom: Option<string>, destination: Option<string>, via: Option<string>)

  /** Spaces, periods and hyphens removed. */
  function Norm(s: string): string {
    Replace(Replace(Replace(s, " ", ""), ".", ""), "-", "")
  }

  /** "bus stand" and "ttmc" both read as "station". */
  function Alias(s: string): string {
    Replace(Replace(s, "bus stand", "station"), "ttmc", "station")
  }

  predicate IsLandmark(s: string) {
    Contains(s, "kempegowda") || Contains(s, "majestic")
  }

  /** The four matching rules, for a stripped lower-case place name `p` and a
      lower-case stop name `s`: equal once normalised; one contains the other;
      one contains the other once aliased; both name the Kempegowda/Majestic
      terminus once normalised. */
  predicate MatchesClean(p: string, s: string) {
    || Norm(p) == Norm(s)
    || Contains(s, p) || Contains(p, s)
    || Contains(Alias(s), Alias(p)) || Contains(Alias(p), Alias(s))
    || (IsLandmark(Norm(p)) && IsLandmark(Norm(s)))
  }

  /** A place name of the route table matches a stop name; a place name that
      is blank once stripped matches nothing. */
  predicate Matches(point: string, stopName: string) {
    var p := Strip(Lower(point));
    p != [] && MatchesClean(p, Lower(stopName))
  }

  predicate StrictlyIncreasing(s: seq<nat>) {
    forall i, j :: 0 <= i < j < |s| ==> s[i] < s[j]
  }

  /** The scan over all stops for one place name: the rules are tried in order
      and the first that holds records the stop. */
  method MatchStops(pClean: string, stops: seq<BusStop>) returns (matched: seq<nat>)
    ensures StrictlyIncreasing(matched)
    ensures forall k: nat :: k in matched <==> k < |stops| && MatchesClean(pClean, Lower(stops[k].name))
  {
    var pNorm := Norm(pClean);
    var pAlias := Alias(pClean);
    matched := [];
    for idx := 0 to |stops|
      invariant StrictlyIncreasing(matched)
      invariant forall i :: 0 <= i < |matched| ==> matched[i] < idx
      invariant forall k: nat :: k in matched <==> k < idx && MatchesClean(pClean, Lower(stops[k].name))
    {
      var sName := Lower(stops[idx].name);
      var sNorm := Norm(sName);
      var hit := false;
      if pNorm == sNorm {
        hit := true;
      } else if Contains(sName, pClean) || Contains(pClean, sName) {
        hit := true;
      } else {
        var sAlias := Alias(sName);
        if Contains(sAlias, pAlias) || Contains(pAlias, sAlias) {
          hit := true;
        } else if IsLandmark(pNorm) && IsLandmark(sNorm) {
          hit := true;
        }
      }
      assert hit == MatchesClean(pClean, sName);
      if hit {
        matched := matched + [idx];
      }
    }
  }

  /** `route_num`: the stripped `Bus Route` cell, empty when absent. */
  function RouteNumber(row: RouteRow): string {
    Strip(if row.busRoute.Some? then row.busRoute.value else "")
  }

  /** A cell that Python treats as true: present and non-empty. */
  predicate Filled(cell: Option<string>) { cell.Some? && cell.value != [] }

  /** The place names of a row: start, destination, then the VIA list split
      at commas. */
  function RoutePoints(row: RouteRow): seq<string> {
    (if Filled(row.startingFrom) then [row.startingFrom.value] else [])
    + (if Filled(row.destination) then [row.destination.value] else [])
    + (if Filled(row.via) then Split(row.via.value, ',') else [])
  }

  /** The route appended to a stop's list unless already there. */
  function AddRoute(stop: BusStop, route: string): BusStop {
    if route in stop.routes then stop else stop.(routes := stop.routes + [route])
  }

  function AfterPoint(stop: BusStop, route: string, point: string): BusStop {
    if Matches(point, stop.name) then AddRoute(stop, route) else stop
  }

  function AfterPoints(stop: BusStop, route: string, points: seq<string>): BusStop {
    if points == [] then stop
    else AfterPoint(AfterPoints(stop, route, points[..|points| - 1]), route, points[|points| - 1])
  }

  /** The effect of one route definition on one stop; a row with a blank
      route number is skipped. */
  function AfterRow(stop: BusStop, row: RouteRow): BusStop {
    var route := RouteNumber(row);
    if route == [] then stop else AfterPoints(stop, route, RoutePoints(row))
  }

  function AfterRows(stop: BusStop, rows: seq<RouteRow>): BusStop {
    if rows == [] then stop
    else AfterRow(AfterRows(stop, rows[..|rows| - 1]), rows[|rows| - 1])
  }

  /** The stop list after the whole route table has been applied. */
  function AssignAll(stops: seq<BusStop>, rows: seq<RouteRow>): (r: seq<BusStop>)
    ensures |r| == |stops|
    ensures forall i :: 0 <= i < |stops| ==> r[i] == AfterRows(stops[i], rows)
  {
    seq(|stops|, i requires 0 <= i < |stops| => AfterRows(stops[i], rows))
  }

  /** `row` names the route `route` and has a place name matching `name`. */
  predicate Serves(row: RouteRow, route: string, name: string) {
    && RouteNumber(row) == route && route != []
    && exists j :: 0 <= j < |RoutePoints(row)| && Matches(RoutePoints(row)[j], name)
  }

  predicate NoDup(s: seq<string>) {
    forall i, j :: 0 <= i < j < |s| ==> s[i] != s[j]
  }

  // ---- one place name ----

  lemma {:induction false} AfterPointsKeeps(stop: BusStop, route: string, points: seq<string>)
    ensures var r := AfterPoints(stop, route, points);
      && r.name == stop.name && r.pos == stop.pos
      && |stop.routes| <= |r.routes| && r.routes[..|stop.routes|] == stop.routes
  {
    if points != [] {
      var init := points[..|points| - 1];
      AfterPointsKeeps(stop, route, init);
      var mid := AfterPoints(stop, route, init);
      var r := AfterPoints(stop, route, points);
      assert r.routes == mid.routes || r.routes == mid.routes + [route];
      assert (mid.routes + [route])[..|mid.routes|] == mid.routes;
      assert r.routes[..|stop.routes|] == r.routes[..|mid.routes|][..|stop.routes|];
    }
  }

  lemma {:induction false} AfterPointsNoDup(stop: BusStop, route: string, points: seq<string>)
    requires NoDup(stop.routes)
    ensures NoDup(AfterPoints(stop, route, points).routes)
  {
    if points != [] {
      AfterPointsNoDup(stop, route, points[..|points| - 1]);
    }
  }

  /** Some element of `s` satisfies `p`, checked from the end. */
  predicate AnyOf<T>(s: seq<T>, p: T -> bool) {
    s != [] && (AnyOf(s[..|s| - 1], p) || p(s[|s| - 1]))
  }

  lemma {:induction false} AnyOfIndex<T>(s: seq<T>, p: T -> bool)
    ensures AnyOf(s, p) <==> exists k :: 0 <= k < |s| && p(s[k])
  {
    if s != [] {
      var init := s[..|s| - 1];
      AnyOfIndex(init, p);
      assert forall k :: 0 <= k < |init| ==> init[k] == s[k];
    }
  }

  lemma {:induction false} AfterPointsAny(stop: BusStop, route: string, points: seq<string>)
    ensures AfterPoints(stop, route, points).name == stop.name
    ensures forall x ::
      (x in AfterPoints(stop, route, points).routes
      <==> x in stop.routes || (x == route && AnyOf(points, p => Matches(p, stop.name))))
  {
    if points != [] {
      AfterPointsAny(stop, route, points[..|points| - 1]);
    }
  }

  lemma AfterPointsRoutes(stop: BusStop, route: string, points: seq<string>)
    ensures AfterPoints(stop, route, points).name == stop.name
    ensures forall x ::
      (x in AfterPoints(stop, route, points).routes
      <==> x in stop.routes || (x == route && exists j :: 0 <= j < |points| && Matches(points[j], stop.name)))
  {
    AfterPointsAny(stop, route, points);
    AnyOfIndex(points, p => Matches(p, stop.name));
  }

  // ---- the whole table ----

  /** Applying the route table changes no stop's name or position, and keeps
      every stop's existing routes as a prefix in their order: new routes are
      only appended. */
  lemma {:induction false} AfterRowsKeeps(stop: BusStop, rows: seq<RouteRow>)
    ensures var r := AfterRows(stop, rows);
      && r.name == stop.name && r.pos == stop.pos
      && |stop.routes| <= |r.routes| && r.routes[..|stop.routes|] == stop.routes
  {
    if rows != [] {
      var init := rows[..|rows| - 1];
      var row := rows[|rows| - 1];
      AfterRowsKeeps(stop, init);
      var mid := AfterRows(stop, init);
      if RouteNumber(row) != [] {
        AfterPointsKeeps(mid, RouteNumber(row), RoutePoints(row));
      }
      var r := AfterRows(stop, rows);
      assert r.routes[..|stop.routes|] == r.routes[..|mid.routes|][..|stop.routes|];
    }
  }

  /** Route assignment never puts a route twice on a stop. */
  lemma {:induction false} AfterRowsNoDup(stop: BusStop, rows: seq<RouteRow>)
    requires NoDup(stop.routes)
    ensures NoDup(AfterRows(stop, rows).routes)
  {
    if rows != [] {
      var row := rows[|rows| - 1];
      AfterRowsNoDup(stop, rows[..|rows| - 1]);
      if RouteNumber(row) != [] {
        AfterPointsNoDup(AfterRows(stop, rows[..|rows| - 1]), RouteNumber(row), RoutePoints(row));
      }
    }
  }

  /** Some row of `rows` serves `route` at a stop called `name`. */
  predicate ServedBy(rows: seq<RouteRow>, route: string, name: string) {
    AnyOf(rows, row => Serves(row, route, name))
  }

  lemma {:induction false} AfterRowsServed(stop: BusStop, rows: seq<RouteRow>)
    ensures AfterRows(stop, rows).name == stop.name
    ensures forall x :: x in AfterRows(stop, rows).routes <==> x in stop.routes || ServedBy(rows, x, stop.name)
  {
    if rows != [] {
      var init := rows[..|rows| - 1];
      var row := rows[|rows| - 1];
      AfterRowsServed(stop, init);
      if RouteNumber(row) != [] {
        AfterPointsRoutes(AfterRows(stop, init), RouteNumber(row), RoutePoints(row));
      }
    }
  }

  /** A stop ends up served by exactly its earlier routes and the route
      numbers of the rows with a place name matching it. */
  lemma AfterRowsRoutes(stop: BusStop, rows: seq<RouteRow>)
    ensures forall x ::
      (x in AfterRows(stop, rows).routes
      <==> x in stop.routes || exists k :: 0 <= k < |rows| && Serves(rows[k], x, stop.name))
  {
    AfterRowsServed(stop, rows);
    forall x ensures ServedBy(rows, x, stop.name) <==> exists k :: 0 <= k < |rows| && Serves(rows[k], x, stop.name) {
      AnyOfIndex(rows, row => Serves(row, x, stop.name));
    }
  }

  /** A stop that no place name of any row with a route number matches is
      left exactly as it was. */
  lemma {:induction false} UnmatchedStopUnchanged(stop: BusStop, rows: seq<RouteRow>)
    requires forall k, j ::
      (0 <= k < |rows| && RouteNumber(rows[k]) != [] && 0 <= j < |RoutePoints(rows[k])|
      ==> !Matches(RoutePoints(rows[k])[j], stop.name))
    ensures AfterRows(stop, rows) == stop
  {
    if rows != [] {
      var init := rows[..|rows| - 1];
      assert forall k :: 0 <= k < |init| ==> init[k] == rows[k];
      UnmatchedStopUnchanged(stop, init);
      var row := rows[|rows| - 1];
      if RouteNumber(row) != [] {
        UnmatchedPointsUnchanged(stop, RouteNumber(row), RoutePoints(row));
      }
    }
  }

  lemma {:induction false} UnmatchedPointsUnchanged(stop: BusStop, route: string, points: seq<string>)
    requires forall j :: 0 <= j < |points| ==> !Matches(points[j], stop.name)
    ensures AfterPoints(stop, route, points) == stop
  {
    if points != [] {
      UnmatchedPointsUnchanged(stop, route, points[..|points| - 1]);
    }
  }

  /** A row with a blank route number, or with no place names, changes no
      stop. */
  lemma IdleRowChangesNothing(stops: seq<BusStop>, row: RouteRow)
    requires RouteNumber(row) == [] || RoutePoints(row) == []
    ensures AssignAll(stops, [row]) == stops
  {
    forall i | 0 <= i < |stops| ensures AfterRows(stops[i], [row]) == stops[i] {
      assert [row][..0] == [];
    }
  }

  // ---- the matching rules ----

  lemma LowerKeepsSpace(s: string, i: nat)
    requires i < |s|
    ensures IsSpace(Lower(s)[i]) <==> IsSpace(s[i])
    ensures IsSpace(s[i]) ==> Lower(s)[i] == s[i]
  {
  }

  lemma NormAsWithout(s: string)
    ensures Norm(s) == Without(Without(Without(s, ' '), '.'), '-')
  {
    ReplaceCharByEmpty(s, ' ');
    ReplaceCharByEmpty(Without(s, ' '), '.');
    ReplaceCharByEmpty(Without(Without(s, ' '), '.'), '-');
  }

  /** Whitespace made only of plain spaces. */
  predicate OnlyPlainSpaces(x: string) {
    forall c :: c in x && IsSpace(c) ==> c == ' '
  }

  lemma {:induction false} WithoutAllSpaces(s: string)
    requires AllSpace(s) && OnlyPlainSpaces(s)
    ensures Without(s, ' ') == []
  {
    if s != [] {
      assert s[0] in s;
      WithoutAllSpaces(s[1..]);
    }
  }

  lemma StripWithoutSpaces(x: string)
    requires OnlyPlainSpaces(x)
    ensures Without(Strip(x), ' ') == Without(x, ' ')
  {
    var a, b := StripSlice(x);
    var pre, mid, post := x[..a], x[a..b], x[b..];
    assert x == pre + mid + post;
    WithoutAllSpaces(pre);
    WithoutAllSpaces(post);
    WithoutAppend(pre + mid, post, ' ');
    WithoutAppend(pre, mid, ' ');
  }

  lemma StripBlank(x: string)
    requires Strip(x) == []
    ensures AllSpace(x)
  {
    var a, b := StripSlice(x);
    assert x == x[..a] + x[b..];
  }

  /** When the only whitespace in a place name is plain spaces, stripping it
      does not change its normal form, and it is blank exactly when it has no
      other character. */
  lemma StripThenNorm(x: string)
    requires OnlyPlainSpaces(x)
    ensures Norm(Strip(x)) == Norm(x)
    ensures Strip(x) == [] ==> AllSpace(x)
  {
    StripWithoutSpaces(x);
    if Strip(x) == [] {
      StripBlank(x);
    }
    NormAsWithout(x);
    NormAsWithout(Strip(x));
  }

  /** A place name equal to the stop name once both are lower-cased and
      spaces, periods and hyphens are removed always matches that stop
      (provided the place name is not blank and holds no whitespace other
      than spaces). */
  lemma NormalizedEqualMatches(point: string, stopName: string)
    requires OnlyPlainSpaces(point)
    requires exists i :: 0 <= i < |point| && !IsSpace(point[i])
    requires Norm(Lower(point)) == Norm(Lower(stopName))
    ensures Matches(point, stopName)
  {
    var x := Lower(point);
    forall c | c in x && IsSpace(c) ensures c == ' ' {
      var i :| 0 <= i < |x| && x[i] == c;
      LowerKeepsSpace(point, i);
    }
    StripThenNorm(x);
    var i :| 0 <= i < |point| && !IsSpace(point[i]);
    LowerKeepsSpace(point, i);
  }

  lemma ContainsInSlice(x: string, w: string, i: nat, a: nat, b: nat)
    requires a <= i && i + |w| <= b <= |x| && x[i..i + |w|] == w
    ensures Contains(x[a..b], w)
  {
    var y := x[a..b];
    var j := i - a;
    forall k | 0 <= k < |w| ensures y[j..j + |w|][k] == w[k] {
      assert x[i..i + |w|][k] == x[i + k];
    }
    assert y[j..j + |w|] == w;
    ContainsAt(x[a..b], w, i - a);
  }

  lemma SpaceAround(x: string, a: nat, b: nat)
    requires a <= b <= |x| && AllSpace(x[..a]) && AllSpace(x[b..])
    ensures forall j :: 0 <= j < a ==> IsSpace(x[j])
    ensures forall j :: b <= j < |x| ==> IsSpace(x[j])
  {
    assert forall j :: 0 <= j < a ==> x[..a][j] == x[j];
    assert forall j :: b <= j < |x| ==> x[b..][j - b] == x[j];
  }

  /** A word with no whitespace found in a string is still found once the
      string is stripped. */
  lemma StripKeepsWord(x: string, w: string)
    requires w != [] && Contains(x, w)
    requires forall i :: 0 <= i < |w| ==> !IsSpace(w[i])
    ensures Contains(Strip(x), w) && Strip(x) != []
  {
    var a, b := StripSlice(x);
    var i := ContainsWitness(x, w);
    var e := i + |w| - 1;
    assert x[i] == w[0] && x[e] == w[|w| - 1];
    SpaceAround(x, a, b);
    ContainsInSlice(x, w, i, a, b);
  }

  /** Removing spaces, periods and hyphens keeps a word that has none. */
  lemma WordSurvivesNorm(x: string, w: string)
    requires ' ' !in w && '.' !in w && '-' !in w
    requires Contains(x, w)
    ensures Contains(Norm(x), w)
  {
    NormAsWithout(x);
    WithoutKeepsWord(x, w, ' ');
    WithoutKeepsWord(Without(x, ' '), w, '.');
    WithoutKeepsWord(Without(Without(x, ' '), '.'), w, '-');
  }

  lemma LandmarkWord(w: string)
    requires w == "kempegowda" || w == "majestic"
    ensures w != [] && ' ' !in w && '.' !in w && '-' !in w
    ensures forall i :: 0 <= i < |w| ==> !IsSpace(w[i])
  {
    assert forall i :: 0 <= i < |w| ==> 'a' <= w[i] <= 'z';
  }

  /** Any place name and stop name that both mention "kempegowda" or
      "majestic" (in any letter case) match. */
  lemma LandmarkMatches(point: string, stopName: string, w: string, v: string)
    requires w == "kempegowda" || w == "majestic"
    requires v == "kempegowda" || v == "majestic"
    requires Contains(Lower(point), w) && Contains(Lower(stopName), v)
    ensures Matches(point, stopName)
  {
    LandmarkWord(w);
    LandmarkWord(v);
    var p := Strip(Lower(point));
    StripKeepsWord(Lower(point), w);
    WordSurvivesNorm(p, w);
    WordSurvivesNorm(Lower(stopName), v);
    assert IsLandmark(Norm(p)) && IsLandmark(Norm(Lower(stopName)));
    assert MatchesClean(p, Lower(stopName));
  }
}
