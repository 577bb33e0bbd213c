/** The experimental router: a graph over nine well-known localities (an edge
    between every two closer than 8 km) searched by a lazy Dijkstra whose
    edge times come from a learnt travel-time predictor, never below one
    minute. The predictor, the great-circle distance and the clock are
    parameters. */
module SmartRouter {
  import opened Base

  /** Adjacency lists, in the order the edges were added. */
  type Graph = map<string, seq<string>>

  /** Edge travel times in minutes, never below one. */
  type Weights = f: (string, string) -> real | forall u, v :: f(u, v) >= 1.0
    witness (u: string, v: string) => 1.0

  const RouterLocations: seq<(string, Coord)> := [
    ("koramangala", Coord(12.9352, 77.6245)),
    ("whitefield", Coord(12.9698, 77.7500)),
    ("indiranagar", Coord(12.9784, 77.6408)),
    ("mg road", Coord(12.9719, 77.6101)),
    ("electronic city", Coord(12.8452, 77.6602)),
    ("hsr layout", Coord(12.9121, 77.6446)),
    ("jayanagar", Coord(12.9308, 77.5838)),
    ("majestic", Coord(12.9767, 77.5713)),
    ("hebbal", Coord(13.0334, 77.5891))
  ]

  // ---- the graph ----

  predicate DistinctNames(locs: seq<(string, Coord)>) {
    forall i, j :: 0 <= i < j < |locs| ==> locs[i].0 != locs[j].0
  }

  lemma RouterNamesDistinct()
    ensures DistinctNames(RouterLocations)
  {
  }

  /** Locations `i < j` that get an edge. */
  predicate Close(locs: seq<(string, Coord)>, dist: Metric, i: int, j: int) {
    0 <= i < j < |locs| && dist(locs[i].1, locs[j].1) < 8.0
  }

  function Adj(g: Graph, a: string): seq<string> { if a in g then g[a] else [] }

  /** `G.add_edge(a, b)` for a new edge. */
  function AddEdge(g: Graph, a: string, b: string): Graph {
    g[a := Adj(g, a) + [b]][b := Adj(g, b) + [a]]
  }

  predicate WellFormed(g: Graph) {
    forall u, v :: u in g && v in g[u] ==> v in g
  }

  /** The pair (p, r) comes before (i, j) in the nested scan. */
  predicate Before(p: int, r: int, i: int, j: int) { p < i || (p == i && r < j) }

  /** The graph after the scan has reached the pair (i, j). */
  ghost predicate Built(locs: seq<(string, Coord)>, dist: Metric, g: Graph, i: int, j: int) {
    && WellFormed(g)
    && (forall a :: a in g ==> g[a] != [] && exists p :: 0 <= p < |locs| && locs[p].0 == a)
    && (forall p, r :: 0 <= p < |locs| && 0 <= r < |locs| ==>
          (locs[r].0 in Adj(g, locs[p].0) <==>
             (Close(locs, dist, p, r) && Before(p, r, i, j)) || (Close(locs, dist, r, p) && Before(r, p, i, j))))
  }

  lemma SameName(locs: seq<(string, Coord)>, p: int, i: int)
    requires DistinctNames(locs) && 0 <= p < |locs| && 0 <= i < |locs|
    ensures locs[p].0 == locs[i].0 <==> p == i
  {
    if p < i {
      assert locs[p].0 != locs[i].0;
    } else if i < p {
      assert locs[i].0 != locs[p].0;
    }
  }

  /** A pair too far apart leaves the graph as it was. */
  lemma SkipPairBuilt(locs: seq<(string, Coord)>, dist: Metric, g: Graph, i: int, j: int)
    requires 0 <= i < j < |locs| && Built(locs, dist, g, i, j) && !Close(locs, dist, i, j)
    ensures Built(locs, dist, g, i, j + 1)
  {
  }

  /** A close pair gets its edge, in both directions. */
  lemma AddPairBuilt(locs: seq<(string, Coord)>, dist: Metric, g: Graph, i: int, j: int)
    requires DistinctNames(locs) && 0 <= i < j < |locs| && Built(locs, dist, g, i, j) && Close(locs, dist, i, j)
    ensures Built(locs, dist, AddEdge(g, locs[i].0, locs[j].0), i, j + 1)
  {
    var a, b := locs[i].0, locs[j].0;
    var g' := AddEdge(g, a, b);
    SameName(locs, i, j);
    forall p, r | 0 <= p < |locs| && 0 <= r < |locs|
      ensures locs[r].0 in Adj(g', locs[p].0) <==>
        (Close(locs, dist, p, r) && Before(p, r, i, j + 1)) || (Close(locs, dist, r, p) && Before(r, p, i, j + 1))
    {
      SameName(locs, p, i);
      SameName(locs, p, j);
      SameName(locs, r, i);
      SameName(locs, r, j);
    }
    forall a0 | a0 in g' ensures g'[a0] != [] && exists p :: 0 <= p < |locs| && locs[p].0 == a0 {
      if a0 == a {
        assert locs[i].0 == a0;
      } else if a0 == b {
        assert locs[j].0 == a0;
      }
    }
  }

  /** `_build_graph`: every pair of locations, in order, joined when closer
      than 8 km. Only locations with at least one edge become nodes. */
  method BuildGraph(locs: seq<(string, Coord)>, dist: Metric) returns (g: Graph)
    requires DistinctNames(locs)
    ensures Built(locs, dist, g, |locs|, |locs| + 1)
  {
    g := map[];
    for i := 0 to |locs|
      invariant Built(locs, dist, g, i, i + 1)
    {
      for j := i + 1 to |locs|
        invariant Built(locs, dist, g, i, j)
      {
        if dist(locs[i].1, locs[j].1) < 8.0 {
          AddPairBuilt(locs, dist, g, i, j);
          g := AddEdge(g, locs[i].0, locs[j].0);
        } else {
          SkipPairBuilt(locs, dist, g, i, j);
        }
      }
      assert forall p, r :: p < r < |locs| ==> (Before(p, r, i, |locs|) <==> Before(p, r, i + 1, i + 2));
    }
  }

  /** In the finished graph two locations are neighbours exactly when they
      are closer than 8 km, in either direction, and no location is its own
      neighbour. */
  lemma BuiltGraphEdges(locs: seq<(string, Coord)>, dist: Metric, g: Graph, p: int, r: int)
    requires Built(locs, dist, g, |locs|, |locs| + 1)
    requires 0 <= p < |locs| && 0 <= r < |locs|
    ensures locs[r].0 in Adj(g, locs[p].0) <==> locs[p].0 in Adj(g, locs[r].0)
    ensures locs[r].0 in Adj(g, locs[p].0) <==>
      p != r && dist(locs[if p < r then p else r].1, locs[if p < r then r else p].1) < 8.0
    ensures locs[p].0 !in Adj(g, locs[p].0)
  {
  }

  // ---- paths and their cost ----

  /** `p` walks from `s` to `e` along edges of `g`. */
  ghost predicate IsPath(g: Graph, p: seq<string>, s: string, e: string) {
    && |p| >= 1 && p[0] == s && p[|p| - 1] == e
    && (forall i :: 0 <= i < |p| ==> p[i] in g)
    && (forall i :: 0 <= i < |p| - 1 ==> p[i + 1] in g[p[i]])
  }

  /** The sum of the edge times along `p`. */
  function PathCost(w: Weights, p: seq<string>): real
    decreases |p|
  {
    if |p| < 2 then 0.0 else PathCost(w, p[..|p| - 1]) + w(p[|p| - 2], p[|p| - 1])
  }

  /** Each edge costs at least a minute. */
  lemma {:induction false} PathCostAtLeastEdges(w: Weights, p: seq<string>)
    requires p != []
    ensures PathCost(w, p) >= (|p| - 1) as real
    decreases |p|
  {
    if |p| >= 2 {
      PathCostAtLeastEdges(w, p[..|p| - 1]);
    }
  }

  lemma {:induction false} PathCostPrefix(w: Weights, p: seq<string>, k: nat)
    requires 1 <= k <= |p|
    ensures PathCost(w, p[..k]) <= PathCost(w, p)
    decreases |p| - k
  {
    if k < |p| {
      var p' := p[..|p| - 1];
      PathCostPrefix(w, p', k);
      assert p'[..k] == p[..k];
    } else {
      assert p[..k] == p;
    }
  }

  lemma PathPrefix(g: Graph, p: seq<string>, s: string, e: string, k: nat)
    requires IsPath(g, p, s, e) && 1 <= k <= |p|
    ensures IsPath(g, p[..k], s, p[k - 1])
  {
  }

  lemma PathExtend(g: Graph, w: Weights, p: seq<string>, s: string, u: string, x: string)
    requires WellFormed(g) && IsPath(g, p, s, u) && x in g[u]
    ensures IsPath(g, p + [x], s, x)
    ensures PathCost(w, p + [x]) == PathCost(w, p) + w(u, x)
  {
    assert (p + [x])[..|p|] == p;
  }

  // ---- the priority queue ----

  /** A queue entry `(time, node, path)`: `path` leads up to (not including)
      `node`. */
  datatype Entry = Entry(time: real, node: string, path: seq<string>)

  /** Python's string order: code point by code point, a proper prefix first. */
  predicate StrLt(a: string, b: string) {
    if a == [] then b != []
    else if b == [] then false
    else a[0] < b[0] || (a[0] == b[0] && StrLt(a[1..], b[1..]))
  }

  lemma {:induction false} StrLtTotal(a: string, b: string)
    ensures a == b || StrLt(a, b) || StrLt(b, a)
    ensures !(StrLt(a, b) && StrLt(b, a))
    decreases |a|
  {
    if a != [] && b != [] {
      StrLtTotal(a[1..], b[1..]);
      if a[0] == b[0] && a[1..] == b[1..] {
        assert a == [a[0]] + a[1..] && b == [b[0]] + b[1..];
      }
    }
  }

  lemma {:induction false} StrLtTrans(a: string, b: string, c: string)
    requires StrLt(a, b) && StrLt(b, c)
    ensures StrLt(a, c)
    decreases |a|
  {
    if a != [] && a[0] == b[0] && b[0] == c[0] {
      StrLtTrans(a[1..], b[1..], c[1..]);
    }
  }

  /** Python's list order on paths: element by element, a proper prefix first. */
  predicate PathLt(a: seq<string>, b: seq<string>) {
    if a == [] then b != []
    else if b == [] then false
    else StrLt(a[0], b[0]) || (a[0] == b[0] && PathLt(a[1..], b[1..]))
  }

  lemma {:induction false} PathLtTotal(a: seq<string>, b: seq<string>)
    ensures a == b || PathLt(a, b) || PathLt(b, a)
    ensures !(PathLt(a, b) && PathLt(b, a))
    decreases |a|
  {
    if a != [] && b != [] {
      StrLtTotal(a[0], b[0]);
      PathLtTotal(a[1..], b[1..]);
      if a[0] == b[0] && a[1..] == b[1..] {
        assert a == [a[0]] + a[1..] && b == [b[0]] + b[1..];
      }
    }
  }

  lemma {:induction false} PathLtTrans(a: seq<string>, b: seq<string>, c: seq<string>)
    requires PathLt(a, b) && PathLt(b, c)
    ensures PathLt(a, c)
    decreases |a|
  {
    if a != [] && b != [] && c != [] {
      StrLtTotal(a[0], b[0]);
      StrLtTotal(b[0], c[0]);
      if StrLt(a[0], b[0]) && StrLt(b[0], c[0]) {
        StrLtTrans(a[0], b[0], c[0]);
      }
      if a[0] == b[0] && b[0] == c[0] {
        PathLtTrans(a[1..], b[1..], c[1..]);
      }
    }
  }

  /** Python's tuple order on entries: time, then node, then path. */
  predicate EntryLt(a: Entry, b: Entry) {
    a.time < b.time
    || (a.time == b.time && (StrLt(a.node, b.node) || (a.node == b.node && PathLt(a.path, b.path))))
  }

  lemma EntryLtTotal(a: Entry, b: Entry)
    ensures a == b || EntryLt(a, b) || EntryLt(b, a)
    ensures !(EntryLt(a, b) && EntryLt(b, a))
  {
    StrLtTotal(a.node, b.node);
    PathLtTotal(a.path, b.path);
  }

  lemma EntryLtTrans(a: Entry, b: Entry, c: Entry)
    requires EntryLt(a, b) && EntryLt(b, c)
    ensures EntryLt(a, c)
  {
    if a.time == b.time == c.time {
      StrLtTotal(a.node, b.node);
      StrLtTotal(b.node, c.node);
      if StrLt(a.node, b.node) && StrLt(b.node, c.node) {
        StrLtTrans(a.node, b.node, c.node);
      }
      if a.node == b.node == c.node {
        PathLtTrans(a.path, b.path, c.path);
      }
    }
  }

  /** `heapq.heappop`: the least entry under the tuple order, and the rest. */
  method PopLeast(pq: seq<Entry>) returns (e: Entry, rest: seq<Entry>)
    requires pq != []
    ensures e in pq && multiset(rest) == multiset(pq) - multiset{e} && |rest| == |pq| - 1
    ensures forall x :: x in pq ==> x == e || EntryLt(e, x)
  {
    var b := 0;
    for i := 1 to |pq|
      invariant 0 <= b < i
      invariant forall k :: 0 <= k < i ==> pq[k] == pq[b] || EntryLt(pq[b], pq[k])
    {
      EntryLtTotal(pq[i], pq[b]);
      if EntryLt(pq[i], pq[b]) {
        forall k | 0 <= k < i && pq[k] != pq[b]
          ensures EntryLt(pq[i], pq[k])
        {
          EntryLtTrans(pq[i], pq[b], pq[k]);
        }
        b := i;
      }
    }
    e := pq[b];
    rest := pq[..b] + pq[b + 1..];
    assert pq == pq[..b] + [pq[b]] + pq[b + 1..];
  }

  // ---- the search ----

  /** An entry's path, with its node, walks from `start` and costs its time. */
  ghost predicate ValidEntry(g: Graph, w: Weights, start: string, en: Entry) {
    IsPath(g, en.path + [en.node], start, en.node) && PathCost(w, en.path + [en.node]) == en.time
  }

  /** Every unsettled node with a recorded time has a queue entry no later. */
  ghost predicate Witnessed(pq: seq<Entry>, visited: set<string>, minTimes: map<string, real>) {
    forall x :: x in minTimes && x !in visited ==>
      exists en :: en in pq && en.node == x && en.time <= minTimes[x]
  }

  /** Every unsettled neighbour of a settled node has a recorded time no
      later than through that node. */
  ghost predicate Frontier(g: Graph, w: Weights, visited: set<string>, settled: map<string, real>,
                     minTimes: map<string, real>) {
    forall v, x :: v in settled && v in g && x in g[v] && x !in visited ==>
      x in minTimes && minTimes[x] <= settled[v] + w(v, x)
  }

  /** Settled times are no later than any path to the node. */
  ghost predicate Optimal(g: Graph, w: Weights, start: string, settled: map<string, real>) {
    forall v, q :: v in settled && IsPath(g, q, start, v) ==> settled[v] <= PathCost(w, q)
  }

  ghost predicate Inv(g: Graph, w: Weights, start: string, end: string, pq: seq<Entry>, visited: set<string>,
                minTimes: map<string, real>, settled: map<string, real>) {
    && visited <= g.Keys && end !in visited && visited == settled.Keys
    && (forall en :: en in pq ==> ValidEntry(g, w, start, en))
    && Witnessed(pq, visited, minTimes)
    && (start !in visited ==> start in minTimes && minTimes[start] <= 0.0)
    && Frontier(g, w, visited, settled, minTimes)
    && Optimal(g, w, start, settled)
  }

  /** The first node of `q` outside `visited`, when its last node is. */
  lemma {:induction false} FirstOutside(q: seq<string>, visited: set<string>) returns (k: nat)
    requires q != [] && q[|q| - 1] !in visited
    ensures k < |q| && q[k] !in visited && forall i :: 0 <= i < k ==> q[i] in visited
    decreases |q|
  {
    if q[0] !in visited {
      k := 0;
    } else {
      var k' := FirstOutside(q[1..], visited);
      k := k' + 1;
    }
  }

  /** Any path to an unsettled node meets the queue at a time no later than
      its own cost. */
  lemma FrontierEntry(g: Graph, w: Weights, start: string, end: string, pq: seq<Entry>, visited: set<string>,
                      minTimes: map<string, real>, settled: map<string, real>, q: seq<string>, v: string)
    returns (en: Entry)
    requires Inv(g, w, start, end, pq, visited, minTimes, settled)
    requires IsPath(g, q, start, v) && v !in visited
    ensures en in pq && en.time <= PathCost(w, q)
  {
    var k := FirstOutside(q, visited);
    PathCostAtLeastEdges(w, q);
    if k == 0 {
      en :| en in pq && en.node == start && en.time <= minTimes[start];
    } else {
      PathPrefix(g, q, start, v, k);
      PathPrefix(g, q, start, v, k + 1);
      assert q[..k + 1][..k] == q[..k];
      PathCostPrefix(w, q, k + 1);
      assert q[k] in g[q[k - 1]];
      en :| en in pq && en.node == q[k] && en.time <= minTimes[q[k]];
    }
  }

  /** The least entry of the queue, for an unsettled node, is optimal. */
  lemma LeastIsOptimal(g: Graph, w: Weights, start: string, end: string, pq: seq<Entry>, visited: set<string>,
                       minTimes: map<string, real>, settled: map<string, real>, e: Entry)
    requires Inv(g, w, start, end, pq, visited, minTimes, settled)
    requires e in pq && e.node !in visited && forall x :: x in pq ==> x == e || EntryLt(e, x)
    ensures forall q :: IsPath(g, q, start, e.node) ==> e.time <= PathCost(w, q)
  {
    forall q | IsPath(g, q, start, e.node) ensures e.time <= PathCost(w, q) {
      var en := FrontierEntry(g, w, start, end, pq, visited, minTimes, settled, q, e.node);
    }
  }

  /** With the queue empty, the end cannot be reached. */
  lemma EmptyQueueUnreachable(g: Graph, w: Weights, start: string, end: string, visited: set<string>,
                              minTimes: map<string, real>, settled: map<string, real>)
    requires Inv(g, w, start, end, [], visited, minTimes, settled)
    ensures forall q :: !IsPath(g, q, start, end)
  {
    forall q | IsPath(g, q, start, end) ensures false {
      var en := FrontierEntry(g, w, start, end, [], visited, minTimes, settled, q, end);
    }
  }

  /** The recorded time of `x` after offering it time `d`: the smaller of
      the two, `d` when `x` had none. */
  function Lowered(minTimes: map<string, real>, x: string, d: real): real {
    if x in minTimes && minTimes[x] <= d then minTimes[x] else d
  }

  /** One neighbour `nb` of the scan: when it is unsettled and `t + w(u, nb)`
      beats its recorded time, the time is recorded and an entry pushed. */
  function RelaxStep(w: Weights, u: string, t: real, pathU: seq<string>, visited: set<string>,
                     st: (seq<Entry>, map<string, real>), nb: string): (seq<Entry>, map<string, real>)
  {
    var d := t + w(u, nb);
    if nb !in visited && (nb !in st.1 || d < st.1[nb]) then (st.0 + [Entry(d, nb, pathU)], st.1[nb := d])
    else st
  }

  /** The neighbour scan over `nbrs`, in order. */
  function RelaxAll(w: Weights, u: string, t: real, pathU: seq<string>, visited: set<string>,
                    pq: seq<Entry>, minTimes: map<string, real>, nbrs: seq<string>): (seq<Entry>, map<string, real>)
  {
    if nbrs == [] then (pq, minTimes)
    else RelaxStep(w, u, t, pathU, visited, RelaxAll(w, u, t, pathU, visited, pq, minTimes, nbrs[..|nbrs| - 1]),
                   nbrs[|nbrs| - 1])
  }

  /** An unsettled neighbour whose recorded time `t + w(u, x)` improves. */
  predicate Improves(w: Weights, u: string, t: real, visited: set<string>, minTimes: map<string, real>,
                     nbrs: seq<string>, x: string) {
    x in nbrs && x !in visited && (x !in minTimes || t + w(u, x) < minTimes[x])
  }

  /** The times a scan over `nbrs` leaves: they change only at unsettled
      neighbours, each to the smaller of its old time and `t + w(u, x)`. */
  ghost predicate TimesFrom(w: Weights, u: string, t: real, visited: set<string>,
                            minTimes: map<string, real>, nbrs: seq<string>, m: map<string, real>) {
    && (forall x :: x in m <==> x in minTimes || (x in nbrs && x !in visited))
    && (forall x :: x in minTimes && (x !in nbrs || x in visited) ==> m[x] == minTimes[x])
    && (forall x :: x in nbrs && x !in visited ==> m[x] == Lowered(minTimes, x, t + w(u, x)))
  }

  /** The queue a scan over `nbrs` leaves: the old entries, then exactly one
      entry `(t + w(u, x), x, pathU)` per improving neighbour `x`. */
  ghost predicate QueueFrom(w: Weights, u: string, t: real, pathU: seq<string>, visited: set<string>,
                            pq: seq<Entry>, minTimes: map<string, real>, nbrs: seq<string>, q: seq<Entry>) {
    && |pq| <= |q| && q[..|pq|] == pq
    && (forall k :: |pq| <= k < |q| ==>
          q[k] == Entry(t + w(u, q[k].node), q[k].node, pathU) && Improves(w, u, t, visited, minTimes, nbrs, q[k].node))
    && (forall k, l :: |pq| <= k < l < |q| ==> q[k].node != q[l].node)
    && (forall x :: Improves(w, u, t, visited, minTimes, nbrs, x) ==> Entry(t + w(u, x), x, pathU) in q[|pq|..])
  }

  ghost predicate RelaxedFrom(w: Weights, u: string, t: real, pathU: seq<string>, visited: set<string>,
                              pq: seq<Entry>, minTimes: map<string, real>, nbrs: seq<string>,
                              q: seq<Entry>, m: map<string, real>) {
    TimesFrom(w, u, t, visited, minTimes, nbrs, m) && QueueFrom(w, u, t, pathU, visited, pq, minTimes, nbrs, q)
  }

  /** A neighbour that improves was not scanned before. */
  lemma ImprovingIsNew(w: Weights, u: string, t: real, visited: set<string>,
                       minTimes: map<string, real>, nbrs: seq<string>, m: map<string, real>, nb: string)
    requires TimesFrom(w, u, t, visited, minTimes, nbrs, m)
    requires nb !in visited && (nb !in m || t + w(u, nb) < m[nb])
    ensures nb !in nbrs && Improves(w, u, t, visited, minTimes, nbrs + [nb], nb)
  {
  }

  lemma TimesPush(w: Weights, u: string, t: real, visited: set<string>,
                  minTimes: map<string, real>, nbrs: seq<string>, m: map<string, real>, nb: string)
    requires TimesFrom(w, u, t, visited, minTimes, nbrs, m)
    requires nb !in visited && (nb !in m || t + w(u, nb) < m[nb])
    ensures TimesFrom(w, u, t, visited, minTimes, nbrs + [nb], m[nb := t + w(u, nb)])
  {
    ImprovingIsNew(w, u, t, visited, minTimes, nbrs, m, nb);
  }

  lemma TimesKeep(w: Weights, u: string, t: real, visited: set<string>,
                  minTimes: map<string, real>, nbrs: seq<string>, m: map<string, real>, nb: string)
    requires TimesFrom(w, u, t, visited, minTimes, nbrs, m)
    requires !(nb !in visited && (nb !in m || t + w(u, nb) < m[nb]))
    ensures TimesFrom(w, u, t, visited, minTimes, nbrs + [nb], m)
  {
  }

  lemma QueuePush(w: Weights, u: string, t: real, pathU: seq<string>, visited: set<string>,
                  pq: seq<Entry>, minTimes: map<string, real>, nbrs: seq<string>, q: seq<Entry>,
                  m: map<string, real>, nb: string)
    requires TimesFrom(w, u, t, visited, minTimes, nbrs, m) && QueueFrom(w, u, t, pathU, visited, pq, minTimes, nbrs, q)
    requires nb !in visited && (nb !in m || t + w(u, nb) < m[nb])
    ensures QueueFrom(w, u, t, pathU, visited, pq, minTimes, nbrs + [nb], q + [Entry(t + w(u, nb), nb, pathU)])
  {
    ImprovingIsNew(w, u, t, visited, minTimes, nbrs, m, nb);
    PushedEntries(w, u, t, pathU, visited, pq, minTimes, nbrs, q, nb);
    PushedDistinct(w, u, t, pathU, visited, pq, minTimes, nbrs, q, nb);
    PushedCovers(w, u, t, pathU, visited, pq, minTimes, nbrs, q, nb);
  }

  /** After a push, the queue still starts with `pq` and every later entry is an improvement through `u`. */
  lemma PushedEntries(w: Weights, u: string, t: real, pathU: seq<string>, visited: set<string>,
                      pq: seq<Entry>, minTimes: map<string, real>, nbrs: seq<string>, q: seq<Entry>, nb: string)
    requires QueueFrom(w, u, t, pathU, visited, pq, minTimes, nbrs, q)
    requires Improves(w, u, t, visited, minTimes, nbrs + [nb], nb)
    ensures var q' := q + [Entry(t + w(u, nb), nb, pathU)];
      && |pq| <= |q'| && q'[..|pq|] == pq
      && (forall k :: |pq| <= k < |q'| ==>
            q'[k] == Entry(t + w(u, q'[k].node), q'[k].node, pathU)
            && Improves(w, u, t, visited, minTimes, nbrs + [nb], q'[k].node))
  {
    var q' := q + [Entry(t + w(u, nb), nb, pathU)];
    assert q'[..|pq|] == pq;
    forall k | |pq| <= k < |q'|
      ensures Improves(w, u, t, visited, minTimes, nbrs + [nb], q'[k].node)
    {
      if k < |q| {
        assert Improves(w, u, t, visited, minTimes, nbrs, q[k].node);
      }
    }
  }

  /** A pushed neighbour was not queued before, so queued nodes stay distinct. */
  lemma PushedDistinct(w: Weights, u: string, t: real, pathU: seq<string>, visited: set<string>,
                       pq: seq<Entry>, minTimes: map<string, real>, nbrs: seq<string>, q: seq<Entry>, nb: string)
    requires QueueFrom(w, u, t, pathU, visited, pq, minTimes, nbrs, q)
    requires nb !in nbrs
    ensures var q' := q + [Entry(t + w(u, nb), nb, pathU)];
      forall k, l :: |pq| <= k < l < |q'| ==> q'[k].node != q'[l].node
  {
    forall k | |pq| <= k < |q| ensures q[k].node in nbrs {
      assert Improves(w, u, t, visited, minTimes, nbrs, q[k].node);
    }
  }

  /** After a push, every improving neighbour has its entry among the new ones. */
  lemma PushedCovers(w: Weights, u: string, t: real, pathU: seq<string>, visited: set<string>,
                     pq: seq<Entry>, minTimes: map<string, real>, nbrs: seq<string>, q: seq<Entry>, nb: string)
    requires QueueFrom(w, u, t, pathU, visited, pq, minTimes, nbrs, q)
    ensures var q' := q + [Entry(t + w(u, nb), nb, pathU)];
      forall x :: Improves(w, u, t, visited, minTimes, nbrs + [nb], x) ==> Entry(t + w(u, x), x, pathU) in q'[|pq|..]
  {
    var en := Entry(t + w(u, nb), nb, pathU);
    var q' := q + [en];
    assert q'[|pq|..] == q[|pq|..] + [en];
    forall x | Improves(w, u, t, visited, minTimes, nbrs + [nb], x)
      ensures Entry(t + w(u, x), x, pathU) in q'[|pq|..]
    {
      if x != nb {
        assert Improves(w, u, t, visited, minTimes, nbrs, x);
      }
    }
  }

  lemma QueueKeep(w: Weights, u: string, t: real, pathU: seq<string>, visited: set<string>,
                  pq: seq<Entry>, minTimes: map<string, real>, nbrs: seq<string>, q: seq<Entry>,
                  m: map<string, real>, nb: string)
    requires TimesFrom(w, u, t, visited, minTimes, nbrs, m) && QueueFrom(w, u, t, pathU, visited, pq, minTimes, nbrs, q)
    requires !(nb !in visited && (nb !in m || t + w(u, nb) < m[nb]))
    ensures QueueFrom(w, u, t, pathU, visited, pq, minTimes, nbrs + [nb], q)
  {
    var nbrs' := nbrs + [nb];
    forall x | Improves(w, u, t, visited, minTimes, nbrs', x)
      ensures Improves(w, u, t, visited, minTimes, nbrs, x)
    {
      if x !in nbrs {
        assert false;
      }
    }
  }

  /** One more neighbour keeps `RelaxedFrom`. */
  lemma RelaxStepFacts(w: Weights, u: string, t: real, pathU: seq<string>, visited: set<string>,
                       pq: seq<Entry>, minTimes: map<string, real>, nbrs: seq<string>,
                       q: seq<Entry>, m: map<string, real>, nb: string)
    requires RelaxedFrom(w, u, t, pathU, visited, pq, minTimes, nbrs, q, m)
    ensures var st := RelaxStep(w, u, t, pathU, visited, (q, m), nb);
      RelaxedFrom(w, u, t, pathU, visited, pq, minTimes, nbrs + [nb], st.0, st.1)
  {
    if nb !in visited && (nb !in m || t + w(u, nb) < m[nb]) {
      TimesPush(w, u, t, visited, minTimes, nbrs, m, nb);
      QueuePush(w, u, t, pathU, visited, pq, minTimes, nbrs, q, m, nb);
    } else {
      TimesKeep(w, u, t, visited, minTimes, nbrs, m, nb);
      QueueKeep(w, u, t, pathU, visited, pq, minTimes, nbrs, q, m, nb);
    }
  }

  /** The scan over any neighbour list satisfies `RelaxedFrom`. */
  lemma {:induction false} RelaxAllFacts(w: Weights, u: string, t: real, pathU: seq<string>, visited: set<string>,
                                         pq: seq<Entry>, minTimes: map<string, real>, nbrs: seq<string>)
    ensures var st := RelaxAll(w, u, t, pathU, visited, pq, minTimes, nbrs);
      RelaxedFrom(w, u, t, pathU, visited, pq, minTimes, nbrs, st.0, st.1)
    decreases |nbrs|
  {
    if nbrs == [] {
      assert pq[..|pq|] == pq;
    } else {
      var init, nb := nbrs[..|nbrs| - 1], nbrs[|nbrs| - 1];
      assert init + [nb] == nbrs;
      RelaxAllFacts(w, u, t, pathU, visited, pq, minTimes, init);
      var st := RelaxAll(w, u, t, pathU, visited, pq, minTimes, init);
      RelaxStepFacts(w, u, t, pathU, visited, pq, minTimes, init, st.0, st.1, nb);
    }
  }

  /** What the search needs of a scan: entries stay valid, old entries stay,
      times only fall, the unsettled nodes stay witnessed, and every
      unsettled neighbour is recorded no later than through `u`. */
  lemma RelaxedKeeps(g: Graph, w: Weights, start: string, u: string, t: real, pathU: seq<string>,
                     visited: set<string>, pq: seq<Entry>, minTimes: map<string, real>,
                     q: seq<Entry>, m: map<string, real>)
    requires WellFormed(g) && u in g
    requires IsPath(g, pathU, start, u) && PathCost(w, pathU) == t
    requires forall en :: en in pq ==> ValidEntry(g, w, start, en)
    requires Witnessed(pq, visited, minTimes)
    requires RelaxedFrom(w, u, t, pathU, visited, pq, minTimes, g[u], q, m)
    ensures forall en :: en in q ==> ValidEntry(g, w, start, en)
    ensures forall en :: en in pq ==> en in q
    ensures forall x :: x in minTimes ==> x in m && m[x] <= minTimes[x]
    ensures Witnessed(q, visited, m)
    ensures forall x :: x in g[u] && x !in visited ==> x in m && m[x] <= t + w(u, x)
  {
    forall en | en in q ensures ValidEntry(g, w, start, en) {
      var k :| 0 <= k < |q| && q[k] == en;
      if k < |pq| {
        assert en == q[..|pq|][k];
      } else {
        PathExtend(g, w, pathU, start, u, en.node);
      }
    }
    forall en | en in pq ensures en in q {
      assert en in q[..|pq|];
    }
    forall x | x in m && x !in visited
      ensures exists en :: en in q && en.node == x && en.time <= m[x]
    {
      if Improves(w, u, t, visited, minTimes, g[u], x) {
        var en := Entry(t + w(u, x), x, pathU);
        assert en in q[|pq|..];
        assert en in q;
      } else {
        var en :| en in pq && en.node == x && en.time <= minTimes[x];
        assert en in q[..|pq|];
      }
    }
  }

  /** The neighbour scan of a newly settled node `u` reached at time `t`
      along `pathU`: each unsettled neighbour whose time improves gets the
      new time and a queue entry. */
  method Relax(g: Graph, w: Weights, start: string, u: string, t: real, pathU: seq<string>,
               visited: set<string>, pq: seq<Entry>, minTimes: map<string, real>)
    returns (pq': seq<Entry>, minTimes': map<string, real>)
    requires WellFormed(g) && u in g && u in visited
    requires IsPath(g, pathU, start, u) && PathCost(w, pathU) == t
    requires forall en :: en in pq ==> ValidEntry(g, w, start, en)
    requires Witnessed(pq, visited, minTimes)
    ensures (pq', minTimes') == RelaxAll(w, u, t, pathU, visited, pq, minTimes, g[u])
    ensures RelaxedFrom(w, u, t, pathU, visited, pq, minTimes, g[u], pq', minTimes')
    ensures forall en :: en in pq' ==> ValidEntry(g, w, start, en)
    ensures forall en :: en in pq ==> en in pq'
    ensures forall x :: x in minTimes ==> x in minTimes' && minTimes'[x] <= minTimes[x]
    ensures Witnessed(pq', visited, minTimes')
    ensures forall x :: x in g[u] && x !in visited ==> x in minTimes' && minTimes'[x] <= t + w(u, x)
  {
    pq', minTimes' := pq, minTimes;
    var nbrs := g[u];
    for j := 0 to |nbrs|
      invariant (pq', minTimes') == RelaxAll(w, u, t, pathU, visited, pq, minTimes, nbrs[..j])
    {
      var nb := nbrs[j];
      assert nbrs[..j + 1][..j] == nbrs[..j];
      if nb !in visited {
        var newTime := t + w(u, nb);
        if nb !in minTimes' || newTime < minTimes'[nb] {
          minTimes' := minTimes'[nb := newTime];
          pq' := pq' + [Entry(newTime, nb, pathU)];
        }
      }
    }
    assert nbrs[..|nbrs|] == nbrs;
    RelaxAllFacts(w, u, t, pathU, visited, pq, minTimes, nbrs);
    RelaxedKeeps(g, w, start, u, t, pathU, visited, pq, minTimes, pq', minTimes');
  }

  /** `rest` is `pq` without (one copy of) `e`. */
  predicate Removed(pq: seq<Entry>, rest: seq<Entry>, e: Entry) {
    && (forall en :: en in rest ==> en in pq)
    && (forall en :: en in pq && en != e ==> en in rest)
  }

  lemma RemovedOf(pq: seq<Entry>, rest: seq<Entry>, e: Entry)
    requires multiset(rest) == multiset(pq) - multiset{e}
    ensures Removed(pq, rest, e)
  {
    forall en | en in rest ensures en in pq {
      assert en in multiset(rest);
    }
    forall en | en in pq && en != e ensures en in rest {
      assert multiset(rest)[en] == multiset(pq)[en];
    }
  }

  /** Dropping an entry for a settled node keeps the invariant. */
  lemma SkipKeeps(g: Graph, w: Weights, start: string, end: string, pq: seq<Entry>, rest: seq<Entry>, e: Entry,
                  visited: set<string>, minTimes: map<string, real>, settled: map<string, real>)
    requires Inv(g, w, start, end, pq, visited, minTimes, settled)
    requires Removed(pq, rest, e) && e.node in visited
    ensures Inv(g, w, start, end, rest, visited, minTimes, settled)
  {
    forall x | x in minTimes && x !in visited
      ensures exists en :: en in rest && en.node == x && en.time <= minTimes[x]
    {
      var en :| en in pq && en.node == x && en.time <= minTimes[x];
      assert en in rest;
    }
  }

  /** Settling the least entry's node and scanning its neighbours keeps the
      invariant. */
  lemma SettleKeeps(g: Graph, w: Weights, start: string, end: string, pq: seq<Entry>, rest: seq<Entry>, e: Entry,
                    visited: set<string>, minTimes: map<string, real>, settled: map<string, real>,
                    pq': seq<Entry>, minTimes': map<string, real>)
    requires Inv(g, w, start, end, pq, visited, minTimes, settled)
    requires Removed(pq, rest, e) && e in pq && e.node !in visited && e.node != end
    requires forall q :: IsPath(g, q, start, e.node) ==> e.time <= PathCost(w, q)
    requires forall en :: en in pq' ==> ValidEntry(g, w, start, en)
    requires forall x :: x in minTimes ==> x in minTimes' && minTimes'[x] <= minTimes[x]
    requires Witnessed(pq', visited + {e.node}, minTimes')
    requires forall x :: x in g[e.node] && x !in visited + {e.node} ==>
      x in minTimes' && minTimes'[x] <= e.time + w(e.node, x)
    ensures Inv(g, w, start, end, pq', visited + {e.node}, minTimes', settled[e.node := e.time])
  {
    assert ValidEntry(g, w, start, e);
  }

  /** The entries of `pq` other than `e` witness the unsettled nodes other
      than `e`'s. */
  lemma RestWitnesses(pq: seq<Entry>, rest: seq<Entry>, e: Entry, visited: set<string>, minTimes: map<string, real>)
    requires Witnessed(pq, visited, minTimes) && Removed(pq, rest, e)
    ensures Witnessed(rest, visited + {e.node}, minTimes)
  {
    forall x | x in minTimes && x !in visited + {e.node}
      ensures exists en :: en in rest && en.node == x && en.time <= minTimes[x]
    {
      var en :| en in pq && en.node == x && en.time <= minTimes[x];
      assert en in rest;
    }
  }

  /** What a queue entry tells about its node. */
  lemma EntryFacts(g: Graph, w: Weights, start: string, end: string, pq: seq<Entry>, visited: set<string>,
                   minTimes: map<string, real>, settled: map<string, real>, e: Entry)
    requires Inv(g, w, start, end, pq, visited, minTimes, settled) && e in pq
    ensures ValidEntry(g, w, start, e) && e.node in g
    ensures e.node !in visited ==> |g.Keys - (visited + {e.node})| < |g.Keys - visited|
  {
    assert ValidEntry(g, w, start, e);
  }

  /** The search loop of `find_optimal_route`, for two nodes of the graph:
      the route found and its time, or nothing when the end is unreachable. */
  method ShortestRoute(g: Graph, w: Weights, start: string, end: string) returns (path: seq<string>, cost: real)
    requires WellFormed(g) && start in g && end in g
    ensures path != [] ==> IsPath(g, path, start, end) && cost == PathCost(w, path)
    ensures path != [] ==> forall q :: IsPath(g, q, start, end) ==> cost <= PathCost(w, q)
    ensures path == [] ==> cost == 0.0 && forall q :: !IsPath(g, q, start, end)
  {
    var pq := [Entry(0.0, start, [])];
    var visited: set<string> := {};
    var minTimes := map[start := 0.0];
    ghost var settled: map<string, real> := map[];
    assert [] + [start] == [start];
    path, cost := [], 0.0;
    while pq != []
      invariant Inv(g, w, start, end, pq, visited, minTimes, settled)
      invariant path == [] && cost == 0.0
      decreases |g.Keys - visited|, |pq|
    {
      var e, rest := PopLeast(pq);
      RemovedOf(pq, rest, e);
      EntryFacts(g, w, start, end, pq, visited, minTimes, settled, e);
      if e.node == end {
        LeastIsOptimal(g, w, start, end, pq, visited, minTimes, settled, e);
        path, cost := e.path + [e.node], e.time;
        break;
      }
      if e.node in visited {
        SkipKeeps(g, w, start, end, pq, rest, e, visited, minTimes, settled);
        pq := rest;
        continue;
      }
      LeastIsOptimal(g, w, start, end, pq, visited, minTimes, settled, e);
      RestWitnesses(pq, rest, e, visited, minTimes);
      var pq', minTimes' := Relax(g, w, start, e.node, e.time, e.path + [e.node], visited + {e.node}, rest, minTimes);
      SettleKeeps(g, w, start, end, pq, rest, e, visited, minTimes, settled, pq', minTimes');
      visited := visited + {e.node};
      settled := settled[e.node := e.time];
      pq, minTimes := pq', minTimes';
    }
    if path == [] {
      EmptyQueueUnreachable(g, w, start, end, visited, minTimes, settled);
    }
  }

  /** A route from a node to itself is that node alone, taking no time. */
  lemma SameEndsTrivial(g: Graph, w: Weights, s: string, path: seq<string>)
    requires IsPath(g, path, s, s)
    requires forall q :: IsPath(g, q, s, s) ==> PathCost(w, path) <= PathCost(w, q)
    ensures path == [s] && PathCost(w, path) == 0.0
  {
    assert IsPath(g, [s], s, s);
    PathCostAtLeastEdges(w, path);
  }

  // ---- the router ----

  /** `traffic_map.get(v, 5.0)` and the like. */
  function Get(m: map<string, real>, k: string, default: real): real { if k in m then m[k] else default }

  /** `predict_edge_weight`: the predictor's minutes for the edge u-v under
      the traffic level and population density of `v` (5.0 and 10000 when
      unknown), raised to at least one minute. */
  function EdgeWeight(predict: (string, string, real, real) -> real,
                      traffic: map<string, real>, density: map<string, real>): (w: Weights)
    ensures forall u, v :: w(u, v) >= 1.0
    ensures forall u, v :: predict(u, v, Get(traffic, v, 5.0), Get(density, v, 10000.0)) >= 1.0 ==>
      w(u, v) == predict(u, v, Get(traffic, v, 5.0), Get(density, v, 10000.0))
    ensures forall u, v :: predict(u, v, Get(traffic, v, 5.0), Get(density, v, 10000.0)) < 1.0 ==>
      w(u, v) == 1.0
  {
    assert forall u, v :: Max(1.0, predict(u, v, Get(traffic, v, 5.0), Get(density, v, 10000.0))) >= 1.0;
    (u: string, v: string) => Max(1.0, predict(u, v, Get(traffic, v, 5.0), Get(density, v, 10000.0)))
  }

  datatype RouteAnswer =
    | InvalidLocations
    | Answer(path: seq<string>, totalDurationMins: real, algorithm: string)

  class Router {
    var graph: Graph

    ghost predicate Valid()
      reads this
    {
      WellFormed(graph)
    }

    /** `SmartRouter()`: the graph over the nine localities. */
    constructor(dist: Metric)
      ensures Valid() && Built(RouterLocations, dist, graph, |RouterLocations|, |RouterLocations| + 1)
    {
      RouterNamesDistinct();
      var g := BuildGraph(RouterLocations, dist);
      graph := g;
    }

    /** `find_optimal_route`: "Invalid Locations" unless both ends are nodes;
        otherwise a quickest route under the predicted edge times with its
        time rounded to two decimals, or an empty route taking 0 when the
        end cannot be reached. */
    method FindOptimalRoute(start: string, end: string, traffic: map<string, real>, density: map<string, real>,
                            predict: (string, string, real, real) -> real) returns (answer: RouteAnswer)
      requires Valid()
      ensures answer.InvalidLocations? <==> start !in graph || end !in graph
      ensures answer.Answer? ==> answer.algorithm == "Dijkstra with XGBoost Weights"
      ensures answer.Answer? && answer.path != [] ==>
        var w := EdgeWeight(predict, traffic, density);
        && IsPath(graph, answer.path, start, end)
        && answer.totalDurationMins == RoundHalfEven(PathCost(w, answer.path), 100)
        && forall q :: IsPath(graph, q, start, end) ==> PathCost(w, answer.path) <= PathCost(w, q)
      ensures answer.Answer? && answer.path == [] ==>
        answer.totalDurationMins == 0.0 && forall q :: !IsPath(graph, q, start, end)
      ensures answer.Answer? && start == end ==> answer.path == [start] && answer.totalDurationMins == 0.0
    {
      if start !in graph || end !in graph {
        return InvalidLocations;
      }
      var w := EdgeWeight(predict, traffic, density);
      var path, cost := ShortestRoute(graph, w, start, end);
      if start == end {
        assert IsPath(graph, [start], start, end);
        SameEndsTrivial(graph, w, start, path);
      }
      answer := Answer(path, RoundHalfEven(cost, 100), "Dijkstra with XGBoost Weights");
    }
  }
}
