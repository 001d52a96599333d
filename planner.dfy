/**
 * The taxi's route planner `_planPath` (taxi.py:340-383): an A*-style search
 * over the taxi's map, with a heap of `(estimate, node)` pairs, a dictionary
 * of best known costs (a node missing from it has cost `inf`), and a
 * dictionary of predecessors from which the route is traced back.
 */
module Planner {
  import opened Common
  import opened OrderedMaps
  import opened RoadMaps

  /** A heap entry `(estimated total cost, node)`. */
  type Entry = (real, Coord)

  /** The straight-line distance estimate, supplied from outside. */
  type Heuristic = (Coord, Coord) -> real

  /** Python's tuple order on heap entries: by estimate, then by x, then by y. */
  predicate EntryLe(a: Entry, b: Entry) {
    a.0 < b.0 || (a.0 == b.0 && (a.1.0 < b.1.0 || (a.1.0 == b.1.0 && a.1.1 <= b.1.1)))
  }

  /** Position of a least entry: what `heapq.heappop` removes. */
  function MinIndex(q: seq<Entry>): (r: nat)
    requires |q| > 0
    ensures r < |q| && forall j :: 0 <= j < |q| ==> EntryLe(q[r], q[j])
    decreases |q|
  {
    if |q| == 1 then 0
    else
      var k := MinIndex(q[1..]) + 1;
      assert forall j :: 1 <= j < |q| ==> q[j] == q[1..][j - 1];
      if EntryLe(q[0], q[k]) then 0 else k
  }

  /** The heap, the finite entries of `cost_from_start`, and `path_trace`. */
  datatype SearchState = SearchState(frontier: seq<Entry>, cost: map<Coord, real>, trace: map<Coord, Coord>)

  /** The outcome of relaxing one node's neighbours: done, or a neighbour missing from the map (a `KeyError`). */
  datatype Relaxation = Relaxed(st: SearchState) | Missing(at: Coord)

  /**
   * What `_planPath` does: return a route, return `None`, or raise `KeyError`
   * for a neighbour that is not a node of the map. `Exhausted` is the model's
   * own: the search ran out of its step budget.
   */
  datatype PlanResult = Route(path: seq<Coord>) | NoRoute | MissingNode(at: Coord) | Exhausted

  /** Every node on the heap is a map node whose cost is known. */
  ghost predicate Shaped(m: RoadMap, st: SearchState) {
    forall i :: 0 <= i < |st.frontier| ==> st.frontier[i].1 in m && st.frontier[i].1 in st.cost
  }

  /**
   * One neighbour `nb` of `cur` at distance `dist` (taxi.py:374-381): if the
   * cost through `cur` beats its known cost, it gets `cur` as predecessor, the
   * new cost, and a heap entry.
   */
  function Improve(h: Heuristic, dest: Coord, cur: Coord, nb: Coord, dist: real, st: SearchState): SearchState
    requires cur in st.cost
  {
    var newCost := st.cost[cur] + dist;
    if nb !in st.cost || newCost < st.cost[nb] then
      SearchState(st.frontier + [(newCost + h(nb, dest), nb)], st.cost[nb := newCost], st.trace[nb := cur])
    else st
  }

  /** The neighbour loop (taxi.py:372-381) from position `j` of `cur`'s row. */
  function Relax(m: RoadMap, h: Heuristic, dest: Coord, cur: Coord, row: Row, j: nat, st: SearchState): (r: Relaxation)
    requires j <= |row|
    requires cur in st.cost && Shaped(m, st)
    ensures r.Relaxed? ==> Shaped(m, r.st) && cur in r.st.cost
    decreases |row| - j
  {
    if j == |row| then Relaxed(st)
    else
      var nb := row[j].0;
      if nb !in m then Missing(nb)
      else Relax(m, h, dest, cur, row, j + 1, Improve(h, dest, cur, nb, row[j].1.distance, st))
  }

  /**
   * Relaxing a row of non-negative lengths never changes the current node's
   * own cost: a self-loop cannot beat it (taxi.py:372-378).
   */
  lemma {:induction false} RelaxKeepsCurrent(m: RoadMap, h: Heuristic, dest: Coord, cur: Coord, row: Row, j: nat, st: SearchState)
    requires j <= |row| && cur in st.cost && Shaped(m, st)
    requires forall i :: j <= i < |row| ==> row[i].1.distance >= 0.0
    ensures Relax(m, h, dest, cur, row, j, st).Relaxed? ==> Relax(m, h, dest, cur, row, j, st).st.cost[cur] == st.cost[cur]
    decreases |row| - j
  {
    if j < |row| && row[j].0 in m {
      var st' := Improve(h, dest, cur, row[j].0, row[j].1.distance, st);
      assert st'.cost[cur] == st.cost[cur];
      RelaxKeepsCurrent(m, h, dest, cur, row, j + 1, st');
    }
  }

  /**
   * The route back from `v` through `path_trace` (taxi.py:366-370), already
   * reversed: it starts where the trace ends and finishes at `v`. `None` if
   * the walk takes more than `n` steps.
   */
  function TraceBack(trace: map<Coord, Coord>, v: Coord, n: nat): Option<seq<Coord>>
    decreases n
  {
    if v !in trace then Some([v])
    else if n == 0 then None
    else match TraceBack(trace, trace[v], n - 1)
      case None => None
      case Some(p) => Some(p + [v])
  }

  /** Taking out the element at `i` leaves the multiset of the rest. */
  lemma RemoveAtMultiset(q: seq<Entry>, i: nat)
    requires i < |q|
    ensures multiset(q[..i] + q[i + 1..]) + multiset{q[i]} == multiset(q)
  {
    assert q == q[..i] + [q[i]] + q[i + 1..];
  }

  /** The state after `heappop`: a least entry is gone (`PoppedRemovesLeast` says the rest is as it was). */
  function Popped(st: SearchState): (r: SearchState)
    requires |st.frontier| > 0
    ensures r.cost == st.cost && r.trace == st.trace
    ensures |r.frontier| == |st.frontier| - 1
    ensures forall m :: Shaped(m, st) ==> Shaped(m, r)
  {
    var i := MinIndex(st.frontier);
    var rest := st.frontier[..i] + st.frontier[i + 1..];
    assert forall k :: 0 <= k < |rest| ==> rest[k] == if k < i then st.frontier[k] else st.frontier[k + 1];
    SearchState(rest, st.cost, st.trace)
  }

  /** `heappop` takes out exactly one least entry: every other entry of the heap stays. */
  lemma PoppedRemovesLeast(st: SearchState)
    requires |st.frontier| > 0
    ensures multiset(Popped(st).frontier) + multiset{st.frontier[MinIndex(st.frontier)]} == multiset(st.frontier)
  {
    RemoveAtMultiset(st.frontier, MinIndex(st.frontier));
  }

  /** What the search loop does once a node's neighbours are relaxed, with `fuel` pops left. */
  function AfterRelax(m: RoadMap, h: Heuristic, dest: Coord, rx: Relaxation, fuel: nat): PlanResult
    requires rx.Relaxed? ==> Shaped(m, rx.st)
    decreases fuel, 2
  {
    match rx
    case Missing(nb) => MissingNode(nb)
    case Relaxed(st) => Search(m, h, dest, st, fuel)
  }

  /**
   * The `while to_explore` loop (taxi.py:362-383) with at most `fuel` pops:
   * pop a least entry; at the destination trace the route back; otherwise
   * relax the node's neighbours and go on.
   */
  function Search(m: RoadMap, h: Heuristic, dest: Coord, st: SearchState, fuel: nat): PlanResult
    requires Shaped(m, st)
    decreases fuel, 1
  {
    if |st.frontier| == 0 then NoRoute
    else if fuel == 0 then Exhausted
    else
      var cur := st.frontier[MinIndex(st.frontier)].1;
      if cur == dest then
        match TraceBack(st.trace, cur, |st.trace|)
        case None => Exhausted
        case Some(p) => Route(p)
      else
        AfterRelax(m, h, dest, Relax(m, h, dest, cur, m[cur], 0, Popped(st)), fuel - 1)
  }

  /** The state the search starts from (taxi.py:350-360). */
  function Start(origin: Coord): SearchState {
    SearchState([(0.0, origin)], map[origin := 0.0], map[])
  }

  /** `_planPath(origin, destination)`, the search allowed `fuel` pops. */
  function Plan(m: RoadMap, h: Heuristic, origin: Coord, dest: Coord, fuel: nat): PlanResult {
    if origin !in m || dest !in m then NoRoute
    else if origin == dest then Route([origin])
    else Search(m, h, dest, Start(origin), fuel)
  }

  /** Every distance in the map is non-negative. */
  ghost predicate NonNegative(m: RoadMap) {
    forall a, i :: a in m && 0 <= i < |m[a]| ==> m[a][i].1.distance >= 0.0
  }

  /** `p` leads from `origin` to `dest` through map nodes, each step along a map edge. */
  ghost predicate ValidRoute(m: RoadMap, origin: Coord, dest: Coord, p: seq<Coord>) {
    && |p| >= 1 && p[0] == origin && p[|p| - 1] == dest
    && (forall k :: 0 <= k < |p| ==> p[k] in m)
    && (forall k :: 0 <= k < |p| - 1 ==> IsEdge(m, p[k], p[k + 1]))
  }

  /**
   * What the search keeps true: costs are non-negative map nodes, the origin
   * costs 0 and has no predecessor, every other costed node has one, and each
   * predecessor is a costed node joined to its successor by a map edge.
   */
  ghost predicate Inv(m: RoadMap, origin: Coord, st: SearchState) {
    && origin in st.cost && st.cost[origin] == 0.0 && origin !in st.trace
    && (forall v :: v in st.cost ==> v in m && st.cost[v] >= 0.0)
    && (forall v :: v in st.cost ==> v == origin || v in st.trace)
    && (forall v :: v in st.trace ==> st.trace[v] in st.cost && IsEdge(m, st.trace[v], v))
  }

  lemma {:induction false} RelaxInv(m: RoadMap, h: Heuristic, dest: Coord, origin: Coord, cur: Coord, row: Row, j: nat, st: SearchState)
    requires NonNegative(m) && cur in m && row == m[cur] && j <= |row|
    requires cur in st.cost && Shaped(m, st) && Inv(m, origin, st)
    ensures Relax(m, h, dest, cur, row, j, st).Relaxed? ==> Inv(m, origin, Relax(m, h, dest, cur, row, j, st).st)
    decreases |row| - j
  {
    if j < |row| && row[j].0 in m {
      var nb := row[j].0;
      assert nb in Keys(m[cur]) by {
        assert Keys(row)[j] == nb;
      }
      ImproveInv(m, h, dest, origin, cur, nb, row[j].1.distance, st);
      RelaxInv(m, h, dest, origin, cur, row, j + 1, Improve(h, dest, cur, nb, row[j].1.distance, st));
    }
  }

  lemma ImproveInv(m: RoadMap, h: Heuristic, dest: Coord, origin: Coord, cur: Coord, nb: Coord, dist: real, st: SearchState)
    requires cur in st.cost && Inv(m, origin, st)
    requires IsEdge(m, cur, nb) && nb in m && dist >= 0.0
    ensures Inv(m, origin, Improve(h, dest, cur, nb, dist, st))
  {
  }

  lemma {:induction false} TraceBackSound(m: RoadMap, origin: Coord, st: SearchState, v: Coord, n: nat)
    requires Inv(m, origin, st) && v in st.cost
    ensures TraceBack(st.trace, v, n).Some? ==> ValidRoute(m, origin, v, TraceBack(st.trace, v, n).value)
    decreases n
  {
    if v in st.trace && n > 0 {
      var u := st.trace[v];
      TraceBackSound(m, origin, st, u, n - 1);
      match TraceBack(st.trace, u, n - 1)
      case None =>
      case Some(p) =>
        var p' := p + [v];
        assert p'[|p'| - 2] == u;
        assert forall k :: 0 <= k < |p| ==> p'[k] == p[k];
    }
  }

  /** Popping the heap keeps the search's invariant. */
  lemma PoppedInv(m: RoadMap, origin: Coord, st: SearchState)
    requires |st.frontier| > 0 && Shaped(m, st) && Inv(m, origin, st)
    ensures Shaped(m, Popped(st)) && Inv(m, origin, Popped(st))
  {
  }

  /** The search stopping at the destination returns the traced-back route, which is valid. */
  lemma ArrivalSound(m: RoadMap, h: Heuristic, origin: Coord, dest: Coord, st: SearchState, fuel: nat)
    requires Shaped(m, st) && Inv(m, origin, st) && |st.frontier| > 0 && fuel > 0
    requires st.frontier[MinIndex(st.frontier)].1 == dest
    ensures Search(m, h, dest, st, fuel).Route? ==> ValidRoute(m, origin, dest, Search(m, h, dest, st, fuel).path)
  {
    TraceBackSound(m, origin, st, dest, |st.trace|);
    var tb := TraceBack(st.trace, dest, |st.trace|);
    assert Search(m, h, dest, st, fuel) == if tb.Some? then Route(tb.value) else Exhausted;
  }

  lemma {:induction false} SearchSound(m: RoadMap, h: Heuristic, origin: Coord, dest: Coord, st: SearchState, fuel: nat)
    requires NonNegative(m) && Shaped(m, st) && Inv(m, origin, st)
    ensures Search(m, h, dest, st, fuel).Route? ==> ValidRoute(m, origin, dest, Search(m, h, dest, st, fuel).path)
    decreases fuel
  {
    if |st.frontier| > 0 && fuel > 0 {
      var cur := st.frontier[MinIndex(st.frontier)].1;
      if cur == dest {
        ArrivalSound(m, h, origin, dest, st, fuel);
      } else {
        var st0 := Popped(st);
        PoppedInv(m, origin, st);
        RelaxInv(m, h, dest, origin, cur, m[cur], 0, st0);
        var rx := Relax(m, h, dest, cur, m[cur], 0, st0);
        if rx.Relaxed? {
          assert Search(m, h, dest, st, fuel) == Search(m, h, dest, rx.st, fuel - 1);
          SearchSound(m, h, origin, dest, rx.st, fuel - 1);
        }
      }
    }
  }

  /**
   * With non-negative distances, a route the planner returns starts at the
   * origin, ends at the destination, and follows edges of the map.
   */
  lemma PlanSound(m: RoadMap, h: Heuristic, origin: Coord, dest: Coord, fuel: nat)
    requires NonNegative(m)
    ensures Plan(m, h, origin, dest, fuel).Route? ==> ValidRoute(m, origin, dest, Plan(m, h, origin, dest, fuel).path)
  {
    if origin in m && dest in m && origin != dest {
      SearchSound(m, h, origin, dest, Start(origin), fuel);
    }
  }

  /** `_planPath` (taxi.py:340-383), the heap loop allowed `fuel` pops. */
  method PlanPath(m: RoadMap, h: Heuristic, origin: Coord, dest: Coord, fuel: nat) returns (r: PlanResult)
    ensures r == Plan(m, h, origin, dest, fuel)
    ensures origin !in m || dest !in m ==> r == NoRoute
    ensures origin in m && origin == dest ==> r == Route([origin])
    ensures NonNegative(m) && r.Route? ==> ValidRoute(m, origin, dest, r.path)
  {
    if NonNegative(m) {
      PlanSound(m, h, origin, dest, fuel);
    }
    if origin !in m || dest !in m {
      return NoRoute;
    }
    if origin == dest {
      return Route([origin]);
    }
    var frontier: seq<Entry> := [(0.0, origin)];
    var cost: map<Coord, real> := map[origin := 0.0];
    var trace: map<Coord, Coord> := map[];
    var steps := fuel;
    while |frontier| > 0
      invariant Shaped(m, SearchState(frontier, cost, trace))
      invariant Search(m, h, dest, SearchState(frontier, cost, trace), steps) == Plan(m, h, origin, dest, fuel)
      decreases steps
    {
      if steps == 0 {
        return Exhausted;
      }
      ghost var before := SearchState(frontier, cost, trace);
      var i := MinIndex(frontier);
      var cur := frontier[i].1;
      frontier := frontier[..i] + frontier[i + 1..];
      steps := steps - 1;
      if cur == dest {
        r := TraceRoute(trace, dest);
        return;
      }
      assert SearchState(frontier, cost, trace) == Popped(before);
      var rx := RelaxRow(m, h, dest, cur, m[cur], SearchState(frontier, cost, trace));
      if rx.Missing? {
        return MissingNode(rx.at);
      }
      frontier, cost, trace := rx.st.frontier, rx.st.cost, rx.st.trace;
    }
    return NoRoute;
  }

  /** The neighbour loop of `_planPath` (taxi.py:372-381) over `cur`'s row. */
  method RelaxRow(m: RoadMap, h: Heuristic, dest: Coord, cur: Coord, row: Row, st: SearchState) returns (rx: Relaxation)
    requires cur in st.cost && Shaped(m, st)
    ensures rx == Relax(m, h, dest, cur, row, 0, st)
  {
    var frontier, cost, trace := st.frontier, st.cost, st.trace;
    var j := 0;
    while j < |row|
      invariant j <= |row|
      invariant cur in cost && Shaped(m, SearchState(frontier, cost, trace))
      invariant Relax(m, h, dest, cur, row, j, SearchState(frontier, cost, trace)) == Relax(m, h, dest, cur, row, 0, st)
    {
      var nb := row[j].0;
      if nb !in m {
        return Missing(nb);
      }
      var newCost := cost[cur] + row[j].1.distance;
      if nb !in cost || newCost < cost[nb] {
        trace := trace[nb := cur];
        cost := cost[nb := newCost];
        frontier := frontier + [(newCost + h(nb, dest), nb)];
      }
      j := j + 1;
    }
    return Relaxed(SearchState(frontier, cost, trace));
  }

  /** The back-trace of `_planPath` (taxi.py:366-370), built front first instead of reversed at the end. */
  method TraceRoute(trace: map<Coord, Coord>, dest: Coord) returns (r: PlanResult)
    ensures r == match TraceBack(trace, dest, |trace|) case None => Exhausted case Some(p) => Route(p)
  {
    var path := [dest];
    var cur := dest;
    var k: nat := |trace|;
    assert TraceBack(trace, dest, k).Some? ==> TraceBack(trace, dest, k).value + path[1..] == TraceBack(trace, dest, k).value;
    while cur in trace
      invariant |path| >= 1 && path[0] == cur
      invariant TraceBack(trace, dest, |trace|) == match TraceBack(trace, cur, k) case None => None case Some(p) => Some(p + path[1..])
      decreases k
    {
      if k == 0 {
        return Exhausted;
      }
      var prev := path;
      var old_cur := cur;
      cur := trace[cur];
      path := [cur] + path;
      k := k - 1;
      assert path[1..] == prev == [old_cur] + prev[1..];
      assert TraceBack(trace, old_cur, k + 1) == match TraceBack(trace, cur, k) case None => None case Some(p) => Some(p + [old_cur]);
      assert forall p: seq<Coord> :: (p + [old_cur]) + prev[1..] == p + path[1..];
    }
    return Route(path);
  }
}
