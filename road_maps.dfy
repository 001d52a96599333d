/**
 * The service-area map that both the dispatcher and each taxi keep: a
 * dictionary from node coordinates to that node's neighbour dictionary
 * `{(x, y): (direction, distance)}`, built incrementally with `addMapNode` and
 * `importMap` (dispatcher.py:65-92, taxi.py:124-152, the two are identical).
 */
module RoadMaps {
  import opened Common
  import opened OrderedMaps

  /** A neighbour-dictionary value: `(direction, distance)`. */
  datatype Edge = Edge(direction: int, distance: real)

  /** One element of the neighbour list `addMapNode` takes: `(direction, x, y)`. */
  datatype Neighbour = Neighbour(direction: int, at: Coord)

  /** A neighbour dictionary; its iteration order is what `_planPath` explores. */
  type Row = OMap<Coord, Edge>

  /** The order of the outer dictionary is never observed, so it is a plain map. */
  type RoadMap = map<Coord, Row>

  /** The world's lookups: `getNode(x, y) is not None`, and `distance2Node`. */
  datatype NodeWorld = NodeWorld(hasNode: Coord -> bool, distance: (Coord, Coord) -> real)

  /** The error values `addMapNode` returns (it returns them; it does not raise them). */
  datatype MapError = NoWorld | NoSuchNode | NoSuchNeighbour

  datatype NodeUpdate = Rejected(error: MapError) | Accepted(row: Row)

  /** `b` is a neighbour of `a` in `m`. */
  ghost predicate IsEdge(m: RoadMap, a: Coord, b: Coord) {
    a in m && b in Keys(m[a])
  }

  /** Every neighbour named in the map is itself a node of the map. */
  ghost predicate Closed(m: RoadMap) {
    forall a, i :: a in m && 0 <= i < |m[a]| ==> m[a][i].0 in m
  }

  /** Every neighbour dictionary is a proper dictionary. */
  ghost predicate RowsDistinct(m: RoadMap) {
    forall a :: a in m ==> DistinctKeys(m[a])
  }

  /**
   * The neighbour dictionary built by the loop in `addMapNode`: each listed
   * neighbour is entered (a later duplicate overwrites an earlier one) with the
   * world's distance; `None` as soon as one neighbour is unknown to the world.
   */
  function NeighbourRow(w: NodeWorld, node: Coord, ns: seq<Neighbour>): Option<Row>
    decreases |ns|
  {
    if ns == [] then Some([])
    else match NeighbourRow(w, node, ns[..|ns| - 1])
      case None => None
      case Some(row) =>
        var n := ns[|ns| - 1];
        if w.hasNode(n.at) then Some(Put(row, n.at, Edge(n.direction, w.distance(node, n.at)))) else None
  }

  /** What `addMapNode(coords, neighbours)` does once the world is known to exist. */
  function NodeRow(w: NodeWorld, coords: Coord, ns: seq<Neighbour>): NodeUpdate {
    if !w.hasNode(coords) then Rejected(NoSuchNode)
    else match NeighbourRow(w, coords, ns)
      case None => Rejected(NoSuchNeighbour)
      case Some(row) => Accepted(row)
  }

  /** The neighbour list `importMap` derives from one row of the imported map. */
  function Listing(row: Row): (ns: seq<Neighbour>)
    ensures |ns| == |row|
    ensures forall i :: 0 <= i < |row| ==> ns[i] == Neighbour(row[i].1.direction, row[i].0)
  {
    seq(|row|, i requires 0 <= i < |row| => Neighbour(row[i].1.direction, row[i].0))
  }

  /**
   * Importing `n` into an existing map: each node of `n` is passed to
   * `addMapNode` with its own neighbour list; accepted nodes replace their
   * entry, rejected ones leave the map as it was.
   */
  ghost function Imported(m: RoadMap, n: RoadMap, w: NodeWorld): (r: RoadMap)
    ensures forall c :: c in r <==> c in m || (c in n && NodeRow(w, c, Listing(n[c])).Accepted?)
    ensures forall c :: c in r ==> r[c] == if c in n && NodeRow(w, c, Listing(n[c])).Accepted? then NodeRow(w, c, Listing(n[c])).row else m[c]
  {
    map c | c in m.Keys + n.Keys && (c in m || NodeRow(w, c, Listing(n[c])).Accepted?) ::
      if c in n && NodeRow(w, c, Listing(n[c])).Accepted? then NodeRow(w, c, Listing(n[c])).row else m[c]
  }

  /** The neighbour dictionary is refused exactly when some listed neighbour is unknown. */
  lemma {:induction false} NeighbourRowFails(w: NodeWorld, node: Coord, ns: seq<Neighbour>)
    ensures NeighbourRow(w, node, ns).None? <==> exists i :: 0 <= i < |ns| && !w.hasNode(ns[i].at)
    decreases |ns|
  {
    if ns != [] {
      var init := ns[..|ns| - 1];
      NeighbourRowFails(w, node, init);
      assert forall i :: 0 <= i < |init| ==> ns[i] == init[i];
    }
  }

  /** A built dictionary holds each listed neighbour once, and nothing else. */
  lemma {:induction false} NeighbourRowKeys(w: NodeWorld, node: Coord, ns: seq<Neighbour>)
    requires NeighbourRow(w, node, ns).Some?
    ensures DistinctKeys(NeighbourRow(w, node, ns).value)
    ensures forall c :: c in Keys(NeighbourRow(w, node, ns).value) <==> exists i :: 0 <= i < |ns| && ns[i].at == c
    decreases |ns|
  {
    if ns != [] {
      var init := ns[..|ns| - 1];
      var n := ns[|ns| - 1];
      NeighbourRowKeys(w, node, init);
      var row := NeighbourRow(w, node, init).value;
      var row' := NeighbourRow(w, node, ns).value;
      assert forall i :: 0 <= i < |init| ==> ns[i] == init[i];
      assert forall c :: c in Keys(row') <==> c in Keys(row) || c == n.at;
      forall c | c in Keys(row') ensures exists i :: 0 <= i < |ns| && ns[i].at == c {
        if c == n.at {
          assert ns[|ns| - 1].at == c;
        } else {
          var i :| 0 <= i < |init| && init[i].at == c;
          assert ns[i].at == c;
        }
      }
      forall c, i | 0 <= i < |ns| && ns[i].at == c ensures c in Keys(row') {
        if i < |init| {
          assert init[i].at == c;
        }
      }
    }
  }

  /** The entry for a neighbour is its last listed direction with the world's distance. */
  lemma {:induction false} NeighbourRowValues(w: NodeWorld, node: Coord, ns: seq<Neighbour>, i: nat)
    requires NeighbourRow(w, node, ns).Some?
    requires i < |ns| && forall j :: i < j < |ns| ==> ns[j].at != ns[i].at
    ensures Get(NeighbourRow(w, node, ns).value, ns[i].at) == Some(Edge(ns[i].direction, w.distance(node, ns[i].at)))
    decreases |ns|
  {
    var init := ns[..|ns| - 1];
    if i < |init| {
      assert ns[i] == init[i];
      forall j | i < j < |init| ensures init[j].at != init[i].at {
        assert init[j] == ns[j];
      }
      NeighbourRowValues(w, node, init, i);
    }
  }

  /** The neighbour-list loop of `addMapNode` (dispatcher.py:72-78, taxi.py:145-151). */
  method BuildRow(w: NodeWorld, node: Coord, ns: seq<Neighbour>) returns (r: Option<Row>)
    ensures r == NeighbourRow(w, node, ns)
  {
    var row: Row := [];
    var i := 0;
    while i < |ns|
      invariant 0 <= i <= |ns|
      invariant NeighbourRow(w, node, ns[..i]) == Some(row)
    {
      assert ns[..i + 1][..i] == ns[..i];
      var n := ns[i];
      if !w.hasNode(n.at) {
        NeighbourRowFails(w, node, ns);
        assert ns[i] == n;
        return None;
      }
      row := Put(row, n.at, Edge(n.direction, w.distance(node, n.at)));
      i := i + 1;
    }
    assert ns[..i] == ns;
    r := Some(row);
  }

  /** The node-level part of `addMapNode` (dispatcher.py:68-79, taxi.py:141-152). */
  method BuildNode(w: NodeWorld, coords: Coord, ns: seq<Neighbour>) returns (u: NodeUpdate)
    ensures u == NodeRow(w, coords, ns)
    ensures u.Rejected? <==> !w.hasNode(coords) || exists i :: 0 <= i < |ns| && !w.hasNode(ns[i].at)
  {
    NeighbourRowFails(w, coords, ns);
    if !w.hasNode(coords) {
      return Rejected(NoSuchNode);
    }
    var row := BuildRow(w, coords, ns);
    if row.None? {
      return Rejected(NoSuchNeighbour);
    }
    u := Accepted(row.value);
  }

  /** The loop of `importMap` over an existing map (dispatcher.py:90-92, taxi.py:131-133). */
  method ImportInto(m: RoadMap, n: RoadMap, w: NodeWorld) returns (r: RoadMap)
    ensures r == Imported(m, n, w)
  {
    r := m;
    var todo := n.Keys;
    while todo != {}
      invariant todo <= n.Keys
      invariant forall c :: c in r <==> c in m || (c in n && c !in todo && NodeRow(w, c, Listing(n[c])).Accepted?)
      invariant forall c :: c in r ==> r[c] == if c in n && c !in todo && NodeRow(w, c, Listing(n[c])).Accepted? then NodeRow(w, c, Listing(n[c])).row else m[c]
      decreases todo
    {
      var c :| c in todo;
      var u := BuildNode(w, c, Listing(n[c]));
      if u.Accepted? {
        r := r[c := u.row];
      }
      todo := todo - {c};
    }
    assert r == Imported(m, n, w);
  }

  /** Importing the same snapshot twice changes nothing the first import did not. */
  lemma ImportIdempotent(m: RoadMap, n: RoadMap, w: NodeWorld)
    ensures Imported(Imported(m, n, w), n, w) == Imported(m, n, w)
  {
    var once := Imported(m, n, w);
    assert Imported(once, n, w).Keys == once.Keys;
  }

  /**
   * A map whose every row is the one the world would build for it is left as
   * it is when it is imported into itself.
   */
  lemma ImportSelf(m: RoadMap, w: NodeWorld)
    requires forall c :: c in m ==> NodeRow(w, c, Listing(m[c])) == Accepted(m[c])
    ensures Imported(m, m, w) == m
  {
    assert Imported(m, m, w).Keys == m.Keys;
  }
}
