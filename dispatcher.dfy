/**
 * The `Dispatcher` (dispatcher.py:30-187): it keeps a roster of taxis, a map
 * of the service area and the fare board, and it is driven by its world
 * through `newFare`, `cancelFare`, `fareBid`, `recvPayment` and `clockTick`.
 */
module Dispatchers {
  import opened Common
  import opened OrderedMaps
  import opened RoadMaps
  import opened FareBoards
  import opened Pricing
  import opened Allocation
  import opened DispatchTicks

  /** What `addMapNode` did: stored the node, returned an error value, or failed on a missing map. */
  datatype MapUpdate = Stored | Refused(error: MapError) | NoMap

  /** Why `cancelFare` fails part-way: no world to notify, or a roster index out of range. */
  datatype CancelFailure = NoWorldToNotify | RosterIndexError

  /**
   * What `cancelFare` did: nothing, removed the fare after telling the world
   * to notify `taxi`, or failed after counting the abandoned ride.
   */
  datatype Cancellation = Ignored | Cancelled(origin: Coord, taxi: TaxiId) | Failed(why: CancelFailure)

  class Dispatcher {
    /** The world the dispatcher lives in; requests from any other world are ignored. */
    const parent: Option<WorldRef>
    var revenue: real
    /** The roster; a taxi's roster index is what fares record as their taxi. */
    var taxis: seq<TaxiId>
    var board: Board
    var serviceMap: Option<RoadMap>
    /** Counts new destinations filed under an origin already on the board (dispatcher.py:117-119). */
    var completedRides: nat
    var abandonedRides: nat

    ghost predicate Valid()
      reads this`board
    {
      WellFormed(board)
    }

    /** `Dispatcher(parent, taxis, serviceMap)`; a missing roster starts empty. */
    constructor (parent: Option<WorldRef>, taxis: Option<seq<TaxiId>>, serviceMap: Option<RoadMap>)
      ensures Valid()
      ensures this.parent == parent
      ensures this.taxis == if taxis.Some? then taxis.value else []
      ensures this.serviceMap == serviceMap && board == []
      ensures revenue == 0.0 && completedRides == 0 && abandonedRides == 0
    {
      this.parent := parent;
      revenue := 0.0;
      this.taxis := if taxis.Some? then taxis.value else [];
      board := [];
      this.serviceMap := serviceMap;
      completedRides := 0;
      abandonedRides := 0;
    }

    /** `addTaxi` (dispatcher.py:58-60): a taxi joins the roster once. */
    method AddTaxi(taxi: TaxiId)
      modifies this`taxis
      ensures taxis == if taxi in old(taxis) then old(taxis) else old(taxis) + [taxi]
      ensures taxi in taxis
    {
      if taxi !in taxis {
        taxis := taxis + [taxi];
      }
    }

    /**
     * `addMapNode` (dispatcher.py:65-79), `w` being the parent world's node
     * lookups. The node is stored only when the dispatcher has a world, the
     * world knows the node and every listed neighbour, and a map exists.
     */
    method AddMapNode(w: NodeWorld, coords: Coord, ns: seq<Neighbour>) returns (u: MapUpdate)
      modifies this`serviceMap
      ensures parent.None? ==> u == Refused(NoWorld)
      ensures parent.Some? && NodeRow(w, coords, ns).Rejected? ==> u == Refused(NodeRow(w, coords, ns).error)
      ensures u == Stored <==> parent.Some? && NodeRow(w, coords, ns).Accepted? && old(serviceMap).Some?
      ensures u == NoMap <==> parent.Some? && NodeRow(w, coords, ns).Accepted? && old(serviceMap).None?
      ensures serviceMap == if u == Stored then Some(old(serviceMap).value[coords := NodeRow(w, coords, ns).row]) else old(serviceMap)
    {
      if parent.None? {
        return Refused(NoWorld);
      }
      var n := BuildNode(w, coords, ns);
      if n.Rejected? {
        return Refused(n.error);
      }
      if serviceMap.None? {
        return NoMap;
      }
      serviceMap := Some(serviceMap.value[coords := n.row]);
      u := Stored;
    }

    /**
     * `importMap` (dispatcher.py:83-92): a first map is taken as it is; later
     * ones go node by node through `addMapNode`, which refuses every node
     * when there is no world.
     */
    method ImportMap(n: RoadMap, w: NodeWorld)
      modifies this`serviceMap
      ensures serviceMap == Some(if old(serviceMap).None? then n else if parent.None? then old(serviceMap).value else Imported(old(serviceMap).value, n, w))
    {
      if serviceMap.None? {
        serviceMap := Some(n);
      } else if parent.Some? {
        var m := ImportInto(serviceMap.value, n, w);
        serviceMap := Some(m);
      }
    }

    /**
     * `newFare` (dispatcher.py:112-125): a fare from the dispatcher's own
     * world is filed as a fresh entry, replacing any fare with the same key.
     */
    method NewFare(caller: Option<WorldRef>, o: Coord, d: Coord, t: int)
      requires Valid()
      modifies this`board, this`completedRides
      ensures Valid()
      ensures board == if caller == parent then PutFare(old(board), o, d, t, NewEntry(o, d, t)) else old(board)
      ensures caller == parent ==> Lookup(board, o, d, t) == Some(NewEntry(o, d, t))
      ensures completedRides == old(completedRides) + if caller == parent then Opens(old(board), o, d) else 0
    {
      if caller == parent {
        if NewDestination(board, o, d) {
          completedRides := completedRides + 1;
        }
        PutFareFound(board, o, d, t, NewEntry(o, d, t));
        board := PutFare(board, o, d, t, NewEntry(o, d, t));
      }
    }

    /**
     * Overwrites the entry `newFare` has just filed under `(o, d, t)` with `e`
     * (dispatcher.py:104-105); the board is then as if `e` had been filed directly.
     */
    method Refile(ghost before: Board, o: Coord, d: Coord, t: int, e: FareEntry)
      requires WellFormed(before) && board == PutFare(before, o, d, t, NewEntry(o, d, t))
      modifies this`board
      ensures Valid()
      ensures board == PutFare(before, o, d, t, e)
      ensures Lookup(board, o, d, t) == Some(e)
    {
      PutFareTwice(before, o, d, t, NewEntry(o, d, t), e);
      PutFareFound(before, o, d, t, e);
      board := PutFare(board, o, d, t, e);
    }

    /**
     * The part of `handover` after the roster update (dispatcher.py:103-105):
     * `newFare` files the fare, which then gets its taxi's roster index and
     * its price.
     */
    method FileAllocated(o: Coord, d: Coord, t: int, taxi: TaxiId, price: real)
      requires Valid() && taxi in taxis
      modifies this`board, this`completedRides
      ensures Valid()
      ensures board == PutFare(old(board), o, d, t, NewEntry(o, d, t).(taxi := IndexOf(taxis, taxi), price := price))
      ensures Lookup(board, o, d, t) == Some(NewEntry(o, d, t).(taxi := IndexOf(taxis, taxi), price := price))
      ensures completedRides == old(completedRides) + Opens(old(board), o, d)
    {
      ghost var before := board;
      NewFare(parent, o, d, t);
      var e := NewEntry(o, d, t).(taxi := IndexOf(taxis, taxi), price := price);
      Refile(before, o, d, t, e);
    }

    /**
     * `handover` (dispatcher.py:96-105): a fare already allocated by another
     * dispatcher of the same world is filed with its taxi (joining the roster
     * if need be) and its price.
     */
    method Handover(caller: Option<WorldRef>, o: Coord, d: Coord, t: int, taxi: TaxiId, price: real)
      requires Valid()
      modifies this`taxis, this`board, this`completedRides
      ensures Valid()
      ensures caller == parent ==> taxis == (if taxi in old(taxis) then old(taxis) else old(taxis) + [taxi])
      ensures caller == parent ==>
        board == PutFare(old(board), o, d, t, NewEntry(o, d, t).(taxi := IndexOf(taxis, taxi), price := price))
      ensures caller == parent ==> Lookup(board, o, d, t) == Some(NewEntry(o, d, t).(taxi := IndexOf(taxis, taxi), price := price))
      ensures caller == parent ==> completedRides == old(completedRides) + Opens(old(board), o, d)
      ensures caller != parent ==> taxis == old(taxis) && board == old(board) && completedRides == old(completedRides)
    {
      if caller == parent {
        AddTaxi(taxi);
        FileAllocated(o, d, t, taxi, price);
      }
    }

    /**
     * `cancelFare` (dispatcher.py:128-142). A fare on the board from the
     * dispatcher's own world counts as abandoned; the world is told to notify
     * the taxi at the fare's roster index (index -1, an unallocated fare,
     * names the last taxi of the roster), and the fare is removed with any
     * dictionary this empties.
     */
    method CancelFare(caller: Option<WorldRef>, o: Coord, d: Coord, t: int) returns (c: Cancellation)
      requires Valid()
      modifies this`board, this`abandonedRides
      ensures Valid()
      ensures c.Ignored? <==> caller != parent || Lookup(old(board), o, d, t).None?
      ensures abandonedRides == old(abandonedRides) + if c.Ignored? then 0 else 1
      ensures c == Failed(NoWorldToNotify) <==> !c.Ignored? && parent.None?
      ensures c == Failed(RosterIndexError) <==>
        !c.Ignored? && parent.Some? && PyIndex(taxis, Lookup(old(board), o, d, t).value.taxi).None?
      ensures c.Cancelled? ==>
        c == Cancelled(o, PyIndex(taxis, Lookup(old(board), o, d, t).value.taxi).value)
        && board == RemoveFare(old(board), o, d, t)
      ensures !c.Cancelled? ==> board == old(board)
    {
      c := Ignored;
      if caller == parent && o in Keys(board) {
        var ds := DestsAt(board, o);
        if d in Keys(ds) {
          var ts := TimesAt(ds, d);
          if t in Keys(ts) {
            abandonedRides := abandonedRides + 1;
            if parent.None? {
              return Failed(NoWorldToNotify);
            }
            var fare := Get(ts, t).value;
            var notified := PyIndex(taxis, fare.taxi);
            if notified.None? {
              return Failed(RosterIndexError);
            }
            RemoveFareSpec(board, o, d, t);
            board := RemoveFare(board, o, d, t);
            c := Cancelled(o, notified.value);
          }
        }
      }
    }

    /**
     * `fareBid` (dispatcher.py:145-157): a taxi on the roster bids, by its
     * roster index, on the first unallocated fare at the origin.
     */
    method FareBid(o: Coord, taxi: TaxiId)
      requires Valid()
      modifies this`board
      ensures Valid()
      ensures board == if taxi in taxis then AddBid(old(board), o, IndexOf(taxis, taxi)) else old(board)
    {
      AddBidWellFormed(board, o, if taxi in taxis then IndexOf(taxis, taxi) else 0);
      if taxi !in taxis || o !in Keys(board) {
        return;
      }
      var idx := IndexOf(taxis, taxi);
      var ds := DestsAt(board, o);
      var open := FindOpen(ds);
      if open.Some? {
        var (i, j) := open.value;
        var e := ds[i].1[j].1;
        board := PutFare(board, o, ds[i].0, ds[i].1[j].0, e.(bidders := e.bidders + [idx]));
      }
    }

    /** `recvPayment` (dispatcher.py:160-163): payments from the own world are revenue. */
    method RecvPayment(caller: Option<WorldRef>, amount: real)
      modifies this`revenue
      ensures revenue == if caller == parent then old(revenue) + amount else old(revenue)
    {
      if caller == parent {
        revenue := revenue + amount;
      }
    }

    /**
     * `clockTick` (dispatcher.py:170-187). `fareQueue` and `onDuty` are the
     * world's fare-queue length and on-duty taxi count that
     * `_computeSupplyRatio` reads; `world` is what `_allocateFare` reads.
     * Returns the broadcast and allocation requests, in the order made.
     */
    method ClockTick(caller: Option<WorldRef>, fareQueue: nat, onDuty: nat, world: AllocationWorld) returns (evs: seq<Event>)
      requires Valid() && parent.Some?
      modifies this`board
      ensures Valid()
      ensures caller == parent ==>
        var ctx := TickContext(ComputeSupplyRatio(fareQueue, onDuty), world, taxis);
        board == TickBoard(old(board), ctx) && evs == BoardEvents(old(board), ctx)
      ensures caller != parent ==> board == old(board) && evs == []
    {
      evs := [];
      if caller == parent {
        var ctx := TickContext(ComputeSupplyRatio(fareQueue, onDuty), world, taxis);
        TickBoardWellFormed(board, ctx);
        board, evs := SweepBoard(board, ctx);
      }
    }
  }

  /**
   * The nested loops of `fareBid` (dispatcher.py:149-157): the positions
   * (destination, time) of the first fare no taxi holds, in iteration order.
   */
  method FindOpen(ds: Destinations) returns (r: Option<(nat, nat)>)
    ensures r == FirstOpen(ds, 0)
  {
    var i := 0;
    while i < |ds|
      invariant 0 <= i <= |ds|
      invariant forall k, l :: 0 <= k < i && 0 <= l < |ds[k].1| ==> ds[k].1[l].1.taxi != -1
    {
      var ts := ds[i].1;
      var j := 0;
      while j < |ts|
        invariant 0 <= j <= |ts|
        invariant forall l :: 0 <= l < j ==> ts[l].1.taxi != -1
      {
        if ts[j].1.taxi == -1 {
          FirstOpenTimeAt(ts, 0, j);
          FirstOpenSkips(ds, 0, i);
          return Some((i, j));
        }
        j := j + 1;
      }
      i := i + 1;
    }
    FirstOpenSkips(ds, 0, |ds|);
    return None;
  }
}
