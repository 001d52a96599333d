/**
 * The `Taxi` agent (taxi.py:33-440): it keeps its own map of the service
 * area, a record of the fares the dispatcher has advertised, its account and
 * its duty state, and it is driven by its world through `recvMsg`,
 * `comeOnDuty` and `clockTick`.
 */
module Taxis {
  import opened Common
  import opened OrderedMaps
  import opened RoadMaps
  import opened TaxiFares
  import opened Planner
  import opened EntryPoints
  import opened TaxiTicks

  /** The dispatcher's messages, with the keyword arguments each one carries (taxi.py:36-39). */
  datatype Message =
    | FareAdvice(origin: Coord, destination: Coord, price: real)
    | FareAllocation(origin: Coord, destination: Coord)
    | FarePayment(amount: real)
    | FareCancellation(origin: Coord)
    | Unrecognised

  /** The world a taxi is created in, as far as the constructor reads it: `exportMap()`, `xSize`, `ySize`. */
  datatype HomeWorld = HomeWorld(exported: RoadMap, xSize: int, ySize: int)

  class Taxi {
    /** Whether `_world` is set; every world call is a parameter of the method that makes it. */
    const hasWorld: bool
    var onDuty: bool
    const onDutyTime: int
    var offDutyTime: int
    const onDutyPos: Coord
    /** `idle_loss`: the account a taxi starts its shift with. */
    const dailyLoss: real
    const maxFareWait: int
    var account: real
    /** The index of `_loc`, the node the world has placed the taxi on; `None` before it enters the world. */
    var loc: Option<Coord>
    var lastFareCompletionTime: int
    var income: NonNegReal
    var passenger: Option<Passenger>
    var serviceMap: RoadMap
    var path: Option<seq<Coord>>
    var fares: Fares

    ghost predicate Valid()
      reads this`fares
    {
      DistinctKeys(fares)
    }

    /** The fields `__init__` sets (taxi.py:57-108), the map and the entry point already resolved. */
    constructor (hasWorld: bool, dailyLoss: real, maxFareWait: int, onDutyTime: int, offDutyTime: int, serviceMap: RoadMap, onDutyPos: Coord)
      ensures Valid()
      ensures this.hasWorld == hasWorld && this.dailyLoss == dailyLoss && this.maxFareWait == maxFareWait
      ensures this.onDutyTime == onDutyTime && this.offDutyTime == offDutyTime
      ensures this.serviceMap == serviceMap && this.onDutyPos == onDutyPos
      ensures !onDuty && account == 0.0 && loc.None? && lastFareCompletionTime == 0 && income == 0.0
      ensures passenger.None? && path == Some([]) && fares == []
    {
      this.hasWorld := hasWorld;
      onDuty := false;
      this.onDutyTime := onDutyTime;
      this.offDutyTime := offDutyTime;
      this.onDutyPos := onDutyPos;
      this.dailyLoss := dailyLoss;
      this.maxFareWait := maxFareWait;
      account := 0.0;
      loc := None;
      lastFareCompletionTime := 0;
      income := 0.0;
      passenger := None;
      this.serviceMap := serviceMap;
      path := Some([]);
      fares := [];
    }

    /** What `clockTick`'s helpers read from the taxi. */
    function Cab(): Cabbie
      reads this`serviceMap, this`loc, this`income, this`lastFareCompletionTime
    {
      Cabbie(serviceMap, loc, income, lastFareCompletionTime, maxFareWait)
    }

    /**
     * `addMapNode` (taxi.py:138-152), `w` being the world's node lookups: the
     * node is stored when the taxi has a world that knows the node and every
     * listed neighbour; otherwise the error value is returned.
     */
    method AddMapNode(w: NodeWorld, coords: Coord, ns: seq<Neighbour>) returns (u: NodeUpdate)
      modifies this`serviceMap
      ensures u.Rejected? <==> !hasWorld || !w.hasNode(coords) || exists i :: 0 <= i < |ns| && !w.hasNode(ns[i].at)
      ensures !hasWorld ==> u == Rejected(NoWorld)
      ensures hasWorld ==> u == NodeRow(w, coords, ns)
      ensures serviceMap == if u.Accepted? then old(serviceMap)[coords := u.row] else old(serviceMap)
    {
      if !hasWorld {
        return Rejected(NoWorld);
      }
      u := BuildNode(w, coords, ns);
      if u.Accepted? {
        serviceMap := serviceMap[coords := u.row];
      }
    }

    /** `importMap` into the taxi's existing map (taxi.py:124-133): each node goes through `addMapNode`. */
    method ImportMap(n: RoadMap, w: NodeWorld)
      modifies this`serviceMap
      ensures serviceMap == if hasWorld then Imported(old(serviceMap), n, w) else old(serviceMap)
    {
      if hasWorld {
        serviceMap := ImportInto(serviceMap, n, w);
      }
    }

    /** The duty window of `comeOnDuty`: always, when no return time is set; otherwise from `onDutyTime` up to `offDutyTime`. */
    predicate MayComeOnDuty(time: int)
      reads this
    {
      offDutyTime == 0 || (onDutyTime <= time < offDutyTime)
    }

    /**
     * `comeOnDuty(time)` (taxi.py:161-170); `ok` is false for the error
     * value returned by a taxi with no world. Inside its duty window the taxi
     * goes on duty, topping an exhausted account up to `dailyLoss`.
     */
    method ComeOnDuty(time: int) returns (ok: bool)
      modifies this`account, this`onDuty
      ensures ok == hasWorld
      ensures ok && MayComeOnDuty(time) ==> onDuty && account == if old(account) <= 0.0 then dailyLoss else old(account)
      ensures ok && MayComeOnDuty(time) && dailyLoss > 0.0 ==> account > 0.0
      ensures !(ok && MayComeOnDuty(time)) ==> onDuty == old(onDuty) && account == old(account)
    {
      if !hasWorld {
        return false;
      }
      ok := true;
      if MayComeOnDuty(time) {
        if account <= 0.0 {
          account := dailyLoss;
        }
        onDuty := true;
      }
    }

    /**
     * `recvMsg` (taxi.py:306-329), `now` being the world's `simTime`. An
     * advice files a fresh record under the time of receipt; an allocation
     * marks the first matching record; a payment is credited; a cancellation
     * deletes the first record at the origin; any other message is ignored.
     */
    method RecvMsg(now: int, msg: Message)
      requires hasWorld && Valid()
      modifies this`fares, this`account
      ensures Valid()
      ensures msg.FareAdvice? ==> fares == Advise(old(fares), now, msg.origin, msg.destination, msg.price)
      ensures msg.FareAllocation? ==> fares == Allocate(old(fares), msg.origin, msg.destination)
      ensures msg.FareCancellation? ==> fares == Cancel(old(fares), msg.origin)
      ensures msg.FarePayment? ==> account == old(account) + msg.amount
      ensures !msg.FarePayment? ==> account == old(account)
      ensures msg.FarePayment? || msg.Unrecognised? ==> fares == old(fares)
    {
      match msg
      case FareAdvice(o, d, price) =>
        fares := Put(fares, FareKey(now, o), NewInfo(d, price));
      case FareAllocation(o, d) =>
        AllocateSpec(fares, o, d);
        var i := FindAllocMatch(fares, o, d);
        if i.Some? {
          fares := fares[i.value := (fares[i.value].0, fares[i.value].1.(awarded := true))];
        }
      case FarePayment(amount) =>
        account := account + amount;
      case FareCancellation(o) =>
        CancelSpec(fares, o);
        var i := FindAtOrigin(fares, o);
        if i.Some? {
          fares := Remove(fares, fares[i.value].0);
        }
      case Unrecognised =>
    }

    /**
     * The drop-off step of `clockTick` (taxi.py:184-193) on the taxi's own
     * passenger and path: `DroppedOff` says how they move.
     */
    method DropOff(w: TickWorld, fuel: nat) returns (outcome: TickOutcome)
      requires path.Some?
      modifies this`passenger, this`path
      ensures outcome.Completed? ==> DroppedOff(Cab(), w, fuel, old(passenger), old(path).value, passenger, path)
      ensures outcome.Crashed? ==> path == old(path)
      ensures old(path) == Some([]) && old(passenger).Some? && loc.None? ==> outcome == Crashed(NoLocation)
      ensures old(path).value != [] ==> outcome.Completed? && passenger == old(passenger) && path == old(path)
    {
      outcome, passenger, path := DropOffStep(Cab(), w, fuel, passenger, path.value);
    }

    /**
     * The fare loop of `clockTick` and the deletions after it (taxi.py:198-231),
     * run from the passenger and path the drop-off left: `Swept` says what
     * happens to each record, `Carried` how the passenger and path evolve,
     * `Decided` how the bid flags are set.
     */
    method SweepAvailable(w: TickWorld, fuel: nat)
      returns (outcome: TickOutcome, bids: seq<Coord>, ghost swept: Fares, ghost took: seq<bool>, ghost purged: seq<FareKey>,
               ghost pass: seq<Option<Passenger>>, ghost paths: seq<Option<seq<Coord>>>)
      requires Valid()
      modifies this`passenger, this`path, this`fares
      ensures Valid()
      ensures outcome.Completed? ==> Swept(old(fares), swept, took, purged, bids, w.now, maxFareWait, CurrentLocation(loc)) && fares == RemoveAll(swept, purged)
      ensures outcome.Completed? ==> Carried(Cab(), w, fuel, old(fares), took, pass, paths) && Decided(Cab(), w, old(fares), swept, took, pass)
      ensures outcome.Completed? ==> pass[0] == old(passenger) && paths[0] == old(path)
      ensures outcome.Completed? ==> passenger == pass[|old(fares)|] && path == paths[|old(fares)|]
      ensures outcome.Crashed? ==> fares == swept && SweptUpTo(old(fares), swept, took, purged, bids, w.now, maxFareWait, CurrentLocation(loc), |took|)
      ensures old(path).None? && old(fares) != [] ==> outcome == Crashed(PathIsNone)
      ensures old(path).Some? && old(path).value != [] ==> outcome.Completed? && passenger == old(passenger) && path == old(path)
    {
      var after, marked;
      var c := Cab();
      outcome, after, passenger, path, marked, bids, took, pass, paths := SweepFares(c, w, fuel, fares, passenger, path);
      swept, purged := after, marked;
      if outcome.Crashed? {
        fares := after;
        return;
      }
      SweptKeepsRecords(fares, after, took, marked, bids, w.now, maxFareWait, CurrentLocation(loc));
      RemoveAllSpec(after, marked);
      fares := RemoveAll(after, marked);
      assert c == Cab();
    }

    /**
     * `clockTick` (taxi.py:177-240) with the world's answers in `w` and a
     * planner step budget `fuel`. A taxi with no money and no passenger goes
     * off duty; a taxi at the end of its path drops off or replans
     * (`DroppedOff`); every known fare is then visited (`Swept`, `Carried` and
     * `Decided` say how), the marked ones are
     * deleted and the account is charged one unit. `bids` are the origins
     * sent to `transmitFareBid`. A crash deletes nothing: the flags and bids
     * of the fares visited before it stay.
     */
    method ClockTick(w: TickWorld, fuel: nat)
      returns (outcome: TickOutcome, bids: seq<Coord>, ghost swept: Fares, ghost took: seq<bool>, ghost purged: seq<FareKey>,
               ghost pass: seq<Option<Passenger>>, ghost paths: seq<Option<seq<Coord>>>)
      requires hasWorld && Valid()
      modifies this`onDuty, this`offDutyTime, this`passenger, this`path, this`fares, this`account
      ensures Valid()
      ensures old(account) <= 0.0 && old(passenger).None? ==> !onDuty && offDutyTime == w.now
      ensures !(old(account) <= 0.0 && old(passenger).None?) ==> onDuty == old(onDuty) && offDutyTime == old(offDutyTime)
      ensures outcome.Completed? ==> account == old(account) - 1.0
      ensures outcome.Crashed? ==> account == old(account)
      ensures outcome.Crashed? ==> fares == swept && SweptUpTo(old(fares), swept, took, purged, bids, w.now, maxFareWait, CurrentLocation(loc), |took|)
      ensures old(path).None? ==> outcome == Crashed(PathIsNone) && fares == old(fares)
      ensures old(path) == Some([]) && old(passenger).Some? && loc.None? ==> outcome == Crashed(NoLocation)
      ensures old(path).Some? && old(path).value != [] ==> outcome.Completed? && passenger == old(passenger) && path == old(path)
      ensures outcome.Completed? ==> Swept(old(fares), swept, took, purged, bids, w.now, maxFareWait, CurrentLocation(loc)) && fares == RemoveAll(swept, purged)
      ensures outcome.Completed? ==> Carried(Cab(), w, fuel, old(fares), took, pass, paths) && Decided(Cab(), w, old(fares), swept, took, pass)
      ensures outcome.Completed? ==> old(path).Some? && DroppedOff(Cab(), w, fuel, old(passenger), old(path).value, pass[0], paths[0])
      ensures outcome.Completed? ==> passenger == pass[|old(fares)|] && path == paths[|old(fares)|]
    {
      bids, swept, took, purged, pass, paths := [], fares, [], [], [], [];
      if account <= 0.0 && passenger.None? {
        onDuty := false;
        offDutyTime := w.now;
      }
      SweptNone(fares, w.now, maxFareWait, CurrentLocation(loc));
      if path.None? {
        return Crashed(PathIsNone), bids, swept, took, purged, pass, paths;
      }
      var c := Cab();
      outcome := DropOff(w, fuel);
      if outcome.Crashed? {
        return;
      }
      outcome, bids, swept, took, purged, pass, paths := SweepAvailable(w, fuel);
      if outcome.Completed? {
        account := account - 1.0;
      }
      assert c == Cab();
    }
  }

  /** The `FARE_ALLOC` loop (taxi.py:315-319): the position of the first record matching origin and destination. */
  method FindAllocMatch(fs: Fares, o: Coord, d: Coord) returns (r: Option<nat>)
    ensures r == FirstAllocMatch(fs, o, d, 0)
  {
    var i := 0;
    while i < |fs|
      invariant i <= |fs|
      invariant FirstAllocMatch(fs, o, d, 0) == FirstAllocMatch(fs, o, d, i)
    {
      if AllocMatch(fs[i], o, d) {
        return Some(i);
      }
      i := i + 1;
    }
    return None;
  }

  /** The `FARE_CANCEL` loop (taxi.py:326-329): the position of the first record at the origin. */
  method FindAtOrigin(fs: Fares, o: Coord) returns (r: Option<nat>)
    ensures r == FirstAtOrigin(fs, o, 0)
  {
    var i := 0;
    while i < |fs|
      invariant i <= |fs|
      invariant FirstAtOrigin(fs, o, 0) == FirstAtOrigin(fs, o, i)
    {
      if fs[i].0.origin == o {
        return Some(i);
      }
      i := i + 1;
    }
    return None;
  }

  /**
   * `Taxi(world, ...)` (taxi.py:57-108): the map is `service_area` or, failing
   * that, the world's export, and the start is `start_point` or, failing that,
   * the first map node on an edge column. `None` stands for the exceptions:
   * no world to ask, or no node to enter by.
   */
  method Enrol(world: Option<HomeWorld>, dailyLoss: real, maxFareWait: int, onDutyTime: int, offDutyTime: int,
               serviceArea: Option<RoadMap>, startPoint: Option<Coord>) returns (t: Option<Taxi>)
    ensures world.None? && (serviceArea.None? || startPoint.None?) ==> t.None?
    ensures world.Some? && startPoint.None? ==>
      var m := if serviceArea.Some? then serviceArea.value else world.value.exported;
      (t.None? <==> forall x, y :: EdgeColumn(x, world.value.xSize) && 0 <= y < Height(world.value.ySize) ==> (x, y) !in m)
    ensures startPoint.Some? && (world.Some? || serviceArea.Some?) ==> t.Some? && t.value.onDutyPos == startPoint.value
    ensures t.Some? ==> fresh(t.value) && t.value.Valid() && t.value.hasWorld == world.Some?
    ensures t.Some? ==> t.value.serviceMap == if serviceArea.Some? then serviceArea.value else world.value.exported
    ensures t.Some? && startPoint.None? ==>
      var p := t.value.onDutyPos;
      && p in t.value.serviceMap && EdgeColumn(p.0, world.value.xSize) && 0 <= p.1 < Height(world.value.ySize)
      && forall x, y :: EdgeColumn(x, world.value.xSize) && 0 <= y < Height(world.value.ySize) && ScannedBefore((x, y), p) ==> (x, y) !in t.value.serviceMap
    ensures t.Some? ==> !t.value.onDuty && t.value.fares == [] && t.value.path == Some([]) && t.value.passenger.None?
  {
    if serviceArea.None? && world.None? {
      return None;
    }
    var m := if serviceArea.Some? then serviceArea.value else world.value.exported;
    var start: Coord;
    if startPoint.Some? {
      start := startPoint.value;
    } else {
      if world.None? {
        return None;
      }
      var found := EntryPoint(m, world.value.xSize, world.value.ySize);
      if found.None? {
        return None;
      }
      start := found.value;
    }
    var taxi := new Taxi(world.Some?, dailyLoss, maxFareWait, onDutyTime, offDutyTime, m, start);
    t := Some(taxi);
  }
}
