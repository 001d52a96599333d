/**
 * The per-fare loop of `Taxi.clockTick` (taxi.py:197-231): for each known
 * fare, in insertion order, either head for it (it is allocated to this taxi
 * and the taxi is free), or mark it for removal as stale, or decide once
 * whether to bid on it; then delete the marked fares.
 */
module TaxiTicks {
  import opened Common
  import opened OrderedMaps
  import opened RoadMaps
  import opened TaxiFares
  import opened Bidding
  import opened Planner

  /** The fare a taxi carries; only its destination matters here. */
  datatype Passenger = Passenger(destination: Coord)

  /**
   * What one `clockTick` asks of the world: the clock, travel times and node
   * traffic (for bidding), the planner's distance estimate, whether
   * `dropoffFare` succeeds, and what `pickupFare` at the taxi's node hands over.
   */
  datatype TickWorld = TickWorld(
    now: int,
    travelTime: (Coord, Coord) -> Duration,
    traffic: Coord -> nat,
    heuristic: Heuristic,
    dropoffSucceeds: bool,
    pickup: Option<Passenger>)

  /**
   * Why `clockTick` stops part-way: `len(None)` on a path the planner left as
   * `None`; `None.index` on a taxi that is not on the map; the planner's
   * `KeyError`; or the planner's step budget running out (the model's own).
   */
  datatype Crash = PathIsNone | NoLocation | PlannerKeyError(at: Coord) | PlanBudgetSpent

  datatype TickOutcome = Completed | Crashed(why: Crash)

  /** The taxi state the loop reads but does not change. */
  datatype Cabbie = Cabbie(
    serviceMap: RoadMap,
    loc: Option<Coord>,
    income: NonNegReal,
    lastFareCompletionTime: int,
    maxFareWait: int)

  /** `currentLocation`: the taxi's node, or `(-1, -1)` off the map (taxi.py:113-116). */
  function CurrentLocation(loc: Option<Coord>): Coord {
    if loc.Some? then loc.value else (-1, -1)
  }

  /** A fare that has waited more than `maxFareWait` since its advice arrived (taxi.py:220). */
  predicate Stale(now: int, k: FareKey, maxFareWait: int) {
    now - k.time > maxFareWait
  }

  /** The origins sent to `transmitFareBid`: entries among the first `n` whose flag went from 0 to 1, in order. */
  function Transmitted(before: Fares, after: Fares, n: nat): seq<Coord>
    requires n <= |before| && |after| == |before|
    decreases n
  {
    if n == 0 then [] else
      Transmitted(before, after, n - 1)
      + (if before[n - 1].1.bid == Undecided && after[n - 1].1.bid == Bid then [before[n - 1].0.origin] else [])
  }

  lemma {:induction false} TransmittedPrefix(before: Fares, after: Fares, after': Fares, n: nat)
    requires n <= |before| && |after| == |before| && |after'| == |before|
    requires forall j :: 0 <= j < n ==> after[j] == after'[j]
    ensures Transmitted(before, after, n) == Transmitted(before, after', n)
    decreases n
  {
    if n > 0 {
      TransmittedPrefix(before, after, after', n - 1);
    }
  }

  /** Why the fare with key `k` is marked for removal: pursued while the taxi stands at its origin, whether or not the pickup succeeds (taxi.py:215), or stale outside the allocated-fare branch (taxi.py:220-221). */
  predicate Purged(took: bool, k: FareKey, now: int, maxFareWait: int, here: Coord) {
    (took && k.origin == here) || (!took && Stale(now, k, maxFareWait))
  }

  /**
   * The loop has visited the first `n` of the fares `before`, leaving them as
   * `after`; `took[j]` says fare `j` went down the allocated-fare branch,
   * and `here` is the taxi's node. Only bid flags change, only from 0 and
   * only outside that branch and for fresh fares; a fare of that branch
   * whose origin is `here` (pursued there, picked up or not) and a stale fare outside that
   * branch are marked for removal, and nothing else is; the bids sent are
   * the flags moved to 1.
   */
  ghost predicate SweptUpTo(before: Fares, after: Fares, took: seq<bool>, purged: seq<FareKey>, bids: seq<Coord>, now: int, maxFareWait: int, here: Coord, n: nat) {
    && n <= |before| && |after| == |before| && |took| == n
    && (forall j :: n <= j < |before| ==> after[j] == before[j])
    && (forall j :: 0 <= j < |before| ==> after[j].0 == before[j].0 && after[j].1 == before[j].1.(bid := after[j].1.bid))
    && (forall j :: 0 <= j < n && after[j].1.bid != before[j].1.bid ==>
          before[j].1.bid == Undecided && !took[j] && !Stale(now, before[j].0, maxFareWait))
    && (forall j :: 0 <= j < n && took[j] ==> before[j].1.awarded)
    && MarkedUpTo(before, took, purged, now, maxFareWait, here, n)
    && bids == Transmitted(before, after, n)
  }

  /**
   * The removal marks over the first `n` fares: a fare pursued while the taxi
   * stands at its origin, whether or not the pickup succeeds, and a stale
   * fare outside the allocated-fare branch are marked, and nothing else is.
   */
  ghost predicate MarkedUpTo(before: Fares, took: seq<bool>, purged: seq<FareKey>, now: int, maxFareWait: int, here: Coord, n: nat) {
    && n <= |before| && |took| == n
    && (forall j :: 0 <= j < n && took[j] && before[j].0.origin == here ==> before[j].0 in purged)
    && (forall j :: 0 <= j < n && !took[j] && Stale(now, before[j].0, maxFareWait) ==> before[j].0 in purged)
    && (forall k :: k in purged ==> exists j :: 0 <= j < n && before[j].0 == k && Purged(took[j], k, now, maxFareWait, here))
  }

  /** Marking fare `n` as its step says extends the removal marks by that fare. */
  lemma MarkedStep(before: Fares, took: seq<bool>, purged: seq<FareKey>, now: int, maxFareWait: int, here: Coord, n: nat,
                   t: bool, purge: seq<FareKey>)
    requires MarkedUpTo(before, took, purged, now, maxFareWait, here, n) && n < |before|
    requires Purged(t, before[n].0, now, maxFareWait, here) ==> purge == [before[n].0]
    requires purge == [] || (purge == [before[n].0] && Purged(t, before[n].0, now, maxFareWait, here))
    ensures MarkedUpTo(before, took + [t], purged + purge, now, maxFareWait, here, n + 1)
  {
    var took' := took + [t];
    assert forall j :: 0 <= j < n ==> took'[j] == took[j];
    forall k | k in purged + purge
      ensures exists j :: 0 <= j < n + 1 && before[j].0 == k && Purged(took'[j], k, now, maxFareWait, here)
    {
      if k in purged {
        var j :| 0 <= j < n && before[j].0 == k && Purged(took[j], k, now, maxFareWait, here);
        assert took'[j] == took[j];
      } else {
        assert k == before[n].0 && took'[n] == t;
      }
    }
  }

  /** Before the loop visits any fare, nothing has changed, been marked or been sent. */
  lemma SweptNone(before: Fares, now: int, maxFareWait: int, here: Coord)
    ensures SweptUpTo(before, before, [], [], [], now, maxFareWait, here, 0)
  {
  }

  /** The loop's promise over all the fares. */
  ghost predicate Swept(before: Fares, after: Fares, took: seq<bool>, purged: seq<FareKey>, bids: seq<Coord>, now: int, maxFareWait: int, here: Coord) {
    SweptUpTo(before, after, took, purged, bids, now, maxFareWait, here, |before|)
  }

  /** The flag rule of the loop: a flag set to 1 or -1 never returns to 0 or changes again. */
  lemma FlagsSettle(before: Fares, after: Fares, took: seq<bool>, purged: seq<FareKey>, bids: seq<Coord>, now: int, maxFareWait: int, here: Coord, j: nat)
    requires Swept(before, after, took, purged, bids, now, maxFareWait, here)
    requires j < |before| && before[j].1.bid != Undecided
    ensures after[j].1.bid == before[j].1.bid
  {
  }

  /** By key: the sweep keeps every key and every record, bar the bid flag. */
  lemma SweptKeepsRecords(before: Fares, after: Fares, took: seq<bool>, purged: seq<FareKey>, bids: seq<Coord>, now: int, maxFareWait: int, here: Coord)
    requires Swept(before, after, took, purged, bids, now, maxFareWait, here)
    ensures Keys(after) == Keys(before)
    ensures DistinctKeys(before) ==> DistinctKeys(after)
    ensures forall k :: Get(after, k).Some? <==> Get(before, k).Some?
    ensures forall k :: Get(after, k).Some? ==> Get(after, k).value == Get(before, k).value.(bid := Get(after, k).value.bid)
  {
    assert Keys(after) == Keys(before);
  }

  /** Each entry is bid on at most once: a bid is sent for an entry exactly when its flag went from 0 to 1. */
  lemma {:induction false} BidsOncePerEntry(before: Fares, after: Fares, n: nat)
    requires n <= |before| && |after| == |before|
    ensures |Transmitted(before, after, n)| == |set j | 0 <= j < n && before[j].1.bid == Undecided && after[j].1.bid == Bid|
    decreases n
  {
    if n > 0 {
      BidsOncePerEntry(before, after, n - 1);
      var s := set j | 0 <= j < n - 1 && before[j].1.bid == Undecided && after[j].1.bid == Bid;
      var s' := set j | 0 <= j < n && before[j].1.bid == Undecided && after[j].1.bid == Bid;
      if before[n - 1].1.bid == Undecided && after[n - 1].1.bid == Bid {
        assert s' == s + {n - 1};
      } else {
        assert s' == s;
      }
    }
  }

  /** What `clockTick` stores in `_path` from a planner result that is not a crash. */
  function StoredPath(r: PlanResult): Option<seq<Coord>> {
    match r
    case Route(p) => Some(p)
    case _ => None
  }

  /**
   * `self._path = self._planPath(...)` as `clockTick` does it: the planner's
   * path or `None` is stored; when the planner raises, the assignment never
   * happens and the path stays `current`.
   */
  method Replan(c: Cabbie, h: Heuristic, from: Coord, to: Coord, fuel: nat, current: Option<seq<Coord>>)
    returns (path: Option<seq<Coord>>, crash: Option<Crash>)
    ensures crash.None? <==> Plan(c.serviceMap, h, from, to, fuel).Route? || Plan(c.serviceMap, h, from, to, fuel).NoRoute?
    ensures crash.None? ==> path == StoredPath(Plan(c.serviceMap, h, from, to, fuel))
    ensures crash.Some? ==> path == current
    ensures crash.Some? ==> crash.value == match Plan(c.serviceMap, h, from, to, fuel) case MissingNode(at) => PlannerKeyError(at) case _ => PlanBudgetSpent
  {
    var r := PlanPath(c.serviceMap, h, from, to, fuel);
    match r
    case Route(p) => path, crash := Some(p), None;
    case NoRoute => path, crash := None, None;
    case MissingNode(at) => path, crash := current, Some(PlannerKeyError(at));
    case Exhausted => path, crash := current, Some(PlanBudgetSpent);
  }

  /**
   * How the drop-off step without a crash moves the passenger and path from
   * `(p, path)` to `(p', path')` (taxi.py:184-193): only at the end of the
   * path with a passenger aboard does anything happen; a successful drop-off
   * frees the taxi, a failed one away from the destination plans a path there.
   */
  ghost predicate DroppedOff(c: Cabbie, w: TickWorld, fuel: nat, p: Option<Passenger>, path: seq<Coord>,
                             p': Option<Passenger>, path': Option<seq<Coord>>) {
    if p.None? || path != [] then p' == p && path' == Some(path)
    else
      && c.loc.Some?
      && if w.dropoffSucceeds then p' == None && path' == Some([])
         else if p.value.destination == c.loc.value then p' == p && path' == Some([])
         else p' == p && path' == StoredPath(Plan(c.serviceMap, w.heuristic, c.loc.value, p.value.destination, fuel))
  }

  /**
   * The drop-off step of `clockTick` (taxi.py:184-193): at the end of its
   * path a taxi with a passenger drops them off, or, when the drop-off fails
   * away from the passenger's destination, plans a path there.
   */
  method DropOffStep(c: Cabbie, w: TickWorld, fuel: nat, passenger: Option<Passenger>, path: seq<Coord>)
    returns (outcome: TickOutcome, passenger': Option<Passenger>, path': Option<seq<Coord>>)
    ensures passenger.None? || path != [] ==> outcome.Completed? && passenger' == passenger && path' == Some(path)
    ensures passenger.Some? && path == [] && c.loc.None? ==> outcome == Crashed(NoLocation)
    ensures passenger.Some? && path == [] && c.loc.Some? && w.dropoffSucceeds ==>
      outcome.Completed? && passenger' == None && path' == Some([])
    ensures passenger.Some? && path == [] && c.loc.Some? && !w.dropoffSucceeds && passenger.value.destination == c.loc.value ==>
      outcome.Completed? && passenger' == passenger && path' == Some([])
    ensures passenger.Some? && path == [] && c.loc.Some? && !w.dropoffSucceeds && passenger.value.destination != c.loc.value ==>
      var r := Plan(c.serviceMap, w.heuristic, c.loc.value, passenger.value.destination, fuel);
      && passenger' == passenger
      && (outcome.Completed? <==> r.Route? || r.NoRoute?)
      && (outcome.Completed? ==> path' == StoredPath(r))
    ensures outcome.Completed? ==> DroppedOff(c, w, fuel, passenger, path, passenger', path')
    ensures outcome.Crashed? ==> path' == Some(path)
  {
    outcome, passenger', path' := Completed, passenger, Some(path);
    if path == [] && passenger.Some? {
      if c.loc.None? {
        return Crashed(NoLocation), passenger', path';
      }
      if w.dropoffSucceeds {
        passenger' := None;
      } else if passenger.value.destination != c.loc.value {
        var crash;
        path', crash := Replan(c, w.heuristic, c.loc.value, passenger.value.destination, fuel, path');
        if crash.Some? {
          outcome := Crashed(crash.value);
        }
      }
    }
  }

  /**
   * One pass of the loop body for the entry `(k, info)`: the flag it leaves,
   * whether it took the allocated-fare branch, what it marks for removal
   * and the origin it bids on, if any.
   */
  predicate FareStep(k: FareKey, info: FareInfo, bid: BidState, took: bool, purge: seq<FareKey>, sent: seq<Coord>, now: int, maxFareWait: int, here: Coord) {
    && (bid != info.bid ==> info.bid == Undecided && !took && !Stale(now, k, maxFareWait))
    && (took ==> info.awarded)
    && (Purged(took, k, now, maxFareWait, here) ==> purge == [k])
    && (purge == [] || (purge == [k] && Purged(took, k, now, maxFareWait, here)))
    && sent == if info.bid == Undecided && bid == Bid then [k.origin] else []
  }

  /** Visiting fare `n` extends the promise from the first `n` fares to the first `n + 1`. */
  lemma SweptStep(before: Fares, after: Fares, took: seq<bool>, purged: seq<FareKey>, bids: seq<Coord>, now: int, maxFareWait: int,
                  here: Coord, n: nat, bid: BidState, t: bool, purge: seq<FareKey>, sent: seq<Coord>)
    requires SweptUpTo(before, after, took, purged, bids, now, maxFareWait, here, n) && n < |before|
    requires FareStep(before[n].0, before[n].1, bid, t, purge, sent, now, maxFareWait, here)
    ensures SweptUpTo(before, after[n := (before[n].0, before[n].1.(bid := bid))], took + [t], purged + purge, bids + sent, now, maxFareWait, here, n + 1)
  {
    var after' := after[n := (before[n].0, before[n].1.(bid := bid))];
    var took' := took + [t];
    TransmittedPrefix(before, after, after', n);
    assert Transmitted(before, after', n + 1) == bids + sent;
    assert forall j :: 0 <= j < n ==> took'[j] == took[j];
    MarkedStep(before, took, purged, now, maxFareWait, here, n, t, purge);
  }

  /** The first branch of the loop body (taxi.py:207): the fare is allocated here and the taxi is free and stopped. */
  predicate Pursues(info: FareInfo, passenger: Option<Passenger>, path: seq<Coord>) {
    path == [] && info.awarded && passenger.None?
  }

  /** What `_bidOnFare` reads from the taxi during the loop. */
  function BidderOf(c: Cabbie, passenger: Option<Passenger>, anyAllocated: bool): Bidder {
    Bidder(passenger.Some?, anyAllocated, CurrentLocation(c.loc), c.income, c.lastFareCompletionTime, c.maxFareWait)
  }

  /**
   * How visiting the fare `(k, info)` without a crash moves the passenger and
   * path from `(p, path)` to `(p', path')` (taxi.py:207-218): at a pursued fare's
   * origin the passenger becomes the world's pickup answer, and the path then
   * leads to the new passenger's destination, or stays as it was when the
   * pickup fails; away from the origin the path leads to it; any other fare
   * leaves both alone.
   */
  ghost predicate Moves(c: Cabbie, w: TickWorld, fuel: nat, k: FareKey, info: FareInfo,
                        p: Option<Passenger>, path: seq<Coord>, p': Option<Passenger>, path': Option<seq<Coord>>) {
    if Pursues(info, p, path) then
      && c.loc.Some?
      && (if c.loc.value == k.origin then
            && p' == w.pickup
            && path' == if w.pickup.None? then Some(path) else StoredPath(Plan(c.serviceMap, w.heuristic, c.loc.value, w.pickup.value.destination, fuel))
          else p' == p && path' == StoredPath(Plan(c.serviceMap, w.heuristic, c.loc.value, k.origin, fuel)))
    else p' == p && path' == Some(path)
  }

  /**
   * Over the first `n` fares of `before`: `pass[j]` and `paths[j]` are the
   * passenger and path the loop had when it reached fare `j`, fare `j` went
   * down the allocated-fare branch exactly when that branch's test held then,
   * and the visit moved them to `pass[j + 1]` and `paths[j + 1]`.
   */
  ghost predicate CarriedUpTo(c: Cabbie, w: TickWorld, fuel: nat, before: Fares, took: seq<bool>,
                              pass: seq<Option<Passenger>>, paths: seq<Option<seq<Coord>>>, n: nat) {
    && n <= |before| && |took| == n && |pass| == n + 1 && |paths| == n + 1
    && forall j :: 0 <= j < n ==>
         && paths[j].Some?
         && took[j] == Pursues(before[j].1, pass[j], paths[j].value)
         && Moves(c, w, fuel, before[j].0, before[j].1, pass[j], paths[j].value, pass[j + 1], paths[j + 1])
  }

  /** The passenger and path carried through every fare. */
  ghost predicate Carried(c: Cabbie, w: TickWorld, fuel: nat, before: Fares, took: seq<bool>,
                          pass: seq<Option<Passenger>>, paths: seq<Option<seq<Coord>>>) {
    CarriedUpTo(c, w, fuel, before, took, pass, paths, |before|)
  }

  /** Visiting fare `n` extends the carried passenger and path by one step. */
  lemma CarriedStep(c: Cabbie, w: TickWorld, fuel: nat, before: Fares, took: seq<bool>,
                    pass: seq<Option<Passenger>>, paths: seq<Option<seq<Coord>>>, n: nat,
                    t: bool, p': Option<Passenger>, path': Option<seq<Coord>>)
    requires CarriedUpTo(c, w, fuel, before, took, pass, paths, n) && n < |before| && paths[n].Some?
    requires t == Pursues(before[n].1, pass[n], paths[n].value)
    requires Moves(c, w, fuel, before[n].0, before[n].1, pass[n], paths[n].value, p', path')
    ensures CarriedUpTo(c, w, fuel, before, took + [t], pass + [p'], paths + [path'], n + 1)
  {
    var took', pass', paths' := took + [t], pass + [p'], paths + [path'];
    forall j | 0 <= j < n + 1
      ensures && paths'[j].Some?
              && took'[j] == Pursues(before[j].1, pass'[j], paths'[j].value)
              && Moves(c, w, fuel, before[j].0, before[j].1, pass'[j], paths'[j].value, pass'[j + 1], paths'[j + 1])
    {
      assert pass'[j] == pass[j] && paths'[j] == paths[j];
      if j < n {
        assert took'[j] == took[j] && pass'[j + 1] == pass[j + 1] && paths'[j + 1] == paths[j + 1];
      }
    }
  }

  /**
   * Once a pickup succeeds, the taxi carries a passenger for the
   * rest of the loop, so no later fare is pursued: at most one pickup per tick.
   */
  lemma {:induction false} OnePickupPerTick(c: Cabbie, w: TickWorld, fuel: nat, before: Fares, took: seq<bool>,
                                            pass: seq<Option<Passenger>>, paths: seq<Option<seq<Coord>>>, j: nat, i: nat)
    requires Carried(c, w, fuel, before, took, pass, paths)
    requires j < i < |before| && took[j] && c.loc == Some(before[j].0.origin) && w.pickup.Some?
    ensures pass[i].Some? && !took[i]
    decreases i - j
  {
    if i > j + 1 {
      OnePickupPerTick(c, w, fuel, before, took, pass, paths, j, i - 1);
    }
  }

  /** `_bidOnFare` for fare `(k, info)` with passenger `p` aboard, `anyAllocated` being the busy test. */
  function WouldBid(c: Cabbie, w: TickWorld, k: FareKey, info: FareInfo, p: Option<Passenger>, anyAllocated: bool): bool {
    BidOnFare(BidderOf(c, p, anyAllocated), BidWorld(w.now, w.travelTime, w.traffic), k.time, k.origin, info.destination, info.price)
  }

  /**
   * Over the first `n` fares: every fresh, undecided fare outside the
   * allocated-fare branch is decided, and becomes Bid exactly when
   * `_bidOnFare` held with the passenger aboard on reaching it (taxi.py:222-227).
   */
  ghost predicate DecidedUpTo(c: Cabbie, w: TickWorld, before: Fares, after: Fares, took: seq<bool>,
                              pass: seq<Option<Passenger>>, n: nat) {
    && n <= |before| && |after| == |before| && |took| == n && |pass| == n + 1
    && forall j :: 0 <= j < n && !took[j] && !Stale(w.now, before[j].0, c.maxFareWait) && before[j].1.bid == Undecided ==>
         && after[j].1.bid != Undecided
         && (after[j].1.bid == Bid <==> WouldBid(c, w, before[j].0, before[j].1, pass[j], AnyAllocated(before)))
  }

  /** The bid rule over every fare. */
  ghost predicate Decided(c: Cabbie, w: TickWorld, before: Fares, after: Fares, took: seq<bool>, pass: seq<Option<Passenger>>) {
    DecidedUpTo(c, w, before, after, took, pass, |before|)
  }

  /** Only bid flags change in the loop, so the busy test of `_bidOnFare` gives the same answer throughout. */
  lemma AwardsKept(before: Fares, after: Fares)
    requires |after| == |before|
    requires forall j :: 0 <= j < |before| ==> after[j].1 == before[j].1.(bid := after[j].1.bid)
    ensures AnyAllocated(after) == AnyAllocated(before)
  {
    if AnyAllocated(before) {
      var i :| 0 <= i < |before| && before[i].1.awarded;
      assert after[i].1.awarded;
    }
    if AnyAllocated(after) {
      var i :| 0 <= i < |after| && after[i].1.awarded;
      assert before[i].1.awarded;
    }
  }

  /** Deciding fare `n` extends the bid rule by that fare. */
  lemma DecidedStep(c: Cabbie, w: TickWorld, before: Fares, after: Fares, took: seq<bool>,
                    pass: seq<Option<Passenger>>, n: nat, bid: BidState, t: bool, p': Option<Passenger>)
    requires DecidedUpTo(c, w, before, after, took, pass, n) && n < |before|
    requires !t && !Stale(w.now, before[n].0, c.maxFareWait) && before[n].1.bid == Undecided ==>
      bid != Undecided && (bid == Bid <==> WouldBid(c, w, before[n].0, before[n].1, pass[n], AnyAllocated(before)))
    ensures DecidedUpTo(c, w, before, after[n := (before[n].0, before[n].1.(bid := bid))], took + [t], pass + [p'], n + 1)
  {
    var after', took', pass' := after[n := (before[n].0, before[n].1.(bid := bid))], took + [t], pass + [p'];
    forall j | 0 <= j < n + 1 && !took'[j] && !Stale(w.now, before[j].0, c.maxFareWait) && before[j].1.bid == Undecided
      ensures && after'[j].1.bid != Undecided
              && (after'[j].1.bid == Bid <==> WouldBid(c, w, before[j].0, before[j].1, pass'[j], AnyAllocated(before)))
    {
      assert pass'[j] == pass[j];
      if j < n {
        assert took'[j] == took[j] && after'[j] == after[j];
      }
    }
  }

  /** The body of the fare loop (taxi.py:203-229) for the entry `(k, info)`. */
  method VisitFare(c: Cabbie, w: TickWorld, fuel: nat, k: FareKey, info: FareInfo, anyAllocated: bool,
                   passenger: Option<Passenger>, path: seq<Coord>)
    returns (outcome: TickOutcome, bid: BidState, passenger': Option<Passenger>, path': Option<seq<Coord>>,
             purge: seq<FareKey>, sent: seq<Coord>, ghost took: bool)
    ensures outcome.Completed? ==> FareStep(k, info, bid, took, purge, sent, w.now, c.maxFareWait, CurrentLocation(c.loc))
    ensures outcome.Completed? ==> Moves(c, w, fuel, k, info, passenger, path, passenger', path')
    ensures outcome.Crashed? ==> path' == Some(path)
    ensures path != [] ==> outcome.Completed? && passenger' == passenger && path' == Some(path) && !took
    ensures took == Pursues(info, passenger, path)
    // pursuing an allocated fare: a crash off the map, a pickup at the origin, otherwise a route to it
    ensures Pursues(info, passenger, path) ==> bid == info.bid && sent == []
    ensures Pursues(info, passenger, path) && c.loc.None? ==> outcome == Crashed(NoLocation)
    ensures Pursues(info, passenger, path) && c.loc.Some? && c.loc.value == k.origin ==>
      && purge == [k] && passenger' == w.pickup
      && (w.pickup.None? ==> outcome.Completed? && path' == Some(path))
      && (w.pickup.Some? && outcome.Completed? ==>
            path' == StoredPath(Plan(c.serviceMap, w.heuristic, c.loc.value, w.pickup.value.destination, fuel)))
    ensures Pursues(info, passenger, path) && c.loc.Some? && c.loc.value != k.origin ==>
      && purge == [] && passenger' == passenger
      && (outcome.Completed? <==> Plan(c.serviceMap, w.heuristic, c.loc.value, k.origin, fuel).Route? || Plan(c.serviceMap, w.heuristic, c.loc.value, k.origin, fuel).NoRoute?)
      && (outcome.Completed? ==> path' == StoredPath(Plan(c.serviceMap, w.heuristic, c.loc.value, k.origin, fuel)))
    // otherwise: purge a stale fare, or decide an undecided one by `_bidOnFare`
    ensures !Pursues(info, passenger, path) ==> outcome.Completed? && passenger' == passenger && path' == Some(path)
    ensures !Pursues(info, passenger, path) && Stale(w.now, k, c.maxFareWait) ==> purge == [k] && bid == info.bid && sent == []
    ensures !Pursues(info, passenger, path) && !Stale(w.now, k, c.maxFareWait) ==> purge == []
    ensures !Pursues(info, passenger, path) && !Stale(w.now, k, c.maxFareWait) && info.bid == Undecided ==>
      && (bid == Bid <==> WouldBid(c, w, k, info, passenger, anyAllocated))
      && bid != Undecided
      && sent == if bid == Bid then [k.origin] else []
    ensures !Pursues(info, passenger, path) && !Stale(w.now, k, c.maxFareWait) && info.bid != Undecided ==> bid == info.bid && sent == []
  {
    outcome, bid, passenger', path', purge, sent, took := Completed, info.bid, passenger, Some(path), [], [], false;
    if Pursues(info, passenger, path) {
      took := true;
      if c.loc.None? {
        return Crashed(NoLocation), bid, passenger', path', purge, sent, took;
      }
      var crash: Option<Crash> := None;
      if c.loc.value == k.origin {
        passenger' := w.pickup;
        if passenger'.Some? {
          path', crash := Replan(c, w.heuristic, c.loc.value, passenger'.value.destination, fuel, path');
        }
        purge := [k];
      } else {
        path', crash := Replan(c, w.heuristic, c.loc.value, k.origin, fuel, path');
      }
      if crash.Some? {
        outcome := Crashed(crash.value);
      }
    } else if Stale(w.now, k, c.maxFareWait) {
      purge := [k];
    } else if info.bid == Undecided {
      if WouldBid(c, w, k, info, passenger, anyAllocated) {
        bid, sent := Bid, [k.origin];
      } else {
        bid := Declined;
      }
    }
  }

  /**
   * One pass of the fare loop on fare `i` (taxi.py:203-229), with the
   * passenger and path the loop has reached it with: the fare is visited and,
   * unless that crashes, its new flag, removal mark and bid are recorded and
   * the loop's three promises extend to the first `i + 1` fares.
   */
  method VisitNext(c: Cabbie, w: TickWorld, fuel: nat, fares: Fares, i: nat, fares': Fares,
                   passenger: Option<Passenger>, path: seq<Coord>, purged: seq<FareKey>, bids: seq<Coord>,
                   ghost took: seq<bool>, ghost pass: seq<Option<Passenger>>, ghost paths: seq<Option<seq<Coord>>>)
    returns (outcome: TickOutcome, fares'': Fares, passenger': Option<Passenger>, path': Option<seq<Coord>>,
             purged': seq<FareKey>, bids': seq<Coord>,
             ghost took': seq<bool>, ghost pass': seq<Option<Passenger>>, ghost paths': seq<Option<seq<Coord>>>)
    requires i < |fares|
    requires SweptUpTo(fares, fares', took, purged, bids, w.now, c.maxFareWait, CurrentLocation(c.loc), i)
    requires CarriedUpTo(c, w, fuel, fares, took, pass, paths, i) && DecidedUpTo(c, w, fares, fares', took, pass, i)
    requires pass[i] == passenger && paths[i] == Some(path)
    ensures outcome.Crashed? ==> fares'' == fares' && path' == Some(path) && took' == took && purged' == purged && bids' == bids
    ensures outcome.Completed? ==> SweptUpTo(fares, fares'', took', purged', bids', w.now, c.maxFareWait, CurrentLocation(c.loc), i + 1)
    ensures outcome.Completed? ==> CarriedUpTo(c, w, fuel, fares, took', pass', paths', i + 1) && DecidedUpTo(c, w, fares, fares'', took', pass', i + 1)
    ensures outcome.Completed? ==> pass' == pass + [passenger'] && paths' == paths + [path'] && took' == took + [took'[i]]
    ensures path != [] ==> outcome.Completed? && passenger' == passenger && path' == Some(path) && !took'[i]
  {
    var (k, info) := fares[i];
    var bid, purge, sent;
    ghost var t;
    outcome, bid, passenger', path', purge, sent, t := VisitFare(c, w, fuel, k, info, AnyAllocated(fares'), passenger, path);
    fares'', purged', bids', took', pass', paths' := fares', purged, bids, took, pass, paths;
    if outcome.Crashed? {
      return;
    }
    took' := took + [t];
    AwardsKept(fares, fares');
    DecidedStep(c, w, fares, fares', took, pass, i, bid, t, passenger');
    SweptStep(fares, fares', took, purged, bids, w.now, c.maxFareWait, CurrentLocation(c.loc), i, bid, t, purge, sent);
    CarriedStep(c, w, fuel, fares, took, pass, paths, i, t, passenger', path');
    fares'' := fares'[i := (k, info.(bid := bid))];
    purged', bids' := purged + purge, bids + sent;
    pass', paths' := pass + [passenger'], paths + [path'];
  }

  /**
   * The fare loop of `clockTick` (taxi.py:197-229) over `fares`, with the
   * taxi's passenger and path as they stand after the drop-off step. Returns
   * the fares with their new flags, the passenger and path, the keys marked
   * for removal and the origins bid on; `pass` and `paths` are the passenger
   * and path on reaching each fare, and at the end. On a crash, `took` covers
   * the fares visited before the one that crashed.
   */
  method SweepFares(c: Cabbie, w: TickWorld, fuel: nat, fares: Fares, passenger: Option<Passenger>, path: Option<seq<Coord>>)
    returns (outcome: TickOutcome, fares': Fares, passenger': Option<Passenger>, path': Option<seq<Coord>>,
             purged: seq<FareKey>, bids: seq<Coord>, ghost took: seq<bool>,
             ghost pass: seq<Option<Passenger>>, ghost paths: seq<Option<seq<Coord>>>)
    ensures outcome.Completed? ==> Swept(fares, fares', took, purged, bids, w.now, c.maxFareWait, CurrentLocation(c.loc))
    ensures outcome.Completed? ==> Carried(c, w, fuel, fares, took, pass, paths) && Decided(c, w, fares, fares', took, pass)
    ensures outcome.Completed? ==> pass[0] == passenger && paths[0] == path && pass[|fares|] == passenger' && paths[|fares|] == path'
    ensures |fares'| == |fares| && forall j :: 0 <= j < |fares| ==> fares'[j].0 == fares[j].0
    ensures outcome.Crashed? ==> |took| < |fares| && SweptUpTo(fares, fares', took, purged, bids, w.now, c.maxFareWait, CurrentLocation(c.loc), |took|)
    ensures path.None? && fares != [] ==> outcome == Crashed(PathIsNone)
    ensures path.Some? && path.value != [] ==>
      outcome.Completed? && passenger' == passenger && path' == path && forall j :: 0 <= j < |took| ==> !took[j]
  {
    outcome, fares', passenger', path' := Completed, fares, passenger, path;
    purged, bids, took, pass, paths := [], [], [], [passenger], [path];
    var i := 0;
    while i < |fares|
      invariant SweptUpTo(fares, fares', took, purged, bids, w.now, c.maxFareWait, CurrentLocation(c.loc), i)
      invariant CarriedUpTo(c, w, fuel, fares, took, pass, paths, i)
      invariant DecidedUpTo(c, w, fares, fares', took, pass, i)
      invariant pass[0] == passenger && paths[0] == path && pass[i] == passenger' && paths[i] == path'
      invariant path.Some? && path.value != [] ==> passenger' == passenger && path' == path && forall j :: 0 <= j < |took| ==> !took[j]
      invariant path.None? ==> path' == path && i == 0
      invariant outcome == Completed
    {
      if path'.None? {
        return Crashed(PathIsNone), fares', passenger', path', purged, bids, took, pass, paths;
      }
      var p', q';
      outcome, fares', p', q', purged, bids, took, pass, paths :=
        VisitNext(c, w, fuel, fares, i, fares', passenger', path'.value, purged, bids, took, pass, paths);
      passenger', path' := p', q';
      if outcome.Crashed? {
        return;
      }
      i := i + 1;
    }
  }
}
