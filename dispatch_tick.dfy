/**
 * One dispatcher clock tick over the fare board (dispatcher.py:170-187):
 * every unpriced fare gets a price and is broadcast, every priced fare with
 * bids and no taxi is put to `_allocateFare`. Origins and destinations are
 * visited in board order, call times in ascending order.
 */
module DispatchTicks {
  import opened Common
  import opened OrderedMaps
  import opened FareBoards
  import opened Pricing
  import opened Allocation

  /** What the dispatcher asks its world to do during a tick. */
  datatype Event =
    | Broadcast(origin: Coord, destination: Coord, price: real)
    | Allocated(origin: Coord, taxi: TaxiId)

  /**
   * What a tick reads: the supply ratio (the same for the whole tick, since
   * neither the world's fare queue nor any taxi's duty changes during it), the
   * world as allocation sees it, and the dispatcher's roster.
   */
  datatype TickContext = TickContext(ratio: SupplyRatio, world: AllocationWorld, roster: seq<TaxiId>)

  datatype Ticked = Ticked(entry: FareEntry, events: seq<Event>)

  /** The contest `_allocateFare` runs for fare `f` at origin `o`. */
  function ContestFor(o: Coord, f: FareEntry, ctx: TickContext): Contest {
    Contest(o, f.bidders, ctx.roster, ctx.world)
  }

  /** The price `_costFare` gives fare `f` (dispatcher.py:216-235). */
  function PriceOf(f: FareEntry, ctx: TickContext): real {
    CostFare(ctx.world.travelTime(f.origin, f.destination), ctx.ratio)
  }

  /** The body of the innermost loop of `clockTick`, for the fare `f` filed under `(o, d)`. */
  function TickFare(o: Coord, d: Coord, f: FareEntry, ctx: TickContext): Ticked {
    if f.price == 0.0 then
      var p := PriceOf(f, ctx);
      Ticked(f.(price := p), [Broadcast(o, d, p)])
    else if f.taxi < 0 && |f.bidders| > 0 then
      match Winner(ContestFor(o, f, ctx))
      case None => Ticked(f, [])
      case Some(p) =>
        WinnerSpec(ContestFor(o, f, ctx));
        Ticked(f.(taxi := f.bidders[p]), [Allocated(o, ctx.roster[f.bidders[p]])])
    else Ticked(f, [])
  }

  /**
   * A tick changes a fare's price and allocated taxi and nothing else. An
   * unpriced fare is priced by `_costFare` and broadcast at that price, and is
   * not allocated in the same tick; a priced fare keeps its price. A fare is
   * allocated only if it is priced, unallocated and has bids, and then to one
   * of its bidders who is on the roster, with one allocation request to the
   * world. A fare that is priced and allocated is left alone. Every tick of a
   * fare raises an event unless the fare was already priced and is not
   * allocated now.
   */
  lemma TickFareSpec(o: Coord, d: Coord, f: FareEntry, ctx: TickContext)
    ensures TickFare(o, d, f, ctx).entry.(price := f.price, taxi := f.taxi) == f
    ensures f.price == 0.0 ==>
      var r := TickFare(o, d, f, ctx);
      r.entry.price == PriceOf(f, ctx) && r.entry.taxi == f.taxi && r.events == [Broadcast(o, d, r.entry.price)]
    ensures f.price != 0.0 ==> TickFare(o, d, f, ctx).entry.price == f.price
    ensures TickFare(o, d, f, ctx).entry.taxi != f.taxi ==>
      var r := TickFare(o, d, f, ctx);
      && f.price != 0.0 && f.taxi < 0 && |f.bidders| > 0
      && 0 <= r.entry.taxi < |ctx.roster| && r.entry.taxi in f.bidders
      && r.events == [Allocated(o, ctx.roster[r.entry.taxi])]
    ensures TickFare(o, d, f, ctx).events == [] <==> f.price != 0.0 && TickFare(o, d, f, ctx).entry.taxi == f.taxi
    ensures f.price != 0.0 && f.taxi >= 0 ==> TickFare(o, d, f, ctx) == Ticked(f, [])
  {
    if f.price != 0.0 && f.taxi < 0 && |f.bidders| > 0 {
      WinnerSpec(ContestFor(o, f, ctx));
    }
  }

  /**
   * An open, priced fare with bids is allocated exactly when one of its
   * bidders is eligible, and then to the earliest bidder with the highest
   * score.
   */
  lemma TickFareAllocates(o: Coord, d: Coord, f: FareEntry, ctx: TickContext)
    requires f.price != 0.0 && f.taxi < 0 && |f.bidders| > 0
    ensures TickFare(o, d, f, ctx).entry.taxi != f.taxi <==> !NoneEligible(ContestFor(o, f, ctx), |f.bidders|)
    ensures TickFare(o, d, f, ctx).entry.taxi != f.taxi ==>
      exists p: nat :: FirstArgmax(ContestFor(o, f, ctx), p, |f.bidders|) && TickFare(o, d, f, ctx).entry.taxi == f.bidders[p]
  {
    WinnerSpec(ContestFor(o, f, ctx));
  }

  /** Ascending order, as `sorted` returns it. */
  predicate Sorted(s: seq<int>) {
    forall i, j :: 0 <= i < j < |s| ==> s[i] <= s[j]
  }

  predicate Distinct(s: seq<int>) {
    forall i, j :: 0 <= i < j < |s| ==> s[i] != s[j]
  }

  function Insert(x: int, s: seq<int>): seq<int> {
    if s == [] then [x]
    else if x <= s[0] then [x] + s
    else [s[0]] + Insert(x, s[1..])
  }

  /** `sorted(list(ts.keys()))`: the keys in ascending order (an insertion sort). */
  function SortInts(s: seq<int>): seq<int> {
    if s == [] then [] else Insert(s[0], SortInts(s[1..]))
  }

  lemma {:induction false} InsertElements(x: int, s: seq<int>)
    ensures multiset(Insert(x, s)) == multiset(s) + multiset{x}
  {
    if s != [] && x > s[0] {
      InsertElements(x, s[1..]);
      assert s == [s[0]] + s[1..];
    }
  }

  lemma {:induction false} InsertSorted(x: int, s: seq<int>)
    requires Sorted(s)
    ensures Sorted(Insert(x, s))
  {
    if s == [] {
    } else if x <= s[0] {
      var r := [x] + s;
      forall i, j | 0 <= i < j < |r| ensures r[i] <= r[j] {
        if i > 0 {
          assert r[i] == s[i - 1] && r[j] == s[j - 1];
        } else {
          assert s[0] <= s[j - 1];
        }
      }
    } else {
      var rest := Insert(x, s[1..]);
      InsertSorted(x, s[1..]);
      InsertElements(x, s[1..]);
      forall i | 0 <= i < |rest| ensures s[0] <= rest[i] {
        assert rest[i] in multiset(rest);
        assert rest[i] in s[1..] || rest[i] == x;
      }
      var r := [s[0]] + rest;
      forall i, j | 0 <= i < j < |r| ensures r[i] <= r[j] {
        if i > 0 {
          assert r[i] == rest[i - 1] && r[j] == rest[j - 1];
        }
      }
    }
  }

  /** The result of `sorted` is ascending and a permutation of its input. */
  lemma {:induction false} SortIntsSpec(s: seq<int>)
    ensures Sorted(SortInts(s))
    ensures multiset(SortInts(s)) == multiset(s)
  {
    if s != [] {
      assert s == [s[0]] + s[1..];
      SortIntsSpec(s[1..]);
      InsertSorted(s[0], SortInts(s[1..]));
      InsertElements(s[0], SortInts(s[1..]));
    }
  }

  /** Sorting keeps exactly the elements, and a list without repeats stays without repeats. */
  lemma SortIntsElements(s: seq<int>)
    ensures forall y :: y in SortInts(s) <==> y in s
    ensures Distinct(s) ==> Distinct(SortInts(s))
  {
    var r := SortInts(s);
    SortIntsSpec(s);
    forall y ensures y in r <==> y in s {
      assert y in r <==> y in multiset(r);
      assert y in s <==> y in multiset(s);
    }
    if Distinct(s) {
      DistinctCounts(s);
      CountsDistinct(r);
    }
  }

  lemma {:induction false} DistinctCounts(s: seq<int>)
    requires Distinct(s)
    ensures forall y :: multiset(s)[y] <= 1
  {
    if s != [] {
      assert s == [s[0]] + s[1..];
      DistinctCounts(s[1..]);
      assert s[0] !in s[1..];
    }
  }

  lemma CountsDistinct(s: seq<int>)
    requires forall y :: multiset(s)[y] <= 1
    ensures Distinct(s)
  {
    forall i, j | 0 <= i < j < |s| ensures s[i] != s[j] {
      assert s == s[..j] + s[j..];
      assert s[..j][i] == s[i];
      assert multiset(s[..j])[s[i]] >= 1;
      assert multiset(s) == multiset(s[..j]) + multiset(s[j..]);
      assert multiset(s)[s[i]] == multiset(s[..j])[s[i]] + multiset(s[j..])[s[i]];
      assert multiset(s[j..])[s[i]] == 0;
      assert s[j..][0] == s[j];
    }
  }

  /** A dictionary's call times have no repeats. */
  lemma TimesKeysDistinct(ts: Times)
    requires DistinctKeys(ts)
    ensures Distinct(Keys(ts))
  {
  }

  /** The events of the fares under one `(o, d)`, visiting call times in `order`. */
  function TimesEvents(o: Coord, d: Coord, ts: Times, order: seq<int>, ctx: TickContext): seq<Event>
    decreases |order|
  {
    if order == [] then []
    else
      var t := order[|order| - 1];
      TimesEvents(o, d, ts, order[..|order| - 1], ctx)
        + match Get(ts, t) case Some(f) => TickFare(o, d, f, ctx).events case None => []
  }

  /** The fares under one `(o, d)` after the tick: the same dictionary, each fare ticked in place. */
  function TickTimes(o: Coord, d: Coord, ts: Times, ctx: TickContext): Times {
    seq(|ts|, i requires 0 <= i < |ts| => (ts[i].0, TickFare(o, d, ts[i].1, ctx).entry))
  }

  function TickRow(o: Coord, ds: Destinations, ctx: TickContext): Destinations {
    seq(|ds|, j requires 0 <= j < |ds| => (ds[j].0, TickTimes(o, ds[j].0, ds[j].1, ctx)))
  }

  /** The board after a tick. */
  function TickBoard(b: Board, ctx: TickContext): Board {
    seq(|b|, i requires 0 <= i < |b| => (b[i].0, TickRow(b[i].0, b[i].1, ctx)))
  }

  /** A tick changes no key at any level, nor the order of keys. */
  lemma TickTimesKeys(o: Coord, d: Coord, ts: Times, ctx: TickContext)
    ensures Keys(TickTimes(o, d, ts, ctx)) == Keys(ts)
  {
    assert Keys(TickTimes(o, d, ts, ctx)) == Keys(ts);
  }

  lemma TickRowKeys(o: Coord, ds: Destinations, ctx: TickContext)
    ensures Keys(TickRow(o, ds, ctx)) == Keys(ds)
    ensures forall j :: 0 <= j < |ds| ==> Keys(TickRow(o, ds, ctx)[j].1) == Keys(ds[j].1)
  {
    assert Keys(TickRow(o, ds, ctx)) == Keys(ds);
    forall j | 0 <= j < |ds| ensures Keys(TickRow(o, ds, ctx)[j].1) == Keys(ds[j].1) {
      TickTimesKeys(o, ds[j].0, ds[j].1, ctx);
    }
  }

  lemma TickBoardKeys(b: Board, ctx: TickContext)
    ensures Keys(TickBoard(b, ctx)) == Keys(b)
    ensures forall i :: 0 <= i < |b| ==> Keys(TickBoard(b, ctx)[i].1) == Keys(b[i].1)
  {
    assert Keys(TickBoard(b, ctx)) == Keys(b);
    forall i | 0 <= i < |b| ensures Keys(TickBoard(b, ctx)[i].1) == Keys(b[i].1) {
      TickRowKeys(b[i].0, b[i].1, ctx);
    }
  }

  /** The events of the first `n` destinations of one origin, in board order. */
  function RowEventsUpTo(o: Coord, ds: Destinations, n: nat, ctx: TickContext): seq<Event>
    requires n <= |ds|
  {
    if n == 0 then []
    else RowEventsUpTo(o, ds, n - 1, ctx) + TimesEvents(o, ds[n - 1].0, ds[n - 1].1, SortInts(Keys(ds[n - 1].1)), ctx)
  }

  /** The events of one origin's fares. */
  function RowEvents(o: Coord, ds: Destinations, ctx: TickContext): seq<Event> {
    RowEventsUpTo(o, ds, |ds|, ctx)
  }

  /** The events of the first `n` origins, in board order. */
  function BoardEventsUpTo(b: Board, n: nat, ctx: TickContext): seq<Event>
    requires n <= |b|
  {
    if n == 0 then []
    else BoardEventsUpTo(b, n - 1, ctx) + RowEvents(b[n - 1].0, b[n - 1].1, ctx)
  }

  /** The events of a whole tick. */
  function BoardEvents(b: Board, ctx: TickContext): seq<Event> {
    BoardEventsUpTo(b, |b|, ctx)
  }

  lemma GetTick(o: Coord, d: Coord, ts: Times, t: int, ctx: TickContext)
    ensures Get(TickTimes(o, d, ts, ctx), t) == match Get(ts, t) case None => None case Some(f) => Some(TickFare(o, d, f, ctx).entry)
  {
    TickTimesKeys(o, d, ts, ctx);
  }

  lemma TimesAtTick(o: Coord, ds: Destinations, d: Coord, ctx: TickContext)
    ensures TimesAt(TickRow(o, ds, ctx), d) == TickTimes(o, d, TimesAt(ds, d), ctx)
  {
    TickRowKeys(o, ds, ctx);
    if d in Keys(ds) {
      var j := IndexOf(Keys(ds), d);
      assert Keys(TickRow(o, ds, ctx))[j] == d;
    }
  }

  lemma DestsAtTick(b: Board, o: Coord, ctx: TickContext)
    ensures DestsAt(TickBoard(b, ctx), o) == TickRow(o, DestsAt(b, o), ctx)
  {
    TickBoardKeys(b, ctx);
    if o in Keys(b) {
      var i := IndexOf(Keys(b), o);
      assert Keys(TickBoard(b, ctx))[i] == o;
    }
  }

  /**
   * After a tick, every fare is where it was, ticked by `TickFare`, and no
   * fare appears or disappears.
   */
  lemma TickBoardLookup(b: Board, ctx: TickContext, o: Coord, d: Coord, t: int)
    ensures Lookup(TickBoard(b, ctx), o, d, t) == match Lookup(b, o, d, t) case None => None case Some(f) => Some(TickFare(o, d, f, ctx).entry)
  {
    DestsAtTick(b, o, ctx);
    TimesAtTick(o, DestsAt(b, o), d, ctx);
    GetTick(o, d, TimesAt(DestsAt(b, o), d), t, ctx);
  }

  /** A tick keeps the board a proper nested dictionary, key order included. */
  lemma TickBoardWellFormed(b: Board, ctx: TickContext)
    requires WellFormed(b)
    ensures WellFormed(TickBoard(b, ctx))
  {
    var r := TickBoard(b, ctx);
    TickBoardKeys(b, ctx);
    assert forall i :: 0 <= i < |b| ==> r[i].0 == Keys(r)[i] == Keys(b)[i] == b[i].0;
    forall i | 0 <= i < |b| ensures DistinctKeys(r[i].1) && r[i].1 != [] {
      assert forall j :: 0 <= j < |b[i].1| ==> r[i].1[j].0 == Keys(r[i].1)[j] == Keys(b[i].1)[j] == b[i].1[j].0;
    }
    forall i, j | 0 <= i < |b| && 0 <= j < |b[i].1| ensures DistinctKeys(r[i].1[j].1) && r[i].1[j].1 != [] {
      assert r[i].1[j].1 == TickTimes(b[i].0, b[i].1[j].0, b[i].1[j].1, ctx);
      assert forall k :: 0 <= k < |b[i].1[j].1| ==> r[i].1[j].1[k].0 == b[i].1[j].1[k].0;
    }
  }

  /** Every event of a `(o, d)` sweep comes from one of its fares. */
  lemma {:induction false} TimesEventsSound(o: Coord, d: Coord, ts: Times, order: seq<int>, ctx: TickContext, e: Event)
    requires e in TimesEvents(o, d, ts, order, ctx)
    ensures exists t :: Get(ts, t).Some? && e in TickFare(o, d, Get(ts, t).value, ctx).events
    decreases |order|
  {
    var t := order[|order| - 1];
    if e !in TimesEvents(o, d, ts, order[..|order| - 1], ctx) {
      assert Get(ts, t).Some? && e in TickFare(o, d, Get(ts, t).value, ctx).events;
    } else {
      TimesEventsSound(o, d, ts, order[..|order| - 1], ctx, e);
    }
  }

  /** Every fare whose call time is visited contributes its events to the sweep. */
  lemma {:induction false} TimesEventsComplete(o: Coord, d: Coord, ts: Times, order: seq<int>, ctx: TickContext, t: int)
    requires t in order && Get(ts, t).Some?
    ensures forall e :: e in TickFare(o, d, Get(ts, t).value, ctx).events ==> e in TimesEvents(o, d, ts, order, ctx)
    decreases |order|
  {
    var init := order[..|order| - 1];
    if t != order[|order| - 1] {
      assert order == init + [order[|order| - 1]];
      TimesEventsComplete(o, d, ts, init, ctx, t);
    }
  }

  lemma {:induction false} RowEventsSound(o: Coord, ds: Destinations, n: nat, ctx: TickContext, e: Event)
    requires n <= |ds| && e in RowEventsUpTo(o, ds, n, ctx)
    ensures exists j, t :: 0 <= j < n && Get(ds[j].1, t).Some? && e in TickFare(o, ds[j].0, Get(ds[j].1, t).value, ctx).events
    decreases n
  {
    if e in RowEventsUpTo(o, ds, n - 1, ctx) {
      RowEventsSound(o, ds, n - 1, ctx, e);
    } else {
      var last := ds[n - 1];
      TimesEventsSound(o, last.0, last.1, SortInts(Keys(last.1)), ctx, e);
    }
  }

  lemma {:induction false} RowEventsComplete(o: Coord, ds: Destinations, n: nat, ctx: TickContext, j: nat, t: int)
    requires j < n <= |ds| && Get(ds[j].1, t).Some?
    ensures forall e :: e in TickFare(o, ds[j].0, Get(ds[j].1, t).value, ctx).events ==> e in RowEventsUpTo(o, ds, n, ctx)
    decreases n
  {
    var f := Get(ds[j].1, t).value;
    var last := ds[n - 1];
    var te := TimesEvents(o, last.0, last.1, SortInts(Keys(last.1)), ctx);
    assert RowEventsUpTo(o, ds, n, ctx) == RowEventsUpTo(o, ds, n - 1, ctx) + te;
    if j < n - 1 {
      RowEventsComplete(o, ds, n - 1, ctx, j, t);
    } else {
      SortIntsElements(Keys(last.1));
      TimesEventsComplete(o, last.0, last.1, SortInts(Keys(last.1)), ctx, t);
      assert forall e :: e in TickFare(o, last.0, f, ctx).events ==> e in te;
    }
  }

  lemma {:induction false} BoardEventsSound(b: Board, n: nat, ctx: TickContext, e: Event)
    requires n <= |b| && e in BoardEventsUpTo(b, n, ctx)
    ensures exists i, j, t ::
              0 <= i < n && 0 <= j < |b[i].1| && Get(b[i].1[j].1, t).Some?
              && e in TickFare(b[i].0, b[i].1[j].0, Get(b[i].1[j].1, t).value, ctx).events
    decreases n
  {
    if e in BoardEventsUpTo(b, n - 1, ctx) {
      BoardEventsSound(b, n - 1, ctx, e);
    } else {
      RowEventsSound(b[n - 1].0, b[n - 1].1, |b[n - 1].1|, ctx, e);
    }
  }

  lemma {:induction false} BoardEventsComplete(b: Board, n: nat, ctx: TickContext, i: nat, j: nat, t: int)
    requires i < n <= |b| && j < |b[i].1| && Get(b[i].1[j].1, t).Some?
    ensures forall e :: e in TickFare(b[i].0, b[i].1[j].0, Get(b[i].1[j].1, t).value, ctx).events ==> e in BoardEventsUpTo(b, n, ctx)
    decreases n
  {
    if i < n - 1 {
      BoardEventsComplete(b, n - 1, ctx, i, j, t);
    } else {
      RowEventsComplete(b[i].0, b[i].1, |b[i].1|, ctx, j, t);
    }
  }

  /** Every event of a tick comes from a fare on the board, as the fare stood before the tick. */
  lemma TickEventsSound(b: Board, ctx: TickContext, e: Event)
    requires WellFormed(b) && e in BoardEvents(b, ctx)
    ensures exists o, d, t :: Lookup(b, o, d, t).Some? && e in TickFare(o, d, Lookup(b, o, d, t).value, ctx).events
  {
    BoardEventsSound(b, |b|, ctx, e);
    var i, j, t :| 0 <= i < |b| && 0 <= j < |b[i].1| && Get(b[i].1[j].1, t).Some?
      && e in TickFare(b[i].0, b[i].1[j].0, Get(b[i].1[j].1, t).value, ctx).events;
    LookupAt(b, i, j, t);
  }

  /** Every fare on the board contributes all of its events to the tick. */
  lemma TickEventsComplete(b: Board, ctx: TickContext, o: Coord, d: Coord, t: int)
    requires Lookup(b, o, d, t).Some?
    ensures forall e :: e in TickFare(o, d, Lookup(b, o, d, t).value, ctx).events ==> e in BoardEvents(b, ctx)
  {
    var i := IndexOf(Keys(b), o);
    assert DestsAt(b, o) == b[i].1;
    var j := IndexOf(Keys(b[i].1), d);
    assert TimesAt(b[i].1, d) == b[i].1[j].1;
    BoardEventsComplete(b, |b|, ctx, i, j, t);
  }

  /** In a proper board, position `(i, j)` holds the fares of key `(b[i].0, b[i].1[j].0)`. */
  lemma LookupAt(b: Board, i: nat, j: nat, t: int)
    requires WellFormed(b) && i < |b| && j < |b[i].1|
    ensures Lookup(b, b[i].0, b[i].1[j].0, t) == Get(b[i].1[j].1, t)
  {
    GetAt(b, i);
    GetAt(b[i].1, j);
  }

  /**
   * The body of the innermost loop of `clockTick` (dispatcher.py:179-187): price
   * an unpriced fare and broadcast it, or run `_allocateFare` on an open one with bids.
   */
  method TickOne(o: Coord, d: Coord, f: FareEntry, ctx: TickContext) returns (r: Ticked)
    ensures r == TickFare(o, d, f, ctx)
  {
    if f.price == 0.0 {
      var price := PriceOf(f, ctx);
      r := Ticked(f.(price := price), [Broadcast(o, d, price)]);
    } else if f.taxi < 0 && |f.bidders| > 0 {
      var selected := AllocateFare(ContestFor(o, f, ctx));
      if selected.Some? {
        r := Ticked(f.(taxi := f.bidders[selected.value]), [Allocated(o, ctx.roster[f.bidders[selected.value]])]);
      } else {
        r := Ticked(f, []);
      }
    } else {
      r := Ticked(f, []);
    }
  }

  lemma TimesEventsStep(o: Coord, d: Coord, ts: Times, order: seq<int>, k: nat, ctx: TickContext)
    requires k < |order|
    ensures TimesEvents(o, d, ts, order[..k + 1], ctx) ==
      TimesEvents(o, d, ts, order[..k], ctx) + match Get(ts, order[k]) case Some(f) => TickFare(o, d, f, ctx).events case None => []
  {
    var p := order[..k + 1];
    assert p[..|p| - 1] == order[..k];
    assert p[|p| - 1] == order[k];
  }

  /** `ts1` is `ts` with exactly the fares whose call times are in `done` ticked. */
  ghost predicate SweptUpTo(o: Coord, d: Coord, ts: Times, ts1: Times, done: seq<int>, ctx: TickContext) {
    && |ts1| == |ts|
    && forall p :: 0 <= p < |ts| ==>
         ts1[p] == if ts[p].0 in done then (ts[p].0, TickFare(o, d, ts[p].1, ctx).entry) else ts[p]
  }

  /** Ticking the fare at the next call time extends the swept part by that call time. */
  lemma SweepStep(o: Coord, d: Coord, ts: Times, ts1: Times, order: seq<int>, k: nat, ctx: TickContext)
    requires DistinctKeys(ts) && Distinct(order) && k < |order| && order[k] in Keys(ts)
    requires SweptUpTo(o, d, ts, ts1, order[..k], ctx)
    ensures Keys(ts1) == Keys(ts)
    ensures ts1[IndexOf(Keys(ts), order[k])].1 == ts[IndexOf(Keys(ts), order[k])].1
    ensures Get(ts, order[k]) == Some(ts[IndexOf(Keys(ts), order[k])].1)
    ensures SweptUpTo(o, d, ts, ts1[IndexOf(Keys(ts), order[k]) := (order[k], TickFare(o, d, ts[IndexOf(Keys(ts), order[k])].1, ctx).entry)], order[..k + 1], ctx)
  {
    var t := order[k];
    var p := IndexOf(Keys(ts), t);
    assert Keys(ts1) == Keys(ts);
    assert order[..k + 1] == order[..k] + [t];
    assert t !in order[..k];
    GetAt(ts, p);
  }

  /**
   * The innermost loop of `clockTick` (dispatcher.py:178-187): the fares under
   * one `(o, d)` visited in ascending call time, each ticked in place.
   */
  method SweepTimes(o: Coord, d: Coord, ts: Times, ctx: TickContext) returns (ts': Times, evs: seq<Event>)
    requires DistinctKeys(ts)
    ensures ts' == TickTimes(o, d, ts, ctx)
    ensures evs == TimesEvents(o, d, ts, SortInts(Keys(ts)), ctx)
  {
    var order := SortInts(Keys(ts));
    SortIntsElements(Keys(ts));
    TimesKeysDistinct(ts);
    ts' := ts;
    evs := [];
    var k := 0;
    while k < |order|
      invariant 0 <= k <= |order|
      invariant SweptUpTo(o, d, ts, ts', order[..k], ctx)
      invariant evs == TimesEvents(o, d, ts, order[..k], ctx)
    {
      var t := order[k];
      SweepStep(o, d, ts, ts', order, k, ctx);
      TimesEventsStep(o, d, ts, order, k, ctx);
      var p := IndexOf(Keys(ts'), t);
      var r := TickOne(o, d, ts'[p].1, ctx);
      ts' := ts'[p := (t, r.entry)];
      evs := evs + r.events;
      k := k + 1;
    }
    assert order[..k] == order;
    assert ts' == TickTimes(o, d, ts, ctx);
  }

  /** Sweeping destination `j` extends the swept prefix of the row and its events. */
  lemma RowStep(o: Coord, ds: Destinations, j: nat, ctx: TickContext)
    requires j < |ds|
    ensures TickRow(o, ds, ctx)[..j + 1] == TickRow(o, ds, ctx)[..j] + [(ds[j].0, TickTimes(o, ds[j].0, ds[j].1, ctx))]
    ensures RowEventsUpTo(o, ds, j + 1, ctx) == RowEventsUpTo(o, ds, j, ctx) + TimesEvents(o, ds[j].0, ds[j].1, SortInts(Keys(ds[j].1)), ctx)
  {
    assert TickRow(o, ds, ctx)[..j + 1] == TickRow(o, ds, ctx)[..j] + [TickRow(o, ds, ctx)[j]];
  }

  /** Sweeping origin `i` extends the swept prefix of the board and its events. */
  lemma BoardStep(b: Board, i: nat, ctx: TickContext)
    requires i < |b|
    ensures TickBoard(b, ctx)[..i + 1] == TickBoard(b, ctx)[..i] + [(b[i].0, TickRow(b[i].0, b[i].1, ctx))]
    ensures BoardEventsUpTo(b, i + 1, ctx) == BoardEventsUpTo(b, i, ctx) + RowEvents(b[i].0, b[i].1, ctx)
  {
    assert TickBoard(b, ctx)[..i + 1] == TickBoard(b, ctx)[..i] + [TickBoard(b, ctx)[i]];
  }

  /** The middle loop of `clockTick`: the destinations of one origin in board order. */
  method SweepRow(o: Coord, ds: Destinations, ctx: TickContext) returns (ds': Destinations, evs: seq<Event>)
    requires forall j :: 0 <= j < |ds| ==> DistinctKeys(ds[j].1)
    ensures ds' == TickRow(o, ds, ctx)
    ensures evs == RowEvents(o, ds, ctx)
  {
    ds' := [];
    evs := [];
    var j := 0;
    while j < |ds|
      invariant 0 <= j <= |ds|
      invariant ds' == TickRow(o, ds, ctx)[..j]
      invariant evs == RowEventsUpTo(o, ds, j, ctx)
    {
      var ts', e := SweepTimes(o, ds[j].0, ds[j].1, ctx);
      RowStep(o, ds, j, ctx);
      ds' := ds' + [(ds[j].0, ts')];
      evs := evs + e;
      j := j + 1;
    }
    assert TickRow(o, ds, ctx)[..j] == TickRow(o, ds, ctx);
  }

  /** The outer loop of `clockTick`: the origins in board order. */
  method SweepBoard(b: Board, ctx: TickContext) returns (b': Board, evs: seq<Event>)
    requires WellFormed(b)
    ensures b' == TickBoard(b, ctx)
    ensures evs == BoardEvents(b, ctx)
  {
    b' := [];
    evs := [];
    var i := 0;
    while i < |b|
      invariant 0 <= i <= |b|
      invariant b' == TickBoard(b, ctx)[..i]
      invariant evs == BoardEventsUpTo(b, i, ctx)
    {
      var ds', e := SweepRow(b[i].0, b[i].1, ctx);
      BoardStep(b, i, ctx);
      b' := b' + [(b[i].0, ds')];
      assert BoardEventsUpTo(b, i + 1, ctx) == BoardEventsUpTo(b, i, ctx) + RowEvents(b[i].0, b[i].1, ctx);
      evs := evs + e;
      i := i + 1;
    }
    assert TickBoard(b, ctx)[..i] == TickBoard(b, ctx);
  }
}
