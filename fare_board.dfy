/**
 * The dispatcher's fare board: origin -> destination -> call time -> FareEntry,
 * three nested insertion-ordered dictionaries (dispatcher.py:43-46).
 */
module FareBoards {
  import opened Common
  import opened OrderedMaps

  /**
   * `FareEntry` (dispatcher.py:9-20). `taxi` is the roster index of the
   * allocated taxi, -1 while none is; `bidders` lists roster indices in bid order.
   */
  datatype FareEntry = FareEntry(origin: Coord, destination: Coord, calltime: int, price: real, taxi: int, bidders: seq<nat>)

  /** A fresh, unpriced, unallocated fare (the `FareEntry` constructor's defaults). */
  function NewEntry(o: Coord, d: Coord, t: int): FareEntry {
    FareEntry(o, d, t, 0.0, -1, [])
  }

  type Times = OMap<int, FareEntry>
  type Destinations = OMap<Coord, Times>
  type Board = OMap<Coord, Destinations>

  /** Proper dictionaries at every level, and no empty inner dictionary. */
  ghost predicate WellFormed(b: Board) {
    && DistinctKeys(b)
    && (forall i :: 0 <= i < |b| ==> DistinctKeys(b[i].1) && b[i].1 != [])
    && (forall i, j :: 0 <= i < |b| && 0 <= j < |b[i].1| ==> DistinctKeys(b[i].1[j].1) && b[i].1[j].1 != [])
  }

  /** `board[o]`, or an empty dictionary. */
  function DestsAt(b: Board, o: Coord): Destinations {
    match Get(b, o) case Some(ds) => ds case None => []
  }

  /** `ds[d]`, or an empty dictionary. */
  function TimesAt(ds: Destinations, d: Coord): Times {
    match Get(ds, d) case Some(ts) => ts case None => []
  }

  /** The origin `o` is on the board but has no dictionary for destination `d` yet. */
  predicate NewDestination(b: Board, o: Coord, d: Coord) {
    o in Keys(b) && d !in Keys(DestsAt(b, o))
  }

  /** The rides `newFare` counts when filing under `(o, d)`: one for a new destination of a known origin. */
  function Opens(b: Board, o: Coord, d: Coord): nat {
    if NewDestination(b, o, d) then 1 else 0
  }

  /** The fare stored under `(o, d, t)`, if any. */
  function Lookup(b: Board, o: Coord, d: Coord, t: int): Option<FareEntry> {
    Get(TimesAt(DestsAt(b, o), d), t)
  }

  lemma DestsAtWellFormed(b: Board, o: Coord)
    requires WellFormed(b)
    ensures DistinctKeys(DestsAt(b, o))
    ensures o in Keys(b) ==> DestsAt(b, o) != []
    ensures forall j :: 0 <= j < |DestsAt(b, o)| ==> DistinctKeys(DestsAt(b, o)[j].1) && DestsAt(b, o)[j].1 != []
  {
    if o in Keys(b) {
      GetAt(b, IndexOf(Keys(b), o));
    }
  }

  lemma TimesAtWellFormed(ds: Destinations, d: Coord)
    requires DistinctKeys(ds)
    requires forall j :: 0 <= j < |ds| ==> DistinctKeys(ds[j].1) && ds[j].1 != []
    ensures DistinctKeys(TimesAt(ds, d))
    ensures d in Keys(ds) ==> TimesAt(ds, d) != []
  {
    if d in Keys(ds) {
      GetAt(ds, IndexOf(Keys(ds), d));
    }
  }

  /** `board[o][d][t] = f`, creating the inner dictionaries when missing (dispatcher.py:116-125). */
  function PutFare(b: Board, o: Coord, d: Coord, t: int, f: FareEntry): Board {
    var ds := DestsAt(b, o);
    Put(b, o, Put(ds, d, Put(TimesAt(ds, d), t, f)))
  }

  /** One origin's destinations are a proper dictionary of non-empty proper dictionaries. */
  ghost predicate DestsOk(ds: Destinations) {
    && DistinctKeys(ds)
    && forall j :: 0 <= j < |ds| ==> DistinctKeys(ds[j].1) && ds[j].1 != []
  }

  lemma PutDestsOk(ds: Destinations, d: Coord, ts: Times)
    requires DestsOk(ds) && DistinctKeys(ts) && ts != []
    ensures DestsOk(Put(ds, d, ts))
  {
  }

  lemma PutBoardOk(b: Board, o: Coord, ds: Destinations)
    requires WellFormed(b) && DestsOk(ds) && ds != []
    ensures WellFormed(Put(b, o, ds))
  {
    var b' := Put(b, o, ds);
    forall i, j | 0 <= i < |b'| && 0 <= j < |b'[i].1|
      ensures DistinctKeys(b'[i].1[j].1) && b'[i].1[j].1 != []
    {
      if b'[i] != (o, ds) {
        assert b'[i] == b[i];
      }
    }
  }

  lemma RemoveBoardOk(b: Board, o: Coord)
    requires WellFormed(b)
    ensures WellFormed(Remove(b, o))
  {
    var b' := Remove(b, o);
    forall i | 0 <= i < |b'|
      ensures b'[i] == b[i] || b'[i] == b[i + 1]
    {
    }
  }

  /** Storing a fare keeps the board well formed. */
  lemma PutFareWellFormed(b: Board, o: Coord, d: Coord, t: int, f: FareEntry)
    requires WellFormed(b)
    ensures WellFormed(PutFare(b, o, d, t, f))
  {
    var ds := DestsAt(b, o);
    DestsAtWellFormed(b, o);
    TimesAtWellFormed(ds, d);
    var ts' := Put(TimesAt(ds, d), t, f);
    PutDestsOk(ds, d, ts');
    PutBoardOk(b, o, Put(ds, d, ts'));
  }

  /** Storing a fare sets exactly that key. */
  lemma PutFareLookup(b: Board, o: Coord, d: Coord, t: int, f: FareEntry)
    ensures forall o', d', t' ::
              Lookup(PutFare(b, o, d, t, f), o', d', t') ==
              if o' == o && d' == d && t' == t then Some(f) else Lookup(b, o', d', t')
  {
    var ds := DestsAt(b, o);
    var ts' := Put(TimesAt(ds, d), t, f);
    var ds' := Put(ds, d, ts');
    var b' := Put(b, o, ds');
    forall o', d', t' ensures Lookup(b', o', d', t') == if o' == o && d' == d && t' == t then Some(f) else Lookup(b, o', d', t') {
      if o' != o {
        assert Get(b', o') == Get(b, o');
      } else {
        assert DestsAt(b', o) == ds';
        if d' != d {
          assert Get(ds', d') == Get(ds, d');
        } else {
          assert TimesAt(ds', d) == ts';
        }
      }
    }
  }

  /** Storing a fare sets exactly that key and keeps the board well formed. */
  lemma PutFareSpec(b: Board, o: Coord, d: Coord, t: int, f: FareEntry)
    requires WellFormed(b)
    ensures WellFormed(PutFare(b, o, d, t, f))
    ensures forall o', d', t' ::
              Lookup(PutFare(b, o, d, t, f), o', d', t') ==
              if o' == o && d' == d && t' == t then Some(f) else Lookup(b, o', d', t')
    ensures Keys(PutFare(b, o, d, t, f)) == if o in Keys(b) then Keys(b) else Keys(b) + [o]
  {
    PutFareWellFormed(b, o, d, t, f);
    PutFareLookup(b, o, d, t, f);
  }

  /** `del ds[d][t]`, then `del ds[d]` if that left it empty. */
  function RemoveTime(ds: Destinations, d: Coord, t: int): Destinations {
    var ts := Remove(TimesAt(ds, d), t);
    if ts == [] then Remove(ds, d) else Put(ds, d, ts)
  }

  /**
   * `del board[o][d][t]` followed by pruning the inner dictionaries that this
   * left empty (dispatcher.py:138-142).
   */
  function RemoveFare(b: Board, o: Coord, d: Coord, t: int): Board {
    var ds' := RemoveTime(DestsAt(b, o), d, t);
    if ds' == [] then Remove(b, o) else Put(b, o, ds')
  }

  lemma RemoveTimeSpec(ds: Destinations, d: Coord, t: int)
    requires DistinctKeys(ds)
    requires forall j :: 0 <= j < |ds| ==> DistinctKeys(ds[j].1) && ds[j].1 != []
    ensures DistinctKeys(RemoveTime(ds, d, t))
    ensures forall j :: 0 <= j < |RemoveTime(ds, d, t)| ==>
              DistinctKeys(RemoveTime(ds, d, t)[j].1) && RemoveTime(ds, d, t)[j].1 != []
    ensures forall d', t' ::
              Get(TimesAt(RemoveTime(ds, d, t), d'), t') ==
              if d' == d && t' == t then None else Get(TimesAt(ds, d'), t')
  {
    TimesAtWellFormed(ds, d);
    var ts := Remove(TimesAt(ds, d), t);
    var ds' := RemoveTime(ds, d, t);
    forall d', t' ensures Get(TimesAt(ds', d'), t') == if d' == d && t' == t then None else Get(TimesAt(ds, d'), t') {
      if d' == d {
        if ts == [] {
          assert TimesAt(ds', d) == [];
        } else {
          assert TimesAt(ds', d) == ts;
        }
      } else {
        assert TimesAt(ds', d') == TimesAt(ds, d');
      }
    }
  }

  /** Dropping one origin keeps the board well formed and the other origins as they were. */
  lemma DropOriginSpec(b: Board, o: Coord)
    requires WellFormed(b)
    ensures WellFormed(Remove(b, o))
    ensures DestsAt(Remove(b, o), o) == []
    ensures forall o' :: o' != o ==> DestsAt(Remove(b, o), o') == DestsAt(b, o')
  {
    var b' := Remove(b, o);
    RemoveBoardOk(b, o);
    assert Get(b', o) == None;
    forall o' | o' != o ensures DestsAt(b', o') == DestsAt(b, o') {
      assert Get(b', o') == Get(b, o');
    }
  }

  /** Replacing the destinations of one origin keeps the board well formed. */
  lemma SetOriginSpec(b: Board, o: Coord, ds': Destinations)
    requires WellFormed(b)
    requires DistinctKeys(ds') && ds' != []
    requires forall j :: 0 <= j < |ds'| ==> DistinctKeys(ds'[j].1) && ds'[j].1 != []
    ensures WellFormed(Put(b, o, ds'))
    ensures DestsAt(Put(b, o, ds'), o) == ds'
    ensures forall o' :: o' != o ==> DestsAt(Put(b, o, ds'), o') == DestsAt(b, o')
  {
    var b' := Put(b, o, ds');
    PutBoardOk(b, o, ds');
    forall o' | o' != o ensures DestsAt(b', o') == DestsAt(b, o') {
      assert Get(b', o') == Get(b, o');
    }
  }

  /** Cancelling removes exactly that key, and no inner dictionary is left empty. */
  lemma RemoveFareSpec(b: Board, o: Coord, d: Coord, t: int)
    requires WellFormed(b)
    ensures WellFormed(RemoveFare(b, o, d, t))
    ensures forall o', d', t' ::
              Lookup(RemoveFare(b, o, d, t), o', d', t') ==
              if o' == o && d' == d && t' == t then None else Lookup(b, o', d', t')
  {
    var ds := DestsAt(b, o);
    DestsAtWellFormed(b, o);
    RemoveTimeSpec(ds, d, t);
    var ds' := RemoveTime(ds, d, t);
    if ds' == [] {
      DropOriginSpec(b, o);
    } else {
      SetOriginSpec(b, o, ds');
    }
  }

  /** Position of the first fare at or after position `j` that no taxi holds (`taxi == -1`). */
  function FirstOpenTime(ts: Times, j: nat): (r: Option<nat>)
    ensures r.Some? ==> j <= r.value < |ts| && ts[r.value].1.taxi == -1
    ensures r.Some? ==> forall k :: j <= k < r.value ==> ts[k].1.taxi != -1
    ensures r.None? ==> forall k :: j <= k < |ts| ==> ts[k].1.taxi != -1
    decreases |ts| - j
  {
    if j >= |ts| then None
    else if ts[j].1.taxi == -1 then Some(j)
    else FirstOpenTime(ts, j + 1)
  }

  /**
   * Positions (destination, time) of the first open fare in iteration order,
   * searching destinations from position `i` on: the nested loops of `fareBid`.
   */
  function FirstOpen(ds: Destinations, i: nat): (r: Option<(nat, nat)>)
    ensures r.Some? ==> i <= r.value.0 < |ds| && r.value.1 < |ds[r.value.0].1|
    ensures r.Some? ==> ds[r.value.0].1[r.value.1].1.taxi == -1
    ensures r.Some? ==> forall l :: 0 <= l < r.value.1 ==> ds[r.value.0].1[l].1.taxi != -1
    ensures r.Some? ==> forall k, l :: i <= k < r.value.0 && 0 <= l < |ds[k].1| ==> ds[k].1[l].1.taxi != -1
    ensures r.None? ==> forall k, l :: i <= k < |ds| && 0 <= l < |ds[k].1| ==> ds[k].1[l].1.taxi != -1
    decreases |ds| - i
  {
    if i >= |ds| then None
    else match FirstOpenTime(ds[i].1, 0)
      case Some(l) => Some((i, l))
      case None => FirstOpen(ds, i + 1)
  }

  /** A search through held fares only finds the open fare that follows them. */
  lemma {:induction false} FirstOpenTimeAt(ts: Times, j: nat, l: nat)
    requires j <= l < |ts| && ts[l].1.taxi == -1
    requires forall k :: j <= k < l ==> ts[k].1.taxi != -1
    ensures FirstOpenTime(ts, j) == Some(l)
    decreases l - j
  {
    if j < l {
      FirstOpenTimeAt(ts, j + 1, l);
    }
  }

  /** Destinations whose fares are all held do not change where the search ends. */
  lemma {:induction false} FirstOpenSkips(ds: Destinations, k: nat, i: nat)
    requires k <= i <= |ds|
    requires forall k', l :: k <= k' < i && 0 <= l < |ds[k'].1| ==> ds[k'].1[l].1.taxi != -1
    ensures FirstOpen(ds, k) == FirstOpen(ds, i)
    decreases i - k
  {
    if k < i {
      assert FirstOpenTime(ds[k].1, 0).None?;
      FirstOpenSkips(ds, k + 1, i);
    }
  }

  /** A taxi's bid recorded on the first open fare at `o` (dispatcher.py:149-157). */
  function AddBid(b: Board, o: Coord, idx: nat): Board {
    var ds := DestsAt(b, o);
    match FirstOpen(ds, 0)
    case None => b
    case Some((k, l)) =>
      var e := ds[k].1[l].1;
      PutFare(b, o, ds[k].0, ds[k].1[l].0, e.(bidders := e.bidders + [idx]))
  }

  /**
   * A bid changes at most one fare, at the bidding origin: the first open one
   * in iteration order, which gains exactly the bidder `idx`. With no open fare
   * there, nothing changes.
   */
  lemma AddBidSpec(b: Board, o: Coord, idx: nat)
    requires WellFormed(b)
    ensures WellFormed(AddBid(b, o, idx))
    ensures FirstOpen(DestsAt(b, o), 0).None? ==> AddBid(b, o, idx) == b
    ensures FirstOpen(DestsAt(b, o), 0).Some? ==>
      var (k, l) := FirstOpen(DestsAt(b, o), 0).value;
      var d := DestsAt(b, o)[k].0;
      var t := DestsAt(b, o)[k].1[l].0;
      var e := DestsAt(b, o)[k].1[l].1;
      && Lookup(b, o, d, t) == Some(e)
      && e.taxi == -1
      && forall o', d', t' :: Lookup(AddBid(b, o, idx), o', d', t') ==
           if o' == o && d' == d && t' == t then Some(e.(bidders := e.bidders + [idx])) else Lookup(b, o', d', t')
  {
    var ds := DestsAt(b, o);
    DestsAtWellFormed(b, o);
    match FirstOpen(ds, 0)
    case None =>
    case Some((k, l)) =>
      var e := ds[k].1[l].1;
      GetAt(ds, k);
      GetAt(ds[k].1, l);
      PutFareSpec(b, o, ds[k].0, ds[k].1[l].0, e.(bidders := e.bidders + [idx]));
  }

  /** Storing two fares under one key leaves the second, in the first one's place. */
  lemma PutFareTwice(b: Board, o: Coord, d: Coord, t: int, f1: FareEntry, f2: FareEntry)
    ensures PutFare(PutFare(b, o, d, t, f1), o, d, t, f2) == PutFare(b, o, d, t, f2)
  {
    var ds := DestsAt(b, o);
    var ts := TimesAt(ds, d);
    var ds1 := Put(ds, d, Put(ts, t, f1));
    assert DestsAt(PutFare(b, o, d, t, f1), o) == ds1;
    assert TimesAt(ds1, d) == Put(ts, t, f1);
    PutPut(ts, t, f1, f2);
    PutPut(ds, d, Put(ts, t, f1), Put(ts, t, f2));
    PutPut(b, o, ds1, Put(ds, d, Put(ts, t, f2)));
  }

  /** The part of `PutFareSpec` a caller filing one fare needs: it is there, and the board stays well formed. */
  lemma PutFareFound(b: Board, o: Coord, d: Coord, t: int, f: FareEntry)
    requires WellFormed(b)
    ensures WellFormed(PutFare(b, o, d, t, f))
    ensures Lookup(PutFare(b, o, d, t, f), o, d, t) == Some(f)
  {
    PutFareSpec(b, o, d, t, f);
  }

  /** The part of `AddBidSpec` the bidding loop needs. */
  lemma AddBidWellFormed(b: Board, o: Coord, idx: nat)
    requires WellFormed(b)
    ensures WellFormed(AddBid(b, o, idx))
  {
    AddBidSpec(b, o, idx);
  }
}
