/**
 * A taxi's knowledge of the fares the dispatcher has advertised: the
 * `_availableFares` dictionary of `Taxi` (taxi.py:108), keyed by
 * `(time, originx, originy)` and holding `FareInfo` records (taxi.py:11-20).
 */
module TaxiFares {
  import opened Common
  import opened OrderedMaps

  /** The tri-state `bid` flag: 0 = undecided, 1 = bid, -1 = declined. */
  datatype BidState = Undecided | Bid | Declined

  /** `FareInfo`: destination, price, bid flag, and `allocated` (here `awarded`: the fare went to this taxi). */
  datatype FareInfo = FareInfo(destination: Coord, price: real, bid: BidState, awarded: bool)

  /** The key `(time, originx, originy)`; `time` is when the advice arrived. */
  datatype FareKey = FareKey(time: int, origin: Coord)

  type Fares = OMap<FareKey, FareInfo>

  /** A fresh record, as `FareInfo(destination, price)` builds it. */
  function NewInfo(destination: Coord, price: real): (f: FareInfo)
    ensures f.destination == destination && f.price == price
    ensures f.bid == Undecided && !f.awarded
  {
    FareInfo(destination, price, Undecided, false)
  }

  /** Some record is marked allocated: the busy test of `_bidOnFare` (taxi.py:403). */
  predicate AnyAllocated(fs: Fares) {
    exists i :: 0 <= i < |fs| && fs[i].1.awarded
  }

  /** An entry the `FARE_ALLOC` loop accepts: same origin and same destination (taxi.py:316-317). */
  predicate AllocMatch(e: (FareKey, FareInfo), o: Coord, d: Coord) {
    e.0.origin == o && e.1.destination == d
  }

  /** Position of the first entry, in insertion order from `j` on, whose origin and destination match. */
  function FirstAllocMatch(fs: Fares, o: Coord, d: Coord, j: nat): (r: Option<nat>)
    ensures r.Some? ==> j <= r.value < |fs| && AllocMatch(fs[r.value], o, d)
    ensures r.Some? ==> forall k :: j <= k < r.value ==> !AllocMatch(fs[k], o, d)
    ensures r.None? ==> forall k :: j <= k < |fs| ==> !AllocMatch(fs[k], o, d)
    decreases |fs| - j
  {
    if j >= |fs| then None
    else if AllocMatch(fs[j], o, d) then Some(j)
    else FirstAllocMatch(fs, o, d, j + 1)
  }

  /** Position of the first entry, in insertion order from `j` on, at origin `o` (taxi.py:327). */
  function FirstAtOrigin(fs: Fares, o: Coord, j: nat): (r: Option<nat>)
    ensures r.Some? ==> j <= r.value < |fs| && fs[r.value].0.origin == o
    ensures r.Some? ==> forall k :: j <= k < r.value ==> fs[k].0.origin != o
    ensures r.None? ==> forall k :: j <= k < |fs| ==> fs[k].0.origin != o
    decreases |fs| - j
  {
    if j >= |fs| then None
    else if fs[j].0.origin == o then Some(j)
    else FirstAtOrigin(fs, o, j + 1)
  }

  /** `FARE_ADVICE`: the record is filed under the time of receipt (taxi.py:309-312). */
  function Advise(fs: Fares, now: int, o: Coord, d: Coord, price: real): Fares {
    Put(fs, FareKey(now, o), NewInfo(d, price))
  }

  /** `FARE_ALLOC`: the first entry matching origin and destination is marked allocated (taxi.py:314-319). */
  function Allocate(fs: Fares, o: Coord, d: Coord): Fares {
    match FirstAllocMatch(fs, o, d, 0)
    case None => fs
    case Some(i) => fs[i := (fs[i].0, fs[i].1.(awarded := true))]
  }

  /** `FARE_CANCEL`: the first entry at the origin is deleted, whatever its flags (taxi.py:325-329). */
  function Cancel(fs: Fares, o: Coord): Fares {
    match FirstAtOrigin(fs, o, 0)
    case None => fs
    case Some(i) => Remove(fs, fs[i].0)
  }

  /**
   * An allocation message changes at most one record, the first whose origin
   * and destination match, and only its `allocated` flag; the keys and their
   * order stay as they were.
   */
  lemma AllocateSpec(fs: Fares, o: Coord, d: Coord)
    ensures Keys(Allocate(fs, o, d)) == Keys(fs)
    ensures forall k :: 0 <= k < |fs| ==>
                         Allocate(fs, o, d)[k].1 == if FirstAllocMatch(fs, o, d, 0) == Some(k) then fs[k].1.(awarded := true) else fs[k].1
    ensures Allocate(fs, o, d) != fs ==> exists k :: 0 <= k < |fs| && AllocMatch(fs[k], o, d) && !fs[k].1.awarded
  {
    var fs' := Allocate(fs, o, d);
    assert |fs'| == |fs|;
    assert Keys(fs') == Keys(fs);
  }

  /**
   * A cancellation removes at most one record, the first at the origin in
   * insertion order, whatever its bid and allocation state; every other key
   * keeps its record.
   */
  lemma CancelSpec(fs: Fares, o: Coord)
    requires DistinctKeys(fs)
    ensures DistinctKeys(Cancel(fs, o))
    ensures FirstAtOrigin(fs, o, 0).None? ==> Cancel(fs, o) == fs
    ensures FirstAtOrigin(fs, o, 0).Some? ==>
      var i := FirstAtOrigin(fs, o, 0).value;
      && |Cancel(fs, o)| == |fs| - 1
      && forall k :: Get(Cancel(fs, o), k) == if k == fs[i].0 then None else Get(fs, k)
  {
    match FirstAtOrigin(fs, o, 0)
    case None =>
    case Some(i) =>
      assert fs[i].0 in Keys(fs);
  }

  /** Cancellation looks at origins only: flipping flags elsewhere does not change which key goes. */
  lemma CancelIgnoresFlags(fs: Fares, fs': Fares, o: Coord)
    requires Keys(fs) == Keys(fs')
    ensures FirstAtOrigin(fs, o, 0) == FirstAtOrigin(fs', o, 0)
  {
    assert |fs| == |Keys(fs)| == |Keys(fs')| == |fs'|;
    assert forall k :: 0 <= k < |fs| ==> fs[k].0 == Keys(fs)[k] == Keys(fs')[k] == fs'[k].0;
    FirstAtOriginSame(fs, fs', o, 0);
  }

  lemma {:induction false} FirstAtOriginSame(fs: Fares, fs': Fares, o: Coord, j: nat)
    requires |fs| == |fs'| && forall k :: 0 <= k < |fs| ==> fs[k].0 == fs'[k].0
    ensures FirstAtOrigin(fs, o, j) == FirstAtOrigin(fs', o, j)
    decreases |fs| - j
  {
    if j < |fs| {
      FirstAtOriginSame(fs, fs', o, j + 1);
    }
  }

  /** `del d[k]` for each key of `ks` in turn: the purge at the end of `clockTick` (taxi.py:230-231). */
  function RemoveAll(fs: Fares, ks: seq<FareKey>): Fares
    decreases |ks|
  {
    if ks == [] then fs else RemoveAll(Remove(fs, ks[0]), ks[1..])
  }

  /** After the purge exactly the listed keys are gone; the others keep their records. */
  lemma {:induction false} RemoveAllSpec(fs: Fares, ks: seq<FareKey>)
    requires DistinctKeys(fs)
    ensures DistinctKeys(RemoveAll(fs, ks))
    ensures forall k :: Get(RemoveAll(fs, ks), k) == if k in ks then None else Get(fs, k)
    decreases |ks|
  {
    if ks != [] {
      RemoveAllSpec(Remove(fs, ks[0]), ks[1..]);
      forall k ensures Get(RemoveAll(fs, ks), k) == if k in ks then None else Get(fs, k) {
        assert k in ks <==> k == ks[0] || k in ks[1..];
      }
    }
  }
}
