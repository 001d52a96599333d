/** The dispatcher's choice among a fare's bidders: `_allocateFare` (dispatcher.py:243-288). */
module Allocation {
  import opened Common

  /** What the dispatcher reads from a taxi object when it allocates. */
  datatype TaxiStatus = TaxiStatus(
    onDuty: bool,
    account: real,
    income: NonNegReal,
    location: Coord,
    lastFareCompletionTime: int)

  /** The world as `_allocateFare` consults it: the clock, travel times and the taxis. */
  datatype AllocationWorld = AllocationWorld(
    now: int,
    travelTime: (Coord, Coord) -> Duration,
    status: TaxiId -> TaxiStatus)

  /** One allocation: the fare's origin, its bidder list, and the dispatcher's roster. */
  datatype Contest = Contest(
    origin: Coord,
    bidders: seq<nat>,
    roster: seq<TaxiId>,
    world: AllocationWorld)

  /** Substitute for a zero pickup time, so that its reciprocal exists. */
  const PickupFloor: real := 0.1

  const ProximityWeight: real := 0.4
  const EarningWeight: real := 0.3
  const InactivityWeight: real := 0.2
  const CompetitionWeight: real := 0.1

  /** The bidder at position `p` is on the roster, on duty and solvent (dispatcher.py:252-255). */
  predicate Eligible(c: Contest, p: nat)
    requires p < |c.bidders|
  {
    var k := c.bidders[p];
    k < |c.roster| && c.world.status(c.roster[k]).onDuty && c.world.status(c.roster[k]).account > 0.0
  }

  /** The priority score of the eligible bidder at position `p` (dispatcher.py:257-278). */
  function ScoreAt(c: Contest, p: nat): real
    requires p < |c.bidders| && Eligible(c, p)
  {
    var st := c.world.status(c.roster[c.bidders[p]]);
    var travel := c.world.travelTime(st.location, c.origin);
    var pickup := if travel == 0.0 then PickupFloor else travel;
    var idle := (c.world.now - st.lastFareCompletionTime) as real;
    ProximityWeight * (1.0 / pickup)
      + EarningWeight * (1.0 / (1.0 + st.income))
      + InactivityWeight * (idle / 1000.0)
      + CompetitionWeight * (1.0 / (1.0 + |c.bidders| as real))
  }

  /** `w` is the earliest position of a maximal score among the eligible bidders in `[0, upto)`. */
  ghost predicate FirstArgmax(c: Contest, w: nat, upto: nat)
    requires upto <= |c.bidders|
  {
    && w < upto
    && Eligible(c, w)
    && (forall q :: 0 <= q < upto && Eligible(c, q) ==> ScoreAt(c, q) <= ScoreAt(c, w))
    && (forall q :: 0 <= q < w && Eligible(c, q) ==> ScoreAt(c, q) < ScoreAt(c, w))
  }

  ghost predicate NoneEligible(c: Contest, upto: nat)
    requires upto <= |c.bidders|
  {
    forall q :: 0 <= q < upto ==> !Eligible(c, q)
  }

  /**
   * The loop of `_allocateFare` from position `p` on, `best` being the position
   * selected so far: a bidder replaces it only with a strictly higher score.
   */
  function BestFrom(c: Contest, p: nat, best: Option<nat>): Option<nat>
    requires p <= |c.bidders|
    requires best.Some? ==> best.value < p && Eligible(c, best.value)
    decreases |c.bidders| - p
  {
    if p == |c.bidders| then best
    else if Eligible(c, p) && (best.None? || ScoreAt(c, p) > ScoreAt(c, best.value)) then BestFrom(c, p + 1, Some(p))
    else BestFrom(c, p + 1, best)
  }

  /** The position of the winning bidder, if any bidder is eligible. */
  function Winner(c: Contest): Option<nat> {
    BestFrom(c, 0, None)
  }

  lemma {:induction false} BestFromSpec(c: Contest, p: nat, best: Option<nat>)
    requires p <= |c.bidders|
    requires best.Some? ==> best.value < p && FirstArgmax(c, best.value, p)
    requires best.None? ==> NoneEligible(c, p)
    ensures BestFrom(c, p, best).Some? ==> FirstArgmax(c, BestFrom(c, p, best).value, |c.bidders|)
    ensures BestFrom(c, p, best).None? ==> NoneEligible(c, |c.bidders|)
    decreases |c.bidders| - p
  {
    if p < |c.bidders| {
      if Eligible(c, p) && (best.None? || ScoreAt(c, p) > ScoreAt(c, best.value)) {
        BestFromSpec(c, p + 1, Some(p));
      } else {
        BestFromSpec(c, p + 1, best);
      }
    }
  }

  /**
   * The winner is an eligible bidder with the highest score, and the earliest
   * one in bid order among equals; there is none exactly when no bidder is
   * eligible.
   */
  lemma WinnerSpec(c: Contest)
    ensures Winner(c).Some? ==> FirstArgmax(c, Winner(c).value, |c.bidders|)
    ensures Winner(c).None? <==> NoneEligible(c, |c.bidders|)
  {
    BestFromSpec(c, 0, None);
    if Winner(c).Some? {
      assert Eligible(c, Winner(c).value);
    }
  }

  /** The selection loop of `_allocateFare` (dispatcher.py:244-283), returning the winner's position. */
  method AllocateFare(c: Contest) returns (selected: Option<nat>)
    ensures selected == Winner(c)
    ensures selected.Some? ==> FirstArgmax(c, selected.value, |c.bidders|)
    ensures selected.None? <==> NoneEligible(c, |c.bidders|)
  {
    WinnerSpec(c);
    selected := None;
    var highest := 0.0;
    var p := 0;
    while p < |c.bidders|
      invariant p <= |c.bidders|
      invariant selected.Some? ==> selected.value < p && Eligible(c, selected.value) && highest == ScoreAt(c, selected.value)
      invariant BestFrom(c, p, selected) == Winner(c)
    {
      var k := c.bidders[p];
      if k < |c.roster| {
        var st := c.world.status(c.roster[k]);
        if st.onDuty && st.account > 0.0 {
          var travel := c.world.travelTime(st.location, c.origin);
          var pickup := travel;
          if pickup == 0.0 {
            pickup := PickupFloor;
          }
          var idle := (c.world.now - st.lastFareCompletionTime) as real;
          var score := ProximityWeight * (1.0 / pickup)
            + EarningWeight * (1.0 / (1.0 + st.income))
            + InactivityWeight * (idle / 1000.0)
            + CompetitionWeight * (1.0 / (1.0 + |c.bidders| as real));
          assert score == ScoreAt(c, p);
          if selected.None? || score > highest {
            highest := score;
            selected := Some(p);
          }
        }
      }
      p := p + 1;
    }
  }

  /**
   * Two bidders with the same pickup time: one idle for 500 ticks with income
   * 10, the other idle for 5 with income 1000. The first wins, in either bid order.
   */
  lemma EquityAndIdlenessWin(c: Contest, a: nat)
    requires |c.bidders| == 2 && a < 2
    requires Eligible(c, 0) && Eligible(c, 1)
    requires c.world.status(c.roster[c.bidders[a]]).income == 10.0
    requires c.world.status(c.roster[c.bidders[a]]).lastFareCompletionTime == c.world.now - 500
    requires c.world.status(c.roster[c.bidders[1 - a]]).income == 1000.0
    requires c.world.status(c.roster[c.bidders[1 - a]]).lastFareCompletionTime == c.world.now - 5
    requires c.world.status(c.roster[c.bidders[0]]).location == c.world.status(c.roster[c.bidders[1]]).location
    ensures Winner(c) == Some(a)
  {
    var b := 1 - a;
    var sa := c.world.status(c.roster[c.bidders[a]]);
    var sb := c.world.status(c.roster[c.bidders[b]]);
    assert EarningWeight * (1.0 / (1.0 + sa.income)) > EarningWeight * (1.0 / (1.0 + sb.income));
    assert InactivityWeight * ((c.world.now - sa.lastFareCompletionTime) as real / 1000.0)
         > InactivityWeight * ((c.world.now - sb.lastFareCompletionTime) as real / 1000.0);
    assert ScoreAt(c, a) > ScoreAt(c, b);
    WinnerSpec(c);
  }
}
