/**
 * The taxi's decision whether to bid on an advertised fare: `_bidOnFare`
 * (taxi.py:398-440). A busy taxi never bids; otherwise the fare must pay a
 * margin over the traffic-adjusted travel time, the taxi must reach the
 * origin before the fare is likely to give up, and a weighted score must
 * clear an income-dependent threshold.
 */
module Bidding {
  import opened Common

  /** What `_bidOnFare` asks of the world: the clock, travel times and node traffic. */
  datatype BidWorld = BidWorld(now: int, travelTime: (Coord, Coord) -> Duration, traffic: Coord -> nat)

  /**
   * What `_bidOnFare` reads from the taxi: whether it carries a passenger,
   * whether any known fare is allocated to it, its `currentLocation`
   * (`(-1, -1)` while it is off the map), its income, the time its last fare
   * ended and its `_maxFareWait`.
   */
  datatype Bidder = Bidder(
    carrying: bool,
    anyAllocated: bool,
    location: Coord,
    income: NonNegReal,
    lastFareCompletionTime: int,
    maxFareWait: int)

  const TrafficDivisor: real := 10.0
  const CostMargin: real := 1.1
  const ProfitMargin: real := 1.5
  /** Pickup times at or beyond this many minutes earn no proximity score. */
  const ProximityHorizon: real := 30.0
  const IdleScale: real := 1000.0
  const ProximityWeight: real := 0.4
  const EarningWeight: real := 0.3
  const IdleWeight: real := 0.3
  const LowIncomeThreshold: real := 0.5
  const HighIncomeThreshold: real := 0.7
  /** Below this income the lower threshold applies. */
  const IncomeBand: real := 100.0

  /** `1 + traffic / 10` at the fare's origin (taxi.py:413-414). */
  function TrafficFactor(w: BidWorld, o: Coord): (m: real)
    ensures m >= 1.0
  {
    1.0 + w.traffic(o) as real / TrafficDivisor
  }

  /** Traffic-adjusted time to drive from the taxi to the origin (taxi.py:407-408, 415). */
  function PickupTime(b: Bidder, w: BidWorld, o: Coord): (t: real)
    ensures t >= w.travelTime(b.location, o)
  {
    w.travelTime(b.location, o) * TrafficFactor(w, o)
  }

  /** Traffic-adjusted time of the trip itself (taxi.py:409-410, 416). */
  function TripTime(w: BidWorld, o: Coord, d: Coord): (t: real)
    ensures t >= w.travelTime(o, d)
  {
    w.travelTime(o, d) * TrafficFactor(w, o)
  }

  /** The smallest acceptable price: a 10% cost margin and a 50% profit margin (taxi.py:419-423). */
  function MinimumPrice(b: Bidder, w: BidWorld, o: Coord, d: Coord): real {
    (PickupTime(b, w, o) + TripTime(w, o, d)) * CostMargin * ProfitMargin
  }

  /** Minutes the fare that called at `time` is still expected to wait (taxi.py:427). */
  function TimeToExpiry(b: Bidder, w: BidWorld, time: int): real {
    (b.maxFareWait - (w.now - time)) as real
  }

  /** The weighted proximity, earning and idleness score (taxi.py:432-436). */
  function Score(b: Bidder, w: BidWorld, o: Coord): real {
    var proximity := if 1.0 - PickupTime(b, w, o) / ProximityHorizon > 0.0 then 1.0 - PickupTime(b, w, o) / ProximityHorizon else 0.0;
    var earning := 1.0 / (1.0 + b.income);
    var idle := (w.now - b.lastFareCompletionTime) as real / IdleScale;
    ProximityWeight * proximity + EarningWeight * earning + IdleWeight * idle
  }

  /** `0.5 if income < 100 else 0.7` (taxi.py:438). */
  function Threshold(b: Bidder): real {
    if b.income < IncomeBand then LowIncomeThreshold else HighIncomeThreshold
  }

  /**
   * `_bidOnFare(time, origin, destination, price)`: a bid is made exactly when the
   * taxi is free, the price is at least 1.65 times the trafficked pickup and trip
   * times, the pickup beats the fare's expiry, and the score beats the threshold.
   */
  function BidOnFare(b: Bidder, w: BidWorld, time: int, o: Coord, d: Coord, price: real): bool {
    if b.carrying || b.anyAllocated then false
    else if price < MinimumPrice(b, w, o, d) then false
    else if PickupTime(b, w, o) > TimeToExpiry(b, w, time) then false
    else Score(b, w, o) > Threshold(b)
  }

  /** A taxi with a passenger aboard, or with a fare already allocated to it, never bids. */
  lemma BusyNeverBids(b: Bidder, w: BidWorld, time: int, o: Coord, d: Coord, price: real)
    requires b.carrying || b.anyAllocated
    ensures !BidOnFare(b, w, time, o, d, price)
  {
  }

  /** The price never pays for less than 1.65 times the untrafficked travel time of a bid fare. */
  lemma BidCoversTravel(b: Bidder, w: BidWorld, time: int, o: Coord, d: Coord, price: real)
    requires BidOnFare(b, w, time, o, d, price)
    ensures price >= 1.65 * (w.travelTime(b.location, o) + w.travelTime(o, d))
  {
    assert MinimumPrice(b, w, o, d) == 1.65 * (PickupTime(b, w, o) + TripTime(w, o, d));
  }

  /** A dearer fare is bid on whenever a cheaper one with the same trip is. */
  lemma BidPriceMonotone(b: Bidder, w: BidWorld, time: int, o: Coord, d: Coord, price: real, price': real)
    requires price <= price'
    requires BidOnFare(b, w, time, o, d, price)
    ensures BidOnFare(b, w, time, o, d, price')
  {
  }

  /** A fare that called later is bid on whenever an earlier call with the same trip is. */
  lemma BidFresherMonotone(b: Bidder, w: BidWorld, time: int, time': int, o: Coord, d: Coord, price: real)
    requires time <= time'
    requires BidOnFare(b, w, time, o, d, price)
    ensures BidOnFare(b, w, time', o, d, price)
  {
  }

  /** A fare that has waited longer than `maxFareWait` is never bid on, wherever the taxi is. */
  lemma StaleFareRejected(b: Bidder, w: BidWorld, time: int, o: Coord, d: Coord, price: real)
    requires w.now - time > b.maxFareWait
    ensures !BidOnFare(b, w, time, o, d, price)
  {
    assert PickupTime(b, w, o) >= 0.0;
  }

  /** A taxi earning 100 or more needs a score above 0.7, otherwise above 0.5. */
  lemma BidThreshold(b: Bidder, w: BidWorld, time: int, o: Coord, d: Coord, price: real)
    requires BidOnFare(b, w, time, o, d, price)
    ensures Score(b, w, o) > 0.5
    ensures b.income >= 100.0 ==> Score(b, w, o) > 0.7
  {
  }
}
