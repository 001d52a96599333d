# Taxi dispatch: a Dafny model of the dispatcher and the taxi agent

This project models the two agents of a taxi-dispatch simulation: the
`Dispatcher` and the `Taxi`.

**The dispatcher** keeps three things:
- a roster of taxis;
- a road map;
- a fare board: three nested, insertion-ordered dictionaries, origin → destination → call time → fare entry.

It takes fares from its world and prices them by supply and demand. It broadcasts them, collects the taxis' bids and allocates each fare to the bidder with the best weighted score. It also handles handovers, cancellations and payments.

**The taxi** keeps its own map, its account and a dictionary of advertised fares. It reacts to the dispatcher's messages: advice, allocation, payment and cancellation. On every tick it:
- goes off duty when broke;
- drops off or re-plans for its passenger;
- walks its fares: it heads for an allocated fare and purges it once it stands at its origin, purges the stale ones and bids once on each undecided one.

Routes come from an A*-style planner over the taxi's map. A taxi without a preferred start looks for an entry point on the edge columns of the world.

**How the Python is rendered:**
- Classes with mutable fields become Dafny classes: `Dispatchers.Dispatcher` and `Taxis.Taxi`.
- The pure parts become datatypes, functions and lemmas in their own modules.
- Python dictionaries whose iteration order matters are `OMap<K, V>` sequences of pairs (`OrderedMaps`). Their first occurrence is what counts, which is the order the source's loops see.
- The road map is a Dafny `map`.

**Interaction with the world:**
- Everything an agent asks of its world is a parameter: node lookups, distances, travel times, traffic, the clock, the taxis' states, and whether a pickup or drop-off succeeds.
- Everything it tells the world is an output: broadcasts, allocations, cancellations and bids.
- Python exceptions and crashes become outcome values. Examples: `len(None)`, a `KeyError` in the planner, `self._loc` being `None`, `self._taxis[-1]` on an empty roster. The operations the world calls have no preconditions besides the world requirements listed under "Left out"; internal steps such as `Dispatcher.FileAllocated` and `Taxi.DropOff` require only what their caller has just checked or established.

A fare cancelled while still unallocated has roster index `-1`, so the dispatcher notifies the *last* taxi of its roster. The model keeps that Python indexing (`Common.PyIndex`).

## Model

| member | source | states |
|---|---|---|
| Common.PyIndex | dispatcher.py:137 | Python list indexing: defined exactly for `-len <= i < len`, with negative indices counted from the end |
| FareBoards.PutFareSpec | dispatcher.py:116-125 | storing a fare keeps the board well formed (distinct keys, no empty inner dictionary), changes the lookup only at `(o, d, t)`, and appends `o` to the origin order only when it is new |
| FareBoards.PutFareFound | dispatcher.py:125 | after `board[o][d][t] = f` the lookup at `(o, d, t)` yields `f` |
| FareBoards.PutFareTwice | dispatcher.py:125 | storing twice at the same key is the same as storing the second value once |
| FareBoards.RemoveFareSpec | dispatcher.py:138-142 | removing a fare keeps the board well formed, makes the lookup at `(o, d, t)` absent and leaves every other lookup as it was |
| FareBoards.FirstOpen | dispatcher.py:149-157 | the first unallocated (`taxi == -1`) fare of an origin's destinations in board order, or none exists |
| FareBoards.AddBidSpec | dispatcher.py:149-157 | a bid is appended to the bidders of the first open fare at the origin and to nothing else; with no open fare the board is unchanged; the board stays well formed |
| Dispatchers.FindOpen | dispatcher.py:149-157 | the nested loop of `fareBid` finds exactly the first open fare |
| Dispatchers.Dispatcher.constructor | dispatcher.py:34-51 | roster defaults to empty, map as given, empty board, zero revenue and counters |
| Dispatchers.Dispatcher.AddTaxi | dispatcher.py:58-60 | a taxi is appended to the roster only if absent; afterwards it is on the roster |
| Dispatchers.Dispatcher.AddMapNode | dispatcher.py:65-79 | without a world: refused; a missing node or neighbour: refused with that error; otherwise the node's row is stored exactly when the dispatcher has a map |
| Dispatchers.Dispatcher.ImportMap | dispatcher.py:83-92 | a first map is taken as it is; later maps are merged node by node through `addMapNode` |
| Dispatchers.Dispatcher.NewFare | dispatcher.py:112-125 | a fare from the own world is filed with price 0 and no taxi, and is found there afterwards; `completedRides` goes up by one exactly when the destination is new under an origin already on the board; other callers change nothing |
| Dispatchers.Dispatcher.Refile | dispatcher.py:104-105 | overwriting the entry `newFare` has just filed leaves the board as if the new entry had been filed directly, well formed and found at its key |
| Dispatchers.Dispatcher.FileAllocated | dispatcher.py:103-105 | `newFare` followed by setting the taxi and the price files the fare with that taxi's roster index and that price, and counts a completed ride exactly as `newFare` does |
| Dispatchers.Dispatcher.Handover | dispatcher.py:96-105 | the taxi joins the roster if needed and the fare is filed as allocated to it at the given price; `completedRides` goes up by one exactly when the destination is new under an origin already on the board; other callers change nothing |
| Dispatchers.Dispatcher.CancelFare | dispatcher.py:128-142 | ignored exactly when the caller is foreign or the fare is unknown; otherwise it counts as abandoned, then fails with no world or an empty-roster index error, else notifies the taxi at the fare's Python index and removes the fare |
| Dispatchers.Dispatcher.FareBid | dispatcher.py:145-157 | a roster taxi's index is added to the first open fare at the origin; rogue taxis change nothing |
| Dispatchers.Dispatcher.RecvPayment | dispatcher.py:160-163 | revenue grows by the amount exactly when the payment comes from the own world |
| Dispatchers.Dispatcher.ClockTick | dispatcher.py:170-187 | the own world's tick transforms the board by `TickBoard` and emits `BoardEvents`; the board stays well formed; foreign callers change nothing |
| Pricing.ComputeSupplyRatio | dispatcher.py:203-214 | infinite exactly when no taxi is on duty; otherwise at least 1, at least fares per taxi, and equal to one of the two |
| Pricing.CostFare | dispatcher.py:216-235 | never above ten times the travel time; the ceiling under an infinite ratio; otherwise the smaller of the supply-scaled fare and the ceiling |
| Pricing.PricePositive | dispatcher.py:203-235 | a trip of positive duration always gets a positive price |
| Allocation.BestFromSpec | dispatcher.py:251-283 | the scan from any point, started with the earliest best so far, ends with the earliest maximal score among eligible bidders, or with none if none is eligible |
| Allocation.WinnerSpec | dispatcher.py:243-288 | the winner is the earliest eligible bidder with the maximal score; there is none exactly when no bidder is on the roster, on duty and solvent |
| Allocation.AllocateFare | dispatcher.py:243-288 | the loop of `_allocateFare` selects the earliest eligible bidder of maximal score, and none exactly when no bidder is eligible |
| Allocation.EquityAndIdlenessWin | dispatcher.py:257-278 | with equal distance, a poorer, longer-idle bidder outranks a rich, recently busy one, whichever position it bids from |
| DispatchTicks.TickFareSpec | dispatcher.py:179-187 | a tick prices an unpriced fare and broadcasts it; it changes at most the price and taxi of an entry; a priced, allocated fare is untouched and silent |
| DispatchTicks.TickFareAllocates | dispatcher.py:186-187 | a priced, unallocated fare with bidders gets a taxi exactly when some bidder is eligible, and that taxi is the earliest bidder of maximal score |
| DispatchTicks.SortIntsSpec | dispatcher.py:178 | `sorted` yields an ascending permutation of the call times |
| DispatchTicks.TickBoardLookup | dispatcher.py:170-187 | after a tick each fare is its own ticked entry, and no fare appears or disappears |
| DispatchTicks.TickBoardWellFormed | dispatcher.py:170-187 | a tick keeps the board well formed |
| DispatchTicks.TickEventsSound | dispatcher.py:170-187 | every event of a tick comes from some fare on the board |
| DispatchTicks.TickEventsComplete | dispatcher.py:170-187 | every event that any fare's step produces is among the tick's events |
| DispatchTicks.TickOne | dispatcher.py:179-187 | the loop body computes the fare's tick step |
| DispatchTicks.SweepTimes | dispatcher.py:178-187 | the innermost loop ticks every time of one destination in ascending order of call time |
| DispatchTicks.SweepRow | dispatcher.py:173-187 | the destination loop ticks each destination of one origin in board order |
| DispatchTicks.SweepBoard | dispatcher.py:172-187 | the origin loop produces exactly the ticked board and its events in board order |
| RoadMaps.NeighbourRowFails | dispatcher.py:72-78 | building a node's neighbour row fails exactly when some listed neighbour is not a world node |
| RoadMaps.NeighbourRowKeys | taxi.py:145-151 | the row's keys are distinct and are exactly the listed neighbours |
| RoadMaps.NeighbourRowValues | taxi.py:145-151 | each neighbour maps to its last listed direction and the world's distance to it |
| RoadMaps.BuildRow | taxi.py:145-151 | the neighbour loop produces the neighbour row, or fails at a missing neighbour |
| RoadMaps.BuildNode | taxi.py:141-152 | a node update is rejected exactly when the node or one of its neighbours is not in the world |
| RoadMaps.ImportInto | taxi.py:131-133 | the import loop adds every importable node's row to the existing map and keeps every other node |
| RoadMaps.ImportIdempotent | taxi.py:124-133 | importing the same map twice is the same as importing it once |
| RoadMaps.ImportSelf | dispatcher.py:83-92 | re-importing a map whose rows the world reproduces leaves it unchanged |
| TaxiFares.NewInfo | taxi.py:11-20 | a new fare record carries destination and price, undecided, not allocated |
| TaxiFares.FirstAllocMatch | taxi.py:315-319 | the first record at the origin with the destination, or none |
| TaxiFares.FirstAtOrigin | taxi.py:326-329 | the first record at the origin, or none |
| TaxiFares.AllocateSpec | taxi.py:314-319 | allocation marks only the first matching record and changes no key |
| TaxiFares.CancelSpec | taxi.py:325-329 | cancellation deletes exactly the first record at the origin, whether it was allocated or not, and keeps the keys distinct |
| TaxiFares.CancelIgnoresFlags | taxi.py:327 | which record a cancellation deletes depends on the keys only, not on bid or allocation flags |
| TaxiFares.RemoveAllSpec | taxi.py:230-231 | the purge deletes exactly the listed keys |
| Bidding.TrafficFactor | taxi.py:413-414 | the traffic multiplier is at least 1 |
| Bidding.PickupTime | taxi.py:407-415 | the adjusted time to reach the origin is never below the plain travel time |
| Bidding.TripTime | taxi.py:409-416 | the adjusted trip time is never below the plain travel time |
| Bidding.BusyNeverBids | taxi.py:403-404 | a taxi carrying a passenger or holding an allocated fare never bids |
| Bidding.BidCoversTravel | taxi.py:419-424 | an accepted price covers 1.65 times the untrafficked pickup and trip times |
| Bidding.BidPriceMonotone | taxi.py:423-424 | raising the price never turns a bid into a refusal |
| Bidding.BidFresherMonotone | taxi.py:427-429 | a fare called later is bid on whenever an earlier one with the same trip is |
| Bidding.StaleFareRejected | taxi.py:427-429 | a fare that has waited past the taxi's patience is never bid on |
| Bidding.BidThreshold | taxi.py:436-440 | a bid means a score above 0.5, and above 0.7 for an income of 100 or more |
| Planner.MinIndex | taxi.py:363 | the popped entry is least in Python's tuple order: by estimate, then by coordinates |
| Planner.Popped | taxi.py:363 | popping shrinks the frontier by one and keeps the costs and the trace |
| Planner.PoppedRemovesLeast | taxi.py:363 | `heappop` takes out exactly one least entry: the frontier's multiset loses that entry and nothing else |
| Planner.Relax | taxi.py:372-381 | when the neighbour loop completes, every heap entry is a map node with a known cost, and the current node still has a cost |
| Planner.RelaxKeepsCurrent | taxi.py:372-378 | with non-negative edge lengths the neighbour loop never changes the current node's own cost |
| Planner.TraceBackSound | taxi.py:365-370 | a trace-back from the destination is a route from the origin along map edges |
| Planner.SearchSound | taxi.py:362-383 | any route the search returns starts at the origin, ends at the destination and follows map edges |
| Planner.PlanSound | taxi.py:340-383 | any route `_planPath` returns is a valid route of the map |
| Planner.PlanPath | taxi.py:340-383 | no route when an end is off the map, `[origin]` when the ends coincide; any route returned is a valid route of the map, given non-negative edge lengths |
| Planner.RelaxRow | taxi.py:372-381 | the neighbour loop computes the relaxation of the whole row |
| Planner.TraceRoute | taxi.py:365-370 | the back-trace loop builds the route front first |
| EntryPoints.Height | taxi.py:91-95 | the scan covers every row and at least row 0 |
| EntryPoints.AsWrittenSpinsOnNarrowWorld | taxi.py:88-97 | in a one-column world with no node in column 0, the search as written never leaves the column |
| EntryPoints.EntryPoint | taxi.py:88-98 | the corrected search returns the first edge-column node in scan order, and none exactly when the edge columns hold no node |
| TaxiTicks.TransmittedPrefix | taxi.py:224-227 | the bids sent over the first `n` fares depend only on those fares |
| TaxiTicks.FlagsSettle | taxi.py:224-229 | a bid decision, once made, is never revisited |
| TaxiTicks.SweptKeepsRecords | taxi.py:197-229 | the fare loop keeps every key and every record except its bid flag |
| TaxiTicks.BidsOncePerEntry | taxi.py:224-227 | one bid is sent per fare newly marked as bid |
| TaxiTicks.Replan | taxi.py:214-218 | a planner route or no route is stored as the new path; a missing node or a spent budget is a crash, and the path then stays as it was, since the assignment never happens |
| TaxiTicks.DropOffStep | taxi.py:184-193 | with a route in progress nothing happens; at the end of the route a passenger is dropped off, or is re-planned for when not at their destination; no location is a crash; a completed step moves passenger and path as `DroppedOff` says, and a crash leaves the path as it was |
| TaxiTicks.MarkedStep | taxi.py:215-221 | one fare's removal mark extends the marks: fares pursued while the taxi stands at their origin, whether or not the pickup succeeds, and stale fares outside the allocated-fare branch are marked, and nothing else |
| TaxiTicks.SweptStep | taxi.py:203-229 | one fare's step extends the loop's invariant by that fare |
| TaxiTicks.CarriedStep | taxi.py:207-218 | one fare's visit extends the record of the passenger and path the loop carries, the branch taken being the test `len(path) == 0 and allocated and passenger is None` on the values then |
| TaxiTicks.OnePickupPerTick | taxi.py:207-215 | after a successful pickup at a pursued fare's origin every later fare finds a passenger aboard and is not pursued |
| TaxiTicks.AwardsKept | taxi.py:403 | the loop changes only bid flags, so the busy test of `_bidOnFare` gives the same answer on the changed dictionary |
| TaxiTicks.DecidedStep | taxi.py:222-229 | one fare's decision extends the bid rule: a fresh undecided fare outside the allocated-fare branch becomes Bid exactly when `_bidOnFare` holds with the passenger aboard then, and Declined otherwise |
| TaxiTicks.VisitFare | taxi.py:203-229 | an allocated fare, with the taxi free and stopped, is pursued: a crash off the map, at the origin a pickup attempt (with a route to the passenger's destination when it succeeds) and a purge whether or not it succeeds, otherwise a route to the origin; otherwise a stale fare is purged, and an undecided fare is decided once, becoming Bid and sending one bid exactly when `_bidOnFare` holds, or Declined; a decided fare is left alone |
| TaxiTicks.VisitNext | taxi.py:203-229 | one pass of the loop body extends the sweep promise, the carried passenger and path, and the bid rule by one fare; a crash leaves the fares and the path as they were, and marks and sends nothing |
| TaxiTicks.SweepFares | taxi.py:197-229 | over all fares: only bid flags change; fares pursued while the taxi stands at their origin, whether or not the pickup succeeds, and stale fares outside that branch are marked, and nothing else; one bid per new Bid flag; each fare is pursued exactly when the taxi is then free and stopped and the fare allocated, which moves passenger and path as `Moves` says; each fresh undecided fare outside that branch is decided by `_bidOnFare` with the passenger aboard then; the loop starts from the given passenger and path and ends with the returned ones; keys are kept; a `None` path with a fare crashes; on a crash the promise holds for the fares before the one that crashed, which is left as it was |
| Taxis.Taxi.constructor | taxi.py:57-108 | a new taxi is off duty with zero account and income, no location, no passenger, empty path and no fares |
| Taxis.Taxi.AddMapNode | taxi.py:138-152 | rejected exactly when there is no world or the node or a neighbour is missing; otherwise the node's row is stored |
| Taxis.Taxi.ImportMap | taxi.py:124-133 | each node of the new map is added through `addMapNode` |
| Taxis.Taxi.ComeOnDuty | taxi.py:161-170 | an error without a world; inside the duty window the taxi goes on duty and a non-positive account is refilled with the daily loss |
| Taxis.Taxi.RecvMsg | taxi.py:306-329 | advice files a fare under the time of receipt; allocation marks the first match; cancellation deletes the first fare at the origin; payment credits the account; nothing else changes |
| Taxis.Taxi.DropOff | taxi.py:184-193 | the taxi's passenger and path move as `DroppedOff` says; with a route in progress nothing changes; no location at the end of the path with a passenger is a crash |
| Taxis.Taxi.SweepAvailable | taxi.py:197-231 | the fare loop obeys `Swept`, `Carried` and `Decided` from the taxi's passenger and path to its new ones, and the marked fares are deleted; on a crash no fare is deleted, and the flags set and bids sent before the crashing fare are as the loop promise says |
| Taxis.Taxi.ClockTick | taxi.py:177-240 | off duty exactly when broke with no passenger; a `None` path crashes; the passenger and path go through the drop-off (`DroppedOff`) and then through every fare (`Carried`) to their final values; the fares deleted are exactly those pursued while the taxi stands at their origin, whether or not the pickup succeeds, and the stale ones outside the allocated-fare branch; bids follow `_bidOnFare` fare by fare (`Decided`); a completed tick costs 1; a crash costs nothing, deletes no fare, and leaves the flags set and bids sent by the fares visited before it |
| Taxis.FindAllocMatch | taxi.py:315-319 | the `FARE_ALLOC` loop finds the first matching record |
| Taxis.FindAtOrigin | taxi.py:326-329 | the `FARE_CANCEL` loop finds the first record at the origin |
| Taxis.Enrol | taxi.py:57-108 | without a world and without a map or start point there is no taxi; a given start point is used; the map is the service area or the world's export; with no start point the entry point is the first edge-column node in scan order, and the constructor fails exactly when there is none |

## Left out

- Taxi motion (`drive`, `occupy`, `vacate`, `turn`, `continueThrough`) is left out. The taxi's location is a field the world sets between ticks.
- `comeOnDuty` calls `world.addTaxi`, and the pose it returns feeds the motion code. That call and the pose are left out.
- Console output (`print`) is left out.
- `taxis_engaged` in `_allocateFare` is computed and never used, so it is left out.
- Floating point: the model uses real arithmetic, `inf` is a datatype case, and the Euclidean heuristic (with its `sqrt`) is a parameter.
- Planner.PlanPath: proves only that routes are sound, not that they are shortest, because the heuristic is arbitrary.
- Planner.PlanPath: the pop loop is bounded by a `fuel` count, and running out is the `Exhausted` outcome.
- Planner.PlanPath: the back-trace is bounded by the size of the trace.
- Planner.PlanPath: the `estimated_total_cost` table is not kept, because its values only go into the heap.
- Planner.PlanSound: assumes non-negative edge lengths, since map distances are never negative.
- A tick's pickup and drop-off answers are one world value each (`TickWorld`): at most one pickup per tick, as in the source, where a successful pickup makes the taxi busy.
- `Taxi.importMap` with no map is left out: the constructor always sets a map, so that branch is unreachable.
- Taxis.Taxi.RecvMsg: requires a world, because the source reads `self._world.simTime` first.
- Taxis.Taxi.ClockTick: requires a world. The source's tick reads the world's `simTime` (off-duty rule, staleness, `_bidOnFare`), and only a world calls it.
- Dispatchers.Dispatcher.ClockTick: requires a parent world, because pricing and allocation call into it.
- The supply ratio is computed once per tick. This assumes that neither of the world calls made during a tick, `broadcastFare` (dispatcher.py:183) nor `allocateFare` (dispatcher.py:288), changes the world's fare queue `_fareQ`, its taxi list `_taxis` or any taxi's `onDuty` (the inputs of `_computeSupplyRatio`, dispatcher.py:207-208); the world code that would show this is not part of this model.
- The `for ... else: pass` after the purge loop in `clockTick` does nothing, so it is left out.

## Findings

| source | as written | input that shows it | evidently intended | confidence | as-written member | corrected member |
|---|---|---|---|---|---|---|
| taxi.py:95 | the entry-point scan advances a column by `xSize - 1` | a world with `xSize == 1`, `ySize == 1` and an empty map: the step is 0 and the loop never ends | a step of at least one column, so that the scan reaches `x >= xSize` and raises `ValueError` | not executed | EntryPoints.AsWrittenSpinsOnNarrowWorld | EntryPoints.EntryPoint |
