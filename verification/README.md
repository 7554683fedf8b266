# Nexus: verified models of execution, throttling, governance and aggregation

This project models parts of the Nexus repository in Dafny and proves properties of them over
every input, every run or every reachable state. `dafny verify dfyconfig.toml` checks all of it.

## What is modelled

**Execution core and paper adapter.** `ExecutionTypes`, `Orders`, `Positions`, `Plans` and `Reducer`
model the order and execution transition tables, the clamped fills, the signed position, the
append-only audit and the reducer. `Adapter` threads a session through submit, acknowledge, fill
(with its automatic open), cancel, cancelAll, replace and shutdown. Quantities held in states are
whole numbers of 1e-8 units; prices, and the quantities a caller passes in, are reals, so that fills
off the grid are covered. `Lifecycles`, `AuditTrail`, `Conservation`, `FillRecords`, `Sides`, `Refusals`,
`AdapterLog`, `AdapterEvents`, `AdapterAccepts`, `AdapterRuns`, `AdapterBounds`, `RawRuns`, `TargetsClose`, `Endings`,
`Drift` and `DriftLimits` hold the theorems.

**Login rate limiter.** `Limiter` is the bounded Map of fixed-window counters, with its insertion
order, as a class; one attempt is a check followed by a record at one clock reading. `LimiterRuns`
gives the log of a run and ideal counters of unbounded memory; `LimiterProofs`, `LimiterBounds`,
`LimiterExact` and `LimiterLimits` compare the two, with clients numbered by the short ids of
`ClientIds`; `LimiterWindows` says how long a counter lasts. `Resp` is the hand-written reply parser over
a byte array, `RespProofs` its round trip, `RespStream` the buffering data handler and the command
encoder, `RespCommands` what a server reads from the encoded commands, and `RespWire` what each byte means.

**Strategy governance.** `Governance` is the database as an object whose three actions are
all-or-nothing; `GovernanceRuns` and `GovernanceSafety` are about serial runs from tables without
strategies (approvals of other kinds may already exist); `GovernanceCommits` splits each of
the three actions into a stale read and a commit guarded by the unique keys, and `GovernanceRaces` is
about all interleavings of such reads, commits and serial actions. `GovernanceActors` and
`GovernanceLog` trace versions, activations and audit rows back to the operators of the actions.

**Alerts and portfolio.** `Alerts` and `AlertHistory` relate the alert table to the history of polls.
`Portfolio`, `PortfolioViews` and `Exposure` model the derived facts and the loops that accumulate
notionals into Maps, with money in whole cents; `PortfolioFacts` and `ExposureFacts` tie each fact to the
items and positions, and `Grouping` and `Concentration` hold the arithmetic.

**The way into an execution.** `Decisions`, `Permissions` and `Gate` model levels, sizing, statuses,
permission, the plan's verdict and the intent, and connect them to the reducer; `Verdicts` gives every
status and action by its inputs, and `Served` follows the numbers from the inputs to the orders.

A method models code that changes state or loops; its contract ties it to a function, and the
lemmas are about that function. Each class has a method that drives it through a whole run and ties
it to the run function (`LimiterRuns.Serve`, `RespStream.Receive`, `GovernanceRuns.PerformAll`,
`AlertHistory.Watch`).

## Where the code differs from what one would expect

The model keeps the code as it is. In these places a natural reading is false, and a theorem says
exactly when it holds.

- The login limiter admits at most 2G-1 failures per window for a global limit G, one fewer than
  twice the limit, and a run reaches that; but only while G does not exceed the cap of 10000 buckets:
  above it the global bucket itself is evicted and there is no bound (`LimiterBounds.WindowBoundIff`).
  Its counters are exact if and only if 2G does not exceed the cap (`LimiterLimits.CountersExactIff`).
- A run of an adapter over q units has at most 2q+5 transitions if and only if every fill is at least
  one unit. A fill can leave an order PARTIALLY_FILLED with its whole quantity filled, because
  completion compares the unrounded sum, so fills between half a unit and one reach 2q+6, which then
  is the bound; smaller fills are accepted forever (`AdapterBounds.RunBoundIff`).
  For the same reason a fill record says FULL on an order that stays PARTIALLY_FILLED if and only if at most
  half a unit is missing (`FillRecords.FullYetUnfilledIff`).
- A submittable execution is never left in FILLED if and only if its size is positive or absent
  (`AdapterBounds.NeverStrandsIff`).
- `splitQuantity` is balanced and non-negative for up to three targets; for more it depends on the
  remainder (`Plans.PartsBalancedIff`, `Plans.PartsNonNegativeIff`).
- The half-step drift bound per fill holds if and only if each fill is weighted with what the order
  then holds, or is the first that it holds (`DriftLimits.DriftIff`); on whole runs the sizes that keep
  it are the whole ones (`DriftLimits.RunDriftIff`).
- The reducer on its own accepts OPEN from REDUCING, which loses the closed quantity, and no other
  command does (`RawRuns.MonotoneIff`); the adapter never issues it.
- An ended execution still holds a live position if and only if it FAILED out of OPEN or REDUCING
  (`Endings.EndedLiveIff`).
- A command that closes an execution leaves no order working if and only if it is CLOSE, or REDUCE when
  every protective order is FILLED, or a fill that completes its order when every other protective order
  is FILLED (`Endings.ClosingIff`). On adapter runs none of these ever happens: a CLOSED execution always
  has a protective order left ACKNOWLEDGED or PARTIALLY_FILLED (`Endings.ClosedLeavesOrders`).
- Governance updates rows by id alone. With stale reads a paused, retired or rejected version stays
  inactive if and only if no approval that read it earlier commits while every ACTIVE sibling is one it
  had read (`GovernanceRaces.FinalityIff`); throughout an interleaving every ACTIVE version has an
  APPROVED approval if and only if no rejection commits against a version that is ACTIVE by then
  (`GovernanceRaces.ApprovedIff`); and the audit log names the replaced status if and only if every
  review and retirement that commits still finds the statuses it had read (`GovernanceRaces.ChainIff`).
  Numbering, the single ACTIVE version, the second pair of eyes and the fold of the log to the stored
  statuses survive every interleaving (`GovernanceRaces.InterleavingsAreKept`).
- `deriveOverallStatus` does not test for a BLOCKED execution status. An open gate means a HEALTHY
  runtime if and only if the permission was evaluated for a given state other than HEALTHY, and so is
  not granted, or the runtime is not STOPPED, FAILED or PROTECTED (`Gate.HealthyIff`); a permission
  evaluated for the same state is enough (`Gate.ArmedMeansEverythingHeld`). Exactly which inputs pass is
  `Gate.SubmittableIff`.
- An action is a strong one if and only if the decision is open, confidence suffices and the ratio of
  the multipliers, rounded to hundredths, reaches the bound (`Gate.StrongIff`). Under the defaults that
  ratio is 1, so STRONG_BUY and STRONG_SELL never occur (`Gate.NeverStrongByDefault`).
- The portfolio facts are independent of the input order if and only if any two items with one symbol
  and signal id give equal positions (`Portfolio.OrderIndependentIff`).

## Model

| member | source | states |
|---|---|---|
| Decimal.RoundIsNearest | packages/execution-core/src/util.ts:31-35 | round returns a nearest grid step, and on a tie the one of larger magnitude |
| Plans.SplitQuantity | packages/execution-core/src/plan.ts:20-28 | the loop returns n parts, equal but for a remainder in the last one, or n absent ones |
| Plans.BuildExecutionPlan | packages/execution-core/src/plan.ts:30-104 | the loop over the targets builds the entry, stop and target orders of PlanFor, with the submit gate's verdict |
| Plans.PlanOrders | packages/execution-core/src/plan.ts:44-85 | entry first, stop second, then one target per level; whole size on the first two, a part on each target; ids by position |
| Plans.PartsSumToTotal | packages/execution-core/src/plan.ts:20-28 | the parts sum to the total for every total and every number of parts |
| Plans.PartsBalancedIff | packages/execution-core/src/plan.ts:20-28 | exactly which sizes split into parts that differ by at most one unit |
| Plans.PartsNonNegativeIff | packages/execution-core/src/plan.ts:20-28 | exactly which sizes split into parts none of which is negative |
| Plans.UpToThreeTargetsSplitEvenly | packages/execution-core/src/plan.ts:69-85 | for up to three targets the parts are non-negative and differ by at most one unit |
| Plans.FourTargetsCanGoNegative | packages/execution-core/src/plan.ts:20-28 | a size and a number of targets for which the last part is negative |
| Orders.NextFillSeq | packages/execution-core/src/fills.ts:53-57 | the loop counts the fills already recorded for an order |
| Lifecycles.MoveAll | packages/execution-core/src/state.ts:180-182 | moving the whole book to the order status an execution status calls for keeps the terms of every order and brings each to a status that the new execution status allows |
| Reducer.ReduceSequence | packages/execution-core/src/state.ts:533-543 | the loop stops at the first refusal and returns what folding the commands gives |
| Reducer.CreateExecution | packages/execution-core/src/execution.ts:34-65 | without a decision or a plan nothing is created and the reason says which; otherwise an execution is planned, then killed or failed if the operational guards say so |
| Lifecycles.StepShape | packages/execution-core/src/state.ts:128-193 | an accepted command appends one linked audit event along a legal edge; a refused one changes nothing |
| Lifecycles.RunsAreWellFormed | packages/execution-core/src/state.ts:50-65 | on every run seq equals the audit count, event i has seq i and links history i-1 to i, and the history is a path of the transition table |
| Lifecycles.TerminalAbsorbs | packages/execution-core/src/state.ts:186-193 | a terminal status absorbs every later command list |
| Lifecycles.AbsorbsIff | packages/execution-core/src/state.ts:186-193 | a status is terminal exactly when no list of commands changes the state any more |
| Lifecycles.HalvesCompose | packages/execution-core/src/state.ts:533-543 | reducing a concatenation equals reducing its halves when the first half is accepted |
| Lifecycles.SequenceIsRun | packages/execution-core/src/state.ts:533-543 | an accepted sequence is a run; a refused one stops in the state before the refusal |
| Lifecycles.RunsAreLockstep | packages/execution-core/src/state.ts:251-309 | on every run the orders have the statuses the execution status calls for, and the entry is FILLED while a position is open |
| Lifecycles.OrderEdgesIff | packages/execution-core/src/orders.ts:22-34 | exactly which steps an order can take: one stage on, filled at once or again in part, or the four early ends, each in its time |
| Lifecycles.StoppedExecutionsHaveNoWorkingOrders | packages/execution-core/src/orders.ts:22-34 | after CANCELLED, REJECTED, EXPIRED or FAILED every order is terminal, although a partially filled order cannot become REJECTED or EXPIRED |
| AuditTrail.CommandTells | packages/execution-core/src/state.ts:128-452 | every accepted command leaves an event whose kind, entity and source go with the status it leads to, KILL and RUNTIME_UNHEALTHY alone with their own source, and a failure that tells how the execution ended |
| AuditTrail.CommandSays | packages/execution-core/src/state.ts:200-530 | the reason each accepted command leaves on its event: the given one if any, else the one of the command, of the status reached and of the role of the order filled |
| AuditTrail.RunsTell | packages/execution-core/src/state.ts:128-193 | on every reducer run every event of the trail tells its step, and the failure on the state is there exactly after CANCELLED, REJECTED, EXPIRED and FAILED, with its reason, time and fatality |
| Refusals.GateReason | packages/execution-core/src/validation.ts:36-46 | which of the reasons the submit gate gives, by what is missing while everything before it is there |
| Refusals.CoreAcceptsIff | packages/execution-core/src/state.ts:22-65 | exactly when a command other than a fill is accepted, by the status, plan, entry or position it needs |
| Refusals.CoreRefusal | packages/execution-core/src/state.ts:235-452 | the failure a refused command reports: out of place, without a plan, blocked for the plan's reason, or without an entry |
| Refusals.FillRefusal | packages/execution-core/src/state.ts:464-486 | a refused fill is invalid exactly when its order is unknown or its quantity not positive, and out of place otherwise |
| FillRecords.FillIsRecorded | packages/execution-core/src/state.ts:464-530 | an accepted fill leaves exactly one record, with the order, side, price, quantity and time of the fill and what the order then holds |
| FillRecords.FullYetUnfilledIff | packages/execution-core/src/fills.ts:32-37 | a full record leaves its order PARTIALLY_FILLED exactly when at most half a unit is missing; no FILLED order has a record that is not full |
| FillRecords.RunsRecord | packages/execution-core/src/fills.ts:29-51 | on every reducer run every record is of a planned order, on its side, numbered within it, and full exactly when the order then has its size |
| FillRecords.RecordsDiffer | packages/execution-core/src/fills.ts:53-57 | so on every reducer run no two records have one id, and none is void |
| FillRecords.FullIff | packages/execution-core/src/fills.ts:29-51 | on every reducer run an order has a full record exactly when it was filled and holds its size |
| Sides.RunsKeepTerms | packages/execution-core/src/orders.ts:40-82 | on every reducer run the entry buys exactly for LONG and is priced at the served entry, every protective order is on the other side, and stop and targets are priced at the served levels |
| Sides.RunsAreServed | packages/execution-core/src/positions.ts:18-106 | on every reducer run the position carries the served direction, stop and targets, and its quantity is what is left of the entry: above zero for LONG, below for SHORT |
| Sides.OpensAsFilled | packages/execution-core/src/positions.ts:46-72 | a position opens with what its entry filled, at its average; with nothing it would stay opening |
| Sides.CoreIsRun | packages/execution-adapter/src/adapter.ts:91-192 | the core of every adapter session is that of a reducer run, so what holds on all of these holds on all adapter runs |
| Sides.PositionIsNet | packages/execution-core/src/fills.ts:29-51 | on every adapter run a live position is what was bought less what was sold according to the fill records, above zero exactly when its entry order buys |
| Conservation.FillBalances | packages/execution-core/src/orders.ts:103-130 | a fill, over-fills included, sets filledQuantity to min(quantity, sum of records), for a negative quantity too |
| Conservation.RunsBalanceOrders | packages/execution-core/src/state.ts:464-530 | on every reducer run each order that has a fill record holds min(its quantity, the sum of its records), negative quantities included, and any other holds nothing |
| AdapterRuns.CoreFollows | packages/execution-adapter/src/paper.ts:51-170 | each adapter call moves the core by exactly the core commands it issues, the automatic OPEN included |
| AdapterRuns.ReduceKeepsBalance | packages/execution-core/src/positions.ts:77-94 | a reduction closes what it records, clamped to what is left, and never flips the side |
| AdapterRuns.RunsConserve | packages/execution-adapter/src/paper.ts:93-113 | on every adapter run closedQuantity is min(entryQuantity, protective records), the signed remainder matches, and no session rests in READY |
| AdapterRuns.ExposureOnlyShrinks | packages/execution-core/src/positions.ts:77-94 | between any two points of an adapter run the closed quantity does not shrink and the side does not flip |
| AdapterRuns.UnsizedNeverOpens | packages/execution-core/src/orders.ts:103-130 | without a position size no adapter run reaches FILLED, OPEN, REDUCING or CLOSED |
| AdapterRuns.SizedNeverRestsInFilled | packages/execution-adapter/src/paper.ts:93-113 | with a positive size no adapter run is left in FILLED between calls, and a position opens with the whole size |
| RawRuns.MonotoneIff | packages/execution-core/src/state.ts:314-355 | a command takes back closed quantity, resizes the position or flips its side exactly when it is OPEN from REDUCING with something closed |
| RawRuns.RawStepIff | packages/execution-core/src/state.ts:59-59 | the same for every step of every run of the reducer |
| RawRuns.RawExposureShrinks | packages/execution-core/src/state.ts:314-355 | between two points of a reducer run without such a step the closed quantity does not shrink and the side does not flip |
| RawRuns.SomeRunReopens | packages/execution-core/src/state.ts:314-334 | a run of the reducer with such a step: open two units, close one, open again |
| Endings.EndedLiveIff | packages/execution-core/src/state.ts:219-452 | on every reducer run an ended execution holds a live position exactly when it FAILED out of OPEN or REDUCING |
| Endings.ClosingIff | packages/execution-core/src/state.ts:336-376 | exactly which commands that close an execution leave no order working: CLOSE; REDUCE when every protective order is FILLED; a fill that completes its order when every other one is FILLED |
| Endings.ClosingRunIff | packages/execution-core/src/state.ts:336-530 | the same on every run of the reducer |
| Endings.ClosedLeavesOrders | packages/execution-adapter/src/paper.ts:93-113 | on every adapter run a CLOSED execution has a protective order left ACKNOWLEDGED or PARTIALLY_FILLED |
| AdapterLog.TakeKeepsLog | packages/execution-adapter/src/adapter.ts:151-192 | one accepted core result appends exactly the image of its event, if it has one |
| AdapterLog.KindOfStep | packages/execution-adapter/src/events.ts:61-99 | SUBMIT alone yields a SUBMITTED event, and ARM, OPEN and PLAN alone yield none |
| AdapterLog.LogIsProjection | packages/execution-adapter/src/adapter.ts:91-192 | in every reachable session the adapter events are the core events since binding through mapCoreEventType, numbered 1..n, at most one SUBMITTED |
| AdapterEvents.CallEmits | packages/execution-adapter/src/paper.ts:51-170 | for every session: an accepted call or blocked submission emits the one event that tells where the execution goes. A fill is FILLED exactly when the core goes to FILLED or CLOSED, the silent OPEN aside, and PARTIAL_FILL exactly when it goes to PARTIALLY_FILLED or REDUCING; cancels, a shutdown and a kill are CANCELLED, a blocked runtime FAILED |
| AdapterEvents.StepTold | packages/execution-adapter/src/events.ts:61-99 | the adapter word for every accepted core command is that of the status it reaches; PLANNED, READY and OPEN have none |
| AdapterEvents.RunsLogTells | packages/execution-adapter/src/events.ts:61-99 | on every adapter run the log is, one by one, the statuses of the execution since binding, but for READY and OPEN |
| AdapterEvents.FilledMeansCompleted | packages/execution-adapter/src/paper.ts:93-113 | on every adapter run the FILLED events are one for a completed entry and one for a close |
| AdapterBounds.RunsAreBounded | packages/execution-core/src/state.ts:488-530 | a run over an entry of q units accepts at most 2q+5 transitions when every fill is at least one unit, 2q+6 when every fill is at least half a unit |
| AdapterBounds.RunBoundIff | packages/execution-core/src/orders.ts:109-119 | for every size q and smallest fill m: 2q+5 bounds all runs exactly if m is at least one unit, 2q+6 exactly if m is at least half a unit, and otherwise no number bounds them |
| AdapterBounds.HalfFillsReachTheBound | packages/execution-core/src/orders.ts:109-119 | for every size q and fills of any size from half a unit to less than one, a run with exactly 2q+6 transitions |
| AdapterBounds.DustFillsNeverEnd | packages/execution-core/src/orders.ts:109-119 | with fills of any one size below half a unit an adapter run accepts any number of transitions |
| AdapterBounds.SizeOfNothingStrands | packages/execution-core/src/state.ts:314-334 | with a size of zero or less a run is left in FILLED |
| AdapterBounds.NeverStrandsIff | packages/execution-adapter/src/paper.ts:93-113 | no run of a submittable intent is left in FILLED exactly when its size is positive or absent |
| TargetsClose.ClosesOnTheLastUnit | packages/execution-core/src/state.ts:508-529 | whatever the interleaving of partial fills, an open execution is CLOSED exactly when every target holds its whole part |
| AdapterLog.CallsReturnWhatTheyAppend | packages/execution-adapter/src/paper.ts:51-170 | for every session and call the returned events are exactly those appended to the session log |
| AdapterAccepts.AcceptedIff | packages/execution-adapter/src/validation.ts:49-116 | for every session and call, exactly when the call succeeds |
| AdapterAccepts.RefusedChangesNothing | packages/execution-adapter/src/paper.ts:51-150 | a refused call leaves session and log as they were, unless it is a submission blocked by kill switch or runtime |
| AdapterAccepts.BlockedSubmissionStops | packages/execution-adapter/src/paper.ts:51-85 | a submission blocked by kill switch or runtime ends the execution |
| AdapterAccepts.HealthIs | packages/execution-adapter/src/factory.ts:62-80 | on every run a paper session is READY, and any other UNAVAILABLE, until a shutdown, which nothing undoes |
| Refusals.RefusalIsExplained | packages/execution-adapter/src/validation.ts:20-120 | for every session and refused call: which reason it gives, in the order of the checks, down to the core behind them, and which reasons are fatal |
| Adapter.Drive | packages/execution-adapter/src/adapter.ts:151-192 | driveAndEmit step by step gives what the function does |
| Adapter.FillOrder | packages/execution-adapter/src/paper.ts:93-113 | fill step by step, with the silent OPEN of a completed entry, gives what the function does |
| Adapter.ShutDown | packages/execution-adapter/src/paper.ts:152-170 | shutdown step by step, with the cancel of a live execution, gives what the function does |
| Drift.ExactIsVolumeWeighted | packages/execution-core/src/orders.ts:109-127 | the unrounded running average times the quantity is the notional of the admitted lots |
| Drift.AverageDrift | packages/execution-core/src/orders.ts:109-127 | after k fills, each weighted with what the order then holds or the first that it holds, the rounded average is within k/2 price steps of the exact one; over-fills included |
| Drift.AverageInRange | packages/execution-core/src/orders.ts:109-127 | the rounded average stays between the lowest and the highest fill price, whatever the quantities |
| DriftLimits.DriftIff | packages/execution-core/src/orders.ts:109-127 | for any order and any list of fill sizes: the bound holds for all prices exactly when every fill is weighted with what the order then holds, or is the first that it holds |
| DriftLimits.SizeDriftIff | packages/execution-core/src/orders.ts:109-127 | for fills of one size x: the bound holds exactly when x is whole or two such fills use the sized order up |
| DriftLimits.RunDriftIff | packages/execution-core/src/state.ts:464-530 | a fill size keeps the bound for every order on every reducer run exactly when it is a whole number of units |
| DriftLimits.OffGridRunDrifts | packages/execution-core/src/state.ts:464-530 | for every other size a run that accepts at most two such fills of an unsized entry and breaks the bound |
| Drift.RunDrift | packages/execution-core/src/state.ts:464-530 | the drift bound for every order on every reducer run, as long as its accepted fills are weighted as above |
| Drift.RunAverageInRange | packages/execution-core/src/state.ts:464-530 | the range of the average for every order on every reducer run |
| Limiter.MemoryBuckets.MemoryGet | apps/web/src/lib/login-rate-limit.ts:152-160 | returns the live count and drops an expired bucket |
| Limiter.MemoryBuckets.MemoryIncr | apps/web/src/lib/login-rate-limit.ts:162-180 | counts in place while live; otherwise prunes, evicts the oldest if still full, and opens a window |
| Limiter.Sweep | apps/web/src/lib/login-rate-limit.ts:170-172 | the pruning loop keeps exactly the live buckets, in insertion order |
| Limiter.MemoryBuckets.CheckLoginAllowed | apps/web/src/lib/login-rate-limit.ts:309-330 | refuses exactly when the client's or the global live count has reached its limit |
| Limiter.MemoryBuckets.RecordLoginFailure | apps/web/src/lib/login-rate-limit.ts:336-349 | counts for the client, then for the global key when it is enabled |
| Limiter.MemoryBuckets.RecordLoginSuccess | apps/web/src/lib/login-rate-limit.ts:356-366 | clears the client's bucket and nothing else |
| Limiter.IncrKeeps | apps/web/src/lib/login-rate-limit.ts:168-180 | a counter update keeps the Map well formed and within its cap |
| LimiterProofs.NeverOutgrowsCap | apps/web/src/lib/login-rate-limit.ts:148-180 | on every run, whatever the clock does, the Map holds at most MEMORY_MAX_BUCKETS entries |
| LimiterRuns.IdealIsWindow | apps/web/src/lib/login-rate-limit.ts:162-180 | an ideal counter is the number of failures since its window opened, counting from the last reset |
| LimiterRuns.AdmittedIsTracked | apps/web/src/lib/login-rate-limit.ts:309-330 | a failure log admitted by an ideal global counter has fewer than 2*limit failures in every window |
| LimiterProofs.GlobalIsSpared | apps/web/src/lib/login-rate-limit.ts:168-178 | while its count is below the cap the global bucket is never the oldest, so eviction spares it |
| LimiterBounds.FailuresPerWindow | apps/web/src/lib/login-rate-limit.ts:309-349 | any interval of windowSeconds times 1000 ms admits at most 2*limit - 1 failures |
| LimiterBounds.WindowBoundIff | apps/web/src/lib/login-rate-limit.ts:148-180 | that bound holds on all runs exactly when the global limit does not exceed the cap of 10000 buckets |
| LimiterBounds.FloodBreaksBound | apps/web/src/lib/login-rate-limit.ts:168-178 | above the cap a flood of new clients evicts the global bucket before it fills |
| LimiterLimits.BoundIsReached | apps/web/src/lib/login-rate-limit.ts:309-349 | the bound is the best there is: for every global limit within the cap and every window, a run by distinct clients with exactly 2*limit - 1 failures in one window length |
| LimiterExact.CountersAreExact | apps/web/src/lib/login-rate-limit.ts:147-180 | with 2*limit within the cap every counter equals the true number of failures in its window since the last reset |
| LimiterExact.RefusalsAreExact | apps/web/src/lib/login-rate-limit.ts:309-330 | then an attempt is refused exactly when unbounded counters would refuse it |
| LimiterExact.ClientFailuresPerWindow | apps/web/src/lib/login-rate-limit.ts:309-349 | then one client has at most 2*maxFailures - 1 failures in every interval of windowSeconds times 1000 ms since its last success |
| LimiterLimits.CountersExactIff | apps/web/src/lib/login-rate-limit.ts:147-180 | the counters are exact on all runs exactly when the global limit is enabled and twice it fits the cap |
| LimiterWindows.CounterLasts | apps/web/src/lib/login-rate-limit.ts:162-180 | on every run under any clock a counter in the store was opened by a failure of its key and counts at exactly the times before windowSeconds of 1000 ms have passed since |
| LimiterWindows.FailureLasts | apps/web/src/lib/login-rate-limit.ts:162-180 | a first failure counts once for its client until windowSeconds of 1000 ms have passed, and not from then on |
| LimiterWindows.RetryIsLetIn | apps/web/src/lib/login-rate-limit.ts:332-332 | waiting for the advised windowSeconds after the last attempt is enough to be let in |
| Limiter.MemoryBuckets.TryLogin | apps/web/src/app/api/v1/auth/login/route.ts:52-102 | one attempt, check then record, on the store object |
| LimiterRuns.Serve | apps/web/src/app/api/v1/auth/login/route.ts:52-102 | attempts made one by one leave the store object in the state the run theorems speak of |
| Resp.ParseReplies | apps/web/src/lib/login-rate-limit.ts:206-234 | the offset loop over the buffer returns what parsing reply by reply gives |
| Resp.ReadReply | apps/web/src/lib/login-rate-limit.ts:210-231 | one turn of the loop: a line, its type byte, and for bulk strings the announced bytes |
| RespProofs.RoundTrip | apps/web/src/lib/login-rate-limit.ts:206-234 | parsing the encoding of a list of replies followed by any bytes returns exactly that list |
| RespProofs.StrictPrefixIsIncomplete | apps/web/src/lib/login-rate-limit.ts:206-234 | every strict prefix of the encoding leaves the parser waiting |
| RespProofs.VerdictIsStable | apps/web/src/lib/login-rate-limit.ts:206-234 | a list or an error once returned is not changed by further bytes |
| RespProofs.SignedRead | apps/web/src/lib/login-rate-limit.ts:217-219 | the decimal text of an integer is read back as that integer |
| RespStream.Connection.OnData | apps/web/src/lib/login-rate-limit.ts:271-286 | a chunk is appended to the buffer, the whole buffer is parsed, and only the first verdict counts |
| RespStream.Connection.Finish | apps/web/src/lib/login-rate-limit.ts:265-270 | only the first outcome settles the connection |
| RespStream.Receive | apps/web/src/lib/login-rate-limit.ts:271-286 | a connection object fed chunk by chunk ends in the outcome the theorems speak of |
| RespStream.ChunksDoNotMatter | apps/web/src/lib/login-rate-limit.ts:271-286 | the outcome depends on the bytes received, not on how they were cut into chunks |
| RespStream.DeliveredOnTheLastByte | apps/web/src/lib/login-rate-limit.ts:271-286 | well-formed replies settle a connection when their last byte has arrived and not before: with nothing if one is an error, else with all but the reply to the password |
| RespStream.EncodeCommand | apps/web/src/lib/login-rate-limit.ts:195-199 | the loop writes the array header and each part as a bulk string |
| RespCommands.CommandReads | apps/web/src/lib/login-rate-limit.ts:195-199 | a reader that takes as many bulk strings as the header announces gets exactly the arguments and stops at the last byte, wherever the command lies |
| RespCommands.PipelineIsRead | apps/web/src/lib/login-rate-limit.ts:255-257 | reading as many commands as were sent gives exactly them and leaves no byte |
| RespWire.LineEndIff | apps/web/src/lib/login-rate-limit.ts:211-212 | the line ends at the first pair of the bytes 13 and 10, and there is none exactly when no such pair follows |
| RespWire.NumberIff | apps/web/src/lib/login-rate-limit.ts:217-220 | which texts are numbers: none at all, or digits behind at most one sign |
| RespWire.NumberGrows | apps/web/src/lib/login-rate-limit.ts:217-220 | the value of a text by its digits, its sign and its last digit |
| RespWire.ReplyIs | apps/web/src/lib/login-rate-limit.ts:213-231 | what one reply is by its type byte 43, 45, 58 or 36 and its line: which breaks the connection, which waits, and what the others carry |
| RespWire.ParsesIff | apps/web/src/lib/login-rate-limit.ts:206-234 | for any bytes: replies are returned exactly when all can be read, the connection breaks exactly on a reply it cannot speak, and it waits exactly when the first unreadable one is not all there |
| RespStream.PipelineIsUnambiguous | apps/web/src/lib/login-rate-limit.ts:255-257 | the bytes of a pipeline determine its commands, their number and every argument |
| RespStream.CommandsArePrefixFree | apps/web/src/lib/login-rate-limit.ts:195-199 | no encoded command is the beginning of another |
| Governance.Database.RegisterStrategyVersion | apps/web/src/lib/governance-actions.ts:167-275 | refuses malformed input, else adds a DRAFT version, its PENDING approval and the audit rows |
| Governance.Database.ReviewDeployApproval | apps/web/src/lib/governance-actions.ts:297-436 | all of a review's writes or none, with the index conflict mapped to a conflict |
| Governance.Database.PauseOthers | apps/web/src/lib/governance-actions.ts:387-401 | the loop pauses each version it was given and audits each |
| Governance.Database.RetireStrategyVersion | apps/web/src/lib/governance-actions.ts:446-475 | retires a version once, audited |
| GovernanceRuns.RefusedIffUnchanged | apps/web/src/lib/governance-actions.ts:204-475 | an action is refused exactly when it leaves tables and audit log unchanged, and every accepted one is logged |
| GovernanceRuns.PerformAll | apps/web/src/lib/governance-actions.ts:167-475 | actions performed one by one leave the database object in the state the run theorems speak of |
| GovernanceRuns.SerialReviewsCommit | apps/web/src/lib/governance-actions.ts:378-403 | a review that read the tables it writes never meets the single-ACTIVE index |
| GovernanceRuns.ReviewOutcome | apps/web/src/lib/governance-actions.ts:333-431 | what an accepted review does to every version and approval: one ACTIVE, its ACTIVE siblings PAUSED, all else untouched |
| GovernanceRuns.StepKeepsSingle | apps/web/src/lib/governance-actions.ts:384-403 | every action keeps at most one ACTIVE version per strategy |
| GovernanceRuns.EnrollKeepsNumbers | apps/web/src/lib/governance-actions.ts:223-227 | a new version's number is its rank in its strategy |
| GovernanceRuns.NumberIsBorne | apps/web/src/lib/governance-actions.ts:223-227 | every number from 1 to n is borne by a version |
| GovernanceRuns.NumbersAreDistinct | apps/web/src/lib/governance-actions.ts:223-227 | no two versions of a strategy share a number and none exceeds n |
| GovernanceSafety.StepIsFaithful | apps/web/src/lib/governance-actions.ts:204-277 | every action keeps the audit log a faithful record |
| GovernanceSafety.RunsAreSound | apps/web/src/lib/governance-actions.ts:204-475 | on every serial run: one ACTIVE version per strategy, numbers 1..n, four eyes, and an audit log whose fold is every stored status and whose before is the status so far |
| GovernanceSafety.ShutIsFinal | apps/web/src/lib/governance-actions.ts:311-342 | a rejected, paused or retired version is never ACTIVE at any later point |
| GovernanceSafety.ActivationsHadFourEyes | apps/web/src/lib/governance-actions.ts:326-331 | a version that was ever ACTIVE keeps an approval by someone other than its requester |
| GovernanceActors.TrimIs | apps/web/src/lib/governance-actions.ts:124-129 | trimming takes the space off both ends and nothing else |
| GovernanceActors.ActorIs | apps/web/src/lib/governance-actions.ts:131-139 | an actor is accepted exactly when its trimmed text is not empty and no demo identity |
| GovernanceActors.ReviewAcceptedIff | apps/web/src/lib/governance-actions.ts:297-342 | exactly when a review is accepted, in the words of its input and of the rows it names |
| GovernanceActors.ReviewDecides | apps/web/src/lib/governance-actions.ts:333-431 | the word approve makes the version ACTIVE and the approval APPROVED, the word reject makes the approval REJECTED and leaves the version; who reviewed and the note are those of the input |
| GovernanceLog.RegisterAcceptedIff | apps/web/src/lib/governance-actions.ts:167-275 | exactly when a registration is accepted; it leaves a DRAFT and a PENDING approval with the input's texts, as its receipt says, under a strategy created exactly if none has the name |
| GovernanceLog.RetireAcceptedIff | apps/web/src/lib/governance-actions.ts:446-475 | exactly when a retirement is accepted, and all that it changes |
| GovernanceActors.VersionHasRegistration | apps/web/src/lib/governance-actions.ts:229-254 | on every serial run each version and its approval are what one registration asked for: its trimmed actor is the creator and the requester, its rationale, name and content are kept |
| GovernanceActors.ActiveHasFourEyes | apps/web/src/lib/governance-actions.ts:326-331 | on every serial run an ACTIVE version was registered by one operator and approved by a later review of another |
| GovernanceCommits.SerialIsReadCommit | apps/web/src/lib/governance-actions.ts:204-475 | a serial action is its reads and its commit at once, refused by its reads or by nothing |
| GovernanceCommits.CommitKeepsTables | apps/web/src/lib/governance-actions.ts:205-475 | a commit, however stale its read, keeps numbers 1..n, one ACTIVE version per strategy, the second pair of eyes and the fold of the log |
| GovernanceCommits.CommitOfClosed | apps/web/src/lib/governance-actions.ts:403-403 | for any waiting action and any shut version: its commit activates the version exactly when it is an approval of it that had read every ACTIVE sibling |
| GovernanceCommits.StaleChainsIff | apps/web/src/lib/governance-actions.ts:345-475 | a commit keeps the before of every audit row right exactly when the statuses that it had read still hold |
| GovernanceCommits.CommitApproves | apps/web/src/lib/governance-actions.ts:333-345 | a commit leaves every ACTIVE version its APPROVED approval exactly unless it rejects a version that is ACTIVE by then |
| GovernanceRaces.InterleavingsAreSafe | apps/web/src/lib/governance-actions.ts:378-403 | no interleaving of stale reads, their commits and serial actions yields two ACTIVE versions of a strategy |
| GovernanceCommits.SecondApprovalLoses | apps/web/src/lib/governance-actions.ts:57-67 | of two approvals read from the same tables the second is refused once the first is written |
| GovernanceRaces.InterleavingsAreKept | apps/web/src/lib/governance-actions.ts:204-475 | every interleaving, with registrations, reviews and retirements all read and written apart, keeps version numbers 1..n, one ACTIVE version per strategy, no version ACTIVE without a review by someone other than its requester, and audit rows that fold to every stored status |
| GovernanceCommits.CommitsIff | apps/web/src/lib/governance-actions.ts:378-424 | a stale review commits exactly when it rejects or had read every sibling that is ACTIVE by then |
| GovernanceCommits.CommitEffect | apps/web/src/lib/governance-actions.ts:333-431 | what a commit writes to every version and approval, however stale its read |
| GovernanceActors.VersionWasRegistered | apps/web/src/lib/governance-actions.ts:229-254 | over any interleaving each version and its approval are what one earlier registration asked for, its trimmed actor the creator and requester |
| GovernanceActors.ActiveHasTwoActors | apps/web/src/lib/governance-actions.ts:326-331 | over any interleaving the actor whose review made a version ACTIVE differs from the actor whose registration created it, and came later |
| GovernanceLog.RowWasWritten | apps/web/src/lib/governance-actions.ts:213-431 | over any interleaving every audit row names the operator, the reason and the request of an action before it |
| GovernanceRaces.RevivalIff | apps/web/src/lib/governance-actions.ts:403-403 | a paused, retired or rejected version becomes ACTIVE at a step exactly when that step commits an approval of it that had read every ACTIVE sibling |
| GovernanceRaces.FinalityIff | apps/web/src/lib/governance-actions.ts:311-342 | over any interleaving a version that was shut is never ACTIVE again exactly as long as no such commit occurs |
| GovernanceRaces.ChainIff | apps/web/src/lib/governance-actions.ts:345-424 | over any interleaving the before of every audit row is the status folded so far exactly if every review and retirement that committed still found the statuses it had read |
| GovernanceRaces.ApprovedIff | apps/web/src/lib/governance-actions.ts:333-345 | over any interleaving: in every world up to n every ACTIVE version has an APPROVED approval, exactly as long as no rejection has committed against a version that was ACTIVE by then |
| GovernanceCommits.StaleRejectionOverwrites | apps/web/src/lib/governance-actions.ts:333-345 | two reviews that read one approval pending: the rejection overwrites the approval and leaves the version ACTIVE |
| GovernanceCommits.StaleApprovalRevives | apps/web/src/lib/governance-actions.ts:403-403 | an approval that read its version before it was retired activates it afterwards |
| Alerts.EvaluateAlertRules | apps/web/src/lib/ops-alerts.ts:49-96 | the rules that fire are exactly those whose condition holds, each once, in the order of evaluation, with its severity and the lag of its stream |
| Alerts.OneStream | apps/web/src/lib/ops-alerts.ts:71-93 | a single stream raises its one rule exactly when it is observable and silent or more than 60, 60, 120 or 300 seconds behind |
| Alerts.OneComponent | apps/web/src/lib/ops-alerts.ts:52-66 | a single component raises its one critical rule exactly when it is failing |
| Alerts.AlertTable.Reconcile | apps/web/src/lib/ops-alerts.ts:144-186 | the loops bump or create an ACTIVE row per firing rule and resolve the silent ones |
| AlertHistory.Watch | apps/web/src/lib/ops-alerts.ts:138-186 | polls made one by one leave the table object in the state the history theorems speak of |
| AlertHistory.OnePoll | apps/web/src/lib/ops-alerts.ts:138-186 | what one poll does to the rows of one rule |
| AlertHistory.TableEncodesHistory | apps/web/src/lib/ops-alerts.ts:138-186 | after any polls the rows of a rule are its maximal firing stretches in order, with their ends, and the next poll as resolution |
| Stretches.StretchesEncode | apps/web/src/lib/ops-alerts.ts:138-186 | the stretches are maximal, in order, and leave out no firing poll |
| Portfolio.Sort | packages/portfolio-intelligence/src/facts.ts:145-147 | the positions sorted by symbol and signal id, none lost or invented, equals in the order they came |
| PortfolioFacts.StateIff | packages/portfolio-intelligence/src/facts.ts:70-104 | an item is OPEN exactly when it has a direction, is actionable and tradable, nothing blocks it and its data are fresh; the other three states likewise |
| PortfolioFacts.PositionsMirror | packages/portfolio-intelligence/src/facts.ts:106-147 | the positions are the items, field by field and one for one, by symbol and then signal id |
| PortfolioFacts.SelectionsAre | packages/portfolio-intelligence/src/facts.ts:149-150 | which positions are listed as open and as directional |
| PortfolioFacts.CountsAre | packages/portfolio-intelligence/src/facts.ts:152-157 | the state counts are the numbers of items in each state and add up to the total; ready ones are open ones in the READY band |
| PortfolioFacts.QualityCountsAre | packages/portfolio-intelligence/src/facts.ts:158-161 | the numbers of directional items that are out of date and of items of low data quality |
| PortfolioFacts.EquityIs | packages/portfolio-intelligence/src/facts.ts:163-168 | the equity is the highest positive one that an item assumes, or the default if none does |
| PortfolioFacts.ExposureIs | packages/portfolio-intelligence/src/facts.ts:170-174 | long and short exposure are the notionals of the open items on each side, gross their sum, net the sum of the signed notionals, and risk the sum of the losses |
| PortfolioFacts.CapitalCompletes | packages/portfolio-intelligence/src/facts.ts:176-177 | capital available never goes below zero and completes the equity |
| PortfolioFacts.BudgetIs | packages/portfolio-intelligence/src/facts.ts:182-182 | the risk budget is the set percentage of the equity to the cent |
| PortfolioFacts.RiskCompletes | packages/portfolio-intelligence/src/facts.ts:181-183 | risk remaining never goes below zero and completes the budget |
| PortfolioFacts.SharesAre | packages/portfolio-intelligence/src/facts.ts:178-184 | capital and risk in use as percentages of the equity, to the nearest hundredth |
| Portfolio.FactsIgnoreOrder | packages/portfolio-intelligence/src/facts.ts:131-215 | permuting the items leaves every derived fact unchanged if any two with one symbol and signal id give equal positions |
| Portfolio.OrderIndependentIff | packages/portfolio-intelligence/src/facts.ts:144-147 | for any items: all orders give the same facts exactly when any two items with one symbol and signal id give equal positions |
| PortfolioViews.NotionalsBySymbol | packages/portfolio-intelligence/src/heat.ts:27-31 | the loop holds the notional of every priced symbol; warnings.ts:22-26 is the same loop |
| PortfolioViews.ConcentrationScore | packages/portfolio-intelligence/src/heat.ts:23-38 | the two loops return the rounded Herfindahl index of the shares |
| PortfolioViews.TopSymbolSharePct | packages/portfolio-intelligence/src/warnings.ts:20-37 | the top symbol has the highest notional and, among equals, the first name, with its share of gross; none when no notional exceeds minus one dollar, and then that share |
| PortfolioViews.TopIsUnique | packages/portfolio-intelligence/src/warnings.ts:29-35 | there is one top symbol, so two loops that each find one agree |
| Exposure.Group | packages/portfolio-intelligence/src/exposure.ts:28-51 | for any key the loop holds each group's live notional, its count, and whether a source was missing |
| Exposure.AggregateBySymbol | packages/portfolio-intelligence/src/allocation.ts:36-58 | the loop holds each symbol's gross, net and risk, whether each had a source, and its best readiness |
| Exposure.BestIsFirst | packages/portfolio-intelligence/src/allocation.ts:52-55 | the best readiness of a symbol is that of its first most ready position, with the confidence of that position |
| Exposure.LargestPosition | packages/portfolio-intelligence/src/allocation.ts:112-131 | the loop finds the top symbol among those with a notional source |
| Exposure.LoopsAgree | packages/portfolio-intelligence/src/allocation.ts:36-58 | three separately written loops hold the same notional for every priced symbol |
| Exposure.GroupsShareOut | packages/portfolio-intelligence/src/exposure.ts:28-51 | for every key the group notionals sum to gross exposure and the counts to the positions |
| ExposureFacts.GroupIs | packages/portfolio-intelligence/src/exposure.ts:28-40 | a group holds the notionals of its open positions, counts all of its positions, and is marked exactly when an open one has no notional |
| ExposureFacts.AggregateIs | packages/portfolio-intelligence/src/allocation.ts:36-58 | gross, net and risk of a symbol as sums over its positions, net with the short ones taken away |
| ExposureFacts.AggregatesAddUp | packages/portfolio-intelligence/src/allocation.ts:36-58 | the aggregates of the symbols add up to gross and net exposure and to the risk in use |
| ExposureFacts.BestIff | packages/portfolio-intelligence/src/allocation.ts:52-55 | exactly when a symbol has no best position |
| Exposure.SymbolsAddUp | packages/portfolio-intelligence/src/facts.ts:171-174 | the symbol notionals add up to the gross exposure |
| Exposure.TopIsFound | packages/portfolio-intelligence/src/warnings.ts:20-37 | with positive gross exposure there is a symbol that is the top one, and its notional is positive |
| Exposure.ConcentrationBounds | packages/portfolio-intelligence/src/heat.ts:23-38 | the index of n symbols lies in [1/n, 1], is 1/n exactly when all are equal, and lies between the square of the top share and that share |
| ExposureFacts.ScoreIs | packages/portfolio-intelligence/src/heat.ts:23-38 | the score is the sum of the squared shares in percent, at most 100, to the nearest hundredth; 0 without exposure |
| Grouping.TotalsAddUp | packages/portfolio-intelligence/src/exposure.ts:28-40 | accumulating by any key loses and doubles nothing |
| Concentration.SpreadOut | packages/portfolio-intelligence/src/heat.ts:32-36 | Cauchy-Schwarz for the notionals, with equality exactly when all are the same |
| Permissions.EvaluateTradingPermission | packages/control/src/permission.ts:44-145 | ALLOWED exactly when every check holds and the runtime state, if given, is HEALTHY; blockedBy lists the failed checks |
| Permissions.BlocksIff | packages/control/src/permission.ts:48-131 | each check blocks exactly when what it looks at failed; a stream never seen blocks, an execution path that never ran does not |
| Gate.LevelsInOrder | packages/trading-decision/src/entry-stop-target.ts:67-91 | rounding keeps stop, entry and the targets in order, mirrored for SHORT, for any increasing multipliers |
| Served.LevelsAre | packages/trading-decision/src/entry-stop-target.ts:67-91 | entry, stop and targets are, to the cent, the mark and their multiples of the range away from it, the stop against the direction |
| Served.DefaultLevelsAre | packages/trading-decision/src/types.ts:137-146 | by default the stop lies one and a half ranges away and the targets once, twice and three times as far |
| Served.RewardIs | packages/trading-decision/src/entry-stop-target.ts:67-91 | there is a ratio of reward to risk exactly with the levels, and it is that of the multipliers to the hundredth, or 0 without a stop distance |
| Served.SizedIff | packages/trading-decision/src/sizing.ts:18-52 | exactly when there is a size and a notional |
| Served.SizingIs | packages/trading-decision/src/sizing.ts:28-52 | one quantity loses the risk budget over the stop distance; the size is that quantity to eight decimals and the notional its worth at the entry to the cent |
| Served.IntentServes | packages/execution-core/src/intent.ts:26-106 | the intent carries the decision's levels, targets in order, size and identity |
| Served.ArmedOrdersAreServed | packages/execution-core/src/plan.ts:44-85 | if an execution ever arms, on that run its entry order is at the mark to the cent, stop and targets in order around it, and protective orders on the other side |
| Served.DefaultGateIff | packages/trading-plan/src/facts.ts:140-160 | under the defaults the gate asks for 75 percent confidence and data of at most three minutes |
| Gate.ActionableIff | packages/trading-decision/src/status.ts:76-89 | exactly when a decision is ACTIONABLE |
| Verdicts.ControlIs | packages/trading-decision/src/status.ts:22-45 | exactly when control and execution are blocked, ready, allowed or unknown |
| Verdicts.RiskIs | packages/trading-decision/src/status.ts:47-74 | exactly when risk is blocked, approved, unknown or of no concern |
| Verdicts.OverallIs | packages/trading-decision/src/status.ts:76-89 | exactly when a decision is each of the five: no trade, blocked, waiting, incomplete, actionable |
| Verdicts.ActionIs | packages/trading-plan/src/summary.ts:19-27 | exactly when each of the seven actions is due, by direction, gates, freshness, confidence and reward |
| Verdicts.IntentActs | packages/execution-core/src/intent.ts:85-91 | the action, canTrade and shouldTrade of the intent by the inputs of the decision |
| Gate.SubmittableIff | packages/execution-core/src/validation.ts:36-46 | exactly which inputs yield an intent that passes the submit gate |
| Gate.ArmedOnlyIfSubmittable | packages/execution-core/src/state.ts:251-292 | on no run does an execution reach READY or later unless its intent passed the submit gate |
| Gate.ArmedMeansEverythingHeld | packages/execution-core/src/state.ts:251-292 | if an execution ever arms, the signal was directional, permission held, the runtime was HEALTHY, no kill switch, risk not blocked, data fresh, levels in order |
| Gate.StaleAllowanceSurvivesFailure | packages/trading-decision/src/status.ts:85-88 | the statuses alone do not give HEALTHY: an allowance about another state passes a failed runtime |
| Gate.HealthyIff | packages/control/src/permission.ts:44-145 | for a permission evaluated for one state and a runtime in another: an open gate always means a HEALTHY runtime exactly when the evaluated state is given and not HEALTHY or the runtime is not STOPPED, FAILED or PROTECTED |
| Gate.StrongIff | packages/trading-plan/src/facts.ts:154-155 | for any multipliers: an action is a strong one exactly when the decision is ACTIONABLE, nothing blocks it, confidence suffices and the rounded ratio of the multipliers reaches the bound |
| Gate.NeverStrongByDefault | packages/trading-plan/src/facts.ts:154-155 | so under the default multipliers, whose reward:risk is 1, no action is ever a strong one |
| Gate.PlannedLossMeetsBudget | packages/trading-plan/src/facts.ts:138-139 | the plan's maximum loss is equity times risk fraction up to 0.5e-8 times the stop distance plus 0.005 |

## Left out

- Floating point: numbers are exact, rounding is the decimal rounding of `toFixed` (section 21.1.3.3
  of ECMA-262); non-finite inputs are absent values.
- Sockets, timeouts, HTTP, Prisma queries, Redis and its Lua script: only the bytes, rows and clock
  values they deliver appear.
- Ids: plan, order, fill and event ids are structured values instead of strings, so the check for
  missing order ids and timestamps in `planIntegrityReason` cannot fail and is not modelled.
- Human-readable texts: messages, notes and headlines are constructors or absent; the generated
  reasons of pausing and activation audit rows are absent.
- Hashing: client keys are the client ids themselves, and ids are not cut at 256 characters. The runs
  that break or reach a bound need no longer ones: the first 2^k clients have ids of at most k
  characters (`ClientIds.NamesFit`).
- One clock reading per login attempt; between the calls of one attempt the source reads it again.
- Resp.ParseReplies: hexadecimal, fractional, exponent and padded spellings that `Number` accepts have
  no value here; RESP2 replies use none of them. A bulk length other than -1 or a natural number is
  an error, where the source would go on with a meaningless offset.
- Resp.ReadReply: the same restriction on spellings and lengths.
- Text of replies and commands is bytes; UTF-8 decoding and encoding are not modelled.
- Governance timestamps and the payload of approvals; rows other than the four tables.
- GovernanceSafety.RunsAreSound: serial actions only; what of it survives stale reads is
  `GovernanceRaces.InterleavingsAreKept`, and exactly when the rest does is stated beside it.
- The alert table's read-back query and the creation race between overlapping polls: polls are
  sequential.
- Symbols and signal ids are integers, since only their order matters.
- Display order and percentages of exposure groups and allocations, the superlatives other than the
  largest position, and the heat score beyond its concentration component.
- Scores, regime, holding time, explainability, checklists and readiness of decisions and plans; the
  readiness score is an input.
- NullExecutionAdapter, the session and health views, adapter factory selection and the control-plane
  reducer: each is true by reading one branch.
- stableStringify and everything that depends on the JSON printer.
