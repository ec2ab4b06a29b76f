# Verification of the AI inference router

This project models the router's two-phase reservation protocol in Dafny and proves what it
keeps. Requests are routed to a local or a remote backend; each first reserves money and latency
in a shared ledger, runs its backend, and then commits or rolls back, while a reaper recovers
reservations that outlive their time to live.

## How it is organised

- **Values.** `Ledger.dfy` says what each critical section of the budget manager does;
  `LatencyEstimates.dfy`, `Routing.dfy` and `Router.dfy` do the same for latency estimation, the
  routing decision and the inference endpoint. Theorems about whole runs are proved here.
- **Objects.** `BudgetManager.dfy`, `LatencyTracker.dfy`, `QueueMonitor.dfy`,
  `DecisionAgent.dfy` and `EventBus.dfy` hold the classes, which update their fields in place as
  the program does. Every method's contract equates the new state, abstracted by `Model()`, with
  the value-level function, so the theorems apply to the objects.
- **The ledger's theorems.** `LedgerInvariant.dfy` (conservation), `LedgerAnswers.dfy` (what every
  call answers in any reachable state, in plain sums and numbers), `RoutingAnswers.dfy` (the same for
  the route a request is given), `Settlement.dfy` (exactly-once settlement), `Spending.dfy` and `Overspend.dfy` (the overspend bound, that it is reached, what
  the cap is worth, and exhaustion), `Grants.dfy` (how many identical requests are granted),
  `Reaper.dfy` (the sweep and the time to recover an orphan), `Drift.dfy` (rounding),
  `Verdict.dfy` (the metrics and the load generator's verdict on them).
- **The endpoint.** `Router.dfy` is a step machine: any number of handlers, the reaper, the
  clock, cancellations and resets, arbitrarily interleaved. `RouterInvariant.dfy` and
  `RouterPreservation.dfy` prove its invariant. What follows: `RouterTheorems.dfy` (no leak, reset
  isolation), `RouterRecovery.dfy` (which reservations can still be recovered),
  `RouterCancellation.dfy` (what a cancellation leaves behind), `RouterLedgers.dfy` (the ledger's
  theorems, carried over), `RouterVerdict.dfy` (the verdict on what the metrics report),
  `RouterAnswers.dfy` (what reservations, commits and sweeps answer the endpoint's own steps),
  `RouterProgress.dfy` and `RouterRejection.dfy` (each handler by itself), `RouterProgram.dfy` (the
  `inference` function as a program, which every handler follows), `RouterBilling.dfy` (who pays) and
  `RouterRecords.dfy` (what the latency estimates learn). `RouterSolo.dfy` builds the runs of a single handler that serve as witnesses.
- **The locks.** `LedgerWrites.dfy` splits each critical section of the ledger into its tests and
  its single assignments. `Locks.dfy` is the endpoint at that grain: a task takes a lock, tests,
  writes one field at a time and lets go, and other tasks, lock-free reads included, run in
  between. `LockSections.dfy` and `LockRefinement.dfy` prove that mutual exclusion makes this
  amount to the step machine; `LockTheorems.dfy` carries the endpoint's theorems over, and
  `LockProgress.dfy` proves that it cannot deadlock and that handlers end.

Money and milliseconds are exact reals, except in `Drift.dfy`. Reservation identifiers are drawn
from a counter instead of `uuid4`. The tolerances are the program's: 1e-12 at admission, 1e-9 at
commit. Backends are nondeterministic: they return any cost and latency, or raise.

## Where the code differs from its documentation

The model follows the code.

- `app/main.py:15-20` promises a rollback on every exception, `CancelledError` included. The
  handler catches `Exception` (`app/main.py:522`), which does not include it. A reservation stays
  reserved after its handler is cancelled if and only if its state was pending when the cancellation
  arrived and no later sweep finds it expired (`RouterCancellation.CancellationLeaves`), and nothing
  else leaves one behind (`LeftBehindExactly`).
- A reset stops the old manager's reaper (`app/main.py:236-238`). A pending reservation can be
  settled in some continuation if and only if its manager is the current one, or its own handler is
  live and not on its way out of a cancellation (`RouterRecovery.RecoveryExact`). So what a cancelled
  handler left with the old manager is never recovered, even while other requests still use that
  manager (`ResetStrandsOrphan`).
- The budget is described as a hard cap (`app/config.py:13`). With at most n simultaneous
  reservations, each overrun by at most eps when it is committed, spending stays within a slack of
  the cap if and only if the slack is at least n * eps + 1e-12 (`Overspend.CapWorth`); the manager
  tolerates eps up to 1e-9, so without any slack the cap is not kept even by a single reservation.
- The load generator's verdict allows 1e-9. Every quiescent state of such runs passes it if and only
  if n * eps + 1e-12 <= 1e-9 (`VerdictExact`), so accepted commits can fail it, one of them
  included (`VerdictCanFail`). At the endpoint that condition is enough as well
  (`RouterVerdicts.RestingVerdict`), and a single remote request shows that it is needed
  (`EndpointVerdictExact`).
- `app/latency_tracker.py:12-13` says the estimate relaxes within one window after a spike. The
  window does; the average keeps a share of the spike that shrinks geometrically, and exactly that
  share when the records that follow are steady (`SpikeDecays`, `SpikeDecayReached`). After a window
  of records of at most m the estimate is sure to be back at m if and only if the smoothing factor
  is 1 or the spike had left the average at m or below (`RelaxesExactly`).
- With a smoothing factor of 1, which `app/config.py:51` allows, one observation of 0 ms makes an
  estimate 0 (`PositiveIffSmoothing`). Some request is then turned away by an invalid reservation
  call, in some run, if and only if the factor is 1 and a fresh manager grants a request at the seed
  estimates (`RejectionExact`).
- `README.md:27` lists the liquid budget among the advisory reads. Routing does not read it.

## Model

| member | source | states |
|---|---|---|
| `BudgetManagers.BudgetManager.Create` | app/budget_manager.py:116-142 | a non-positive budget is refused; otherwise the ledger starts empty |
| `BudgetManagers.BudgetManager.TryReserve` | app/budget_manager.py:167-211 | the object's new state and reply are the ledger's: invalid arguments, refusal, or one new pending reservation at the end of the dictionary |
| `BudgetManagers.BudgetManager.Commit` | app/budget_manager.py:215-268 | the object's new state and reply are the ledger's on all four exits: not active, cost exceeded, latency cap breached, settled |
| `BudgetManagers.BudgetManager.Rollback` | app/budget_manager.py:272-291 | the object's new state and reply are the ledger's: the funds return, or the reservation is not active and nothing changes |
| `BudgetManagers.BudgetManager.ExpireStaleReservations` | app/budget_manager.py:327-357 | the in-place loop over a copy of the dictionary computes the ledger's sweep, for any clock readings, and returns its identifiers |
| `BudgetManagers.BudgetManager.Snapshot` | app/budget_manager.py:295-310 | the reported reserved totals are the true sums over active reservations |
| `LedgerInvariant.Conservation` | app/budget_manager.py:199-345 | in every run both reserved totals equal the sums over active reservations, both spent totals the sums of committed actuals, and the issued reservations split exactly into active, committed and rolled back |
| `LedgerInvariant.SettlementPathsAgree` | app/budget_manager.py:231-290 | the clamped and unclamped settlement paths lower the reserved totals by exactly the reservation's amounts and leave the same reservations active |
| `LedgerAnswers.ReserveAnswer` | app/budget_manager.py:167-211 | in every state a run can reach a reservation call is invalid if an amount is negative or both are zero, and otherwise granted if and only if, on each resource, the sum of committed actuals, the sum over active reservations and what is asked come to at most the cap plus 1e-12; a grant adds one reservation, created now with the manager's time to live |
| `LedgerAnswers.CommitAnswer` | app/budget_manager.py:215-268 | in every reachable state a commit is not active if and only if the reservation is not pending; else it succeeds if and only if the actual cost is at most the reserved one plus 1e-9 and committed latencies plus this one at most the cap plus 1e-9, the cost being tested first; only a success is charged |
| `LedgerAnswers.RollbackAnswer` | app/budget_manager.py:272-291 | in every reachable state a rollback succeeds if and only if the reservation is pending, and then only that one leaves, rolled back and uncharged |
| `LedgerAnswers.SweepAnswer` | app/budget_manager.py:327-357 | in every reachable state a sweep keeps an active reservation if and only if its own clock reading is at most created_at plus the time to live, and reports and rolls back exactly the others |
| `Settlement.ExactlyOnce` | app/budget_manager.py:221-337 | in any order of commits, rollbacks and sweeps a pending reservation is settled by exactly one of them if at all, and its settled state is final |
| `Settlement.LateAttemptsChangeNothing` | app/budget_manager.py:221-281 | after settlement every later commit or rollback raises, every sweep skips it, and the ledger is unchanged |
| `Spending.OverspendBounded` | app/budget_manager.py:195-267 | in every reachable state spent plus reserved exceeds the cap by at most 1e-12 plus 1e-9 for each of the peak simultaneous reservations already settled; spent latency by at most 1e-9 |
| `Spending.OverspendWithin` | app/budget_manager.py:195-267 | the same for runs whose accepted commits overrun by at most eps: 1e-12 plus eps for each of the peak reservations already settled |
| `Overspend.OverspendReached` | app/budget_manager.py:231-267 | for every peak n and every tolerated overrun eps a run whose commits are all accepted overspends by exactly 1e-12 plus n times eps, which is the bound |
| `Overspend.CapWorth` | app/budget_manager.py:195-267 | runs with at most n simultaneous reservations and overruns of at most eps stay within a slack of the cap if and only if n times eps plus 1e-12 is at most the slack |
| `Spending.ExhaustionIsPermanent` | app/budget_manager.py:184-197 | with non-negative actuals, a request can be granted in some continuation if and only if what is unspent covers it on both resources |
| `Grants.ExactGrantCount` | app/budget_manager.py:183-211 | N identical calls on a fresh manager are granted min(N, whole shares in the money cap, whole shares in the latency cap) times |
| `Reaping.SweepExact` | app/budget_manager.py:327-357 | the sweep removes exactly what had expired at its own reading, reports it in insertion order and lowers both totals by its sums; with a non-decreasing clock, all that expired by the first reading goes and all unexpired at the last stays |
| `Reaping.OrphanRecoveredInTime` | app/budget_manager.py:314-325 | with sweeps at most an interval apart, an active reservation is gone for good by created_at + ttl + interval |
| `Drift.DriftIsLinear` | app/budget_manager.py:199-344 | if each addition or subtraction on a reserved total is off by at most delta, n of them drift by at most n times delta, because the clamp never moves the total away from a non-negative sum |
| `Drift.DriftReached` | app/budget_manager.py:199-201 | grants that all round by delta drift by exactly n times delta |
| `Drift.TraceIsFaithful` | app/budget_manager.py:199-344 | the updates the drift bound speaks of are those of the ledger's run: replayed without rounding they give its totals and active entries |
| `Drift.RunDrift` | app/budget_manager.py:199-344 | every run of the ledger, its n updates each rounded by at most delta, ends with the same active entries and each reserved total within n times delta of the exact one |
| `Verdicts.VerdictMeaning` | load_generator.py:91-122 | in every reachable state the verdict passes if and only if nothing is outstanding and the money spent is within 1e-9 of the cap |
| `Verdicts.WellBehavedNeverRefused` | app/budget_manager.py:230-268 | if every commit stays within its reservation, no commit of an active reservation fails, both totals stay within their caps by 1e-12, and every quiescent state passes the verdict |
| `Verdicts.VerdictExact` | load_generator.py:91-122 | with at most n simultaneous reservations and overruns of at most eps, every quiescent state passes the verdict if and only if n times eps plus 1e-12 is at most 1e-9 |
| `Verdicts.VerdictCanFail` | load_generator.py:99-101 | for every n a run of n accepted commits, a single one included, ends quiescent and fails the verdict |
| `LatencyTrackers.LatencyTracker.Record` | app/latency_tracker.py:63-80 | recording updates one backend's average and bounded window and nothing else |
| `LatencyTrackers.LatencyTracker.GetEstimate` | app/latency_tracker.py:82-95 | the estimate is the tracker's and at least every observation in the window |
| `LatencyTrackers.LatencyTracker.Reset` | app/latency_tracker.py:101-109 | the averages return to their seeds and every window is emptied |
| `LatencyEstimates.WindowIsLast` | app/latency_tracker.py:57-80 | the window is always the last min(n, size) observations |
| `LatencyEstimates.ClosedForm` | app/latency_tracker.py:74-77 | the average equals its closed form with geometric weights |
| `LatencyEstimates.HistorySplits` | app/latency_tracker.py:63-109 | over any history of both backends and resets, each backend's series is that of its own observations since the last reset, from its own seed |
| `LatencyEstimates.EstimateExact` | app/latency_tracker.py:63-109 | after any history the estimate is the largest of the average, in closed form, and of the backend's last observations, size of them |
| `LatencyEstimates.SpikeHolds` | app/latency_tracker.py:82-95 | the estimate stays at or above a spike for the next size - 1 records |
| `LatencyEstimates.SpikeDecays` | app/latency_tracker.py:82-95 | after k >= size further records of at most M the estimate is at most M + (1 - alpha)^k max(0, E - M), with E the average just after the spike |
| `LatencyEstimates.SpikeDecayReached` | app/latency_tracker.py:82-95 | k >= size further records of exactly M leave the estimate at M + (1 - alpha)^k (E - M), when E is at least M |
| `LatencyEstimates.RelaxesExactly` | app/latency_tracker.py:82-95 | k >= size further records of at most M are sure to bring the estimate to M or below if and only if alpha is 1 or E is at most M |
| `LatencyEstimates.PositiveIffSmoothing` | app/latency_tracker.py:63-109 | over every history of non-negative observations and resets all estimates stay positive if and only if alpha < 1 |
| `LatencyEstimates.PositiveUsesPositiveEstimates` | app/latency_tracker.py:63-109 | over positive observations they stay positive for alpha = 1 too |
| `LatencyEstimates.TornReadBetween` | app/latency_tracker.py:82-95 | a lock-free read between the two writes of a record lies between the estimates before and after it |
| `QueueMonitors.QueueMonitor.Create` | app/queue_monitor.py:29-36 | a non-positive capacity is refused; otherwise all slots are free |
| `QueueMonitors.QueueMonitor.IsAtCapacity` | app/queue_monitor.py:49-51 | full exactly when the semaphore is at zero |
| `QueueMonitors.QueueMonitor.Acquire` | app/queue_monitor.py:55-66 | a slot is acquired exactly when the semaphore has a permit, so taking it under the lock never waits |
| `QueueMonitors.QueueMonitor.Release` | app/queue_monitor.py:68-73 | a held slot returns to both counter and semaphore; releasing below zero changes nothing |
| `QueueMonitors.SlotsAgree` | app/queue_monitor.py:55-73 | in any order of acquires and releases the counter and the semaphore agree |
| `QueueMonitors.SlotsCounted` | app/queue_monitor.py:55-73 | in any order of calls the counter is the number of slots handed out and not returned, and at most the capacity |
| `DecisionAgents.DecisionAgent.Look` | app/decision_agent.py:82-91 | the advisory reads give the snapshot of the three managers |
| `DecisionAgents.DecisionAgent.Route` | app/decision_agent.py:70-107 | the request's decision and the ledger after it are those of its tier, and it leaves with a new reservation object or with none |
| `DecisionAgents.DecisionAgent.RouteFast` | app/decision_agent.py:111-191 | for any snapshot, however old, the sequence of reservation calls computes the fast tier's decision, the degraded attempt with a fresh estimate |
| `DecisionAgents.DecisionAgent.RouteQuality` | app/decision_agent.py:195-273 | for any snapshot, however old, the sequence of reservation calls computes the quality tier's decision, the degraded attempt with a fresh estimate |
| `Routing.AttemptsAddUp` | app/decision_agent.py:111-273 | the decision taken one attempt at a time, undisturbed, is the one the agent writes, for both tiers |
| `Routing.AttemptJustified` | app/decision_agent.py:111-273 | whatever happened between attempts, each is warranted by the snapshot, at most two are made, and a reservation is created exactly by the one that decides on a route |
| `RoutingAnswers.LookReads` | app/decision_agent.py:82-91 | what routing reads: slots in use against the capacity, the local estimate times the queue depth plus one, the remote estimate |
| `RoutingAnswers.RouteAnswer` | app/decision_agent.py:82-273 | in every reachable state the exact condition for each route of each tier, in plain comparisons: fast is local if and only if a slot is free, local is within the SLA and affordable; quality is remote if and only if remote is within the SLA and affordable; and so on down to failing fast; with what is held |
| `Routing.RouteGuarantees` | app/decision_agent.py:70-273 | a decision creates exactly one active reservation or fails fast and leaves the ledger unchanged; each route is warranted, holds the right amounts, and degraded local means remote was over the SLA or refused |
| `Routing.TierComparison` | app/decision_agent.py:123-273 | in the same state quality failing fast implies fast does; fast alone fails under an exact condition, which forces the local estimate above the remote one |
| `EventBuses.EventBus.Subscribe` | app/event_bus.py:28-35 | a new empty queue joins the list |
| `EventBuses.EventBus.Unsubscribe` | app/event_bus.py:38-46 | exactly the given queue leaves the list; a queue not in it changes nothing |
| `EventBuses.EventBus.Publish` | app/event_bus.py:49-68 | every subscriber's queue gets the event, dropping its oldest when full, and the put is never refused |
| `EventBuses.DropOldestFidelity` | app/event_bus.py:28-68 | each queue is the last part, at most 64 long, of what was published; events are taken in publish order at most once; one is lost if and only if it was not taken before 64 more were published |
| `RouterPreservation.ReachableInv` | app/main.py:361-564 | every interleaving keeps conservation, the agreement of slots with the handlers holding them, an owner for every active reservation, and the settled state each phase promises |
| `RouterCancellation.CancellationLeaves` | app/main.py:471-528 | in every run a reservation stays reserved after its handler is cancelled if and only if its state was pending when the cancellation arrived and no later sweep of its manager finds it expired |
| `RouterCancellation.LeftBehindExactly` | app/main.py:424-528 | once no handler is live, a reservation is still active if and only if some step cancelled its handler while it was pending and no sweep since has found it expired |
| `RouterTheorems.NoLeak` | app/main.py:384-528 | in every run, once no handler is live and a sweep has followed every orphan's time to live, no reservation is active, both reserved totals are zero and every slot is free |
| `RouterTheorems.SweepRecovers` | app/budget_manager.py:327-357 | a sweep started after every active reservation's time to live recovers them all |
| `RouterTheorems.RecoveredInTime` | app/budget_manager.py:314-325 | at the endpoint, whenever the current manager's last sweep began at most an interval ago, none of its reservations has outlived created_at + ttl + interval |
| `RouterTheorems.ResetIsolation` | app/main.py:371-375 | whatever resets follow, a handler reads and writes only the managers it started with, all of one set |
| `RouterRecovery.RecoveryExact` | app/main.py:235-254 | a pending reservation can be settled in some continuation if and only if its manager is the current one, or its own handler is live and not on its way out of a cancellation |
| `RouterRecovery.AbandonedForever` | app/main.py:235-254 | once a replaced set of managers has no live handler, its ledger, slots and estimates never change again |
| `RouterRecovery.ResetStrandsOrphan` | app/main.py:235-254 | a concrete run, for every configuration that can grant it, after which a reservation stays pending in every continuation although its manager still has a live handler |
| `RouterLedgers.EveryLedgerIsARun` | app/main.py:384-528 | the endpoint drives each ledger, from its creation on, through exactly the operations its steps perform, so the ledger theorems hold of it |
| `RouterLedgers.PeakIsSeen` | app/main.py:384-528 | the peak of that run of operations is the largest number of active reservations the endpoint's own run shows |
| `RouterLedgers.EndpointOverspend` | app/main.py:384-528 | every manager ever created, resets included, obeys the overspend bound for the peak of active reservations seen in this very run |
| `RouterAnswers.AttemptAnswered` | app/budget_manager.py:167-211 | in every run of the endpoint a routing attempt is granted if and only if it is valid and committed plus reserved plus asked fit both caps of its own manager plus 1e-12; the handler then holds exactly that, made now |
| `RouterAnswers.CommitAnswered` | app/budget_manager.py:215-268 | in every run a handler's commit succeeds if and only if its reservation is pending and cost and latency are within the 1e-9 tolerances, and is charged then only |
| `RouterAnswers.SweepAnswered` | app/budget_manager.py:327-357 | in every run the reaper settles a pending reservation if and only if it is the current manager's and its reading is later than created_at plus the time to live |
| `RouterAnswers.InTimeIsKept` | app/budget_manager.py:81-83 | a handler that comes to commit by created_at plus the time to live finds its reservation pending, whatever sweeps, resets and other handlers did |
| `RouterVerdicts.EndpointNeverRefused` | app/main.py:424-528 | with backends within their reservations no commit of an active reservation is refused at the endpoint, and both totals stay within their caps by 1e-12 |
| `RouterVerdicts.RestingVerdict` | app/main.py:172-194 | whatever latencies are reported, every set of managers ever created passes the verdict at rest if its peak times the largest overrun plus 1e-12 is at most 1e-9 |
| `RouterVerdicts.QuiescentVerdict` | app/main.py:172-194 | the same for what the metrics endpoint reports of the current managers, after any number of resets; without overruns whatever the peak |
| `RouterVerdicts.EndpointVerdictExact` | load_generator.py:91-122 | where one remote request's cost uses the admission tolerance, managers that never held two reservations pass at rest in every run if and only if the overrun plus 1e-12 is at most 1e-9 |
| `RouterBilling.FailuresSpendNothing` | app/main.py:471-528 | in every run a request answered 503 or 500 has spent nothing: its reservation, if any, was rolled back and never committed |
| `RouterBilling.AnswersArePaid` | app/main.py:424-564 | in every run an answered request was committed exactly once, at what its backend charges, or fell back to local after its reservation was rolled back |
| `RouterBilling.CommitsAreHandlers` | app/budget_manager.py:258-267 | each commit on each ledger is for exactly one handler, at what that handler's backend charges |
| `RouterRecords.TrackersLearnExactly` | app/main.py:530-534 | in every run each tracker, fresh ones after a reset included, is what its seeds become by what its own handlers measured, in recording order: for remote if the handler's route is remote, else for local |
| `RouterRecords.EndpointEstimates` | app/latency_tracker.py:63-95 | so each estimate the endpoint uses is the largest of the average and the last observations of exactly those recordings |
| `RouterRecords.RecordedOnce` | app/main.py:530-534 | in every run a request records at most once, and exactly once if it is answered |
| `RouterRecords.ResultIsTheAnswer` | app/main.py:424-511 | in every run what a request is charged and records is what its backend answered: the latency always, the cost on the remote route only |
| `RouterProgram.HandlersFollowTheProgram` | app/main.py:361-564 | whatever runs in between, an uncancelled request gets the response that the try statement with its except clauses, written as a program, gives for what its own calls returned |
| `RouterProgram.HandlersAreArrivals` | app/main.py:371-375 | each handler is one arrival, with its tier and SLA, and uses the managers current then |
| `RouterProgress.DecisionWarranted` | app/decision_agent.py:82-273 | under any interference between a handler's reads and its attempts, its decision is warranted, comparison by comparison, by what it read of its own managers at its arrival, for its own tier and SLA; it holds the amounts it read; degraded local means remote was over the SLA or had been refused as unaffordable, and holds a local estimate read on the way |
| `RouterProgress.OneOwner` | app/main.py:384-392 | every active reservation belongs to exactly one handler |
| `RouterProgress.HandlersFinish` | app/main.py:361-564 | a handler ends after at most 18 steps of its own, backend returns included |
| `RouterProgress.NeverRejected` | app/budget_manager.py:177-180 | under the configuration's sign conditions no reservation call routing makes raises ValueError, in any run |
| `RouterRejection.RejectionExact` | app/budget_manager.py:177-180 | over runs with non-negative latencies, some request is turned away by ValueError if and only if the smoothing factor is 1 and a fresh manager grants a request at the seed estimates |
| `LedgerWrites.WritesAddUp` | app/budget_manager.py:183-291 | left alone after its tests, the single writes of each section add up to the atomic operation, with its reply |
| `LedgerWrites.UnlockedOverbooks` | app/budget_manager.py:183-201 | two sections that both test before either writes hand out the same money twice |
| `LockRefinement.LockedRunsAreAtomic` | app/budget_manager.py:183-357 | with other tasks running between any two acts of a section, handlers are always where a run of atomic steps has them, and so is every manager whose lock is free |
| `LockRefinement.LockedSweepIsAtomic` | app/budget_manager.py:332-357 | a sweep made one entry at a time, requests running in between, leaves exactly what the atomic sweep makes of the ledger it found |
| `LockRefinement.SlotsBalance` | app/queue_monitor.py:55-73 | semaphore plus counter is the capacity whenever the queue lock is free and one less exactly between the two writes, so taking the semaphore never waits |
| `LockTheorems.LockedNoLeak` | app/main.py:384-528 | with explicit locks and interleaved sections too, at rest nothing is reserved and no slot held |
| `LockTheorems.LockedOverspend` | app/budget_manager.py:183-267 | with explicit locks, whenever a manager's lock is free the overspend bound holds there for the peak its dictionary has held in this very run, mid-section states included |
| `LockTheorems.LockedBilling` | app/main.py:471-528 | with explicit locks, whenever the manager's lock is free, answered requests have paid once, and failed, refused or fallen-back ones nothing |
| `LockTheorems.LockedNeverRejected` | app/budget_manager.py:177-180 | with explicit locks, under the sign conditions no request is turned away by ValueError |
| `LockProgress.NoDeadlock` | app/queue_monitor.py:55-73 | in every run as many locks are taken as tasks are inside a section, no two in the same one; the semaphore makes nobody wait; and whoever cannot act waits for a lock whose holder can |
| `LockProgress.OwnActsBounded` | app/main.py:424-534 | however tasks are scheduled, a request performs at most 171 acts of its own from its arrival, lock handling and single writes included |

## Left out

- The `inference` function as one imperative method: it interleaves with other handlers at every
  await, so it is a step machine over values, proved to answer as the function's statements do
  (`RouterProgram.HandlersFollowTheProgram`); aliasing of its managers is their indices.
- Cancellation is allowed between any two steps of a handler, not only while it is suspended; the
  program can do no more than that.
- A cancellation that reaches a task waiting for the queue lock in `release()`: there the code
  would lose the slot. In the program no lock is ever contended, because no section suspends, so
  that wait does not occur; the model with explicit locks, where it could, delivers no cancellation
  there.
- `LatencyTracker.record`'s two writes are one act in the model with explicit locks. A read between
  them is bounded by `LatencyEstimates.TornReadBetween`, but is not what any atomic run shows.
- The sweep's removal of one entry is one act, its four writes included.
- `Reservation.commit` and `Reservation.rollback`, which only forward to the manager, and the
  reservation's back reference to it.
- `LatencyTracker.record` for a backend other than the two seeded ones, and the 500 ms default
  estimate: the router never uses them.
- `BudgetManagers.BudgetManager.Snapshot`: requires conservation of its object's state, which
  `LedgerInvariant.Conservation` gives for every state that calls can reach.
- Rounding in admission and commit comparisons, and in the spent totals: only the reserved totals'
  drift is bounded, whatever those comparisons decide.
- Backend calls, retries and cost accounting: a backend returns some cost and latency, or raises.
- The complexity classifier and configuration parsing: the tier and the constants are inputs.
- HTTP, server-sent events, the dashboard, logging, the lock trace and `route_counts`.
