# The Hull CI control plane, verified

A Dafny model of the parts of a continuous-integration runner whose correctness is hard to see by
reading: the weighted fair scheduler, the job state machine and its driver, the claim, dispatch and
delivery protocols, the step memo with its subtree digest, and the bounded output buffer. Rust code
that updates fields or arrays in place is modelled by classes and array methods, each proved equal to a
function of the state; the promises are then proved of those functions, over every input, every run or
every interleaving.

`dafny verify dfyconfig.toml` checks everything.

| files | what they model |
|---|---|
| `FairShare`, `FairQueue` | the scheduler's state and operations, as functions and as the mutable object |
| `FairLaws`, `FairCosts` | what a pass serves, what a tenant is charged, and what is learned of costs, over every run |
| `FairRuns`, `FairViews`, `FairSelect`, `FairClock`, `FairStarve` | the invariant over every run, reconciling, selection, virtual time and waiting, and a wait without end |
| `JobModel`, `Graph`, `Timeouts`, `Aggregate`, `Driver`, `JobRecord` | steps and jobs, the dependency graph, deadlines, the fold, the driver loop and the job's array of steps |
| `GraphLaws`, `StepLaws` | what advancing, sweeping, folding, a turn and the messages about a step decide, in step states and times alone |
| `Claims`, `Dispatch`, `Delivery` | the claim store and the two concurrent protocols over it |
| `ClaimLaws`, `DispatchLaws` | what the store answers over whole histories; what becomes of one grant |
| `DeliveryLaws`, `DeliveryCases` | what the delivery protocol guarantees and exactly when; runs in which the exceptions happen |
| `Segment`, `Digest`, `DigestFold`, `TreeDigest` | glob segments, the tree walk and descents, the digest's bytes, and the three joined |
| `GlobLaws` | what reading a glob keeps of its text |
| `Bytes`, `StepKey`, `MemoStore` | the key encoding, Merkle chaining of keys, the shared-capacity cache |
| `KeyLaws`, `MemoLaws` | which steps have a key and why others have none; which writes are still answered |
| `Capture` | the output buffer |
| `Orders`, `Sums`, `Wrappers` | sorting with dedup, sums over maps, `Option` and `Result` |

How the model reads the source:

- `f64` is `real`; instants and durations are counts of nanoseconds; strings compare by code point.
- A job id is fresh when minted and fixes its tenant. Ids of trees and directories are the structure
  they name; the step-key hash is any function without a collision among the steps compared.
- `Dispatch` and `Delivery` are state machines with one event per section of `Control` that holds a
  lock or calls out, for any number of scheduler passes, dispatches, drivers and senders. A run is any
  sequence of events; an event that is not possible in a state does nothing. `Dispatch` lets a pass be
  granted any steps at all, so its theorems rest on the step claim alone, not on the queue.

Where the code and its comments disagree, the model follows the code:

- A requeued step's charge is trued up like any other departure
  (`crates/hull-ci-control/src/fairshare.rs:459-462`), although the comment on `requeue` says it is kept.
- A head dearer than the idle credit is pushed forward with the clock at every selection
  (`crates/hull-ci-control/src/fairshare.rs:582-592`), so the waiting bound has that hypothesis; `FairStarve.StarvedForAnyLength`
  is a run of any length without it.
- A step's own name is part of its key, so a renamed dependency is a miss (`StepKey.RenamedNeedIsAMiss`),
  although `crates/hull-ci-control/src/memo.rs:49-51` calls it a hit.
- `segment_matches` compares literally before it looks for `*`, so it is exact for names without `*`
  and for no others (`Segment.MatcherIsExactIff`).
- A descent selects a file before a globstar, where the walk selects nothing, and selects nothing for an
  exact path to an empty directory, where the walk selects it.
- `trim` searches past the first newline of the window even when the window starts a line
  (`Capture.TrimKeepsMost`).
- `record_foreign_verdict` runs under a second lock acquisition. A duplicate admitted before an eviction
  and resumed after it stores the record anew, without the delivery claim, or over a record another such
  duplicate has stored. What then fails, and exactly when, is in `DeliveryLaws` and `DeliveryCases`: two
  senders, a stranded job, a report taken back, a verdict sent again. None of it happens to a job whose
  record was never evicted.
- Two branches of `accept` acknowledge a dispatch and write nothing: a duplicate that finds no record takes
  the job to be held elsewhere, and `journal_record` reports success when there is no record. Either can
  acknowledge a job whose creator then undoes it (`DeliveryCases.ElsewhereAckReached`,
  `DeliveryCases.BlindAckReached`).

## Model

| member | source | states |
|---|---|---|
| `FairQueue.FairQueue.constructor` | `crates/hull-ci-control/src/fairshare.rs:365-374` | a new queue is empty, at virtual time zero |
| `FairQueue.FairQueue.Admit` | `crates/hull-ci-control/src/fairshare.rs:382-392` | admitting registers the tenant and the job, or changes only the job's priority |
| `FairQueue.FairQueue.Enter` | `crates/hull-ci-control/src/fairshare.rs:396-413` | an unplaced step of a known job gets a placement and one queue entry at its estimated cost; otherwise nothing changes |
| `FairQueue.FairQueue.ObserveCost` | `crates/hull-ci-control/src/fairshare.rs:717-735` | the estimator's new state: newest samples kept, the tenant's oldest names forgotten past the bound |
| `FairShare.EstimateIsMedian` | `crates/hull-ci-control/src/fairshare.rs:704-715` | an estimate is the upper median of the recorded samples, or the default without any, never below the floor |
| `FairQueue.FairQueue.UnplaceStep` | `crates/hull-ci-control/src/fairshare.rs:433-467` | a leaving step gives up its placement; if it was started its slot, ledger and clock are settled, and what it took is learned on request |
| `FairQueue.FairQueue.RequeueStep` | `crates/hull-ci-control/src/fairshare.rs:477-480` | requeueing is leaving and then queueing again |
| `FairQueue.FairQueue.AdoptStep` | `crates/hull-ci-control/src/fairshare.rs:672-682` | a step found running takes a slot without being charged |
| `FairQueue.FairQueue.Forget` | `crates/hull-ci-control/src/fairshare.rs:483-492` | every step of the job leaves, in some order that covers all of them, and then the job is gone |
| `FairQueue.FairQueue.ReconcileView` | `crates/hull-ci-control/src/fairshare.rs:495-529` | the whole new state after an observed job is reconciled, step by step |
| `FairQueue.FairQueue.DropStaleHeadsInPlace` | `crates/hull-ci-control/src/fairshare.rs:651-667` | the in-place loop over tenants drops exactly the dead prefix of every queue |
| `FairQueue.FairQueue.PruneLedgersInPlace` | `crates/hull-ci-control/src/fairshare.rs:688-697` | the in-place loop over tenants drops exactly the expired prefix of every ledger |
| `FairQueue.FairQueue.CountInFlight` | `crates/hull-ci-control/src/fairshare.rs:684-686` | summing the tenants' running maps counts every step in a slot once |
| `FairQueue.IsAdmissible` | `crates/hull-ci-control/src/fairshare.rs:610-613` | the two loops over ledger and running map decide the two plan caps |
| `FairQueue.FairQueue.PickBest` | `crates/hull-ci-control/src/fairshare.rs:581-602` | the loop over tenants in name order returns the specified pick (least tag, see `FairSelect.BestIsLeast`) |
| `FairQueue.FairQueue.GrantHead` | `crates/hull-ci-control/src/fairshare.rs:549-571` | one grant: head popped, clock advanced to the finish tag, slot taken, charge recorded, virtual time raised |
| `FairQueue.FairQueue.Select` | `crates/hull-ci-control/src/fairshare.rs:538-574` | the selection loop yields a witnessed pass: each turn grants the pick of that moment, and it stops on a spent budget or with nothing admissible |
| `FairLaws.SelectServesOldestFirst` | `crates/hull-ci-control/src/fairshare.rs:767-774` | every step a pass grants is, of the queues it finds at that turn, the first waiting entry of its tenant's interactive queue if anything there waits, and otherwise of the background queue |
| `FairLaws.EntersItsClass` | `crates/hull-ci-control/src/fairshare.rs:396-413` | a step enters at the tail of its job's class's queue at its estimated cost, and no other queue changes |
| `FairLaws.AdmitMeans` | `crates/hull-ci-control/src/fairshare.rs:382-392` | admitting a known job changes its priority alone; a new one starts without steps; queues, clocks and costs stay |
| `FairLaws.FoundInFlight` | `crates/hull-ci-control/src/fairshare.rs:512-515` | a step found in flight without a slot takes one since it was started, or since now, with nothing charged |
| `FairLaws.TurnTags` | `crates/hull-ci-control/src/fairshare.rs:581-592` | the granted entry starts at its tenant's clock or at virtual time less the idle credit, the later of them, and finishes its cost over its tenant's weight after that |
| `FairLaws.SelectWastesNothing` | `crates/hull-ci-control/src/fairshare.rs:538-574` | a step that still waits after a pass belongs to a tenant at its slots or over its node-minutes, unless the whole fleet is taken |
| `FairLaws.LedgerIsDepartures` | `crates/hull-ci-control/src/fairshare.rs:433-463` | over every run a tenant's ledger is one entry for each started step that left, in order, with the time it held its slot, short only of a prefix already past the hour when it was pruned |
| `FairLaws.UsageIsHeldTime` | `crates/hull-ci-control/src/fairshare.rs:791-804` | so what a tenant has used is the time its departed steps held within the hour plus what its running ones have held so far, pruned or not |
| `FairLaws.GrantsAreWithinBudget` | `crates/hull-ci-control/src/fairshare.rs:610-613` | at every grant of every run the tenant was below its slots, and below its node-minutes counted in time held |
| `FairCosts.LearnsExactly` | `crates/hull-ci-control/src/fairshare.rs:717-735` | learning a run puts its time behind that name's newest fifteen, makes room for a new name past 1024 by forgetting the tenant's oldest, and changes nothing else any tenant knows |
| `FairCosts.CostsAreBounded` | `crates/hull-ci-control/src/fairshare.rs:717-735` | in every run at most 1024 names a tenant, listed once each and exactly those with samples, and at most 16 samples a name |
| `FairCosts.SamplesAreTheNewest` | `crates/hull-ci-control/src/fairshare.rs:433-467` | in every run a name's samples are the newest of the times that tenant's runs of it held their slots, of those that were to be learned |
| `FairCosts.OnlyFinishedTeach` | `crates/hull-ci-control/src/fairshare.rs:516-527` | of an observed step only one that passed or failed after holding a slot teaches, by the time to its end |
| `FairCosts.RequeueTeachesNothing` | `crates/hull-ci-control/src/fairshare.rs:477-480` | a step given back to the queue teaches nothing |
| `FairCosts.ForgetTeachesNothing` | `crates/hull-ci-control/src/fairshare.rs:483-492` | a job that is forgotten teaches nothing |
| `FairRuns.ApplyKeeps` | `crates/hull-ci-control/src/fairshare.rs:382-492` | every primitive operation keeps the representation invariant: a tenant's running map is exactly its started placements with the same starts, every waiting placement is queued, queues hold only their tenant's steps at positive cost |
| `FairRuns.RunKeeps` | `crates/hull-ci-control/src/fairshare.rs:349-374` | the invariant holds in every state any run of operations reaches |
| `FairViews.ReconcileIsRun` | `crates/hull-ci-control/src/fairshare.rs:495-529` | `reconcile` is a run of the primitive operations, each enabled when it happens |
| `FairViews.ReconcileKeeps` | `crates/hull-ci-control/src/fairshare.rs:495-529` | `reconcile` keeps the invariant |
| `FairViews.ReconcileMatches` | `crates/hull-ci-control/src/fairshare.rs:495-529` | after `reconcile`, ready steps wait, leased and running ones hold a slot, finished ones have no placement |
| `FairViews.ReconcileIdempotent` | `crates/hull-ci-control/src/fairshare.rs:495-529` | reconciling the same observation again, at any later time, changes nothing |
| `FairViews.ForgetKeeps` | `crates/hull-ci-control/src/fairshare.rs:483-492` | `forget_job` keeps the invariant in any visiting order and leaves no placement of the job |
| `FairSelect.BestIsLeast` | `crates/hull-ci-control/src/fairshare.rs:581-602` | the pick is an admissible tenant whose head has the least finish tag, first name on a tie, and exists whenever an admissible head does |
| `FairSelect.SelectIsOrdered` | `crates/hull-ci-control/src/fairshare.rs:538-574` | grants of a pass come out in nondecreasing finish-tag order |
| `FairSelect.SelectRespectsCap` | `crates/hull-ci-control/src/fairshare.rs:610-613` | a pass leaves each tenant's slots as they were or within its concurrency cap |
| `FairSelect.SelectRespectsFleet` | `crates/hull-ci-control/src/fairshare.rs:538-548` | a pass fills exactly as many slots as it grants, and never takes the fleet past its size |
| `FairSelect.SelectGrantsWaiting` | `crates/hull-ci-control/src/fairshare.rs:538-574` | a pass grants only waiting steps, and a step waits afterwards if and only if it waited before and was not granted |
| `FairSelect.SelectStopsOnlyWhenBlocked` | `crates/hull-ci-control/src/fairshare.rs:538-574` | a pass that ends before its budget leaves waiting steps only in tenants that are over a plan cap |
| `FairSelect.SelectIsRun` | `crates/hull-ci-control/src/fairshare.rs:538-574` | a whole pass, pruning included, is a run of enabled primitive operations, so every law of runs holds of passes |
| `FairSelect.SelectKeeps` | `crates/hull-ci-control/src/fairshare.rs:538-574` | a pass keeps the representation invariant |
| `FairSelect.PruneIsInvisible` | `crates/hull-ci-control/src/fairshare.rs:688-697` | dropping expired ledger entries changes no windowed sum at any later time |
| `FairSelect.PruneKeepsUsage` | `crates/hull-ci-control/src/fairshare.rs:791-804` | pruning changes no tenant's node-seconds, now or later |
| `FairClock.ClockIsConserved` | `crates/hull-ci-control/src/fairshare.rs:433-467` | over every run from the empty queue, a tenant's clock is its clamp jumps plus held time over weight of departed granted steps plus charges over weight of running ones: no estimate survives a departure |
| `FairClock.LeaveBalance` | `crates/hull-ci-control/src/fairshare.rs:451-463` | a departure replaces the step's charge by the time it held, for every exit |
| `FairClock.GrantBalance` | `crates/hull-ci-control/src/fairshare.rs:549-568` | a grant opens a charge worth exactly what it moved the clock, beyond the clamp's jump |
| `FairClock.GrantMovesStartIff` | `crates/hull-ci-control/src/fairshare.rs:582-592` | a grant to someone else moves a tenant's start tag if and only if the granted start is more than the idle credit ahead of it |
| `FairClock.WaitIsBounded` | `crates/hull-ci-control/src/fairshare.rs:538-602` | over every run in which an admissible head within the credit waits and no step leaves a slot: its tag never moves, and a rival's total charge fits between its own start and that tag, whatever its backlog |
| `FairClock.RivalsSpendAtMost` | `crates/hull-ci-control/src/fairshare.rs:538-602` | the bound read off as one inequality on the rival's total |
| `FairClock.DearHeadStarves` | `crates/hull-ci-control/src/fairshare.rs:582-592` | a head dearer than the credit plus two of a rival's steps is granted in no run in which the rival always has work |
| `FairStarve.StarvedForAnyLength` | `crates/hull-ci-control/src/fairshare.rs:582-592` | the hypothesis is needed: for every idle credit and every `n`, a queue and a run of `n` grants, all to the rival, that meets every other hypothesis of the waiting bound and charges the rival `n` where the bound would allow the credit plus three |
| `FairClock.DearHeadLosesAgain` | `crates/hull-ci-control/src/fairshare.rs:582-592` | such a head loses the turn and is in the same position after it |
| `FairClock.ClampedHeadGoesNextIff` | `crates/hull-ci-control/src/fairshare.rs:582-602` | a head held at the clamp goes next if and only if it costs less than the credit plus the rival's last and next steps (or as much, with the earlier name) |
| `Graph.GateFor` | `crates/hull-ci-control/src/graph.rs:148-169` | the loop with its early return gives the gate's precedence: undeclared over blocked over waiting |
| `Graph.Advancing` | `crates/hull-ci-control/src/graph.rs:52-134` | the in-place loop terminates at the specified fixpoint, breaks what is stuck, and reports exactly the moves made |
| `Graph.OnePass` | `crates/hull-ci-control/src/graph.rs:57-103` | one pass decides every step against the snapshot, not against steps it has already moved |
| `Graph.ErrorPending` | `crates/hull-ci-control/src/graph.rs:105-131` | with nothing live, exactly the pending steps are errored and reported broken |
| `Graph.FixpointIsExact` | `crates/hull-ci-control/src/graph.rs:52-103` | a pending step ends ready, skipped, errored or pending exactly as its needs in the final state say; every other step is untouched |
| `Graph.PendingOnlyWhileLive` | `crates/hull-ci-control/src/graph.rs:105-131` | after `advance` nothing is pending unless something is live |
| `Graph.AdvanceIdempotent` | `crates/hull-ci-control/src/graph.rs:52-134` | advancing again, at any time, changes and reports nothing |
| `Graph.NeverBroken` | `crates/hull-ci-control/src/graph.rs:87-131` | on a plan whose needs are declared earlier, in any state of its steps, no step newly errs and no reported move is broken |
| `Graph.Settle` | `crates/hull-ci-control/src/graph.rs:57-103` | the repeated pass terminates in a state the pass leaves alone |
| `GraphLaws.SettleIsExact` | `crates/hull-ci-control/src/graph.rs:52-103` | in step states alone: a pending step ends ready if and only if each need names a step that passed, was cached, or failed and may; skipped if and only if all are declared and one errored, was skipped, or failed and may not; errored if and only if one is undeclared; changed in nothing but the stamps of that move |
| `GraphLaws.BreakIsExact` | `crates/hull-ci-control/src/graph.rs:105-131` | then, with nothing ready, leased or running, every step still pending errs for infrastructure; otherwise nothing more happens |
| `GraphLaws.ReportIsExact` | `crates/hull-ci-control/src/graph.rs:52-134` | the report names exactly the pending steps that moved, each as ready, skipped or broken by the state it moved to |
| `Timeouts.Sweep` | `crates/hull-ci-control/src/timeouts.rs:139-161` | the in-place loop errors exactly the steps past their deadline, with the clock's reason, and reports them |
| `Timeouts.NextDeadline` | `crates/hull-ci-control/src/timeouts.rs:165-179` | the soonest deadline of any step: a lower bound that some step attains, present if any step has one |
| `Timeouts.SweepFiresOnTime` | `crates/hull-ci-control/src/timeouts.rs:139-167` | a sweep changes and reports something if and only if the soonest deadline has passed |
| `StepLaws.SweepDecides` | `crates/hull-ci-control/src/timeouts.rs:82-161` | in times alone: a step handed out errs for `Timeout` exactly when it ran for the lesser of what it asked for (or the default) and the ceiling, one that waits for `Capacity` exactly when it waited `queue_wait`, and no other is touched |
| `Aggregate.MoveKeepsVerdict` | `crates/hull-ci-control/src/aggregate.rs:65-102` | a legal transition of any step keeps a decided status |
| `Aggregate.VerdictIsStable` | `crates/hull-ci-control/src/aggregate.rs:65-102` | once the fold decides, every continuation by legal transitions folds to the same status |
| `Aggregate.TerminalDecides` | `crates/hull-ci-control/src/aggregate.rs:65-102` | when every step is terminal the fold decides and cancels nothing |
| `StepLaws.FoldIsExact` | `crates/hull-ci-control/src/aggregate.rs:65-102` | in steps alone: no steps is `NoTests`; red if and only if one failed fatally; else undecided if and only if one is not over; else green if and only if none errored, and otherwise errored with the first errored step's reason, or `Infra` |
| `StepLaws.RedCancelsTheRest` | `crates/hull-ci-control/src/aggregate.rs:65-102` | a red fold cancels exactly the unfinished steps but the first fatal one, as many ids as there are, in order |
| `Driver.NextForward` | `crates/hull-ci-control/src/control.rs:1039-1060` | no event of the driver, a node or the scheduler ever raises a step's rank |
| `Driver.FinitelyManyMoves` | `crates/hull-ci-control/src/control.rs:1039-1111` | any run of events moves steps at most four times per step |
| `Driver.ReachableIsArmed` | `crates/hull-ci-control/src/control.rs:1246-1290` | in every reachable state a ready step has its queue clock and a leased or running one its wall clock |
| `Driver.UndecidedHasADeadline` | `crates/hull-ci-control/src/control.rs:1047-1078` | if the fold is undecided after sweep and advance, some step is live and a next deadline exists |
| `Driver.WakingMakesProgress` | `crates/hull-ci-control/src/control.rs:1039-1111` | a turn taken when the last one asked to be woken settles the job or lowers the total rank |
| `Driver.WokenMoves` | `crates/hull-ci-control/src/control.rs:1089-1108` | between one waiting turn and the next, with any events in between, a step has moved for good |
| `Driver.FinitelyManyWaits` | `crates/hull-ci-control/src/control.rs:1039-1111` | the loop ends: whatever reports, leases, renewals and cancellations come between its turns, it waits at most four times per step and once more, counting wakes that find a step moved or the requested moment come |
| `Driver.CancelFinishes` | `crates/hull-ci-control/src/control.rs:1380-1404` | cancelling a list that covers the unfinished steps, with any events in between, leaves every step terminal |
| `Driver.AfterCancelNothingCounts` | `crates/hull-ci-control/src/control.rs:706-739` | after a decided fold's cancel list is applied every later report is rejected as not in flight |
| `JobRecord.Job.Turn` | `crates/hull-ci-control/src/control.rs:1039-1075` | the driver's in-place pass over the steps and its decision are those of the specified turn |
| `StepLaws.TurnIsExact` | `crates/hull-ci-control/src/control.rs:1047-1078` | the turn sweeps, then advances; it gives up if and only if the job's deadline has come; decides and cancels what the fold does; and a wait is for no later than the job's deadline or the moment any step's clock runs out, and for one of those |
| `StepLaws.ReportDecides` | `crates/hull-ci-control/src/control.rs:706-760` | a report is believed exactly from the lease holder, in time, of a step in flight, and leaves it passed, failed or errored as it says, finished now |
| `StepLaws.AssignmentDecides` | `crates/hull-ci-control/src/control.rs:1246-1298` | acceptance leases a ready step to its node, its attempt counted and its clocks started; rejection errs any step that is not over |
| `StepLaws.RenewalAndCancelDecide` | `crates/hull-ci-control/src/control.rs:775-791` | a renewal extends the holder's lease and sets the step running; a cancel skips any step that is not over |
| `JobRecord.Job.SettleAssignment` | `crates/hull-ci-control/src/control.rs:1246-1298` | the fleet's answer moves at most the named step, and `moved` says exactly whether one moved |
| `JobRecord.Job.RecordReport` | `crates/hull-ci-control/src/control.rs:706-760` | a report is recorded only from the lease holder, unexpired, of a step in flight; a refusal changes nothing |
| `JobRecord.Job.Cancel` | `crates/hull-ci-control/src/control.rs:1398-1402` | one section of cancelling skips the named step if it is not terminal |
| `JobRecord.Job.CancelAll` | `crates/hull-ci-control/src/control.rs:1380-1404` | the loop applies every cancel in order |
| `JobRecord.CancellingFinishes` | `crates/hull-ci-control/src/control.rs:1079-1083` | a decided fold's cancel list, applied, leaves every step terminal |
| `Claims.LocalClaims.AdmitTree` | `crates/hull-ci-control/src/claims.rs:372-429` | the whole new store and answer of insert-or-attach, retention included |
| `Claims.LocalClaims.TakeStep` | `crates/hull-ci-control/src/claims.rs:435-455` | granted, taken or fenced, and the step set that follows |
| `Claims.LocalClaims.GiveBackStep` | `crates/hull-ci-control/src/claims.rs:457-462` | a released step is claimable again; a forgotten job is left alone |
| `Claims.LocalClaims.Publish` | `crates/hull-ci-control/src/claims.rs:464-470` | the verdict and its time are put on the claim |
| `Claims.LocalClaims.Drop` | `crates/hull-ci-control/src/claims.rs:481-491` | the claim goes, and the tree's index entry only if it still points at this job |
| `Claims.AdmitDecides` | `crates/hull-ci-control/src/claims.rs:372-429` | `admit` attaches if and only if the tree has a claim not past retention, to that claim's job; the caller's URL is recorded and no other tree's claim changes |
| `Claims.OneJobPerTree` | `crates/hull-ci-control/src/claims.rs:372-429` | a tree is claimed by at most one job |
| `Claims.HistoryIsConsistent` | `crates/hull-ci-control/src/claims.rs:409-412` | in every history with fresh ids the index and the claims agree, so the healing branch is dead |
| `Claims.DestinationsAreExact` | `crates/hull-ci-control/src/claims.rs:398-408` | in every history a live job's destinations are exactly the URLs of the dispatches answered with it |
| `Claims.DestinationsDoNotRepeat` | `crates/hull-ci-control/src/claims.rs:400-402` | no destination is listed twice |
| `Claims.VerdictIsThePublished` | `crates/hull-ci-control/src/claims.rs:404-408` | a claim carries the last verdict published for its job, and none before one is |
| `ClaimLaws.AttachesIff` | `crates/hull-ci-control/src/claims.rs:372-429` | in every history, said of the operations alone: a dispatch attaches exactly when some job drives the tree and no verdict was published for it `retention` or longer ago, and then to that job with the verdict last published; otherwise it is answered with the job it proposes |
| `ClaimLaws.SettledAtTheLastPublish` | `crates/hull-ci-control/src/claims.rs:464-470` | a claim's age is counted from the last verdict published for its job |
| `ClaimLaws.ClaimsAreDriven` | `crates/hull-ci-control/src/claims.rs:372-429` | a job has a claim exactly while the history gives it a tree, and for that tree |
| `ClaimLaws.GrantedIff` | `crates/hull-ci-control/src/claims.rs:435-462` | a step is granted exactly when its job has a claim and the last thing done with the step since was to give it back; taken and fenced otherwise, exactly |
| `Dispatch.NoStepRunsTwice` | `crates/hull-ci-control/src/control.rs:1132-1243` | in every interleaving of any number of passes, two fleet calls for one step are separated by a `NoCapacity`, and after any other answer there is no further call |
| `Dispatch.OneHolder` | `crates/hull-ci-control/src/control.rs:1162-1221` | at most one pass at a time holds the right to hand a step out |
| `Dispatch.AttemptedAtMostOnce` | `crates/hull-ci-control/src/control.rs:1268-1288` | no step's attempt count ever exceeds one |
| `Dispatch.RunKeeps` | `crates/hull-ci-control/src/control.rs:1132-1298` | the claim-and-call invariant holds in every reachable state |
| `Dispatch.TrackedIsSafe` | `crates/hull-ci-control/src/control.rs:1208-1221` | the call automaton's rule implies the rule stated on positions in the call log |
| `DispatchLaws.HandedOutIff` | `crates/hull-ci-control/src/control.rs:1132-1210` | a granted step reaches the fleet exactly when its tree is stored, its job has it, the lease is held and the claim is there with the step free; otherwise no call is made and no claim changes |
| `DispatchLaws.NoRoomGivesBack` | `crates/hull-ci-control/src/control.rs:1212-1226` | after `NoCapacity` the step is as it was and its claim is free again |
| `DispatchLaws.OtherAnswersSettle` | `crates/hull-ci-control/src/control.rs:1226-1298` | any other answer keeps the claim and settles the one step it is for: accepted and ready, leased to that node; rejected, errored; no other step or job changes |
| `Delivery.RunKeeps` | `crates/hull-ci-control/src/control.rs:1415-1651` | one invariant, over jobs, dispatches and senders, holds in every interleaving of dispatches, drivers, senders, drains and evictions |
| `DeliveryLaws.OneSender` | `crates/hull-ci-control/src/control.rs:634-673` | at most one `report` run per job is at work, in every history that never stores a missing record from the claim's verdict while a run is at work |
| `DeliveryLaws.ReinsertionReopens` | `crates/hull-ci-control/src/control.rs:544-565` | the condition is exact: where it fails, that dispatch's next step puts a second run beside the first |
| `DeliveryLaws.OneSenderUnlessEvicted` | `crates/hull-ci-control/src/control.rs:634-673` | no condition at all for a job whose record was never evicted |
| `DeliveryLaws.UnevictedIsNeverStoredAgain` | `crates/hull-ci-control/src/control.rs:544-565` | a record never evicted was never stored from its claim's verdict, in any of the ways the other laws except |
| `DeliveryLaws.DebtIsJournaled` | `crates/hull-ci-control/src/control.rs:454-480` | every job driven here has a journal entry until a delivery of its verdict has landed |
| `DeliveryLaws.AckIsJournaled` | `crates/hull-ci-control/src/control.rs:421-480` | a job has an entry or was heard exactly when some dispatch's own journal write for it succeeded; an acknowledged job without one was acknowledged in a branch that writes nothing, and nobody drives it |
| `DeliveryLaws.NothingOwedIsStranded` | `crates/hull-ci-control/src/control.rs:1495-1508` | once its driver is done, a recorded job is reported, parked where the drain looks, or has a run or a dispatch coming for it, in every history that never overwrites a record whose sender has stamped it and not let go |
| `DeliveryLaws.ClobberingStrands` | `crates/hull-ci-control/src/control.rs:544-565` | the condition is exact: overwriting such a record, its holder stamped or past paying, strands the job unless another run or dispatch is about it |
| `DeliveryLaws.DrainNeverResends` | `crates/hull-ci-control/src/control.rs:653-664` | a job whose verdict landed is never taken by the drain, and reads reported once its claim is free, in every history that neither reopens its delivery nor, after it was heard, stores its record again with no landed run about to stamp it |
| `DeliveryLaws.ReportedStaysIff` | `crates/hull-ci-control/src/model.rs:100-114` | one event leaves a reported job reported if and only if it does not store its record from the claim's verdict |
| `DeliveryLaws.ReportedIsAbsorbing` | `crates/hull-ci-control/src/model.rs:100-114` | over any continuation without such a store, a reported record reads nothing else, whatever happened before |
| `DeliveryLaws.ReportedUnlessEvicted` | `crates/hull-ci-control/src/model.rs:100-114` | no condition at all for a job whose record was never evicted |
| `DeliveryCases.TwoSendersReached` | `crates/hull-ci-control/src/control.rs:340-343` | a run that ends with two senders on one job: a duplicate admitted before the record it would join is evicted |
| `DeliveryCases.BlindAckReached` | `crates/hull-ci-control/src/control.rs:684-697` | a run that acknowledges a duplicate of a job its creator undoes: no record, entry, driver or claim is left |
| `DeliveryCases.ElsewhereAckReached` | `crates/hull-ci-control/src/control.rs:421-427` | the same end by the other silent branch: the duplicate looks before the creator has stored its record |
| `DeliveryCases.StrandedReached` | `crates/hull-ci-control/src/control.rs:544-565` | a run that leaves a decided job unreported, unparked, with no run and no dispatch |
| `DeliveryCases.ReportedIsTakenBack` | `crates/hull-ci-control/src/control.rs:544-565` | a run from reported back to unreported |
| `DeliveryCases.ReopeningResends` | `crates/hull-ci-control/src/control.rs:653-664` | the first condition is exact: wherever a delivery is reopened, whatever phase its run is in, some continuation leaves a heard verdict unreported with its claim free |
| `DeliveryCases.RestoringResends` | `crates/hull-ci-control/src/control.rs:653-664` | the second condition is exact: wherever a heard record is stored again otherwise than under a landed run about to stamp it, some continuation does the same |
| `DeliveryCases.HeardIsDrained` | `crates/hull-ci-control/src/control.rs:653-664` | both are reached, with the job parked for the drain to send again |
| `Delivery.ClaimedKeeps` | `crates/hull-ci-control/src/control.rs:634-644` | taking the delivery claim keeps the invariant: it goes to a new run only when none is at work |
| `Segment.SegmentMatches` | `crates/hull-ci-fetch/src/digest.rs:358-383` | the single-backtrack loop terminates and returns what its step function accepts |
| `Segment.MatcherIsExactFor` | `crates/hull-ci-fetch/src/digest.rs:358-383` | for a name without `*` the loop accepts exactly what the recursive definition of `*` and `?` matches |
| `Segment.MatcherIsExactIff` | `crates/hull-ci-fetch/src/digest.rs:364-367` | the matcher is exact on every pattern if and only if the name contains no `*` |
| `Segment.LiteralStarFools` | `crates/hull-ci-fetch/src/digest.rs:364-367` | for every name with a `*` there is a pattern that matches it and is refused |
| `Segment.PlainSegment` | `crates/hull-ci-fetch/src/digest.rs:358-383` | a segment without wildcards accepts only its own spelling |
| `Digest.DescendTo` | `crates/hull-ci-fetch/src/digest.rs:205-212` | the loop finds the entry at a path, or none past a file |
| `Digest.Walk` | `crates/hull-ci-fetch/src/digest.rs:215-251` | the recursive walk appends exactly the specified matches to the output list |
| `Digest.ReachesIsSelects` | `crates/hull-ci-fetch/src/digest.rs:215-251` | the walk's step-by-step reading of a pattern is the declarative glob relation |
| `Digest.CollectIsFound` | `crates/hull-ci-fetch/src/digest.rs:215-251` | a match is collected if and only if some path selected by the pattern resolves to it |
| `Digest.WalkIsDeclared` | `crates/hull-ci-fetch/src/digest.rs:141-148` | on a tree whose names hold no `*`, the walk after sort and dedup yields exactly the paths the pattern denotes by the definition of its wildcards, once each, in path order |
| `Digest.WalkIsExact` | `crates/hull-ci-fetch/src/digest.rs:141-148` | on any tree the same, with the segment matcher's own verdict on each name |
| `Digest.PrefixDescentRefinesWalk` | `crates/hull-ci-fetch/src/digest.rs:119-140` | `dir` and a globstar by descent equals the walk if and only if the path is not a file |
| `Digest.ExactDescentRefinesWalk` | `crates/hull-ci-fetch/src/digest.rs:119-140` | an exact path by descent equals the walk if and only if it is not an empty directory |
| `Digest.EveryShapeRefinesTheWalk` | `crates/hull-ci-fetch/src/digest.rs:116-153` | for every parsed glob the fast form equals the walk except in those two cases |
| `Digest.MatchedByIsExact` | `crates/hull-ci-fetch/src/digest.rs:116-153` | whatever the shape, the matched list is ascending and holds exactly the hits of selected paths |
| `Digest.IdDeterminesDir` | `crates/hull-ci-fetch/src/digest.rs:59-79` | with structural ids, equal ids mean equal directories |
| `TreeDigest.DigestsEqualIff` | `crates/hull-ci-fetch/src/digest.rs:116-198` | short of a collision, one glob digests equally on two trees exactly when they select the same paths and agree on each; then they agree beneath each too |
| `Digest.AgreementDigestsEqually` | `crates/hull-ci-fetch/src/digest.rs:116-153` | conversely, trees agreeing on the same selected paths give equal matched lists |
| `Digest.Parse` | `crates/hull-ci-fetch/src/digest.rs:303-344` | malformed if and only if empty, rooted or dotted; too many globstars refused; otherwise classified from its non-empty segments |
| `GlobLaws.SplitJoins` | `crates/hull-ci-fetch/src/digest.rs:303-312` | splitting loses nothing: the pieces joined by `/` are the text |
| `GlobLaws.JoinSplits` | `crates/hull-ci-fetch/src/digest.rs:303-312` | and no other pieces without a `/` join to it |
| `GlobLaws.NonEmptyKeeps` | `crates/hull-ci-fetch/src/digest.rs:312-324` | every non-empty piece is kept, at the place the number of those before it says, and nothing else is |
| `GlobLaws.TrimIsCore` | `crates/hull-ci-fetch/src/digest.rs:305` | trimming drops white space at the two ends, all of it, and nothing else |
| `GlobLaws.CoreIsTrim` | `crates/hull-ci-fetch/src/digest.rs:305` | so a glob reads the same however it is padded |
| `GlobLaws.MalformedIff` | `crates/hull-ci-fetch/src/digest.rs:303-324` | a glob is malformed exactly when what is left without the padding is empty, absolute, or has a `.` or `..` piece, however it is cut at the `/`s |
| `DigestFold.UnfoldFold` | `crates/hull-ci-fetch/src/digest.rs:186-203` | the folded bytes determine shape, glob and every matched record in order |
| `StepKey.DecodeEncode` | `crates/hull-ci-control/src/memo.rs:465-579` | the tagged, length-prefixed encoding has a decoder that recovers the canonical step |
| `StepKey.EncodeInjective` | `crates/hull-ci-control/src/memo.rs:553-579` | different canonical steps encode differently |
| `StepKey.EqualKeyedSteps` | `crates/hull-ci-control/src/memo.rs:465-549` | two steps hash the same bytes exactly when tenant, version, tier, author class, definition, ordered argv, whole-second timeout and the sets of secrets, environment, dependency keys and inputs, digest by digest, are equal |
| `StepKey.EqualDigestLists` | `crates/hull-ci-control/src/memo.rs:474-494` | the hashed input lists are equal exactly when the trimmed input sets are, and each digests the same |
| `StepKey.DependencyKeys` | `crates/hull-ci-control/src/memo.rs:441-456` | the loop over needs resolves every need to an earlier keyed step, or refuses |
| `StepKey.PlanStepKeys` | `crates/hull-ci-control/src/memo.rs:433-462` | the loop over the plan produces the specified key of every step |
| `StepKey.NeededAreKeyed` | `crates/hull-ci-control/src/memo.rs:441-456` | a keyed step's needs are all earlier and keyed |
| `StepKey.ConeIsKeyed` | `crates/hull-ci-control/src/memo.rs:433-462` | a step has a key only if every step of its dependency cone has one |
| `StepKey.KeysAreCones` | `crates/hull-ci-control/src/memo.rs:542-549` | with a collision-free hash two steps have equal keys if and only if their whole dependency cones are equal |
| `StepKey.RenamedNeedIsAMiss` | `crates/hull-ci-control/src/memo.rs:542-549` | renaming a needed step changes the key of the step that needs it |
| `KeyLaws.KeyedIff` | `crates/hull-ci-control/src/memo.rs:465-497` | a step with keyed dependencies has a key exactly when it declares inputs, each has a digest and one selects something; each other case has its own refusal |
| `KeyLaws.HasKeyIff` | `crates/hull-ci-control/src/memo.rs:433-462` | a step of a plan has a key exactly when every need names a step declared before it that has one, and its own inputs key it |
| `KeyLaws.NoKeyBecause` | `crates/hull-ci-control/src/memo.rs:441-460` | otherwise it is refused for its first need that is undeclared or has no key, or else for its own inputs |
| `MemoStore.StepMemo.Lookup` | `crates/hull-ci-control/src/memo.rs:265-276` | a hit, a miss, or a miss that drops the expired entry |
| `MemoStore.StepMemo.Record` | `crates/hull-ci-control/src/memo.rs:278-294` | room is made and the entry written under the next sequence number |
| `MemoStore.Evictee` | `crates/hull-ci-control/src/memo.rs:315-337` | the loops return the oldest entry of the tenant ranked first: most entries, then the writer, then the name |
| `MemoStore.EvicteeUnique` | `crates/hull-ci-control/src/memo.rs:315-337` | that entry is unique, so map order never shows |
| `MemoStore.OnlyTheFullestPays` | `crates/hull-ci-control/src/memo.rs:278-337` | a write costs another tenant at most one entry, and only the victim's tenant |
| `MemoStore.EvictionIsMaxMinFair` | `crates/hull-ci-control/src/memo.rs:278-337` | another tenant loses an entry only if it holds strictly more than the writer and as many as anyone, and keeps at least an equal share of the capacity |
| `MemoStore.HistoryIsTruthful` | `crates/hull-ci-control/src/memo.rs:264-294` | over every history the store is within capacity and holds for a slot only the newest write for it |
| `MemoStore.HitsAreLatest` | `crates/hull-ci-control/src/memo.rs:265-276` | every hit is the latest unexpired record for that tenant and key |
| `MemoLaws.HitIff` | `crates/hull-ci-control/src/memo.rs:264-294` | over every history, a lookup is answered by the newest write for its slot exactly while no later write evicted it, no lookup found it expired and it has not expired, and then leaves the store as it was |
| `MemoLaws.BelowCapacityEveryWriteHits` | `crates/hull-ci-control/src/memo.rs:264-294` | below capacity every unexpired write is answered |
| `MemoLaws.NeverWrittenNeverHit` | `crates/hull-ci-control/src/memo.rs:265-276` | what was never written is never answered |
| `MemoLaws.EntryAfter` | `crates/hull-ci-control/src/memo.rs:264-337` | an entry leaves by another's write exactly when the store is full and it is the oldest of the tenant that pays, and by a lookup exactly when it is the one looked up and has expired |
| `MemoLaws.LookupRemovesOnlyTheExpired` | `crates/hull-ci-control/src/memo.rs:265-276` | a lookup removes its own slot when it finds it expired, and nothing else |
| `MemoLaws.OlderWasWrittenFirst` | `crates/hull-ci-control/src/memo.rs:278-294` | the entry with the smaller number was written first |
| `Capture.OutputCapture.Push` | `crates/hull-ci-node/src/capture.rs:80-88` | the new buffer and counters; past the slack they are trimmed |
| `Capture.OutputCapture.Trim` | `crates/hull-ci-node/src/capture.rs:101-136` | the buffer is cut at the specified point and the counters move what was cut |
| `Capture.OutputCapture.Finish` | `crates/hull-ci-node/src/capture.rs:140-148` | the sealed output is the trimmed one |
| `Capture.CutPoint` | `crates/hull-ci-node/src/capture.rs:101-130` | the two searches find the specified cut |
| `Capture.TrimIsLegal` | `crates/hull-ci-node/src/capture.rs:101-136` | a trim cuts just after a newline, at the start or at the end, and what is left is within both caps |
| `Capture.TrimKeepsMost` | `crates/hull-ci-node/src/capture.rs:101-136` | no legal cut keeps more, if and only if the retained window does not itself start a line |
| `Capture.NothingDroppedEarly` | `crates/hull-ci-node/src/capture.rs:80-88` | nothing is dropped of a stream within each cap plus its slack (an eighth of the cap, but at least 64 KiB and 1024 lines), and nothing is sealed away of one within the caps |
| `Capture.EveryStreamIsAccounted` | `crates/hull-ci-node/src/capture.rs:80-148` | for every sequence of chunks the kept bytes are a suffix of the stream, kept plus dropped bytes and newlines are the totals, the buffer stays within cap plus slack, and the sealed output within both caps |

## Left out

- HTTP ingest, secret checking, callback transport, retry backoff and jitter, and id generation: I/O, randomness or easy arithmetic.
- The Postgres claim store: only the process-local store is modelled, so no lease is ever taken over.
- `JobStore::evict`: which settled records go, and the bound on how many stay; `Delivery` lets any settled record be evicted at any time.
- Which callback URLs a delivery run covers, and the verdict or URLs inside a journal entry: `Delivery` keeps only whether an entry exists.
- `FairQueue::depth` and `admission`: read-only views for the operator.
- The effect of a pass on the fair queue inside `Dispatch`: grants are arbitrary there, and the queue's own operations are covered by the `Fair` modules.
- `Control::pump`, `accept`, `finish` and `report` as imperative loops: they are modelled as the atomic sections other threads can interleave with, on values.
- DeliveryLaws.NothingOwedIsStranded: says nothing of a job whose record was evicted and not stored again; its journal entry is what remains (`DeliveryLaws.DebtIsJournaled`).
- Claims.LocalClaims.Renew and Claims.LocalClaims.Destinations: one-line reads; what the destinations mean is `Claims.DestinationsAreExact`.
- Driver.FinitelyManyWaits: counts the wakes that find a step moved or the requested moment come; a wake that finds neither is not bounded, as nothing in the loop bounds it.
- Floating-point rounding, `u64` counter overflow and NaN weights.
- Tar extraction, the content store, building the tree index, and the digest cache: they rest on the filesystem and on keel's encoder.
- Chunk-independence of captured output: an earlier trim can cut at a different line, so only accounting and bounds hold in general.
- Summary wording and sanitizing, log keys, the node agent, sandboxes, snapshots and configuration tables.
