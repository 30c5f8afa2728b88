# Request and Run lifecycle of the compute core

A Dafny model of the lifecycle core of `src/lib/compute`: the latest-wins request
coordinator, the Run arbiter with its cancellation fan-out, the dependency
scheduler with its node and tile tasks, and the integer rectangle arithmetic
they plan with. `dafny verify dfyconfig.toml` checks the whole project.

Objects whose methods update fields are classes; each method is proved against a
function on the guarded values. Concurrency is a state machine per protocol:
every mutex-protected or atomic region is one step, work done after an unlock is
a later step of its own, and steps of different threads interleave freely. The
main results are statements about every finite run of those machines: what never
happens, and, as bounded continuations from every reachable state, what can
always still happen. The lemmas named `...Meaning` say in plain fields when each
region decides what.

## The parts

- `Supersession`, `RequestCoordinator`, `RequestLane`: generation allocator, the
  coordinator's lineage rows and its class, the lane's reusable tickets.
- `SupersessionProtocol`, `SupersessionInvariant`, `SupersessionTheorems`,
  `SupersessionRefinement`, `SupersessionTickets`, `SupersessionClose`,
  `SupersessionDrain`, `SupersessionProgress`, `SupersessionDelivery`,
  `SupersessionTermination`, `SupersessionCloseRuns`: all callers of `prepare`, publication items, pump turns and close, for all keys of
  a graph. Callers are named by the generation they were given. The ordering,
  placement and ticket theorems are proved over whole runs. A lane turn may start
  in any order, so the results also hold for the FIFO worker.
- `RunControl`, `RunProtocol`, `RunInvariant`, `RunTheorems`, `RunProgress`: arbiter, phase,
  notification slots, move-only commit contenders and the request-level source,
  over any number of Runs.
- `CommitProtocol`: commit items and publication items sharing the graph-state lane.
- `Settlement`: root-reservation counters and lifecycle telemetry.
- `TaskDependency`, `Scheduler`, `NodeTasks`, `Dataflow`, `TileStaging`: counters
  and release, whole-node tasks, schedule independence, commit, tiles.
- `Geometry`: rectangles as pixel sets, truncating division, checked narrowing.

## What turned out false of the code

Each of these is kept as the code has it, with a concrete input and the exact condition.

- After `stop_admission` a rejected waiter can erase a row without retiring the
  row's ticket (`compute_request_coordinator.cpp:109-121`). The ticket is lost if
  no turn or resume of it is due; this happens exactly at such a waiter on the
  stopped lane, or when the lane stops while a ticket of an already erased row
  has decided to park (`SupersessionClose.StepLosesTicketIff`). A lost ticket is
  never retired (`SupersessionClose.LostForever`);
  `SupersessionCloseRuns.CloseCanLoseTicket` is a run.
- `wake` is refused once the lane drains, so a candidate published after its
  key's turn decided to park is left without a turn if the lane stops before the
  wake and no resume is on its way (`SupersessionTickets.StopLaneStrandsIff`).
  Afterwards only abandoning a preparation of the key serves it
  (`SupersessionClose.StepServesIff`), and without one left it waits for ever
  (`SupersessionClose.StrandedForever`);
  `SupersessionCloseRuns.CloseCanStrandMailbox` is a run.
- A close that cannot go on is drained exactly when neither happened for good
  (`SupersessionDrain.CloseDrainsIff`), and every close gets that far
  (`SupersessionTermination`).
- Alignment cuts negative origins that are off the grid
  (`Geometry.AlignCutsNegativeOrigin`) and overshoots by one cell for some
  negative ends (`Geometry.AlignOvershootsNegativeEnd`); scaling down does not
  undo scaling up for negative ends (`Geometry.ScalingLosesNegativeEnd`);
  intersection, padding and merging become empty when an edge leaves the int
  range (`Geometry.FarEdgesVanish`). The `...Iff` lemmas have the conditions.

## Model

| member | source | states |
|---|---|---|
| Supersession.GenerationAllocator.Allocate | src/lib/compute/compute_supersession.cpp:56-67 | returns a value never handed out before, or refuses exactly when the range is used up |
| Supersession.GenerationsNeverRepeat | src/lib/compute/compute_supersession.cpp:56-67 | over any number of calls values strictly grow, refusal is permanent, and comes exactly after UINT64_MAX |
| RequestCoordinator.ComputeRequestCoordinator.constructor | src/lib/compute/compute_request_coordinator.cpp:58-64 | starts open, without rows or active key, at the given first generation |
| RequestCoordinator.ComputeRequestCoordinator.PrepareEnter | src/lib/compute/compute_request_coordinator.cpp:84-101 | the first region of prepare: the three refusals leave no adopter behind, otherwise one adopter joins and at most one caller claims the reservation |
| RequestCoordinator.ComputeRequestCoordinator.PrepareWake | src/lib/compute/compute_request_coordinator.cpp:96-126 | a waiter that wakes is admitted, waits no longer, or is rejected by close and leaves the row |
| RequestCoordinator.ComputeRequestCoordinator.PrepareReserveFailed | src/lib/compute/compute_request_coordinator.cpp:136-152 | a failed reservation gives up its claim and its adopter, erasing an unused row |
| RequestCoordinator.ComputeRequestCoordinator.PrepareInstall | src/lib/compute/compute_request_coordinator.cpp:157-167 | the reserved ticket is adopted only by a row still waiting for it |
| RequestCoordinator.ComputeRequestCoordinator.PublishItem | src/lib/compute/compute_request_coordinator.cpp:197-228 | accepted exactly for a row with adopters on an open coordinator with a ticket and no current generation at or above it; then it is current and pending, and the old pending, active and ticket are handed out as displaced and to be woken; keeps the rows coherent |
| RequestCoordinator.ComputeRequestCoordinator.PumpTurnBegin | src/lib/compute/compute_request_coordinator.cpp:266-288 | a turn retires, parks, queues or takes the mailbox candidate, which is the current one, and becomes the graph's only runner |
| RequestCoordinator.ComputeRequestCoordinator.PumpTurnEnd | src/lib/compute/compute_request_coordinator.cpp:299-318 | ending a turn leaves no row running, then queues, parks, or erases the row and retires |
| RequestCoordinator.ComputeRequestCoordinator.AbandonPreparation | src/lib/compute/compute_request_coordinator.cpp:331-355 | an abandoned preparation leaves its row, and says which ticket to retire or resume |
| RequestCoordinator.ComputeRequestCoordinator.TestCurrent | src/lib/compute/compute_request_coordinator.cpp:403-410 | true exactly when the row exists and carries that generation as current |
| RequestCoordinator.ComputeRequestCoordinator.StopAdmission | src/lib/compute/compute_request_coordinator.cpp:413-419 | closes admission and changes nothing else |
| RequestCoordinator.PublishMeaning | src/lib/compute/compute_request_coordinator.cpp:197-228 | in row fields: accepted exactly with an adopter, an open coordinator, a ticket and no current generation at or above it; stale exactly at or below the current one; every new field of the row, the displaced candidates, the wake and the cleanup |
| RequestCoordinator.EnterMeaning | src/lib/compute/compute_request_coordinator.cpp:84-101 | in row fields: a caller is refused exactly at the full adopter count, reserves exactly when there is no ticket and nobody reserves, and joins with one adopter |
| RequestCoordinator.WakeMeaning | src/lib/compute/compute_request_coordinator.cpp:96-126 | in row fields: a waiter is rejected exactly after close and leaves, else it goes on as a caller that enters |
| RequestCoordinator.ReservationMeaning | src/lib/compute/compute_request_coordinator.cpp:136-167 | in row fields: what a failed and a good reservation make of the row |
| RequestCoordinator.PumpBeginMeaning | src/lib/compute/compute_request_coordinator.cpp:266-288 | in row fields: a turn executes exactly when its ticket is the row's, a candidate waits and nobody runs; when it queues, parks and retires |
| RequestCoordinator.PumpEndMeaning | src/lib/compute/compute_request_coordinator.cpp:299-318 | in row fields: a turn end is stale exactly for another ticket, candidate or runner; when it queues, parks and erases the row |
| RequestCoordinator.AbandonMeaning | src/lib/compute/compute_request_coordinator.cpp:331-355 | in row fields: the last use of a row retires its ticket, any other abandonment resumes it |
| RequestLane.CallMeaning | src/lib/graph/graph_state_executor.cpp:82-430 | which tickets hear a wake, a resume, a retirement and the stop, and what each makes of the four fields |
| RequestLane.TurnMeaning | src/lib/graph/graph_state_executor.cpp:323-562 | which tickets may start a turn, and when a turn end retires, queues, parks or leaves one turn owed |
| RequestLane.WakeIsNotLost | src/lib/graph/graph_state_executor.cpp:323-373 | a wake heard by the open lane queues the ticket now or at the end of its running turn |
| SupersessionProtocol.TailMeaning | src/lib/compute/compute_request_coordinator.cpp:230-253 | after the unlock exactly the displaced candidates are asked to stop, exactly the displaced waiting one is settled, and the wake is last; a refused item ends with its own candidate |
| SupersessionInvariant.StepKeepsInv | src/lib/compute/compute_request_coordinator.cpp:79-362 | every step of every thread keeps the whole protocol invariant: order, row shape, adopters, reservations, places, settlements, tickets |
| SupersessionInvariant.StepIsLocal | src/lib/compute/compute_request_coordinator.cpp:79-362 | a step changes the state of its own key only |
| SupersessionTheorems.RunKeepsInv | src/lib/compute/compute_request_coordinator.cpp:79-419 | the invariant holds in every reachable state |
| SupersessionTheorems.AcceptedGenerationsIncrease | src/lib/compute/compute_request_coordinator.cpp:197-228 | for each key accepted publications have strictly increasing generations over the whole run, across row erasure and recreation |
| SupersessionTheorems.LatestWins | src/lib/compute/compute_request_coordinator.cpp:197-228 | in every run, publishing a generation newer than every accepted one of its key on an open graph makes it current and waiting and moves the candidate that waited to the superseded ones |
| SupersessionTheorems.CurrentIsNewest | src/lib/compute/compute_request_coordinator.cpp:403-410 | a current generation is the newest ever accepted for its key |
| SupersessionTheorems.SupersededNeverCurrentAgain | src/lib/compute/compute_request_coordinator.cpp:403-410 | once a newer generation was current an older one is never current again |
| SupersessionTheorems.OnePlacePerCandidate | src/lib/compute/compute_request_coordinator.cpp:188-318 | a candidate whose item ran is in exactly one of pending, active, finished, superseded, rejected; none is settled or failed twice and after the item exactly once |
| SupersessionTheorems.SupersededNeverExecutes | src/lib/compute/compute_request_coordinator.cpp:230-318 | a displaced, born-stale or rejected candidate executes at no time of the run |
| SupersessionTheorems.AskedBeforeSettled | src/lib/compute/compute_request_coordinator.cpp:242-253 | a candidate settled as superseded had its source asked for Superseded before |
| SupersessionTheorems.RowContract | src/lib/compute/compute_request_coordinator.cpp:214-318 | pending is current, active is at most current, one runner, active key set exactly while it runs, adopters count preparations, a row is in use, and a running candidate with a newer one waiting has been asked to stop |
| SupersessionTheorems.PreparationPinsRow | src/lib/compute/compute_request_coordinator.cpp:90-126 | an outstanding preparation keeps its row |
| SupersessionTheorems.AdoptersNeverExhausted | src/lib/compute/compute_request_coordinator.cpp:91-95 | the adopter overflow branch cannot be reached while generations remain |
| SupersessionTheorems.NoFaultReachable | src/lib/compute/compute_request_coordinator.cpp:112-206 | no reachable step underflows, loses ownership, finds a stale turn end or terminates |
| SupersessionTheorems.DrainedIsEmpty | src/lib/compute/compute_request_coordinator.cpp:67-76 | once every ticket is retired and every caller gone, the destructor finds no row and no active key |
| SupersessionRefinement.StepRunsCoordinator | src/lib/compute/compute_request_coordinator.cpp:79-419 | each protocol step changes the coordinator exactly as the method it stands for promises |
| SupersessionRefinement.ErasedTicketTouchesNothing | src/lib/compute/compute_request_coordinator.cpp:268-305 | from the erasure of a ticket's row on no turn of the ticket changes the coordinator, a recreated row included, or executes a candidate |
| SupersessionTickets.StepKeepsMailboxesServed | src/lib/graph/graph_state_executor.cpp:323-373 | every step but stopping the lane keeps every mailbox served |
| SupersessionTickets.MailboxesServedWhileOpen | src/lib/graph/graph_state_executor.cpp:323-373 | while the lane is open a row with a pending candidate has its ticket queued, running or about to be woken |
| SupersessionTickets.StopLaneStrandsIff | src/lib/graph/graph_state_executor.cpp:82-111 | stopping the lane leaves a candidate without a turn exactly when its turn decided to park before the publication, the wake is not latched and no resume is on its way |
| SupersessionTickets.EveryTicketHasOneOwner | src/lib/compute/compute_request_coordinator.cpp:129-168 | every ticket belongs to exactly one of its row, its reserver, or one erased row |
| SupersessionTickets.StepKeepsAccounted | src/lib/compute/compute_request_coordinator.cpp:222-358 | while the coordinator accepts, every step keeps every ticket owned, retired or about to be retired |
| SupersessionClose.StepServesIff | src/lib/graph/graph_state_executor.cpp:376-402 | after any step on the stopped lane a mailbox is served exactly when it was before or the step abandons a preparation of the key |
| SupersessionClose.StrandedIff | src/lib/graph/graph_state_executor.cpp:344-402 | in every reachable state a candidate is without a turn exactly when stopping the lane stranded it and no preparation of its key was abandoned since |
| SupersessionClose.StrandedForever | src/lib/graph/graph_state_executor.cpp:344-402 | a candidate left without a turn, with no preparation of its key left to abandon, waits and is not started at any later time |
| SupersessionClose.StepLosesTicketIff | src/lib/compute/compute_request_coordinator.cpp:109-121 | after any step a ticket is lost exactly when it was before, or the step is a waiter rejected on the stopped lane that last used a row whose ticket has no turn coming, or stops the lane while a ticket of an erased row has decided to park |
| SupersessionClose.LostIff | src/lib/compute/compute_request_coordinator.cpp:109-121 | in every reachable state a ticket is lost exactly when one of those steps lost it |
| SupersessionClose.LostForever | src/lib/graph/graph_state_executor.cpp:405-430 | a lost ticket is not retired at any later time |
| SupersessionTickets.ErasureIsRetirementWhileAccepting | src/lib/compute/compute_request_coordinator.cpp:222-358 | until stop_admission a ticket is retired or being retired exactly when its row was erased, once, and a key has at most one ticket that is not |
| SupersessionProgress.PendingCanStart | src/lib/compute/compute_request_coordinator.cpp:253-318 | from every reachable state with a candidate waiting on the open lane, at most eight steps of the item in the lane, the running turn and the key's own turn start it, without publication, abandonment or stop |
| SupersessionProgress.PendingCanStartOnSoleWorker | src/lib/graph/graph_state_executor.cpp:433-562 | the same with at most eleven steps during which, as on the lane's worker, one turn at most is running |
| SupersessionProgress.ItemsAreShort | src/lib/compute/compute_request_coordinator.cpp:230-253 | a publication item never has more than four effects left after its unlock |
| SupersessionDelivery.CallerCanStart | src/lib/compute/compute_request_coordinator.cpp:79-318 | from every reachable state of an open graph, a caller anywhere in prepare with a generation newer than the accepted ones is prepared, published and started within sixteen steps of some continuation |
| SupersessionDelivery.NewRequestCanStart | src/lib/compute/compute_request_coordinator.cpp:79-318 | so is, within seventeen steps, a request not made yet, under the generation it will be given |
| SupersessionDrain.HaltedShape | src/lib/runtime/graph_runtime.hpp:482-499 | a closed graph in which nothing can happen has no caller, effect or runner left, only resting tickets and rows with a waiting candidate |
| SupersessionDrain.HangsOnlyTwoWays | src/lib/runtime/graph_runtime.hpp:482-499 | such a graph is drained exactly when no mailbox is stranded and no ticket is lost |
| SupersessionDrain.CloseDrainsIff | src/lib/runtime/graph_runtime.hpp:482-499 | a close that cannot go on ends with every ticket retired and no row exactly when no step of the run lost a ticket and, if stopping the lane stranded a candidate, a preparation of its key was abandoned later |
| SupersessionTermination.StepLowers | src/lib/graph/graph_state_executor.cpp:323-430 | every step that changes a closed graph lowers a measure, unless a turn enters while another key runs |
| SupersessionTermination.CloseChangesBoundedlyOften | src/lib/graph/graph_state_executor.cpp:433-562 | with one turn running at a time, as on the lane's worker, a closed graph changes at most as often as its measure says |
| SupersessionTermination.CloseCanComeToRest | src/lib/runtime/graph_runtime.hpp:482-499 | every reachable closed state has a bounded continuation to one in which nothing can happen, to which the drain condition applies |
| SupersessionCloseRuns.CloseCanLoseTicket | src/lib/compute/compute_request_coordinator.cpp:109-121 | a concrete run after which a parked ticket is lost and nothing changes any more |
| SupersessionCloseRuns.CloseCanStrandMailbox | src/lib/graph/graph_state_executor.cpp:344-373 | a concrete run after which a published candidate waits for ever |
| RunControl.RegionsEvolve | src/lib/compute/compute_run.cpp:487-651 | every arbiter region keeps outcome-iff-closed and claimed-implies-CommitPending, and only moves the Run forward |
| RunControl.ArbiterMeaning | src/lib/compute/compute_run.cpp:487-651 | in fields: the first publication on an open arbiter wins, a claim is granted exactly on an open Run in CommitPending before its deadline, cancels an open one after it, and only a claimed one is resolved |
| RunControl.AdvanceMeaning | src/lib/compute/compute_run.cpp:1190-1205 | the phase becomes the target exactly for an open Run and a later target that is not Terminal |
| RunControl.StoreSlotKeeps | src/lib/compute/compute_run.cpp:654-669 | storing a slot drops only an expired one and grows storage only when all are owned |
| RunControl.CancellationSlot.Invoke | src/lib/compute/compute_run.cpp:146-151 | the callback runs once if and only if the slot is active |
| RunControl.CancellationSlot.Deactivate | src/lib/compute/compute_run.cpp:158-161 | no later invocation runs the callback |
| RunControl.ComputeRunControl.PublishTerminal | src/lib/compute/compute_run.cpp:487-502 | wins exactly on an open arbiter and then fixes the outcome |
| RunControl.ComputeRunControl.Dispatch | src/lib/compute/compute_run.cpp:540-561 | every owned active slot is invoked exactly once, the others not at all |
| RunControl.ComputeRunControl.RequestCancellation | src/lib/compute/compute_run.cpp:505-562 | wins exactly on an open arbiter; only a winner invokes slots |
| RunControl.ComputeRunControl.ObserveCancellation | src/lib/compute/compute_run.cpp:565-585 | an expired deadline cancels an open Run and invokes its live slots; the reported reason is the stable outcome |
| RunControl.ComputeRunControl.TryClaimCommit | src/lib/compute/compute_run.cpp:588-633 | claimed exactly when open in CommitPending before the deadline; an open Run past it is cancelled and notified |
| RunControl.ComputeRunControl.ResolveCommit | src/lib/compute/compute_run.cpp:636-651 | resolves exactly a claimed commit |
| RunControl.ComputeRunControl.AdvancePhase | src/lib/compute/compute_run.cpp:1190-1205 | the phase becomes the target for an open Run and a later target that is not Terminal, and stays otherwise |
| RunControl.ComputeRunControl.RegisterSlot | src/lib/compute/compute_run.cpp:654-679 | stores on an open Run keeping every owned slot, invokes at once on a cancelled one, does neither otherwise |
| RunControl.CommitContender.Finish | src/lib/compute/compute_run.cpp:1047-1074 | a contender that holds a Run settles it with its outcome and then holds nothing |
| RunControl.CommitContender.Abandon | src/lib/compute/compute_run.cpp:1077-1092 | dropping a contender that holds a Run fails that Run and never terminates |
| RunControl.CommitContender.MoveFrom | src/lib/compute/compute_run.cpp:1031-1039 | assignment fails what was held, takes over the other's claim unchanged and empties the other |
| RunControl.VisitAll | src/lib/compute/compute_run.cpp:874-886 | the fan-out loop offers every child the reason and reports whether it won one |
| RunControl.RequestCancellationSource.Attach | src/lib/compute/compute_run.cpp:831-859 | a child is attached once; one attached after acceptance is offered the reason at once |
| RunControl.RequestCancellationSource.RequestCancellation | src/lib/compute/compute_run.cpp:862-890 | the first reason is offered to every attached child and the latch says whether it won one |
| RunInvariant.StepKeepsInv | src/lib/compute/compute_run.cpp:487-679 | every step of every thread keeps the invariant of all Runs, contenders, slots and the request |
| RunTheorems.OutcomeIsFinal | src/lib/compute/compute_run.cpp:487-651 | over any part of a run an outcome never changes, phase rank never decreases, an arbiter never reopens, a claimed commit ends in success or failure, and a released registration is never called again |
| RunTheorems.ExactlyOneWinner | src/lib/compute/compute_run.cpp:487-651 | at most one contender wins; the outcome is present exactly when closed and is the winner's; claimed implies CommitPending |
| RunTheorems.ContenderIffClaimed | src/lib/compute/compute_run.cpp:1678-1684 | a contender holds a Run exactly while it is CommitClaimed, and no two do |
| RunTheorems.ClaimedUntilResolved | src/lib/compute/compute_run.cpp:1026-1092 | a claimed commit stays claimed exactly until a step publishes through, drops or assigns over its contender; moves resolve nothing |
| RunTheorems.ClaimEndsWithItsContender | src/lib/compute/compute_run.cpp:636-651 | from then on the Run's outcome is the one its contender gave, for ever and as its only win |
| RunTheorems.FirstReasonSticks | src/lib/compute/compute_run.cpp:862-872 | an accepted request reason never changes |
| RunTheorems.FanOutIsComplete | src/lib/compute/compute_run.cpp:831-923 | each attached child is visited at most once; after delivery exactly once, no live one is Open, and the latch is set exactly when the request won some child; it is set whenever such a child is visible |
| RunTheorems.WinnersWereOpen | src/lib/compute/compute_run.cpp:525-535 | a child the request cancels was open until then and the latch is set before its outcome is public |
| RunTheorems.NotifiedExactlyOnce | src/lib/compute/compute_run.cpp:540-561 | callbacks run only after cancellation, at most once, with the winning reason; after dispatch every live registration has been called |
| RunTheorems.ReachedIsCalledOnce | src/lib/compute/compute_run.cpp:654-679 | a registration alive when dispatch reaches it, or made late, has been called exactly once ever after |
| RunTheorems.StorageWithinPeak | src/lib/compute/compute_run.cpp:659-669 | slot storage never exceeds the number of registrations live at once at some earlier time |
| RunProgress.OpenRunTakesOutcome | src/lib/compute/compute_run.cpp:487-538 | in every run, a terminal publication on an open Run gives it its outcome, and a cancellation starts notifying |
| RunProgress.ClaimIsGranted | src/lib/compute/compute_run.cpp:588-633 | in every run, a claim on an open Run in CommitPending is granted before the deadline and hands out the contender, and cancels the Run after it |
| RunProgress.OpenRunAdvances | src/lib/compute/compute_run.cpp:1190-1205 | in every run, an open Run moves to every later phase it is told to |
| RunProgress.RegistrationTakes | src/lib/compute/compute_run.cpp:654-679 | in every run, a registration on an open Run is stored, and one on a cancelled Run has its call as its next step |
| RunProgress.ReleasedIsSilent | src/lib/compute/compute_run.cpp:158-161 | a released registration is not called at any later time, and a dropped one frees its slot |
| RunProgress.DispatchCanFinish | src/lib/compute/compute_run.cpp:540-561 | from every reachable state of a live cancelled Run the walk over its slots is finished or some continuation finishes it |
| RunProgress.RequestTakes | src/lib/compute/compute_run.cpp:831-923 | in every run, attaching makes a child, and the first request is accepted with every child to visit |
| RunProgress.DeliveryCanFinish | src/lib/compute/compute_run.cpp:831-923 | from every reachable state an accepted request can be delivered to the end in a bounded number of steps |
| CommitProtocol.WorldStepKeeps | src/lib/runtime/kernel_compute.cpp:390-427 | every step of coordinator, Runs and commit items keeps the commit invariant |
| CommitProtocol.VisibleIsNewest | src/lib/runtime/kernel_compute.cpp:396-413 | what a commit item makes visible is the newest accepted generation of its key |
| CommitProtocol.NoCommitAfterNewerPublication | src/lib/compute/compute_commit_policy.hpp:44-49 | no commit of a key becomes visible after a newer generation of the key was accepted |
| CommitProtocol.CommitsNeverGoBack | src/lib/compute/compute_commit_policy.hpp:44-49 | committed generations of a key never decrease and a Run commits once |
| CommitProtocol.CommittedIsNeverCancelled | src/lib/runtime/kernel_compute.cpp:390-427 | every visible commit stays one of a Run that is not cancelled at any later time |
| CommitProtocol.CommitCanSucceed | src/lib/runtime/kernel_compute.cpp:390-427 | from every reachable world with an idle lane and an open Run in CommitPending of a current generation, claim, validation, publication and resolution are enabled in turn and end with that Run committed last and succeeded |
| CommitProtocol.ItemGoesOnOrSettles | src/lib/runtime/kernel_compute.cpp:390-427 | in every run a commit item goes on exactly while permitted, current and persisted; a refused one fails its Run and shows nothing, and one at its end settles its Run as it says |
| Settlement.SettlementCounters.Begin | src/lib/compute/compute_run.cpp:682-704 | begins exactly for the present owner or with nothing counted, and below the count's range; then one more is pending |
| Settlement.SettlementCounters.Commit | src/lib/compute/compute_run.cpp:707-728 | a pending observation becomes live exactly when there is one and the live count has room |
| Settlement.SettlementCounters.Cancel | src/lib/compute/compute_run.cpp:731-744 | a pending observation is dropped exactly when there is one |
| Settlement.SettlementCounters.Complete | src/lib/compute/compute_run.cpp:747-767 | a live observation ends exactly when there is one with an owner, which is captured before the count goes down |
| Settlement.CounterMeaning | src/lib/compute/compute_run.cpp:682-767 | in fields: when an observation begins, commits, cancels and completes, and what each makes of the owner and the two counts |
| Settlement.NeverTerminates | src/lib/compute/compute_run.cpp:707-790 | the only terminate branch within reach is a commit beyond the counter's range |
| Settlement.SettlementIsConserved | src/lib/compute/compute_run.cpp:682-790 | counts are the numbers of pending and live observations, each owner's telemetry is the number of its own roots and grants, and a root is decremented where it was incremented |
| Settlement.OwnerIsFixedWhileCounted | src/lib/compute/compute_run.cpp:686-694 | the telemetry owner cannot change while either count is nonzero |
| Settlement.StepMoves | src/lib/compute/compute_run.cpp:682-790 | every step moves its observation to its next stage or its grant in or out |
| Settlement.RootCanSettle | src/lib/compute/compute_run.cpp:682-790 | from every reachable state a pending observation can commit, be counted, complete and be uncounted, after which one less is pending and every other count is as it was |
| TaskDependency.TaskDependencyState.BuildDependencyState | src/lib/compute/compute_task_dependency_state.cpp:94-136 | counters, dependents and flags hold exactly the active dependency occurrences, counted from the task lists for dense ids; fails exactly on a missing table entry |
| TaskDependency.BuiltFromLists | src/lib/compute/compute_task_dependency_state.cpp:114-135 | with dense ids an edge from d to t occurs as often as d stands in the list of t if both are active and never else, a counter is the number of active positions of the task's own list, and the dependents of d hold t that often |
| TaskDependency.TaskDependencyState.ReadyForInitialSubmit | src/lib/compute/compute_task_dependency_state.cpp:61-64 | true exactly for an active task with counter zero; out of range is an error |
| TaskDependency.TaskDependencyState.ReleaseDependents | src/lib/compute/compute_task_dependency_state.cpp:74-84 | decrements along the dependents and reports the tasks taken to zero |
| TaskDependency.ReleaseMeaning | src/lib/compute/compute_task_dependency_state.cpp:74-84 | a release lowers each counter by its occurrences and reports a task once, exactly when it crosses zero |
| Scheduler.DensePlanIsValid | src/lib/compute/compute_task_dependency_state.cpp:114-135 | with dense ids and any active subset every occurrence joins two active tasks |
| Scheduler.InitialCounters | src/lib/compute/compute_task_dependency_state.cpp:120-135 | a built counter is the number of active occurrences, duplicates included |
| Scheduler.StepKeepsInv | src/lib/compute/compute_task_dependency_state.cpp:61-84 | any single decrement, submission, start or finish keeps counters equal to unreleased occurrences |
| Scheduler.ReadyOnceAfterDependencies | src/lib/compute/compute_task_dependency_state.cpp:61-84 | under every interleaving a task becomes ready at most once, only if active and only after all its dependencies finished |
| Scheduler.NoStall | src/lib/compute/compute_task_submission.cpp:386-398 | on an acyclic plan a run that cannot go on has finished every active task |
| Scheduler.RunsEnd | src/lib/compute/compute_task_submission.cpp:440-490 | every run is finite and a complete one takes one step per occurrence and three per task |
| Scheduler.LoopIsSingleReleases | src/lib/compute/compute_task_dependency_state.cpp:74-84 | the release loop leaves the counters that the single decrements leave in any order |
| NodeTasks.NodeTaskRunner.UpstreamOutput | src/lib/compute/compute_node_task_runner.cpp:285-304 | the temporary result of a planned node wins over the cached one; unknown nodes give none |
| NodeTasks.NodeTaskRunner.ResolveRuntimeParameters | src/lib/compute/compute_node_task_runner.cpp:465-489 | connected values go under their target names over the static ones, the last setter wins; an error is the fault of the first input that is missing or lacks its datum |
| NodeTasks.NodeTaskRunner.ResolveImageInputs | src/lib/compute/compute_node_task_runner.cpp:500-519 | image inputs keep their slots, disconnected ones are empty, the first missing one is the error |
| NodeTasks.NodeTaskRunner.ComputeNode | src/lib/compute/compute_node_task_runner.cpp:312-322 | a node with an output is left alone, otherwise its computed output is stored or its fault reported and nothing stored |
| NodeTasks.ParamsMeaning | src/lib/compute/compute_node_task_runner.cpp:465-489 | the resolved keys are the static ones and the targets of connected inputs, each with the datum of the last input that sets it; an error is the fault of the first bad input |
| NodeTasks.ImagesFromMeaning | src/lib/compute/compute_node_task_runner.cpp:500-519 | slots resolve each to its own upstream exactly when every connected one has an output |
| NodeTasks.ComputeMeaning | src/lib/compute/compute_node_task_runner.cpp:553-576 | a node is computed by its operation from exactly its resolved parameters and images; which fault comes first |
| NodeTasks.ResultDependsOnInputs | src/lib/compute/compute_node_task_runner.cpp:553-576 | a node's result depends on its connected inputs only |
| NodeTasks.ReadyImages | src/lib/compute/compute_node_task_runner.cpp:500-519 | with inputs ready every slot resolves to its own upstream |
| NodeTasks.ReadyNodeIsNotBlocked | src/lib/compute/compute_node_task_runner.cpp:465-519 | with inputs ready no node fails for a missing input |
| NodeTasks.LiveGraph.Commit | src/lib/compute/compute_result_committer.cpp:31-48 | slots are committed in order up to the first that names a missing node |
| NodeTasks.CommitMeaning | src/lib/compute/compute_result_committer.cpp:31-48 | a node's version rises once per populated slot, its output is the slot's, everything else stays |
| NodeTasks.LiveGraph.ClearPlanned | src/lib/compute/compute_result_committer.cpp:50-64 | clears along the order, skipping missing nodes |
| NodeTasks.ClearMeaning | src/lib/compute/compute_result_committer.cpp:50-64 | exactly the planned nodes lose their outputs and nothing else changes |
| Dataflow.BodyIsEvaluation | src/lib/compute/compute_node_task_runner.cpp:312-322 | a started task computes what sequential recursive evaluation computes and finds all its inputs |
| Dataflow.EveryScheduleEvaluates | src/lib/compute/compute_node_task_runner.cpp:553-576 | in every state of every schedule stored results are evaluations and a failing task fails exactly as its evaluation does, never for want of an input |
| Dataflow.SuccessIsScheduleIndependent | src/lib/compute/compute_task_submission.cpp:440-490 | a complete schedule succeeds exactly when every planned node evaluates |
| Dataflow.CommittedGraphIsEvaluation | src/lib/compute/compute_result_committer.cpp:31-48 | after commit every planned node holds its evaluation, computed nodes rose by one version, all others are untouched |
| Dataflow.BuiltIsSound | src/lib/compute/compute_task_dependency_state.cpp:94-136 | a plan built from task lists that name the producers of each node waits for every producer it needs |
| Dataflow.BuiltPlanCommitsEvaluation | src/lib/compute/compute_task_dependency_state.cpp:94-136 | so every successful complete schedule of a plan built from such lists commits the evaluation |
| TileStaging.TileNode.Enter | src/lib/compute/compute_node_task_runner.cpp:333-339 | a usable memory cache marks the node precomputed and skips; otherwise skip exactly if precomputed |
| TileStaging.TileNode.TrySatisfyFromDisk | src/lib/compute/compute_node_task_runner.cpp:380-400 | a miss changes nothing; an unmarked node is skipped exactly on an allowed hit into an empty node, which is then filled; a staged node is never overwritten |
| TileStaging.TileNode.EnsureOutputBuffer | src/lib/compute/compute_node_task_runner.cpp:402-424 | a buffer is made only for an empty node that is not precomputed |
| TileStaging.TileNode.CountCompleted | src/lib/compute/compute_node_task_runner.cpp:426-443 | exactly the count that reaches the expected number finalizes |
| TileStaging.RegionMeaning | src/lib/compute/compute_node_task_runner.cpp:324-443 | in fields: when a tile is skipped at entry, when a disk load fills and marks the node, when a buffer is made and which count finalizes |
| TileStaging.NeverMixed | src/lib/compute/compute_node_task_runner.cpp:324-443 | in no reachable state is one tile skipped while another has a buffer, and there is at most one buffer |
| TileStaging.FinalizedAfterLastWrite | src/lib/compute/compute_node_task_runner.cpp:426-443 | metadata is finalized at most once and only when every tile has been written |
| TileStaging.AllTilesOrNone | src/lib/compute/compute_node_task_runner.cpp:324-443 | when all tile tasks returned, all were skipped with nothing staged and memory or disk serving the node, or all wrote into one buffer finalized once |
| TileStaging.UncachedTilesExecute | src/lib/compute/compute_node_task_runner.cpp:324-443 | a run without usable memory cache and without a disk hit ends with every tile executed |
| TileStaging.CachedTilesAreSkipped | src/lib/compute/compute_node_task_runner.cpp:333-339 | with a usable memory cache every tile is skipped |
| TileStaging.TilesNeverStall | src/lib/compute/compute_node_task_runner.cpp:324-443 | a run of tile tasks that cannot go on has seen all of them return |
| Geometry.NarrowingIsExactIff | src/lib/compute/compute_geometry.cpp:10-22 | narrowing keeps the pixel set exactly for empty or representable edges and keeps nothing otherwise |
| Geometry.ClipIsExact | src/lib/compute/compute_geometry.cpp:30-40 | clipping is exact pixel-set intersection for all int fields |
| Geometry.IntersectIsExactIff | src/lib/compute/compute_geometry.cpp:43-54 | intersection is exact exactly when empty or ending within the int range, and empty when it ends beyond |
| Geometry.TranslateIsExactIff | src/lib/compute/compute_geometry.cpp:57-71 | translation moves every pixel exactly when representable, and translating back restores the rectangle |
| Geometry.ExpandIsExactIff | src/lib/compute/compute_geometry.cpp:74-83 | padding is exact exactly when the padded edges are representable, and empty otherwise |
| Geometry.AlignCoversIff | src/lib/compute/compute_geometry.cpp:86-99 | alignment covers exactly for representable edges and origins that round down |
| Geometry.AlignKeepsPixelsIff | src/lib/compute/compute_geometry.cpp:86-99 | alignment loses no pixel under exactly those conditions |
| Geometry.AlignIsLeastCoverIff | src/lib/compute/compute_geometry.cpp:86-99 | alignment is the least grid-aligned cover exactly under those conditions and ends that round to the next grid line; nonnegative origins always meet them |
| Geometry.MergeIsLeastIff | src/lib/compute/compute_geometry.cpp:102-115 | merging covers both exactly when representable, is then least, and is empty otherwise |
| Geometry.ScaledSizeCovers | src/lib/compute/compute_geometry.cpp:118-127 | a scaled-down size is the least number of cells covering the size and fits an int |
| Geometry.AlignIsDownThenUp | src/lib/compute/compute_geometry.cpp:130-152 | for every nonempty int rectangle and factor at least two, aligning equals scaling down and up |
| Geometry.DownUndoesUpIff | src/lib/compute/compute_geometry.cpp:130-152 | scaling down undoes scaling up exactly when representable and, above factor one, with nonnegative ends |
| Geometry.HaloIsExactIff | src/lib/compute/compute_geometry.cpp:155-161 | the halo is the padded rectangle within the bounds exactly when padding fits or nothing of it lies within |
| Geometry.DegenerateInputs | src/lib/compute/compute_geometry.cpp:43-161 | the pixel sets of merging with an empty rectangle, of padding and halo by nothing or less, of aligning by one or less, and what is empty for empty rectangles or factors at most zero |
| Geometry.ScaleUpFillsCellsIff | src/lib/compute/compute_geometry.cpp:142-152 | scaling up has a pixel exactly when its cell is in the rectangle, exactly when the result is representable, and is empty otherwise |
| Geometry.ScaledAndAlignedEdges | src/lib/compute/compute_geometry.cpp:86-141 | the exact edges of the scaled-down and the aligned rectangle by floor and ceiling, negative coordinates included |
| Geometry.ScaleDownIsTouchedCellsIff | src/lib/compute/compute_geometry.cpp:130-141 | scaling down gives the cells that hold a pixel, exactly when origins round down and ends round up |
| Geometry.NoOverflow | src/lib/compute/compute_geometry.cpp:86-152 | no 64-bit intermediate overflows, including both scaled edges |
| Geometry.NarrowingNeverOverflows | src/lib/compute/compute_geometry.cpp:10-22 | the extent subtraction is reached only where it cannot overflow |
| Geometry.TranslationNeverOverflows | src/lib/compute/compute_geometry.cpp:57-71 | guards and sums stay in range for every 64-bit offset |
| Geometry.AlignCutsNegativeOrigin | src/lib/compute/compute_geometry.cpp:86-99 | a rectangle with a negative origin that alignment does not cover |
| Geometry.AlignOvershootsNegativeEnd | src/lib/compute/compute_geometry.cpp:86-99 | a rectangle with a negative end that alignment covers with one cell too many |
| Geometry.ScalingLosesNegativeEnd | src/lib/compute/compute_geometry.cpp:130-152 | a rectangle with a negative end that scaling up and down does not restore |
| Geometry.FarEdgesVanish | src/lib/compute/compute_geometry.cpp:43-115 | rectangles whose intersection, padding and merge become empty at the end of the int range |
| Geometry.PlannedSizeIsLeast | src/lib/compute/compute_node_task_runner.cpp:91-104 | the planned size holds every tile that counts and is attained on both axes |

## Left out

- Atomics are sequentially consistent, locks and condition variables do not throw, and allocation does not fail.
- The lane's FIFO order, threads and drain wait are not modelled; a turn may start whenever its ticket may run, which covers the real order.
- Exceptions thrown by candidate, cancellation and notification callbacks are not modelled; the code contains them except in the deadline path of `try_claim_commit`.
- Submission of a publication item that the graph-state lane refuses is modelled as abandonment of the preparation.
- Run descriptors, submission validation, run ids, lease counts, plan publication gates and the wait functions on top of them are left out as easy members.
- SupersessionProgress.PendingCanStartOnSoleWorker: turns of other queued tickets that the lane's FIFO order would take first are not part of the continuation.
- RunControl.VisitAll: does not list the slot calls of each child and takes every child as alive; expired children are covered by the Run protocol.
- RunControl.RequestCancellationSource.RequestCancellation: states the call without concurrent attachments and does not list the slot calls of each child; interleavings and notifications are covered by the Run protocol, the slot calls of one child by its own RequestCancellation.
- RunControl.ComputeRunControl.ObserveCancellation: the clock is a parameter, and other contenders between its two regions are covered by the Run protocol only.
- RunControl.CommitContender.MoveFrom: takes it as given that two contenders hold different Runs, which RunTheorems.ContenderIffClaimed proves of every run.
- Supersession key comparison and intent normalization are left out; keys are values with equality.
- Settlement.NeverTerminates: relies on the caller's order that a reservation completes after its commit call returned and after its child grants were released.
- Dataflow covers one task per node with the disk cache off and deterministic operations; execution timing in output metadata is left out, and cancellation of a schedule midway is not modelled.
- Dependency counters are unbounded integers; 32-bit overflow of a counter is not modelled.
- Tile contents, operation lookup failures and missing tile inputs are not modelled; a write marks its tile as written.
- Image buffers, caches on disk, traces, metrics, exception text and retained-memory estimates are left out.
- Moved-from temporary outputs after a commit are not modelled; the committer reads its slots as values.
