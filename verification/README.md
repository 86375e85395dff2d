# Orchestrator protocols

A Dafny model of the five concurrent protocols at the centre of the orchestrator, with proofs of what
they keep over every interleaving:

1. **Task assignment and crash recovery.** `Supervisor.dfy` is a step system: every store call and every
   critical section of `tryAssignTask`, `findIdleAgent`, `checkHeartbeats`, `crashAgent`, `RegisterAgent`,
   `Heartbeat`, `StartWork`, `ReportOutput` and `completeAgent` is one atomic step, and go locals live in
   program counters (internal/supervisor/supervisor.go:108-762). `SupervisorInvariant.dfy` is a
   rely-guarantee invariant; `Conservation.dfy`, `Exclusion.dfy`, `Sentinel.dfy`, `Signals.dfy` and
   `Histories.dfy` hold the theorems. `Untimely.dfy` and `EmptyIds.dfy` say exactly where two of them end,
   with runs put together from `Paths.dfy` and `Scripts.dfy`.
   `SupervisorService.dfy`, `Sweep.dfy`, `Store.dfy` and `Restart.dfy` are the same code as classes with fields, whose
   methods are proved one at a time; `TransitionRuns.dfy` is `ApplyEvent` under contention.
2. **DAG engine.** `Graph.dfy`, `NewGraph.dfy` and `TopologicalSort.dfy` validate a specification and layer
   it by Kahn's algorithm; `Status.dfy` is the tracker; `ExecutorRuns.dfy` is the concurrent fail-fast run
   as a step system and `ExecutorService.dfy` the loops that refine it; `Completion.dfy` and
   `CompletionRuns.dfy` are the completion registry; `EndToEnd.dfy` joins executor, submitters, registry
   and supervisor into one system, and `NodeCompletions.dfy` holds its theorems.
3. **Event fan-out and resume.** `Broker.dfy` is the broker and its subscriptions as objects;
   `Resume.dfy` is one SSE connection interleaved with publishing, polling and fan-out.
4. **Restart policy.** `Restart.dfy`.
5. **Floor reservation.** `Floors.dfy`.

`Types.dfy`, `Agent.dfy` and `Ordering.dfy` are the shared vocabulary. A theorem about "every run"
quantifies over finite sequences of states whose neighbours differ by one step of any actor.

## What the theorems assume

- One assignment loop and one heartbeat loop, as `Run` starts them (internal/supervisor/supervisor.go:220-247);
  any number of RPCs.
- Agent ids are fresh: registration draws a new UUID (internal/ipc/handlers.go:49).
- Task ids may be empty. The task RPC refuses an empty id (internal/ipc/handlers.go:62-63), but a DAG node may
  carry one: `SubmitDAG` (internal/ipc/handlers.go:150-155), `NewGraph` and the blocking submitter pass it on.
  Conservation is stated for each task with a non-empty id, whatever the others carry; theorems on signals and
  deliveries ask that no empty id was submitted so far, and `EmptyIds.dfy` gives the exact conditions.
- Theorems that need a failure-free store say so by `faulty == false`. With `faulty == true` any store
  call except `DequeueTask` may fail without effect in any step; a failed dequeue is no step at all.
- The cooldown theorems ask that each crash comes from its sentinel to its recorded decision in less than 24 hours,
  the time the sentinel lasts (`CrashSentinel.Prompt`). No longer time will do (`UntimelyCrash.SafeIffWithinSentinel`).
  The condition on single states behind it is `Exclusion.Exposed`: the recheck of `findIdleAgent` is about to admit an
  agent that a crash has moved to idle and is about to exclude. Such a crash has taken 24 hours
  (`CrashSentinel.ExposedIsLate`), and from every exposed state the theorems can be violated
  (`UntimelyCrash.ExposedIsFatal`).
- In the supervisor step system the policy may give any decision. Where a run violates the cooldown theorems, its
  decision is the one `Restart.Crashed` gives, under any configuration with 0 < base <= max within 2^62.
- The clock is monotone. Priorities are real numbers, without NaN.
- One outstanding Wait per task id. `SecondWaiterStranded` shows what happens otherwise.

## Where the code and its comments differ

- `computeBackoff` is documented as min(base * 2^(n-1), max). That holds for every n exactly when base is
  not above max and the doubling stays inside int64 (`Restart.BackoffFormula`).
- `handleSSE` stitches backfill and live events exactly when `Resume.Stitches` holds: the gate is armed only
  if the backfill wrote something and `since` is not "0". A cursor ahead of the cut with nothing to backfill
  replays older events; a client at "0" whose cut entry was trimmed away gets the retained log twice
  (`Resume.ExactIffStitches`).
- A tombstone outlives a normal completion, so a reused task id loses a Complete that comes before its Wait: the
  run `CompletionRuns.ReusedIdIsStranded` ends with its second Wait blocked. The tombstone alone decides it
  (`CompletionRuns.EarlyCompleteIff`).
- `crashAgent` says its sentinel keeps `findIdleAgent` from seeing the agent idle without a cooldown entry.
  That holds for 24 hours (`CrashSentinel.SentinelHolds`). Then the entry expires: in `UntimelyCrash.ExcludedYetAssigned`
  a crash held up for exactly that long lets the agent be assigned while its exclusion stands.
- `completeAgent` says the record's task id is authoritative. An agent bound to a task with an empty id looks
  as if it had none, so the id it claims is signalled unchecked; in `EmptyIds.CompletedUndelivered` a DAG node is
  COMPLETED while its task is still queued.
- `Machine` says compare-and-set guards all transitions. `Heartbeat` and the task binding write whole records
  back; a StartWork that looked its mutex up before registration can thereby be undone
  (`StateHistories.RolledBack`).
- `crashAgent` leaves the task id in the idle agent's record. Only a non-idle agent's task counts as held.

## Model

| member | source | states |
|---|---|---|
| Conservation.TaskConservation | internal/supervisor/supervisor.go:304-506 | in every reachable state with a failure-free store, each submitted (id, priority) pair with a non-empty id occurs exactly as often in the queue, in the hand of a running step, with a non-idle agent and among the delivered tasks together as it was submitted |
| EmptyIds.ConservedIff | internal/supervisor/supervisor.go:356-360 | that account holds of a task in all failure-free runs if and only if its id is not empty |
| Conservation.ExclusiveOwnership | internal/supervisor/supervisor.go:404-506 | with distinct ids and a failure-free store a task held by an agent is held by no other agent, is not queued and was not delivered, under any priority |
| Conservation.AtLeastOnce | internal/supervisor/supervisor.go:317-486 | whatever store calls fail, a submitted task with a non-empty id is queued, in hand, held, was bound to an agent at its delivery, or was in an EnqueueTask call that returned an error |
| Conservation.StepAccounted | internal/supervisor/supervisor.go:404-762 | each single step of any actor keeps the account of an arbitrary task with a non-empty id |
| SupervisorInvariant.StepKeepsInv | internal/supervisor/supervisor.go:108-762 | each step keeps the locking protocol: whoever is inside a per-agent critical section holds that mutex, and the binding and busyness it read there are still true |
| SupervisorInvariant.RunKeepsInv | internal/supervisor/supervisor.go:220-247 | the locking invariant in every reachable state |
| CrashSentinel.ExcludedAgentsRest | internal/supervisor/supervisor.go:323-373 | whatever fails and however the threads interleave, as long as every crash comes from its sentinel to its recorded decision in under 24 hours, an agent whose recorded backoff has not expired, or whose circuit is open, is idle |
| CrashSentinel.OpenCircuitIsFinal | internal/supervisor/supervisor.go:362-373 | in every such run a circuit once recorded as open stays open and its agent idle |
| UntimelyCrash.SafeIffWithinSentinel | internal/supervisor/supervisor.go:323-326 | for any time d, excluded agents are idle in all runs whose crashes stay below d if and only if d is at most the 24 hours of the sentinel; and the same for open circuits |
| CrashSentinel.SentinelHolds | internal/supervisor/supervisor.go:323-345 | from the sentinel to the recording of the decision the agent's cooldown entry lies exactly 24 hours after the step that set it, whatever all other threads do |
| CrashSentinel.ExposedIsLate | internal/supervisor/supervisor.go:531-575 | where the recheck is about to admit an agent that a crash is about to exclude, that crash has set its sentinel at least 24 hours before |
| Exclusion.StepSafe | internal/supervisor/supervisor.go:531-575 | every step from a state that is not exposed keeps excluded agents idle and visible in the maps, and picked candidates clear of exclusions and of crashes about to exclude them |
| UntimelyCrash.ExposedIsFatal | internal/supervisor/supervisor.go:531-575 | from every reachable exposed state, whatever led there, some continuation assigns the candidate while the exclusion stands that answers its crash: the decision already taken or else the restart policy's, under any configuration in range and any of its books |
| UntimelyCrash.ExcludedYetAssigned | internal/supervisor/supervisor.go:323-373 | under any configuration in range, a failure-free run whose crashes take at most 24 hours ends with an agent assigned although the exclusion the policy gave it stands |
| UntimelyCrash.SomewhereExposed | internal/supervisor/supervisor.go:323-326 | every run that has an excluded agent not idle had an exposed state before, in a crash that had taken 24 hours |
| CompletionSignals.SignalsAreDeliveries | internal/supervisor/supervisor.go:717-746 | with a failure-free store and no empty id submitted so far, every signalled id belongs to a submitted task an agent had bound at its delivery, whatever id the caller claimed; and every delivered id has been signalled once no RPC is running |
| EmptyIds.SignalsExactIff | internal/supervisor/supervisor.go:728-730 | for a set of allowed ids, signals stand for deliveries in all failure-free runs if and only if the empty id is not in it |
| TransitionRuns.HistoriesAreLegal | internal/agent/transition.go:5-37 | under any number of concurrent ApplyEvent calls each agent's history is a path of the transition table from idle to its stored state |
| TransitionRuns.CallSucceedsIff | internal/agent/machine.go:47-73 | a call past its read succeeds exactly if its swap does not fail and finds the state its read found, and then moves the agent to the state the table names |
| TransitionRuns.ReadGoesOnIff | internal/agent/machine.go:47-60 | a call gets past its read exactly if that does not fail and finds a known agent in a recognised state that accepts the event |
| Agent.AcceptedTransitions | internal/agent/transition.go:5-37 | the table accepts exactly the four steps of the ring and a failure from anywhere to idle |
| TransitionRuns.OneWinnerPerIdleVisit | internal/agent/machine.go:47-73 | each successful call made exactly one change, and between two successful task_assigned calls on an agent it visited idle again |
| TransitionRuns.FailureChangesNothing | internal/agent/machine.go:48-64 | a call that returned an error changed nothing, whatever ran beside it |
| TransitionRuns.ChangesAreReported | internal/state/mock.go:108-126 | where ApplyEvent calls alone write, a stored state changes only in a swap whose caller reports success on that agent |
| StateHistories.LegalIffCurrent | internal/supervisor/supervisor.go:404-762 | with Heartbeat and the task binding writing whole records back, a step takes an agent's state along the transition table if and only if it does not write back a state that is no longer the agent's |
| StateHistories.LegalWithoutBypass | internal/supervisor/supervisor.go:612-665 | as long as no StartWork or ReportOutput on the agent is in flight on its path without a mutex, the agent's history in the whole supervisor is legal |
| StateHistories.RolledBack | internal/supervisor/supervisor.go:600-605 | a reachable state from which a heartbeat takes a WORKING agent back to ASSIGNED |
| SupervisorService.Supervisor.TryAssignTask | internal/supervisor/supervisor.go:404-506 | a due tick binds the head of the queue exactly if an agent is assignable, the one found is registered, its transition goes through and its record can be written; otherwise the task is back in the queue unless the store refuses it; the loop backs off exactly after a failed dequeue, a refused transition or a failed binding, and exactly a transition is announced |
| SupervisorService.Supervisor.TaskAssignLoop | internal/supervisor/supervisor.go:390-402 | on a healthy store no number of ticks, with any RPCs and sweeps between them, makes the loop start to back off |
| SupervisorService.Supervisor.Assign | internal/supervisor/supervisor.go:438-486 | with the mutex held: either the agent is ASSIGNED with exactly this task and nothing else changed, or the task is requeued and at most the state moved |
| SupervisorService.Supervisor.FindIdleAgent | internal/supervisor/supervisor.go:531-575 | finds an idle, uncooled, non-excluded agent if and only if there is one |
| SupervisorService.Supervisor.RecordAssignError | internal/supervisor/supervisor.go:511-518 | the next attempt waits 2, 4, 8, 16, 32 and then always 64 poll intervals after consecutive errors |
| SupervisorService.Supervisor.CrashAgent | internal/supervisor/supervisor.go:304-387 | a recorded crash moves a busy agent to idle, requeues its task at its priority, asks the policy and installs its decision; otherwise nothing but the agent's cooldown may change |
| SupervisorService.Supervisor.CheckHeartbeats | internal/supervisor/supervisor.go:265-387 | whatever fails, each agent that is overdue, registered, readable and whose transition goes through is idle, its task is back in the ordered queue as often as such agents held it, its crash is recorded with the policy, whose decision is in force, and one event says so; every other agent keeps its record, crashes and exclusions, but for the cooldown entry of a suspect whose transition failed; on a healthy store no registered overdue agent with a recognised state is left |
| HeartbeatSweep.SweptRecords | internal/supervisor/supervisor.go:265-292 | after a sweep over all agents none is dead any more, and no record but those of the dead has changed |
| CrashSentinel.CrashNeedsSilence | internal/supervisor/supervisor.go:281-290 | whenever crashAgent works on an agent, the sweep saw it earlier in the run, not idle and silent for longer than the threshold |
| SupervisorService.Supervisor.CompleteAgent | internal/supervisor/supervisor.go:692-762 | succeeds exactly for a registered reporting agent; then the agent is idle without a task, its crashes forgotten, its exclusions lifted and the store's task id signalled; a failure changes nothing |
| SupervisorService.Supervisor.SignalCompletion | internal/supervisor/supervisor.go:717-746 | the registry is told the recorded id, or the caller's where the record is empty or unreadable, or nothing if both are empty |
| SupervisorService.Supervisor.RegisterAgent | internal/supervisor/supervisor.go:108-157 | registers a fresh idle record and a mutex, or changes neither; except that a Stop after the store write leaves the record without a mutex, and is reported |
| SupervisorService.Supervisor.Heartbeat | internal/supervisor/supervisor.go:580-607 | refreshes only the heartbeat field |
| SupervisorService.Supervisor.Advance | internal/supervisor/supervisor.go:612-665 | StartWork succeeds exactly for a valid id of an ASSIGNED agent and makes it WORKING, ReportOutput for a WORKING one and makes it REPORTING, if the swap does not fail; a failure changes nothing, and the event is published only under the mutex |
| Store.Machine.ApplyEvent | internal/agent/machine.go:47-73 | undisturbed, succeeds exactly when the stored state accepts the event and the swap does not fail, and then moves only that agent's state |
| Store.MockStore.CompareAndSetAgentState | internal/state/mock.go:108-126 | swaps exactly if the stored state is the expected one; otherwise reports why and changes nothing |
| Store.MockStore.SetAgentFields | internal/state/mock.go:149-161 | replaces the record unless a global or per-agent failure is configured |
| Store.MockStore.GetAgentFields | internal/state/mock.go:182-198 | returns the record unless a failure is configured or the agent is unknown |
| Store.MockStore.ListAgents | internal/state/mock.go:220-229 | every known id exactly once |
| Store.MockStore.ClearCurrentTask | internal/state/mock.go:263-279 | clears task and priority of a known agent and nothing else |
| Store.MockStore.EnqueueTask | internal/state/mock.go:467-488 | the queue gains exactly this task and is in priority order again |
| Store.MockStore.DequeueTask | internal/state/mock.go:507-521 | removes exactly one task, of minimal priority |
| Store.MockStore.PublishEvent | internal/state/mock.go:283-295 | appends one entry with the next number and a non-zero timestamp where none was given |
| Store.MockStore.ReadEvents | internal/state/mock.go:306-336 | the first `count` entries above the cursor's lower bound, in order; nothing for a foreign cursor |
| Store.MockStore.TrimEvents | internal/state/mock.go:352-363 | keeps the newest entries, and reads from any later cursor are unaffected |
| Store.AfterIsSuffix | internal/state/mock.go:297-305 | a cursor is a valid lower bound whether or not its entry still exists: what is read is a suffix of the retained entries |
| NewGraph.NewGraph | internal/dag/graph.go:20-71 | the exact outcome: empty, first duplicate or missing task, first undeclared dependency, cycle, or a graph that represents the specification |
| NewGraph.Link | internal/dag/graph.go:47-55 | predecessor and successor lists are balanced entry by entry, duplicates and self-loops included |
| NewGraph.CyclesAgree | internal/dag/graph.go:57-68 | the graph is cyclic exactly if the specification's dependency entries are |
| NewGraph.SpecOrderIrrelevant | internal/dag/graph.go:28-55 | two specifications with the same nodes and dependencies get the same levels, whatever their order or repeated entries |
| TopologicalSort.TopologicalSort | internal/dag/sort.go:9-51 | fails if and only if there is a dependency cycle; otherwise every node is on exactly one level and every dependency on a strictly earlier one |
| TopologicalSort.ReleaseLevel | internal/dag/sort.go:25-41 | after a level the in-degrees count the unfinished dependencies and the next queue is exactly the newly ready nodes |
| TopologicalSort.LevelIsLongestChain | internal/dag/sort.go:13-44 | a node is on level k exactly if the longest dependency chain ending at it has k + 1 nodes |
| TopologicalSort.Canonical | internal/dag/sort.go:13-44 | the levels, including the order inside each, are determined by the dependency relation alone |
| Status.StatusTracker.CreateExecution | internal/dag/status.go:75-93 | registers all nodes PENDING and the execution RUNNING |
| Status.StatusTracker.MarkNodeCompleted | internal/dag/status.go:114-134 | marks one known node COMPLETED at this time; the execution completes exactly if all other nodes have; nothing else changes |
| Status.StatusTracker.MarkNodeFailed | internal/dag/status.go:137-158 | marks one known node FAILED with this error and time and fails the execution, keeping an earlier completion time; nothing else changes |
| Status.StatusTracker.MarkNodeRunning | internal/dag/status.go:96-110 | marks one node of one execution as running |
| Status.StatusTracker.AllNodesCompleted | internal/dag/status.go:205-212 | true exactly if every node is COMPLETED |
| Status.StatusTracker.ActiveCount | internal/dag/status.go:161-172 | the number of RUNNING executions |
| Status.CompletedConsistent | internal/dag/status.go:114-134 | completing a node keeps the execution state in step with its nodes exactly if it does not overwrite the only failure of an unfinished execution |
| Status.FailedConsistent | internal/dag/status.go:137-158 | failing a node keeps the execution state in step with its nodes |
| ExecutorRuns.DependencySafety | internal/dag/executor.go:91-140 | in every reachable state a running or submitted node has all predecessors COMPLETED, no node is submitted twice, and a skipped node was never submitted |
| ExecutorRuns.OutcomeIsExact | internal/dag/status.go:114-158 | in every reachable state the execution is COMPLETED exactly when all nodes are, FAILED exactly when some node is, RUNNING otherwise |
| ExecutorRuns.FinishedOutcome | internal/dag/executor.go:91-140 | when run returns every node is COMPLETED or FAILED, and the execution COMPLETED exactly if every node was submitted and every submission returned nil |
| ExecutorRuns.CompletedWasReturned | internal/dag/executor.go:121-140 | a COMPLETED node's SubmitTask was called and later returned nil |
| ExecutorRuns.CancelledRunStops | internal/dag/executor.go:106-116 | after a cancellation no node of a later level is ever submitted, and when run returns each of them is FAILED as skipped |
| ExecutorRuns.CancelledHasCause | internal/dag/executor.go:90-137 | a run is cancelled only by a shutdown or by a node that has FAILED |
| ExecutorRuns.ErrorWasReturned | internal/dag/executor.go:132-137 | the error a node reports is the one it was marked with after its own submission failed, and so is its completion time |
| ExecutorService.Executor.Execute | internal/dag/executor.go:50-76 | refuses exactly the faulty or cyclic specifications, with the first fault as the error and no trace left; otherwise registers all nodes PENDING and hands over a layering |
| ExecutorService.Executor.Run | internal/dag/executor.go:91-117 | under any scheduling of a level's goroutines the loops make a run of the step system to its end, and touch no other execution, provided every SubmitTask returns |
| ExecutorService.Executor.RunLevel | internal/dag/executor.go:95-107 | if every SubmitTask returns, the fan-out ends, with every goroutine of the level done |
| ExecutorService.Executor.SkipRest | internal/dag/executor.go:109-114 | marks every node of the later levels as skipped |
| Completion.CompletionRegistry.Claim | internal/supervisor/completion.go:90-102 | Wait's critical section: tombstone and timestamp are dropped and the returned channel is the map's |
| Completion.CompletionRegistry.Complete | internal/supervisor/completion.go:126-151 | consumes a tombstone, or closes the waiter's channel, or plants a closed timestamped one; never closes twice |
| Completion.CompletionRegistry.Cleanup | internal/supervisor/completion.go:158-164 | the id leaves both maps and gets a timestamped tombstone |
| Completion.CompletionRegistry.SweepOnce | internal/supervisor/completion.go:175-190 | drops exactly the tombstones and unclaimed completions that are a TTL old, the latter with their entries; younger ones keep their stamps, and all other entries their channels |
| Completion.SweepIsExact | internal/supervisor/completion.go:175-190 | the same of any sound registry, id by id |
| Completion.CompletedSound | internal/supervisor/completion.go:126-151 | Complete keeps tombstones and waiters disjoint, unclaimed completions closed and channels unshared |
| Completion.CompleteBeforeWait | internal/supervisor/completion.go:90-151 | a Complete before its Wait is remembered exactly if the id carries no tombstone |
| Completion.SecondWaiterStranded | internal/supervisor/completion.go:158-164 | with two waiters on one id the first one's Cleanup leaves the second on a channel the next Complete does not close |
| CompletionRuns.NoLostWakeup | internal/supervisor/completion.go:90-151 | a blocked Wait's channel is the map's channel in every reachable state, so the next Complete on its id wakes it |
| CompletionRuns.WakeupsAreCompletions | internal/supervisor/completion.go:90-111 | Wait returns nil only after a Complete on its id |
| CompletionRuns.EarlyCompleteIsKept | internal/supervisor/completion.go:126-151 | a Complete on a fresh id before its Wait makes that Wait return, whatever happens between, unless a sweep finds it expired or the id is cleaned up |
| CompletionRuns.EarlyCompleteIff | internal/supervisor/completion.go:126-151 | with no second Complete on the id, no Cleanup of it and no sweep that finds it expired in between, the Wait after a Complete returns if and only if the id carried no tombstone at the Complete |
| CompletionRuns.EarlyCompleteIsLost | internal/supervisor/completion.go:126-131 | after a Complete that met a tombstone the next Wait on the id blocks, whatever happens between, unless Complete comes once more |
| CompletionRuns.ReusedIdIsStranded | internal/supervisor/completion.go:158-164 | a run of a second use of an id: waited for, completed and cleaned up once, it is completed again before its Wait, which then blocks |
| CompletionRuns.SweepSparesClaims | internal/supervisor/completion.go:175-190 | no sweep removes an entry a Wait has claimed |
| CompletionRuns.SweepForgets | internal/supervisor/completion.go:158-190 | a sweep one TTL after an id was last touched, its waits cleaned up, leaves it in none of the three maps |
| CompletionRuns.LateCompleteLeavesNothing | internal/supervisor/completion.go:126-190 | a Complete that comes after its Wait was cleaned up, with no Claim or Complete on the id in between, leaves the id in none of the three maps if and only if no sweep ran a TTL or more after the Cleanup |
| NodeCompletions.CompletedWasSignalled | internal/dag/blockingsubmitter.go:22-29 | whatever store calls fail, a DAG node is COMPLETED only after completeAgent signalled that node's own task id, which was submitted and is not empty |
| NodeCompletions.CompletedStandsForDelivery | internal/dag/blockingsubmitter.go:22-29 | with a failure-free store and no empty id submitted so far, that signal stands for a submitted task with this id which some agent had bound and delivered |
| NodeCompletions.CompletedWasDelivered | internal/supervisor/supervisor.go:692-762 | with a failure-free store, distinct ids and no empty one submitted so far, a COMPLETED node's task, priority included, was delivered exactly once and is nowhere else in the system |
| EmptyIds.CompletedUndelivered | internal/supervisor/supervisor.go:728-730 | for every non-empty id b, a failure-free run of the whole system with distinct ids in which the node with task b is COMPLETED while its task is still queued, because another node's task has an empty id |
| EmptyIds.CompletionsExactIff | internal/dag/blockingsubmitter.go:22-29 | for a set of allowed ids, a COMPLETED node whose task was not delivered exactly once is possible if and only if the set holds the empty id and another one |
| NodeCompletions.SignalReleasesNode | internal/dag/blockingsubmitter.go:26-28 | a signal on the task of a node whose wait is blocked lets that wait return nil |
| Broker.EventBroker.Subscribe | internal/httpbridge/broker.go:175-188 | the cut is the cursor at the moment of registration; a closed broker hands out a closed, unregistered channel |
| Broker.EventBroker.Unsubscribe | internal/httpbridge/broker.go:196-203 | idempotent removal and close; a channel is never closed twice |
| Broker.EventBroker.Close | internal/httpbridge/broker.go:207-217 | afterwards every subscription ever handed out is closed |
| Broker.EventBroker.FanOne | internal/httpbridge/broker.go:135-143 | each registered channel that is not full takes the entry as its last; each full one is unchanged and counts one drop; no closed channel is sent to |
| Broker.EventBroker.FanOut | internal/httpbridge/broker.go:134-145 | with consumers receiving meanwhile, every account survives a batch; where the free slots suffice for it nothing is dropped and what was received and what is in the channel grow by exactly the batch |
| Broker.Subscription.Receive | internal/httpbridge/broker.go:32-34 | a receive takes the first entry out of the channel, or finds it empty |
| Broker.DropsIffFull | internal/httpbridge/broker.go:19-26 | a send drops its entry exactly where the channel is full |
| Broker.EventBroker.Poll | internal/httpbridge/broker.go:103-149 | one tick, with other handlers acting between read and fan-out: what is fanned out is what the store holds above the cursor, without a gap on an untrimmed log |
| Broker.PlacedPlusDropped | internal/httpbridge/broker.go:48-63 | on an untrimmed log the entries placed in a channel are increasing, lie between cut and cursor, and placed plus dropped is that interval's length |
| Resume.ExactlyOnce | internal/httpbridge/sse.go:67-163 | if the parts stitch, what the client got is at every moment the log after its cursor up to some point, and all of it once the broker has caught up and the channel is drained |
| Resume.NothingDroppedIff | internal/httpbridge/broker.go:19-26 | nothing was dropped in a run if and only if every send to the connection found room |
| Resume.KeepingUpIsExact | internal/httpbridge/sse.go:67-163 | so exactly-once resume holds for every client that keeps up, if the parts stitch |
| Resume.MirrorsBroker | internal/httpbridge/broker.go:134-145 | sends and receives here are, in numbers, those of the broker and its subscription |
| Resume.ExactIffStitches | internal/httpbridge/sse.go:138-139 | once a live entry has arrived the output is exact if and only if the parts stitch |
| Resume.AheadOfCutReplays | internal/httpbridge/sse.go:130-139 | a reachable state in which a client whose cursor is ahead of the cut has been sent an entry before its cursor |
| Resume.TrimmedCutRepeats | internal/httpbridge/sse.go:138 | a reachable state in which a client that started at "0" has been sent the same entry twice |
| Resume.ReadIsReadEvents | internal/state/mock.go:306-336 | the reads of this system are those of the store: same numbers and same events for any cursor and batch |
| Resume.ExactBackfill | internal/httpbridge/sse.go:93-119 | during the backfill the output is the log after the cursor up to some point |
| Resume.UntrimmedResume | internal/httpbridge/sse.go:67-163 | on an untrimmed log, with the cursor not ahead of the cut or something to backfill, the events sent are exactly the events after the cursor |
| Resume.ForeignCursorIsLiveOnly | internal/httpbridge/sse.go:93-139 | a cursor the store cannot read gets the live entries after the cut |
| Resume.Backfill | internal/httpbridge/sse.go:91-139 | on a quiet store, for any batch size: everything above the cursor through the cut, and the exact gate |
| Restart.RestartPolicy.RecordCrash | internal/supervisor/restart.go:87-123 | the loop-based update computes the policy function and its decision |
| Restart.RestartPolicy.ComputeBackoff | internal/supervisor/restart.go:135-144 | the loop computes the wrapped doublings capped at the maximum |
| Restart.PruningCounts | internal/supervisor/restart.go:97-103 | pruning drops every time before the cutoff and keeps every other as often as it was there |
| Restart.PruningKeepsSuffix | internal/supervisor/restart.go:97-103 | on times in order what is kept is the suffix of exactly those not before the cutoff |
| Restart.SlidingWindow | internal/supervisor/restart.go:87-132 | after any reports about any agents, the list kept for an agent consists of its crashes since its last success that lie in the window ending with its last crash, each report once and in order; its counter is the number of those since that success whose windows were within the threshold |
| Restart.NextDecision | internal/supervisor/restart.go:87-122 | a crash opens the circuit exactly if the number of reported crashes of the agent since its last success and within the window, this one included, exceeds the threshold; otherwise the backoff is that of one more restart than were granted since |
| Restart.RareCrashesRestart | internal/supervisor/restart.go:97-122 | an agent whose earlier crashes all lie before the window is restarted, however many they are |
| Restart.BackoffFormula | internal/supervisor/restart.go:134-144 | the documented formula holds for every n if and only if base is not above the maximum and the doubling stays in int64 |
| Restart.BackoffMonotone | internal/supervisor/restart.go:135-144 | for base up to a maximum of at most 2^62 the backoff is min(base * 2^(n-1), max), positive, and never falls |
| Floors.FloorRegistry.ReserveFloorSlot | internal/httpbridge/bridge.go:315-333 | hands out a fresh slot exactly if the floor has fewer than four entries |
| Floors.FloorRegistry.CommitFloorReservation | internal/httpbridge/bridge.go:338-351 | the agent takes over its token's slot; an empty agent id gives it back |
| Floors.FloorRegistry.ReleaseFloorReservation | internal/httpbridge/bridge.go:355-359 | the slot is free again |
| Floors.FloorRegistry.ReserveNextAvailableFloor | internal/httpbridge/bridge.go:370-395 | picks the least floor above the ground with room, which is at most n / 4 + 1 for n entries |
| Floors.SlotIffRoom | internal/httpbridge/handlers.go:770-792 | a spawn on a given floor gets a slot there exactly if the floor is above the ground and has fewer than four entries |
| Floors.NeverOverfull | internal/httpbridge/handlers.go:770-817 | over all interleavings of reserve, commit, release and despawn no floor holds more than four entries and the ground floor none |
| Floors.NoSlotLeaks | internal/httpbridge/handlers.go:793-817 | every reservation belongs to a running spawn; when none runs, only agents take up slots |
| Floors.PromiseKept | internal/httpbridge/bridge.go:338-351 | a committed agent gets the floor its spawn reserved, and the floor gets no fuller |

## Left out

- CrashSentinel.OpenCircuitIsFinal: RemoveAgent, which forgets the circuit, is not modelled.
- ExecutorService.Executor.RunLevel: that every SubmitTask returns is assumed, not proved.
- NodeCompletions.SignalReleasesNode: a safety statement; that agents eventually deliver is not modelled.
- Resume.ExactlyOnce: assumes no dropped events, which `Resume.NothingDroppedIff` characterises, no read error during the backfill and no trimming after the connection begins; trimming before it is modelled.
- Supervisor, executor and submitter concurrency: interleavings are step systems on values; the classes of the same components run one method at a time, so aliasing between concurrent method bodies is not modelled.
- The blocking submitter has no class; its enqueue, wait and cleanup are steps of the end-to-end system.
- The back-off of the assignment loop appears in the class only; in the step system the loop may rest at any time.
- `Stop` and the `stopped` flag in the step system, except for the record that a Stop during registration leaves without a mutex; `RemoveAgent`, bridge cancel, reassign and despawn in the supervisor systems, which bypass the agent mutex or drop tasks.
- Published events in the supervisor step system, the description from a task's metadata in the payload of task_assigned, and log lines: no step reads them.
- Re-registration of a known agent id, which would reset a busy record: ids are fresh UUIDs.
- Snapshots and protocol conversion of execution records.
- Consumer groups, acknowledgements, health checks and the Redis store.
- HTTP, gRPC, the SSE wire format, event mapping, authentication, terminals, agents' own processes.
- Gateway, cost tracking, router, providers and the Godot client.
- Liveness and real time.
