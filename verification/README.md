# EJClaw, modelled and proved in Dafny

EJClaw runs coding agents in chat rooms: an owner writes, a reviewer checks, an
arbiter settles deadlocks. This project models the parts of it in which many
events meet and a claim about one function is not enough, and proves what holds
over every step, every run and every interleaving. Where something one would
expect does not hold, the exact condition under which it does is proved, along
with an input for which it fails.

The pieces, hardest first:

- **The per-room run scheduler** (`GroupQueue*.dfy`, `GroupRunState.dfy`). The queue
  is a state machine over events (enqueue, end of a run, retry timer, recovery,
  close, shutdown); each event is one synchronous stretch of the source, and the
  runs that are suspended in an `await` are a ghost multiset. `GroupQueueModel` is
  the machine, `GroupQueueClass.GroupQueue` is the object with its fields updated
  in place, proved step by step against it. Proved over all histories: the
  counters, task conservation, no lost wake-up, the concurrency ceiling, bounded
  drain; and that what is asked for is remembered until it is run
  (`GroupQueueArrivals`), with what each event leaves in figures
  (`GroupQueueOutcomes`). Three expectations fail, each with its exact condition and reachable
  histories: one run per group (`GroupQueueSecondRun`: a drain comes upon a listed
  group that is busy; `GroupQueueExclusion`: a busy group is listed once an event has
  directly started one that was waiting), the task limit (a finish starts its own
  group's task unchecked), and backoff (`GroupQueueBackoff`: a finish or the end of
  recovery comes upon messages of a group whose retry is not due).
- **The owner / reviewer / arbiter protocol** (`Paired*.dfy`). `PairedHandlers` has
  each handler twice: as the sequence of compare-and-swap writes it issues on a
  `PairedTaskStore`, and as the one step they amount to when nobody writes in
  between. `PairedTurns` puts preparation and end together into a turn. On that:
  no chosen turn throws an invalid transition, and exactly which others would;
  autonomous ping-pong is bounded if and only if there is no arbiter and a limit is
  configured, with runs that reach the bounds; approved means finalized; deadlock
  accounting; what a human message resets. `PairedOutcomes` tells what each role's run
  comes to from its verdict, the tree and the counters, and what steps on an unchanged
  tree lead to. `PairedInterleavings` drops the
  assumption that nobody writes in between; `PairedDispatch` says who queues the
  next turn, and when twice.
- **Credential rotation** (`TokenRing.dfy`, `CodexRing.dfy`, `ProviderRetry.dfy`,
  `RotationBounds.dfy`, `AttemptLifecycle.dfy`): the round-robin is fair; the retry
  loops make more than a fixed number of attempts only when a cooldown they have set is
  over before they end, as with clocks that move, where there need be no end; when every
  attempt fails alike and the clock stands still they end if and only if the cooldown
  is still running or nothing else is usable. How a whole request ends is told from the
  answers, and so is when it is repeated in a fresh session.
- **Owner worktree re-anchoring** (`OwnerWorktree.dfy`): no branch tip is lost and no
  worktree loses its commit, whichever git commands fail and wherever the process
  stops; in exactly one case a branch ends up checked out twice. In a clone of its own
  both can be lost, when exactly is proved.
- **The paired execution lifecycle** (`ExecutionLifecycle.dfy`): over any sequence of
  calls the accepted text is stored at most once, and before a success is reported, and
  the turn ended at most once; which calls store and which end it, exactly; a second
  completion exactly after one that threw late.
- **The streaming output parser** (`StdoutFrames.dfy`, `Text.dfy`): chunk invariance, and
  a round trip for exactly the messages without the end marker.
- **IPC file claims** (`IpcClaims.dfy`): every listed file is handled exactly if its
  handler works, once, and then deleted or set aside; lost exactly when set aside under
  a name that is used again.

Modelling conventions. Objects that the source updates in place are classes; where
much is proved about them, their methods are proved equal to functions on values and
the rest is about those. Both concurrency limits are integers; the general one is at
least 1 by configuration, nothing is assumed of the recovery limit unless a row says
so. Time, identifiers, git results, verdicts read from text, error classifications
and everything another process does are inputs. A scheduled task's closure is named
by a number given at the call; a run id likewise. An event of the queue, and one
handler of the task protocol, is atomic where the source runs it without an `await`.
Column stamps (`updated_at`) are integers. Where the source throws, a method returns
that it threw. Where code and its comments differ, the code is modelled.

## Model

| member | source | states |
|---|---|---|
| GroupRunState.GroupState.TransitionRunPhase | src/group-queue-state.ts:95-137 | moves to the phase whatever the table says, and reports exactly the moves off the table |
| GroupRunState.GroupState.ResetRunState | src/group-queue-state.ts:139-148 | forgets the run and keeps the queue; never reports |
| GroupRunState.GroupState.AssertRunPhaseInvariants | src/group-queue-state.ts:150-203 | reports exactly when the record does not fit its phase |
| GroupRunState.GroupState.ScheduleRetry | src/group-queue.ts:635-671 | doubles the backoff up to the fifth retry, then disarms the timer and starts counting again |
| GroupQueueOutcomes.RetryDelay | src/group-queue.ts:635-671 | the delays are 5, 10, 20, 40 and 80 seconds; the sixth failure gives up |
| GroupQueueOutcomes.FailuresInARow | src/group-queue.ts:635-671 | for any number of failures in a row: the count, the timer and the time of the retry, every sixth giving up |
| GroupQueueOutcomes.PhaseTable | src/group-queue-state.ts:22-27 | every phase may go back to idle, only an idle group may start a run, only a message run may start closing |
| GroupQueueOutcomes.Reports | src/group-queue-state.ts:95-203 | a start is reported if and only if it is over a run of the other kind or a closing one, or leaves the marks of both kinds |
| GroupQueueModel.NextWaiting | src/group-queue.ts:705-731 | the first listed group with pending messages; if there is none, the first with tasks while their limit is not reached; none only if no listed group is startable |
| GroupQueueModel.Admit | src/group-queue.ts:733-750 | every round of the drain takes the chosen entry and no other off the list and starts exactly its message run or its first task |
| GroupQueueClass.GroupQueue.constructor | src/group-queue.ts:41-51 | a new queue is the initial state |
| GroupQueueClass.GroupQueue.GetGroup | src/group-queue.ts:53-60 | a group's record is made on first use and otherwise left as it is |
| GroupQueueClass.GroupQueue.RunForGroup | src/group-queue.ts:519-541 | up to its first await a message run is exactly the machine's start: record, check, counter, live run |
| GroupQueueClass.GroupQueue.RunTask | src/group-queue.ts:587-606 | the same for a task run and both counters |
| GroupQueueClass.GroupQueue.RunQueuedTask | src/group-queue.ts:678-686 | the first queued task, and no other, leaves the queue and runs |
| GroupQueueClass.GroupQueue.FindNext | src/group-queue.ts:709-724 | the two searches find what the machine picks: messages first, tasks only below their limit |
| GroupQueueClass.GroupQueue.AdmitNext | src/group-queue.ts:730-750 | one round of the drain loop is the machine's round |
| GroupQueueClass.GroupQueue.DrainWaiting | src/group-queue.ts:705-753 | the loop ends, and in the state of the recursive drain |
| GroupQueueClass.GroupQueue.DrainGroup | src/group-queue.ts:673-703 | own tasks, then own messages, then the other groups; nothing after shutdown |
| GroupQueueClass.GroupQueue.EnqueueMessageCheck | src/group-queue.ts:99-153 | on every branch (shut down, busy, backing off, full, free) the fields end as the machine says, of which `MessagesAreNoted` and `MessagesAreKept` say that no request is forgotten |
| GroupQueueArrivals.MessagesAreNoted | src/group-queue.ts:99-153 | before shutdown a request for messages starts a run of the group at once if and only if it is idle, its backoff over and a slot free; otherwise the messages are noted, an idle group that finds no slot being listed last; no other group is touched |
| GroupQueueArrivals.IpcDirIsAdopted | src/group-queue.ts:104-107 | the first IPC directory given is kept |
| GroupQueueArrivals.RetryAsks | src/group-queue.ts:664-670 | a retry timer notes the messages or starts their run, its own backoff over |
| GroupQueueArrivals.MessagesAreKept | src/group-queue.ts:99-753 | whatever the event, noted messages of a group are forgotten only as a message run of it starts |
| GroupQueueArrivals.MessagesAreRun | src/group-queue.ts:99-753 | over histories: messages asked for before shutdown are still noted, or a message run of their group has started since |
| GroupQueueClass.GroupQueue.EnqueueTask | src/group-queue.ts:155-203 | the same for tasks, including the refusal of a known id; `TasksAreAccepted` says what is accepted |
| GroupQueueArrivals.TasksAreAccepted | src/group-queue.ts:155-203 | before shutdown a task is accepted if and only if its id is neither running nor queued in its group; it starts at once if and only if the group is idle and both limits leave room, else it becomes the last of its queue; a known id changes nothing |
| GroupQueueArrivals.AcceptedExactly | src/group-queue.ts:155-203 | in every history the tasks accepted are exactly those asked for so |
| GroupQueueArrivals.TasksAreNotLost | src/group-queue.ts:155-753 | and at any later time each of them is queued, running or finished, in one place |
| GroupQueueClass.GroupQueue.FinishMessages | src/group-queue.ts:543-584 | success, failure and exception all end in reset, one slot less and a drain |
| GroupQueueClass.GroupQueue.FinishTask | src/group-queue.ts:608-632 | the same for a task run and both counters |
| GroupQueueOutcomes.MessagesEnd | src/group-queue.ts:543-584 | a message run that ends leaves its group idle with its queue as it was; success forgets the failures, a failure counts one and sets the retry |
| GroupQueueOutcomes.TaskEnds | src/group-queue.ts:608-632 | a task that ends is finished, its group idle with queue, flag and retry as they were |
| GroupQueueOutcomes.OwnWorkFirst | src/group-queue.ts:673-703 | a finished group starts its oldest task, or else its messages, before anybody else; nothing after shutdown |
| GroupQueueClass.GroupQueue.RetryTimerFires | src/group-queue.ts:664-670 | disarms, then asks again, not after shutdown |
| GroupQueueClass.GroupQueue.EnterRecoveryMode | src/group-queue.ts:69-77 | lower limit on, one more timer |
| GroupQueueClass.GroupQueue.RecoveryTimerFires | src/group-queue.ts:78-86 | lower limit off and a drain, shutdown or not |
| GroupQueueOutcomes.RecoveryLimits | src/group-queue.ts:69-93 | the recovery limit is in force from the start of recovery to its timer, then the general one |
| GroupQueueOutcomes.TaskSlots | src/group-queue.ts:27-28 | one slot of several is kept from tasks |
| GroupQueueClass.GroupQueue.CloseStdin | src/group-queue.ts:434-450 | only a message run with an IPC directory starts closing |
| GroupQueueClass.GroupQueue.RegisterProcess | src/group-queue.ts:205-213 | notes the process; an IPC directory only if given |
| GroupQueueClass.GroupQueue.Shutdown | src/group-queue.ts:818-846 | the loop over the groups disarms every timer and closes every registered message run, each group once |
| GroupQueueOutcomes.CloseLeaves | src/group-queue.ts:434-450 | closing moves a message run that has an IPC directory to closing, and nothing else |
| GroupQueueOutcomes.RegisterLeaves | src/group-queue.ts:205-213 | registering changes the process name and, if one is given, the IPC directory, and nothing else |
| GroupQueueOutcomes.ShutdownLeaves | src/group-queue.ts:818-846 | after a shutdown no timer is armed and exactly the message runs with a process and an IPC directory are closing; queues, flags and live runs stay |
| GroupQueueSafety.NextKeeps | src/group-queue.ts:99-753 | whatever every small step keeps, every event keeps, however many runs it starts |
| GroupQueueSafety.Always | src/group-queue.ts:41-753 | and so it holds in every state of every history |
| GroupQueueSafety.CountedClosed | src/group-queue.ts:530-631 | activeCount and activeTaskCount are the live runs and the live task runs |
| GroupQueueSafety.PhasesClosed | src/group-queue-state.ts:150-203 | a group that is not idle has a live run of its phase; a backoff has an armed timer; at most five retries |
| GroupQueueSafety.ConservedClosed | src/group-queue.ts:155-203 | every accepted task is in exactly one place (queued, live, finished), once, and nothing else is |
| GroupQueueSafety.DistinctClosed | src/group-queue.ts:160-168 | no queue holds two tasks of one id |
| GroupQueueExclusion.OneRunPerGroup | src/group-queue.ts:41-52 | where each live run is the one its group's record names, as in an exclusive state, a group has one live run at most, of one kind |
| GroupQueueExclusion.ExclusiveKept | src/group-queue.ts:99-753 | exclusion (one run per group, list without repeats and all idle, no report) survives every event that does not directly start a listed group |
| GroupQueueExclusion.ExclusiveLost | src/group-queue.ts:150-200 | and is lost by every event that does |
| GroupQueueExclusion.ExclusionCondition | src/group-queue.ts:134-200 | the two together: an if and only if on a check made before the event |
| GroupQueueExclusion.ExclusiveThroughout | src/group-queue.ts:41-753 | over whole histories |
| GroupQueueSecondRun.SecondRunCondition | src/group-queue.ts:673-753 | from a state with one run per group an event gives a group a second live run if and only if it is a finish without work of its own group, or the end of recovery, whose drain starts a listed group that is busy |
| GroupQueueSecondRun.NeverDoubled | src/group-queue.ts:99-753 | in every history no group has ever had two live runs if and only if there was no such event |
| GroupQueueSecondRun.DrainTakes | src/group-queue.ts:705-753 | which groups a drain starts, told before: those with fewer groups with messages before them than slots are free, and those with tasks only while slots for all messages and for the tasks before them are left; exactly these leave the list |
| GroupQueueSecondRun.ListedOnceThroughout | src/group-queue.ts:128-147 | the list holds no group twice, in every history |
| GroupQueueProgress.Ceiling | src/group-queue.ts:89-93 | no event raises activeCount above the larger of what it was and the limit in force after it |
| GroupQueueProgress.CeilingThroughout | src/group-queue.ts:89-147 | activeCount never exceeds the larger configured limit |
| GroupQueueProgress.TaskLimitCondition | src/group-queue.ts:673-688 | the task limit is exceeded exactly when a message run ends in a group with queued tasks while the limit is reached |
| GroupQueueCases.TaskLimitIsPassed | src/group-queue.ts:673-688 | a reachable state in which the task limit is reached and an event that then starts one more task |
| GroupQueueProgress.FinishAwake | src/group-queue.ts:673-753 | a finish leaves no idle group with work unlisted, and listed work has a live run beside it |
| GroupQueueProgress.AwakeKept | src/group-queue.ts:99-753 | so does every other event before shutdown |
| GroupQueueHistories.SoundThroughout | src/group-queue.ts:41-753 | counters, phases, conservation and distinct ids in every state of every history |
| GroupQueueHistories.StartedOnce | src/group-queue.ts:587-633 | a task is started at most once, and never unstarted |
| GroupQueueHistories.AwakeThroughout | src/group-queue.ts:99-753 | the wake-up invariant over whole histories |
| GroupQueueHistories.NoLostWakeUp | src/group-queue.ts:635-753 | idle with tasks means listed; idle with messages means listed or a timer armed; work anywhere means a live run, the timer of its group, or a recovery that allows no run at all and has a timer of its own |
| GroupQueueHistories.ShutdownStays | src/group-queue.ts:818-819 | shutdown is entered by its event only and never left |
| GroupQueueHistories.FinishLowersWork | src/group-queue.ts:519-753 | every finish lowers live runs + queued tasks + groups with pending messages by exactly one, whatever it starts |
| GroupQueueHistories.BoundedDrain | src/group-queue.ts:519-753 | with no arrivals and no timers exactly that many finishes empty the queue: a run can end as long as work is left |
| GroupQueueHistories.TimerlessState | src/group-queue.ts:99-753 | every reachable state without armed timers meets the assumptions of that |
| GroupQueueHistories.WorkNeedsRun | src/group-queue.ts:673-753 | work is left if and only if some run is live |
| GroupQueueCases.MessageQueueKept | src/group-queue.ts:99-153 | without tasks, and with a recovery limit not above the general one, a group is listed only while the limit is reached, so nothing listed is started directly |
| GroupQueueCases.MessageOnlyIsExclusive | src/group-queue.ts:99-153 | every message-only history is exclusive |
| GroupQueueCases.ExclusionIsNotInvariant | src/group-queue.ts:179-202 | a history after which a message run and a task run of one group are live and a check has reported |
| GroupQueueCases.ShutdownStartsNothing | src/group-queue.ts:100-674 | after shutdown no event but the recovery timer starts a run |
| GroupQueueCases.RecoveryTimerStartsAfterShutdown | src/group-queue.ts:78-86 | and the recovery timer does if and only if a slot is free and some listed group is startable |
| GroupQueueCases.ShutdownIsNotFinal | src/group-queue.ts:78-86 | a reachable state after a shutdown in which it does |
| GroupQueueBackoff.BackoffCondition | src/group-queue.ts:635-737 | a message run of a group inside its backoff is started if and only if a finish finds messages and no task of its own group there, or a finish without own work or the end of recovery has a slot left for a listed group there; no other event ever does |
| GroupQueueBackoff.DrainBackoff | src/group-queue.ts:705-753 | for the drain alone: it starts such a run if and only if fewer groups with messages stand before that group than slots are free |
| GroupQueueBackoff.OwnBackoff | src/group-queue.ts:543-584 | a finished group is inside its backoff exactly when its run failed and retries are left |
| GroupQueueBackoff.FreshRunsThroughout | src/group-queue.ts:519-541 | run ids are used once, in every history |
| GroupQueueBackoff.OwnGroupSkipsBackoff | src/group-queue.ts:689-699 | a reachable state in which a failed run's own group is started at once |
| GroupQueueBackoff.DrainSkipsBackoff | src/group-queue.ts:705-737 | one in which another group's finish drains into a group whose retry is due later |
| GroupQueueBackoff.RecoverySkipsBackoff | src/group-queue.ts:78-86 | one in which the end of recovery does |
| PairedTaskStatus.TableConnects | src/paired-task-status.ts:5-27 | along the table every status can be reached from every open one, and nothing from a completed one |
| PairedTaskStatus.ApprovedThroughReview | src/paired-task-status.ts:5-27 | every way to merge_ready comes from in_review, and to that from review_ready |
| PairedTaskStatus.EnteredFrom | src/paired-task-status.ts:5-27 | from which statuses each status can be entered |
| PairedTaskStatus.PairedTaskStore.UpdateIfUnchanged | src/db/paired-state.ts:388-467 | the patch lands exactly when the revision is the expected one; otherwise the row is untouched |
| PairedTaskStatus.PairedTaskStore.TransitionStatus | src/paired-task-status.ts:47-95 | the table is consulted for the status the caller names, the row is guarded by the revision |
| PairedTaskStatus.PairedTaskStore.ApplyPatch | src/paired-task-status.ts:97-136 | a patch under the same guard |
| PairedTaskStatus.PairedTaskStore.RequestArbiterOrEscalate | src/paired-arbiter-request.ts:6-72 | the arbiter if there is one, else completion as escalated |
| PairedInterleavings.FaithfulThroughout | src/paired-task-status.ts:47-136 | if no landing write puts down a stamp that a snapshot of another row still carries, any snapshot with the current stamp is the current row, in every interleaving |
| PairedInterleavings.FaithfulKept | src/db/paired-state.ts:388-467 | and a landing write keeps that if and only if it is such a write |
| PairedInterleavings.WritesAreAtomic | src/paired-task-status.ts:74-82 | so every write that lands was decided on exactly the row it replaces |
| PairedInterleavings.StatusStaysOnTable | src/paired-task-status.ts:5-45 | every status change that reaches the row is an edge of the table, as long as a stamp given again covers the snapshots that carry it: whatever may follow their status may follow the one written |
| PairedInterleavings.StatusKnownKept | src/paired-task-status.ts:29-45 | a landing write keeps every holder of the current stamp right about the next status if and only if its stamp is covered |
| PairedInterleavings.StatusKnownExactly | src/paired-task-status.ts:29-45 | that is so if and only if no next step of anybody can take the status off the table |
| PairedInterleavings.UncoveredLeaves | src/paired-task-status.ts:47-95 | after any landing write whose stamp is not covered there is a write that does |
| PairedInterleavings.DistinctIsCovered | src/paired-task-status.ts:47-136 | stamps that make every snapshot faithful are covered |
| PairedInterleavings.CompletedIsFinal | src/paired-execution-context.ts:637-653 | under the same condition a completed task stays completed |
| PairedInterleavings.OldSnapshotsLose | src/paired-task-status.ts:83-94 | once the row has another stamp, a write based on an earlier snapshot changes nothing until its stamp is put back |
| PairedInterleavings.HandlerRestamps | src/paired-execution-context-owner.ts:195-300 | an owner's handler sending an approved task back to review stamps now, then the later request time, then now again: with all clock readings distinct a snapshot of the first row lands on the third |
| PairedInterleavings.HandlerStampsAreCovered | src/paired-execution-context-owner.ts:289-300 | what it stamps twice is covered, so the two status claims hold of such histories |
| PairedInterleavings.ReusedStampReopens | src/paired-task-status.ts:47-136 | two writers in one millisecond: a stamp that is not covered, and a completed task is reopened |
| PairedHandlers.HandleFailedOwnerExecution | src/paired-execution-context-owner.ts:26-90 | first failure back to active, second to the arbiter or the human |
| PairedHandlers.MaybeAutoTriggerReviewer | src/paired-execution-context-owner.ts:259-314 | below the limit: review requested, one round trip counted, counters cleared, the row stamped with the older time; at the limit or without a worktree: nothing |
| PairedHandlers.HandleOwnerFinalizeCompletion | src/paired-execution-context-owner.ts:92-257 | the writes of a finalizing turn come to one step, told by `FinalTurnEnds` |
| PairedHandlers.HandleOwnerCompletion | src/paired-execution-context-owner.ts:316-433 | the writes of an owner turn come to one step, told by `OwnerTurnEnds`, thrown transitions included |
| PairedHandlers.HandleReviewerCompletion | src/paired-execution-context-reviewer.ts:94-173 | approval records the tree; trouble or deadlock asks the arbiter; else back to the owner |
| PairedHandlers.HandleFailedReviewerExecution | src/paired-execution-context-reviewer.ts:14-92 | a failed run that said something decisive counts; otherwise review waits again |
| PairedHandlers.HandleArbiterCompletion | src/paired-execution-context-arbiter.ts:37-103 | never throws: the current status is taken to be in_arbitration whatever it is |
| PairedHandlers.HandleFailedArbiterExecution | src/paired-execution-context-arbiter.ts:7-35 | arbitration waits again |
| PairedOutcomes.OwnerTurnEnds | src/paired-execution-context-owner.ts:316-433 | a successful turn on an active task is given up (to the arbiter, or the human) if and only if its verdict is stuck or it is the second step in a row on an unchanged tree; else it goes to review if and only if there is a worktree and a round trip left; and what becomes of every counter |
| PairedOutcomes.FinalTurnEnds | src/paired-execution-context-owner.ts:92-257 | a successful turn on an approved task is given up if and only if it is stuck, the second empty step, or raises concerns or has changes at the deadlock threshold; it is done if and only if the verdict finishes and nothing changed; else it is reviewed again if it can be |
| PairedOutcomes.FailedOwnerTurn | src/paired-execution-context-owner.ts:26-90 | a failed owner run goes back to active once and is given up the second time in a row |
| PairedOutcomes.ReviewEnds | src/paired-execution-context-reviewer.ts:94-173 | a review approves, is given up if and only if it is stuck or at the deadlock threshold, or sends back; counters stay |
| PairedOutcomes.FailedReviewEnds | src/paired-execution-context-reviewer.ts:14-92 | a failed reviewer who said something stuck closes the task as escalated, who approved approves (and throws if the review had not begun), else review waits again |
| PairedOutcomes.ArbitrationEnds | src/paired-execution-context-arbiter.ts:7-103 | the arbiter escalates or lets work go on one round below the threshold, recording its verdict; a failed one waits again; it never throws |
| PairedOutcomes.EndStamps | src/paired-execution-context-owner.ts:26-433 | whatever the end of a run changes is stamped with its own time; a completed task is left alone |
| PairedOutcomes.TwoInVain | src/paired-execution-context-owner.ts:333-394 | in every history: of two successful steps on an unchanged tree, with no message to the owner and no other successful owner turn in between, the second gives the task up |
| PairedOutcomes.ChangedStepGoesOn | src/paired-execution-context-owner.ts:333-433 | a step that has changed the tree never does, and starts the count again |
| PairedOutcomes.EmptyStreakKept | src/paired-execution-context-owner.ts:333-394 | nothing but a message to the owner and a successful owner turn touches the count of empty steps |
| PairedTurns.PairedRoom.EnsureActiveTask | src/paired-execution-context.ts:279-387 | only a human starts a task or supersedes one that waits to be finalized |
| PairedTurns.PairedRoom.PrepareOwner | src/paired-execution-context.ts:452-523 | reset of status and counters, then a second write that still expects the first revision |
| PairedTurns.PairedRoom.Prepare | src/paired-execution-context.ts:411-553 | what preparing a run of each role does to the task |
| PairedTurns.Complete | src/paired-execution-context.ts:618-705 | which handler runs; nothing on a completed task |
| PairedTurns.PairedRoom.PlayTurn | src/paired-execution-context.ts:411-705 | the writes of a whole turn, from preparation to end, come to the machine's turn, thrown transitions included |
| PairedTurns.PairedRoom.Stop | src/message-runtime.ts:461-481 | the stop command completes an open task, whatever its state |
| PairedOutcomes.TaskStarts | src/paired-execution-context.ts:106-387 | a task is started only for a human, in a room without an open one or, by the owner, over one that waits to be finalized, which is closed as superseded; it is active with the project's tree on record |
| PairedOutcomes.StopCloses | src/message-runtime.ts:461-481 | stopping closes what is open as stopped and changes no other column |
| PairedOutcomes.HumanGoesTo | src/message-runtime-rules.ts:106-118 | a human is answered by the arbiter if and only if it is in charge, else by the owner |
| PairedOutcomes.BlockedTurnEnds | src/message-agent-executor.ts:188-210 | a run that could not start counts as failed and as having said nothing |
| PairedProtocol.ThrownExactly | src/paired-task-status.ts:29-45 | for any task and any end of a run: thrown if and only if the listed condition holds |
| PairedProtocol.PreparedStatus | src/message-runtime-rules.ts:91-197 | in which states a chosen turn can find its task when it ends |
| PairedProtocol.ChosenTurnsNeverThrow | src/message-runtime-rules.ts:106-197 | no turn the dispatcher or a human selects ever throws, with any verdict, success or failure |
| PairedProtocol.TurnsStayOnTable | src/paired-task-status.ts:5-27 | and every status it passes through is along the table |
| PairedProtocol.ArbiterOnTable | src/paired-execution-context-arbiter.ts:51-101 | the arbiter's unchecked write is on the table if and only if it escalates or the task is past arbiter_requested |
| PairedProtocol.HumanStartsAfresh | src/paired-execution-context.ts:279-493 | a message to the owner ends in an active task with all four counters at zero; an approved task is closed as superseded with its tree |
| PairedProtocol.HumanKeepsOldRef | src/paired-execution-context.ts:508-523 | on an active task the recorded tree is refreshed if and only if it need not be or both writes carry one stamp |
| PairedProtocol.HandsOver | src/message-runtime-rules.ts:169-197 | after a successful turn of an open task nobody is next if and only if the owner has used up the round trips (or has no worktree) |
| PairedDispatch.NextTurn | src/message-runtime-rules.ts:169-197 | whose turn is next, from the status and who spoke last, and when it is the finalizing one |
| PairedDispatch.DeliveryMissesNothing | src/message-runtime-rules.ts:214-242 | leaving out the finalizing turn after the owner's own delivery loses no turn |
| PairedDispatch.RetryAlwaysQueues | src/message-runtime-rules.ts:243-257 | a retried delivery queues the next turn or else a check for messages; a bot's message starts a turn at once if and only if it is the finalizing one, and nothing else ever does |
| PairedDispatch.QueuedOnce | src/message-runtime-rules.ts:214-276 | after any run, succeeded or not, whose delivery succeeded and is not held back, recovery and delivery together queue exactly one turn if there is a next one, but for an owner who speaks unstored while finalizing, and else none |
| PairedDispatch.BothAsk | src/message-runtime-turns.ts:256-277 | recovery and delivery both ask if and only if the listed condition on the end of the run holds; they then ask for the same turn |
| PairedDispatch.QueuedTwice | src/db/paired-state.ts:469-526 | it is queued twice if and only if both ask and the reservation made for the first was claimed and its attempt failed before the second |
| PairedTermination.TurnsRunOut | src/paired-execution-context-owner.ts:26-433 | without an arbiter every bot turn lowers the measure, failing owner runs included |
| PairedTermination.PingPongEnds | src/paired-execution-context-reviewer.ts:94-173 | at most 2 * trips left + 2 further turns if all succeed, 3 * trips left + 3 if owner runs may fail |
| PairedTermination.BoundIsReached | src/paired-execution-context-owner.ts:271-279 | a run of exactly 2 * trips left + 2 turns exists, whatever the deadlock threshold |
| PairedTermination.FailureBoundIsReached | src/paired-execution-context-owner.ts:26-90 | and one of exactly 3 * trips left + 3 when owner runs may fail |
| PairedTermination.EndsExactly | src/config/load-config.ts:187-191 | from any room in which a turn is to come the lengths of autonomous runs are bounded if and only if there is no arbiter and a limit is configured, with or without failing owner runs |
| PairedTermination.NoEnd | src/paired-execution-context-arbiter.ts:51-70 | otherwise runs of every length exist, at the round-trip limit too |
| PairedTermination.FailingReviewersGoOn | src/paired-execution-context-reviewer.ts:70-91 | a reviewer failing silently changes nothing but the stamp and is chosen again |
| PairedHistories.ApprovalIsKept | src/paired-execution-context-reviewer.ts:108-134 | in every history, while a task waits to be finalized its recorded tree is the one approved last |
| PairedHistories.FinalizesExactly | src/paired-execution-context-owner.ts:92-257 | when an approved task is closed as done, as an if and only if |
| PairedHistories.DoneOnlyByFinalizing | src/paired-execution-context-owner.ts:238-251 | nothing else closes a task as done |
| PairedHistories.ApprovedMeansFinalized | src/paired-execution-context-owner.ts:92-257 | git permitting, a task closed as done has the approved tree in the owner's worktree, in every history |
| PairedHistories.OtherTreePasses | src/paired-source-ref.ts:21-45 | another tree than the approved one passes if and only if git cannot be asked |
| PairedHistories.SendBacksAreBounded | src/paired-completion-signals.ts:63-90 | between two human messages the reviewer sends work back at most threshold - 1 times |
| PairedHistories.ResumedGoesBackToArbiter | src/paired-execution-context-arbiter.ts:51-70 | once the arbiter has resumed work, every review that does not approve goes straight back, until a human speaks |
| TokenRing.FindFirst | src/token-rotation-base.ts:52-71 | the first usable entry on the way round, none only if there is none |
| TokenRing.FirstIsUnique | src/token-rotation-base.ts:52-71 | that determines the result |
| TokenRing.ClaudeTokens.RefreshSelection | src/token-rotation.ts:128-160 | the object ends as the ring reselected: expired cooldowns go and the first usable token is selected |
| TokenRing.ReselectKeeps | src/token-rotation.ts:128-160 | selecting again lifts no running cooldown, changes no entry's usability and never goes from a usable token to a cooling one |
| TokenRing.ReselectPrefersFirst | src/token-rotation.ts:128-160 | and it goes to the first usable entry if there is one, forgetting exactly the cooldowns that are over |
| TokenRing.CoolsFor | src/token-rotation-base.ts:39-43 | an entry rotated away from is usable again exactly three minutes after the time the message names, or an hour after now |
| TokenRing.HealedIsUsable | src/token-rotation.ts:226-244 | a success makes the current entry usable and touches no other |
| TokenRing.ClaudeTokens.GetCurrentTokenIndex | src/token-rotation.ts:170-174 | the index after selecting again |
| TokenRing.ClaudeTokens.RotateToken | src/token-rotation.ts:180-224 | the current token cools down; the next usable one is taken, or nothing moves |
| TokenRing.RotatesExactly | src/token-rotation.ts:188-223 | a rotation succeeds if and only if some other entry is usable, and then goes to the first of them |
| CodexRing.CodexAccounts.RotateCodexToken | src/codex-token-rotation.ts:336-388 | the same for accounts |
| CodexRing.CodexAccounts.FindNextCodexAvailable | src/codex-token-rotation.ts:393-405 | the next healthy account, else the next that is not cooling |
| CodexRing.CodexAccounts.AdvanceCodexAccount | src/codex-token-rotation.ts:413-421 | moves to that account, or stays; to one below its weekly limit and not cooling if there is another such |
| CodexRing.CodexAccounts.UpdateCodexAccountUsage | src/codex-token-rotation.ts:426-467 | an exhausted current account is left for a healthy one whenever there is one; no other report moves anything |
| CodexRing.RoundRobin | src/codex-token-rotation.ts:413-421 | any as many advances in a row as there are healthy accounts use each of them exactly once |
| CodexRing.AdvanceRound | src/codex-token-rotation.ts:413-421 | the same of the ring itself: that many calls use each healthy account once and come back to the first |
| ProviderRetry.NoRepeatAfterOutput | src/provider-retry.ts:80-260 | a Claude request that said something is never repeated; a Codex one exactly when it ended in a recognised error |
| ProviderRetry.ClaudeVerdict | src/provider-retry.ts:80-176 | when a Claude answer succeeds, when another token is asked for and why, and when it is the null result, each as an if and only if |
| ProviderRetry.CodexVerdict | src/provider-retry.ts:178-260 | the same for Codex, where an error after output still asks for another account |
| ProviderRetry.WorthRotating | src/agent-error-detection.ts:118-139 | which trouble another token, and which another account, is worth a try for |
| ProviderRetry.RunClaudeRotationLoop | src/provider-retry.ts:270-350 | for any answers, clock and refreshes the loop makes the attempts, in the order, and ends in the state of the recursive definition, waiting included |
| ProviderRetry.RunCodexRotationLoop | src/provider-retry.ts:352-383 | the same for Codex |
| RotationBounds.RoundIs | src/provider-retry.ts:270-330 | a round refreshes if and only if the login of the current token has expired, was not refreshed yet and can be; else it rotates with the cooldown of the message |
| RotationBounds.ClaudeAnswers | src/provider-retry.ts:270-350 | in any world every attempt but the last asked for another token for a reason rotation is for, and the last one decides how the loop ends |
| RotationBounds.CodexAnswers | src/provider-retry.ts:352-383 | the same for Codex |
| RotationBounds.ClaudeHeals | src/token-rotation.ts:226-244 | a success leaves the token that had it usable at any time |
| RotationBounds.ClaudeCools | src/provider-retry.ts:310-345 | in a run that waits for its second answer the first token cools down until the time the first answer names, unless that has passed, and the second is another |
| RotationBounds.CodexCools | src/provider-retry.ts:352-383 | where no account is tried twice, each that failed ends cooling down until the time its own answer names |
| RotationBounds.ClaudeBounded | src/provider-retry.ts:270-350 | on n tokens at most 2n - 1 attempts, in any world, unless a cooldown set on the way is over at a later reading of the clock inside the run |
| RotationBounds.CodexBounded | src/provider-retry.ts:352-383 | on m accounts at most m - 1 attempts, no account twice, never the first again, unless the same |
| RotationBounds.ClaudeEndless | src/provider-retry.ts:270-350 | with two usable tokens, every attempt asking for another, and each cooldown over by the attempt after it, an attempt is made for every answer there is, refreshed or not |
| RotationBounds.CodexEndless | src/provider-retry.ts:352-383 | with another account usable and each cooldown over by the next rotation, the same |
| RotationBounds.ClaudePassesBound | src/token-rotation-base.ts:39-50 | two tokens, a clock that moves, a cooldown running when it is set: n + 1 attempts for every n |
| RotationBounds.CodexPassesBound | src/token-rotation-base.ts:39-50 | the same with two accounts |
| RotationBounds.ClaudeFails | src/provider-retry.ts:270-350 | in any world a failure is the last answer's, or trouble rotation does not help, or comes with no other token usable |
| RotationBounds.CodexFails | src/provider-retry.ts:352-383 | the same for Codex |
| RotationBounds.ClaudeEndsExactly | src/token-rotation-base.ts:39-50 | for a clock that stands still, no refresh helping and every attempt asking for another: the number of attempts is bounded if and only if the message's cooldown is still running, rotation is not meant for the trouble, or no other token is usable (once an expired login has made the round select again) |
| RotationBounds.CodexEndsExactly | src/token-rotation-base.ts:39-50 | for a clock that stands still and every attempt asking for another: bounded if and only if the message's cooldown is still running or no other account is usable |
| AttemptLifecycle.Executor.RetryClaudeIfNeeded | src/message-agent-executor-lifecycle.ts:127-150 | a result if and only if the attempt is one for another token, by the listed condition; it is then marked, waiting, or handed off as the loop ended, with the attempts counted; otherwise nothing changes |
| AttemptLifecycle.Executor.RetryCodexIfNeeded | src/message-agent-executor-lifecycle.ts:152-173 | the same for Codex accounts |
| AttemptLifecycle.Executor.FinalizePrimary | src/message-agent-executor-lifecycle.ts:307-415 | on every path, and in any world, the result, the mark, the hand-off and the attempts are those of the value-level course, of which the `Settled` laws say what it comes to |
| AttemptLifecycle.Executor.Execute | src/message-agent-executor-lifecycle.ts:185-439 | the same for the whole request; at most 2n + 1 or m + 1 attempts in all if cooldowns outlast the clock |
| AttemptLifecycle.SettledPlainly | src/message-agent-executor-lifecycle.ts:262-415 | where no rotation is called for: marked as succeeded if and only if there is an output, no error, no trouble on the way, and something said (or delivered directly, or a result that is not null); handed off if and only if it answered in trouble that is handed off; success if and only if either |
| AttemptLifecycle.SettledByTokens | src/message-agent-executor-lifecycle.ts:127-150 | where other tokens are called for: marked if and only if the loop succeeds, waiting if and only if it waits, handed off if and only if it fails with trouble that is handed off |
| AttemptLifecycle.SettledByAccounts | src/message-agent-executor-lifecycle.ts:152-173 | where other accounts are: success if and only if the loop succeeds |
| AttemptLifecycle.FreshSessionOnce | src/message-agent-executor-lifecycle.ts:185-260 | a second attempt is made if and only if the first lost its session before saying anything, never a third; the first attempt that kept its session settles, and if neither did only a hand-off can succeed |
| OwnerWorktree.GitRepo.EnsureBranchNotCheckedOutElsewhere | src/paired-workspace-manager.ts:373-390 | passes if and only if no other worktree is on the branch |
| OwnerWorktree.GitRepo.RepairRegistration | src/paired-workspace-manager.ts:392-409 | exactly the registrations of missing, unlocked worktrees go; it passes if and only if pruning works and this one is not stale |
| OwnerWorktree.GitRepo.Reanchor | src/paired-workspace-manager.ts:154-205 | wherever it stops every worktree keeps its commit and no branch is checked out twice; a tip is lost if and only if the canonical repository knew no owner branch, there was one here, it was moved, and nothing else was where it was; when it succeeds, exactly; the old tips are then under the backup names |
| OwnerWorktree.GitRepo.MaybeRepairNamedBranch | src/paired-workspace-manager.ts:207-271 | the same for all four cases of a wrong branch; a commit is lost if and only if a clean worktree is switched to an owner branch that is not where the canonical repository has it |
| OwnerWorktree.GitRepo.AttachDetached | src/paired-workspace-manager.ts:800-822 | no tip is lost; a detached worktree stays at its commit but in that case; a branch is then checked out twice if and only if it succeeds with the owner branch unborn in another worktree |
| OwnerWorktree.GitRepo.Provision | src/paired-workspace-manager.ts:712-822 | whichever commands fail, halfway included: here no tip is lost, every present worktree keeps its commit, other worktrees are untouched, and a branch is checked out twice if and only if it succeeds with the owner branch unborn in another worktree; when it succeeds, exactly; HEAD is then on the owner branch; a second call changes no ref; in a directory that belongs to another repository the same goes on there, and tips and commits there are lost exactly as above; for a missing worktree a missing owner branch is made at the canonical HEAD, and no branch else appears but backups of the old tips, which are made whenever work is brought over |
| OwnerWorktree.Succeeds | src/paired-workspace-manager.ts:712-822 | where every command works: a missing worktree is made and one on another branch brought over whenever the owner branch is in no other worktree, a detached one unless the owner branch is at another commit |
| OwnerWorktree.CheckedOutTwice | src/paired-workspace-manager.ts:752-760 | a repository in which that happens |
| OwnerWorktree.CloneOverwritten | src/paired-workspace-manager.ts:238-248 | a clone with an owner branch the canonical repository does not know, whose tip is lost |
| OwnerWorktree.CloneMoved | src/paired-workspace-manager.ts:806-814 | a clone whose owner branch is elsewhere, whose worktree loses its commit |
| OwnerWorktree.MovedTips | src/paired-workspace-manager.ts:179-187 | moving the owner branch after the backups loses a tip if and only if it was not backed up and no other branch was there |
| OwnerWorktree.BackedUp | src/paired-workspace-manager.ts:179-187 | moving the owner branch after both backups loses no tip |
| StdoutFrames.ChunkInvariance | src/agent-runner-process.ts:98-167 | any split of the output into chunks yields the payloads and rest of parsing it whole |
| StdoutFrames.ParseExtension | src/agent-runner-process.ts:129-165 | parsing on from the rest is parsing the whole |
| StdoutFrames.LegacyAgreesOnFirstFrame | src/agent-runner-process.ts:27-40 | the legacy parser finds the first frame exactly when the first end marker follows the first start marker, and then the same payload |
| StdoutFrames.LegacyMissesLateFrame | src/agent-runner-process.ts:27-40 | an input with a stray end marker first, where it finds none |
| StdoutFrames.RoundTrip | runners/shared/src/agent-protocol.ts:63-70 | what the runners write, with other output around it, is what is parsed, if and only if no message contains the end marker |
| StdoutFrames.ParseBroken | runners/shared/src/agent-protocol.ts:63-70 | a message that does is cut off at it: a shorter payload is read |
| StdoutFrames.ProtocolMarkersAreGood | runners/shared/src/agent-protocol.ts:1-2 | the markers in use meet the conditions of that |
| StdoutFrames.StreamedMessagesArrive | src/agent-runner-process.ts:98-167 | both together: messages written, cut anywhere, arrive if and only if none contains the end marker |
| StdoutFrames.StdoutReader.OnData | src/agent-runner-process.ts:98-167 | after every chunk the emitted payloads are those of all output so far, and the captured text its first AGENT_MAX_OUTPUT_SIZE characters |
| StdoutFrames.StdoutReader.DrainBuffer | src/agent-runner-process.ts:129-165 | the loop over the buffer ends and leaves what has no frame yet |
| ExecutionLifecycle.Lifecycle.RecordFinalOutputBeforeDelivery | src/message-agent-executor-paired.ts:278-286 | the object ends as the value-level call, nothing happening once another run owns the attempt; accepted exactly when the run may act and nothing throws |
| ExecutionLifecycle.Lifecycle.UpdateSummary | src/message-agent-executor-paired.ts:263-276 | the same for the summary: no effect once a final text is accepted |
| ExecutionLifecycle.Lifecycle.CompleteImmediately | src/message-agent-executor-paired.ts:288-307 | the same, thrown completions included |
| ExecutionLifecycle.Lifecycle.AsyncFinalize | src/message-agent-executor-paired.ts:325-421 | the same for every kind of run and every mishap; a delegated run only releases its lease |
| ExecutionLifecycle.Lifecycle.PersistIfNeeded | src/message-agent-executor-paired.ts:181-199 | the accepted text of a run with a context is stored once, unless that throws: the value-level step, of which `CallDelivers` and `SuccessIsStored` say when it must have happened |
| ExecutionLifecycle.Lifecycle.FinalizeTurn | src/message-agent-executor-paired.ts:118-134 | the same for ending the turn |
| ExecutionLifecycle.CallCounts | src/message-agent-executor-paired.ts:181-421 | each call issues a completion if and only if the run may act, has a context, is not complete, and (recording: is an owner with a final text and its storing does not throw; completing: its storing does not throw; finalizing: is not delegated) the completion does not throw before; it keeps what an accepted text has fixed |
| ExecutionLifecycle.Reported | src/message-agent-executor-paired.ts:201-421 | a completion issued comes after the output still to be stored, carries the summary as it then stands, and reports success if and only if (recording: always; completing: as asked; finalizing: the run was marked so and said what its role has to say); the end of the turn follows and says the same |
| ExecutionLifecycle.CallDelivers | src/message-agent-executor-paired.ts:118-421 | for every call and mishap: which text is final after it; it is stored if and only if it was, or this call is one to store it and its insertion does not throw; the turn is ended if and only if it was, or this call is one to end it |
| ExecutionLifecycle.RecordedIsStored | src/message-agent-executor-paired.ts:278-286 | a text recorded by a run that may act and has a context is in the database when that returns, unless the insertion threw |
| ExecutionLifecycle.SuccessIsStored | src/message-agent-executor-paired.ts:181-224 | in every history a completion that reports success with a final text comes after that text was stored, unless the insertion threw in that call |
| ExecutionLifecycle.OwnerCourse | src/message-agent-executor-paired.ts:201-421 | an owner's text recorded and finalized without mishap: stored, completed with its summary, turn ended, in that order and no more |
| ExecutionLifecycle.ReviewerCourse | src/message-agent-executor-paired.ts:278-421 | a reviewer's: the same, completed only by finalizing and as it was marked |
| ExecutionLifecycle.SilentCourse | src/message-agent-executor-paired.ts:325-421 | a run that said nothing where it had to fails, with what is known as summary |
| ExecutionLifecycle.SummaryFollows | src/message-agent-executor-paired.ts:263-276 | the latest text, cut to 500 characters, is the summary until one is final |
| ExecutionLifecycle.SoundThroughout | src/message-agent-executor-paired.ts:181-421 | over any sequence of calls: at most one stored output, the accepted text; its summary; at most one end of the turn |
| ExecutionLifecycle.SecondCompletion | src/paired-execution-context.ts:708-729 | a completion issued is a second one if and only if an earlier call threw with the task changed |
| ExecutionLifecycle.CompletedOnce | src/message-agent-executor-paired.ts:201-224 | the task is completed at most once if and only if no such call is followed by one that issues a completion |
| ExecutionLifecycle.TakenOver | src/paired-turn-run-ownership.ts:10-34 | a run has lost its turn exactly when the last attempt is not running under its id |
| ExecutionLifecycle.CompletedTwice | src/paired-execution-context.ts:708-729 | a sequence of two calls that does complete twice: releasing the lease fails after the owner's turn was completed |
| IpcClaims.ClaimKeeps | src/ipc-file-claims.ts:14-31 | a claim moves one file and cannot take a file already handled; a name in processing must be free |
| IpcClaims.MoveToErrorKeeps | src/ipc-file-claims.ts:56-65 | setting a file aside keeps every file in one place, the log of files set aside included |
| IpcClaims.OverwritesExactly | src/ipc-file-claims.ts:6-12 | it takes another file's place if and only if reason, name and millisecond are the same |
| IpcClaims.LostExactly | src/ipc-file-claims.ts:6-12 | so on every disk a file is lost if and only if a later one was set aside for the same reason, with the same name, in the same millisecond |
| IpcClaims.OneIsLost | src/ipc-file-claims.ts:56-65 | a sequence of drops, claims and failures in which one is |
| IpcClaims.Poller.QuarantineClaimed | src/ipc-file-claims.ts:33-54 | unless the process stops, everything left in processing is set aside as left over; nothing is handled and the inbox is untouched |
| IpcClaims.Poller.WorkOn | src/ipc.ts:174-197 | unless the process stops, the claimed file is handled if and only if its handler does not throw before its work, deleted if and only if the handler returns and the file can be deleted, else set aside as failed; where it stops, what was handled is exact too |
| IpcClaims.DoneMeans | src/ipc.ts:174-197 | the four ends of a turn: handled and deleted; handled and set aside, as the file could not be deleted or the handler threw afterwards; set aside unhandled |
| IpcClaims.Poller.Poll | src/ipc.ts:74-203 | from any state an earlier process left, unless the process stops: every file left in processing is set aside, every file in the inbox has its turn and is handled, deleted or set aside as its handler ends, and no other file is handled; each at most once, in one place or lost as above |
| IpcClaims.PollRepeatedly | src/ipc.ts:45-206 | over any number of rounds, stops and drops |

## Left out

- Discord channels, progress rendering, typing, process spawning, signals, log files, UTF-8 chunk boundaries: input and output.
- Bookkeeping of the queue that no claim depends on: start times, direct deliveries, the timers that kill a lingering process, killing a process, status reports; the redundant group id inside a queued task.
- The part of shutdown after its first await (waiting for processes and killing them).
- A queue without a message function set, and log calls that throw.
- Columns of the task row that the protocol only stores (title, plan notes, request times, reopen count); recording a reopen shortly after completion writes such a column of a completed task.
- Reservations, leases and turn attempts in the database, but for the check of who owns a turn and of whether a turn is reserved already; notifications and the message texts.
- PairedTurns: turns of one room do not overlap, which is what the scheduler's one-run-per-group gives; `PairedProtocol.ThrownExactly` says what overlapping turns could run into, and `PairedInterleavings` covers single writes. Errors other than a blocked or unrepaired owner worktree that stop a turn half way are not modelled (no code constructs the repair error any more, the handling of it is modelled).
- Reviewer snapshots and fingerprints: replaced by mounting the owner's worktree.
- ProviderRetry.RunClaudeRotationLoop: nobody else rotates meanwhile.
- ProviderRetry.RunCodexRotationLoop: the same.
- RotationBounds.ClaudeEndsExactly: for a clock that stands still; for one that moves `ClaudeBounded` and `ClaudeEndless` give a necessary and a sufficient condition for passing the bound.
- RotationBounds.CodexEndsExactly: the same.
- CodexRing.RoundRobin: for accounts whose health does not change during the round.
- Loading and saving rotation state, refreshing OAuth tokens, usage fetchers, account metadata other than cooldown and weekly usage.
- OwnerWorktree.GitRepo.Provision: branches and checkouts only, not the files of the worktree; two processes provisioning one worktree at once; git hooks that fail after their command has done its work; a directory without a repository in it; switching to a branch that only a remote of a clone has.
- PairedDispatch.QueuedOnce: the task's row is the same for both, and some output has been stored; claiming and failing attempts are inputs.
- ExecutionLifecycle.Lifecycle.AsyncFinalize: the lease heartbeat, the notification and the queued follow-up at its end.
- GroupQueueBackoff.BackoffCondition: what the clock reads is an input; that it does not go back is not used.
- IpcClaims.Poller.Poll: one directory of the two handled alike; failing renames stop the process; the authorisation and effect of a message.
- Verdict, error and JSON recognition: taken as inputs.
- Setup, dashboards, room settings, host evidence: plumbing.
