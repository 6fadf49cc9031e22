/** Three situations of the scheduler singled out: rooms that only exchange
    messages, the run that breaks exclusion, and what happens after a shutdown. */
module GroupQueueCases {
  import opened Common
  import opened GroupRunState
  import opened GroupQueueModel
  import opened GroupQueueSafety
  import opened GroupQueueExclusion
  import opened GroupQueueProgress
  import opened GroupQueueHistories

  // ----- messages only -----

  /** No task was ever accepted, and groups wait only for their messages and
      only while the limit is reached. */
  ghost predicate MessageQueue(c: Limits, s: QueueState) {
    && s.accepted == {}
    && (forall j :: j in s.waiting ==> HasMessages(s, j))
    && (s.waiting == [] || s.activeCount >= EffectiveMax(c, s) || s.shuttingDown)
  }

  lemma NoTasks(s: QueueState, j: string)
    requires Conserved(s) && s.accepted == {}
    ensures !HasTasks(s, j) && s.liveTasks == multiset{}
  {
    var q := Group(s, j).pendingTasks;
    assert q != [] ==> q[0] in multiset(q) && Places(s, TaskRun(j, q[0])) > 0;
    forall t ensures s.liveTasks[t] == 0 { assert Places(s, t) == 0; }
  }

  lemma DrainMessageQueue(c: Limits, s: QueueState)
    requires s.accepted == {} && forall j :: j in s.waiting ==> HasMessages(s, j)
    requires Exclusive(s)
    ensures MessageQueue(c, DrainWaiting(c, s))
  {
    DrainFrame(c, s);
    DrainExclusive(c, s);
    hide DrainWaiting;
    var r := DrainWaiting(c, s);
    forall j | j in r.waiting ensures HasMessages(r, j) {
      WaitingIdle(r, j);
      assert Group(r, j) == Group(s, j);
    }
    hide Exclusive;
    if r.waiting != [] { assert Startable(c, r, r.waiting[0]); }
  }

  lemma FinishMessageQueue(c: Limits, s: QueueState, e: Event)
    requires MessageQueue(c, s) && Exclusive(s) && Conserved(s) && Finishes(e) && Enabled(s, e)
    ensures MessageQueue(c, Next(c, s, e))
  {
    hide Next, Step, Exclusive, Conserved, DrainGroup;
    FinishIs(c, s, e);
    hide Enabled, Finishes;
    EndShape(s, e);
    AcceptedAfter(s, Ending(e));
    var s', j := Step(s, Ending(e)), EndingGroup(e);
    RunningIsNotListed(s, e);
    PoliteKeeps(s, Ending(e));
    NoTasks(s, j);
    hide Ending, Possible, Polite;
    forall k | k in s'.waiting ensures HasMessages(s', k) { assert HasMessages(s, k); }
    EndedMessageQueue(c, s', j);
  }

  lemma EndedMessageQueue(c: Limits, s: QueueState, j: string)
    requires s.accepted == {} && (forall k :: k in s.waiting ==> HasMessages(s, k)) && Exclusive(s)
    requires s.waiting == [] || s.activeCount + 1 >= EffectiveMax(c, s) || s.shuttingDown
    requires j !in s.waiting && !HasTasks(s, j)
    ensures MessageQueue(c, DrainGroup(c, s, j))
  {
    hide Exclusive, StartMessages, StartQueuedTask, DrainWaiting;
    StartFrame(s, j);
    DrainMessageQueue(c, s);
  }

  lemma CheckMessageQueue(c: Limits, s: QueueState, j: string, ipcDir: Option<string>, now: int)
    requires MessageQueue(c, s)
    ensures MessageQueue(c, EnqueueMessageCheck(c, s, j, ipcDir, now))
  {
    hide StartMessages;
    var r := EnqueueMessageCheck(c, s, j, ipcDir, now);
    if StartsMessagesNow(c, s, j, now) {
      StartFrame(Put(s, j, AdoptIpcDir(Group(s, j), ipcDir)), j);
    } else if !s.shuttingDown {
      var queued := Put(s, j, AdoptIpcDir(Group(s, j), ipcDir).(pendingMessages := true));
      assert r == queued || (r == Waiting(queued, j) && s.activeCount >= EffectiveMax(c, s));
      hide EnqueueMessageCheck;
      forall k | k in r.waiting ensures HasMessages(r, k) {
        if k != j { assert HasMessages(s, k); }
      }
    }
    hide EnqueueMessageCheck;
  }

  /** With the recovery limit no larger than the normal one, every event except
      a task enqueue keeps it, and none starts a listed group. */
  lemma MessageQueueKept(c: Limits, s: QueueState, e: Event)
    requires c.recoveryAgents <= c.maxAgents
    requires MessageQueue(c, s) && Exclusive(s) && Conserved(s) && Enabled(s, e) && !e.EnqueueTaskEvent?
    ensures !StartsListed(c, s, e) && MessageQueue(c, Next(c, s, e))
  {
    hide EnqueueMessageCheck, FinishMessages, FinishTask, RecoveryTimerFires, Conserved, Exclusive;
    match e
    case EnqueueMessagesEvent(j, ipcDir, now) => CheckMessageQueue(c, s, j, ipcDir, now);
    case RetryTimer(j, now) =>
      SameQueue(c, s, Disarmed(s, j));
      CheckMessageQueue(c, Disarmed(s, j), j, None, now);
    case MessagesDone(_, _, _) => FinishMessageQueue(c, s, e);
    case TaskDone(_, _) => FinishMessageQueue(c, s, e);
    case RecoveryEnds(_) => RecoveryEndMessageQueue(c, s);
    case CloseStdinEvent(j) => SameQueue(c, s, Next(c, s, e));
    case ProcessRegistered(j, _, _) => SameQueue(c, s, Next(c, s, e));
    case ShutdownEvent => SameQueue(c, s, Next(c, s, e));
    case RecoveryStarts =>
  }

  lemma SameQueue(c: Limits, s: QueueState, s': QueueState)
    requires MessageQueue(c, s) && s'.waiting == s.waiting && s'.accepted == s.accepted
    requires s'.activeCount == s.activeCount && s'.recoveryMode == s.recoveryMode &&
             (s.shuttingDown ==> s'.shuttingDown)
    requires forall k :: k in s.waiting ==> Group(s', k).pendingMessages == Group(s, k).pendingMessages
    ensures MessageQueue(c, s')
  {
    forall k | k in s'.waiting ensures HasMessages(s', k) { assert HasMessages(s, k); }
  }

  lemma RecoveryEndMessageQueue(c: Limits, s: QueueState)
    requires MessageQueue(c, s) && Exclusive(s) && s.recoveryTimers > 0
    ensures MessageQueue(c, RecoveryTimerFires(c, s))
  {
    hide Exclusive, DrainWaiting;
    var s' := s.(recoveryMode := false, recoveryTimers := s.recoveryTimers - 1);
    PoliteKeeps(s, Recovery(false, s.recoveryTimers - 1));
    forall k | k in s'.waiting ensures HasMessages(s', k) { assert HasMessages(s, k); }
    DrainMessageQueue(c, s');
  }

  /** Rooms that only exchange messages never run twice at once. */
  lemma {:induction false} MessageOnlyIsExclusive(c: Limits, trace: seq<QueueState>, events: seq<Event>, i: nat)
    requires Execution(c, trace, events) && i < |trace| && c.recoveryAgents <= c.maxAgents
    requires forall k :: 0 <= k < |events| ==> !events[k].EnqueueTaskEvent?
    ensures Exclusive(trace[i]) && MessageQueue(c, trace[i])
    ensures forall k :: 0 <= k < i ==> !StartsListed(c, trace[k], events[k])
  {
    hide Exclusive, MessageQueue, StartsListed, Next;
    if i == 0 {
      ExclusiveInitially();
      assert MessageQueue(c, Initial) by { MessageQueueInitially(c); }
    } else {
      MessageOnlyIsExclusive(c, trace, events, i - 1);
      SoundThroughout(c, trace, events, i - 1);
      hide Conserved;
      MessageQueueKept(c, trace[i - 1], events[i - 1]);
      ExclusiveKept(c, trace[i - 1], events[i - 1]);
    }
  }

  lemma MessageQueueInitially(c: Limits)
    ensures MessageQueue(c, Initial)
  {
  }

  // ----- the run that breaks exclusion -----

  function FirstTask(): TaskRun { TaskRun("a", QueuedTask("t", 0)) }
  function SecondTask(): TaskRun { TaskRun("b", QueuedTask("u", 1)) }

  /** Two agents, one task slot: a task of `a` runs, a task of `b` waits. */
  function Occupied(): QueueState {
    Initial.(
      groups := map["a" := RunningTaskRec(FreshGroup, "t"),
                    "b" := FreshGroup.(pendingTasks := [SecondTask().task])],
      activeCount := 1, activeTaskCount := 1, waiting := ["b"],
      liveTasks := multiset{FirstTask()}, accepted := {FirstTask(), SecondTask()}, issued := 2)
  }

  /** A message then starts `b` directly, although it is still listed. */
  function StartedListed(): QueueState {
    Occupied().(
      groups := map["a" := RunningTaskRec(FreshGroup, "t"),
                    "b" := RunningMessagesRec(FreshGroup.(pendingTasks := [SecondTask().task]), 2)],
      activeCount := 2, liveMessages := multiset{MessageRun("b", 2)}, issued := 3)
  }

  lemma OccupiedReached(c: Limits)
    requires c == Limits(2, 1)
    ensures Reachable(c, Occupied())
  {
    var s := EnqueueTask(c, Initial, "a", "t");
    assert s.groups == map["a" := RunningTaskRec(FreshGroup, "t")];
    var r := EnqueueTask(c, s, "b", "u");
    assert FreshGroup.pendingTasks + [SecondTask().task] == [SecondTask().task];
    assert r.groups == Occupied().groups;
    assert r == Occupied();
    assert Leads(c, Initial, EnqueueTaskEvent("a", "t"), s);
    assert Leads(c, s, EnqueueTaskEvent("b", "u"), r);
    hide *;
    ReachableInitially(c);
    ReachableNext(c, Initial, EnqueueTaskEvent("a", "t"), s);
    ReachableNext(c, s, EnqueueTaskEvent("b", "u"), r);
  }

  lemma StartedListedReached(c: Limits)
    requires c == Limits(2, 1)
    ensures StartsListed(c, Occupied(), EnqueueMessagesEvent("b", None, 0))
    ensures Leads(c, Occupied(), EnqueueMessagesEvent("b", None, 0), StartedListed())
  {
    var r := EnqueueMessageCheck(c, Occupied(), "b", None, 0);
    assert r.groups == StartedListed().groups;
  }

  /** When the task of `a` finishes, the stale entry starts `b` a second time. */
  lemma SecondRunStarts(c: Limits)
    requires c == Limits(2, 1)
    ensures var s := FinishTask(c, StartedListed(), FirstTask());
            && Leads(c, StartedListed(), TaskDone(FirstTask(), 0), s)
            && MessageRun("b", 2) in s.liveMessages && SecondTask() in s.liveTasks && s.violated
    ensures SecondTask().jid == "b"
  {
    var s := EndedTask(StartedListed(), FirstTask());
    assert Group(s, "b") == Group(StartedListed(), "b");
    assert !HasTasks(s, "a") && !HasMessages(s, "a") && !s.shuttingDown;
    assert FirstWithMessages(s, 1).None?;
    assert NextWaiting(c, s) == Some(0);
    var w := s.(waiting := Without(s.waiting, 0));
    assert Admit(c, s, 0) == StartQueuedTask(w, "b");
    var q := StartQueuedTask(w, "b");
    assert q.waiting == [] && DrainWaiting(c, q) == q;
    assert FirstTask() in StartedListed().liveTasks;
  }

  /** A history that runs group `b` twice at once and trips a phase check. */
  lemma ExclusionIsNotInvariant() returns (c: Limits, trace: seq<QueueState>, events: seq<Event>)
    ensures Execution(c, trace, events)
    ensures var s := trace[|events|];
            s.violated && exists m, t :: m in s.liveMessages && t in s.liveTasks && m.jid == t.jid
  {
    c := Limits(2, 1);
    OccupiedReached(c);
    StartedListedReached(c);
    SecondRunStarts(c);
    var s := FinishTask(c, StartedListed(), FirstTask());
    hide Leads, FinishTask, Occupied, StartedListed, FirstTask, SecondTask, Execution;
    ReachableNext(c, Occupied(), EnqueueMessagesEvent("b", None, 0), StartedListed());
    ReachableNext(c, StartedListed(), TaskDone(FirstTask(), 0), s);
    trace, events :| Execution(c, trace, events) && trace[|events|] == s;
    assert MessageRun("b", 2).jid == SecondTask().jid;
  }

  // ----- after a shutdown -----

  /** After a shutdown nothing new starts, unless a recovery timer is still armed. */
  lemma ShutdownStartsNothing(c: Limits, s: QueueState, e: Event)
    requires Enabled(s, e) && s.shuttingDown && !e.RecoveryEnds?
    ensures Next(c, s, e).liveMessages <= s.liveMessages && Next(c, s, e).liveTasks <= s.liveTasks
  {
    hide DrainWaiting, StartMessages, StartTask, StartQueuedTask, RetryRec;
  }

  /** The recovery timer does not look: with a slot free a waiting group is started. */
  lemma RecoveryTimerStartsAfterShutdown(c: Limits, s: QueueState)
    requires s.shuttingDown && s.recoveryTimers > 0
    ensures RecoveryTimerFires(c, s).activeCount > s.activeCount <==>
            s.activeCount < c.maxAgents && exists j :: j in s.waiting && Startable(c, s, j)
  {
    var s' := s.(recoveryMode := false, recoveryTimers := s.recoveryTimers - 1);
    forall j ensures Startable(c, s', j) == Startable(c, s, j) {}
    var n := NextWaiting(c, s');
    if n.Some? && s.activeCount < c.maxAgents {
      AdmitFrame(c, s', n.value);
      DrainFrame(c, Admit(c, s', n.value));
      assert s.waiting[n.value] in s.waiting;
    }
    hide Admit, NextWaiting, Startable;
  }

  // ----- histories that get there -----

  const MessageA := MessageRun("a", 0)

  /** One agent, in recovery: `a` runs, `b` waits. */
  const AWithB := Initial.(
    groups := map["a" := RunningMessagesRec(FreshGroup, 0), "b" := FreshGroup.(pendingMessages := true)],
    activeCount := 1, waiting := ["b"], recoveryMode := true, recoveryTimers := 1,
    liveMessages := multiset{MessageA}, issued := 1)

  lemma AWithBReached(c: Limits)
    requires c == Limits(1, 1)
    ensures Reachable(c, AWithB)
  {
    var recovering := Initial.(recoveryMode := true, recoveryTimers := 1);
    assert Leads(c, Initial, RecoveryStarts, recovering);
    var s := EnqueueMessageCheck(c, recovering, "a", None, 0);
    assert s.groups == map["a" := RunningMessagesRec(FreshGroup, 0)];
    assert Leads(c, recovering, EnqueueMessagesEvent("a", None, 0), s);
    assert EnqueueMessageCheck(c, s, "b", None, 0).groups == AWithB.groups;
    assert Leads(c, s, EnqueueMessagesEvent("b", None, 0), AWithB);
    hide *;
    ReachableInitially(c);
    ReachableNext(c, Initial, RecoveryStarts, recovering);
    ReachableNext(c, recovering, EnqueueMessagesEvent("a", None, 0), s);
    ReachableNext(c, s, EnqueueMessagesEvent("b", None, 0), AWithB);
  }

  lemma ShutDownReached(c: Limits, s: QueueState)
    requires c == Limits(1, 1) && s == FinishMessages(c, Shutdown(AWithB), MessageA, true, 0)
    ensures Reachable(c, s) && s.shuttingDown && s.recoveryTimers == 1 && s.activeCount == 0
    ensures s.waiting == ["b"] && HasMessages(s, "b")
  {
    AWithBReached(c);
    var down := Shutdown(AWithB);
    assert MessageA in down.liveMessages;
    assert Group(down, "b").pendingMessages;
    assert Group(EndedMessages(down, MessageA, true, 0), "b") == Group(down, "b");
    assert Leads(c, AWithB, ShutdownEvent, down);
    assert Leads(c, down, MessagesDone(MessageA, true, 0), s);
    hide Leads;
    ReachableNext(c, AWithB, ShutdownEvent, down);
    ReachableNext(c, down, MessagesDone(MessageA, true, 0), s);
  }

  /** A history in which a run starts after the shutdown. */
  lemma ShutdownIsNotFinal() returns (c: Limits, s: QueueState, e: Event)
    ensures Reachable(c, s) && s.shuttingDown && Enabled(s, e)
    ensures Next(c, s, e).activeCount > s.activeCount
  {
    c, e := Limits(1, 1), RecoveryEnds(0);
    s := FinishMessages(c, Shutdown(AWithB), MessageA, true, 0);
    ShutDownReached(c, s);
    hide FinishMessages;
    RecoveryTimerStartsAfterShutdown(c, s);
    assert s.waiting[0] in s.waiting && Startable(c, s, "b");
  }

  /** Two agents, one task slot: a task of `a` and messages of `b` run, and a task
      of `b` is queued behind them. */
  const TaskBehind := QueuedTask("u", 2)
  const MessageB := MessageRun("b", 1)
  const SlotTaken := Initial.(
    groups := map["a" := RunningTaskRec(FreshGroup, "t"),
                  "b" := RunningMessagesRec(FreshGroup, 1).(pendingTasks := [TaskBehind])],
    activeCount := 2, activeTaskCount := 1, liveTasks := multiset{FirstTask()}, liveMessages := multiset{MessageB},
    accepted := {FirstTask(), TaskRun("b", TaskBehind)}, issued := 3)

  /** Before its task arrives. */
  const BothRunning := SlotTaken.(
    groups := map["a" := RunningTaskRec(FreshGroup, "t"), "b" := RunningMessagesRec(FreshGroup, 1)],
    accepted := {FirstTask()}, issued := 2)

  /** And before the messages. */
  const TaskRunning := BothRunning.(
    groups := map["a" := RunningTaskRec(FreshGroup, "t")], activeCount := 1, liveMessages := multiset{}, issued := 1)

  lemma TaskRunningReached(c: Limits)
    requires c == Limits(2, 1)
    ensures Reachable(c, TaskRunning)
  {
    assert Group(Initial, "a") == FreshGroup && !Known(FreshGroup, "t");
    hide Known;
    var accepted := Initial.(issued := 1, accepted := {FirstTask()});
    assert {} + {FirstTask()} == {FirstTask()} && multiset{} + multiset{FirstTask()} == multiset{FirstTask()};
    assert EnqueueTask(c, Initial, "a", "t") == StartTask(Put(accepted, "a", FreshGroup), FirstTask());
    assert StartTask(Put(accepted, "a", FreshGroup), FirstTask()).groups == TaskRunning.groups;
    assert Leads(c, Initial, EnqueueTaskEvent("a", "t"), TaskRunning);
    hide *;
    ReachableInitially(c);
    ReachableNext(c, Initial, EnqueueTaskEvent("a", "t"), TaskRunning);
  }

  lemma BothRunningReached(c: Limits)
    requires c == Limits(2, 1)
    ensures Reachable(c, BothRunning)
  {
    TaskRunningReached(c);
    assert EnqueueMessageCheck(c, TaskRunning, "b", None, 0).groups == BothRunning.groups;
    assert Leads(c, TaskRunning, EnqueueMessagesEvent("b", None, 0), BothRunning);
    hide *;
    ReachableNext(c, TaskRunning, EnqueueMessagesEvent("b", None, 0), BothRunning);
  }

  lemma SlotTakenReached(c: Limits)
    requires c == Limits(2, 1)
    ensures Reachable(c, SlotTaken)
  {
    BothRunningReached(c);
    assert [] + [TaskBehind] == [TaskBehind];
    assert EnqueueTask(c, BothRunning, "b", "u").groups == SlotTaken.groups;
    assert Leads(c, BothRunning, EnqueueTaskEvent("b", "u"), SlotTaken);
    hide *;
    ReachableNext(c, BothRunning, EnqueueTaskEvent("b", "u"), SlotTaken);
  }

  /** A history that passes the task limit. */
  lemma TaskLimitIsPassed() returns (c: Limits, s: QueueState, e: Event)
    ensures Reachable(c, s) && Enabled(s, e)
    ensures s.activeTaskCount <= c.MaxTasks() < Next(c, s, e).activeTaskCount
  {
    c, s, e := Limits(2, 1), SlotTaken, MessagesDone(MessageB, true, 0);
    SlotTakenReached(c);
    assert MessageB in s.liveMessages && Group(s, "b") == s.groups["b"];
    hide Next;
    TaskLimitCondition(c, s, e);
  }
}
