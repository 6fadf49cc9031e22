/** One live run per group: when it holds, and how it is lost. */
module GroupQueueExclusion {
  import opened Common
  import opened GroupRunState
  import opened GroupQueueModel
  import opened GroupQueueSafety

  ghost predicate NoDuplicates(w: seq<string>) {
    forall i, k :: 0 <= i < k < |w| ==> w[i] != w[k]
  }

  predicate IsIdle(s: QueueState, j: string) { Group(s, j).runPhase == Idle }

  /** A live message run is the one its group's record names. */
  predicate OwnMessages(s: QueueState, m: MessageRun) {
    var g := Group(s, m.jid);
    && s.liveMessages[m] == 1
    && (g.runPhase == RunningMessages || g.runPhase == ClosingMessages)
    && g.currentRunId == Some(m.runId) && g.runningTaskId.None?
  }

  predicate OwnTask(s: QueueState, t: TaskRun) {
    var g := Group(s, t.jid);
    && s.liveTasks[t] == 1
    && g.runPhase == RunningTask
    && g.runningTaskId == Some(t.task.id) && g.currentRunId.None?
  }

  ghost predicate OneTask(s: QueueState) {
    forall t, u :: t in s.liveTasks && u in s.liveTasks && t.jid == u.jid ==> t == u
  }

  /** Each live run is the one its group's record names. */
  ghost predicate Single(s: QueueState) {
    && (forall m :: m in s.liveMessages ==> OwnMessages(s, m))
    && (forall t :: t in s.liveTasks ==> OwnTask(s, t))
    && OneTask(s)
    && Phases(s)
  }

  /** And waiting groups are listed once and idle, and no phase check has ever
      reported. */
  ghost predicate Exclusive(s: QueueState) {
    && Single(s)
    && NoDuplicates(s.waiting)
    && (forall j :: j in s.waiting ==> IsIdle(s, j))
    && !s.violated
  }

  /** So a group has one live run at most, of one kind. */
  lemma OneRunPerGroup(s: QueueState, m: MessageRun, m': MessageRun, t: TaskRun, t': TaskRun)
    requires Single(s)
    ensures m in s.liveMessages && m' in s.liveMessages && m.jid == m'.jid ==> m == m' && s.liveMessages[m] == 1
    ensures t in s.liveTasks && t' in s.liveTasks && t.jid == t'.jid ==> t == t' && s.liveTasks[t] == 1
    ensures m in s.liveMessages && t in s.liveTasks ==> m.jid != t.jid
  {
  }

  /** A small step that starts only idle groups. */
  predicate Gentle(s: QueueState, a: Small) {
    match a
    case BeginMessages(j) => IsIdle(s, j)
    case BeginTask(j) => IsIdle(s, j)
    case Accept(t, queued) => queued || IsIdle(s, t.jid)
    case _ => true
  }

  lemma SingleKept(s: QueueState, a: Small)
    requires Single(s) && Possible(s, a) && Gentle(s, a)
    ensures Single(Step(s, a))
  {
    hide Step, Phases, OwnMessages, OwnTask, OneTask;
    PhasesStep(s, a);
    GentleMessages(s, a);
    GentleTasks(s, a);
  }

  /** .. that starts only idle groups that are not waiting, and lists
      only idle groups, once each. */
  ghost predicate Polite(s: QueueState, a: Small) {
    match a
    case BeginMessages(j) => IsIdle(s, j) && j !in s.waiting
    case BeginTask(j) => IsIdle(s, j) && j !in s.waiting
    case Accept(t, queued) => queued || (IsIdle(s, t.jid) && t.jid !in s.waiting)
    case List(w) => NoDuplicates(w) && forall j :: j in w ==> IsIdle(s, j)
    case _ => true
  }

  lemma PoliteKeeps(s: QueueState, a: Small)
    requires Exclusive(s) && Possible(s, a) && Polite(s, a)
    ensures Exclusive(Step(s, a))
  {
    hide Step, Single;
    SingleKept(s, a);
    PoliteWaiting(s, a);
    PoliteChecks(s, a);
  }

  /** The group whose runs a small step concerns. */
  predicate Concerns(a: Small, j: string) {
    match a
    case BeginMessages(k) => j == k
    case BeginTask(k) => j == k
    case Accept(t, queued) => !queued && j == t.jid
    case EndMessages(run, _, _) => j == run.jid
    case EndTask(t) => j == t.jid
    case _ => false
  }

  /** Other groups stay in their runs; a group may at most start closing. */
  lemma Unconcerned(s: QueueState, a: Small, j: string)
    requires Possible(s, a) && !Concerns(a, j)
    ensures var g, g' := Group(s, j), Group(Step(s, a), j);
            && g'.currentRunId == g.currentRunId && g'.runningTaskId == g.runningTaskId
            && (g'.runPhase == g.runPhase || (g.runPhase == RunningMessages && g'.runPhase == ClosingMessages))
  {
    GroupAfter(s, a, j);
    hide Step;
  }

  lemma GentleMessages(s: QueueState, a: Small)
    requires Single(s) && Possible(s, a) && Gentle(s, a)
    ensures forall m :: m in Step(s, a).liveMessages ==> OwnMessages(Step(s, a), m)
  {
    hide Step, OwnMessages, Gentle, Possible, Phases;
    forall m | m in Step(s, a).liveMessages ensures OwnMessages(Step(s, a), m) {
      if Concerns(a, m.jid) { ConcernedMessages(s, a, m); } else { UnconcernedMessages(s, a, m); }
    }
  }

  lemma UnconcernedMessages(s: QueueState, a: Small, m: MessageRun)
    requires Single(s) && Possible(s, a) && !Concerns(a, m.jid)
    requires m in Step(s, a).liveMessages
    ensures OwnMessages(Step(s, a), m)
  {
    hide Possible, Phases;
    RunsAfter(s, a);
    Unconcerned(s, a, m.jid);
    hide Step, Group;
    assert m in s.liveMessages && OwnMessages(s, m);
  }

  /** A message run of the group a step concerns is the one it ends. */
  lemma OldMessages(s: QueueState, a: Small, m: MessageRun)
    requires Single(s) && Possible(s, a) && Gentle(s, a) && Concerns(a, m.jid) && m in s.liveMessages
    ensures a.EndMessages? && m == a.run && s.liveMessages[m] == 1
  {
    assert OwnMessages(s, m);
    assert a.EndMessages? ==> OwnMessages(s, a.run);
    hide Phases, OneTask;
  }

  lemma ConcernedMessages(s: QueueState, a: Small, m: MessageRun)
    requires Single(s) && Possible(s, a) && Gentle(s, a) && Concerns(a, m.jid)
    requires m in Step(s, a).liveMessages
    ensures OwnMessages(Step(s, a), m)
  {
    RunsAfter(s, a);
    if m in s.liveMessages { OldMessages(s, a, m); }
    else { NewMessages(s, a, m); }
    hide *;
  }

  lemma NewMessages(s: QueueState, a: Small, m: MessageRun)
    requires Single(s) && Possible(s, a) && Gentle(s, a) && m !in s.liveMessages
    requires a.BeginMessages? && m == MessageRun(a.jid, s.issued)
    ensures OwnMessages(Step(s, a), m)
  {
    assert InPhase(s, m.jid, Group(s, m.jid));
    hide Phases, OneTask, OwnTask;
    RunsAfter(s, a);
    GroupAfter(s, a, m.jid);
    hide Step;
  }

  lemma GentleTasks(s: QueueState, a: Small)
    requires Single(s) && Possible(s, a) && Gentle(s, a)
    ensures forall t :: t in Step(s, a).liveTasks ==> OwnTask(Step(s, a), t)
    ensures OneTask(Step(s, a))
  {
    hide Step, OwnTask, Gentle, Possible, Phases;
    forall t | t in Step(s, a).liveTasks ensures OwnTask(Step(s, a), t) {
      if Concerns(a, t.jid) { ConcernedTask(s, a, t); } else { UnconcernedTask(s, a, t); }
    }
    forall t, u | t in Step(s, a).liveTasks && u in Step(s, a).liveTasks && t.jid == u.jid ensures t == u {
      if Concerns(a, t.jid) { ConcernedTask(s, a, t); ConcernedTask(s, a, u); }
      else { UnconcernedTask(s, a, t); UnconcernedTask(s, a, u); }
    }
  }

  lemma UnconcernedTask(s: QueueState, a: Small, t: TaskRun)
    requires Single(s) && Possible(s, a) && !Concerns(a, t.jid)
    requires t in Step(s, a).liveTasks
    ensures OwnTask(Step(s, a), t) && t in s.liveTasks
  {
    hide Possible, Phases;
    RunsAfter(s, a);
    Unconcerned(s, a, t.jid);
    hide Step, Group;
    assert t in s.liveTasks && OwnTask(s, t);
  }

  /** The task of the group a step concerns is the one it starts. */
  lemma ConcernedTask(s: QueueState, a: Small, t: TaskRun)
    requires Single(s) && Possible(s, a) && Gentle(s, a) && Concerns(a, t.jid)
    requires t in Step(s, a).liveTasks
    ensures OwnTask(Step(s, a), t)
    ensures (a.BeginTask? && t == TaskRun(a.jid, Group(s, a.jid).pendingTasks[0])) || (a.Accept? && t == a.accepted)
  {
    assert InPhase(s, t.jid, Group(s, t.jid));
    hide Phases;
    RunsAfter(s, a);
    GroupAfter(s, a, t.jid);
    hide Step;
    assert t in s.liveTasks ==> OwnTask(s, t);
  }

  lemma PoliteWaiting(s: QueueState, a: Small)
    requires Exclusive(s) && Possible(s, a) && Polite(s, a)
    ensures NoDuplicates(Step(s, a).waiting)
    ensures forall j :: j in Step(s, a).waiting ==> IsIdle(Step(s, a), j)
  {
    hide Phases;
    WaitingAfter(s, a);
    hide Step;
    forall j | j in Step(s, a).waiting ensures IsIdle(Step(s, a), j) {
      assert IsIdle(s, j);
      if Concerns(a, j) { GroupAfter(s, a, j); } else { Unconcerned(s, a, j); }
    }
  }

  lemma WaitingAfter(s: QueueState, a: Small)
    requires Possible(s, a)
    ensures Step(s, a).waiting == if a.List? then a.waiting else s.waiting
  {
  }

  /** The checks stay silent: a started group was idle, a closing one was in a
      message run of its own. */
  lemma PoliteChecks(s: QueueState, a: Small)
    requires Exclusive(s) && Possible(s, a) && Polite(s, a)
    ensures !Step(s, a).violated
  {
    if a.Stop? || a.Close? { SilentCloses(s, a); } else { SilentStart(s, a); }
    hide *;
  }

  lemma SilentStart(s: QueueState, a: Small)
    requires Exclusive(s) && Possible(s, a) && Polite(s, a) && !a.Stop? && !a.Close?
    ensures !Step(s, a).violated
  {
    if a.BeginMessages? || a.BeginTask? || a.Accept? {
      var j := if a.Accept? then a.accepted.jid else a.jid;
      assert InPhase(s, j, Group(s, j));
      SilentBegin(s, a, j);
    } else {
      hide StartMessages, StartTask, StartQueuedTask, CloseStdin, Shutdown, Phases;
    }
  }

  lemma SilentBegin(s: QueueState, a: Small, j: string)
    requires !s.violated && Possible(s, a) && (a.BeginMessages? || a.BeginTask? || a.Accept?)
    requires j == if a.Accept? then a.accepted.jid else a.jid
    requires InPhase(s, j, Group(s, j)) && (IsIdle(s, j) || (a.Accept? && a.queued))
    ensures !Step(s, a).violated
  {
    hide EndedMessages, EndedTask, CloseStdin, Shutdown;
  }

  lemma SilentCloses(s: QueueState, a: Small)
    requires Exclusive(s) && Possible(s, a) && (a.Stop? || a.Close?)
    ensures !Step(s, a).violated
  {
    hide StartMessages, StartTask, StartQueuedTask, EndedMessages, EndedTask;
    forall j ensures !CloseReports(Group(s, j)) { SilentClose(s, j); }
    forall j | j in s.groups ensures !CloseReports(s.groups[j]) { SilentClose(s, j); }
    hide CloseReports, Exclusive;
  }

  lemma SilentClose(s: QueueState, j: string)
    requires Exclusive(s)
    ensures !CloseReports(Group(s, j))
  {
    var g := Group(s, j);
    assert InPhase(s, j, g);
    if g.runPhase == RunningMessages {
      assert OwnMessages(s, MessageRun(j, g.currentRunId.value));
    }
  }

  // ----- events -----

  /** An enqueue or a retry would start group `j` at once. */
  predicate StartsMessagesNow(c: Limits, s: QueueState, j: string, now: int) {
    && !s.shuttingDown && IsIdle(s, j) && !Backoff(Group(s, j), now)
    && s.activeCount < EffectiveMax(c, s)
  }

  predicate StartsTaskNow(c: Limits, s: QueueState, j: string, taskId: string) {
    && !s.shuttingDown && IsIdle(s, j) && !Known(Group(s, j), taskId)
    && s.activeCount < EffectiveMax(c, s) && s.activeTaskCount < c.MaxTasks()
  }

  /** The event starts, directly, a group that is still listed as waiting. */
  predicate StartsListed(c: Limits, s: QueueState, e: Event) {
    match e
    case EnqueueMessagesEvent(j, _, now) => StartsMessagesNow(c, s, j, now) && j in s.waiting
    case EnqueueTaskEvent(j, id) => StartsTaskNow(c, s, j, id) && j in s.waiting
    case RetryTimer(j, now) => StartsMessagesNow(c, Disarmed(s, j), j, now) && j in s.waiting
    case _ => false
  }

  lemma AdmitExclusive(c: Limits, s: QueueState, i: nat)
    requires Exclusive(s) && i < |s.waiting| && Startable(c, s, s.waiting[i])
    ensures Exclusive(Admit(c, s, i))
  {
    var j, w := s.waiting[i], Without(s.waiting, i);
    OneTakenOut(s.waiting, i);
    AdmitIsSteps(c, s, i);
    hide Exclusive, Step, Admit, Group, NoDuplicates, Without;
    WaitingIdle(s, j);
    forall k | k in w ensures IsIdle(s, k) { WaitingIdle(s, k); }
    PoliteKeeps(s, List(w));
    PoliteKeeps(Step(s, List(w)), if HasMessages(s, j) then BeginMessages(j) else BeginTask(j));
  }

  /** Off the list, then started. */
  lemma AdmitIsSteps(c: Limits, s: QueueState, i: nat)
    requires i < |s.waiting| && Startable(c, s, s.waiting[i])
    ensures var j, s' := s.waiting[i], Step(s, List(Without(s.waiting, i)));
            && s'.waiting == Without(s.waiting, i) && Group(s', j) == Group(s, j)
            && Possible(s, List(Without(s.waiting, i)))
            && Possible(s', if HasMessages(s, j) then BeginMessages(j) else BeginTask(j))
            && Admit(c, s, i) == Step(s', if HasMessages(s, j) then BeginMessages(j) else BeginTask(j))
  {
    hide StartMessages, StartQueuedTask, Without;
  }

  lemma OneTakenOut(waiting: seq<string>, i: nat)
    requires i < |waiting|
    ensures forall k :: k in Without(waiting, i) ==> k in waiting
    ensures NoDuplicates(waiting) ==> NoDuplicates(Without(waiting, i)) && waiting[i] !in Without(waiting, i)
  {
  }

  lemma WaitingIdle(s: QueueState, j: string)
    requires Exclusive(s) && j in s.waiting
    ensures IsIdle(s, j) && NoDuplicates(s.waiting)
  {
  }

  lemma {:induction false} DrainExclusive(c: Limits, s: QueueState)
    requires Exclusive(s)
    ensures Exclusive(DrainWaiting(c, s))
    decreases |s.waiting|
  {
    hide Exclusive, Admit, NextWaiting;
    if s.waiting != [] && s.activeCount < EffectiveMax(c, s) {
      var n := NextWaiting(c, s);
      if n.Some? {
        AdmitExclusive(c, s, n.value);
        DrainExclusive(c, Admit(c, s, n.value));
      }
    }
  }

  lemma DrainGroupExclusive(c: Limits, s: QueueState, j: string)
    requires Exclusive(s) && IsIdle(s, j) && j !in s.waiting
    ensures Exclusive(DrainGroup(c, s, j))
  {
    hide Exclusive, StartMessages, StartQueuedTask, DrainWaiting;
    if HasTasks(s, j) { PoliteKeeps(s, BeginTask(j)); }
    if HasMessages(s, j) { PoliteKeeps(s, BeginMessages(j)); }
    DrainExclusive(c, s);
  }

  lemma RunningIsNotListed(s: QueueState, e: Event)
    requires Exclusive(s) && Enabled(s, e) && (e.MessagesDone? || e.TaskDone?)
    ensures (if e.MessagesDone? then e.run.jid else e.taskRun.jid) !in s.waiting
  {
    if e.MessagesDone? { assert OwnMessages(s, e.run); } else { assert OwnTask(s, e.taskRun); }
  }

  lemma FinishExclusive(c: Limits, s: QueueState, e: Event)
    requires Exclusive(s) && Enabled(s, e) && (e.MessagesDone? || e.TaskDone?)
    ensures Exclusive(Next(c, s, e))
  {
    hide Exclusive, EndedMessages, EndedTask, DrainGroup, Group, RetryRec;
    var a := if e.MessagesDone? then EndMessages(e.run, e.success, e.now) else EndTask(e.taskRun);
    var j := if e.MessagesDone? then e.run.jid else e.taskRun.jid;
    RunningIsNotListed(s, e);
    PoliteKeeps(s, a);
    WaitingAfter(s, a);
    GroupAfter(s, a, j);
    DrainGroupExclusive(c, Step(s, a), j);
  }

  /** An idle group may be listed; if it is not listed, it may be started. */
  lemma PoliteToList(s: QueueState, j: string)
    requires Exclusive(s) && IsIdle(s, j)
    ensures j !in s.waiting ==> Polite(s, List(s.waiting + [j]))
    ensures j !in s.waiting ==> Polite(s, BeginMessages(j))
    ensures forall t: TaskRun, queued :: t.jid == j && j !in s.waiting ==> Polite(s, Accept(t, queued))
  {
  }

  lemma MessageCheckExclusive(c: Limits, s: QueueState, j: string, ipcDir: Option<string>, now: int)
    requires Exclusive(s) && !(StartsMessagesNow(c, s, j, now) && j in s.waiting)
    ensures Exclusive(EnqueueMessageCheck(c, s, j, ipcDir, now))
  {
    hide StartMessages, Exclusive;
    var g := AdoptIpcDir(Group(s, j), ipcDir);
    var mark, adopt := Quiet(j, g.(pendingMessages := true)), Quiet(j, g);
    PoliteKeeps(s, mark);
    PoliteKeeps(s, adopt);
    if IsIdle(s, j) && j !in s.waiting {
      PoliteToList(Step(s, mark), j);
      PoliteToList(Step(s, adopt), j);
      hide Polite;
      PoliteKeeps(Step(s, mark), List(s.waiting + [j]));
      PoliteKeeps(Step(s, adopt), BeginMessages(j));
    }
  }

  lemma EnqueueTaskExclusive(c: Limits, s: QueueState, j: string, id: string)
    requires Exclusive(s) && !(StartsTaskNow(c, s, j, id) && j in s.waiting)
    ensures Exclusive(EnqueueTask(c, s, j, id))
  {
    hide StartTask, Exclusive, Known;
    var t := TaskRun(j, QueuedTask(id, s.issued));
    PoliteKeeps(s, Quiet(j, Group(s, j)));
    if !Known(Group(s, j), id) {
      PoliteKeeps(s, Accept(t, true));
      if IsIdle(s, j) && j !in s.waiting {
        PoliteToList(Step(s, Accept(t, true)), j);
        PoliteToList(s, j);
        hide Polite;
        PoliteKeeps(Step(s, Accept(t, true)), List(s.waiting + [j]));
        PoliteKeeps(s, Accept(t, false));
      }
    }
  }

  /** Exclusion survives every event except a direct start of a listed group. */
  lemma ExclusiveKept(c: Limits, s: QueueState, e: Event)
    requires Exclusive(s) && Enabled(s, e) && !StartsListed(c, s, e)
    ensures Exclusive(Next(c, s, e))
  {
    hide Exclusive, DrainWaiting, EnqueueMessageCheck, EnqueueTask, Shutdown, CloseStdin,
         StartsMessagesNow, StartsTaskNow;
    match e
    case EnqueueMessagesEvent(j, ipcDir, now) => MessageCheckExclusive(c, s, j, ipcDir, now);
    case EnqueueTaskEvent(j, id) => EnqueueTaskExclusive(c, s, j, id);
    case MessagesDone(_, _, _) => FinishExclusive(c, s, e);
    case TaskDone(_, _) => FinishExclusive(c, s, e);
    case RetryTimer(j, now) =>
      PoliteKeeps(s, Quiet(j, Group(s, j).(retryTimer := false, retryScheduledAt := None)));
      MessageCheckExclusive(c, Disarmed(s, j), j, None, now);
    case RecoveryStarts => PoliteKeeps(s, Recovery(true, s.recoveryTimers + 1));
    case RecoveryEnds(_) =>
      PoliteKeeps(s, Recovery(false, s.recoveryTimers - 1));
      DrainExclusive(c, Step(s, Recovery(false, s.recoveryTimers - 1)));
    case CloseStdinEvent(j) => PoliteKeeps(s, Close(j));
    case ProcessRegistered(j, name, ipcDir) =>
      var g := Group(s, j);
      PoliteKeeps(s, Quiet(j, g.(processName := Some(name), ipcDir := if ipcDir.Some? then ipcDir else g.ipcDir)));
    case ShutdownEvent => PoliteKeeps(s, Stop);
  }

  /** And such a start does break it: the group is running and still listed. */
  lemma ExclusiveLost(c: Limits, s: QueueState, e: Event)
    requires Exclusive(s) && Enabled(s, e) && StartsListed(c, s, e)
    ensures !Exclusive(Next(c, s, e))
  {
    hide Exclusive;
    var j := e.jid;
    var s' := Next(c, s, e);
    if e.EnqueueTaskEvent? {
      hide StartMessages, EnqueueMessageCheck;
      var s0 := s.(issued := s.issued + 1, accepted := s.accepted + {TaskRun(j, QueuedTask(e.taskId, s.issued))});
      BeginTaskGroup(Put(s0, j, Group(s, j)), TaskRun(j, QueuedTask(e.taskId, s.issued)), j);
      assert j in s'.waiting && !IsIdle(s', j);
    } else {
      hide StartTask, EnqueueTask;
      var s0 := if e.RetryTimer? then Disarmed(s, j) else s;
      var g := AdoptIpcDir(Group(s0, j), if e.RetryTimer? then None else e.ipcDir);
      BeginMessagesGroup(Put(s0, j, g), j, j);
      assert j in s'.waiting && !IsIdle(s', j);
    }
    if Exclusive(s') { WaitingIdle(s', j); }
  }

  /** The exact condition, for every event in every exclusive state. */
  lemma ExclusionCondition(c: Limits, s: QueueState, e: Event)
    requires Exclusive(s) && Enabled(s, e)
    ensures Exclusive(Next(c, s, e)) <==> !StartsListed(c, s, e)
  {
    hide Exclusive, Next, StartsListed;
    if StartsListed(c, s, e) { ExclusiveLost(c, s, e); } else { ExclusiveKept(c, s, e); }
  }

  lemma ExclusiveInitially()
    ensures Exclusive(Initial)
  {
  }

  /** Every history without such a start has one live run per group throughout. */
  lemma {:induction false} ExclusiveThroughout(c: Limits, trace: seq<QueueState>, events: seq<Event>, i: nat)
    requires Execution(c, trace, events) && i < |trace|
    requires forall k :: 0 <= k < |events| ==> !StartsListed(c, trace[k], events[k])
    ensures Exclusive(trace[i])
  {
    hide Exclusive, StartsListed, Next;
    if i == 0 {
      ExclusiveInitially();
    } else {
      ExclusiveThroughout(c, trace, events, i - 1);
      ExclusiveKept(c, trace[i - 1], events[i - 1]);
    }
  }
}
