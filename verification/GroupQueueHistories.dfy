/** What the scheduler promises over whole histories, and how it falls short. */
module GroupQueueHistories {
  import opened Common
  import opened GroupRunState
  import opened GroupQueueModel
  import opened GroupQueueSafety
  import opened GroupQueueExclusion
  import opened GroupQueueProgress

  // ----- counters, phases and tasks, always -----

  /** In every history the counters are right, a busy phase has its live run,
      every accepted task is in one place, and no queue repeats an id. */
  lemma SoundThroughout(c: Limits, trace: seq<QueueState>, events: seq<Event>, i: nat)
    requires Execution(c, trace, events) && i < |trace|
    ensures Counted(trace[i]) && Phases(trace[i]) && Conserved(trace[i]) && Distinct(trace[i])
  {
    hide Next;
    CountedClosed();
    PhasesClosed();
    ConservedClosed();
    DistinctClosed();
    assert Phases(Initial) && Conserved(Initial) && Distinct(Initial) && Counted(Initial);
    hide Closed, Phases, Conserved, Distinct, Counted;
    Always(c, trace, events, i, Counted);
    Always(c, trace, events, i, Phases);
    Always(c, trace, events, i, Conserved);
    Always(c, trace, events, i, Distinct);
  }

  ghost function Started(t: TaskRun, n: nat): QueueState -> bool {
    (q: QueueState) => n <= q.liveTasks[t] + q.finished[t]
  }

  lemma StartedClosed(t: TaskRun, n: nat)
    ensures Closed(Started(t, n))
  {
    hide Step, Possible, Started;
    forall q, a | Started(t, n)(q) && Possible(q, a) ensures Started(t, n)(Step(q, a)) { StaysStarted(q, a, t, n); }
  }

  lemma StaysStarted(s: QueueState, a: Small, t: TaskRun, n: nat)
    requires Started(t, n)(s) && Possible(s, a)
    ensures Started(t, n)(Step(s, a))
  {
    hide Step;
    RunsAfter(s, a);
  }

  /** A task is started at most once: once running or done, it stays so, and it
      is never in both. */
  lemma StartedOnce(c: Limits, s: QueueState, e: Event, t: TaskRun)
    requires Enabled(s, e) && Conserved(s)
    ensures s.liveTasks[t] + s.finished[t] <= Next(c, s, e).liveTasks[t] + Next(c, s, e).finished[t] <= 1
  {
    var n := s.liveTasks[t] + s.finished[t];
    StartedClosed(t, n);
    ConservedClosed();
    hide Next, Closed;
    NextKeeps(c, s, e, Started(t, n));
    NextKeeps(c, s, e, Conserved);
    assert Places(Next(c, s, e), t) <= 1;
  }

  // ----- no lost wake-up, always -----

  lemma {:induction false} AwakeThroughout(c: Limits, trace: seq<QueueState>, events: seq<Event>, i: nat)
    requires Execution(c, trace, events) && i < |trace|
    ensures Sound(trace[i]) && (!trace[i].shuttingDown ==> Awake(c, trace[i], false))
  {
    if i == 0 {
      assert Sound(Initial) && Awake(c, Initial, false);
    } else {
      AwakeThroughout(c, trace, events, i - 1);
      hide Sound, Awake, Next;
      SoundKept(c, trace[i - 1], events[i - 1]);
      ShutdownStays(c, trace[i - 1], events[i - 1]);
      if !trace[i].shuttingDown { AwakeKept(c, trace[i - 1], events[i - 1]); }
    }
  }

  /** A shutdown is never taken back, and only a shutdown event makes one. */
  lemma ShutdownStays(c: Limits, s: QueueState, e: Event)
    requires Enabled(s, e)
    ensures s.shuttingDown || e.ShutdownEvent? <==> Next(c, s, e).shuttingDown
  {
    if e.ShutdownEvent? { return; }
    hide Next;
    var b := s.shuttingDown;
    var P := (q: QueueState) => b ==> q.shuttingDown;
    ShutdownClosed(b);
    NextKeeps(c, s, e, P);
    if !b { StillRunning(c, s, e); }
  }

  lemma ShutdownClosed(b: bool)
    ensures Closed((q: QueueState) => b ==> q.shuttingDown)
  {
  }

  lemma StillRunning(c: Limits, s: QueueState, e: Event)
    requires Enabled(s, e) && !s.shuttingDown && !e.ShutdownEvent?
    ensures !Next(c, s, e).shuttingDown
  {
    hide DrainWaiting, StartMessages, StartQueuedTask, EnqueueMessageCheck, EnqueueTask, DrainGroup, Known;
    match e
    case MessagesDone(run, success, now) => DrainGroupRunning(c, EndedMessages(s, run, success, now), run.jid);
    case TaskDone(t, _) => DrainGroupRunning(c, EndedTask(s, t), t.jid);
    case RecoveryEnds(_) => DrainFrame(c, s.(recoveryMode := false, recoveryTimers := s.recoveryTimers - 1));
    case EnqueueMessagesEvent(j, ipcDir, now) => CheckRunning(c, s, j, ipcDir, now);
    case RetryTimer(j, now) => CheckRunning(c, Disarmed(s, j), j, None, now);
    case EnqueueTaskEvent(j, id) => EnqueueRunning(c, s, j, id);
    case _ =>
  }

  lemma DrainGroupRunning(c: Limits, s: QueueState, j: string)
    ensures DrainGroup(c, s, j).shuttingDown == s.shuttingDown
  {
    hide DrainWaiting, StartMessages, StartQueuedTask;
    StartFrame(s, j);
    if HasTasks(s, j) { StartTaskFrame(s, j); }
    DrainFrame(c, s);
  }

  lemma CheckRunning(c: Limits, s: QueueState, j: string, ipcDir: Option<string>, now: int)
    ensures EnqueueMessageCheck(c, s, j, ipcDir, now).shuttingDown == s.shuttingDown
  {
    hide StartMessages;
    StartFrame(Put(s, j, AdoptIpcDir(Group(s, j), ipcDir)), j);
  }

  lemma EnqueueRunning(c: Limits, s: QueueState, j: string, id: string)
    ensures EnqueueTask(c, s, j, id).shuttingDown == s.shuttingDown
  {
    hide Known;
  }

  /** No lost wake-up, in every state of every history before shutdown: idle
      groups with tasks are listed; idle groups with messages are listed or have
      a retry timer; and work anywhere means a live run, an armed retry timer,
      or a recovery limit below one whose timer is armed. */
  lemma NoLostWakeUp(c: Limits, trace: seq<QueueState>, events: seq<Event>, i: nat, j: string)
    requires Execution(c, trace, events) && i < |trace| && !trace[i].shuttingDown
    ensures var s := trace[i];
            && (IsIdle(s, j) && HasTasks(s, j) ==> j in s.waiting)
            && (IsIdle(s, j) && HasMessages(s, j) ==> j in s.waiting || Group(s, j).retryTimer)
            && (HasTasks(s, j) || HasMessages(s, j) ==>
                  || s.liveMessages != multiset{} || s.liveTasks != multiset{}
                  || Group(s, j).retryTimer
                  || (c.recoveryAgents < 1 && s.recoveryMode && s.recoveryTimers > 0))
  {
    hide Next;
    AwakeThroughout(c, trace, events, i);
    var s := trace[i];
    assert InPhase(s, j, Group(s, j));
    if HasTasks(s, j) { assert IsIdle(s, j) ==> Pending(s, j, false); }
    hide Phases;
  }

  // ----- bounded drain -----

  /** What a group still has to run. */
  function Load(g: GroupRec): nat { |g.pendingTasks| + if g.pendingMessages then 1 else 0 }

  ghost function TotalLoad(groups: map<string, GroupRec>): nat
    decreases |groups|
  {
    if groups == map[] then 0
    else
      var j :| j in groups;
      Load(groups[j]) + TotalLoad(groups - {j})
  }

  /** Live runs, queued tasks and groups with messages, together. */
  ghost function Work(s: QueueState): int { s.activeCount + TotalLoad(s.groups) }

  lemma {:induction false} LoadOut(groups: map<string, GroupRec>, j: string)
    requires j in groups
    ensures TotalLoad(groups) == Load(groups[j]) + TotalLoad(groups - {j})
    decreases |groups|
  {
    var k :| k in groups && TotalLoad(groups) == Load(groups[k]) + TotalLoad(groups - {k});
    if k != j {
      LoadOut(groups - {k}, j);
      LoadOut(groups - {j}, k);
      assert groups - {k} - {j} == groups - {j} - {k};
    }
  }

  lemma LoadPut(groups: map<string, GroupRec>, j: string, g: GroupRec)
    ensures TotalLoad(groups[j := g])
            == TotalLoad(groups) + Load(g) - if j in groups then Load(groups[j]) else 0
  {
    LoadOut(groups[j := g], j);
    assert groups[j := g] - {j} == groups - {j};
    if j in groups { LoadOut(groups, j); } else { assert groups - {j} == groups; }
  }

  lemma StartMessagesWork(s: QueueState, j: string)
    requires HasMessages(s, j)
    ensures Work(StartMessages(s, j)) == Work(s)
  {
    LoadPut(s.groups, j, RunningMessagesRec(Group(s, j), s.issued));
  }

  lemma StartTaskWork(s: QueueState, j: string)
    requires HasTasks(s, j)
    ensures Work(StartQueuedTask(s, j)) == Work(s)
  {
    var g := Group(s, j);
    var popped := g.(pendingTasks := g.pendingTasks[1..]);
    LoadPut(s.groups, j, RunningTaskRec(popped, g.pendingTasks[0].id));
    assert s.groups[j := popped][j := RunningTaskRec(popped, g.pendingTasks[0].id)]
        == s.groups[j := RunningTaskRec(popped, g.pendingTasks[0].id)];
  }

  lemma {:induction false} DrainWork(c: Limits, s: QueueState)
    ensures Work(DrainWaiting(c, s)) == Work(s)
    decreases |s.waiting|
  {
    hide NextWaiting, StartMessages, StartQueuedTask;
    if s.waiting != [] && s.activeCount < EffectiveMax(c, s) {
      var n := NextWaiting(c, s);
      if n.Some? {
        var j := s.waiting[n.value];
        var s' := s.(waiting := Without(s.waiting, n.value));
        if HasMessages(s, j) { StartMessagesWork(s', j); } else { StartTaskWork(s', j); }
        DrainWork(c, Admit(c, s, n.value));
      }
    }
  }

  lemma DrainGroupWork(c: Limits, s: QueueState, j: string)
    ensures Work(DrainGroup(c, s, j)) == Work(s)
  {
    hide StartMessages, StartQueuedTask, DrainWaiting, Work;
    if HasTasks(s, j) { StartTaskWork(s, j); }
    if HasMessages(s, j) { StartMessagesWork(s, j); }
    DrainWork(c, s);
  }

  /** Every finish lowers the work by exactly one, whatever it starts. */
  lemma FinishLowersWork(c: Limits, s: QueueState, e: Event)
    requires Finishes(e) && Enabled(s, e)
    ensures Work(Next(c, s, e)) == Work(s) - 1
  {
    hide DrainGroup, RetryRec;
    match e
    case MessagesDone(run, success, now) =>
      RetryKeepsQueue(Group(s, run.jid), now);
      var s' := EndedMessages(s, run, success, now);
      LoadPut(s.groups, run.jid, Group(s', run.jid));
      DrainGroupWork(c, s', run.jid);
    case TaskDone(t, _) =>
      var s' := EndedTask(s, t);
      LoadPut(s.groups, t.jid, Group(s', t.jid));
      DrainGroupWork(c, s', t.jid);
  }

  /** Finishes only, from `s` on. */
  ghost predicate FinishRun(c: Limits, trace: seq<QueueState>, events: seq<Event>) {
    && |trace| == |events| + 1
    && forall i :: 0 <= i < |events| ==>
         Finishes(events[i]) && Enabled(trace[i], events[i]) && trace[i + 1] == Next(c, trace[i], events[i])
  }

  /** Nothing waits on a timer. */
  ghost predicate Timerless(c: Limits, s: QueueState) {
    && !s.shuttingDown && !Starved(c, s)
    && Sound(s) && Awake(c, s, true)
  }

  /** A state of a history with no retry timer armed qualifies. */
  lemma TimerlessState(c: Limits, trace: seq<QueueState>, events: seq<Event>, i: nat)
    requires Execution(c, trace, events) && i < |trace|
    requires !trace[i].shuttingDown && !Starved(c, trace[i])
    requires forall j :: !Group(trace[i], j).retryTimer
    ensures Timerless(c, trace[i])
  {
    hide Next;
    AwakeThroughout(c, trace, events, i);
    hide Sound;
    var s := trace[i];
    forall j | Pending(s, j, true) ensures Pending(s, j, false) {}
  }

  lemma TimerlessKept(c: Limits, s: QueueState, e: Event)
    requires c.Valid() && Timerless(c, s) && Finishes(e) && Enabled(s, e)
    ensures Timerless(c, Next(c, s, e))
  {
    hide Next, Awake, Phases, Counted;
    SoundKept(c, s, e);
    ShutdownStays(c, s, e);
    FinishAwake(c, s, e, true);
    FinishMode(c, s, e);
  }

  lemma FinishMode(c: Limits, s: QueueState, e: Event)
    requires Finishes(e) && Enabled(s, e)
    ensures Next(c, s, e).recoveryMode == s.recoveryMode
  {
    FinishIs(c, s, e);
    EndShape(s, e);
    hide Step, DrainGroup;
    DrainGroupCeiling(c, Step(s, Ending(e)), EndingGroup(e));
  }

  /** Bounded drain. From a state that waits on no timer, after `n` finishes the
      work is lower by `n`; and while any is left, some run is live to finish.
      So exactly `Work(s)` finishes empty the queue, in whatever order. */
  lemma {:induction false} BoundedDrain(c: Limits, trace: seq<QueueState>, events: seq<Event>)
    requires c.Valid() && FinishRun(c, trace, events) && Timerless(c, trace[0])
    ensures Timerless(c, trace[|events|])
    ensures Work(trace[|events|]) == Work(trace[0]) - |events|
    ensures Work(trace[|events|]) >= 0
    ensures Work(trace[|events|]) > 0 <==> exists e :: Finishes(e) && Enabled(trace[|events|], e)
    decreases |events|
  {
    hide Next, Work, Timerless;
    var n := |events|;
    if n > 0 {
      assert FinishRun(c, trace[..n], events[..n - 1]);
      BoundedDrain(c, trace[..n], events[..n - 1]);
      TimerlessKept(c, trace[n - 1], events[n - 1]);
      FinishLowersWork(c, trace[n - 1], events[n - 1]);
    }
    WorkNeedsRun(c, trace[n]);
  }

  lemma WorkNeedsRun(c: Limits, s: QueueState)
    requires c.Valid() && Timerless(c, s)
    ensures Work(s) >= 0
    ensures Work(s) > 0 <==> exists e :: Finishes(e) && Enabled(s, e)
  {
    if s.liveMessages != multiset{} {
      var m :| m in s.liveMessages;
      assert Enabled(s, MessagesDone(m, true, 0));
    } else if s.liveTasks != multiset{} {
      var t :| t in s.liveTasks;
      assert Enabled(s, TaskDone(t, 0));
    } else {
      forall j | j in s.groups ensures Load(s.groups[j]) == 0 {
        assert InPhase(s, j, Group(s, j));
        assert !Pending(s, j, true);
      }
      NoLoad(s.groups);
    }
  }

  lemma {:induction false} NoLoad(groups: map<string, GroupRec>)
    requires forall j :: j in groups ==> Load(groups[j]) == 0
    ensures TotalLoad(groups) == 0
    decreases |groups|
  {
    if groups != map[] {
      var j :| j in groups;
      LoadOut(groups, j);
      NoLoad(groups - {j});
    }
  }
}
