/** What every history of the run scheduler keeps: the counters, the
    concurrency ceiling, the phases, and the tasks it was given. */
module GroupQueueSafety {
  import opened Common
  import opened GroupRunState
  import opened GroupQueueModel

  // ----- every event is a sequence of small steps -----

  datatype Small =
    | Quiet(jid: string, g: GroupRec)       // bookkeeping that leaves runs and tasks alone
    | Close(jid: string)
    | List(waiting: seq<string>)
    | BeginMessages(jid: string)
    | BeginTask(jid: string)
    | Accept(accepted: TaskRun, queued: bool)
    | EndMessages(run: MessageRun, success: bool, now: int)
    | EndTask(ended: TaskRun)
    | Recovery(on: bool, timers: nat)
    | Stop

  /** `g` may replace `old` in a `Quiet` step. */
  predicate Bookkeeping(was: GroupRec, g: GroupRec) {
    && g == was.(pendingMessages := g.pendingMessages, processName := g.processName, ipcDir := g.ipcDir,
                  retryTimer := g.retryTimer, retryScheduledAt := g.retryScheduledAt)
    && (was.pendingMessages ==> g.pendingMessages)
    && (|| (g.retryTimer == was.retryTimer && g.retryScheduledAt == was.retryScheduledAt)
        || (!g.retryTimer && g.retryScheduledAt.None?))
  }

  predicate Possible(s: QueueState, a: Small) {
    match a
    case Quiet(j, g) => Bookkeeping(Group(s, j), g)
    case BeginTask(j) => HasTasks(s, j)
    case Accept(t, _) => t.task.fn == s.issued && !Known(Group(s, t.jid), t.task.id)
    case EndMessages(run, _, _) => run in s.liveMessages
    case EndTask(t) => t in s.liveTasks
    case Recovery(on, timers) => on ==> timers > 0
    case _ => true
  }

  function Step(s: QueueState, a: Small): QueueState
    requires Possible(s, a)
  {
    match a
    case Quiet(j, g) => Put(s, j, g)
    case Close(j) => CloseStdin(s, j)
    case List(w) => s.(waiting := w)
    case BeginMessages(j) => StartMessages(s, j)
    case BeginTask(j) => StartQueuedTask(s, j)
    case Accept(t, queued) =>
      var g := Group(s, t.jid);
      var s' := s.(issued := s.issued + 1, accepted := s.accepted + {t});
      if queued then Put(s', t.jid, g.(pendingTasks := g.pendingTasks + [t.task]))
      else StartTask(Put(s', t.jid, g), t)
    case EndMessages(run, success, now) => EndedMessages(s, run, success, now)
    case EndTask(t) => EndedTask(s, t)
    case Recovery(on, timers) => s.(recoveryMode := on, recoveryTimers := timers)
    case Stop => Shutdown(s)
  }

  ghost predicate Closed(P: QueueState -> bool) {
    forall s, a :: P(s) && Possible(s, a) ==> P(Step(s, a))
  }

  /** Taking one small step inside a closed predicate. */
  lemma Take(s: QueueState, a: Small, P: QueueState -> bool)
    requires Closed(P) && P(s) && Possible(s, a)
    ensures P(Step(s, a))
  {
  }

  lemma {:induction false} DrainKeeps(c: Limits, s: QueueState, P: QueueState -> bool)
    requires Closed(P) && P(s)
    ensures P(DrainWaiting(c, s))
    decreases |s.waiting|
  {
    if s.waiting != [] && s.activeCount < EffectiveMax(c, s) {
      var n := NextWaiting(c, s);
      if n.Some? {
        AdmitKeeps(c, s, n.value, P);
        hide Admit, Closed, NextWaiting;
        DrainKeeps(c, Admit(c, s, n.value), P);
      }
    }
  }

  lemma AdmitKeeps(c: Limits, s: QueueState, i: nat, P: QueueState -> bool)
    requires Closed(P) && P(s)
    requires i < |s.waiting| && Startable(c, s, s.waiting[i])
    ensures P(Admit(c, s, i))
  {
    hide Closed, StartMessages, StartQueuedTask, Without;
    var j, w := s.waiting[i], Without(s.waiting, i);
    Take(s, List(w), P);
    var s' := Step(s, List(w));
    if HasMessages(s, j) { Take(s', BeginMessages(j), P); } else { Take(s', BeginTask(j), P); }
  }

  lemma DrainGroupKeeps(c: Limits, s: QueueState, j: string, P: QueueState -> bool)
    requires Closed(P) && P(s)
    ensures P(DrainGroup(c, s, j))
  {
    hide Closed, StartMessages, StartQueuedTask, DrainWaiting;
    if s.shuttingDown {
    } else if HasTasks(s, j) {
      Take(s, BeginTask(j), P);
    } else if HasMessages(s, j) {
      Take(s, BeginMessages(j), P);
    } else {
      DrainKeeps(c, s, P);
    }
  }

  lemma MessageCheckKeeps(c: Limits, s: QueueState, j: string, ipcDir: Option<string>, now: int, P: QueueState -> bool)
    requires Closed(P) && P(s)
    ensures P(EnqueueMessageCheck(c, s, j, ipcDir, now))
  {
    hide Closed, StartMessages;
    var g := AdoptIpcDir(Group(s, j), ipcDir);
    var marked := g.(pendingMessages := true);
    Take(s, Quiet(j, marked), P);
    var queued := Step(s, Quiet(j, marked));
    Take(queued, List(queued.waiting + [j]), P);
    Take(s, Quiet(j, g), P);
    Take(Step(s, Quiet(j, g)), BeginMessages(j), P);
  }

  lemma EnqueueTaskKeeps(c: Limits, s: QueueState, j: string, id: string, P: QueueState -> bool)
    requires Closed(P) && P(s)
    ensures P(EnqueueTask(c, s, j, id))
  {
    hide Closed, StartTask;
    var g := Group(s, j);
    if Known(g, id) {
      Take(s, Quiet(j, g), P);
    } else {
      var t := TaskRun(j, QueuedTask(id, s.issued));
      Take(s, Accept(t, true), P);
      Take(s, Accept(t, false), P);
      var queued := Step(s, Accept(t, true));
      Take(queued, List(queued.waiting + [j]), P);
    }
  }

  lemma FinishKeeps(c: Limits, s: QueueState, e: Event, P: QueueState -> bool)
    requires Closed(P) && P(s) && Enabled(s, e) && (e.MessagesDone? || e.TaskDone?)
    ensures P(Next(c, s, e))
  {
    hide Closed, EndedMessages, EndedTask, DrainGroup;
    match e
    case MessagesDone(run, success, now) =>
      Take(s, EndMessages(run, success, now), P);
      DrainGroupKeeps(c, EndedMessages(s, run, success, now), run.jid, P);
    case TaskDone(t, _) =>
      Take(s, EndTask(t), P);
      DrainGroupKeeps(c, EndedTask(s, t), t.jid, P);
  }

  /** What every small step keeps, every event keeps. */
  lemma NextKeeps(c: Limits, s: QueueState, e: Event, P: QueueState -> bool)
    requires Closed(P) && P(s) && Enabled(s, e)
    ensures P(Next(c, s, e))
  {
    if e.MessagesDone? || e.TaskDone? {
      FinishKeeps(c, s, e, P);
    } else {
      hide Closed, DrainWaiting, EnqueueMessageCheck, EnqueueTask, Shutdown, CloseStdin;
      match e
      case EnqueueMessagesEvent(j, ipcDir, now) => MessageCheckKeeps(c, s, j, ipcDir, now, P);
      case EnqueueTaskEvent(j, id) => EnqueueTaskKeeps(c, s, j, id, P);
      case RetryTimer(j, now) =>
        var g := Group(s, j).(retryTimer := false, retryScheduledAt := None);
        Take(s, Quiet(j, g), P);
        MessageCheckKeeps(c, Disarmed(s, j), j, None, now, P);
      case RecoveryStarts => Take(s, Recovery(true, s.recoveryTimers + 1), P);
      case RecoveryEnds(_) =>
        var a := Recovery(false, s.recoveryTimers - 1);
        Take(s, a, P);
        DrainKeeps(c, Step(s, a), P);
      case CloseStdinEvent(j) => Take(s, Close(j), P);
      case ProcessRegistered(j, name, ipcDir) =>
        var g := Group(s, j);
        Take(s, Quiet(j, g.(processName := Some(name), ipcDir := if ipcDir.Some? then ipcDir else g.ipcDir)), P);
      case ShutdownEvent => Take(s, Stop, P);
    }
  }

  // ----- whole histories -----

  /** What the initial state has and every small step keeps holds throughout. */
  lemma {:induction false} Always(c: Limits, trace: seq<QueueState>, events: seq<Event>, i: nat, P: QueueState -> bool)
    requires Execution(c, trace, events) && i < |trace|
    requires Closed(P) && P(Initial)
    ensures P(trace[i])
  {
    if i > 0 {
      Always(c, trace, events, i - 1, P);
      hide Closed, Next;
      NextKeeps(c, trace[i - 1], events[i - 1], P);
    }
  }

  // ----- the counters -----

  /** The two counters are the numbers of live runs and of live task runs. */
  predicate Counted(s: QueueState) {
    && s.activeCount == |s.liveMessages| + |s.liveTasks|
    && s.activeTaskCount == |s.liveTasks|
  }

  lemma Removed<T>(m: multiset<T>, x: T)
    requires x in m
    ensures |m - multiset{x}| == |m| - 1
  {
    assert m == (m - multiset{x}) + multiset{x};
  }

  lemma CountedClosed()
    ensures Closed(Counted)
  {
    forall s, a | Counted(s) && Possible(s, a) ensures Counted(Step(s, a)) {
      match a
      case EndMessages(run, _, _) => Removed(s.liveMessages, run);
      case EndTask(t) => Removed(s.liveTasks, t);
      case _ =>
    }
  }

  // ----- the phases -----

  /** A phase other than idle names a live run of its group. */
  predicate InPhase(s: QueueState, j: string, g: GroupRec) {
    match g.runPhase
    case Idle => g.currentRunId.None? && g.runningTaskId.None?
    case RunningTask =>
      g.runningTaskId.Some? && exists t :: t in s.liveTasks && t.jid == j && t.task.id == g.runningTaskId.value
    case _ => g.currentRunId.Some? && MessageRun(j, g.currentRunId.value) in s.liveMessages
  }

  /** A recorded backoff has its timer armed; retries stay within their limit. */
  predicate RetryOk(g: GroupRec) {
    (g.retryScheduledAt.Some? ==> g.retryTimer) && g.retryCount <= MAX_RETRIES
  }

  ghost predicate Phases(s: QueueState) {
    forall j :: InPhase(s, j, Group(s, j)) && RetryOk(Group(s, j))
  }

  lemma PhasesClosed()
    ensures Closed(Phases)
  {
    forall s, a | Phases(s) && Possible(s, a) ensures Phases(Step(s, a)) {
      PhasesStep(s, a);
    }
  }

  /** The record of group `j` after a small step. */
  function After(s: QueueState, a: Small, j: string): GroupRec
    requires Possible(s, a)
  {
    var g := Group(s, j);
    match a
    case Quiet(k, g') => if j == k then g' else g
    case Close(k) => if j == k then ClosedRec(g) else g
    case BeginMessages(k) => if j == k then RunningMessagesRec(g, s.issued) else g
    case BeginTask(k) =>
      if j == k then RunningTaskRec(g.(pendingTasks := g.pendingTasks[1..]), g.pendingTasks[0].id) else g
    case Accept(t, queued) =>
      if j != t.jid then g
      else if queued then g.(pendingTasks := g.pendingTasks + [t.task])
      else RunningTaskRec(g, t.task.id)
    case EndMessages(run, success, now) =>
      if j != run.jid then g
      else (if success then g.(retryCount := 0, retryScheduledAt := None) else RetryRec(g, now)).Reset()
    case EndTask(t) => if j == t.jid then g.Reset() else g
    case Stop => if j in s.groups then ShutdownRec(g) else g
    case _ => g
  }

  lemma BeginMessagesGroup(s: QueueState, k: string, j: string)
    ensures Group(StartMessages(s, k), j) == if j == k then RunningMessagesRec(Group(s, j), s.issued) else Group(s, j)
  {
  }

  lemma BeginTaskGroup(s: QueueState, run: TaskRun, j: string)
    ensures Group(StartTask(s, run), j) ==
            if j == run.jid then RunningTaskRec(Group(s, j), run.task.id) else Group(s, j)
  {
  }

  lemma AcceptGroup(s: QueueState, a: Small, j: string)
    requires Possible(s, a) && a.Accept?
    ensures Group(Step(s, a), j) == After(s, a, j)
  {
    hide StartMessages, StartQueuedTask, EndedMessages, EndedTask, Shutdown, CloseStdin;
  }

  lemma EndGroup(s: QueueState, a: Small, j: string)
    requires Possible(s, a) && (a.EndMessages? || a.EndTask?)
    ensures Group(Step(s, a), j) == After(s, a, j)
  {
    hide StartMessages, StartQueuedTask, StartTask, Shutdown, CloseStdin;
  }

  lemma GroupAfter(s: QueueState, a: Small, j: string)
    requires Possible(s, a)
    ensures Group(Step(s, a), j) == After(s, a, j)
  {
    if a.Accept? {
      AcceptGroup(s, a, j);
    } else if a.EndMessages? || a.EndTask? {
      EndGroup(s, a, j);
    } else {
      hide StartMessages, StartTask, EndedMessages, EndedTask;
      if a.BeginMessages? {
        BeginMessagesGroup(s, a.jid, j);
      } else if a.BeginTask? {
        var g := Group(s, a.jid);
        BeginTaskGroup(Put(s, a.jid, g.(pendingTasks := g.pendingTasks[1..])), TaskRun(a.jid, g.pendingTasks[0]), j);
      }
    }
  }

  /** Live runs after a small step. */
  lemma RunsAfter(s: QueueState, a: Small)
    requires Possible(s, a)
    ensures Step(s, a).liveMessages == match a
              case BeginMessages(j) => s.liveMessages + multiset{MessageRun(j, s.issued)}
              case EndMessages(run, _, _) => s.liveMessages - multiset{run}
              case _ => s.liveMessages
    ensures Step(s, a).liveTasks == match a
              case BeginTask(j) => s.liveTasks + multiset{TaskRun(j, Group(s, j).pendingTasks[0])}
              case Accept(t, false) => s.liveTasks + multiset{t}
              case EndTask(t) => s.liveTasks - multiset{t}
              case _ => s.liveTasks
    ensures Step(s, a).finished == match a
              case EndTask(t) => s.finished + multiset{t}
              case _ => s.finished
  {
  }

  lemma AcceptedAfter(s: QueueState, a: Small)
    requires Possible(s, a)
    ensures Step(s, a).accepted == if a.Accept? then s.accepted + {a.accepted} else s.accepted
  {
  }

  lemma IssuedAfter(s: QueueState, a: Small)
    requires Possible(s, a)
    ensures Step(s, a).issued == s.issued + if a.Accept? || a.BeginMessages? then 1 else 0
  {
  }

  lemma PhasesStep(s: QueueState, a: Small)
    requires Phases(s) && Possible(s, a)
    ensures Phases(Step(s, a))
  {
    hide Step, InPhase, RetryOk;
    forall j ensures InPhase(Step(s, a), j, Group(Step(s, a), j)) && RetryOk(Group(Step(s, a), j)) {
      assert InPhase(s, j, Group(s, j)) && RetryOk(Group(s, j));
      GroupAfter(s, a, j);
      RetryStep(s, a, j);
      PhaseStep(s, a, j);
      hide Possible, Group;
    }
  }

  lemma RetryStep(s: QueueState, a: Small, j: string)
    requires Possible(s, a) && RetryOk(Group(s, j))
    ensures RetryOk(After(s, a, j))
  {
  }

  lemma PhaseStep(s: QueueState, a: Small, j: string)
    requires Possible(s, a) && InPhase(s, j, Group(s, j))
    ensures InPhase(Step(s, a), j, After(s, a, j))
  {
    RunsAfter(s, a);
    hide Step, RetryRec;
    if a.EndMessages? || a.EndTask? { PhaseEnds(s, a, j, Step(s, a)); }
    else { PhaseGoesOn(s, a, j, Step(s, a)); }
    hide *;
  }

  lemma PhaseEnds(s: QueueState, a: Small, j: string, s': QueueState)
    requires Possible(s, a) && InPhase(s, j, Group(s, j)) && (a.EndMessages? || a.EndTask?)
    requires s'.liveMessages == if a.EndMessages? then s.liveMessages - multiset{a.run} else s.liveMessages
    requires s'.liveTasks == if a.EndTask? then s.liveTasks - multiset{a.ended} else s.liveTasks
    ensures InPhase(s', j, After(s, a, j))
  {
    hide RetryRec;
    assert forall t :: t in s.liveTasks && (a.EndTask? ==> t != a.ended) ==> t in s'.liveTasks;
  }

  lemma PhaseGoesOn(s: QueueState, a: Small, j: string, s': QueueState)
    requires Possible(s, a) && InPhase(s, j, Group(s, j)) && !a.EndMessages? && !a.EndTask?
    requires s.liveMessages <= s'.liveMessages && s.liveTasks <= s'.liveTasks
    requires a.BeginMessages? ==> MessageRun(a.jid, s.issued) in s'.liveMessages
    requires a.BeginTask? ==> TaskRun(a.jid, Group(s, a.jid).pendingTasks[0]) in s'.liveTasks
    requires a.Accept? && !a.queued ==> a.accepted in s'.liveTasks
    ensures InPhase(s', j, After(s, a, j))
  {
    assert forall t :: t in s.liveTasks ==> t in s'.liveTasks;
  }

  // ----- the tasks -----

  /** How often a task is queued, running or done. */
  function Places(s: QueueState, t: TaskRun): nat {
    multiset(Group(s, t.jid).pendingTasks)[t.task] + s.liveTasks[t] + s.finished[t]
  }

  /** Every accepted task is in exactly one place, and nothing else is in any. */
  ghost predicate Conserved(s: QueueState) {
    && (forall t :: Places(s, t) == if t in s.accepted then 1 else 0)
    && (forall t :: t in s.accepted ==> t.task.fn < s.issued)
  }

  lemma ConservedClosed()
    ensures Closed(Conserved)
  {
    forall s, a | Conserved(s) && Possible(s, a) ensures Conserved(Step(s, a)) {
      ConservedStep(s, a);
    }
  }

  lemma ConservedStep(s: QueueState, a: Small)
    requires Conserved(s) && Possible(s, a)
    ensures Conserved(Step(s, a))
  {
    hide Step, Places;
    var s' := Step(s, a);
    AcceptedAfter(s, a);
    IssuedAfter(s, a);
    forall t ensures Places(s', t) == if t in s'.accepted then 1 else 0 {
      assert Places(s, t) == if t in s.accepted then 1 else 0;
      PlacesAfter(s, a, t);
    }
  }

  /** A task moves, it is never copied or dropped; only acceptance adds one. */
  lemma PlacesAfter(s: QueueState, a: Small, t: TaskRun)
    requires Possible(s, a)
    ensures Places(Step(s, a), t) == Places(s, t) + if a.Accept? && a.accepted == t then 1 else 0
  {
    hide Step, ClosedRec, ShutdownRec, RetryRec;
    GroupAfter(s, a, t.jid);
    RunsAfter(s, a);
    QueueAfter(s, a, t.jid);
    hide After, Possible;
  }

  lemma QueueAfter(s: QueueState, a: Small, j: string)
    requires Possible(s, a)
    ensures var q, q' := multiset(Group(s, j).pendingTasks), multiset(After(s, a, j).pendingTasks);
            match a
            case BeginTask(k) => if j == k then q == q' + multiset{Group(s, j).pendingTasks[0]} else q' == q
            case Accept(t, true) => if j == t.jid then q' == q + multiset{t.task} else q' == q
            case _ => q' == q
  {
    if a.BeginTask? && j == a.jid {
      var q := Group(s, j).pendingTasks;
      assert q == [q[0]] + q[1..];
    }
  }

  ghost predicate DistinctIds(q: seq<QueuedTask>) {
    forall i, k :: 0 <= i < k < |q| ==> q[i].id != q[k].id
  }

  /** No queue holds two tasks with one id. */
  ghost predicate Distinct(s: QueueState) {
    forall j :: DistinctIds(Group(s, j).pendingTasks)
  }

  lemma DistinctClosed()
    ensures Closed(Distinct)
  {
    hide Step;
    forall s, a | Distinct(s) && Possible(s, a) ensures Distinct(Step(s, a)) {
      forall j ensures DistinctIds(Group(Step(s, a), j).pendingTasks) {
        assert DistinctIds(Group(s, j).pendingTasks);
        GroupAfter(s, a, j);
      }
    }
  }
}
