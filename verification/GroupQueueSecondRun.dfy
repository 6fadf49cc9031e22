/** Which events give a group a second live run beside the one it has. */
module GroupQueueSecondRun {
  import opened Common
  import opened GroupRunState
  import opened GroupQueueModel
  import opened GroupQueueSafety
  import opened GroupQueueExclusion
  import opened GroupQueueProgress
  import opened GroupQueueBackoff

  ghost predicate TwoMessageRuns(s: QueueState, j: string) {
    exists m, m' :: m in s.liveMessages && m' in s.liveMessages && m.jid == m'.jid == j
                    && (m != m' || s.liveMessages[m] >= 2)
  }

  ghost predicate TwoTaskRuns(s: QueueState, j: string) {
    exists t, t' :: t in s.liveTasks && t' in s.liveTasks && t.jid == t'.jid == j && (t != t' || s.liveTasks[t] >= 2)
  }

  ghost predicate OneOfEach(s: QueueState, j: string) {
    exists m, t :: m in s.liveMessages && t in s.liveTasks && m.jid == t.jid == j
  }

  /** Two live runs of one group. */
  ghost predicate TwoRuns(s: QueueState, j: string) {
    TwoMessageRuns(s, j) || TwoTaskRuns(s, j) || OneOfEach(s, j)
  }

  ghost predicate Doubled(s: QueueState) {
    exists j :: TwoRuns(s, j)
  }

  lemma NotTwoMessages(s: QueueState, j: string)
    requires Single(s)
    ensures !TwoMessageRuns(s, j)
  {
    hide Phases, OneTask, OwnTask;
    forall m, m' | m in s.liveMessages && m' in s.liveMessages && m.jid == m'.jid == j
      ensures m == m' && s.liveMessages[m] == 1
    {
      assert OwnMessages(s, m) && OwnMessages(s, m');
    }
  }

  lemma NotTwoTasks(s: QueueState, j: string)
    requires Single(s)
    ensures !TwoTaskRuns(s, j)
  {
    hide Phases, OwnMessages;
  }

  lemma NotOneOfEach(s: QueueState, j: string)
    requires Single(s)
    ensures !OneOfEach(s, j)
  {
    hide Phases, OneTask;
    forall m, t | m in s.liveMessages && t in s.liveTasks
      ensures m.jid != t.jid
    {
      assert OwnMessages(s, m) && OwnTask(s, t);
    }
  }

  lemma SingleIsNotDoubled(s: QueueState)
    requires Single(s)
    ensures !Doubled(s)
  {
    hide Single, TwoMessageRuns, TwoTaskRuns, OneOfEach;
    forall j
      ensures !TwoRuns(s, j)
    {
      NotTwoMessages(s, j);
      NotTwoTasks(s, j);
      NotOneOfEach(s, j);
    }
  }

  lemma MoreRuns(s: QueueState, r: QueueState, j: string)
    requires TwoRuns(s, j) && s.liveMessages <= r.liveMessages && s.liveTasks <= r.liveTasks
    ensures Doubled(r)
  {
    assert TwoRuns(r, j);
  }

  /** Starting a busy group doubles it. */
  lemma BusyBegins(s: QueueState, a: Small, j: string)
    requires Phases(s) && Possible(s, a) && (a == BeginMessages(j) || a == BeginTask(j)) && !IsIdle(s, j)
    ensures TwoRuns(Step(s, a), j)
  {
    assert InPhase(s, j, Group(s, j));
    RunsAfter(s, a);
    hide Step, Phases;
    var r := Step(s, a);
    var g := Group(s, j);
    if g.runPhase == RunningTask {
      var t :| t in s.liveTasks && t.jid == j && t.task.id == g.runningTaskId.value;
      TaskBeside(s, r, a, t);
    } else {
      MessagesBeside(s, r, a, MessageRun(j, g.currentRunId.value));
    }
  }

  lemma MessagesBeside(s: QueueState, r: QueueState, a: Small, m: MessageRun)
    requires Possible(s, a) && (a == BeginMessages(m.jid) || a == BeginTask(m.jid)) && m in s.liveMessages
    requires r.liveMessages ==
             s.liveMessages + if a.BeginMessages? then multiset{MessageRun(m.jid, s.issued)} else multiset{}
    requires r.liveTasks ==
             s.liveTasks + if a.BeginTask? then multiset{TaskRun(m.jid, Group(s, m.jid).pendingTasks[0])}
                           else multiset{}
    ensures TwoRuns(r, m.jid)
  {
    if a.BeginMessages? {
      assert MessageRun(m.jid, s.issued) in r.liveMessages && m in r.liveMessages;
      assert m == MessageRun(m.jid, s.issued) ==> r.liveMessages[m] >= 2;
    } else {
      assert TaskRun(m.jid, Group(s, m.jid).pendingTasks[0]) in r.liveTasks;
    }
  }

  lemma TaskBeside(s: QueueState, r: QueueState, a: Small, t: TaskRun)
    requires Possible(s, a) && (a == BeginMessages(t.jid) || a == BeginTask(t.jid)) && t in s.liveTasks
    requires r.liveMessages ==
             s.liveMessages + if a.BeginMessages? then multiset{MessageRun(t.jid, s.issued)} else multiset{}
    requires r.liveTasks ==
             s.liveTasks + if a.BeginTask? then multiset{TaskRun(t.jid, Group(s, t.jid).pendingTasks[0])}
                           else multiset{}
    ensures TwoRuns(r, t.jid)
  {
    if a.BeginMessages? {
      assert MessageRun(t.jid, s.issued) in r.liveMessages;
    } else {
      var u := TaskRun(t.jid, Group(s, t.jid).pendingTasks[0]);
      assert u in r.liveTasks && t in r.liveTasks && (t == u ==> r.liveTasks[t] >= 2);
    }
  }

  // ----- which groups a drain takes off the list -----

  ghost function Names(w: seq<string>, i: int): set<string>
    requires 0 <= i <= |w|
  {
    set k | 0 <= k < i :: w[k]
  }

  /** The groups with tasks and no messages among the first `i` of the list. */
  ghost function TaskGroups(s: QueueState, i: int): set<string>
    requires 0 <= i <= |s.waiting|
  {
    set j | j in Names(s.waiting, i) && HasTasks(s, j) && !HasMessages(s, j)
  }

  /** The slots left for tasks when all groups with messages have taken theirs. */
  ghost function TaskSlots(c: Limits, s: QueueState): int {
    Min(EffectiveMax(c, s) - s.activeCount - |MessageGroups(s, |s.waiting|)|, c.MaxTasks() - s.activeTaskCount)
  }

  ghost predicate TaskReachedAt(c: Limits, s: QueueState, j: string, i: int) {
    0 <= i < |s.waiting| && s.waiting[i] == j && |TaskGroups(s, i)| < TaskSlots(c, s)
  }

  /** A drain gets as far as the tasks of `j`. */
  ghost predicate TaskReached(c: Limits, s: QueueState, j: string) {
    HasTasks(s, j) && !HasMessages(s, j) && exists i :: TaskReachedAt(c, s, j, i)
  }

  /** A drain starts `j`. */
  ghost predicate Taken(c: Limits, s: QueueState, j: string) {
    Reached(c, s, j) || TaskReached(c, s, j)
  }

  /** The drain has a next round, for the entry at `n`. */
  predicate GoesOn(c: Limits, s: QueueState, n: nat) {
    s.waiting != [] && s.activeCount < EffectiveMax(c, s) && NextWaiting(c, s) == Some(n)
  }

  lemma NoneTaken(c: Limits, s: QueueState, j: string)
    requires s.waiting == [] || s.activeCount >= EffectiveMax(c, s) || NextWaiting(c, s).None?
    ensures !Taken(c, s, j)
  {
    NotReached(c, s, j);
    hide Reached, HasMessages, HasTasks, NextWaiting;
  }

  lemma NextTaken(c: Limits, s: QueueState, n: nat)
    requires GoesOn(c, s, n)
    ensures n < |s.waiting| && Taken(c, s, s.waiting[n])
  {
    if HasMessages(s, s.waiting[n]) {
      ReachedFirst(c, s, n);
    } else {
      assert MessageGroups(s, |s.waiting|) == {};
      assert TaskGroups(s, n) == {};
      assert TaskReachedAt(c, s, s.waiting[n], n);
    }
  }

  lemma AdmitShape(c: Limits, s: QueueState, n: nat)
    requires n < |s.waiting| && Startable(c, s, s.waiting[n])
    ensures var j, r := s.waiting[n], Admit(c, s, n);
            && r.waiting == Without(s.waiting, n) && r.activeCount == s.activeCount + 1
            && r.activeTaskCount == s.activeTaskCount + (if HasMessages(s, j) then 0 else 1)
            && EffectiveMax(c, r) == EffectiveMax(c, s)
            && s.liveMessages <= r.liveMessages && s.liveTasks <= r.liveTasks
            && forall k :: k != j ==> Group(r, k) == Group(s, k)
  {
    hide StartMessages, StartQueuedTask, Without;
    var j, s' := s.waiting[n], s.(waiting := Without(s.waiting, n));
    if HasMessages(s, j) { StartFrame(s', j); } else { StartTaskFrame(s', j); }
  }

  lemma NamesWithout(w: seq<string>, n: nat, i: nat)
    requires n < |w| && NoDuplicates(w) && i <= |w|
    ensures n < i ==> Names(Without(w, n), i - 1) == Names(w, i) - {w[n]}
    ensures i <= n ==> Names(Without(w, n), i) == Names(w, i)
  {
    var v := Without(w, n);
    assert forall k :: 0 <= k < |v| ==> v[k] == w[if k < n then k else k + 1];
    if n < i {
      forall x | x in Names(w, i) && x != w[n]
        ensures x in Names(v, i - 1)
      {
        var k :| 0 <= k < i && w[k] == x;
        assert v[if k < n then k else k - 1] == x;
      }
    } else {
      assert forall k :: 0 <= k < i ==> v[k] == w[k];
    }
  }

  /** The place of another entry after the one at `n` has gone. */
  function Moved(i: int, n: int): int { if i > n then i - 1 else i }

  lemma TaskGroupsNext(c: Limits, s: QueueState, n: nat, i: nat)
    requires n < |s.waiting| && Startable(c, s, s.waiting[n]) && NoDuplicates(s.waiting)
    requires i < |s.waiting| && i != n
    ensures Moved(i, n) < |Admit(c, s, n).waiting|
    ensures TaskGroups(Admit(c, s, n), Moved(i, n)) == TaskGroups(s, i) - {s.waiting[n]}
  {
    var j, r := s.waiting[n], Admit(c, s, n);
    AdmitShape(c, s, n);
    NamesWithout(s.waiting, n, i);
    hide Admit, Without;
    assert j !in Names(r.waiting, Moved(i, n)) by { assert forall k :: 0 <= k < i && i <= n ==> s.waiting[k] != j; }
  }

  /** A next round for messages takes one slot and one message group away. */
  lemma SlotsAfterMessages(c: Limits, s: QueueState, n: nat)
    requires GoesOn(c, s, n) && HasMessages(s, s.waiting[n])
    ensures TaskSlots(c, Admit(c, s, n)) == TaskSlots(c, s)
  {
    var r := Admit(c, s, n);
    AdmitShape(c, s, n);
    AdmitMessages(c, s, n);
    hide Admit, Without, NextWaiting, HasMessages;
    OneLess(s, r, n, |s.waiting|);
  }

  lemma SlotsAfterTask(c: Limits, s: QueueState, n: nat)
    requires GoesOn(c, s, n) && !HasMessages(s, s.waiting[n])
    ensures TaskSlots(c, Admit(c, s, n)) == TaskSlots(c, s) - 1
  {
    var r := Admit(c, s, n);
    AdmitShape(c, s, n);
    AdmitTask(c, s, n);
    assert MessageGroups(s, |s.waiting|) == {};
    assert forall k :: 0 <= k < |r.waiting| ==> r.waiting[k] in s.waiting by { OneTakenOut(s.waiting, n); }
    assert MessageGroups(r, |r.waiting|) == {};
    hide Admit, Without, NextWaiting, HasMessages;
  }

  lemma TaskReachedNext(c: Limits, s: QueueState, n: nat, j: string)
    requires GoesOn(c, s, n) && NoDuplicates(s.waiting) && j != s.waiting[n]
    requires HasTasks(s, j) && !HasMessages(s, j)
    ensures TaskReached(c, Admit(c, s, n), j) <==> TaskReached(c, s, j)
  {
    var j0, r := s.waiting[n], Admit(c, s, n);
    AdmitShape(c, s, n);
    assert HasTasks(r, j) && !HasMessages(r, j);
    if HasMessages(s, j0) { SlotsAfterMessages(c, s, n); } else { SlotsAfterTask(c, s, n); }
    forall i: nat | i < |s.waiting| && s.waiting[i] == j
      ensures TaskReachedAt(c, s, j, i) <==> TaskReachedAt(c, r, j, Moved(i, n))
    {
      TaskGroupsNext(c, s, n, i);
      assert r.waiting[Moved(i, n)] == j;
      CountedOut(c, s, n, i);
    }
    hide TaskReachedAt;
    assert TaskReached(c, r, j) ==> TaskReached(c, s, j) by {
      if i :| TaskReachedAt(c, r, j, i) { var k := ComesFrom(c, s, n, j, i); }
    }
    if i :| TaskReachedAt(c, s, j, i) {
      InRange(c, s, j, i);
      assert TaskReachedAt(c, r, j, Moved(i, n));
    }
  }

  lemma InRange(c: Limits, s: QueueState, j: string, i: int)
    requires TaskReachedAt(c, s, j, i)
    ensures 0 <= i < |s.waiting| && s.waiting[i] == j
  {
  }

  lemma ComesFrom(c: Limits, s: QueueState, n: nat, j: string, i: int) returns (k: nat)
    requires n < |s.waiting| && Startable(c, s, s.waiting[n]) && TaskReachedAt(c, Admit(c, s, n), j, i)
    ensures k < |s.waiting| && s.waiting[k] == j && Moved(k, n) == i
  {
    k := if i < n then i else i + 1;
  }

  /** The entry at `n` counts among the task groups before `i` when it stands there. */
  lemma CountedOut(c: Limits, s: QueueState, n: nat, i: nat)
    requires GoesOn(c, s, n) && i < |s.waiting| && i != n && HasTasks(s, s.waiting[i]) && !HasMessages(s, s.waiting[i])
    ensures |TaskGroups(s, i) - {s.waiting[n]}| == |TaskGroups(s, i)| - if HasMessages(s, s.waiting[n]) then 0 else 1
  {
    var j := s.waiting[n];
    if HasMessages(s, j) {
      assert TaskGroups(s, i) - {j} == TaskGroups(s, i);
    } else {
      assert n < i;
      assert j in Names(s.waiting, i);
    }
  }

  /** A round takes its own entry and leaves the others as far away as they were. */
  lemma TakenNext(c: Limits, s: QueueState, n: nat, j: string)
    requires GoesOn(c, s, n) && NoDuplicates(s.waiting)
    ensures Taken(c, Admit(c, s, n), j) <==> Taken(c, s, j) && j != s.waiting[n]
  {
    var j0, r := s.waiting[n], Admit(c, s, n);
    AdmitShape(c, s, n);
    if j == j0 {
      OneTakenOut(s.waiting, n);
      NotListed(c, r, j);
    } else {
      if HasMessages(s, j0) {
        AdmitMessages(c, s, n);
        hide Admit, NextWaiting, HasMessages;
        ReachedNext(c, s, r, n, j);
      } else {
        AdmitTask(c, s, n);
        OneTakenOut(s.waiting, n);
        hide Admit, HasMessages;
        NotReached(c, s, j);
        NotReached(c, r, j);
      }
      if HasTasks(s, j) && !HasMessages(s, j) { TaskReachedNext(c, s, n, j); }
      assert HasTasks(r, j) == HasTasks(s, j) && HasMessages(r, j) == HasMessages(s, j);
    }
  }

  lemma NotListed(c: Limits, s: QueueState, j: string)
    requires j !in s.waiting
    ensures !Taken(c, s, j)
  {
  }

  /** Exactly those groups leave the list. */
  lemma {:induction false} DrainTakes(c: Limits, s: QueueState, j: string)
    requires NoDuplicates(s.waiting)
    ensures NoDuplicates(DrainWaiting(c, s).waiting)
    ensures Taken(c, s, j) <==> j in s.waiting && j !in DrainWaiting(c, s).waiting
    ensures forall k :: k in DrainWaiting(c, s).waiting ==> k in s.waiting
    decreases |s.waiting|
  {
    hide Admit, NextWaiting, Taken, NoDuplicates;
    if s.waiting == [] || s.activeCount >= EffectiveMax(c, s) || NextWaiting(c, s).None? {
      NoneTaken(c, s, j);
    } else {
      var n := NextWaiting(c, s).value;
      OneTakenOut(s.waiting, n);
      OthersStay(s.waiting, n);
      NextTaken(c, s, n);
      TakenNext(c, s, n, j);
      DrainTakes(c, Admit(c, s, n), j);
    }
  }

  lemma OthersStay(w: seq<string>, n: nat)
    requires n < |w|
    ensures forall k :: k in w && k != w[n] ==> k in Without(w, n)
  {
    forall k | k in w && k != w[n]
      ensures k in Without(w, n)
    {
      var i :| 0 <= i < |w| && w[i] == k;
      assert Without(w, n)[if i < n then i else i - 1] == k;
    }
  }

  // ----- drains -----

  /** A drain starts a listed group that is busy. */
  ghost predicate ReachesBusy(c: Limits, s: QueueState) {
    exists j :: Taken(c, s, j) && !IsIdle(s, j)
  }

  lemma AdmitSingle(c: Limits, s: QueueState, n: nat)
    requires Single(s) && n < |s.waiting| && Startable(c, s, s.waiting[n])
    ensures IsIdle(s, s.waiting[n]) ==> Single(Admit(c, s, n))
    ensures !IsIdle(s, s.waiting[n]) ==> TwoRuns(Admit(c, s, n), s.waiting[n])
  {
    var j, a := s.waiting[n], List(Without(s.waiting, n));
    var b := if HasMessages(s, j) then BeginMessages(j) else BeginTask(j);
    AdmitIsSteps(c, s, n);
    hide Single, Step, Admit, Group, Without, TwoRuns, HasMessages;
    SingleKept(s, a);
    if IsIdle(s, j) { SingleKept(Step(s, a), b); } else { InPhases(Step(s, a)); BusyBegins(Step(s, a), b, j); }
  }

  lemma InPhases(s: QueueState)
    requires Single(s)
    ensures Phases(s)
  {
  }

  lemma {:induction false} DrainGrows(c: Limits, s: QueueState)
    ensures s.liveMessages <= DrainWaiting(c, s).liveMessages && s.liveTasks <= DrainWaiting(c, s).liveTasks
    decreases |s.waiting|
  {
    hide Admit, NextWaiting;
    if s.waiting != [] && s.activeCount < EffectiveMax(c, s) && NextWaiting(c, s).Some? {
      AdmitShape(c, s, NextWaiting(c, s).value);
      DrainGrows(c, Admit(c, s, NextWaiting(c, s).value));
    }
  }

  lemma BusyNext(c: Limits, s: QueueState, n: nat)
    requires GoesOn(c, s, n) && NoDuplicates(s.waiting) && IsIdle(s, s.waiting[n])
    ensures ReachesBusy(c, Admit(c, s, n)) <==> ReachesBusy(c, s)
  {
    AdmitShape(c, s, n);
    forall j
      ensures Taken(c, Admit(c, s, n), j) && !IsIdle(Admit(c, s, n), j) <==> Taken(c, s, j) && !IsIdle(s, j)
    {
      TakenNext(c, s, n, j);
      hide Taken, Admit;
    }
    hide Taken, Admit, IsIdle;
  }

  lemma {:induction false} DrainSecondRun(c: Limits, s: QueueState)
    requires Single(s) && NoDuplicates(s.waiting)
    ensures Doubled(DrainWaiting(c, s)) <==> ReachesBusy(c, s)
    ensures !ReachesBusy(c, s) ==> Single(DrainWaiting(c, s))
    decreases |s.waiting|
  {
    hide Single, Admit, NextWaiting, Taken, NoDuplicates, Doubled, TwoRuns;
    if s.waiting == [] || s.activeCount >= EffectiveMax(c, s) || NextWaiting(c, s).None? {
      SingleIsNotDoubled(s);
      forall j ensures !Taken(c, s, j) { NoneTaken(c, s, j); }
    } else {
      var n := NextWaiting(c, s).value;
      var r := Admit(c, s, n);
      AdmitSingle(c, s, n);
      OneTakenOut(s.waiting, n);
      if IsIdle(s, s.waiting[n]) {
        BusyNext(c, s, n);
        hide ReachesBusy;
        DrainSecondRun(c, r);
      } else {
        NextTaken(c, s, n);
        DrainGrows(c, r);
        MoreRuns(r, DrainWaiting(c, r), s.waiting[n]);
      }
    }
  }

  // ----- events -----

  /** A finish without work of its own group drains into a busy one. */
  ghost predicate FinishesIntoBusy(c: Limits, s: QueueState, j: string) {
    !s.shuttingDown && !HasTasks(s, j) && !HasMessages(s, j) && ReachesBusy(c, s)
  }

  /** Told before the event. */
  ghost predicate GivesSecondRun(c: Limits, s: QueueState, e: Event)
    requires Enabled(s, e)
  {
    match e
    case MessagesDone(run, success, now) => FinishesIntoBusy(c, EndedMessages(s, run, success, now), run.jid)
    case TaskDone(t, _) => FinishesIntoBusy(c, EndedTask(s, t), t.jid)
    case RecoveryEnds(_) => ReachesBusy(c, s.(recoveryMode := false, recoveryTimers := s.recoveryTimers - 1))
    case _ => false
  }

  /** After a finish its own group is idle: own work doubles nothing. */
  lemma FinishSecondRun(c: Limits, s: QueueState, j: string)
    requires Single(s) && NoDuplicates(s.waiting) && IsIdle(s, j)
    ensures Doubled(DrainGroup(c, s, j)) <==> FinishesIntoBusy(c, s, j)
    ensures !FinishesIntoBusy(c, s, j) ==> Single(DrainGroup(c, s, j))
  {
    hide Single, StartMessages, StartQueuedTask, DrainWaiting, ReachesBusy, Doubled, NoDuplicates;
    if HasTasks(s, j) { SingleKept(s, BeginTask(j)); }
    if HasMessages(s, j) { SingleKept(s, BeginMessages(j)); }
    DrainSecondRun(c, s);
    if !FinishesIntoBusy(c, s, j) { SingleIsNotDoubled(DrainGroup(c, s, j)); }
  }

  lemma EndSecondRun(c: Limits, s: QueueState, e: Event)
    requires Single(s) && NoDuplicates(s.waiting) && Enabled(s, e) && (e.MessagesDone? || e.TaskDone?)
    ensures Doubled(Next(c, s, e)) <==> GivesSecondRun(c, s, e)
    ensures !GivesSecondRun(c, s, e) ==> Single(Next(c, s, e))
  {
    hide Single, EndedMessages, EndedTask, DrainGroup, Group, RetryRec, FinishesIntoBusy, Doubled, NoDuplicates;
    var a := if e.MessagesDone? then EndMessages(e.run, e.success, e.now) else EndTask(e.taskRun);
    var j := if e.MessagesDone? then e.run.jid else e.taskRun.jid;
    SingleKept(s, a);
    WaitingAfter(s, a);
    GroupAfter(s, a, j);
    FinishSecondRun(c, Step(s, a), j);
  }

  lemma MessageCheckSingle(c: Limits, s: QueueState, j: string, ipcDir: Option<string>, now: int)
    requires Single(s)
    ensures Single(EnqueueMessageCheck(c, s, j, ipcDir, now))
  {
    hide StartMessages, Single;
    var g := AdoptIpcDir(Group(s, j), ipcDir);
    var mark, adopt := Quiet(j, g.(pendingMessages := true)), Quiet(j, g);
    SingleKept(s, mark);
    SingleKept(s, adopt);
    SingleKept(Step(s, mark), List(s.waiting + [j]));
    if IsIdle(s, j) { SingleKept(Step(s, adopt), BeginMessages(j)); }
  }

  lemma EnqueueTaskSingle(c: Limits, s: QueueState, j: string, id: string)
    requires Single(s)
    ensures Single(EnqueueTask(c, s, j, id))
  {
    hide StartTask, Single, Known;
    var t := TaskRun(j, QueuedTask(id, s.issued));
    SingleKept(s, Quiet(j, Group(s, j)));
    if !Known(Group(s, j), id) {
      SingleKept(s, Accept(t, true));
      SingleKept(Step(s, Accept(t, true)), List(s.waiting + [j]));
      if IsIdle(s, j) { SingleKept(s, Accept(t, false)); }
    }
  }

  lemma OthersSingle(c: Limits, s: QueueState, e: Event)
    requires Single(s) && Enabled(s, e) && !e.MessagesDone? && !e.TaskDone? && !e.RecoveryEnds?
    ensures Single(Next(c, s, e))
  {
    hide Single, EnqueueMessageCheck, EnqueueTask, Shutdown, CloseStdin;
    match e
    case EnqueueMessagesEvent(j, ipcDir, now) => MessageCheckSingle(c, s, j, ipcDir, now);
    case EnqueueTaskEvent(j, id) => EnqueueTaskSingle(c, s, j, id);
    case RetryTimer(j, now) =>
      SingleKept(s, Quiet(j, Group(s, j).(retryTimer := false, retryScheduledAt := None)));
      MessageCheckSingle(c, Disarmed(s, j), j, None, now);
    case RecoveryStarts => SingleKept(s, Recovery(true, s.recoveryTimers + 1));
    case CloseStdinEvent(j) => SingleKept(s, Close(j));
    case ProcessRegistered(j, name, ipcDir) =>
      var g := Group(s, j);
      SingleKept(s, Quiet(j, g.(processName := Some(name), ipcDir := if ipcDir.Some? then ipcDir else g.ipcDir)));
    case ShutdownEvent => SingleKept(s, Stop);
  }

  /** An event gives a group a second live run if and only if it drains and the
      drain comes upon a listed group that is busy. */
  lemma SecondRunCondition(c: Limits, s: QueueState, e: Event)
    requires Single(s) && NoDuplicates(s.waiting) && Enabled(s, e)
    ensures Doubled(Next(c, s, e)) <==> GivesSecondRun(c, s, e)
    ensures !GivesSecondRun(c, s, e) ==> Single(Next(c, s, e))
  {
    hide Single, Doubled, NoDuplicates, ReachesBusy, FinishesIntoBusy;
    if e.MessagesDone? || e.TaskDone? {
      hide Next, GivesSecondRun;
      EndSecondRun(c, s, e);
    } else if e.RecoveryEnds? {
      var s' := s.(recoveryMode := false, recoveryTimers := s.recoveryTimers - 1);
      hide DrainWaiting;
      SingleKept(s, Recovery(false, s.recoveryTimers - 1));
      DrainSecondRun(c, s');
    } else {
      OthersSingle(c, s, e);
      hide Next;
      SingleIsNotDoubled(Next(c, s, e));
    }
  }

  // ----- histories -----

  lemma WaitingOnce(s: QueueState, j: string)
    requires NoDuplicates(s.waiting)
    ensures NoDuplicates(Waiting(s, j).waiting)
  {
  }

  lemma DrainListedOnce(c: Limits, s: QueueState)
    requires NoDuplicates(s.waiting)
    ensures NoDuplicates(DrainWaiting(c, s).waiting)
  {
    DrainTakes(c, s, "");
  }

  /** The list never holds a group twice. */
  lemma ListedOnce(c: Limits, s: QueueState, e: Event)
    requires NoDuplicates(s.waiting) && Enabled(s, e)
    ensures NoDuplicates(Next(c, s, e).waiting)
  {
    hide NoDuplicates, DrainWaiting;
    match e
    case EnqueueMessagesEvent(j, ipcDir, now) =>
      WaitingOnce(s, j);
      WaitingIsField(s, Put(s, j, AdoptIpcDir(Group(s, j), ipcDir).(pendingMessages := true)), j);
    case EnqueueTaskEvent(j, id) => EnqueueTaskListedOnce(c, s, j, id);
    case MessagesDone(run, success, now) => DrainListedOnce(c, EndedMessages(s, run, success, now));
    case TaskDone(t, _) => DrainListedOnce(c, EndedTask(s, t));
    case RetryTimer(j, now) =>
      var d := Disarmed(s, j);
      WaitingOnce(s, j);
      WaitingIsField(s, Put(d, j, AdoptIpcDir(Group(d, j), None).(pendingMessages := true)), j);
    case RecoveryEnds(_) => DrainListedOnce(c, s.(recoveryMode := false, recoveryTimers := s.recoveryTimers - 1));
    case _ =>
  }

  lemma WaitingIsField(s: QueueState, r: QueueState, j: string)
    requires r.waiting == s.waiting
    ensures Waiting(r, j).waiting == Waiting(s, j).waiting
  {
  }

  lemma EnqueueTaskListedOnce(c: Limits, s: QueueState, j: string, id: string)
    requires NoDuplicates(s.waiting)
    ensures NoDuplicates(EnqueueTask(c, s, j, id).waiting)
  {
    hide NoDuplicates, Known;
    WaitingOnce(s, j);
    assert EnqueueTask(c, s, j, id).waiting == s.waiting || EnqueueTask(c, s, j, id).waiting == Waiting(s, j).waiting;
  }

  lemma {:induction false} ListedOnceThroughout(c: Limits, trace: seq<QueueState>, events: seq<Event>, i: nat)
    requires Execution(c, trace, events) && i < |trace|
    ensures NoDuplicates(trace[i].waiting)
  {
    hide NoDuplicates, Next;
    if i == 0 {
      EmptyOnce();
    } else {
      ListedOnceThroughout(c, trace, events, i - 1);
      ListedOnce(c, trace[i - 1], events[i - 1]);
    }
  }

  lemma EmptyOnce()
    ensures NoDuplicates([])
  {
  }

  /** No event so far drained into a busy group. */
  ghost predicate NoSecondRun(c: Limits, trace: seq<QueueState>, events: seq<Event>, i: nat)
    requires Execution(c, trace, events) && i <= |events|
  {
    forall k :: 0 <= k < i ==> !GivesSecondRun(c, trace[k], events[k])
  }

  lemma {:induction false} SingleThroughout(c: Limits, trace: seq<QueueState>, events: seq<Event>, i: nat)
    requires Execution(c, trace, events) && i < |trace| && NoSecondRun(c, trace, events, i)
    ensures Single(trace[i])
  {
    hide Single, GivesSecondRun, Next, Doubled;
    if i == 0 {
      InitiallySingle();
    } else {
      SingleThroughout(c, trace, events, i - 1);
      ListedOnceThroughout(c, trace, events, i - 1);
      SecondRunCondition(c, trace[i - 1], events[i - 1]);
    }
  }

  lemma InitiallySingle()
    ensures Single(Initial)
  {
    ExclusiveInitially();
  }

  /** In every history: a group has never had two live runs if and only if no event
      has drained into a busy group. */
  lemma {:induction false} NeverDoubled(c: Limits, trace: seq<QueueState>, events: seq<Event>, i: nat)
    requires Execution(c, trace, events) && i < |trace|
    ensures (forall k :: 0 <= k <= i ==> !Doubled(trace[k])) <==> NoSecondRun(c, trace, events, i)
  {
    hide Single, GivesSecondRun, Next, Doubled;
    if i == 0 {
      InitiallySingle();
      SingleIsNotDoubled(Initial);
    } else {
      NeverDoubled(c, trace, events, i - 1);
      assert (forall k :: 0 <= k <= i ==> !Doubled(trace[k])) <==>
             (forall k :: 0 <= k <= i - 1 ==> !Doubled(trace[k])) && !Doubled(trace[i]);
      assert NoSecondRun(c, trace, events, i) <==>
             NoSecondRun(c, trace, events, i - 1) && !GivesSecondRun(c, trace[i - 1], events[i - 1]);
      if NoSecondRun(c, trace, events, i - 1) {
        SingleThroughout(c, trace, events, i - 1);
        ListedOnceThroughout(c, trace, events, i - 1);
        SecondRunCondition(c, trace[i - 1], events[i - 1]);
      }
    }
  }
}
