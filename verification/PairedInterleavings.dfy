/** Several processes reading the task row and writing it back, their steps in
    any order. Each write is decided on a row read earlier. */
module PairedInterleavings {
  import opened Common
  import opened PairedTaskStatus
  import opened PairedSignals
  import opened PairedHandlers

  datatype System = System(row: Row, snapshots: map<nat, Row>)

  /** `Writes` without a `next` is `applyPairedTaskPatch`. */
  datatype Step =
    | Reads(agent: nat)
    | Writes(agent: nat, next: Option<Status>, patch: Patch, stamp: int)

  predicate Enabled(s: System, e: Step) {
    e.Writes? ==> e.agent in s.snapshots
  }

  /** The write goes past the assertion and finds the revision it expects. */
  predicate Lands(s: System, e: Step)
    requires e.Writes? && e.agent in s.snapshots
  {
    && (e.next.Some? ==> CanMove(s.snapshots[e.agent].status, e.next.value))
    && s.row.updatedAt == s.snapshots[e.agent].updatedAt
  }

  function Written(s: System, e: Step): Row
    requires e.Writes?
  {
    Patched(s.row, e.patch.(status := e.next), e.stamp)
  }

  function Next(s: System, e: Step): System
    requires Enabled(s, e)
  {
    match e
    case Reads(a) => s.(snapshots := s.snapshots[a := s.row])
    case Writes(_, _, _, _) => if Lands(s, e) then s.(row := Written(s, e)) else s
  }

  ghost predicate Execution(trace: seq<System>, steps: seq<Step>) {
    && |trace| == |steps| + 1
    && trace[0].snapshots == map[]
    && forall i :: 0 <= i < |steps| ==> Enabled(trace[i], steps[i]) && trace[i + 1] == Next(trace[i], steps[i])
  }

  // ----- writes are decided on the row they replace -----

  /** A snapshot with the current stamp is the current row. */
  ghost predicate Faithful(s: System) {
    forall a :: a in s.snapshots && s.snapshots[a].updatedAt == s.row.updatedAt ==> s.snapshots[a] == s.row
  }

  /** No snapshot still held carries the new stamp, unless it is the row written. */
  ghost predicate Distinct(s: System, e: Step)
    requires e.Writes?
  {
    forall a :: a in s.snapshots && s.snapshots[a].updatedAt == e.stamp ==> s.snapshots[a] == Written(s, e)
  }

  /** Every write that lands is distinct. */
  ghost predicate DistinctStamps(trace: seq<System>, steps: seq<Step>)
    requires Execution(trace, steps)
  {
    forall i :: 0 <= i < |steps| && steps[i].Writes? && Lands(trace[i], steps[i]) ==> Distinct(trace[i], steps[i])
  }

  /** Faithfulness is kept by a landing write exactly when its stamp is distinct,
      and by every other step in any case. */
  lemma FaithfulKept(s: System, e: Step)
    requires Faithful(s) && Enabled(s, e)
    ensures Faithful(Next(s, e)) <==> (e.Writes? && Lands(s, e) ==> Distinct(s, e))
  {
  }

  lemma {:induction false} FaithfulThroughout(trace: seq<System>, steps: seq<Step>, i: nat)
    requires Execution(trace, steps) && DistinctStamps(trace, steps) && i < |trace|
    ensures Faithful(trace[i])
  {
    if i > 0 {
      FaithfulThroughout(trace, steps, i - 1);
      FaithfulKept(trace[i - 1], steps[i - 1]);
    }
  }

  /** A handler's write takes effect on exactly the row the handler looked at. */
  lemma WritesAreAtomic(trace: seq<System>, steps: seq<Step>, i: nat)
    requires Execution(trace, steps) && DistinctStamps(trace, steps) && i < |steps|
    requires steps[i].Writes? && Lands(trace[i], steps[i])
    ensures trace[i].snapshots[steps[i].agent] == trace[i].row
  {
    FaithfulThroughout(trace, steps, i);
  }

  /** A write decided on a snapshot changes nothing once the row has moved on to
      another revision, unless somebody has put the old stamp back since. */
  lemma {:induction false} OldSnapshotsLose(trace: seq<System>, steps: seq<Step>, i: nat, j: nat)
    requires Execution(trace, steps) && i <= j < |steps|
    requires steps[j].Writes? && steps[j].agent in trace[i].snapshots
    requires trace[j].snapshots[steps[j].agent] == trace[i].snapshots[steps[j].agent]
    requires trace[i].row.updatedAt != trace[i].snapshots[steps[j].agent].updatedAt
    requires forall k :: i <= k < j && steps[k].Writes? ==>
               steps[k].stamp != trace[i].snapshots[steps[j].agent].updatedAt
    ensures trace[j + 1].row == trace[j].row
  {
    StampLeaves(trace, steps, trace[i].snapshots[steps[j].agent].updatedAt, i, j);
    assert trace[j + 1] == Next(trace[j], steps[j]);
  }

  lemma {:induction false} StampLeaves(trace: seq<System>, steps: seq<Step>, stamp: int, i: nat, j: nat)
    requires Execution(trace, steps) && i <= j < |trace|
    requires trace[i].row.updatedAt != stamp
    requires forall k :: i <= k < j && steps[k].Writes? ==> steps[k].stamp != stamp
    ensures trace[j].row.updatedAt != stamp
    decreases j - i
  {
    if i < j {
      StampLeaves(trace, steps, stamp, i, j - 1);
      assert trace[j] == Next(trace[j - 1], steps[j - 1]);
    }
  }

  // ----- the status stays on its table under less -----

  /** Whatever can follow `a` can follow `b`. */
  ghost predicate Covers(b: Status, a: Status) {
    forall t: Status :: CanMove(a, t) ==> CanMove(b, t)
  }

  /** Who holds the current stamp may err about the row, not about its next status. */
  ghost predicate StatusKnown(s: System) {
    forall a :: a in s.snapshots && s.snapshots[a].updatedAt == s.row.updatedAt ==>
      Covers(s.row.status, s.snapshots[a].status)
  }

  /** A stamp given again covers those who hold it. */
  ghost predicate CoveredStamp(s: System, e: Step)
    requires e.Writes?
  {
    forall a :: a in s.snapshots && s.snapshots[a].updatedAt == e.stamp ==>
      Covers(Written(s, e).status, s.snapshots[a].status)
  }

  ghost predicate CoveredStamps(trace: seq<System>, steps: seq<Step>)
    requires Execution(trace, steps)
  {
    forall i :: 0 <= i < |steps| && steps[i].Writes? && Lands(trace[i], steps[i]) ==> CoveredStamp(trace[i], steps[i])
  }

  lemma StatusKnownKept(s: System, e: Step)
    requires StatusKnown(s) && Enabled(s, e)
    ensures StatusKnown(Next(s, e)) <==> (e.Writes? && Lands(s, e) ==> CoveredStamp(s, e))
    ensures CanMove(s.row.status, Next(s, e).row.status)
  {
  }

  /** The holders are right exactly as long as no next step can take the status off
      the table. */
  lemma StatusKnownExactly(s: System)
    ensures StatusKnown(s) <==> forall e :: Enabled(s, e) ==> CanMove(s.row.status, Next(s, e).row.status)
  {
    if StatusKnown(s) {
      forall e | Enabled(s, e)
        ensures CanMove(s.row.status, Next(s, e).row.status)
      {
        StatusKnownKept(s, e);
      }
    } else {
      var a :| a in s.snapshots && s.snapshots[a].updatedAt == s.row.updatedAt
               && !Covers(s.row.status, s.snapshots[a].status);
      var t: Status :| CanMove(s.snapshots[a].status, t) && !CanMove(s.row.status, t);
      var e := Writes(a, Some(t), NoPatch, 0);
      assert Enabled(s, e) && Next(s, e).row.status == t;
    }
  }

  /** So after any landing write whose stamp is not covered some next write leaves it. */
  lemma UncoveredLeaves(s: System, e: Step) returns (next: Step)
    requires Enabled(s, e) && e.Writes? && Lands(s, e) && !CoveredStamp(s, e)
    ensures Enabled(Next(s, e), next)
    ensures !CanMove(Next(s, e).row.status, Next(Next(s, e), next).row.status)
  {
    assert !StatusKnown(Next(s, e)) by {
      var a :| a in s.snapshots && s.snapshots[a].updatedAt == e.stamp
               && !Covers(Written(s, e).status, s.snapshots[a].status);
      assert Next(s, e).row.updatedAt == e.stamp && Next(s, e).snapshots == s.snapshots;
    }
    hide StatusKnown, CoveredStamp, Next;
    StatusKnownExactly(Next(s, e));
    next :| Enabled(Next(s, e), next) && !CanMove(Next(s, e).row.status, Next(Next(s, e), next).row.status);
  }

  lemma DistinctIsCovered(trace: seq<System>, steps: seq<Step>)
    requires Execution(trace, steps) && DistinctStamps(trace, steps)
    ensures CoveredStamps(trace, steps)
  {
  }

  lemma {:induction false} StatusKnownThroughout(trace: seq<System>, steps: seq<Step>, i: nat)
    requires Execution(trace, steps) && CoveredStamps(trace, steps) && i < |trace|
    ensures StatusKnown(trace[i])
  {
    if i > 0 {
      StatusKnownThroughout(trace, steps, i - 1);
      StatusKnownKept(trace[i - 1], steps[i - 1]);
    }
  }

  /** Every status change that reaches the row is an edge of the table. */
  lemma StatusStaysOnTable(trace: seq<System>, steps: seq<Step>, i: nat)
    requires Execution(trace, steps) && CoveredStamps(trace, steps) && i < |steps|
    ensures CanMove(trace[i].row.status, trace[i + 1].row.status)
  {
    StatusKnownThroughout(trace, steps, i);
    StatusKnownKept(trace[i], steps[i]);
  }

  /** A completed task stays completed. */
  lemma {:induction false} CompletedIsFinal(trace: seq<System>, steps: seq<Step>, i: nat, j: nat)
    requires Execution(trace, steps) && CoveredStamps(trace, steps) && i <= j < |trace|
    requires trace[i].row.status == Completed
    ensures trace[j].row.status == Completed
    decreases j - i
  {
    if i < j {
      CompletedIsFinal(trace, steps, i, j - 1);
      StatusStaysOnTable(trace, steps, j - 1);
    }
  }

  // ----- the stamps the owner's handler gives -----

  /** The handler stamps a row it has made active, then, with the same clock
      reading, the row it has handed to the reviewer: the status stays known. */
  lemma HandlerStampIsCovered()
    ensures Covers(ReviewReady, Active) && !Covers(Active, ReviewReady)
  {
    assert CanMove(ReviewReady, InReview) && !CanMove(Active, InReview);
  }

  /** The steps of an owner's handler that sends an approved task back to review,
      reading the row again before each write, with another process (2) reading
      after the first of its writes and resetting the counters, as for a human
      message, after the last. */
  function RestampSteps(cfg: Config, task: Row, r: OwnerReport, later: int): seq<Step> {
    var finalize, empty := NextFinalize(task, r.verdict), NextEmpty(task, r);
    var settled := NoPatch.(ownerFailures := Some(0), stepDoneStreak := Some(0),
                            finalizeStepDone := Some(finalize), emptyStreak := Some(empty));
    [Reads(1), Writes(1, Some(Active), settled, r.now), Reads(2),
     Reads(1), Writes(1, Some(ReviewReady), NoPatch, r.requestedAt),
     Reads(1), Writes(1, None, settled.(roundTrips := Some(task.roundTrips + 1)), r.now),
     Writes(2, None, NoPatch.(roundTrips := Some(0), ownerFailures := Some(0),
                              stepDoneStreak := Some(0), emptyStreak := Some(0)), later)]
  }

  /** The rows after each of its writes. */
  function MadeActive(task: Row, r: OwnerReport): Row {
    task.(status := Active, ownerFailures := 0, stepDoneStreak := 0, finalizeStepDone := NextFinalize(task, r.verdict),
          emptyStreak := NextEmpty(task, r), updatedAt := r.now)
  }

  function HandedOver(task: Row, r: OwnerReport): Row {
    MadeActive(task, r).(status := ReviewReady, updatedAt := r.requestedAt)
  }

  function Counted(task: Row, r: OwnerReport): Row {
    HandedOver(task, r).(roundTrips := task.roundTrips + 1, updatedAt := r.now)
  }

  function Overwritten(task: Row, r: OwnerReport, later: int): Row {
    Counted(task, r).(roundTrips := 0, ownerFailures := 0, stepDoneStreak := 0, emptyStreak := 0, updatedAt := later)
  }

  function RestampTrace(task: Row, r: OwnerReport, later: int): seq<System> {
    var active, handed, counted := MadeActive(task, r), HandedOver(task, r), Counted(task, r);
    [System(task, map[]), System(task, map[1 := task]), System(active, map[1 := task]),
     System(active, map[1 := task, 2 := active]), System(active, map[1 := active, 2 := active]),
     System(handed, map[1 := active, 2 := active]), System(handed, map[1 := handed, 2 := active]),
     System(counted, map[1 := handed, 2 := active]),
     System(Overwritten(task, r, later), map[1 := handed, 2 := active])]
  }

  lemma RestampExecutes(cfg: Config, task: Row, r: OwnerReport, later: int)
    requires task.status == MergeReady && task.updatedAt < r.now < r.requestedAt < later
    ensures Execution(RestampTrace(task, r, later), RestampSteps(cfg, task, r, later))
  {
    hide NextFinalize, NextEmpty;
    assert map[1 := task][2 := MadeActive(task, r)] == map[1 := task, 2 := MadeActive(task, r)];
  }

  /** With three distinct clock readings the handler still gives one stamp to two
      rows: it ends where it should, but the snapshot taken in between lands on
      a row it has never seen, and the round trip is forgotten under review. */
  lemma HandlerRestamps(cfg: Config, task: Row, r: OwnerReport, later: int)
    requires task.status == MergeReady && r.workspace && !cfg.AtLimit(task.roundTrips)
    requires FinalizeSignal(r.verdict, r.changed, task.roundTrips, cfg.deadlockThreshold) == RequestReviewer(true)
    requires NextEmpty(task, r) < EMPTY_STEP_DONE_THRESHOLD
    requires task.updatedAt < r.now < r.requestedAt < later
    ensures Execution(RestampTrace(task, r, later), RestampSteps(cfg, task, r, later))
    ensures var trace := RestampTrace(task, r, later);
            && trace[0].row == task && trace[7].row == OwnerCompleted(cfg, task, r).row
            && Faithful(trace[6]) && !Faithful(trace[7])
            && !DistinctStamps(trace, RestampSteps(cfg, task, r, later))
            && trace[7].snapshots[2] != trace[7].row
            && trace[8].row.roundTrips == 0 && trace[8].row.status == ReviewReady
  {
    RestampExecutes(cfg, task, r, later);
    var trace, steps := RestampTrace(task, r, later), RestampSteps(cfg, task, r, later);
    assert trace[7].row == OwnerCompleted(cfg, task, r).row;
    hide OwnerCompleted, NextFinalize, NextEmpty, Execution;
    assert trace[7].snapshots[2].updatedAt == r.now == trace[7].row.updatedAt;
    assert Lands(trace[6], steps[6]) && Written(trace[6], steps[6]) == trace[7].row;
    assert !Distinct(trace[6], steps[6]);
  }

  /** .. yet what it stamps twice is covered, so the status claims include it. */
  lemma HandlerStampsAreCovered(cfg: Config, task: Row, r: OwnerReport, later: int)
    requires task.status == MergeReady && task.updatedAt < r.now < r.requestedAt < later
    requires Execution(RestampTrace(task, r, later), RestampSteps(cfg, task, r, later))
    ensures CoveredStamps(RestampTrace(task, r, later), RestampSteps(cfg, task, r, later))
  {
    hide NextFinalize, NextEmpty, Execution;
    HandlerStampIsCovered();
  }

  // ----- unrelated writers -----

  const Reviewing := Row(InReview, None, 1, 0, 0, 0, 0, None, None, 5)

  /** Two processes writing in the same millisecond can do worse: the stamp is
      not covered, and a completed task is reopened. */
  lemma ReusedStampReopens() returns (trace: seq<System>, steps: seq<Step>)
    ensures Execution(trace, steps) && !CoveredStamps(trace, steps)
    ensures exists i :: 0 <= i < |steps| && trace[i].row.status == Completed && trace[i + 1].row.status == Active
  {
    steps := [Reads(1), Reads(2), Writes(2, Some(Completed), NoPatch, 5), Writes(1, Some(Active), NoPatch, 5)];
    var s0 := System(Reviewing, map[]);
    var s1 := Next(s0, steps[0]);
    var s2 := Next(s1, steps[1]);
    var s3 := Next(s2, steps[2]);
    trace := [s0, s1, s2, s3, Next(s3, steps[3])];
    assert trace[3].row.status == Completed && trace[4].row.status == Active;
    assert CanMove(InReview, Active) && !Covers(Completed, InReview);
    assert !CoveredStamp(trace[2], steps[2]);
  }
}
