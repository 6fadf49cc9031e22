/** The row of a paired task, the table of its status changes, and the two
    ways of writing it, both a compare-and-swap on `updated_at`. */
module PairedTaskStatus {
  import opened Common

  datatype Status =
    Active | ReviewReady | InReview | MergeReady | Completed | ArbiterRequested | InArbitration

  /** A tree hash, or the literal text HEAD when no hash could be read. */
  datatype SourceRef = Head | Tree(hash: nat)

  datatype ArbiterVerdict = Proceed | Revise | Reset | Escalate | Unknown

  datatype CompletionReason = Done | Escalated | ArbiterEscalated | Superseded | Stopped

  /** The columns the protocol reads and writes. */
  datatype Row = Row(
    status: Status,
    sourceRef: Option<SourceRef>,
    roundTrips: nat,
    ownerFailures: nat,
    stepDoneStreak: nat,
    finalizeStepDone: nat,
    emptyStreak: nat,
    arbiterVerdict: Option<ArbiterVerdict>,
    completionReason: Option<CompletionReason>,
    updatedAt: int)

  /** Columns to set; the others keep their value. */
  datatype Patch = Patch(
    status: Option<Status>,
    sourceRef: Option<Option<SourceRef>>,
    roundTrips: Option<nat>,
    ownerFailures: Option<nat>,
    stepDoneStreak: Option<nat>,
    finalizeStepDone: Option<nat>,
    emptyStreak: Option<nat>,
    arbiterVerdict: Option<ArbiterVerdict>,
    completionReason: Option<CompletionReason>)

  const NoPatch := Patch(None, None, None, None, None, None, None, None, None)

  function Or<T>(o: Option<T>, other: T): T {
    match o
    case Some(x) => x
    case None => other
  }

  function Patched(row: Row, p: Patch, stamp: int): Row {
    Row(Or(p.status, row.status), Or(p.sourceRef, row.sourceRef), Or(p.roundTrips, row.roundTrips),
        Or(p.ownerFailures, row.ownerFailures), Or(p.stepDoneStreak, row.stepDoneStreak),
        Or(p.finalizeStepDone, row.finalizeStepDone), Or(p.emptyStreak, row.emptyStreak),
        if p.arbiterVerdict.Some? then p.arbiterVerdict else row.arbiterVerdict,
        if p.completionReason.Some? then p.completionReason else row.completionReason,
        stamp)
  }

  // ----- the table -----

  predicate Allowed(source: Status, target: Status) {
    match source
    case Active => target in {ReviewReady, ArbiterRequested, Completed}
    case ReviewReady => target in {Active, InReview, ArbiterRequested, Completed}
    case InReview => target in {Active, ReviewReady, MergeReady, ArbiterRequested, Completed}
    case MergeReady => target in {Active, ArbiterRequested, Completed}
    case Completed => false
    case ArbiterRequested => target in {InArbitration, Completed}
    case InArbitration => target in {Active, ArbiterRequested, Completed}
  }

  /** `assertPairedTaskStatusTransition` does not throw. */
  predicate CanMove(source: Status, target: Status) {
    source == target || Allowed(source, target)
  }

  /** Every task that is still open can be completed at once. */
  lemma AlwaysCompletable(s: Status)
    ensures Allowed(s, Completed) <==> s != Completed
  {
  }

  /** Where each status can be entered from. */
  lemma EnteredFrom(s: Status)
    ensures Allowed(s, Active) <==> s in {ReviewReady, InReview, MergeReady, InArbitration}
    ensures Allowed(s, ReviewReady) <==> s in {Active, InReview}
    ensures Allowed(s, InReview) <==> s == ReviewReady
    ensures Allowed(s, MergeReady) <==> s == InReview
    ensures Allowed(s, InArbitration) <==> s == ArbiterRequested
    ensures Allowed(s, ArbiterRequested) <==> s !in {ArbiterRequested, Completed}
  {
  }

  /** A way along the table. */
  ghost predicate Path(p: seq<Status>) {
    p != [] && forall i :: 0 < i < |p| ==> Allowed(p[i - 1], p[i])
  }

  function ToActive(source: Status): seq<Status> {
    match source
    case Active => [Active]
    case ArbiterRequested => [ArbiterRequested, InArbitration, Active]
    case _ => [source, Active]
  }

  /** Behind an active status. */
  function FromActive(target: Status): seq<Status> {
    match target
    case Active => []
    case InReview => [ReviewReady, InReview]
    case MergeReady => [ReviewReady, InReview, MergeReady]
    case InArbitration => [ArbiterRequested, InArbitration]
    case _ => [target]
  }

  lemma RouteIsPath(source: Status, target: Status)
    requires source != Completed
    ensures Path(ToActive(source) + FromActive(target))
  {
    var p := ToActive(source) + FromActive(target);
    forall i | 0 < i < |p|
      ensures Allowed(p[i - 1], p[i])
    {
      if i == |ToActive(source)| { assert p[i - 1] == Active && p[i] == FromActive(target)[0]; }
    }
  }

  /** Every status can be reached from every open one, and nothing from a
      completed one. */
  lemma TableConnects(source: Status, target: Status)
    ensures (exists p :: Path(p) && p[0] == source && p[|p| - 1] == target) <==> source == target || source != Completed
  {
    if source == target {
      assert Path([source]);
    } else if source != Completed {
      RouteIsPath(source, target);
      var p := ToActive(source) + FromActive(target);
      assert p[0] == source && p[|p| - 1] == target;
    } else if p :| Path(p) && p[0] == source && p[|p| - 1] == target {
      assert |p| > 1 ==> Allowed(p[0], p[1]);
    }
  }

  /** No way leads to an approved task but through a review: the last status
      before is in_review, which comes after review_ready. */
  lemma ApprovedThroughReview(p: seq<Status>)
    requires Path(p) && |p| > 1 && p[|p| - 1] == MergeReady
    ensures p[|p| - 2] == InReview && (|p| > 2 ==> p[|p| - 3] == ReviewReady)
  {
    assert Allowed(p[|p| - 2], p[|p| - 1]);
    assert |p| > 2 ==> Allowed(p[|p| - 3], p[|p| - 2]);
  }

  // ----- the row in the database -----

  /** How a status write ended: done, skipped as stale, or thrown out. */
  datatype Outcome = Updated | Stale | Invalid

  class PairedTaskStore {
    var row: Row

    constructor (row: Row)
      ensures this.row == row
    {
      this.row := row;
    }

    /** `UPDATE .. WHERE id = ? AND updated_at = ?` */
    method UpdateIfUnchanged(expectedUpdatedAt: int, patch: Patch, updatedAt: int) returns (updated: bool)
      modifies this
      ensures updated == (old(row).updatedAt == expectedUpdatedAt)
      ensures row == if updated then Patched(old(row), patch, updatedAt) else old(row)
    {
      updated := row.updatedAt == expectedUpdatedAt;
      if updated {
        row := Patched(row, patch, updatedAt);
      }
    }

    /** The check is made on the caller's idea of the current status. */
    method TransitionStatus(currentStatus: Status, nextStatus: Status, expectedUpdatedAt: int, updatedAt: int,
                            patch: Patch) returns (outcome: Outcome)
      modifies this
      ensures outcome.Invalid? <==> !CanMove(currentStatus, nextStatus)
      ensures outcome.Updated? <==> CanMove(currentStatus, nextStatus) && old(row).updatedAt == expectedUpdatedAt
      ensures row == if outcome.Updated? then Patched(old(row), patch.(status := Some(nextStatus)), updatedAt)
                     else old(row)
    {
      if !CanMove(currentStatus, nextStatus) { return Invalid; }
      var updated := UpdateIfUnchanged(expectedUpdatedAt, patch.(status := Some(nextStatus)), updatedAt);
      outcome := if updated then Updated else Stale;
    }

    method ApplyPatch(expectedUpdatedAt: int, updatedAt: int, patch: Patch) returns (updated: bool)
      modifies this
      ensures updated == (old(row).updatedAt == expectedUpdatedAt)
      ensures row == if updated then Patched(old(row), patch, updatedAt) else old(row)
    {
      updated := UpdateIfUnchanged(expectedUpdatedAt, patch, updatedAt);
    }

    /** Ask the arbiter, or the human when there is no arbiter. */
    method RequestArbiterOrEscalate(arbiterEnabled: bool, currentStatus: Status, expectedUpdatedAt: int,
                                    now: int, patch: Patch) returns (outcome: Outcome)
      modifies this
      ensures var target := if arbiterEnabled then ArbiterRequested else Completed;
              && (outcome.Invalid? <==> !CanMove(currentStatus, target))
              && (outcome.Updated? <==> CanMove(currentStatus, target) && old(row).updatedAt == expectedUpdatedAt)
      ensures !outcome.Updated? ==> row == old(row)
      ensures outcome.Updated? ==> row == Referred(arbiterEnabled, Patched(old(row), patch, now))
    {
      if arbiterEnabled {
        outcome := TransitionStatus(currentStatus, ArbiterRequested, expectedUpdatedAt, now, patch);
      } else {
        outcome := TransitionStatus(currentStatus, Completed, expectedUpdatedAt, now,
                                    patch.(completionReason := Some(Escalated)));
      }
    }
  }

  /** The task handed to the arbiter, or closed for the human to take over. */
  function Referred(arbiterEnabled: bool, row: Row): Row {
    if arbiterEnabled then row.(status := ArbiterRequested)
    else row.(status := Completed, completionReason := Some(Escalated))
  }
}
