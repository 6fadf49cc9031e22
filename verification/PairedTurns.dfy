/** One turn of a paired room: who is next, what preparing the run does to the
    task, and what its end does. */
module PairedTurns {
  import opened Common
  import opened PairedTaskStatus
  import opened PairedSignals
  import opened PairedHandlers

  datatype Role = Owner | Reviewer | Arbiter

  /** The latest task of a chat, the role that spoke last on it, and the tasks
      before it as they were left. */
  datatype Room = Room(task: Option<Row>, lastRole: Option<Role>, past: seq<Row>)
  {
    predicate Open() { task.Some? && task.value.status != Completed }
  }

  // ----- who is next -----

  datatype Action = NoTurn | ReviewerTurn | ArbiterTurn | OwnerFollowUp | FinalizeOwnerTurn

  /** A role does not follow itself, and an active task waits unless reviewer or
      arbiter spoke last. */
  function NextAction(status: Status, last: Option<Role>): Action {
    match status
    case ReviewReady | InReview => if last == Some(Reviewer) then NoTurn else ReviewerTurn
    case ArbiterRequested | InArbitration => if last == Some(Arbiter) then NoTurn else ArbiterTurn
    case MergeReady => if last == Some(Owner) then NoTurn else FinalizeOwnerTurn
    case Active => if last == Some(Reviewer) || last == Some(Arbiter) then OwnerFollowUp else NoTurn
    case Completed => NoTurn
  }

  /** Whose turn that starts. */
  function NextRole(status: Status, last: Option<Role>): Option<Role> {
    match NextAction(status, last)
    case NoTurn => None
    case ReviewerTurn => Some(Reviewer)
    case ArbiterTurn => Some(Arbiter)
    case OwnerFollowUp | FinalizeOwnerTurn => Some(Owner)
  }

  function ActiveRole(status: Status): Role {
    match status
    case ReviewReady | InReview => Reviewer
    case ArbiterRequested | InArbitration => Arbiter
    case _ => Owner
  }

  /** A human goes to the owner unless the arbiter is in charge. */
  function HumanRole(room: Room): Role {
    if !room.Open() then Owner
    else
      var status := room.task.value.status;
      if status == ReviewReady || status == InReview then Owner else ActiveRole(status)
  }

  // ----- git -----

  /** `resolveCanonicalSourceRef` */
  function CurrentRef(head: nat, readable: bool): SourceRef {
    if readable then Tree(head) else Head
  }

  /** `git diff --quiet ref HEAD`: comparing HEAD with itself finds nothing. */
  function Changed(ref: Option<SourceRef>, head: nat, readable: bool): Option<bool> {
    if ref.None? || !readable then None
    else match ref.value
      case Head => Some(false)
      case Tree(t) => Some(t != head)
  }

  // ----- preparing a run -----

  /** `provisioned`: the owner worktree is in order. `reviewable`: it is on record.
      `canonicalRef`, `workspaceRef`: what HEAD of the project and of the worktree is. */
  datatype Surroundings = Surroundings(
    provisioned: bool, reviewable: bool, canonicalRef: SourceRef, workspaceRef: SourceRef,
    carriesForward: bool, createdAt: int, now: int)

  function NewTask(w: Surroundings): Row {
    Row(Active, Some(w.canonicalRef), 0, 0, 0, 0, 0, None, None, w.createdAt)
  }

  predicate UnderReview(s: Status) { s == ReviewReady || s == InReview }

  /** The owner's task at the start of its run. The second write expects the
      revision from before the first. */
  function OwnerPrepared(row: Row, human: bool, w: Surroundings): Row {
    var counters := if human then row.(roundTrips := 0, ownerFailures := 0, stepDoneStreak := 0, emptyStreak := 0)
                    else row;
    var called := if UnderReview(row.status) then counters.(status := Active, updatedAt := w.now)
                  else if human then counters.(updatedAt := w.now) else row;
    if w.provisioned && row.status == Active && Some(w.workspaceRef) != row.sourceRef
       && called.updatedAt == row.updatedAt
    then called.(sourceRef := Some(w.workspaceRef), updatedAt := w.now)
    else called
  }

  function ReviewPrepared(row: Row, w: Surroundings): Row {
    if w.reviewable && row.status == ReviewReady then row.(status := InReview, updatedAt := w.now) else row
  }

  function ArbiterPrepared(row: Row, w: Surroundings): Row {
    if w.reviewable && row.status == ArbiterRequested then row.(status := InArbitration, updatedAt := w.now) else row
  }

  /** `ensureActiveTask`: a human replaces a task that waits to be finalized,
      and starts one when there is none. */
  function Ensured(room: Room, role: Role, human: bool, w: Surroundings): Room {
    if !human then room
    else if !room.Open() then
      Room(Some(NewTask(w)), None, if room.task.Some? then room.past + [room.task.value] else room.past)
    else if role == Owner && room.task.value.status == MergeReady then
      Room(Some(NewTask(w)), if w.carriesForward then Some(Owner) else None,
           room.past + [room.task.value.(status := Completed, completionReason := Some(Superseded),
                                               updatedAt := w.now)])
    else room
  }

  /** No result when there is no task to run on. */
  function Prepared(room: Room, role: Role, human: bool, w: Surroundings): Option<Room> {
    var ensured := Ensured(room, role, human, w);
    if !ensured.Open() then None
    else
      var row := ensured.task.value;
      Some(ensured.(task := Some(match role
        case Owner => OwnerPrepared(row, human, w)
        case Reviewer => ReviewPrepared(row, w)
        case Arbiter => ArbiterPrepared(row, w))))
  }

  /** The run ends before it starts, with a message saying why. */
  predicate IsBlocked(role: Role, w: Surroundings) {
    if role == Owner then !w.provisioned else !w.reviewable
  }

  // ----- the end of a run -----

  /** `verdict` and `judgement` are read from the same text, if there is one.
      `recorded`: the turn left an output under its role. */
  datatype RunEnd = RunEnd(
    succeeded: bool, recorded: bool, hasText: bool, verdict: Verdict, judgement: ArbiterVerdict,
    repairNeeded: bool, workspace: bool, head: nat, readable: bool, now: int, requestedAt: int)

  function Report(row: Row, e: RunEnd): OwnerReport {
    OwnerReport(e.verdict, if e.workspace then Changed(row.sourceRef, e.head, e.readable) else None,
                e.workspace, e.now, e.requestedAt)
  }

  function ApprovedRef(row: Row, e: RunEnd): Option<SourceRef> {
    if e.workspace then Some(CurrentRef(e.head, e.readable)) else row.sourceRef
  }

  function Finished(cfg: Config, row: Row, role: Role, e: RunEnd): Effect {
    if row.status == Completed then Effect(row, false)
    else match role
      case Owner =>
        if e.succeeded && !e.repairNeeded then OwnerCompleted(cfg, row, Report(row, e))
        else FailedOwner(cfg, row, e.now)
      case Reviewer =>
        if e.succeeded then ReviewerCompleted(cfg, row, e.verdict, ApprovedRef(row, e), e.now)
        else FailedReviewer(row, if e.hasText then Some(e.verdict) else None, ApprovedRef(row, e), e.now)
      case Arbiter =>
        Effect(if e.succeeded then ArbiterCompleted(cfg, row, e.judgement, e.now) else FailedArbiter(row, e.now), false)
  }

  /** How a blocked run ends; its message carries no verdict. */
  function BlockedEnd(e: RunEnd): RunEnd {
    e.(succeeded := false, recorded := false, hasText := true, verdict := Continue)
  }

  datatype Turn = Turn(human: bool, role: Role, w: Surroundings, end: RunEnd)

  function EndOf(t: Turn): RunEnd {
    if IsBlocked(t.role, t.w) then BlockedEnd(t.end) else t.end
  }

  /** A whole turn. */
  function AfterTurn(cfg: Config, room: Room, t: Turn): (Room, bool) {
    match Prepared(room, t.role, t.human, t.w)
    case None => (Ensured(room, t.role, t.human, t.w), false)
    case Some(prepared) =>
      var effect := Finished(cfg, prepared.task.value, t.role, EndOf(t));
      (prepared.(task := Some(effect.row), lastRole := if EndOf(t).recorded then Some(t.role) else prepared.lastRole),
       effect.raised)
  }

  /** `/stop` completes the open task. */
  function AfterStop(room: Room, now: int): Room {
    if room.Open()
    then room.(task := Some(room.task.value.(status := Completed, completionReason := Some(Stopped), updatedAt := now)))
    else room
  }

  // ----- the same as writes to the database -----

  method Complete(store: PairedTaskStore, cfg: Config, role: Role, e: RunEnd) returns (raised: bool)
    modifies store
    ensures Effect(store.row, raised) == Finished(cfg, old(store.row), role, e)
  {
    hide OwnerCompleted, FailedOwner, ReviewerCompleted, FailedReviewer, ArbiterCompleted, FailedArbiter;
    var task := store.row;
    if task.status == Completed { return false; }
    if role == Owner {
      if e.succeeded && !e.repairNeeded {
        raised := HandleOwnerCompletion(store, cfg, task, Report(task, e));
      } else {
        raised := HandleFailedOwnerExecution(store, cfg, task, e.now);
      }
    } else if role == Reviewer {
      if e.succeeded {
        raised := HandleReviewerCompletion(store, cfg, task, e.verdict, ApprovedRef(task, e), e.now);
      } else {
        raised := HandleFailedReviewerExecution(store, task, if e.hasText then Some(e.verdict) else None,
                                                ApprovedRef(task, e), e.now);
      }
    } else if e.succeeded {
      raised := HandleArbiterCompletion(store, cfg, task, e.judgement, e.now);
    } else {
      raised := HandleFailedArbiterExecution(store, task, e.now);
    }
  }

  class PairedRoom {
    var task: PairedTaskStore?
    var lastRole: Option<Role>
    var past: seq<Row>

    ghost function View(): Room
      reads this, task
    {
      Room(if task == null then None else Some(task.row), lastRole, past)
    }

    constructor ()
      ensures View() == Room(None, None, [])
    {
      task, lastRole, past := null, None, [];
    }

    method CreateActiveTask(w: Surroundings, carried: Option<Role>)
      modifies this
      ensures fresh(task) && task.row == NewTask(w) && lastRole == carried
      ensures past == if old(task) == null then old(past) else old(past) + [old(task.row)]
    {
      if task != null {
        past := past + [task.row];
      }
      task := new PairedTaskStore(NewTask(w));
      lastRole := carried;
    }

    method EnsureActiveTask(role: Role, human: bool, w: Surroundings)
      modifies this, task
      ensures View() == Ensured(old(View()), role, human, w)
      ensures old(View()).Open() && View().Open() && task != old(task) ==> fresh(task)
      ensures task == old(task) || fresh(task)
    {
      if !human { return; }
      if task == null || task.row.status == Completed {
        CreateActiveTask(w, None);
        return;
      }
      var existing := task.row;
      if role != Owner || existing.status != MergeReady { return; }
      var superseded := task.TransitionStatus(existing.status, Completed, existing.updatedAt, w.now,
                          NoPatch.(completionReason := Some(Superseded)));
      CreateActiveTask(w, if w.carriesForward then Some(Owner) else None);
    }

    method PrepareOwner(human: bool, w: Surroundings)
      requires task != null && task.row.status != Completed
      modifies task
      ensures task.row == OwnerPrepared(old(task.row), human, w)
    {
      var latestTask := task.row;
      var reset := if human then NoPatch.(roundTrips := Some(0), ownerFailures := Some(0),
                                          stepDoneStreak := Some(0), emptyStreak := Some(0)) else NoPatch;
      if UnderReview(latestTask.status) {
        var _ := task.TransitionStatus(latestTask.status, Active, latestTask.updatedAt, w.now, reset);
      } else if human {
        var _ := task.ApplyPatch(latestTask.updatedAt, w.now, reset);
      }
      if w.provisioned && latestTask.status == Active && Some(w.workspaceRef) != latestTask.sourceRef {
        var _ := task.ApplyPatch(latestTask.updatedAt, w.now, NoPatch.(sourceRef := Some(Some(w.workspaceRef))));
      }
    }

    method Prepare(role: Role, human: bool, w: Surroundings) returns (runs: bool)
      modifies this, task
      ensures runs == Prepared(old(View()), role, human, w).Some?
      ensures View() == if runs then Prepared(old(View()), role, human, w).value
                        else Ensured(old(View()), role, human, w)
      ensures runs ==> task != null && (task == old(task) || fresh(task))
    {
      EnsureActiveTask(role, human, w);
      if task == null || task.row.status == Completed { return false; }
      var refreshed := task.row;
      match role {
        case Owner =>
          PrepareOwner(human, w);
        case Reviewer =>
          if w.reviewable && refreshed.status == ReviewReady {
            var _ := task.TransitionStatus(refreshed.status, InReview, refreshed.updatedAt, w.now, NoPatch);
          }
        case Arbiter =>
          if w.reviewable && refreshed.status == ArbiterRequested {
            var _ := task.TransitionStatus(refreshed.status, InArbitration, refreshed.updatedAt, w.now, NoPatch);
          }
      }
      return true;
    }

    /** A whole turn: prepare, and at the end complete, unless there is no task. */
    method PlayTurn(cfg: Config, t: Turn) returns (raised: bool)
      modifies this, task
      ensures (View(), raised) == AfterTurn(cfg, old(View()), t)
    {
      hide Prepared, Finished, Ensured;
      var runs := Prepare(t.role, t.human, t.w);
      if !runs { return false; }
      assert task != null;
      raised := Complete(task, cfg, t.role, EndOf(t));
      if EndOf(t).recorded {
        lastRole := Some(t.role);
      }
    }

    /** The session command that stops the room. */
    method Stop(now: int)
      modifies task
      ensures View() == AfterStop(old(View()), now)
    {
      if task != null && task.row.status != Completed {
        AlwaysCompletable(task.row.status);
        var _ := task.TransitionStatus(task.row.status, Completed, task.row.updatedAt, now,
                   NoPatch.(completionReason := Some(Stopped)));
      }
    }
  }
}
