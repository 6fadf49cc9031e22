/** When the next turn is put on the queue, and by whom. */
module PairedDispatch {
  import opened Common
  import opened PairedTaskStatus
  import opened PairedTurns

  datatype Source = DeliverySuccess | OwnerDeliverySuccess | DeliveryRetry | BotOnlyFollowUp | ExecutorRecovery

  datatype Dispatch = Nothing | Inline | EnqueueFollowUp | EnqueueMessageCheck

  /** `completed` is the role whose turn has just ended. */
  function FollowUp(source: Source, next: Action, completed: Option<Role>, succeeded: bool, sawOutput: bool): Dispatch {
    match source
    case DeliverySuccess | OwnerDeliverySuccess =>
      if next.NoTurn? then Nothing
      else if (source.OwnerDeliverySuccess? || completed == Some(Owner)) && next.FinalizeOwnerTurn? then Nothing
      else EnqueueFollowUp
    case DeliveryRetry => if next.NoTurn? then EnqueueMessageCheck else EnqueueFollowUp
    case BotOnlyFollowUp =>
      if next.NoTurn? then Nothing else if next.FinalizeOwnerTurn? then Inline else EnqueueFollowUp
    case ExecutorRecovery =>
      if (succeeded && sawOutput) || completed.None? || next.NoTurn? then Nothing else EnqueueFollowUp
  }

  /** Leaving out the finalizing turn after the owner's own delivery loses
      nothing: whoever delivered, the next turn is queued if there is one. */
  lemma DeliveryMissesNothing(status: Status, completed: Role)
    ensures var next := NextAction(status, Some(completed));
            FollowUp(DeliverySuccess, next, Some(completed), true, true) == EnqueueFollowUp <==>
            NextRole(status, Some(completed)).Some?
    ensures FollowUp(OwnerDeliverySuccess, NextAction(status, Some(Owner)), Some(Owner), true, true)
            == EnqueueFollowUp <==>
            NextRole(status, Some(Owner)).Some?
  {
  }

  /** Whose turn is next, and when the owner is to finalize. */
  lemma NextTurn(status: Status, last: Option<Role>)
    ensures NextRole(status, last) == Some(Reviewer) <==>
            status in {ReviewReady, InReview} && last != Some(Reviewer)
    ensures NextRole(status, last) == Some(Arbiter) <==>
            status in {ArbiterRequested, InArbitration} && last != Some(Arbiter)
    ensures NextRole(status, last) == Some(Owner) <==>
            || (status == MergeReady && last != Some(Owner))
            || (status == Active && last in {Some(Reviewer), Some(Arbiter)})
    ensures NextAction(status, last) == FinalizeOwnerTurn <==> status == MergeReady && last != Some(Owner)
  {
  }

  /** A retried delivery always queues something: the next turn, or a check for
      messages when nobody is next. Only a bot's message starts a turn at once, and
      only the finalizing one. */
  lemma RetryAlwaysQueues(status: Status, last: Option<Role>, completed: Option<Role>, succeeded: bool,
                          sawOutput: bool)
    ensures var next := NextAction(status, last);
            && FollowUp(DeliveryRetry, next, completed, succeeded, sawOutput)
               == (if NextRole(status, last).Some? then EnqueueFollowUp else EnqueueMessageCheck)
            && (FollowUp(BotOnlyFollowUp, next, completed, succeeded, sawOutput) == Nothing <==>
                NextRole(status, last).None?)
            && (FollowUp(BotOnlyFollowUp, next, completed, succeeded, sawOutput) == Inline <==>
                status == MergeReady && last != Some(Owner))
    ensures forall source, next ::
              var d := FollowUp(source, next, completed, succeeded, sawOutput);
              && (d == Inline ==> source == BotOnlyFollowUp)
              && (d == EnqueueMessageCheck ==> source == DeliveryRetry)
              && (next == NoTurn ==> d in {Nothing, EnqueueMessageCheck})
  {
  }

  // ----- the end of one run: recovery asks first, then delivery -----

  /** The task as both find it, whose output was stored last, how the run ended.
      `direct`: its verdict was delivered past the normal output; `delivered`: no
      delivery has failed; `watched`: a CI watcher is active. */
  datatype RunEnd = RunEnd(status: Status, stored: Option<Role>, completed: Role, succeeded: bool, sawOutput: bool,
                           direct: bool, delivered: bool, watched: bool)
  {
    function Spoke(): Option<Role> { if sawOutput then Some(completed) else None }

    /** The turn recovery asks for, decided once without and once with the outputs stored. */
    function RecoveryAction(): Action {
      NextAction(status, if stored.Some? then stored else Spoke())
    }

    function Recovery(): Dispatch {
      if direct && completed != Owner then Nothing
      else if FollowUp(ExecutorRecovery, NextAction(status, Spoke()), Some(completed), succeeded, sawOutput)
              != EnqueueFollowUp
      then Nothing
      else FollowUp(ExecutorRecovery, RecoveryAction(), Some(completed), succeeded, sawOutput)
    }

    function DeliveryAction(): Action {
      NextAction(status, if stored.Some? then stored else Some(completed))
    }

    predicate Deferred() { completed == Owner && status == ReviewReady && watched }

    function Delivery(): Dispatch {
      if !delivered || Deferred() then Nothing
      else FollowUp(DeliverySuccess, DeliveryAction(), Some(completed), succeeded, sawOutput)
    }
  }

  /** Both ask if and only if the run did not both succeed and speak, delivery is
      not held back, and the task is in a state that leaves a turn to either; it is
      then the same turn. */
  lemma BothAsk(e: RunEnd)
    ensures e.Recovery() == EnqueueFollowUp && e.Delivery() == EnqueueFollowUp <==>
            && !(e.succeeded && e.sawOutput) && !(e.direct && e.completed != Owner)
            && e.delivered && !e.Deferred()
            && NextRole(e.status, if e.stored.Some? then e.stored else Some(e.completed)).Some?
            && (if e.sawOutput then NextRole(e.status, Some(e.completed)).Some? else e.status != Active)
            && !(e.completed == Owner && e.status == MergeReady)
    ensures e.Recovery() == EnqueueFollowUp && e.Delivery() == EnqueueFollowUp ==>
            e.RecoveryAction() == e.DeliveryAction()
  {
  }

  /** What the database holds for one turn of one revision of the task. */
  datatype Reservation = Absent | Pending | Claimed(lastAttemptFailed: bool)

  /** A turn is reserved once, or again after the last attempt at it has failed. */
  predicate Reserves(r: Reservation) {
    r.Absent? || (r.Claimed? && r.lastAttemptFailed)
  }

  predicate Queues(d: Dispatch, r: Reservation) { d == EnqueueFollowUp && Reserves(r) }

  /** `first`: the reservation of the turn recovery asks for when it does; `later`:
      of the one delivery asks for when it does; a reservation is not removed in between. */
  predicate InTurn(e: RunEnd, first: Reservation, later: Reservation) {
    e.RecoveryAction() == e.DeliveryAction() && (first != Absent || Queues(e.Recovery(), first)) ==> later != Absent
  }

  /** The turn is queued twice if and only if both ask for it and the one recovery
      queued was claimed and failed before delivery asked. */
  lemma QueuedTwice(e: RunEnd, first: Reservation, later: Reservation)
    requires InTurn(e, first, later)
    ensures Queues(e.Recovery(), first) && Queues(e.Delivery(), later) <==>
            && e.Recovery() == EnqueueFollowUp && e.Delivery() == EnqueueFollowUp
            && Reserves(first) && later == Claimed(true)
  {
    BothAsk(e);
  }

  /** A silent end that neither would follow up: the owner was finalizing, and what
      it said was not stored. */
  predicate FallsThrough(e: RunEnd) {
    e.completed == Owner && e.status == MergeReady && e.sawOutput && e.stored != Some(Owner)
  }

  /** With nothing reserved before and nothing failing in between, a turn is queued
      exactly once if there is a next turn, but in the one case, and else not at all.
      Some output has been stored, delivery has succeeded and is not held back. */
  lemma QueuedOnce(e: RunEnd, later: Reservation)
    requires e.stored.Some? && e.delivered && !e.Deferred()
    requires later == if Queues(e.Recovery(), Absent) then Pending else Absent
    ensures Queues(e.Recovery(), Absent) || Queues(e.Delivery(), later) <==>
            NextRole(e.status, e.stored).Some? && !FallsThrough(e)
    ensures !(Queues(e.Recovery(), Absent) && Queues(e.Delivery(), later))
  {
    BothAsk(e);
  }
}
