/** One message from first attempt to result: at most one new session, at most
    one round of credential rotation. */
module AttemptLifecycle {
  import opened Common
  import opened TokenRing
  import opened CodexRing
  import opened ProviderRetry
  import opened RotationBounds

  datatype Provider = Claude | Codex

  /** `handsOff(r)`: a Claude run in trouble `r` is passed on to Codex. `direct`:
      something was delivered past the normal output. */
  datatype Setting = Setting(
    provider: Provider, isClaudeCodeAgent: bool, canRetryClaude: bool, direct: bool, handsOff: Reason -> bool)

  /** `Waiting`: an attempt is still unanswered. */
  datatype Result = Succeeded | Failed | Waiting

  /** The attempt is one for another Claude token. */
  function ClaudeTrigger(s: Setting, a: Attempt, readAs: Option<Reason>): Option<Reason> {
    if s.canRetryClaude && s.provider == Claude && !a.sawOutput then Either(a.streamed, readAs) else None
  }

  /** .. or for another Codex account. */
  predicate CodexTriggered(s: Setting, a: Attempt, accounts: nat, readAs: Option<Reason>) {
    && !s.isClaudeCodeAgent && accounts > 1
    && if a.streamed.Some? then IsCodexReason(a.streamed.value) else readAs.Some?
  }

  /** `sessionBroken` is the session failure the run reported or its error text shows. */
  predicate RetryableClaudeSession(s: Setting, a: Attempt) {
    s.isClaudeCodeAgent && s.provider == Claude && !a.sawOutput && a.sessionBroken
  }

  predicate RetryableCodexSession(s: Setting, a: Attempt) {
    s.provider == Codex && !a.sawOutput && a.sessionBroken
  }

  /** A Claude run in trouble is passed on before anything was shown. */
  predicate HandsOff(s: Setting, r: Reason, a: Attempt) {
    s.isClaudeCodeAgent && s.handsOff(r) && !a.sawVisibleOutput
  }

  // ----- the whole course as a value -----

  /** `marked`: the turn was marked as succeeded. */
  datatype Ending = Ending(result: Result, marked: bool, handedOff: bool, attempts: nat)

  function Handed(s: Setting, r: Reason, a: Attempt, attempts: nat): Ending {
    if HandsOff(s, r, a) then Ending(Succeeded, false, true, attempts) else Ending(Failed, false, false, attempts)
  }

  /** `k` attempts have been made before, the last of them `a`. */
  function ClaudeRetried(s: Setting, ring: Ring, w: World, a: Attempt, trigger: Reason, message: Option<int>, k: nat)
    : Ending
    requires ring.Valid() && k <= |w.answers|
  {
    var run := ClaudeRun(ring, trigger, message, {}, w, k, k);
    match run.outcome
    case Pending => Ending(Waiting, false, false, k + |run.tried|)
    case Success(_) => Ending(Succeeded, true, false, k + |run.tried|)
    case _ => Handed(s, trigger, a, k + |run.tried|)
  }

  function CodexRetried(ring: Ring, w: World, a: Attempt, k: nat): Ending
    requires ring.Valid() && k <= |w.answers|
  {
    var run := CodexRun(ring, a.retryAt, w, k, k);
    match run.outcome
    case Pending => Ending(Waiting, false, false, k + |run.tried|)
    case Success(_) => Ending(Succeeded, true, false, k + |run.tried|)
    case _ => Ending(Failed, false, false, k + |run.tried|)
  }

  function FailureHandled(s: Setting, claude: Ring, codex: Ring, w: World, a: Attempt, k: nat): Ending
    requires claude.Valid() && codex.Valid() && k <= |w.answers|
  {
    var trigger := ClaudeTrigger(s, a, a.claudeReads);
    if trigger.Some? then ClaudeRetried(s, claude, w, a, trigger.value, a.retryAt, k)
    else if CodexTriggered(s, a, |codex.until|, a.codexReads) then CodexRetried(codex, w, a, k)
    else Ending(Failed, false, false, k)
  }

  function Finalized(s: Setting, claude: Ring, codex: Ring, w: World, a: Attempt, k: nat): Ending
    requires claude.Valid() && codex.Valid() && k <= |w.answers|
  {
    var trigger := ClaudeTrigger(s, a, None);
    if !a.hasOutput then Ending(Failed, false, false, k)
    else if !a.sawOutput && !s.direct && !a.outputIsError && trigger.Some? then
      ClaudeRetried(s, claude, w, a, trigger.value, None, k)
    else if a.outputIsError then FailureHandled(s, claude, codex, w, a, k)
    else if CodexTriggered(s, a, |codex.until|, a.codexReadsResult) then CodexRetried(codex, w, a, k)
    else if a.streamed.Some? then Handed(s, a.streamed.value, a, k)
    else if a.nullResult && !a.sawOutput && !s.direct then Ending(Failed, false, false, k)
    else Ending(Succeeded, true, false, k)
  }

  function Settled(s: Setting, claude: Ring, codex: Ring, w: World, a: Attempt, k: nat): Ending
    requires claude.Valid() && codex.Valid() && k <= |w.answers|
  {
    if a.thrown then FailureHandled(s, claude, codex, w, a, k) else Finalized(s, claude, codex, w, a, k)
  }

  function Executed(s: Setting, claude: Ring, codex: Ring, w: World): Ending
    requires claude.Valid() && codex.Valid()
  {
    if |w.answers| == 0 then Ending(Waiting, false, false, 1)
    else
      var first := w.answers[0];
      if !RetryableClaudeSession(s, first) && !RetryableCodexSession(s, first)
      then Settled(s, claude, codex, w, first, 1)
      else if |w.answers| == 1 then Ending(Waiting, false, false, 2)
      else
        var second := w.answers[1];
        if RetryableClaudeSession(s, second) then Handed(s, SessionFailure, second, 2)
        else if RetryableCodexSession(s, second) then Ending(Failed, false, false, 2)
        else Settled(s, claude, codex, w, second, 2)
  }

  // ----- what it comes to -----

  /** The attempt is repeated on other tokens: Claude's, nothing said, and trouble
      streamed or, where the attempt failed, read in its error. */
  predicate OnOtherTokens(s: Setting, a: Attempt) {
    && s.canRetryClaude && s.provider == Claude && !a.sawOutput
    && if a.thrown || (a.hasOutput && a.outputIsError) then a.streamed.Some? || a.claudeReads.Some?
       else a.hasOutput && !s.direct && a.streamed.Some?
  }

  /** .. or on other accounts: there is another, and the trouble is one for it. */
  predicate OnOtherAccounts(s: Setting, a: Attempt, accounts: nat) {
    && !OnOtherTokens(s, a) && !s.isClaudeCodeAgent && accounts > 1 && (a.thrown || a.hasOutput)
    && match a.streamed
       case Some(r) => r in {RateLimited, AuthExpired, OrgAccessDenied, Overloaded, NetworkError}
       case None => if a.thrown || a.outputIsError then a.codexReads.Some? else a.codexReadsResult.Some?
  }

  /** The trouble handed on to the rotation, and the time its message names. */
  function Trouble(a: Attempt): Reason
    requires a.streamed.Some? || a.claudeReads.Some?
  {
    match a.streamed case Some(r) => r case None => a.claudeReads.value
  }

  /** With no rotation an attempt succeeds if and only if it has an output that is no
      error, came without trouble and said something, or its trouble was handed off. */
  lemma SettledPlainly(s: Setting, claude: Ring, codex: Ring, w: World, a: Attempt, k: nat)
    requires claude.Valid() && codex.Valid() && k <= |w.answers|
    requires !OnOtherTokens(s, a) && !OnOtherAccounts(s, a, |codex.until|)
    ensures var e := Settled(s, claude, codex, w, a, k);
            var answered := !a.thrown && a.hasOutput && !a.outputIsError;
            && e.attempts == k && !e.result.Waiting?
            && (e.marked <==> answered && a.streamed.None? && (a.sawOutput || s.direct || !a.nullResult))
            && (e.handedOff <==> answered && a.streamed.Some? && s.isClaudeCodeAgent
                                 && s.handsOff(a.streamed.value) && !a.sawVisibleOutput)
            && (e.result.Succeeded? <==> e.marked || e.handedOff)
  {
  }

  /** With a rotation it is the rotation that succeeds, waits, or fails, and then the
      trouble may still be handed off. */
  lemma SettledByTokens(s: Setting, claude: Ring, codex: Ring, w: World, a: Attempt, k: nat)
    requires claude.Valid() && codex.Valid() && k <= |w.answers| && OnOtherTokens(s, a)
    ensures var e := Settled(s, claude, codex, w, a, k);
            var message := if a.thrown || a.outputIsError then a.retryAt else None;
            var run := ClaudeRun(claude, Trouble(a), message, {}, w, k, k);
            && e.attempts == k + |run.tried|
            && (e.result.Waiting? <==> run.outcome.Pending?) && (e.marked <==> run.outcome.Success?)
            && (e.handedOff <==> run.outcome.Failure? && s.isClaudeCodeAgent && s.handsOff(Trouble(a))
                                 && !a.sawVisibleOutput)
            && (e.result.Succeeded? <==> e.marked || e.handedOff)
  {
    ClaudeFails(claude, Trouble(a), if a.thrown || a.outputIsError then a.retryAt else None, {}, w, k, k);
    hide ClaudeRun, OthersCooling;
  }

  lemma SettledByAccounts(s: Setting, claude: Ring, codex: Ring, w: World, a: Attempt, k: nat)
    requires claude.Valid() && codex.Valid() && k <= |w.answers| && OnOtherAccounts(s, a, |codex.until|)
    ensures var e := Settled(s, claude, codex, w, a, k);
            var run := CodexRun(codex, a.retryAt, w, k, k);
            && e.attempts == k + |run.tried| && !e.handedOff
            && (e.result.Waiting? <==> run.outcome.Pending?)
            && (e.result.Succeeded? <==> run.outcome.Success?) && (e.marked <==> run.outcome.Success?)
  {
    hide CodexRun;
  }

  /** The session was found broken before anything was said. */
  predicate SessionLost(s: Setting, a: Attempt) {
    a.sessionBroken && !a.sawOutput && (s.provider == Codex || s.isClaudeCodeAgent)
  }

  /** A second attempt is made in a fresh session exactly when the first lost its own,
      and never a third: what settles is the first attempt that kept its session, or
      a hand-off when neither did. */
  lemma FreshSessionOnce(s: Setting, claude: Ring, codex: Ring, w: World)
    requires claude.Valid() && codex.Valid()
    ensures var e, n := Executed(s, claude, codex, w), |w.answers|;
            && (n == 0 ==> e == Ending(Waiting, false, false, 1))
            && (n >= 1 && !SessionLost(s, w.answers[0]) ==> e == Settled(s, claude, codex, w, w.answers[0], 1))
            && (n == 1 && SessionLost(s, w.answers[0]) ==> e == Ending(Waiting, false, false, 2))
            && (n >= 2 && SessionLost(s, w.answers[0]) && !SessionLost(s, w.answers[1]) ==>
                  e == Settled(s, claude, codex, w, w.answers[1], 2))
            && (n >= 2 && SessionLost(s, w.answers[0]) && SessionLost(s, w.answers[1]) ==>
                  && e.attempts == 2 && !e.marked && !e.result.Waiting? && (e.result.Succeeded? <==> e.handedOff)
                  && (e.handedOff <==> s.provider == Claude && s.isClaudeCodeAgent && s.handsOff(SessionFailure)
                                       && !w.answers[1].sawVisibleOutput))
  {
    hide Settled;
  }

  class Executor {
    const setting: Setting
    const claude: ClaudeTokens
    const codex: CodexAccounts
    const world: World
    var attempts: nat
    var succeeded: bool        // the paired turn was marked as succeeded
    var handedOff: bool
    ghost var rotatedOn: Option<Provider>

    /** When cooldowns outlast the loops the attempts are bounded. */
    ghost predicate Valid()
      reads this, claude, codex
    {
      && claude.Valid() && codex.Valid()
      && (rotatedOn == Some(Claude) ==> setting.provider == Claude)
      && (rotatedOn == Some(Codex) ==> !setting.isClaudeCodeAgent)
      && ((exists horizon :: Outlasts(world, horizon)) ==>
            attempts <= 2 + match rotatedOn
                            case None => 0
                            case Some(Claude) => ClaudeBound(|claude.until|)
                            case Some(Codex) => CodexBound(|codex.until|))
      && (rotatedOn.None? ==> attempts <= 2)
    }

    /** The result says what was marked or handed on, if nothing is awaited. */
    ghost predicate Agrees(result: Result)
      reads this
    {
      if result.Waiting? then attempts == |world.answers| + 1
      else result.Succeeded? <==> succeeded || handedOff
    }

    constructor (setting: Setting, claude: ClaudeTokens, codex: CodexAccounts, world: World)
      requires claude.Valid() && codex.Valid()
      ensures Valid() && attempts == 0 && !succeeded && !handedOff && rotatedOn.None?
      ensures this.setting == setting && this.claude == claude && this.codex == codex && this.world == world
    {
      this.setting, this.claude, this.codex, this.world := setting, claude, codex, world;
      attempts, succeeded, handedOff, rotatedOn := 0, false, false, None;
    }

    /** How far it has come, as a value. */
    function Ended(result: Result): Ending
      reads this
    {
      Ending(result, succeeded, handedOff, attempts)
    }

    method MaybeHandoff(r: Reason, a: Attempt) returns (result: Result)
      requires Valid()
      modifies `handedOff
      ensures Valid() && result == if HandsOff(setting, r, a) then Succeeded else Failed
      ensures handedOff == (old(handedOff) || HandsOff(setting, r, a))
    {
      if setting.isClaudeCodeAgent && setting.handsOff(r) && !a.sawVisibleOutput {
        handedOff := true;
        return Succeeded;
      }
      return Failed;
    }

    /** `message`: the time read from the message handed on, if there is one. */
    method RetryClaudeIfNeeded(a: Attempt, readAs: Option<Reason>, message: Option<int>)
      returns (result: Option<Result>)
      requires Valid() && rotatedOn.None? && 0 < attempts <= |world.answers| && a in world.answers
      requires message == a.retryAt || message.None?
      requires !succeeded && !handedOff
      modifies this, claude
      ensures Valid() && |claude.until| == |old(claude.until)|
      ensures result.Some? <==> ClaudeTrigger(setting, a, readAs).Some?
      ensures result.None? ==> unchanged(this) && unchanged(claude)
      ensures result.Some? ==> Agrees(result.value)
      ensures result.Some? ==>
                Ended(result.value) == ClaudeRetried(setting, old(claude.View()), world, a,
                                         ClaudeTrigger(setting, a, readAs).value, message, old(attempts))
    {
      var trigger := ClaudeTrigger(setting, a, readAs);
      if trigger.None? { return None; }
      ghost var r := claude.View();
      var outcome, tried := RunClaudeRotationLoop(claude, trigger.value, message, world, attempts, attempts);
      ClaudeFails(r, trigger.value, message, {}, world, attempts, attempts);
      ClaudeLoopBounded(r, trigger.value, a, message, world, attempts, attempts);
      attempts, rotatedOn := attempts + |tried|, Some(Claude);
      if outcome.Pending? { return Some(Waiting); }
      if outcome.Success? {
        succeeded := true;
        return Some(Succeeded);
      }
      var handed := MaybeHandoff(trigger.value, a);
      return Some(handed);
    }

    method RetryCodexIfNeeded(a: Attempt, readAs: Option<Reason>) returns (result: Option<Result>)
      requires Valid() && rotatedOn.None? && 0 < attempts <= |world.answers| && a in world.answers
      requires !succeeded && !handedOff
      modifies this, codex
      ensures Valid() && |codex.until| == |old(codex.until)|
      ensures result.Some? <==> CodexTriggered(setting, a, |old(codex.until)|, readAs)
      ensures result.None? ==> unchanged(this)
      ensures result.Some? ==> Agrees(result.value)
      ensures result.Some? ==> Ended(result.value) == CodexRetried(old(codex.View()), world, a, old(attempts))
    {
      if !CodexTriggered(setting, a, |codex.until|, readAs) { return None; }
      ghost var r := codex.View();
      var outcome, tried := RunCodexRotationLoop(codex, a.retryAt, world, attempts, attempts);
      CodexFails(r, a.retryAt, world, attempts, attempts);
      CodexLoopBounded(r, a, world, attempts, attempts);
      attempts, rotatedOn := attempts + |tried|, Some(Codex);
      if outcome.Pending? { return Some(Waiting); }
      succeeded := outcome.Success?;
      return Some(if outcome.Success? then Succeeded else Failed);
    }

    method HandlePrimaryFailure(a: Attempt) returns (result: Result)
      requires Valid() && rotatedOn.None? && 0 < attempts <= |world.answers| && a in world.answers
      requires !succeeded && !handedOff
      modifies this, claude, codex
      ensures Valid() && Agrees(result)
      ensures Ended(result) == FailureHandled(setting, old(claude.View()), old(codex.View()), world, a, old(attempts))
      ensures |claude.until| == |old(claude.until)| && |codex.until| == |old(codex.until)|
    {
      var retried := RetryClaudeIfNeeded(a, a.claudeReads, a.retryAt);
      if retried.Some? { return retried.value; }
      retried := RetryCodexIfNeeded(a, a.codexReads);
      if retried.Some? { return retried.value; }
      return Failed;
    }

    method FinalizePrimary(a: Attempt) returns (result: Result)
      requires Valid() && rotatedOn.None? && 0 < attempts <= |world.answers| && a in world.answers
      requires !succeeded && !handedOff
      modifies this, claude, codex
      ensures Valid() && Agrees(result)
      ensures Ended(result) == Finalized(setting, old(claude.View()), old(codex.View()), world, a, old(attempts))
      ensures |claude.until| == |old(claude.until)| && |codex.until| == |old(codex.until)|
    {
      if !a.hasOutput { return Failed; }
      var retried;
      if !a.sawOutput && !setting.direct && !a.outputIsError {
        retried := RetryClaudeIfNeeded(a, None, None);
        if retried.Some? { return retried.value; }
      }
      if a.outputIsError {
        result := HandlePrimaryFailure(a);
        return;
      }
      retried := RetryCodexIfNeeded(a, a.codexReadsResult);
      if retried.Some? { return retried.value; }
      if a.streamed.Some? {
        result := MaybeHandoff(a.streamed.value, a);
        return;
      }
      if a.nullResult && !a.sawOutput && !setting.direct { return Failed; }
      succeeded := true;
      return Succeeded;
    }

    method SettlePrimary(a: Attempt) returns (result: Result)
      requires Valid() && rotatedOn.None? && 0 < attempts <= |world.answers| && a in world.answers
      requires !succeeded && !handedOff
      modifies this, claude, codex
      ensures Valid() && Agrees(result)
      ensures Ended(result) == Settled(setting, old(claude.View()), old(codex.View()), world, a, old(attempts))
      ensures |claude.until| == |old(claude.until)| && |codex.until| == |old(codex.until)|
    {
      hide FailureHandled, Finalized;
      if a.thrown {
        result := HandlePrimaryFailure(a);
      } else {
        result := FinalizePrimary(a);
      }
    }

    /** Bounded attempts, and success is claimed exactly when the turn was
        marked so or somebody else took over. */
    method Execute() returns (result: Result)
      requires Valid() && attempts == 0 && rotatedOn.None? && !succeeded && !handedOff
      modifies this, claude, codex
      ensures Agrees(result)
      ensures Ended(result) == Executed(setting, old(claude.View()), old(codex.View()), world)
      ensures (exists horizon :: Outlasts(world, horizon)) ==>
                && (setting.provider == Codex ==> attempts <= 2 + CodexBound(|old(codex.until)|))
                && (setting.isClaudeCodeAgent ==> attempts <= 2 + ClaudeBound(|old(claude.until)|))
                && attempts <= 2 + Max(ClaudeBound(|old(claude.until)|), CodexBound(|old(codex.until)|))
    {
      hide Settled;
      attempts := 1;
      if |world.answers| == 0 { return Waiting; }
      var primary := world.answers[0];
      if RetryableClaudeSession(setting, primary) {
        attempts := 2;
        if |world.answers| == 1 { return Waiting; }
        var second := world.answers[1];
        if RetryableClaudeSession(setting, second) {
          result := MaybeHandoff(SessionFailure, second);
          return;
        }
        primary := second;
      }
      if RetryableCodexSession(setting, primary) {
        attempts := 2;
        if |world.answers| == 1 { return Waiting; }
        var second := world.answers[1];
        if RetryableCodexSession(setting, second) { return Failed; }
        primary := second;
      }
      result := SettlePrimary(primary);
    }
  }

  lemma ClaudeLoopBounded(r: Ring, trigger: Reason, a: Attempt, message: Option<int>, w: World, k: nat, time: nat)
    requires r.Valid() && k <= |w.answers| && a in w.answers && (message == a.retryAt || message.None?)
    ensures (exists horizon :: Outlasts(w, horizon)) ==>
              |ClaudeRun(r, trigger, message, {}, w, k, time).tried| <= ClaudeBound(|r.until|)
  {
    if horizon :| Outlasts(w, horizon) {
      ClaudeOutlasts(r, trigger, message, w, k, time, horizon);
    }
  }

  lemma CodexLoopBounded(r: Ring, a: Attempt, w: World, k: nat, time: nat)
    requires r.Valid() && k <= |w.answers| && a in w.answers
    ensures (exists horizon :: Outlasts(w, horizon)) ==>
              |CodexRun(r, a.retryAt, w, k, time).tried| <= CodexBound(|r.until|)
  {
    if horizon :| Outlasts(w, horizon) {
      CodexOutlasts(r, a.retryAt, w, k, time, horizon);
    }
  }
}
