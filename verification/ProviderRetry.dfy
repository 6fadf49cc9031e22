/** Retrying a request on other credentials, and the whole life of one attempt
    at an answer. Time, the provider's answers and the outcome of a forced
    token refresh come from a `World`. */
module ProviderRetry {
  import opened Common
  import opened TokenRing
  import opened CodexRing

  datatype Reason =
    | RateLimited | UsageExhausted | AuthExpired | OrgAccessDenied
    | SessionFailure | Overloaded | NetworkError | SuccessNullResult

  predicate ShouldRotateClaude(r: Reason) {
    r in {RateLimited, UsageExhausted, AuthExpired, OrgAccessDenied}
  }

  predicate IsCodexReason(r: Reason) {
    r in {RateLimited, AuthExpired, OrgAccessDenied, Overloaded, NetworkError}
  }

  /** `streamed` is the trouble reported while running; `claudeReads` and
      `codexReads` what the error text is taken for, `codexReadsResult` the same of
      an answer; `retryAt` the time the message names. */
  datatype Attempt = Attempt(
    thrown: bool, hasOutput: bool, outputIsError: bool, sawOutput: bool, sawVisibleOutput: bool,
    nullResult: bool, streamed: Option<Reason>, claudeReads: Option<Reason>, codexReads: Option<Reason>,
    codexReadsResult: Option<Reason>, sessionBroken: bool, retryAt: Option<int>)

  /** `Pending`: the attempt has not been answered yet. */
  datatype Outcome =
    | Success(sawOutput: bool)
    | Failure(trigger: Option<Reason>)
    | Again(reason: Reason, retryAt: Option<int>)
    | Pending

  function Either(a: Option<Reason>, b: Option<Reason>): Option<Reason> {
    if a.Some? then a else b
  }

  function EvaluateClaude(a: Attempt): Outcome {
    var retry := Either(a.streamed, a.claudeReads);
    if a.thrown then
      if !a.sawOutput && retry.Some? then Again(retry.value, a.retryAt) else Failure(None)
    else if !a.hasOutput then Failure(None)
    else if !a.sawOutput && a.streamed.Some? && !a.outputIsError then Again(a.streamed.value, a.retryAt)
    else if !a.sawOutput && a.nullResult then Failure(Some(SuccessNullResult))
    else if a.outputIsError then
      if !a.sawOutput && retry.Some? then Again(retry.value, a.retryAt) else Failure(None)
    else Success(a.sawOutput)
  }

  function EvaluateCodex(a: Attempt): Outcome {
    if a.thrown then
      if a.codexReads.Some? then Again(a.codexReads.value, a.retryAt) else Failure(None)
    else if !a.hasOutput then Failure(None)
    else if !a.sawOutput && a.streamed.Some? && !a.outputIsError then
      if IsCodexReason(a.streamed.value) then Again(a.streamed.value, a.retryAt) else Failure(None)
    else if a.outputIsError then
      var retry := if a.streamed.Some? && IsCodexReason(a.streamed.value) then a.streamed else a.codexReads;
      if retry.Some? then Again(retry.value, a.retryAt) else Failure(None)
    else Success(a.sawOutput)
  }

  /** A Claude request that already said something is never repeated; a Codex
      request is, when it ends in a recognised error. */
  lemma NoRepeatAfterOutput(a: Attempt)
    ensures EvaluateClaude(a).Again? ==> !a.sawOutput
    ensures a.sawOutput ==>
              (EvaluateCodex(a).Again? <==>
               if a.thrown then a.codexReads.Some?
               else a.hasOutput && a.outputIsError &&
                    (a.codexReads.Some? || (a.streamed.Some? && IsCodexReason(a.streamed.value))))
  {
  }

  /** What another Claude token is worth a try for, and another Codex account. */
  lemma WorthRotating(r: Reason)
    ensures !ShouldRotateClaude(r) <==> r in {SessionFailure, Overloaded, NetworkError, SuccessNullResult}
    ensures !IsCodexReason(r) <==> r in {UsageExhausted, SessionFailure, SuccessNullResult}
  {
  }

  /** A Claude answer is good exactly if it came without error, and trouble on the
      way or an empty result only count when nothing was said; another one is asked
      for exactly when nothing was said and the trouble is recognised. */
  lemma ClaudeVerdict(a: Attempt)
    ensures EvaluateClaude(a).Success? <==>
            && !a.thrown && a.hasOutput && !a.outputIsError
            && (a.sawOutput || (a.streamed.None? && !a.nullResult))
    ensures EvaluateClaude(a).Again? <==>
            && !a.sawOutput && (a.thrown || a.hasOutput)
            && (a.streamed.Some? || ((a.thrown || a.outputIsError) && a.claudeReads.Some?))
            && (!a.thrown && a.outputIsError ==> !a.nullResult)
    ensures EvaluateClaude(a).Again? ==>
              EvaluateClaude(a) == Again(if a.streamed.Some? then a.streamed.value else a.claudeReads.value, a.retryAt)
    ensures EvaluateClaude(a) == Failure(Some(SuccessNullResult)) <==>
            && !a.thrown && a.hasOutput && !a.sawOutput && a.nullResult && (a.streamed.None? || a.outputIsError)
    ensures EvaluateClaude(a).Failure? ==> EvaluateClaude(a).trigger in {None, Some(SuccessNullResult)}
    ensures EvaluateClaude(a).Success? ==> EvaluateClaude(a).sawOutput == a.sawOutput
  {
  }

  /** The same for Codex, where trouble on the way counts only for some reasons, and
      an error after output is tried again too. */
  lemma CodexVerdict(a: Attempt)
    ensures EvaluateCodex(a).Success? <==>
            !a.thrown && a.hasOutput && !a.outputIsError && (a.sawOutput || a.streamed.None?)
    ensures EvaluateCodex(a).Again? <==>
            if a.thrown then a.codexReads.Some?
            else && a.hasOutput
                 && if a.outputIsError then a.codexReads.Some? || (a.streamed.Some? && IsCodexReason(a.streamed.value))
                    else !a.sawOutput && a.streamed.Some? && IsCodexReason(a.streamed.value)
    ensures EvaluateCodex(a).Again? ==>
              EvaluateCodex(a)
              == Again(if !a.thrown && a.streamed.Some? && IsCodexReason(a.streamed.value) then a.streamed.value
                       else a.codexReads.value, a.retryAt)
    ensures EvaluateCodex(a).Failure? ==> EvaluateCodex(a).trigger == None
    ensures EvaluateCodex(a).Success? ==> EvaluateCodex(a).sawOutput == a.sawOutput
  {
  }

  /** The answers given so far, the n-th reading of the clock, the n-th forced
      refresh. A loop that asks for more than it was given waits. */
  datatype World = World(answers: seq<Attempt>, clock: nat -> int, refreshes: nat -> bool)

  /** Which entries were tried, one for each attempt, and how it ended. */
  datatype Run = Run(outcome: Outcome, tried: seq<nat>, ring: Ring)
  {
    function After(first: seq<nat>): Run { this.(tried := first + tried) }
  }

  lemma TriedOn(run: Run, before: seq<nat>, index: nat)
    ensures run.After([index]).After(before) == run.After(before + [index])
  {
    assert before + ([index] + run.tried) == before + [index] + run.tried;
  }

  lemma TriedFirst(run: Run)
    ensures run.After([]) == run
  {
  }

  // ----- the Claude loop -----

  /** What a round does before it asks again: `goes` is whether it does. */
  datatype Round = Round(ring: Ring, refreshed: set<nat>, time: nat, goes: bool)

  function ClaudeRound(r: Ring, trigger: Reason, message: Option<int>, refreshed: set<nat>,
                      w: World, time: nat): (x: Round)
    requires r.Valid()
    ensures x.ring.Valid() && |x.ring.until| == |r.until|
  {
    var looks := trigger == AuthExpired;
    var r1, t1 := if looks then Reselect(r, w.clock(time)) else r, if looks then time + 1 else time;
    var unseen := looks && r1.until != [] && r1.current !in refreshed;
    var refreshed1 := if unseen then refreshed + {r1.current} else refreshed;
    if unseen && w.refreshes(|refreshed|) then Round(r1, refreshed1, t1, true)
    else
      var (r2, rotated) := Rotate(r1, CooldownUntil(message, w.clock(t1)), w.clock(t1 + 1));
      Round(r2, refreshed1, t1 + 2, rotated)
  }

  /** An attempt: spawning the agent looks the token up again. */
  function ClaudeTried(r: Ring, outcome: Outcome, now: int): (x: Ring)
    requires r.Valid()
    ensures x.Valid() && |x.until| == |r.until|
  {
    var r1 := Reselect(r, now);
    if outcome.Success? then Reselect(Healed(r1), now) else r1
  }

  function Answer(w: World, k: nat, evaluate: Attempt -> Outcome): Outcome
    requires k <= |w.answers|
  {
    if k == |w.answers| then Pending else evaluate(w.answers[k])
  }

  /** From the loop's test on, with answer `k` the next and `time` readings taken. */
  function ClaudeRun(r: Ring, trigger: Reason, message: Option<int>, refreshed: set<nat>, w: World, k: nat, time: nat)
    : (run: Run)
    requires r.Valid() && k <= |w.answers|
    ensures run.ring.Valid() && |run.ring.until| == |r.until|
    decreases |w.answers| - k
  {
    if !ShouldRotateClaude(trigger) then Run(Failure(Some(trigger)), [], r)
    else
      var x := ClaudeRound(r, trigger, message, refreshed, w, time);
      if !x.goes then Run(Failure(Some(trigger)), [], x.ring)
      else
        var outcome := Answer(w, k, EvaluateClaude);
        var r' := ClaudeTried(x.ring, outcome, w.clock(x.time));
        var index := Reselect(x.ring, w.clock(x.time)).current;
        if k < |w.answers| && outcome.Again?
        then ClaudeRun(r', outcome.reason, outcome.retryAt, x.refreshed, w, k + 1, x.time + 1).After([index])
        else Run(outcome, [index], r')
  }

  method PrepareClaudeRound(ring: ClaudeTokens, trigger: Reason, message: Option<int>, refreshed: set<nat>,
                            w: World, time: nat)
    returns (refreshed': set<nat>, time': nat, goes: bool)
    requires ring.Valid()
    modifies ring
    ensures ring.Valid()
    ensures Round(ring.View(), refreshed', time', goes)
            == ClaudeRound(old(ring.View()), trigger, message, refreshed, w, time)
  {
    hide Reselect, Rotate, CooldownUntil;
    refreshed', time', goes := refreshed, time, false;
    if trigger == AuthExpired {
      var tokenIndex := ring.GetCurrentTokenIndex(w.clock(time'));
      time' := time' + 1;
      if tokenIndex.Some? && tokenIndex.value !in refreshed {
        refreshed' := refreshed + {tokenIndex.value};
        goes := w.refreshes(|refreshed|);
      }
    }
    if !goes {
      goes := ring.RotateToken(message, w.clock(time'), w.clock(time' + 1));
      time' := time' + 2;
    }
  }

  method RunClaudeAttempt(ring: ClaudeTokens, w: World, k: nat, time: nat) returns (outcome: Outcome, index: nat)
    requires ring.Valid() && k <= |w.answers|
    modifies ring
    ensures ring.Valid() && index == Reselect(old(ring.View()), w.clock(time)).current
    ensures outcome == Answer(w, k, EvaluateClaude)
            && ring.View() == ClaudeTried(old(ring.View()), outcome, w.clock(time))
  {
    hide Reselect, EvaluateClaude;
    var _ := ring.GetCurrentTokenIndex(w.clock(time));
    index := ring.current;
    outcome := Answer(w, k, EvaluateClaude);
    if outcome.Success? {
      ring.MarkTokenHealthy(w.clock(time));
    }
  }

  method RunClaudeRotationLoop(ring: ClaudeTokens, trigger: Reason, message: Option<int>, w: World, k: nat, time: nat)
    returns (outcome: Outcome, tried: seq<nat>)
    requires ring.Valid() && k <= |w.answers|
    modifies ring
    ensures ring.Valid() && Run(outcome, tried, ring.View())
            == ClaudeRun(old(ring.View()), trigger, message, {}, w, k, time)
  {
    hide ClaudeRound, ClaudeTried, Reselect, EvaluateClaude, Run.After;
    var current, last, t, next := trigger, message, time, k;
    var refreshed: set<nat> := {};
    tried := [];
    ghost var whole := ClaudeRun(ring.View(), current, last, refreshed, w, next, t);
    TriedFirst(whole);
    while ShouldRotateClaude(current)
      invariant ring.Valid() && next <= |w.answers|
      invariant whole == ClaudeRun(ring.View(), current, last, refreshed, w, next, t).After(tried)
      decreases |w.answers| - next
    {
      var goes, index;
      refreshed, t, goes := PrepareClaudeRound(ring, current, last, refreshed, w, t);
      if !goes { break; }
      outcome, index := RunClaudeAttempt(ring, w, next, t);
      if next == |w.answers| || !outcome.Again? {
        Ends(outcome, tried, index, ring.View());
        return outcome, tried + [index];
      }
      current, last, next, t := outcome.reason, outcome.retryAt, next + 1, t + 1;
      TriedOn(ClaudeRun(ring.View(), current, last, refreshed, w, next, t), tried, index);
      tried := tried + [index];
    }
    outcome := Failure(Some(current));
    GivesUp(outcome, tried, ring.View());
  }

  lemma Ends(outcome: Outcome, before: seq<nat>, index: nat, r: Ring)
    ensures Run(outcome, [index], r).After(before) == Run(outcome, before + [index], r)
  {
  }

  lemma GivesUp(outcome: Outcome, before: seq<nat>, r: Ring)
    ensures Run(outcome, [], r).After(before) == Run(outcome, before, r)
  {
  }

  // ----- the Codex loop -----

  function CodexRun(r: Ring, message: Option<int>, w: World, k: nat, time: nat): (run: Run)
    requires r.Valid() && k <= |w.answers|
    ensures run.ring.Valid() && |run.ring.until| == |r.until|
    decreases |w.answers| - k
  {
    var (r1, rotated) := Rotate(r, CooldownUntil(message, w.clock(time)), w.clock(time + 1));
    if !rotated then Run(Failure(None), [], r1)
    else
      var outcome := Answer(w, k, EvaluateCodex);
      if k < |w.answers| && outcome.Again?
      then CodexRun(r1, outcome.retryAt, w, k + 1, time + 2).After([r1.current])
      else Run(outcome, [r1.current], if outcome.Success? then Healed(r1) else r1)
  }

  method RunCodexRotationLoop(ring: CodexAccounts, message: Option<int>, w: World, k: nat, time: nat)
    returns (outcome: Outcome, tried: seq<nat>)
    requires ring.Valid() && k <= |w.answers|
    modifies ring
    ensures ring.Valid() && Run(outcome, tried, ring.View()) == CodexRun(old(ring.View()), message, w, k, time)
  {
    hide Rotate, Healed, EvaluateCodex, CooldownUntil, Run.After;
    var last, t, next := message, time, k;
    tried := [];
    ghost var whole := CodexRun(ring.View(), last, w, next, t);
    TriedFirst(whole);
    while true
      invariant ring.Valid() && next <= |w.answers|
      invariant whole == CodexRun(ring.View(), last, w, next, t).After(tried)
      decreases |w.answers| - next
    {
      var rotated := ring.RotateCodexToken(last, w.clock(t), w.clock(t + 1));
      if !rotated { break; }
      var index := ring.current;
      outcome := Answer(w, next, EvaluateCodex);
      if outcome.Success? { ring.MarkCodexTokenHealthy(); }
      if next == |w.answers| || !outcome.Again? {
        Ends(outcome, tried, index, ring.View());
        return outcome, tried + [index];
      }
      last, next, t := outcome.retryAt, next + 1, t + 2;
      TriedOn(CodexRun(ring.View(), last, w, next, t), tried, index);
      tried := tried + [index];
    }
    outcome := Failure(None);
    GivesUp(outcome, tried, ring.View());
  }
}
