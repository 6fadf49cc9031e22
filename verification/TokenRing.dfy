/** The credential rings: cooldowns, the search for the next usable entry, and
    the Claude tokens. */
module TokenRing {
  import opened Common

  const BUFFER_MS := 180000
  const DEFAULT_COOLDOWN_MS := 3600000

  /** `retryAt` is the time read from the error message; 0 reads as no time. */
  function CooldownUntil(retryAt: Option<int>, now: int): int {
    if retryAt.Some? && retryAt.value != 0 then retryAt.value + BUFFER_MS else now + DEFAULT_COOLDOWN_MS
  }

  predicate Cooled(until: Option<int>, now: int) {
    until.Some? && until.value != 0 && until.value > now
  }

  // ----- going round -----

  function Step(start: nat, i: nat, n: nat): (j: nat)
    requires start < n && i <= n
    ensures j < n
  {
    if start + i < n then start + i else start + i - n
  }

  lemma StepIsModulo(start: nat, i: nat, n: nat)
    requires start < n && i <= n
    ensures Step(start, i, n) == (start + i) % n
  {
    var q := (start + i) / n;
    assert start + i == q * n + (start + i) % n;
    assert q >= 2 ==> q * n >= 2 * n;
    assert q == 0 || q == 1;
  }

  /** `currentIndex % tokens.length` */
  function WithinRing(current: nat, n: nat): (index: nat)
    requires current < n
    ensures index == current
  {
    StepIsModulo(current, 0, n);
    current % n
  }

  /** How many steps from `start` to `j`. */
  function Distance(start: nat, j: nat, n: nat): (d: nat)
    requires start < n && j < n
    ensures d < n && Step(start, d, n) == j
    ensures d == 0 <==> j == start
  {
    if j >= start then j - start else j + n - start
  }

  /** `next` is the first usable entry met on the way round from `start`, which
      itself does not count. */
  predicate FirstAfter(usable: seq<bool>, start: nat, next: Option<nat>)
    requires start < |usable|
  {
    match next
    case None => forall j :: 0 <= j < |usable| && j != start ==> !usable[j]
    case Some(k) =>
      && k < |usable| && k != start && usable[k]
      && forall j :: 0 <= j < |usable| && j != start && usable[j] ==>
           Distance(start, k, |usable|) <= Distance(start, j, |usable|)
  }

  lemma FirstIsUnique(usable: seq<bool>, start: nat, a: Option<nat>, b: Option<nat>)
    requires start < |usable| && FirstAfter(usable, start, a) && FirstAfter(usable, start, b)
    ensures a == b
  {
    if a.Some? && b.Some? {
      assert Distance(start, a.value, |usable|) == Distance(start, b.value, |usable|);
    }
  }

  /** That entry, looked for from `i` steps on. */
  function FirstFrom(usable: seq<bool>, start: nat, i: nat): (next: Option<nat>)
    requires start < |usable| && 1 <= i <= |usable|
    ensures (forall j :: 0 <= j < |usable| && 0 < Distance(start, j, |usable|) < i ==> !usable[j]) ==>
              FirstAfter(usable, start, next)
    decreases |usable| - i
  {
    if i == |usable| then None
    else if usable[Step(start, i, |usable|)] then Some(Step(start, i, |usable|))
    else FirstFrom(usable, start, i + 1)
  }

  function FirstUsable(usable: seq<bool>, start: nat): (next: Option<nat>)
    requires start < |usable|
    ensures FirstAfter(usable, start, next)
  {
    FirstFrom(usable, start, 1)
  }

  method FindFirst(usable: seq<bool>, start: nat) returns (next: Option<nat>)
    requires start < |usable|
    ensures next == FirstUsable(usable, start) && FirstAfter(usable, start, next)
  {
    var n := |usable|;
    var i := 1;
    while i < n
      invariant 1 <= i <= n
      invariant FirstFrom(usable, start, 1) == FirstFrom(usable, start, i)
    {
      StepIsModulo(start, i, n);
      var idx := (start + i) % n;
      if usable[idx] { return Some(idx); }
      i := i + 1;
    }
    return None;
  }

  function Uncooled(until: seq<Option<int>>, now: int): (usable: seq<bool>)
    ensures |usable| == |until|
  {
    seq(|until|, i requires 0 <= i < |until| => !Cooled(until[i], now))
  }

  // ----- rings as values -----

  datatype Ring = Ring(until: seq<Option<int>>, current: nat)
  {
    predicate Valid() { until != [] ==> current < |until| }

    predicate Usable(i: nat, now: int) { i < |until| && !Cooled(until[i], now) }
  }

  /** Cool the current entry and move to the next usable one, if there is one. */
  function Rotate(r: Ring, cooldown: int, now: int): (x: (Ring, bool))
    requires r.Valid()
    ensures x.0.Valid() && |x.0.until| == |r.until|
  {
    if |r.until| <= 1 then (r, false)
    else
      var marked := r.until[r.current := Some(cooldown)];
      match FirstUsable(Uncooled(marked, now), r.current)
      case None => (Ring(marked, r.current), false)
      case Some(k) => (Ring(marked[k := None], k), true)
  }

  /** A rotation succeeds exactly if some other entry is usable, and then goes to
      the first of them. */
  lemma RotatesExactly(r: Ring, cooldown: int, now: int)
    requires r.Valid()
    ensures Rotate(r, cooldown, now).1 <==> exists j :: r.Usable(j, now) && j != r.current
    ensures var (r', rotated) := Rotate(r, cooldown, now);
            rotated ==>
              && FirstAfter(Uncooled(r.until[r.current := Some(cooldown)], now), r.current, Some(r'.current))
              && r.Usable(r'.current, now) && r'.current != r.current
              && r'.until == r.until[r.current := Some(cooldown)][r'.current := None]
  {
    if |r.until| > 1 {
      var usable := Uncooled(r.until[r.current := Some(cooldown)], now);
      assert forall j: nat :: j != r.current && j < |r.until| ==> usable[j] == r.Usable(j, now);
    }
  }

  function Expired(until: seq<Option<int>>, now: int): (r: seq<Option<int>>)
    ensures |r| == |until|
  {
    seq(|until|, i requires 0 <= i < |until| => if Cooled(until[i], now) || until[i] == Some(0) then until[i] else None)
  }

  function FirstUncooled(until: seq<Option<int>>, now: int, i: nat): (k: Option<nat>)
    requires i <= |until|
    ensures match k
            case None => forall j :: i <= j < |until| ==> Cooled(until[j], now)
            case Some(k) => i <= k < |until| && !Cooled(until[k], now)
                            && forall j :: i <= j < k ==> Cooled(until[j], now)
    decreases |until| - i
  {
    if i == |until| then None else if !Cooled(until[i], now) then Some(i) else FirstUncooled(until, now, i + 1)
  }

  /** Forget expired cooldowns and go to the first entry without one. */
  function Reselect(r: Ring, now: int): (x: Ring)
    requires r.Valid()
    ensures x.Valid() && |x.until| == |r.until|
  {
    if |r.until| <= 1 then r
    else
      var until := Expired(r.until, now);
      match FirstUncooled(until, now, 0)
      case None => Ring(until, r.current)
      case Some(k) => Ring(until, k)
  }

  /** Selecting again lifts no running cooldown, keeps the usable entries usable,
      and never goes from a usable entry to a cooling one. */
  lemma ReselectKeeps(r: Ring, now: int)
    requires r.Valid()
    ensures var x := Reselect(r, now);
            && (forall i :: 0 <= i < |r.until| && Cooled(r.until[i], now) ==> x.until[i] == r.until[i])
            && (forall i: nat :: r.Usable(i, now) <==> x.Usable(i, now))
            && (x.current != r.current ==> x.Usable(x.current, now))
            && (r.Usable(r.current, now) ==> x.Usable(x.current, now))
  {
  }

  /** Selecting again goes to the first usable entry there is, and forgets exactly
      the cooldowns that are over. */
  lemma ReselectPrefersFirst(r: Ring, now: int)
    requires r.Valid() && |r.until| > 1
    ensures var x := Reselect(r, now);
            && (forall i :: 0 <= i < |r.until| ==>
                  x.until[i] == match r.until[i] case None => None
                                                 case Some(t) => if t != 0 && t <= now then None else Some(t))
            && (x.current == r.current || r.Usable(x.current, now))
            && (forall j: nat :: r.Usable(j, now) ==> x.current <= j && r.Usable(x.current, now))
            && ((forall j: nat :: !r.Usable(j, now)) ==> x.current == r.current)
  {
    var x := Reselect(r, now);
    var first := FirstUncooled(Expired(r.until, now), now, 0);
    forall j: nat | r.Usable(j, now)
      ensures x.current <= j && r.Usable(x.current, now)
    {
      assert !Cooled(Expired(r.until, now)[j], now);
    }
  }

  /** An entry rotated away from is usable again exactly three minutes after the time
      the message names, or one hour after now. */
  lemma CoolsFor(r: Ring, retryAt: Option<int>, cooledAt: int, now: int, later: int)
    requires r.Valid() && |r.until| > 1 && cooledAt > 0
    ensures var r' := Rotate(r, CooldownUntil(retryAt, cooledAt), now).0;
            if retryAt.None? || retryAt.value == 0 then r'.Usable(r.current, later) <==> later >= cooledAt + 3600000
            else retryAt.value > 0 ==> (r'.Usable(r.current, later) <==> later >= retryAt.value + 180000)
  {
  }

  /** Clear the current cooldown after a success. */
  function Healed(r: Ring): (x: Ring)
    requires r.Valid()
    ensures x.Valid() && |x.until| == |r.until|
  {
    if r.until != [] && r.until[r.current].Some? && r.until[r.current].value != 0
    then r.(until := r.until[r.current := None]) else r
  }

  /** A success makes the current entry usable and touches no other. */
  lemma HealedIsUsable(r: Ring, now: int)
    requires r.Valid() && r.until != []
    ensures Healed(r).Usable(r.current, now) && Healed(r).current == r.current
    ensures forall i :: 0 <= i < |r.until| && i != r.current ==> Healed(r).until[i] == r.until[i]
  {
  }

  // ----- the Claude tokens -----

  class ClaudeTokens {
    var until: seq<Option<int>>
    var current: nat

    function View(): Ring
      reads this
    {
      Ring(until, current)
    }

    predicate Valid()
      reads this
    {
      View().Valid()
    }

    constructor (count: nat)
      ensures Valid() && View() == Ring(seq(count, _ => None), 0)
    {
      until, current := seq(count, _ => None), 0;
    }

    method RefreshSelection(now: int)
      requires Valid()
      modifies this
      ensures Valid() && View() == Reselect(old(View()), now)
    {
      if |until| <= 1 { return; }
      var i := 0;
      while i < |until|
        invariant i <= |until| == |old(until)| && current == old(current)
        invariant forall k :: 0 <= k < i ==> until[k] == Expired(old(until), now)[k]
        invariant forall k :: i <= k < |until| ==> until[k] == old(until)[k]
      {
        if until[i].Some? && until[i].value != 0 && until[i].value <= now {
          until := until[i := None];
        }
        i := i + 1;
      }
      assert until == Expired(old(until), now);
      var preferred := 0;
      while preferred < |until|
        invariant preferred <= |until|
        invariant FirstUncooled(until, now, 0) == FirstUncooled(until, now, preferred)
      {
        if !Cooled(until[preferred], now) {
          current := preferred;
          return;
        }
        preferred := preferred + 1;
      }
    }

    method GetCurrentTokenIndex(now: int) returns (index: Option<nat>)
      requires Valid()
      modifies this
      ensures Valid() && View() == Reselect(old(View()), now)
      ensures index == if until == [] then None else Some(current)
    {
      if until == [] { return None; }
      RefreshSelection(now);
      return Some(WithinRing(current, |until|));
    }

    method RotateToken(retryAt: Option<int>, cooledAt: int, now: int) returns (rotated: bool)
      requires Valid()
      modifies this
      ensures Valid() && (View(), rotated) == Rotate(old(View()), CooldownUntil(retryAt, cooledAt), now)
    {
      if |until| <= 1 { return false; }
      until := until[current := Some(CooldownUntil(retryAt, cooledAt))];
      var next := FindFirst(Uncooled(until, now), current);
      if next.None? { return false; }
      until := until[next.value := None];
      current := next.value;
      return true;
    }

    method MarkTokenHealthy(now: int)
      requires Valid()
      modifies this
      ensures Valid() && View() == Reselect(Healed(old(View())), now)
    {
      if until == [] { return; }
      if until[current].Some? && until[current].value != 0 {
        until := until[current := None];
      }
      RefreshSelection(now);
    }
  }
}
