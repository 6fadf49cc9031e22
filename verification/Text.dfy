/** The few operations on character sequences the source borrows from
    JavaScript strings, each with the property that pins it down. */
module Text {
  import opened Common

  /** `p` is found in `s` at position `i`. */
  predicate OccursAt(s: string, p: string, i: int) {
    0 <= i && i + |p| <= |s| && s[i..i + |p|] == p
  }

  predicate Contains(s: string, p: string) {
    exists i :: 0 <= i <= |s| && OccursAt(s, p, i)
  }

  /** `i` is the first occurrence of `p` at or after `from`. */
  predicate IsFirst(s: string, p: string, from: nat, i: int) {
    && from <= i && OccursAt(s, p, i)
    && forall j :: from <= j < i ==> !OccursAt(s, p, j)
  }

  /** `s.indexOf(p, from)`: the first occurrence at or after `from`. */
  function IndexOf(s: string, p: string, from: nat): (r: Option<nat>)
    ensures r.Some? ==> r.value + |p| <= |s| && IsFirst(s, p, from, r.value)
    ensures r.None? ==> forall j :: from <= j ==> !OccursAt(s, p, j)
  {
    FirstExists(s, p, from);
    if i: nat :| i <= |s| && IsFirst(s, p, from, i) then Some(i) else None
  }

  lemma {:induction false} FirstExists(s: string, p: string, from: nat)
    ensures (forall j :: from <= j ==> !OccursAt(s, p, j)) || exists i: nat :: i <= |s| && IsFirst(s, p, from, i)
    decreases |s| - from
  {
    if from + |p| <= |s| {
      if OccursAt(s, p, from) {
        assert IsFirst(s, p, from, from);
      } else {
        var next := from + 1;
        FirstExists(s, p, next);
        if i: nat :| i <= |s| && IsFirst(s, p, next, i) {
          assert IsFirst(s, p, from, i);
        }
      }
    }
  }

  /** `s.slice(lo, hi)` for non-negative bounds: empty when they cross. */
  function Slice(s: string, lo: nat, hi: nat): (r: string) {
    if hi <= lo || |s| <= lo then "" else s[lo..Min(hi, |s|)]
  }

  /** White space as `String.prototype.trim` understands it. */
  predicate IsSpace(c: char) {
    var u := c as int;
    || 0x09 <= u <= 0x0D || u == 0x20 || u == 0xA0 || u == 0x1680
    || 0x2000 <= u <= 0x200A || u == 0x2028 || u == 0x2029 || u == 0x202F
    || u == 0x205F || u == 0x3000 || u == 0xFEFF
  }

  function TrimLeft(s: string): string {
    if s != "" && IsSpace(s[0]) then TrimLeft(s[1..]) else s
  }

  function TrimRight(s: string): string {
    if s != "" && IsSpace(s[|s| - 1]) then TrimRight(s[..|s| - 1]) else s
  }

  function Trim(s: string): string { TrimRight(TrimLeft(s)) }

  /** An occurrence inside a prefix is an occurrence in the whole. */
  lemma OccursInExtension(a: string, b: string, p: string, i: int)
    ensures OccursAt(a, p, i) ==> OccursAt(a + b, p, i)
    ensures i + |p| <= |a| ==> (OccursAt(a, p, i) <==> OccursAt(a + b, p, i))
  {
    if 0 <= i && i + |p| <= |a| {
      assert (a + b)[i..i + |p|] == a[i..i + |p|];
    }
  }

  /** A pattern with a character that `s` lacks does not occur in `s`. */
  lemma AbsentCharacter(s: string, p: string, k: nat)
    requires k < |p| && p[k] !in s
    ensures !Contains(s, p)
  {
    forall i | 0 <= i <= |s| ensures !OccursAt(s, p, i) {
      if i + |p| <= |s| {
        assert s[i..i + |p|][k] in s;
      }
    }
  }

  /** Text in front shifts every occurrence by its length. */
  lemma OccursShifted(pre: string, s: string, p: string, i: nat)
    ensures OccursAt(pre + s, p, |pre| + i) <==> OccursAt(s, p, i)
  {
    if i + |p| <= |s| {
      assert (pre + s)[|pre| + i..|pre| + i + |p|] == s[i..i + |p|];
    }
  }

  /** A marker found in a prefix is found at the same place in the whole. */
  lemma IndexOfExtension(a: string, b: string, p: string, from: nat)
    requires IndexOf(a, p, from).Some?
    ensures IndexOf(a + b, p, from) == IndexOf(a, p, from)
  {
    var i := IndexOf(a, p, from).value;
    forall j | from <= j <= i ensures OccursAt(a, p, j) <==> OccursAt(a + b, p, j) {
      OccursInExtension(a, b, p, j);
    }
    IndexOfIs(a + b, p, from, i);
  }

  /** The first occurrence is the only position with its two properties. */
  lemma IndexOfIs(s: string, p: string, from: nat, i: nat)
    requires IsFirst(s, p, from, i)
    ensures IndexOf(s, p, from) == Some(i)
  {
    assert IndexOf(s, p, from).Some?;
    var k := IndexOf(s, p, from).value;
    assert !(k < i) && !(i < k);
  }

  /** So the first occurrence is shifted by its length too. */
  lemma IndexOfShifted(pre: string, s: string, p: string, from: nat)
    ensures IndexOf(pre + s, p, |pre| + from)
            == match IndexOf(s, p, from) case None => None case Some(i) => Some(|pre| + i)
  {
    hide IndexOf;
    match IndexOf(s, p, from)
    case None =>
      forall j | |pre| + from <= j ensures !OccursAt(pre + s, p, j) {
        OccursShifted(pre, s, p, j - |pre|);
      }
    case Some(i) =>
      forall j | |pre| + from <= j < |pre| + i ensures !OccursAt(pre + s, p, j) {
        OccursShifted(pre, s, p, j - |pre|);
      }
      OccursShifted(pre, s, p, i);
      IndexOfIs(pre + s, p, |pre| + from, |pre| + i);
  }

  /** And so are slices. */
  lemma SliceShifted(pre: string, s: string, lo: nat, hi: nat)
    ensures Slice(pre + s, |pre| + lo, |pre| + hi) == Slice(s, lo, hi)
    ensures lo <= |s| ==> (pre + s)[|pre| + lo..] == s[lo..]
  {
  }

  lemma {:induction false} TrimLeftNewline(p: string)
    ensures TrimLeft(p + "\n") == if TrimLeft(p) == "" then "" else TrimLeft(p) + "\n"
  {
    if p == "" {
      assert p + "\n" == "\n";
      assert TrimLeft("\n") == TrimLeft("\n"[1..]) == "";
    } else if IsSpace(p[0]) {
      assert (p + "\n")[1..] == p[1..] + "\n";
      TrimLeftNewline(p[1..]);
    }
  }

  /** Surrounding newlines disappear. */
  lemma TrimNewlines(p: string)
    ensures Trim("\n" + p + "\n") == Trim(p)
  {
    var s := "\n" + p + "\n";
    assert s[1..] == p + "\n";
    assert TrimLeft(s) == TrimLeft(p + "\n");
    TrimLeftNewline(p);
    var q := TrimLeft(p);
    if q != "" {
      assert (q + "\n")[..|q + "\n"| - 1] == q;
      assert TrimRight(q + "\n") == TrimRight(q);
    }
  }

  lemma TrimNewlineBefore(p: string)
    ensures Trim("\n" + p) == Trim(p)
  {
    assert ("\n" + p)[1..] == p;
  }

  /** Trimming stops at the last character that is no space. */
  lemma {:induction false} TrimRightStops(p: string, k: nat)
    requires k < |p| && !IsSpace(p[k])
    ensures |TrimRight(p)| > k
  {
    if IsSpace(p[|p| - 1]) {
      TrimRightStops(p[..|p| - 1], k);
    }
  }

  lemma {:induction false} TrimRightShortens(p: string)
    ensures |TrimRight(p)| <= |p|
  {
    if p != "" && IsSpace(p[|p| - 1]) {
      TrimRightShortens(p[..|p| - 1]);
    }
  }

  /** What is cut off in front of a character that is no space stays shorter. */
  lemma {:induction false} TrimShorter(p: string, k: nat)
    requires k < |p| && !IsSpace(p[k])
    ensures |Trim(p[..k])| < |Trim(p)|
  {
    if k == 0 {
      assert p[..0] == "";
      TrimRightStops(p, 0);
    } else if IsSpace(p[0]) {
      TrimShorter(p[1..], k - 1);
      assert p[..k][1..] == p[1..][..k - 1];
    } else {
      TrimRightShortens(p[..k]);
      TrimRightStops(p, k);
    }
  }
}
