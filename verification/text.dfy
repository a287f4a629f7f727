/**
 * The two `java.lang.String` operations the template renderer relies on:
 * `indexOf` (leftmost occurrence) and `replace` (replace every
 * non-overlapping occurrence, scanning left to right).
 */
module Text {
  import opened Wrappers

  /** `t` occurs in `s` starting at position `i`. */
  predicate OccursAt(s: string, t: string, i: nat) {
    i + |t| <= |s| && s[i..i + |t|] == t
  }

  /** `t` occurs somewhere in `s`. */
  predicate Contains(s: string, t: string) {
    exists i: nat :: i <= |s| && OccursAt(s, t, i)
  }

  /** The leftmost occurrence of `t` in `s` at or after `from`, like `s.indexOf(t, from)`. */
  function IndexOf(s: string, t: string, from: nat): (r: Option<nat>)
    decreases |s| - from
    ensures r.Some? ==> from <= r.value && OccursAt(s, t, r.value)
    ensures forall j: nat :: from <= j && (r.None? || j < r.value) ==> !OccursAt(s, t, j)
  {
    if from + |t| > |s| then None
    else if OccursAt(s, t, from) then Some(from)
    else IndexOf(s, t, from + 1)
  }

  /**
   * `s.replace(t, r)`: every occurrence of `t` found scanning from the left,
   * restarting just after each replaced occurrence, becomes `r`. Replacing
   * `t` by itself changes nothing, and a replacement as long as `t` keeps
   * the length of `s`.
   */
  function ReplaceAll(s: string, t: string, r: string): (result: string)
    requires |t| > 0
    ensures r == t ==> result == s
    ensures |r| == |t| ==> |result| == |s|
    decreases |s|
  {
    if |s| < |t| then s
    else if s[..|t|] == t then
      var rest := ReplaceAll(s[|t|..], t, r);
      assert s[..|t|] + s[|t|..] == s;
      r + rest
    else
      var rest := ReplaceAll(s[1..], t, r);
      assert [s[0]] + s[1..] == s;
      [s[0]] + rest
  }

  /** An occurrence in the tail of `s` is an occurrence in `s` one position later. */
  lemma OccursAtShift(s: string, t: string, j: nat)
    requires |s| > 0
    ensures OccursAt(s[1..], t, j) <==> OccursAt(s, t, j + 1)
  {
    if j + 1 + |t| <= |s| {
      assert s[1..][j..j + |t|] == s[j + 1..j + 1 + |t|];
    }
  }

  /** When no occurrence starts at the first position, the first character is copied. */
  lemma ReplaceAllCopiesFirst(s: string, t: string, r: string)
    requires |t| > 0 && |s| > 0 && !OccursAt(s, t, 0)
    ensures ReplaceAll(s, t, r) == [s[0]] + ReplaceAll(s[1..], t, r)
  {
    if |s| < |t| {
      assert ReplaceAll(s[1..], t, r) == s[1..];
      assert [s[0]] + s[1..] == s;
    }
  }

  /** Text before the first `i` positions, none of which starts an occurrence, is copied unchanged. */
  lemma {:induction false} ReplaceAllCopiesPrefix(s: string, t: string, r: string, i: nat)
    requires |t| > 0 && i <= |s|
    requires forall j: nat :: j < i ==> !OccursAt(s, t, j)
    ensures ReplaceAll(s, t, r) == s[..i] + ReplaceAll(s[i..], t, r)
  {
    if i > 0 {
      var s' := s[1..];
      ReplaceAllCopiesFirst(s, t, r);
      forall j: nat | j < i - 1 ensures !OccursAt(s', t, j) {
        OccursAtShift(s, t, j);
      }
      ReplaceAllCopiesPrefix(s', t, r, i - 1);
      assert s'[i - 1..] == s[i..];
      assert [s[0]] + s'[..i - 1] == s[..i];
    }
  }

  /**
   * `replace` is the left-to-right scan: nothing changes when `t` does not
   * occur, and otherwise the text before the leftmost occurrence is kept, the
   * occurrence becomes `r`, and the scan resumes right after it.
   */
  lemma ReplaceAllLeftmost(s: string, t: string, r: string)
    requires |t| > 0
    ensures IndexOf(s, t, 0).None? ==> ReplaceAll(s, t, r) == s
    ensures IndexOf(s, t, 0).Some? ==>
      var i := IndexOf(s, t, 0).value;
      ReplaceAll(s, t, r) == s[..i] + r + ReplaceAll(s[i + |t|..], t, r)
  {
    match IndexOf(s, t, 0)
    case None =>
      ReplaceAllAbsent(s, t, r);
    case Some(i) =>
      ReplaceAllFirstAt(s, t, r, i);
  }

  /** An occurrence with none before it is the first one replaced. */
  lemma ReplaceAllFirstAt(s: string, t: string, r: string, i: nat)
    requires |t| > 0 && OccursAt(s, t, i)
    requires forall j: nat :: j < i ==> !OccursAt(s, t, j)
    ensures ReplaceAll(s, t, r) == s[..i] + r + ReplaceAll(s[i + |t|..], t, r)
  {
    ReplaceAllCopiesPrefix(s, t, r, i);
    var rest := s[i..];
    assert rest[..|t|] == s[i..i + |t|] && rest[|t|..] == s[i + |t|..];
    ReplaceAllAtStart(rest, t, r);
  }

  /** An occurrence at the very start is replaced and the scan resumes after it. */
  lemma ReplaceAllAtStart(s: string, t: string, r: string)
    requires |t| > 0 && OccursAt(s, t, 0)
    ensures ReplaceAll(s, t, r) == r + ReplaceAll(s[|t|..], t, r)
  {
  }

  /** When `t` does not occur in `s`, `replace` returns `s` unchanged. */
  lemma ReplaceAllAbsent(s: string, t: string, r: string)
    requires |t| > 0 && !Contains(s, t)
    ensures ReplaceAll(s, t, r) == s
  {
    ReplaceAllCopiesPrefix(s, t, r, |s|);
    assert s[..|s|] == s;
  }
}
