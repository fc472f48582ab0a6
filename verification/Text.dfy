/**
 * The JavaScript string operations the core relies on, written out:
 * `String.prototype.trim`, the blank test `!s.trim()`, and
 * `Array.prototype.join` together with the layout of its result.
 */
module Text {

  /**
   * The code points ECMAScript's `trim` removes: the WhiteSpace
   * characters (tab, vertical tab, form feed, space, no-break space,
   * byte order mark and the Zs space separators) and the
   * LineTerminator characters.
   */
  predicate IsJsWhitespace(c: char) {
    || c == '\t' || c == '\n' || c == '\U{B}' || c == '\U{C}' || c == '\r'
    || c == ' ' || c == '\U{A0}' || c == '\U{1680}'
    || ('\U{2000}' <= c <= '\U{200A}')
    || c == '\U{2028}' || c == '\U{2029}' || c == '\U{202F}' || c == '\U{205F}'
    || c == '\U{3000}' || c == '\U{FEFF}'
  }

  /** The index of the first non-white-space character of `s` at or after `from`, or `|s|`. */
  function SkipLeading(s: string, from: nat): (k: nat)
    requires from <= |s|
    ensures from <= k <= |s|
    ensures forall i :: from <= i < k ==> IsJsWhitespace(s[i])
    ensures k < |s| ==> !IsJsWhitespace(s[k])
    decreases |s| - from
  {
    if from < |s| && IsJsWhitespace(s[from]) then SkipLeading(s, from + 1) else from
  }

  /** One past the last non-white-space character of `s` in `s[lo..upTo]`, or `lo`. */
  function SkipTrailing(s: string, lo: nat, upTo: nat): (k: nat)
    requires lo <= upTo <= |s|
    ensures lo <= k <= upTo
    ensures forall i :: k <= i < upTo ==> IsJsWhitespace(s[i])
    ensures k > lo ==> !IsJsWhitespace(s[k - 1])
  {
    if upTo > lo && IsJsWhitespace(s[upTo - 1]) then SkipTrailing(s, lo, upTo - 1) else upTo
  }

  /**
   * `r` is the part of `s` starting at `lo`, and everything of `s` before
   * and after it is white space.
   */
  predicate TrimmedAt(s: string, r: string, lo: int) {
    && 0 <= lo <= |s| - |r| && r == s[lo..lo + |r|]
    && (forall i :: 0 <= i < lo ==> IsJsWhitespace(s[i]))
    && (forall i :: lo + |r| <= i < |s| ==> IsJsWhitespace(s[i]))
  }

  /**
   * `s.trim()`: the contiguous part of `s` left after dropping white
   * space at both ends. It is empty exactly when `s` is all white space,
   * and otherwise starts and ends with a non-white-space character.
   */
  function Trim(s: string): (r: string)
    ensures r == [] <==> forall i :: 0 <= i < |s| ==> IsJsWhitespace(s[i])
    ensures r != [] ==> !IsJsWhitespace(r[0]) && !IsJsWhitespace(r[|r| - 1])
    ensures exists lo :: TrimmedAt(s, r, lo)
  {
    var lo := SkipLeading(s, 0);
    var hi := SkipTrailing(s, lo, |s|);
    assert TrimmedAt(s, s[lo..hi], lo);
    s[lo..hi]
  }

  /** Trimming twice is trimming once. */
  lemma TrimTwice(s: string)
    ensures Trim(Trim(s)) == Trim(s)
  {
    var r := Trim(s);
    if r != [] {
      assert SkipLeading(r, 0) == 0;
      assert SkipTrailing(r, 0, |r|) == |r|;
    }
  }

  /** The JavaScript truthiness test `!s.trim()`: nothing but white space. */
  predicate IsBlank(s: string)
    ensures IsBlank(s) <==> forall i :: 0 <= i < |s| ==> IsJsWhitespace(s[i])
  {
    Trim(s) == []
  }

  /** `parts.join(sep)`. */
  function Join(sep: string, parts: seq<string>): string {
    if |parts| == 0 then ""
    else if |parts| == 1 then parts[0]
    else Join(sep, parts[..|parts| - 1]) + sep + parts[|parts| - 1]
  }

  /** Where `parts[k]` starts in `Join(sep, parts)`. */
  function Offset(sep: string, parts: seq<string>, k: nat): nat
    requires k <= |parts|
  {
    if k == 0 then 0 else Offset(sep, parts, k - 1) + |parts[k - 1]| + |sep|
  }

  /** The summed length of `parts`. */
  function TotalLength(parts: seq<string>): nat {
    if |parts| == 0 then 0 else TotalLength(parts[..|parts| - 1]) + |parts[|parts| - 1]|
  }

  /** `part` is found in `s` starting at index `at`. */
  predicate OccursAt(s: string, part: string, at: int) {
    0 <= at && at + |part| <= |s| && s[at..at + |part|] == part
  }

  lemma {:induction false} OffsetOfPrefix(sep: string, parts: seq<string>, n: nat, k: nat)
    requires k <= n <= |parts|
    ensures Offset(sep, parts[..n], k) == Offset(sep, parts, k)
  {
    if k > 0 {
      OffsetOfPrefix(sep, parts, n, k - 1);
    }
  }

  /** Joining no parts gives the empty string; otherwise the result ends where its last part ends. */
  lemma {:induction false} JoinLength(sep: string, parts: seq<string>)
    ensures |parts| == 0 ==> Join(sep, parts) == ""
    ensures |parts| > 0 ==> |Join(sep, parts)| == Offset(sep, parts, |parts| - 1) + |parts[|parts| - 1]|
  {
    var n := |parts|;
    if n > 1 {
      var init := parts[..n - 1];
      JoinLength(sep, init);
      OffsetOfPrefix(sep, parts, n - 1, n - 2);
    }
  }

  /**
   * The layout of `parts.join(sep)`: each part appears verbatim at its
   * offset, in list order, and each is followed by the separator except
   * the last. Together with JoinLength this accounts for every character.
   */
  lemma JoinLayout(sep: string, parts: seq<string>, k: nat)
    requires k < |parts|
    ensures OccursAt(Join(sep, parts), parts[k], Offset(sep, parts, k))
    ensures k + 1 < |parts| ==> OccursAt(Join(sep, parts), sep, Offset(sep, parts, k) + |parts[k]|)
  {
    PartAt(sep, parts, k);
    if k + 1 < |parts| {
      SeparatorAt(sep, parts, k);
    }
  }

  /** Where the last part of a joined list of two or more starts. */
  lemma LastPartStart(sep: string, parts: seq<string>)
    requires |parts| > 1
    ensures |Join(sep, parts[..|parts| - 1]) + sep| == Offset(sep, parts, |parts| - 1)
  {
    var n := |parts|;
    JoinLength(sep, parts[..n - 1]);
    OffsetOfPrefix(sep, parts, n - 1, n - 2);
  }

  lemma {:induction false} PartAt(sep: string, parts: seq<string>, k: nat)
    requires k < |parts|
    ensures OccursAt(Join(sep, parts), parts[k], Offset(sep, parts, k))
  {
    var n := |parts|;
    if n > 1 {
      var init := parts[..n - 1];
      var ji := Join(sep, init);
      var last := parts[n - 1];
      if k < n - 1 {
        PartAt(sep, init, k);
        OffsetOfPrefix(sep, parts, n - 1, k);
        OccursInPrefix(ji, sep, parts[k], Offset(sep, parts, k));
        OccursInPrefix(ji + sep, last, parts[k], Offset(sep, parts, k));
      } else {
        LastPartStart(sep, parts);
        OccursInSuffix(ji + sep, last, last, 0);
      }
    }
  }

  lemma {:induction false} SeparatorAt(sep: string, parts: seq<string>, k: nat)
    requires k + 1 < |parts|
    ensures OccursAt(Join(sep, parts), sep, Offset(sep, parts, k) + |parts[k]|)
  {
    var n := |parts|;
    var init := parts[..n - 1];
    var ji := Join(sep, init);
    var last := parts[n - 1];
    if k + 1 < n - 1 {
      SeparatorAt(sep, init, k);
      OffsetOfPrefix(sep, parts, n - 1, k);
      OccursInPrefix(ji, sep, sep, Offset(sep, parts, k) + |parts[k]|);
      OccursInPrefix(ji + sep, last, sep, Offset(sep, parts, k) + |parts[k]|);
    } else {
      LastPartStart(sep, parts);
      PieceAt(ji, sep, last);
    }
  }

  /** A piece between two others occurs right after the first. */
  lemma PieceAt(a: string, piece: string, b: string)
    ensures OccursAt(a + piece + b, piece, |a|)
  {
    assert (a + piece + b)[|a|..|a| + |piece|] == piece;
  }

  lemma OccursInPrefix(a: string, b: string, part: string, at: int)
    requires OccursAt(a, part, at)
    ensures OccursAt(a + b, part, at)
  {
    assert (a + b)[at..at + |part|] == a[at..at + |part|];
  }

  lemma OccursInSuffix(a: string, b: string, part: string, at: int)
    requires OccursAt(b, part, at)
    ensures OccursAt(a + b, part, |a| + at)
  {
    assert (a + b)[|a| + at..|a| + at + |part|] == b[at..at + |part|];
  }

  /** Joining never drops characters: the result is at least as long as its parts together. */
  lemma {:induction false} JoinKeepsEverything(sep: string, parts: seq<string>)
    ensures |Join(sep, parts)| >= TotalLength(parts)
  {
    var n := |parts|;
    if n > 1 {
      var init := parts[..n - 1];
      JoinKeepsEverything(sep, init);
    }
  }

  /**
   * The layout of a join found inside a string: part `k` of `inner`,
   * where `inner` joined by `innerSep` occurs in `s` at `base`.
   */
  lemma JoinNested(s: string, base: int, innerSep: string, inner: seq<string>, k: nat)
    requires k < |inner| && OccursAt(s, Join(innerSep, inner), base)
    ensures var at := base + Offset(innerSep, inner, k);
            && OccursAt(s, inner[k], at)
            && (k + 1 < |inner| ==> OccursAt(s, innerSep, at + |inner[k]|))
  {
    JoinLayout(innerSep, inner, k);
    NestedOccurrences(s, Join(innerSep, inner), base, inner[k], innerSep, Offset(innerSep, inner, k), k + 1 < |inner|);
  }

  /** A part and, when `followed`, the separator after it, found inside a piece found inside `s`. */
  lemma NestedOccurrences(s: string, mid: string, base: int, part: string, sep: string, at: int, followed: bool)
    requires OccursAt(s, mid, base) && OccursAt(mid, part, at)
    requires followed ==> OccursAt(mid, sep, at + |part|)
    ensures OccursAt(s, part, base + at)
    ensures followed ==> OccursAt(s, sep, base + at + |part|)
  {
    OccursWithin(s, mid, base, part, at);
    if followed {
      OccursWithin(s, mid, base, sep, at + |part|);
    }
  }

  /** An occurrence inside an occurrence. */
  lemma OccursWithin(s: string, mid: string, at: int, part: string, at2: int)
    requires OccursAt(s, mid, at) && OccursAt(mid, part, at2)
    ensures OccursAt(s, part, at + at2)
  {
    forall i | 0 <= i < |part|
      ensures s[at + at2 + i] == part[i]
    {
      assert part[i] == mid[at2 + i] == s[at + at2 + i];
    }
  }
}
