/**
 * The string operations the core relies on: `String.prototype.trim` in the
 * browser client, `str.strip` and `str.join` on the Python side.  The two
 * languages disagree on what counts as white space, so each set is written
 * out and the trimming itself is parameterised by it.
 */
module Text {

  /** White space removed by JavaScript's `trim`: WhiteSpace and LineTerminator code points. */
  predicate IsJsSpace(c: char) {
    || c == '\t' || c == '\n' || c == '\U{000B}' || c == '\U{000C}' || c == '\r'
    || c == ' ' || c == '\U{00A0}' || c == '\U{1680}'
    || ('\U{2000}' <= c <= '\U{200A}')
    || c == '\U{2028}' || c == '\U{2029}' || c == '\U{202F}' || c == '\U{205F}'
    || c == '\U{3000}' || c == '\U{FEFF}'
  }

  /** White space removed by Python's `str.strip()` with no argument (`str.isspace`). */
  predicate IsPySpace(c: char) {
    || ('\t' <= c <= '\r')
    || ('\U{001C}' <= c <= '\U{001F}')
    || c == ' ' || c == '\U{0085}' || c == '\U{00A0}' || c == '\U{1680}'
    || ('\U{2000}' <= c <= '\U{200A}')
    || c == '\U{2028}' || c == '\U{2029}' || c == '\U{202F}' || c == '\U{205F}'
    || c == '\U{3000}'
  }

  /** The first index at or after `i` whose character is not white space, or `|s|` if there is none. */
  function SkipForward(s: string, ws: char -> bool, i: nat): (k: nat)
    requires i <= |s|
    ensures i <= k <= |s|
    decreases |s| - i
  {
    if i < |s| && ws(s[i]) then SkipForward(s, ws, i + 1) else i
  }

  /** One past the last index before `j` whose character is not white space, or 0 if there is none. */
  function SkipBackward(s: string, ws: char -> bool, j: nat): (k: nat)
    requires j <= |s|
    ensures k <= j
    decreases j
  {
    if j > 0 && ws(s[j - 1]) then SkipBackward(s, ws, j - 1) else j
  }

  /** Everything `SkipForward` passes over is white space, and it stops at a non-space or the end. */
  lemma {:induction false} SkipForwardSpec(s: string, ws: char -> bool, i: nat)
    requires i <= |s|
    ensures var k := SkipForward(s, ws, i);
      (forall m :: i <= m < k ==> ws(s[m])) && (k == |s| || !ws(s[k]))
    decreases |s| - i
  {
    if i < |s| && ws(s[i]) {
      SkipForwardSpec(s, ws, i + 1);
    }
  }

  /** Everything `SkipBackward` passes over is white space, and it stops after a non-space or at 0. */
  lemma {:induction false} SkipBackwardSpec(s: string, ws: char -> bool, j: nat)
    requires j <= |s|
    ensures var k := SkipBackward(s, ws, j);
      (forall m :: k <= m < j ==> ws(s[m])) && (k == 0 || !ws(s[k - 1]))
    decreases j
  {
    if j > 0 && ws(s[j - 1]) {
      SkipBackwardSpec(s, ws, j - 1);
    }
  }

  /**
   * Both ends trimmed: the slice from the first to the last character that is
   * not white space, or the empty string when there is none (StripSpec).
   */
  function Strip(s: string, ws: char -> bool): string {
    var start, end := SkipForward(s, ws, 0), SkipBackward(s, ws, |s|);
    if start < end then s[start..end] else []
  }

  /**
   * The stripped string is empty exactly when every character of `s` is
   * white space, and otherwise starts and ends with a non-space and is what
   * is left of `s` once the white space at both ends is dropped.
   */
  lemma StripSpec(s: string, ws: char -> bool)
    ensures var r := Strip(s, ws);
      && |r| <= |s|
      && (r == [] <==> forall i :: 0 <= i < |s| ==> ws(s[i]))
      && (r != [] ==> !ws(r[0]) && !ws(r[|r| - 1]))
      && (r != [] ==> exists a, b :: 0 <= a < b <= |s| && r == s[a..b]
                        && (forall i :: 0 <= i < a ==> ws(s[i]))
                        && (forall i :: b <= i < |s| ==> ws(s[i])))
  {
    var start, end := SkipForward(s, ws, 0), SkipBackward(s, ws, |s|);
    SkipForwardSpec(s, ws, 0);
    SkipBackwardSpec(s, ws, |s|);
    if start < end {
      assert s[start..end][0] == s[start];
    }
  }

  /** JavaScript's `!s.trim()`: every character is white space (BlankIsTrimEmpty). */
  predicate Blank(s: string) {
    forall i :: 0 <= i < |s| ==> IsJsSpace(s[i])
  }

  /** `Blank` is exactly the test "trimming leaves the empty string". */
  lemma BlankIsTrimEmpty(s: string)
    ensures Blank(s) <==> Strip(s, IsJsSpace) == []
  {
    StripSpec(s, IsJsSpace);
  }

  /** Python's `s.strip()`. */
  function PyStrip(s: string): string {
    Strip(s, IsPySpace)
  }

  /** Stripping twice is stripping once. */
  lemma {:induction false} StripIdempotent(s: string, ws: char -> bool)
    ensures Strip(Strip(s, ws), ws) == Strip(s, ws)
  {
    var r := Strip(s, ws);
    StripSpec(s, ws);
    if r != [] {
      assert SkipForward(r, ws, 0) == 0;
      assert SkipBackward(r, ws, |r|) == |r|;
      assert r[0..|r|] == r;
    }
  }

  /** Python's `sep.join(parts)`: the parts in order with `sep` between neighbours. */
  function Join(sep: string, parts: seq<string>): string {
    if parts == [] then "" else JoinRange(sep, parts, 0, |parts|)
  }

  /** `sep.join(parts[lo:hi])` for a range that holds at least one part. */
  function JoinRange(sep: string, parts: seq<string>, lo: nat, hi: nat): string
    requires lo < hi <= |parts|
    decreases hi - lo
  {
    if lo == hi - 1 then parts[lo] else parts[lo] + sep + JoinRange(sep, parts, lo + 1, hi)
  }

  /** Sum of the lengths of the parts from index `lo` up to `hi`. */
  function TotalLength(parts: seq<string>, lo: nat, hi: nat): nat
    requires lo <= hi <= |parts|
    decreases hi - lo
  {
    if lo == hi then 0 else |parts[lo]| + TotalLength(parts, lo + 1, hi)
  }

  /** A join is as long as its parts plus one separator between each pair of neighbours. */
  lemma {:induction false} JoinLength(sep: string, parts: seq<string>, lo: nat, hi: nat)
    requires lo < hi <= |parts|
    ensures |JoinRange(sep, parts, lo, hi)| == TotalLength(parts, lo, hi) + |sep| * (hi - 1 - lo)
    decreases hi - lo
  {
    if lo < hi - 1 {
      JoinLength(sep, parts, lo + 1, hi);
    }
  }

  /** Joining a range is joining the slice it delimits. */
  lemma {:induction false} JoinRangeSlice(sep: string, parts: seq<string>, lo: nat, k: nat, hi: nat)
    requires lo + k < hi <= |parts|
    ensures JoinRange(sep, parts, lo + k, hi) == JoinRange(sep, parts[lo..hi], k, hi - lo)
    decreases hi - lo - k
  {
    assert parts[lo..hi][k] == parts[lo + k];
    if lo + k < hi - 1 {
      JoinRangeSlice(sep, parts, lo, k + 1, hi);
    }
  }

  /** Joining the range of `a + b` that lies inside `b` is joining the same range of `b`. */
  lemma {:induction false} JoinRangeRight(sep: string, a: seq<string>, b: seq<string>, k: nat)
    requires k < |b|
    ensures JoinRange(sep, a + b, |a| + k, |a| + |b|) == JoinRange(sep, b, k, |b|)
    decreases |b| - k
  {
    if k < |b| - 1 {
      JoinRangeRight(sep, a, b, k + 1);
    }
  }

  /** Joining from inside `a` runs on into `b` with one separator at the seam. */
  lemma {:induction false} JoinRangeLeft(sep: string, a: seq<string>, b: seq<string>, i: nat)
    requires i < |a| && b != []
    ensures JoinRange(sep, a + b, i, |a| + |b|) == JoinRange(sep, a, i, |a|) + sep + JoinRange(sep, b, 0, |b|)
    decreases |a| - i
  {
    if i == |a| - 1 {
      JoinRangeRight(sep, a, b, 0);
    } else {
      JoinRangeLeft(sep, a, b, i + 1);
    }
  }

  /** Joining two non-empty lists is joining each and putting one separator between them. */
  lemma JoinConcat(sep: string, a: seq<string>, b: seq<string>)
    requires a != [] && b != []
    ensures Join(sep, a + b) == Join(sep, a) + sep + Join(sep, b)
  {
    JoinRangeLeft(sep, a, b, 0);
  }
}
