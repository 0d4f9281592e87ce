/**
 * A loop that visits the indices 0, step, 2·step, … below `n`, computes a
 * string at each and collects the non-empty ones, and what it collects.
 */
module Scan {
  import opened Strides
  import opened Lists

  /** What the loop ends with when it is at index `i` having collected `acc`. */
  function ScanFrom(f: nat -> string, n: nat, step: int, i: nat, acc: seq<string>): seq<string>
    requires step >= 1
    decreases n - i
  {
    if i >= n then acc else ScanFrom(f, n, step, i + step, acc + Keep(f(i)))
  }

  /**
   * One turn of the loop: at index `i` it computes `chunk`, appends it when it
   * is not empty, and moves on by `step`; what it ends with is unchanged.
   */
  lemma ScanStep(f: nat -> string, n: nat, step: int, i: nat, chunk: string, before: seq<string>, after: seq<string>)
    requires step >= 1 && i < n && f(i) == chunk
    requires after == if |chunk| > 0 then before + [chunk] else before
    ensures ScanFrom(f, n, step, i, before) == ScanFrom(f, n, step, i + step, after)
  {
    assert after == before + Keep(chunk);
  }

  /**
   * What the whole loop collects.  With a step of zero it stops after the
   * first index; a negative step is only allowed when there is nothing to visit.
   */
  function Collected(f: nat -> string, n: nat, step: int): seq<string>
    requires step >= 0 || n == 0
  {
    if n == 0 then []
    else if step == 0 then Keep(f(0))
    else ScanFrom(f, n, step, 0, [])
  }

  /**
   * The loop: from index 0 while below `n`, compute the string at the index,
   * append it when it is not empty, advance by `step`, and stop after one
   * turn when the step is zero.
   */
  method CollectNonEmpty(f: nat -> string, n: nat, step: int) returns (acc: seq<string>)
    requires step >= 0 || n == 0
    ensures acc == Collected(f, n, step)
  {
    acc := [];
    var i := 0;
    while i < n
      invariant 0 <= i
      invariant step <= 0 ==> i == 0 && acc == []
      invariant step >= 1 ==> ScanFrom(f, n, step, i, acc) == ScanFrom(f, n, step, 0, [])
      decreases n - i
    {
      var chunk := f(i);
      ghost var before := acc;
      if |chunk| > 0 {
        acc := acc + [chunk];
      }
      if step >= 1 {
        ScanStep(f, n, step, i, chunk, before, acc);
      }
      i := i + step;
      if step == 0 {
        break;
      }
    }
  }

  /** The strings computed at the visited indices, in order. */
  function Visited(f: nat -> string, n: nat, step: int): (ws: seq<string>)
    requires step >= 1
    ensures |ws| == WindowCount(n, step)
  {
    seq(WindowCount(n, step), k requires 0 <= k => f(k * step))
  }

  /** From the `j`-th visited index on, the loop collects exactly the non-empty strings from `j` on. */
  lemma {:induction false} ScanVisits(f: nat -> string, n: nat, step: int, j: nat, acc: seq<string>)
    requires step >= 1 && j <= WindowCount(n, step)
    ensures ScanFrom(f, n, step, j * step, acc) == acc + NonEmptyFrom(Visited(f, n, step), j)
    decreases WindowCount(n, step) - j
  {
    var ws := Visited(f, n, step);
    if j == |ws| {
      WindowCountBounds(n, step);
      assert acc + [] == acc;
    } else {
      var i := j * step;
      StartInside(n, step, j);
      var kept := Keep(f(i));
      ScanVisits(f, n, step, j + 1, acc + kept);
      assert ws[j] == f(i);
      AppendStep(acc, kept, kept + NonEmptyFrom(ws, j + 1), NonEmptyFrom(ws, j + 1), acc + NonEmptyFrom(ws, j));
    }
  }

  /** The whole loop collects the non-empty visited strings, in order. */
  lemma ScanCollectsNonEmpty(f: nat -> string, n: nat, step: int)
    requires step >= 1
    ensures ScanFrom(f, n, step, 0, []) == NonEmpty(Visited(f, n, step))
  {
    ScanVisits(f, n, step, 0, []);
    assert [] + NonEmpty(Visited(f, n, step)) == NonEmpty(Visited(f, n, step));
  }
}
