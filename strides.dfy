/**
 * The arithmetic of a loop index that starts at 0 and advances by a fixed
 * positive step while it is below a bound.
 */
module Strides {

  /** ⌈n / step⌉: how many of the indices 0, step, 2·step, … lie below `n`. */
  function WindowCount(n: nat, step: int): nat
    requires step >= 1
  {
    (n + step - 1) / step
  }

  /** `a·c <= b·c` for `a <= b`, by induction on `b - a`. */
  lemma {:induction false} MulMonotone(a: nat, b: nat, c: nat)
    requires a <= b
    ensures a * c <= b * c
    decreases b - a
  {
    if a < b {
      MulMonotone(a, b - 1, c);
      assert b * c == (b - 1) * c + c;
    }
  }

  /** The count reaches `n`, and one index fewer does not. */
  lemma WindowCountBounds(n: nat, step: int)
    requires step >= 1
    ensures WindowCount(n, step) * step >= n
    ensures WindowCount(n, step) > 0 ==> (WindowCount(n, step) - 1) * step < n
  {
    var q, r := (n + step - 1) / step, (n + step - 1) % step;
    assert q * step + r == n + step - 1;
  }

  /** Index `k` of the count lies below `n`, and the next index is `step` further on. */
  lemma {:induction false} StartInside(n: nat, step: int, k: nat)
    requires step >= 1 && k < WindowCount(n, step)
    ensures 0 <= k * step < n
    ensures (k + 1) * step == k * step + step
  {
    WindowCountBounds(n, step);
    MulMonotone(k, WindowCount(n, step) - 1, step);
  }
}
