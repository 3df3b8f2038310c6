/**
 * Trip counts of the counting loops the layout code runs over real-valued
 * coordinates, `for (v = start; v <= end; v += step)` and
 * `for (v = start; v < end; v += step)`. The k-th iteration sees
 * v == start + k * step, so a loop's trip count is the number of k >= 0
 * for which that value still passes the loop test.
 */
module Counting {

  /** Trip count of `for (v = start; v <= end; v += step)`. */
  function CountUpTo(start: real, end: real, step: real): nat
    requires step > 0.0
  {
    if end < start then 0
    else
      QuotientNonNegative(end - start, step);
      ((end - start) / step).Floor + 1
  }

  /** Trip count of `for (v = start; v < end; v += step)`. */
  function CountBelow(start: real, end: real, step: real): nat
    requires step > 0.0
  {
    if end <= start then 0
    else
      QuotientNonNegative(end - start, step);
      -((start - end) / step).Floor
  }

  lemma QuotientNonNegative(d: real, step: real)
    requires d >= 0.0 && step > 0.0
    ensures d / step >= 0.0
  {
  }

  /** For a positive step, `a <= b` holds exactly when `a * step <= b * step`. */
  lemma ScaleOrder(a: real, b: real, step: real)
    requires step > 0.0
    ensures a <= b <==> a * step <= b * step
    ensures a < b <==> a * step < b * step
  {
    if a <= b {
      assert (b - a) * step >= 0.0;
    } else {
      assert (a - b) * step > 0.0;
    }
  }

  /** The value of the loop variable at iteration k passes the `<=` test
      exactly for the first CountUpTo iterations. */
  lemma {:induction false} CountUpToSpec(start: real, end: real, step: real, k: nat)
    requires step > 0.0
    ensures start + k as real * step <= end <==> k < CountUpTo(start, end, step)
  {
    if end < start {
      ScaleOrder(0.0, k as real, step);
    } else {
      var q := (end - start) / step;
      assert q * step == end - start;
      ScaleOrder(k as real, q, step);
    }
  }

  /** The value of the loop variable at iteration k passes the `<` test
      exactly for the first CountBelow iterations. */
  lemma {:induction false} CountBelowSpec(start: real, end: real, step: real, k: nat)
    requires step > 0.0
    ensures start + k as real * step < end <==> k < CountBelow(start, end, step)
  {
    if end <= start {
      ScaleOrder(0.0, k as real, step);
    } else {
      var q := (end - start) / step;
      assert q * step == end - start;
      assert (start - end) / step == -q;
      ScaleOrder(k as real, q, step);
    }
  }
}
