/** The scroll-progress computation of the scroll handler: the fraction of the
    scrollable height already scrolled, capped above at 1, and the "complete"
    flag derived from it. The host's scroll position and document sizes are
    passed in as numbers. */
module Progress {

  /** The component's whole state: it is always replaced in one step. */
  datatype ScrollProgress = ScrollProgress(progress: real, isComplete: bool)

  /** Progress at or beyond this value counts as complete. */
  const CompleteThreshold: real := 0.95

  /** The state the component starts with, before the first scroll event. */
  const InitialProgress: ScrollProgress := ScrollProgress(0.0, false)

  /** What every state the scroll handler produces satisfies. */
  predicate WellFormed(s: ScrollProgress) {
    s.progress <= 1.0 && (s.isComplete <==> s.progress >= CompleteThreshold)
  }

  /** `Math.min(scrollTop / docHeight, 1)`. There is no lower clamp, so an
      overscroll above the top (a negative scrollTop) gives a negative value. */
  function ScrollFraction(scrollTop: real, docHeight: real): (p: real)
    requires docHeight > 0.0
    ensures p <= 1.0
    ensures p <= scrollTop / docHeight
    ensures p == 1.0 || p == scrollTop / docHeight
    ensures scrollTop >= docHeight <==> p == 1.0
    ensures scrollTop >= 0.0 <==> p >= 0.0
  {
    var raw := scrollTop / docHeight;
    assert scrollTop >= docHeight <==> raw >= 1.0 by { DivAtLeast(scrollTop, docHeight, 1.0); }
    assert scrollTop >= 0.0 <==> raw >= 0.0 by { DivAtLeast(scrollTop, docHeight, 0.0); }
    if raw < 1.0 then raw else 1.0
  }

  /** The record the scroll handler stores. */
  function Snapshot(scrollTop: real, docHeight: real): (s: ScrollProgress)
    requires docHeight > 0.0
    ensures WellFormed(s)
    ensures s.progress == ScrollFraction(scrollTop, docHeight)
  {
    var p := ScrollFraction(scrollTop, docHeight);
    ScrollProgress(p, p >= CompleteThreshold)
  }

  /** For a positive divisor, a quotient reaches a bound exactly when the
      dividend reaches the bound times the divisor. */
  lemma DivAtLeast(x: real, d: real, k: real)
    requires d > 0.0
    ensures x / d >= k <==> x >= k * d
  {
    var q := x / d;
    assert q * d == x;
    if q >= k {
      assert (q - k) * d >= 0.0;
    } else {
      assert (k - q) * d > 0.0;
    }
  }

  /** The state is complete exactly when at least 95% of the scrollable
      height has been scrolled. */
  lemma CompleteIffScrolledEnough(scrollTop: real, docHeight: real)
    requires docHeight > 0.0
    ensures Snapshot(scrollTop, docHeight).isComplete <==> scrollTop >= CompleteThreshold * docHeight
  {
    DivAtLeast(scrollTop, docHeight, CompleteThreshold);
  }

  /** Scrolling further down never lowers the progress. */
  lemma FractionMonotone(top1: real, top2: real, docHeight: real)
    requires docHeight > 0.0
    requires top1 <= top2
    ensures ScrollFraction(top1, docHeight) <= ScrollFraction(top2, docHeight)
  {
    var q1, q2 := top1 / docHeight, top2 / docHeight;
    assert q1 * docHeight == top1 && q2 * docHeight == top2;
    if q1 > q2 {
      assert (q1 - q2) * docHeight > 0.0;
    }
  }

  /** Once complete, scrolling further down keeps the state complete. */
  lemma CompleteIsUpwardClosed(top1: real, top2: real, docHeight: real)
    requires docHeight > 0.0
    requires top1 <= top2
    requires Snapshot(top1, docHeight).isComplete
    ensures Snapshot(top2, docHeight).isComplete
  {
    FractionMonotone(top1, top2, docHeight);
  }
}
