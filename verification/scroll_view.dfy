/** The component that owns the scroll state. Its scroll handler reads the
    host's scroll position and sizes (passed in here) and replaces the whole
    ScrollProgress record in one step. */
module ScrollView {
  import opened Progress
  import Center
  import Images

  class ScrollView {
    var scrollProgress: ScrollProgress

    /** Every state the component holds is one the handler could produce
        (or the initial one, which is also well formed). */
    ghost predicate Valid()
      reads this
    {
      WellFormed(scrollProgress)
    }

    /** The state before the first scroll notification. */
    constructor ()
      ensures Valid()
      ensures scrollProgress == InitialProgress
    {
      scrollProgress := InitialProgress;
    }

    /** The scroll handler: the scrollable height is the document's height
        less the viewport's, and must be positive. */
    method HandleScroll(scrollY: real, scrollHeight: real, innerHeight: real)
      requires scrollHeight - innerHeight > 0.0
      modifies this
      ensures Valid()
      ensures scrollProgress == Snapshot(scrollY, scrollHeight - innerHeight)
      ensures scrollProgress.isComplete <==> scrollY >= CompleteThreshold * (scrollHeight - innerHeight)
    {
      var docHeight := scrollHeight - innerHeight;
      var progress := ScrollFraction(scrollY, docHeight);
      scrollProgress := ScrollProgress(progress, progress >= CompleteThreshold);
      CompleteIffScrolledEnough(scrollY, docHeight);
    }

    /** The center panel's style for the current state, as rendered. Since
        the stored progress never exceeds 1, the panel is never narrower
        than its final width nor wider than the hero, and never past its
        final position. */
    method CenterStyles() returns (c: Center.CenterStyle)
      requires Valid()
      ensures c == Center.CenterAt(scrollProgress.progress)
      ensures 100.0 <= c.width <= 600.0
      ensures -250.0 <= c.translateX == c.translateY <= 0.0
    {
      c := Center.CenterTransform(scrollProgress.progress);
    }

    /** The offset of tile `index` for the current state, as rendered. */
    method ImageTransform(index: nat) returns (o: Images.Offset)
      requires index < Images.TileCount
      ensures o == Images.ImageOffset(index, scrollProgress.progress)
      ensures scrollProgress.progress < Images.AnimationStart ==> o == Images.InitialPositions[index]
      ensures scrollProgress.progress >= 1.0 ==> o == Images.Settled
    {
      o := Images.ImageOffset(index, scrollProgress.progress);
    }
  }
}
