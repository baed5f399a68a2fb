/** The image-tile transform: each of the eight tiles starts at a fixed
    off-screen offset (in percent of its own size) and slides linearly to
    offset zero while progress runs from 15% to 100%. */
module Images {
  import opened RealMath

  /** A translation, in percent, along x and y. */
  datatype Offset = Offset(x: real, y: real)

  /** The settled position every tile ends at. */
  const Settled: Offset := Offset(0.0, 0.0)

  /** The initial offset of each tile, indexed by tile number. */
  const InitialPositions: seq<Offset> := [
    Offset(-500.0, -200.0), // top-left
    Offset(-75.0, -200.0),  // top-center-left
    Offset(200.0, 0.0),     // center-right
    Offset(500.0, -200.0),  // top-right
    Offset(-500.0, 100.0),  // bottom-left
    Offset(-200.0, 0.0),    // center-left
    Offset(75.0, 200.0),    // bottom-center
    Offset(500.0, 200.0)    // bottom-right
  ]

  /** The number of tiles. */
  const TileCount: nat := 8

  /** Progress below which no tile moves. */
  const AnimationStart: real := 0.15

  /** How far the slide has got: 0 before AnimationStart, then a linear ramp
      that reaches 1 at progress 1 and is capped there. */
  function AnimationProgress(progress: real): (a: real)
    ensures 0.0 <= a <= 1.0
    ensures progress < AnimationStart ==> a == 0.0
    ensures progress >= 1.0 ==> a == 1.0
    ensures AnimationStart <= progress <= 1.0 ==> a * (1.0 - AnimationStart) == progress - AnimationStart
  {
    if progress < AnimationStart then 0.0
    else
      var ramp := (progress - AnimationStart) / (1.0 - AnimationStart);
      if ramp < 1.0 then ramp else 1.0
  }

  /** The offset of tile `index` at the given progress: its initial offset
      scaled by the part of the slide still to go. */
  function ImageOffset(index: nat, progress: real): (o: Offset)
    requires index < TileCount
    ensures progress < AnimationStart ==> o == InitialPositions[index]
    ensures progress >= 1.0 ==> o == Settled
  {
    Scaled(InitialPositions[index], 1.0 - AnimationProgress(progress))
  }

  /** An offset with both components multiplied by a factor. */
  function Scaled(pos: Offset, factor: real): Offset {
    Offset(pos.x * factor, pos.y * factor)
  }

  /** Scaling by a factor in [0, 1] keeps the sign and never grows the
      magnitude; a factor in (0, 1] keeps a nonzero value nonzero. */
  lemma ScaleKeepsSign(v: real, s: real)
    requires 0.0 <= s <= 1.0
    ensures v > 0.0 ==> 0.0 <= v * s <= v
    ensures v < 0.0 ==> v <= v * s <= 0.0
    ensures v == 0.0 ==> v * s == 0.0
    ensures s > 0.0 && v > 0.0 ==> v * s > 0.0
    ensures s > 0.0 && v < 0.0 ==> v * s < 0.0
  {
    if v > 0.0 {
      assert v - v * s == v * (1.0 - s);
    } else if v < 0.0 {
      assert v * s - v == (-v) * (1.0 - s);
    }
  }

  /** Scaling one value by a smaller factor in [0, 1] gives a value of no
      greater magnitude. */
  lemma ScaleMonotone(v: real, s1: real, s2: real)
    requires 0.0 <= s2 <= s1 <= 1.0
    ensures Abs(v * s2) <= Abs(v * s1)
  {
    ScaleKeepsSign(v, s1 - s2);
    ScaleKeepsSign(-v, s1 - s2);
    assert v * s1 - v * s2 == v * (s1 - s2);
  }

  /** A component never points the other way from its initial value and is
      never larger; before the slide ends (progress < 1) a nonzero initial
      component stays nonzero with the same sign. */
  lemma OffsetStaysOnItsSide(index: nat, progress: real)
    requires index < TileCount
    ensures var o, init := ImageOffset(index, progress), InitialPositions[index];
      (init.x > 0.0 ==> 0.0 <= o.x <= init.x) && (init.x < 0.0 ==> init.x <= o.x <= 0.0) &&
      (init.x == 0.0 ==> o.x == 0.0) &&
      (init.y > 0.0 ==> 0.0 <= o.y <= init.y) && (init.y < 0.0 ==> init.y <= o.y <= 0.0) &&
      (init.y == 0.0 ==> o.y == 0.0)
    ensures var o, init := ImageOffset(index, progress), InitialPositions[index];
      progress < 1.0 ==>
        (init.x > 0.0 ==> o.x > 0.0) && (init.x < 0.0 ==> o.x < 0.0) &&
        (init.y > 0.0 ==> o.y > 0.0) && (init.y < 0.0 ==> o.y < 0.0)
  {
    var init := InitialPositions[index];
    var remaining := 1.0 - AnimationProgress(progress);
    if progress < 1.0 {
      if progress >= AnimationStart {
        assert AnimationProgress(progress) * (1.0 - AnimationStart) == progress - AnimationStart;
      }
      assert remaining > 0.0;
    }
    ScaleKeepsSign(init.x, remaining);
    ScaleKeepsSign(init.y, remaining);
  }

  /** The slide never runs backwards: more progress means no greater
      animation progress. */
  lemma AnimationProgressMonotone(p1: real, p2: real)
    requires p1 <= p2
    ensures AnimationProgress(p1) <= AnimationProgress(p2)
  {
  }

  /** For a fixed tile, the magnitude of each offset component does not
      increase as progress increases. */
  lemma OffsetShrinks(index: nat, p1: real, p2: real)
    requires index < TileCount
    requires p1 <= p2
    ensures Abs(ImageOffset(index, p2).x) <= Abs(ImageOffset(index, p1).x)
    ensures Abs(ImageOffset(index, p2).y) <= Abs(ImageOffset(index, p1).y)
  {
    AnimationProgressMonotone(p1, p2);
    ScaledShrinks(InitialPositions[index], 1.0 - AnimationProgress(p1), 1.0 - AnimationProgress(p2));
  }

  /** Scaling an offset by a smaller factor in [0, 1] shrinks both of its
      components. */
  lemma ScaledShrinks(pos: Offset, r1: real, r2: real)
    requires 0.0 <= r2 <= r1 <= 1.0
    ensures Abs(Scaled(pos, r2).x) <= Abs(Scaled(pos, r1).x)
    ensures Abs(Scaled(pos, r2).y) <= Abs(Scaled(pos, r1).y)
  {
    ScaleMonotone(pos.x, r1, r2);
    ScaleMonotone(pos.y, r1, r2);
  }

  /** While the slide runs (progress from AnimationStart to 1) each offset
      component is linear in progress itself: it is the initial component
      scaled by the share of [AnimationStart, 1] still ahead. */
  lemma OffsetLinearInProgress(index: nat, progress: real)
    requires index < TileCount
    requires AnimationStart <= progress <= 1.0
    ensures var o, init := ImageOffset(index, progress), InitialPositions[index];
      o.x * (1.0 - AnimationStart) == init.x * (1.0 - progress) &&
      o.y * (1.0 - AnimationStart) == init.y * (1.0 - progress)
  {
    var a, init := AnimationProgress(progress), InitialPositions[index];
    assert a * (1.0 - AnimationStart) == progress - AnimationStart;
    assert (1.0 - a) * (1.0 - AnimationStart) == 1.0 - progress;
    assert init.x * (1.0 - a) * (1.0 - AnimationStart) == init.x * ((1.0 - a) * (1.0 - AnimationStart));
    assert init.y * (1.0 - a) * (1.0 - AnimationStart) == init.y * ((1.0 - a) * (1.0 - AnimationStart));
  }
}
