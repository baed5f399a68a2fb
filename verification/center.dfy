/** The center-panel transform: three bands of progress. The hero panel is
    full size with its text shown, then snaps to a smaller size with the
    text hidden, then shrinks and slides linearly into place while the
    scroll icon turns half a revolution. */
module Center {
  import opened RealMath

  /** The center panel's numeric style: width and translation in pixels,
      text opacity, and the scroll icon's rotation in degrees. */
  datatype CenterStyle = CenterStyle(
    width: real,
    translateX: real,
    translateY: real,
    textOpacity: real,
    mouseRotate: real)

  /** The three progress bands. */
  datatype Band = Hero | Shrunk | Settling

  /** Progress at which the panel snaps from Hero to Shrunk. */
  const ShrinkStart: real := 0.25
  /** Progress at which the Settling interpolation begins. */
  const SettleStart: real := 0.65
  /** Length of the progress range over which the panel settles. */
  const SettleSpan: real := 0.35
  /** Fraction of the settling range over which the icon turns. */
  const RotationSpan: real := 0.8
  /** Progress from which the icon stays at its full turn. */
  const RotationDone: real := 0.93

  const HeroStyle: CenterStyle := CenterStyle(600.0, -250.0, -250.0, 1.0, 0.0)
  const ShrunkStyle: CenterStyle := CenterStyle(300.0, -100.0, -100.0, 0.0, 0.0)
  /** Where the settling interpolation arrives at progress 1. */
  const FinalStyle: CenterStyle := CenterStyle(100.0, 0.0, 0.0, 0.0, 180.0)

  /** The point a fraction t of the way from a to b. */
  function Lerp(a: real, b: real, t: real): real {
    a + t * (b - a)
  }

  /** The band a progress value falls in; every real falls in exactly one. */
  function BandOf(progress: real): (b: Band)
    ensures b == Hero <==> progress < ShrinkStart
    ensures b == Shrunk <==> ShrinkStart <= progress < SettleStart
    ensures b == Settling <==> SettleStart <= progress
  {
    if progress < ShrinkStart then Hero
    else if progress < SettleStart then Shrunk
    else Settling
  }

  /** Position within the settling band: 0 at its start, 1 at progress 1. */
  function FinalProgress(progress: real): real {
    (progress - SettleStart) / SettleSpan
  }

  /** The settling style at fraction f of the band: width and translation
      interpolate from ShrunkStyle to FinalStyle, the icon turns to its full
      rotation over the first RotationSpan of the band and then holds. */
  function SettlingAt(f: real): CenterStyle {
    CenterStyle(
      Lerp(ShrunkStyle.width, FinalStyle.width, f),
      Lerp(ShrunkStyle.translateX, FinalStyle.translateX, f),
      Lerp(ShrunkStyle.translateY, FinalStyle.translateY, f),
      ShrunkStyle.textOpacity,
      Lerp(ShrunkStyle.mouseRotate, FinalStyle.mouseRotate, Min(f / RotationSpan, 1.0)))
  }

  /** The center style at a progress value, band by band. */
  function CenterAt(progress: real): (c: CenterStyle)
    ensures progress < ShrinkStart ==> c == HeroStyle
    ensures ShrinkStart <= progress <= SettleStart ==> c == ShrunkStyle
    ensures progress == 1.0 ==> c == FinalStyle
    ensures c.translateX == c.translateY
    ensures c.textOpacity == (if progress < ShrinkStart then 1.0 else 0.0)
    ensures 0.0 <= c.mouseRotate <= 180.0
    ensures c.mouseRotate == 180.0 <==> progress >= RotationDone
    ensures SettleStart <= progress <= 1.0 ==>
      100.0 <= c.width <= 300.0 && -100.0 <= c.translateX <= 0.0
    ensures progress <= 1.0 ==>
      100.0 <= c.width <= 600.0 && -250.0 <= c.translateX <= 0.0
  {
    match BandOf(progress)
    case Hero => HeroStyle
    case Shrunk => ShrunkStyle
    case Settling => SettlingAt(FinalProgress(progress))
  }

  /** The panel's style computed as the component does it: start from the
      hero values in mutable locals and overwrite them in the branch that
      the progress selects. */
  method CenterTransform(progress: real) returns (c: CenterStyle)
    ensures c == CenterAt(progress)
  {
    var width := 600.0;
    var translateX := -250.0;
    var translateY := -250.0;
    var textOpacity := 1.0;
    var mouseRotate := 0.0;

    if progress >= 0.25 && progress < 0.65 {
      width := 300.0;
      translateX := -100.0;
      translateY := -100.0;
      textOpacity := 0.0;
    } else if progress >= 0.65 {
      var finalProgress := (progress - 0.65) / 0.35;
      width := 300.0 - 200.0 * finalProgress;
      translateX := -100.0 + 100.0 * finalProgress;
      translateY := -100.0 + 100.0 * finalProgress;
      textOpacity := 0.0;
      mouseRotate := 180.0 * Min(finalProgress / 0.8, 1.0);
    }

    c := CenterStyle(width, translateX, translateY, textOpacity, mouseRotate);
  }

  /** As progress grows the panel never widens, never moves back, never
      shows its text again and its icon never turns back. */
  lemma CenterMonotone(p: real, q: real)
    requires p <= q
    ensures CenterAt(q).width <= CenterAt(p).width
    ensures CenterAt(p).translateX <= CenterAt(q).translateX
    ensures CenterAt(p).translateY <= CenterAt(q).translateY
    ensures CenterAt(q).textOpacity <= CenterAt(p).textOpacity
    ensures CenterAt(p).mouseRotate <= CenterAt(q).mouseRotate
  {
  }

  /** From the Hero/Shrunk snap onwards every component changes by at most
      a fixed multiple of the change in progress, so the style is continuous
      there, in particular across the Shrunk/Settling boundary. */
  lemma CenterLipschitzFromShrink(p: real, q: real)
    requires ShrinkStart <= p <= q
    ensures Abs(CenterAt(q).width - CenterAt(p).width) <= (4000.0 / 7.0) * (q - p)
    ensures Abs(CenterAt(q).translateX - CenterAt(p).translateX) <= (2000.0 / 7.0) * (q - p)
    ensures Abs(CenterAt(q).translateY - CenterAt(p).translateY) <= (2000.0 / 7.0) * (q - p)
    ensures CenterAt(q).textOpacity == CenterAt(p).textOpacity
    ensures Abs(CenterAt(q).mouseRotate - CenterAt(p).mouseRotate) <= (4500.0 / 7.0) * (q - p)
  {
  }

  /** The Hero/Shrunk boundary is a jump: every progress just below it is
      300 pixels wider, 150 pixels further off and fully opaque. */
  lemma HeroSnapsToShrunk(p: real)
    requires p < ShrinkStart
    ensures CenterAt(p).width - CenterAt(ShrinkStart).width == 300.0
    ensures CenterAt(ShrinkStart).translateX - CenterAt(p).translateX == 150.0
    ensures CenterAt(p).textOpacity - CenterAt(ShrinkStart).textOpacity == 1.0
  {
  }
}
