# Sliding Images: the scroll-to-style mapping

This project models the logic of the "Sliding Images" page, a single React
component (`src/App.tsx`). The page is a grid of eight image tiles around a
center panel. As the user scrolls, the tiles slide in from off-screen, the
panel shrinks and hides its text, and a scroll icon turns. The model has the
parts below:

- **Progress** (`progress.dfy`, module `Progress`). The scroll handler
  computes `progress = min(scrollTop / docHeight, 1)`. Here `docHeight` is
  the document's scroll height less the viewport height. It also sets
  `isComplete = progress >= 0.95` and stores both as one `ScrollProgress`
  record.
- **Helpers** (`real_math.dfy`, module `RealMath`): `Abs`, and `Min` for `Math.min`.
- **Image tiles** (`images.dfy`, module `Images`). A tile's offset is its
  entry in the fixed eight-entry table of initial offsets, scaled by
  `1 - animationProgress`. The animation progress is 0 below progress 0.15,
  then `(progress - 0.15) / 0.85`, capped at 1.
- **Center panel** (`center.dfy`, module `Center`). The panel's style is a
  three-band function of progress:
  - Hero, below 0.25: constant.
  - Shrunk, from 0.25 up to 0.65: constant.
  - Settling, from 0.65: a linear interpolation on `(progress - 0.65) / 0.35`,
    with the icon's rotation capped at 180 degrees.
- **The component** (`scroll_view.dfy`, class `ScrollView.ScrollView`). It
  holds the `scrollProgress` state. Its `HandleScroll` method replaces that
  state in one step.

The specification of the panel is `Center.CenterAt`. It is written band by
band, with `BandOf` and with interpolations between the Shrunk and final
styles. `Center.CenterTransform` computes the style the way the component
does: it starts from five mutable locals and overwrites them in the branch
the progress selects. The method is proved equal to `CenterAt`.

Numbers are Dafny `real`s. The model has no IEEE-754 rounding. Styles are
returned as numbers, not as CSS strings.

Three behaviours of the code that the model keeps as written:
- The code clamps progress only from above, with `Math.min(…, 1)`. A negative
  scroll position, as in an overscroll past the top, gives a negative
  progress. The model keeps that. Such a progress puts every tile at its
  initial offset and the panel in the Hero band.
- The code does not guard against a document no taller than the viewport.
  It would divide by zero or by a negative number. The model requires a
  positive scrollable height instead, and does not clamp progress to 0.
- `isComplete` is computed but nothing reads it. The model only states how it
  is derived.

## Model

| member | source | states |
|---|---|---|
| Progress.ScrollFraction | src/App.tsx:17-19 | Progress is never above 1. It is the minimum of scrollTop/docHeight and 1. It equals 1 exactly when scrollTop >= docHeight. It is non-negative exactly when scrollTop is. |
| Progress.Snapshot | src/App.tsx:19-24 | The stored record is well formed: progress <= 1, and isComplete holds exactly when progress >= 0.95. |
| Progress.CompleteIffScrolledEnough | src/App.tsx:18-23 | isComplete holds exactly when scrollTop >= 0.95 * docHeight, for any positive docHeight. Both directions are proved. |
| Progress.FractionMonotone | src/App.tsx:17-19 | Progress never goes down when the scroll position goes up. |
| Progress.CompleteIsUpwardClosed | src/App.tsx:19-23 | Once the state is complete, scrolling further down keeps it complete. |
| Images.AnimationProgress | src/App.tsx:50-54 | Animation progress lies in [0,1]. It is 0 for every progress below 0.15 and 1 for every progress >= 1. On [0.15, 1] it is the linear ramp: a * 0.85 == progress - 0.15. |
| Images.ImageOffset | src/App.tsx:36-57 | Below progress 0.15, a tile's offset is exactly its entry in the initial-position table. At progress >= 1, every tile is at (0, 0). |
| Images.OffsetStaysOnItsSide | src/App.tsx:48-57 | Each offset component keeps the sign of its initial value and never exceeds it in magnitude. A zero component stays zero. Before progress 1, a nonzero component stays strictly on its side. |
| Images.AnimationProgressMonotone | src/App.tsx:51-54 | Animation progress does not decrease when progress increases. |
| Images.OffsetShrinks | src/App.tsx:52-57 | For a fixed tile, the magnitude of each offset component does not increase when progress increases. |
| Images.OffsetLinearInProgress | src/App.tsx:51-57 | While progress runs from 0.15 to 1, each offset component is linear in progress itself: offset * 0.85 == initial * (1 - progress). So the tile slides uniformly from its initial offset at 0.15 to (0, 0) at 1. |
| Center.BandOf | src/App.tsx:72-77 | Every progress falls in exactly one band. Hero is below 0.25. Shrunk is from 0.25 up to, but not including, 0.65. Settling is from 0.65 on. |
| Center.CenterAt | src/App.tsx:62-84 | Any progress below 0.25, negative included, gives width 600, translate (-250, -250), opacity 1, rotation 0. Progress in [0.25, 0.65] gives width 300, translate (-100, -100), opacity 0, rotation 0, so the Settling band meets the Shrunk band at 0.65. Progress 1 gives width 100, translate (0, 0), rotation 180. translateX always equals translateY. Opacity is 1 below 0.25 and 0 from there on. Rotation is always in [0, 180] and equals 180 exactly when progress >= 0.93. On [0.65, 1], width is in [100, 300] and translate is in [-100, 0]. |
| Center.CenterTransform | src/App.tsx:62-92 | The component's branch-by-branch update of the five locals gives exactly the band specification CenterAt. |
| Center.CenterMonotone | src/App.tsx:66-84 | Over all progress values, width and text opacity never increase and translation and rotation never decrease. So width is non-increasing on [0.65, 1]. |
| Center.CenterLipschitzFromShrink | src/App.tsx:72-83 | From 0.25 on, each component changes by at most a fixed multiple of the change in progress: 4000/7 for width, 2000/7 for translation, 4500/7 for rotation, and 0 for opacity. So the style is continuous across the Shrunk/Settling boundary. |
| Center.HeroSnapsToShrunk | src/App.tsx:66-76 | The Hero/Shrunk boundary is a jump. Every progress below 0.25 is 300 px wider, 150 px further off and 1 more opaque than progress 0.25. |
| ScrollView.ScrollView.constructor | src/App.tsx:10-13 | The component starts with progress 0 and isComplete false. That state is well formed. |
| ScrollView.ScrollView.HandleScroll | src/App.tsx:16-24 | The whole state is replaced by the snapshot for docHeight = scrollHeight - innerHeight. The new state is well formed. It is complete exactly when scrollY >= 0.95 * docHeight. |
| ScrollView.ScrollView.CenterStyles | src/App.tsx:105-105 | The rendered center style is the band specification at the stored progress. Because the stored state is well formed (progress <= 1), the width stays in [100, 600] and translateX = translateY stays in [-250, 0]. |
| ScrollView.ScrollView.ImageTransform | src/App.tsx:33-57 | The rendered offset of a tile is the tile transform at the stored progress. Below 0.15 it is the tile's initial entry, and from progress 1 on it is (0, 0). |

## Left out

- Rendering, the JSX markup, the CSS grid template and its area names, the Tailwind classes and the CSS transitions. They are presentation only.
- Subscribing and unsubscribing the scroll listener, and the initial handler call at mount. These are host event wiring. A mount is a constructor followed by one `HandleScroll` call.
- The reads of `window.scrollY`, `scrollHeight` and `innerHeight`. They are host I/O and are passed to `HandleScroll` as parameters.
- The tile and panel transforms are closures that read `scrollProgress.progress`. In `Images` and `Center` they take the progress as a parameter. `ScrollView.ImageTransform` and `ScrollView.CenterStyles` apply them to the stored state.
- IEEE-754 floating point. That includes the Infinity or NaN that a zero `docHeight` would give. A negative `docHeight` would give a finite progress of flipped sign. `HandleScroll` and `ScrollFraction` require a positive scrollable height, so neither case is modelled.
- Images.ImageOffset: tile indices outside 0..7 are excluded by its precondition. In the code they would read an undefined table entry and throw. The component only calls it with the indices of its eight images.
- The string formatting of `translate(…)`, `px` and `%`, and the `Math.round(progress * 100)` readout. These are formatting and float rounding.
- The image URLs, the scroll icon component and the hidden unsupported-browser banner. They are static assets or markup with no logic.
