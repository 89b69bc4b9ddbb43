# Sized layout wrappers and viewport size, in Dafny

This project models the layout arithmetic of a card-game user interface written
with React.

## The sized-composition protocol

A *sized* component (`FCSized`) is called with props that carry the width and
height available to it. It returns a pair `[Sizes, content]`: the size it actually
rendered at, and its content. Wrappers are higher-order functions from sized
components to sized components:

- `withPaddingSized(p)` takes `2p` off each dimension on the way down and adds it
  back to the child's report on the way up. `p` may be a number or a callback of the
  props, resolved by `getValue`.
- `withAutoWidthSized` keeps the height and offers the child `height * aspectRatio`
  as its width. The ratio defaults to 8/13, or to 4/7 in the play screen's copy.
- `withFlexLeftSized({ paddingBetween })(left, right)` lays out the right child at
  the full size first. The left child gets what is left of the width.
- `defaultSizer` reports exactly the size it was offered. `unSizer` drops the size.
- `withGrayBorder` (and the `GrayBorder` component) takes the border width, 6 by
  default, off each side.

`Sizing` (sizing.dfy) models these combinators as curried Dafny functions that return
`Props -> Sized<C>` functions. The content half is kept in a reduced form, as a React
element tree, so that the props each child receives can be observed. An element is a
component type applied to props, a `<div>` with its class name and the inline style
the wrappers set, or a fragment.

`Composition` (composition.dfy) adds `Layout`, the set of all terms built from these
wrappers. The laws proved there hold for every composition:

- a layout whose left-most chain fills its width reports exactly the available width;
- a layout whose leaves all fill their space reports exactly the available height;
- a layout whose leaves all fit the available height never reports more height.

`Play` (play_screen.dfy) models src/screens/play/PlayScreen.tsx. That file has its
own copies of the wrappers. Its `withGrayBorder`, `withFlexLeftSized`,
`defaultSizer` and `unSizer` are the same code as in sizing.tsx, so the `Sizing`
members are reused for them. Its `withAutoWidthSized` differs only in its default
ratio, 4/7, so both copies are instances of `Sizing.WithAutoWidthSizedAt`; a `Layout`
auto-width node carries its default ratio, so the composition laws cover both. Its
`withPaddingSized` takes a plain number and is written out on its own. The module
also models the file's fixed compositions (`Play.BigCard`, `Play.RowsAndCard`) and
what each of its components renders (`Play.Render`):

- `BigCard`: padding 12 around an auto-width card;
- `RowsWrapperAndBigCard`: a flex row with a gap of 16;
- `PlayScreen`: a gray border, then padding 16, then `MyPlayScreen`.

## Viewport size

`WindowSize` (window_size.dfy) models src/hooks/useWindowSize.tsx. The browser
globals become a `Window` record. A property that the TypeScript code reads through `?.`
is an `Option`. A screen size that the code defaults with `?? Infinity` is an
`Option` in which `None` stands for +∞. From that record, `GetWindowSize` decides
the usable width and height and whether the device is held in landscape.

Nothing clamps sizes at zero: when a padding or border is wider than the space
offered, the code hands the child a negative size, and so does the model.

## Model

| member | source | states |
|---|---|---|
| Sizing.GetValue | src/components/hoc/sizing.tsx:34-39 | a plain value is returned unchanged; a callback is applied to the props |
| Sizing.WithGrayBorder | src/components/hoc/sizing.tsx:16-31 | the child element gets the props with the border width (default 6) taken off each side; the outer box keeps the full width and height |
| Sizing.WithPaddingSized | src/components/hoc/sizing.tsx:44-80 | the child is called with `(width - 2p, height - 2p)`, `p = getValue(padding, props)`; taking `2p` off the report gives back the child's report; the content is a padding div of the reported size around the child's content |
| Sizing.WithAutoWidthSizedAt | src/components/hoc/sizing.tsx:89-109 | for any default ratio, the child gets the same height and width `height * aspectRatio`, the ratio prop falling back to that default, and its result is returned unchanged; shared by both files' copies |
| Sizing.WithAutoWidthSized | src/components/hoc/sizing.tsx:86-111 | the child gets the same height and width `height * aspectRatio` (default 8/13), and its result is returned unchanged |
| Sizing.WithFlexLeftSized | src/components/hoc/sizing.tsx:113-155 | right child on the unchanged props; left child on width `available - right.width - gap`; reported width is left + gap + right; reported height is the larger of the two (at least each, equal to one); content is left, spacer, right |
| Sizing.DefaultSizer | src/components/hoc/sizing.tsx:157-165 | reports exactly its input size and renders the component with the props it was given |
| Sizing.UnSizer | src/components/hoc/sizing.tsx:167-172 | renders exactly the sized component's content, dropping the size |
| Sizing.PaddingRoundTrip | src/components/hoc/sizing.tsx:50-66 | padding around the default sizer reports exactly the available size, for any padding value or callback |
| Sizing.PaddedComponentReceives | src/components/hoc/sizing.tsx:46-58 | the component under padding is rendered with `(width - 2p, height - 2p)`, with no clamping |
| Sizing.NestedPaddingsAdd | src/components/hoc/sizing.tsx:50-66 | padding `a` around padding `b` reports the same sizes as padding `a + b` |
| Sizing.AutoWidthIgnoresWidth | src/components/hoc/sizing.tsx:91-109 | the auto-width result does not depend on the available width |
| Sizing.AutoWidthOfDefault | src/components/hoc/sizing.tsx:91-109 | over the default sizer the report is `(height * aspectRatio, height)` |
| Sizing.FlexConservesWidth | src/components/hoc/sizing.tsx:124-141 | with a default-sized left child the flex result is exactly as wide as the available width, and at least as tall as the available height and the right child |
| Composition.FillsWidthReportsAvailableWidth | src/components/hoc/sizing.tsx:44-141 | every composition whose left-most chain ends in the default sizer reports exactly the available width |
| Composition.FillsHeightReportsAvailableHeight | src/components/hoc/sizing.tsx:44-141 | every composition whose leaves are all default sizers reports exactly the available height |
| Composition.FitsHeightBoundsHeight | src/components/hoc/sizing.tsx:44-141 | every composition whose leaves never exceed the offered height never exceeds it either |
| Play.GrayBorder | src/screens/play/PlayScreen.tsx:18-35 | the child element gets `(width - 2b, height - 2b)`, `b` defaulting to 6; the box sets only its border width |
| Play.GrayBorderAgreesWithWrapper | src/screens/play/PlayScreen.tsx:37-52 | `GrayBorder` and `withGrayBorder` give the child the same props |
| Play.WithPaddingSized | src/screens/play/PlayScreen.tsx:54-92 | the child is called with `(width - 2p, height - 2p)` and the report is the child's plus `2p` in each dimension |
| Play.PaddingAgreesWithSizing | src/screens/play/PlayScreen.tsx:54-75 | the fixed-padding copy behaves as the general wrapper at that value |
| Play.PaddingRoundTrip | src/screens/play/PlayScreen.tsx:57-75 | with the default sizer inside, the padding wrapper is the identity on sizes |
| Play.WithAutoWidthSized | src/screens/play/PlayScreen.tsx:95-120 | the child gets the same height and width `height * aspectRatio`, with the ratio defaulting to 4/7, and its result passes through |
| Play.BigCardSizes | src/screens/play/PlayScreen.tsx:175-177 | (about `Play.BigCard`) `BigCard` on height `h` reports height `h` and width `(h - 24) * ratio + 24`; the card is drawn at `(h - 24) * ratio` by `h - 24` |
| Play.BigCardIsComposition | src/screens/play/PlayScreen.tsx:175-177 | (about `Play.BigCard`) `BigCard` is the composition padding 12 around auto-width at 4/7 around the default sizer, so the height law for all compositions gives it exactly the offered height |
| Play.RowsAndCardFills | src/screens/play/PlayScreen.tsx:179-181 | (about `Play.RowsAndCard` and `Play.Render` of `RowsWrapperAndBigCard`) `RowsWrapper` gets width `W - BigCard.width - 16`, and the flex row reports exactly `(W, H)`, its height the larger of two equal heights |
| Play.MyPlayScreenReceives | src/screens/play/PlayScreen.tsx:209-212 | (about `Play.Render` of `PlayScreen` and of the padded screen) outside in, the border comes first and then padding 16, so `MyPlayScreen` receives `(width - 2b - 32, height - 2b - 32)`, which is `(width - 44, height - 44)` with the default border |
| Play.RowsWrapperInPlayScreen | src/screens/play/PlayScreen.tsx:214-221 | (about `Play.Render` of `MyPlayScreen`) `MyPlayScreen` passes only width and height on, so inside the play screen the card uses the 4/7 default ratio and the rows area gets `W - ((H - 24) * 4/7 + 24) - 16` |
| WindowSize.MinInf | src/hooks/useWindowSize.tsx:101-108 | `Math.min` of two sizes that default to Infinity: infinite only when both are, otherwise one of them and no larger than either |
| WindowSize.MinWith | src/hooks/useWindowSize.tsx:117-121 | `Math.min` of a window size and a possibly infinite screen size: one of the two, and no larger than either |
| WindowSize.IsOrientationRotated | src/hooks/useWindowSize.tsx:8-32 | uses `screen.orientation.angle` when present, else `window.orientation` when it is a number; rotated iff the angle used is non-zero; not rotated when there is no angle |
| WindowSize.IsIframe | src/hooks/useWindowSize.tsx:37-44 | true iff the origin is `null` or the string `'null'` |
| WindowSize.PhysicalDeviceShape | src/hooks/useWindowSize.tsx:54-64 | landscape iff the screen height and width are both present and non-zero and `height < width`; portrait otherwise |
| WindowSize.PhysicalShapeIsStable | src/hooks/useWindowSize.tsx:46-64 | the shape depends only on the screen's height and width, not on the window, frame or rotation |
| WindowSize.IsLandscape | src/hooks/useWindowSize.tsx:69-76 | `(shape == landscape)` XOR rotated |
| WindowSize.ScreenSize | src/hooks/useWindowSize.tsx:99-114 | `min(screen.height, availHeight)` by `min(screen.width, availWidth)`, missing values infinite, swapped when rotated |
| WindowSize.RotationFlipsOrientation | src/hooks/useWindowSize.tsx:110-115 | for two windows with the same screen sizes (screen present or not), rotating flips the landscape flag and swaps the screen size |
| WindowSize.GetWindowSize | src/hooks/useWindowSize.tsx:98-141 | never above the window's inner size or the screen size; `isLandscape` is `getIsLandscape()`; when fullscreen or not in an iframe, it is `min(window, screen)` per dimension; in an iframe, landscape takes 76 off the screen width and 64 off its height, and portrait takes 64 off the height only |
| WindowSize.IframeNeverLarger | src/hooks/useWindowSize.tsx:117-138 | the iframe branches never give more than the fullscreen result in either dimension |

## Left out

- Rendering: JSX becomes an element tree that keeps only component types, props,
  class names and the inline style the wrappers set. Text children are dropped,
  for example "width {width} height {height}" in `RowsWrapper` and `MyBigCard`.
  CSS modules are dropped too.
- Props: only `width`, `height`, `aspectRatio` and `borderWidth` are modelled. The
  spreads carry any other props through unchanged, and the model does not track them.
  This includes the `ChildComponent` prop, which `GrayBorder` passes on to its child.
- Sizing.GetValue: the TypeScript code takes any `typeof x === 'function'` value to be a
  callback. The model has a separate `Callback` case. Its callback is given the full
  props, as the code's callback is at run time.
- The `console.log` in `withFlexLeftSized` is left out. It has no effect on sizes or
  content.
- src/screens/play/CardsRowContents.tsx is not part of this model. It is scroll
  handling over live DOM measurements.
- Numbers are exact reals. JavaScript's floating-point rounding, NaN and IEEE
  infinity are not modelled. A screen size that is missing and defaults to
  `Infinity` is `None`.
- `useWindowSize` itself is left out. It is a React hook that returns
  `getWindowSize(false)` together with the `getWindowSize` function.
- Reading `window` and `screen` is left out. These globals are the `Window` input
  record.
