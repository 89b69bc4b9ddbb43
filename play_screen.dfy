/** The play screen of src/screens/play/PlayScreen.tsx.

    The file carries its own copies of the sized wrappers. Its `withGrayBorder`,
    `withFlexLeftSized`, `defaultSizer` and `unSizer` are the same code as in
    src/components/hoc/sizing.tsx and are used from `Sizing`; its `withPaddingSized`
    takes a plain number and its `withAutoWidthSized` defaults the aspect ratio to 4/7,
    so those two are defined here (the second as the shared auto-width wrapper at 4/7). The screen itself is a fixed composition:
    a gray border around 16 of padding around `MyPlayScreen`, which shows a flex row of
    the rows area and a big card of fixed aspect ratio. */
module Play {
  import opened Optional
  import opened Sizing
  import Composition

  /** The plain components of the file, as React element types. `PaddedPlayScreen` is
      the unnamed `unSizer(withPaddingSized(16)(defaultSizer(MyPlayScreen)))`. */
  datatype Component = MyBigCard | RowsWrapper | RowsWrapperAndBigCard | MyPlayScreen | PaddedPlayScreen | PlayScreen

  const DEFAULT_ASPECT_RATIO: real := 4.0 / 7.0
  const BIG_CARD_PADDING: real := 12.0
  const ROW_GAP: real := 16.0
  const SCREEN_PADDING: real := 16.0

  /** `GrayBorder`, the function-component form of the border: the child element gets
      the available size less the border width (default 6) on each side; the bordered
      box itself sets only its border width. */
  function GrayBorder<C>(child: C, props: Props): (r: Element<C>)
    ensures var b := BorderWidthOf(props);
      r.Div? && r.box.style == Style(None, Some(b), None, None) &&
      r.children == [Elem(child, WithSizes(props, props.width - 2.0 * b, props.height - 2.0 * b))]
  {
    var b := BorderWidthOf(props);
    Div(Box(Some("grayBorder"), Style(None, Some(b), None, None)), [Elem(child, Shrunk(props, b))])
  }

  /** One call of the fixed-padding wrapper on `props`: the child is called on the
      available size less the padding on each side, and the padding is added back. */
  function PaddedCall<C>(padding: real, child: SizedComponent<C>, props: Props): Sized<C> {
    var inner := child(WithSizes(props, props.width - 2.0 * padding, props.height - 2.0 * padding));
    var mine := Sizes(inner.sizes.width + 2.0 * padding, inner.sizes.height + 2.0 * padding);
    Sized(mine, Div(PaddingBox(padding, mine), [inner.content]))
  }

  /** `withPaddingSized(padding)` with a fixed padding: shrinks the child's space by
      twice the padding and grows the child's report by the same amount. */
  function WithPaddingSized<C>(padding: real, child: SizedComponent<C>): (r: SizedComponent<C>)
    ensures forall props: Props {:trigger r(props)} ::
      var inner := child(WithSizes(props, props.width - 2.0 * padding, props.height - 2.0 * padding));
      r(props).sizes == Sizes(inner.sizes.width + 2.0 * padding, inner.sizes.height + 2.0 * padding) &&
      r(props).content == Div(PaddingBox(padding, r(props).sizes), [inner.content])
  {
    (props: Props) => PaddedCall(padding, child, props)
  }

  /** `withAutoWidthSized` with the aspect ratio defaulting to 4/7. */
  function WithAutoWidthSized<C>(child: SizedComponent<C>): (r: SizedComponent<C>)
    ensures forall props {:trigger r(props)} :: r(props) == child(AutoWidthProps(props, DEFAULT_ASPECT_RATIO))
  {
    WithAutoWidthSizedAt(DEFAULT_ASPECT_RATIO, child)
  }

  /** `BigCard = withPaddingSized(12)(withAutoWidthSized(defaultSizer(MyBigCard)))`. */
  function BigCard(): SizedComponent<Component> {
    WithPaddingSized(BIG_CARD_PADDING, WithAutoWidthSized(DefaultSizer(MyBigCard)))
  }

  /** The sized flex row inside `RowsWrapperAndBigCard`:
      `withFlexLeftSized({ paddingBetween: 16 })(defaultSizer(RowsWrapper), BigCard)`. */
  function RowsAndCard(): SizedComponent<Component> {
    WithFlexLeftSized(ROW_GAP, DefaultSizer(RowsWrapper), BigCard())
  }

  /** The box a leaf component draws at exactly its props' size (its text is not modelled). */
  function SizedBox(className: string, props: Props): Element<Component> {
    Div(Box(Some(className), Style(None, None, Some(props.width), Some(props.height))), [])
  }

  /** What React renders for an element of each component of the file. */
  function Render(c: Component, props: Props): Element<Component> {
    match c
    case MyBigCard => SizedBox("singleInfoArea", props)
    case RowsWrapper => SizedBox("rowsWrapper", props)
    case RowsWrapperAndBigCard => UnSizer(RowsAndCard())(props)
    case MyPlayScreen =>
      Div(Box(Some("playScreenContainer"), Style(None, None, None, None)),
          [Elem(RowsWrapperAndBigCard, Props(props.width, props.height, None, None))])
    case PaddedPlayScreen => UnSizer(WithPaddingSized(SCREEN_PADDING, DefaultSizer(MyPlayScreen)))(props)
    case PlayScreen => WithGrayBorder(PaddedPlayScreen)(props)
  }

  /** The width of the big card for a given available height and aspect ratio. */
  function BigCardWidth(height: real, ratio: real): real {
    (height - 2.0 * BIG_CARD_PADDING) * ratio + 2.0 * BIG_CARD_PADDING
  }

  /** The padding wrapper of this file is the general one at a fixed value. */
  lemma PaddingAgreesWithSizing<C>(padding: real, child: SizedComponent<C>, props: Props)
    ensures WithPaddingSized(padding, child)(props) == Sizing.WithPaddingSized(Value(padding), child)(props)
  {
  }

  /** Padding over the default sizer is the identity on sizes. */
  lemma PaddingRoundTrip<C>(padding: real, component: C, props: Props)
    ensures WithPaddingSized(padding, DefaultSizer(component))(props).sizes == SizesOf(props)
  {
  }

  /** The function component and the wrapper give the child the same props. */
  lemma GrayBorderAgreesWithWrapper<C>(child: C, props: Props)
    ensures GrayBorder(child, props).children == WithGrayBorder(child)(props).children
  {
  }

  /** `BigCard` on available height `h` reports height `h` and width
      `(h - 24) * ratio + 24`; the card inside is drawn at `(h - 24) * ratio` by `h - 24`. */
  lemma BigCardSizes(props: Props)
    ensures var ratio := AspectRatioOf(props, DEFAULT_ASPECT_RATIO);
      BigCard()(props).sizes == Sizes(BigCardWidth(props.height, ratio), props.height) &&
      BigCard()(props).content.children
        == [Elem(MyBigCard, WithSizes(props, (props.height - 24.0) * ratio, props.height - 24.0))]
  {
    var inner := WithSizes(props, props.width - 24.0, props.height - 24.0);
    assert AspectRatioOf(inner, DEFAULT_ASPECT_RATIO) == AspectRatioOf(props, DEFAULT_ASPECT_RATIO);
    assert AutoWidthProps(inner, DEFAULT_ASPECT_RATIO)
        == WithSizes(props, (props.height - 24.0) * AspectRatioOf(props, DEFAULT_ASPECT_RATIO), props.height - 24.0);
  }

  /** The flex row fills the available width exactly: the rows area is given
      `W - BigCard.width - 16`, and the gap and the card make up the rest. Its height is
      the available height, the larger of the two equal child heights. */
  lemma RowsAndCardFills(props: Props)
    ensures var cardWidth := BigCardWidth(props.height, AspectRatioOf(props, DEFAULT_ASPECT_RATIO));
      RowsAndCard()(props).sizes == SizesOf(props) &&
      RowsAndCard()(props).content.children[0]
        == Elem(RowsWrapper, WithSizes(props, props.width - cardWidth - 16.0, props.height))
  {
    BigCardSizes(props);
  }

  /** `PlayScreen`, read outside in: the border, then the 16 of padding. The padded
      screen receives the available size less the border on each side, and
      `MyPlayScreen` that size less 16 more on each side: `(width - 44, height - 44)`
      with the default border of 6. */
  lemma MyPlayScreenReceives(props: Props)
    ensures var b := BorderWidthOf(props);
      var padded := WithSizes(props, props.width - 2.0 * b, props.height - 2.0 * b);
      Render(PlayScreen, props).children == [Elem(PaddedPlayScreen, padded)] &&
      Render(PaddedPlayScreen, padded).children
        == [Elem(MyPlayScreen, WithSizes(props, props.width - 2.0 * b - 32.0, props.height - 2.0 * b - 32.0))]
    ensures props.borderWidth == None ==>
      Render(PaddedPlayScreen, Shrunk(props, 6.0)).children
        == [Elem(MyPlayScreen, WithSizes(props, props.width - 44.0, props.height - 44.0))]
  {
  }

  /** `MyPlayScreen` hands the flex row only its width and height, so the big card
      always uses the default aspect ratio 4/7 there, and the rows area is given the
      width the card and the gap leave. */
  lemma RowsWrapperInPlayScreen(props: Props)
    ensures var rowProps := Props(props.width, props.height, None, None);
      var cardWidth := BigCardWidth(props.height, DEFAULT_ASPECT_RATIO);
      Render(MyPlayScreen, props).children == [Elem(RowsWrapperAndBigCard, rowProps)] &&
      Render(RowsWrapperAndBigCard, rowProps).children[0]
        == Elem(RowsWrapper, Props(props.width - cardWidth - 16.0, props.height, None, None))
  {
    var rowProps := Props(props.width, props.height, None, None);
    RowsAndCardFills(rowProps);
  }

  /** `BigCard` is the composition `padding 12 (auto-width at 4/7 (default sizer))`, so
      the laws for all compositions apply to it: it reports exactly the height it is
      offered and never more. */
  lemma BigCardIsComposition(props: Props)
    ensures var l := Composition.Padding(Value(BIG_CARD_PADDING),
                       Composition.AutoWidth(DEFAULT_ASPECT_RATIO, Composition.Default(MyBigCard)));
      BigCard()(props) == Composition.Build(l)(props) &&
      BigCard()(props).sizes.height == props.height
  {
    var l := Composition.Padding(Value(BIG_CARD_PADDING),
               Composition.AutoWidth(DEFAULT_ASPECT_RATIO, Composition.Default(MyBigCard)));
    PaddingAgreesWithSizing(BIG_CARD_PADDING, WithAutoWidthSized(DefaultSizer(MyBigCard)), props);
    Composition.FillsHeightReportsAvailableHeight(l, props);
  }
}
