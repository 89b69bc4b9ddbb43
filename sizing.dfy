/** The "sized" composition protocol of src/components/hoc/sizing.tsx.

    A sized component is called with props carrying the AVAILABLE width and
    height and returns a pair: the sizes it actually RENDERED at and its content.
    The wrappers below are higher-order: they take sized (or plain) components and
    return new ones, adjusting the sizes on the way down and on the way up. */
module Sizing {
  import opened Optional

  /** `{ width, height }`, the first half of every sized result. */
  datatype Sizes = Sizes(width: real, height: real)

  /** The props a component is called with. Besides the available width and height,
      only the two optional props the wrappers read are modelled; the object spreads
      of the TypeScript code carry them (and anything else) through unchanged. */
  datatype Props = Props(width: real, height: real, aspectRatio: Option<real>, borderWidth: Option<real>)

  /** The subset of a `<div>`'s inline style the wrappers set. */
  datatype Style = Style(padding: Option<real>, borderWidth: Option<real>, width: Option<real>, height: Option<real>)

  datatype Box = Box(className: Option<string>, style: Style)

  /** Rendered content, as React describes it: an element of a plain component `C`
      together with the props it is given (React calls it later), a `<div>`, or a
      fragment. Text children are not modelled. */
  datatype Element<C> =
    | Elem(component: C, props: Props)
    | Div(box: Box, children: seq<Element<C>>)
    | Fragment(children: seq<Element<C>>)

  /** `Sized<C> = [Sizes, C]`. */
  datatype Sized<C> = Sized(sizes: Sizes, content: Element<C>)

  /** `FCSized<T>`: a sized component. */
  type SizedComponent<C> = Props -> Sized<C>

  /** `FCS<T>` once called: a plain component's render function. */
  type Render<C> = Props -> Element<C>

  /** `CallbackOrValue<T>`: a fixed value, or a function of the props. */
  datatype CallbackOrValue<T> = Value(value: T) | Callback(callback: Props -> T)

  const DEFAULT_BORDER_WIDTH: real := 6.0
  const DEFAULT_ASPECT_RATIO: real := 8.0 / 13.0

  function SizesOf(props: Props): Sizes {
    Sizes(props.width, props.height)
  }

  /** `{ ...props, width, height }`. */
  function WithSizes(props: Props, width: real, height: real): Props {
    props.(width := width, height := height)
  }

  /** The props with `inset` taken off both sides in each dimension. */
  function Shrunk(props: Props, inset: real): Props {
    WithSizes(props, props.width - 2.0 * inset, props.height - 2.0 * inset)
  }

  /** The sizes with `outset` added on both sides in each dimension. */
  function Grown(s: Sizes, outset: real): Sizes {
    Sizes(s.width + 2.0 * outset, s.height + 2.0 * outset)
  }

  function Max(a: real, b: real): real {
    if a < b then b else a
  }

  /** The `borderWidth` prop, defaulting to 6. */
  function BorderWidthOf(props: Props): real {
    GetOr(props.borderWidth, DEFAULT_BORDER_WIDTH)
  }

  function GrayBorderBox(borderWidth: real, width: real, height: real): Box {
    Box(Some("grayBorder"), Style(None, Some(borderWidth), Some(width), Some(height)))
  }

  function PaddingBox(padding: real, s: Sizes): Box {
    Box(Some("withPadding"), Style(Some(padding), None, Some(s.width), Some(s.height)))
  }

  function SpacerBox(width: real, height: real): Box {
    Box(None, Style(None, None, Some(width), Some(height)))
  }

  /** `getValue`: a plain value is returned as it is; a callback is applied to the props. */
  function GetValue<T>(x: CallbackOrValue<T>, props: Props): (r: T)
    ensures x.Value? ==> r == x.value
    ensures x.Callback? ==> r == x.callback(props)
  {
    match x
    case Value(v) => v
    case Callback(f) => f(props)
  }

  /** `withGrayBorder`: a gray-bordered box of the full available size around the
      child, which is given the available size less the border on each side. */
  function WithGrayBorder<C>(child: C): (r: Render<C>)
    ensures forall props {:trigger r(props)} :: r(props).Div? && r(props).children == [Elem(child, Shrunk(props, BorderWidthOf(props)))]
    ensures forall props {:trigger r(props)} :: r(props).box == GrayBorderBox(BorderWidthOf(props), props.width, props.height)
  {
    (props: Props) =>
      var b := BorderWidthOf(props);
      Div(GrayBorderBox(b, props.width, props.height), [Elem(child, Shrunk(props, b))])
  }

  /** `withPaddingSized(p)(child)`: the child is offered the available space less the
      padding on each side, and the result reports the child's size plus that padding.
      Taking the padding back off the report recovers exactly what the child reported. */
  function WithPaddingSized<C>(padding: CallbackOrValue<real>, child: SizedComponent<C>): (r: SizedComponent<C>)
    ensures forall props: Props {:trigger r(props)} ::
      var p := GetValue(padding, props);
      var inner := child(Shrunk(props, p));
      r(props).sizes.width - 2.0 * p == inner.sizes.width &&
      r(props).sizes.height - 2.0 * p == inner.sizes.height &&
      r(props).content == Div(PaddingBox(p, r(props).sizes), [inner.content])
  {
    (props: Props) =>
      var p := GetValue(padding, props);
      var inner := child(Shrunk(props, p));
      var mine := Grown(inner.sizes, p);
      Sized(mine, Div(PaddingBox(p, mine), [inner.content]))
  }

  /** The `aspectRatio` prop (width / height), defaulting to `defaultRatio`. */
  function AspectRatioOf(props: Props, defaultRatio: real): real {
    GetOr(props.aspectRatio, defaultRatio)
  }

  /** The props an auto-width wrapper hands its child: the same height, and the width
      that height calls for at the aspect ratio. */
  function AutoWidthProps(props: Props, defaultRatio: real): Props {
    WithSizes(props, props.height * AspectRatioOf(props, defaultRatio), props.height)
  }

  /** The auto-width wrapper with the aspect ratio defaulting to `defaultRatio`: the
      child keeps the available height and is offered the width that height calls for
      at the aspect ratio; the available width plays no part, and the child's result is
      passed up unchanged. */
  function WithAutoWidthSizedAt<C>(defaultRatio: real, child: SizedComponent<C>): (r: SizedComponent<C>)
    ensures forall props: Props {:trigger r(props)} :: r(props) == child(AutoWidthProps(props, defaultRatio))
  {
    (props: Props) => child(AutoWidthProps(props, defaultRatio))
  }

  /** `withAutoWidthSized(child)`, whose aspect ratio defaults to 8/13. */
  function WithAutoWidthSized<C>(child: SizedComponent<C>): (r: SizedComponent<C>)
    ensures forall props: Props {:trigger r(props)} ::
      r(props) == child(AutoWidthProps(props, 8.0 / 13.0))
  {
    WithAutoWidthSizedAt(DEFAULT_ASPECT_RATIO, child)
  }

  /** `withFlexLeftSized({ paddingBetween })(left, right)`: the right child is laid out
      first on the full props; the left child gets the width that remains after the right
      child and the gap. The result is as wide as the three pieces together and as tall
      as the taller child; its content is left, a spacer of the gap's width, right. */
  function WithFlexLeftSized<C>(paddingBetween: real, left: SizedComponent<C>, right: SizedComponent<C>): (r: SizedComponent<C>)
    ensures forall props: Props {:trigger r(props)} ::
      var rr := right(props);
      var ll := left(WithSizes(props, props.width - rr.sizes.width - paddingBetween, props.height));
      r(props).sizes.width == ll.sizes.width + paddingBetween + rr.sizes.width &&
      r(props).sizes.height >= ll.sizes.height && r(props).sizes.height >= rr.sizes.height &&
      (r(props).sizes.height == ll.sizes.height || r(props).sizes.height == rr.sizes.height) &&
      r(props).content == Fragment([ll.content, Div(SpacerBox(paddingBetween, r(props).sizes.height), []), rr.content])
  {
    (props: Props) =>
      var rr := right(props);
      var ll := left(WithSizes(props, props.width - rr.sizes.width - paddingBetween, props.height));
      var mine := Sizes(ll.sizes.width + paddingBetween + rr.sizes.width, Max(ll.sizes.height, rr.sizes.height));
      Sized(mine, Fragment([ll.content, Div(SpacerBox(paddingBetween, mine.height), []), rr.content]))
  }

  /** `defaultSizer(Component)`: renders the component with the props it is given and
      reports exactly the available size as its own. */
  function DefaultSizer<C>(component: C): (r: SizedComponent<C>)
    ensures forall props {:trigger r(props)} :: r(props).sizes == SizesOf(props) && r(props).content == Elem(component, props)
  {
    props => Sized(SizesOf(props), Elem(component, props))
  }

  /** `unSizer(sized)`: the plain component that renders what `sized` renders and
      forgets the size. */
  function UnSizer<C>(sized: SizedComponent<C>): (r: Render<C>)
    ensures forall props {:trigger r(props)} :: r(props) == sized(props).content
  {
    props => sized(props).content
  }

  /** Padding then the default sizer reports exactly the available size, whatever the
      padding: the padding taken off going down is added back coming up. */
  lemma PaddingRoundTrip<C>(padding: CallbackOrValue<real>, component: C, props: Props)
    ensures WithPaddingSized(padding, DefaultSizer(component))(props).sizes == SizesOf(props)
  {
  }

  /** What the component under padding receives: the available size less twice the
      padding in each dimension, with no clamping at zero. */
  lemma PaddedComponentReceives<C>(padding: CallbackOrValue<real>, component: C, props: Props)
    ensures var p := GetValue(padding, props);
      WithPaddingSized(padding, DefaultSizer(component))(props).content.children
        == [Elem(component, WithSizes(props, props.width - 2.0 * p, props.height - 2.0 * p))]
  {
  }

  /** Two paddings in a row report the same sizes as one padding of their sum. */
  lemma NestedPaddingsAdd<C>(a: real, b: real, child: SizedComponent<C>, props: Props)
    ensures WithPaddingSized(Value(a), WithPaddingSized(Value(b), child))(props).sizes
         == WithPaddingSized(Value(a + b), child)(props).sizes
  {
    assert Shrunk(Shrunk(props, a), b) == Shrunk(props, a + b);
  }

  /** The auto-width wrapper ignores the available width. */
  lemma AutoWidthIgnoresWidth<C>(child: SizedComponent<C>, props: Props, otherWidth: real)
    ensures WithAutoWidthSized(child)(props) == WithAutoWidthSized(child)(props.(width := otherWidth))
  {
    assert AutoWidthProps(props, DEFAULT_ASPECT_RATIO) == AutoWidthProps(props.(width := otherWidth), DEFAULT_ASPECT_RATIO);
  }

  /** Over the default sizer, the auto-width wrapper reports the available height and
      the width that height calls for at the aspect ratio. */
  lemma AutoWidthOfDefault<C>(component: C, props: Props)
    ensures WithAutoWidthSized(DefaultSizer(component))(props).sizes
         == Sizes(props.height * AspectRatioOf(props, DEFAULT_ASPECT_RATIO), props.height)
  {
  }

  /** Width conservation: when the left child fills what it is offered, the flex
      layout is exactly as wide as the available width, and at least as tall as the
      available height and the right child. */
  lemma FlexConservesWidth<C>(paddingBetween: real, component: C, right: SizedComponent<C>, props: Props)
    ensures var r := WithFlexLeftSized(paddingBetween, DefaultSizer(component), right)(props);
      r.sizes.width == props.width &&
      r.sizes.height >= props.height && r.sizes.height >= right(props).sizes.height
  {
  }
}
