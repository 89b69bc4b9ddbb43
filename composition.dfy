/** Arbitrary compositions of the sized wrappers of src/components/hoc/sizing.tsx.

    A `Layout` is a term built from the wrappers exactly as a TypeScript expression such
    as `withPaddingSized(12)(withAutoWidthSized(defaultSizer(Card)))` is built; `Build`
    turns it into the sized component that expression denotes. The lemmas state laws
    of the protocol that hold for every such composition. */
module Composition {
  import opened Sizing

  datatype Layout<C> =
    | Default(component: C)                                          // defaultSizer(component)
    | Custom(sized: SizedComponent<C>)                               // any other sized component
    | Padding(padding: CallbackOrValue<real>, child: Layout<C>)      // withPaddingSized(padding)(child)
    | AutoWidth(defaultRatio: real, child: Layout<C>)                // withAutoWidthSized(child), ratio defaulting to defaultRatio
    | FlexLeft(paddingBetween: real, left: Layout<C>, right: Layout<C>) // withFlexLeftSized({ paddingBetween })(left, right)

  /** The sized component a layout term denotes. */
  function Build<C>(l: Layout<C>): SizedComponent<C> {
    match l
    case Default(c) => DefaultSizer(c)
    case Custom(s) => s
    case Padding(p, child) => WithPaddingSized(p, Build(child))
    case AutoWidth(ratio, child) => WithAutoWidthSizedAt(ratio, Build(child))
    case FlexLeft(g, left, right) => WithFlexLeftSized(g, Build(left), Build(right))
  }

  /** Layouts that take all the width they are offered: the default sizer, padding
      around such a layout, and a flex row whose left side is such a layout. */
  predicate FillsWidth<C>(l: Layout<C>) {
    match l
    case Default(_) => true
    case Custom(_) => false
    case Padding(_, child) => FillsWidth(child)
    case AutoWidth(_, _) => false
    case FlexLeft(_, left, _) => FillsWidth(left)
  }

  /** Layouts that take all the height they are offered: every wrapper passes the
      height through, so this holds when every leaf is a default sizer. */
  predicate FillsHeight<C>(l: Layout<C>) {
    match l
    case Default(_) => true
    case Custom(_) => false
    case Padding(_, child) => FillsHeight(child)
    case AutoWidth(_, child) => FillsHeight(child)
    case FlexLeft(_, left, right) => FillsHeight(left) && FillsHeight(right)
  }

  /** Layouts that never report more height than they are offered. */
  ghost predicate FitsHeight<C>(l: Layout<C>) {
    match l
    case Default(_) => true
    case Custom(s) => forall props :: s(props).sizes.height <= props.height
    case Padding(_, child) => FitsHeight(child)
    case AutoWidth(_, child) => FitsHeight(child)
    case FlexLeft(_, left, right) => FitsHeight(left) && FitsHeight(right)
  }

  /** Width conservation, for every composition: a width-filling layout reports exactly
      the available width, whatever paddings, gaps and right-hand children it holds. */
  lemma {:induction false} FillsWidthReportsAvailableWidth<C>(l: Layout<C>, props: Props)
    requires FillsWidth(l)
    ensures Build(l)(props).sizes.width == props.width
  {
    match l
    case Default(_) =>
    case Padding(p, child) =>
      FillsWidthReportsAvailableWidth(child, Shrunk(props, GetValue(p, props)));
    case FlexLeft(g, left, right) =>
      var rr := Build(right)(props);
      FillsWidthReportsAvailableWidth(left, WithSizes(props, props.width - rr.sizes.width - g, props.height));
  }

  /** A height-filling layout reports exactly the available height. */
  lemma {:induction false} FillsHeightReportsAvailableHeight<C>(l: Layout<C>, props: Props)
    requires FillsHeight(l)
    ensures Build(l)(props).sizes.height == props.height
  {
    match l
    case Default(_) =>
    case Padding(p, child) =>
      FillsHeightReportsAvailableHeight(child, Shrunk(props, GetValue(p, props)));
    case AutoWidth(ratio, child) =>
      FillsHeightReportsAvailableHeight(child, AutoWidthProps(props, ratio));
    case FlexLeft(g, left, right) =>
      var rr := Build(right)(props);
      FillsHeightReportsAvailableHeight(right, props);
      FillsHeightReportsAvailableHeight(left, WithSizes(props, props.width - rr.sizes.width - g, props.height));
  }

  /** Height is bounded: a layout all of whose parts fit the height they are offered
      fits the height it is offered, because the flex row's height is the larger of two
      heights that both fit. */
  lemma {:induction false} FitsHeightBoundsHeight<C>(l: Layout<C>, props: Props)
    requires FitsHeight(l)
    ensures Build(l)(props).sizes.height <= props.height
  {
    match l
    case Default(_) =>
    case Custom(_) =>
    case Padding(p, child) =>
      FitsHeightBoundsHeight(child, Shrunk(props, GetValue(p, props)));
    case AutoWidth(ratio, child) =>
      FitsHeightBoundsHeight(child, AutoWidthProps(props, ratio));
    case FlexLeft(g, left, right) =>
      var rr := Build(right)(props);
      FitsHeightBoundsHeight(right, props);
      FitsHeightBoundsHeight(left, WithSizes(props, props.width - rr.sizes.width - g, props.height));
  }
}
