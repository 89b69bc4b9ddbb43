/** The viewport-size estimate of src/hooks/useWindowSize.tsx.

    The browser globals the TypeScript code reads (`window.screen`, `window.orientation`,
    `window.origin`, `window.innerWidth`, `window.innerHeight`) are an explicit input
    record. A property read through `?.` or replaced by `?? Infinity` is an `Option`;
    in screen sizes `None` stands for positive infinity. */
module WindowSize {
  import opened Optional

  datatype ScreenOrientation = ScreenOrientation(angle: real)

  /** `window.screen`, each property possibly missing. */
  datatype Screen = Screen(
    orientation: Option<ScreenOrientation>,
    height: Option<real>,
    width: Option<real>,
    availHeight: Option<real>,
    availWidth: Option<real>)

  /** The browser state one call reads. `orientation` is the legacy
      `window.orientation` when it is a number, `None` otherwise; `origin` is `None`
      when `window.origin` is `null`. */
  datatype Window = Window(
    screen: Option<Screen>,
    orientation: Option<real>,
    origin: Option<string>,
    innerWidth: real,
    innerHeight: real)

  datatype DeviceShape = Landscape | Portrait

  /** A width and height that may be infinite (`None`). */
  datatype Extent = Extent(h: Option<real>, w: Option<real>)

  datatype Result = Result(width: real, height: real, isLandscape: bool)

  const IFRAME_LANDSCAPE_SIDE_PADDING: real := 76.0
  const IFRAME_HEADER_HEIGHT: real := 64.0

  /** `Math.min` where `None` is positive infinity. */
  function MinInf(a: Option<real>, b: Option<real>): (r: Option<real>)
    ensures r == None <==> a == None && b == None
    ensures r.Some? ==> (a.Some? ==> r.value <= a.value) && (b.Some? ==> r.value <= b.value)
    ensures r.Some? ==> r == a || r == b
  {
    match (a, b)
    case (None, _) => b
    case (_, None) => a
    case (Some(x), Some(y)) => Some(if x < y then x else y)
  }

  /** `Math.min(x, bound)` for a finite `x`. */
  function MinWith(x: real, bound: Option<real>): (r: real)
    ensures r <= x
    ensures bound.Some? ==> r <= bound.value
    ensures r == x || bound == Some(r)
  {
    match bound
    case None => x
    case Some(y) => if y < x then y else x
  }

  /** `bound - d`, infinity staying infinite. */
  function Less(bound: Option<real>, d: real): Option<real> {
    match bound
    case None => None
    case Some(y) => Some(y - d)
  }

  datatype ScreenProperty = Height | Width | AvailHeight | AvailWidth

  /** `window.screen?.<property>`: missing when there is no screen. */
  function ScreenValue(screen: Option<Screen>, property: ScreenProperty): Option<real> {
    match screen
    case None => None
    case Some(s) =>
      match property
      case Height => s.height
      case Width => s.width
      case AvailHeight => s.availHeight
      case AvailWidth => s.availWidth
  }

  /** JavaScript truthiness of an optional number: present and non-zero. */
  predicate Truthy(x: Option<real>) {
    x.Some? && x.value != 0.0
  }

  /** `isOrientationRotated`: the angle of `screen.orientation` when that object is
      there, else the legacy `window.orientation` when it is a number; rotated iff the
      angle used is not 0, and not rotated when there is no angle at all. */
  function IsOrientationRotated(win: Window): (r: bool)
    ensures (win.screen.Some? && win.screen.value.orientation.Some?) ==>
      (r <==> win.screen.value.orientation.value.angle != 0.0)
    ensures (win.screen.None? || win.screen.value.orientation.None?) && win.orientation.Some? ==>
      (r <==> win.orientation.value != 0.0)
    ensures (win.screen.None? || win.screen.value.orientation.None?) && win.orientation.None? ==> !r
  {
    var screenOrientation := if win.screen.Some? then win.screen.value.orientation else None;
    match screenOrientation
    case Some(o) => o.angle != 0.0
    case None =>
      match win.orientation
      case Some(angle) => angle != 0.0
      case None => false
  }

  /** `isIframe`: true exactly when the origin is `null` or the string "null". */
  function IsIframe(win: Window): (r: bool)
    ensures r <==> win.origin == None || win.origin == Some("null")
  {
    match win.origin
    case None => true
    case Some(o) => o == "null"
  }

  /** `getPhysicalDeviceShape`: landscape exactly when the screen's height and width
      are both there and non-zero and the height is the smaller. */
  function PhysicalDeviceShape(win: Window): (r: DeviceShape)
    ensures r == Landscape <==>
      win.screen.Some? && Truthy(win.screen.value.height) && Truthy(win.screen.value.width) &&
      win.screen.value.height.value < win.screen.value.width.value
  {
    var height := ScreenValue(win.screen, Height);
    var width := ScreenValue(win.screen, Width);
    if Truthy(height) && Truthy(width) && height.value < width.value then Landscape else Portrait
  }

  /** `getIsLandscape`: the physical shape, flipped when the device is rotated. */
  function IsLandscape(win: Window): (r: bool)
    ensures r <==> (PhysicalDeviceShape(win) == Landscape) != IsOrientationRotated(win)
  {
    var isLandscape := PhysicalDeviceShape(win) == Landscape;
    if IsOrientationRotated(win) then !isLandscape else isLandscape
  }

  /** The screen size `getWindowSize` starts from: the smaller of the screen size and
      the available screen size in each dimension (missing values infinite), with height
      and width swapped when the device is rotated. */
  function ScreenSize(win: Window): (r: Extent)
    ensures var h := MinInf(ScreenValue(win.screen, Height), ScreenValue(win.screen, AvailHeight));
      var w := MinInf(ScreenValue(win.screen, Width), ScreenValue(win.screen, AvailWidth));
      r == if IsOrientationRotated(win) then Extent(w, h) else Extent(h, w)
  {
    var size := Extent(
      MinInf(ScreenValue(win.screen, Height), ScreenValue(win.screen, AvailHeight)),
      MinInf(ScreenValue(win.screen, Width), ScreenValue(win.screen, AvailWidth)));
    if IsOrientationRotated(win) then Extent(size.w, size.h) else size
  }

  /** `getWindowSize(isFullscreen)`. Never larger than the window's inner size nor the
      screen size; fullscreen, or outside an iframe, exactly the smaller of the two per
      dimension; inside an iframe in landscape the screen width loses 76 and its height
      64, in portrait only the height loses 64. */
  function GetWindowSize(win: Window, isFullscreen: bool): (r: Result)
    ensures r.width <= win.innerWidth && r.height <= win.innerHeight
    ensures ScreenSize(win).w.Some? ==> r.width <= ScreenSize(win).w.value
    ensures ScreenSize(win).h.Some? ==> r.height <= ScreenSize(win).h.value
    ensures r.isLandscape == IsLandscape(win)
    ensures isFullscreen || !IsIframe(win) ==>
      r.width == MinWith(win.innerWidth, ScreenSize(win).w) &&
      r.height == MinWith(win.innerHeight, ScreenSize(win).h)
    ensures !isFullscreen && IsIframe(win) && IsLandscape(win) ==>
      r.width == MinWith(win.innerWidth, Less(ScreenSize(win).w, IFRAME_LANDSCAPE_SIDE_PADDING)) &&
      r.height == MinWith(win.innerHeight, Less(ScreenSize(win).h, IFRAME_HEADER_HEIGHT))
    ensures !isFullscreen && IsIframe(win) && !IsLandscape(win) ==>
      r.width == MinWith(win.innerWidth, ScreenSize(win).w) &&
      r.height == MinWith(win.innerHeight, Less(ScreenSize(win).h, IFRAME_HEADER_HEIGHT))
  {
    var screenSize := ScreenSize(win);
    var isLandscape := IsLandscape(win);
    var defaultResult := Result(MinWith(win.innerWidth, screenSize.w), MinWith(win.innerHeight, screenSize.h), isLandscape);
    if isFullscreen then defaultResult
    else if IsIframe(win) then
      if isLandscape then
        Result(
          MinWith(win.innerWidth, Less(screenSize.w, IFRAME_LANDSCAPE_SIDE_PADDING)),
          MinWith(win.innerHeight, Less(screenSize.h, IFRAME_HEADER_HEIGHT)),
          isLandscape)
      else
        Result(MinWith(win.innerWidth, screenSize.w), MinWith(win.innerHeight, Less(screenSize.h, IFRAME_HEADER_HEIGHT)), isLandscape)
    else defaultResult
  }

  /** Inside an iframe the estimate only ever shrinks: the non-fullscreen result is
      never larger, in either dimension, than the fullscreen one. */
  lemma IframeNeverLarger(win: Window)
    ensures GetWindowSize(win, false).width <= GetWindowSize(win, true).width
    ensures GetWindowSize(win, false).height <= GetWindowSize(win, true).height
  {
  }

  /** The physical shape is that of the device, not of the moment: it depends on the
      screen's height and width only, so resizing the window, changing frame or
      rotating the device leaves it unchanged. */
  lemma PhysicalShapeIsStable(a: Window, b: Window)
    requires ScreenValue(a.screen, Height) == ScreenValue(b.screen, Height)
    requires ScreenValue(a.screen, Width) == ScreenValue(b.screen, Width)
    ensures PhysicalDeviceShape(a) == PhysicalDeviceShape(b)
  {
  }

  /** Rotating the device flips the landscape flag and swaps the screen size. */
  lemma RotationFlipsOrientation(a: Window, b: Window)
    requires forall q :: ScreenValue(a.screen, q) == ScreenValue(b.screen, q)
    requires IsOrientationRotated(a) != IsOrientationRotated(b)
    ensures IsLandscape(a) == !IsLandscape(b)
    ensures ScreenSize(a) == Extent(ScreenSize(b).w, ScreenSize(b).h)
  {
    PhysicalShapeIsStable(a, b);
  }
}
