/** `SmartInsetsConsumer`: a layout with at most one child that, once placed,
    consumes on each side the distance from its own edge to the window's edge,
    so that its content only pads for the insets that actually reach it. The
    holder classes keep fixed left and right paddings or insets that do not
    depend on the layout direction. */
module SmartInsets {
  import opened Wrappers
  import opened Geometry
  import opened ComposeLayout

  /** `MutableFixedPaddingValues` (and `DeferredFixedPaddingValues`, whose
      fields and getters are the same): left and right are fixed, whatever the
      layout direction. All four start at 0. */
  class MutableFixedPaddingValues {
    var left: int
    var top: int
    var right: int
    var bottom: int

    constructor()
      ensures left == 0 && top == 0 && right == 0 && bottom == 0
    {
      left, top, right, bottom := 0, 0, 0, 0;
    }

    function CalculateLeftPadding(layoutDirection: LayoutDirection): int
      reads this
    {
      left
    }

    function CalculateRightPadding(layoutDirection: LayoutDirection): int
      reads this
    {
      right
    }

    function CalculateTopPadding(): int
      reads this
    {
      top
    }

    function CalculateBottomPadding(): int
      reads this
    {
      bottom
    }
  }

  /** The fixed paddings are the stored left and right in both directions. */
  lemma FixedPaddingIgnoresDirection(p: MutableFixedPaddingValues, d: LayoutDirection)
    ensures p.CalculateLeftPadding(d) == p.left && p.CalculateRightPadding(d) == p.right
    ensures p.CalculateLeftPadding(Ltr) == p.CalculateLeftPadding(Rtl)
  {
  }

  /** `MutableFixedIntWindowInsets`: window insets that are four stored pixel
      values, whatever the density and the layout direction. All start at 0. */
  class MutableFixedIntWindowInsets {
    var left: int
    var top: int
    var right: int
    var bottom: int

    constructor()
      ensures left == 0 && top == 0 && right == 0 && bottom == 0
    {
      left, top, right, bottom := 0, 0, 0, 0;
    }

    /** `getLeft(density, layoutDirection)`; the density is 1 throughout. */
    function GetLeft(layoutDirection: LayoutDirection): int
      reads this
    {
      left
    }

    function GetRight(layoutDirection: LayoutDirection): int
      reads this
    {
      right
    }

    function GetTop(): int
      reads this
    {
      top
    }

    function GetBottom(): int
      reads this
    {
      bottom
    }

    /** The four values as an `Insets` value. */
    function AsInsets(): Insets
      reads this
    {
      Insets(left, top, right, bottom)
    }
  }

  /** The insets are the stored values in both directions. */
  lemma FixedInsetsIgnoreDirection(i: MutableFixedIntWindowInsets, d: LayoutDirection)
    ensures i.GetLeft(d) == i.left && i.GetRight(d) == i.right
    ensures i.GetLeft(Ltr) == i.GetLeft(Rtl) && i.GetRight(Ltr) == i.GetRight(Rtl)
  {
  }

  /** A fresh holder reports no insets at all. */
  method NewFixedInsets() returns (i: MutableFixedIntWindowInsets)
    ensures fresh(i) && i.AsInsets() == NoInsets
  {
    i := new MutableFixedIntWindowInsets();
  }

  // ---- SmartInsetsConsumer ----

  const OnlyOneChildMessage: string := "Only one child composable allowed!"

  /** What a component at `pos` of size `size` consumes: on each side the
      distance from its edge to the window's edge, or 0 where it reaches past
      the window. */
  function ConsumedInsets(pos: Offset, window: Size, size: Size): (r: Insets)
    ensures r.left >= 0 && r.top >= 0 && r.right >= 0 && r.bottom >= 0
  {
    Insets(Max(0, pos.x), Max(0, pos.y),
           Max(0, window.width - pos.x - size.width), Max(0, window.height - pos.y - size.height))
  }

  /** A component that lies inside the window is tiled with what it consumes:
      the left distance, its width and the right distance make the window's
      width, and likewise for the height. */
  lemma ConsumedTilesWindow(pos: Offset, window: Size, size: Size)
    requires 0 <= pos.x && pos.x + size.width <= window.width
    requires 0 <= pos.y && pos.y + size.height <= window.height
    ensures var r := ConsumedInsets(pos, window, size);
      r.left + size.width + r.right == window.width && r.top + size.height + r.bottom == window.height
  {
  }

  /** A component filling the whole window consumes nothing. */
  lemma FullWindowConsumesNothing(window: Size)
    ensures ConsumedInsets(Offset(0, 0), window, window) == NoInsets
  {
  }

  /** The measure step: more than one child throws, no child gives 0 x 0, and
      one child gives its measured size. */
  function SmartSize(children: seq<Size>): (r: Result<Size, string>)
    ensures r.Err? <==> |children| > 1
    ensures r.Err? ==> r.error == OnlyOneChildMessage
    ensures children == [] ==> r == Ok(Size(0, 0))
    ensures |children| == 1 ==> r == Ok(children[0])
  {
    if |children| > 1 then Err(OnlyOneChildMessage)
    else if children == [] then Ok(Size(0, 0))
    else Ok(children[0])
  }

  /** The measure and place block of `SmartInsetsConsumer`. `children` are the
      sizes the children measure to under the incoming constraints; `pos` is the
      position in the window, absent when the layout has no coordinates. */
  method MeasureSmartInsetsConsumer(children: seq<Size>, pos: Option<Offset>, windowSize: Size,
                                    consumedWindowInsets: MutableFixedPaddingValues)
    returns (r: Result<Size, string>)
    modifies consumedWindowInsets
    ensures r == SmartSize(children)
    ensures r.Ok? && pos.Some? ==>
      var c := ConsumedInsets(pos.value, windowSize, r.value);
      consumedWindowInsets.left == c.left && consumedWindowInsets.top == c.top
      && consumedWindowInsets.right == c.right && consumedWindowInsets.bottom == c.bottom
    ensures r.Err? || pos.None? ==> unchanged(consumedWindowInsets)
  {
    if |children| > 1 {
      return Err(OnlyOneChildMessage);
    }
    var placeable: Option<Size> := if children == [] then None else Some(children[0]);
    var width := if placeable.Some? then placeable.value.width else 0;
    var height := if placeable.Some? then placeable.value.height else 0;
    if pos.Some? {
      var leftConsumed := pos.value.x;
      var topConsumed := pos.value.y;
      var rightConsumed := windowSize.width - pos.value.x - width;
      var bottomConsumed := windowSize.height - pos.value.y - height;
      consumedWindowInsets.top := Max(0, topConsumed);
      consumedWindowInsets.bottom := Max(0, bottomConsumed);
      consumedWindowInsets.left := Max(0, leftConsumed);
      consumedWindowInsets.right := Max(0, rightConsumed);
    }
    r := Ok(Size(width, height));
  }
}
