/** `SmartScaffold`: a top bar, the content and a bottom bar stacked in the
    layout's full height. The bars take their measured heights, the content the
    height left between them, and each part is told how much of the window its
    neighbours take. */
module SmartScaffold {
  import opened ComposeLayout
  import opened SplitLayout

  /** A placed child: the constraints it was measured with, its measured size
      and its offset. */
  datatype Placed = Placed(constraints: Constraints, size: Size, x: int, y: int)

  datatype ScaffoldLayout = ScaffoldLayout(width: int, height: int, topBar: Placed, content: Placed, bottomBar: Placed)

  /** The content's constraints: the incoming ones with the height the bars
      leave as the largest height; the smallest height is kept. */
  function ContentConstraints(c: Constraints, topBarHeight: int, bottomBarHeight: int): (cc: Constraints)
    ensures cc.minWidth == c.minWidth && cc.maxWidth == c.maxWidth && cc.minHeight == c.minHeight
    ensures topBarHeight + cc.maxHeight + bottomBarHeight == c.maxHeight
  {
    c.(maxHeight := c.maxHeight - topBarHeight - bottomBarHeight, minHeight := c.minHeight)
  }

  /** The scaffold for bars measured as `topBar` and `bottomBar` under the
      incoming constraints, and content measuring as `measureContent` says.
      The three parts are stacked: the top bar at the top edge, the content
      right below it with room up to the bottom bar, and the bottom bar
      against the bottom edge. */
  function Scaffold(c: Constraints, topBar: Size, bottomBar: Size, measureContent: Constraints -> Size)
    : (r: ScaffoldLayout)
    ensures r.width == c.maxWidth && r.height == c.maxHeight
    ensures r.topBar.x == 0 && r.content.x == 0 && r.bottomBar.x == 0
    ensures r.topBar.y == 0 && r.content.y == r.topBar.y + r.topBar.size.height
    ensures r.content.y + r.content.constraints.maxHeight == r.bottomBar.y
    ensures r.bottomBar.y + r.bottomBar.size.height == r.height
    ensures r.topBar.constraints == c && r.bottomBar.constraints == c
    ensures r.content.size == measureContent(r.content.constraints)
  {
    var contentConstraints := ContentConstraints(c, topBar.height, bottomBar.height);
    ScaffoldLayout(c.maxWidth, c.maxHeight,
                   Placed(c, topBar, 0, 0),
                   Placed(contentConstraints, measureContent(contentConstraints), 0, topBar.height),
                   Placed(c, bottomBar, 0, c.maxHeight - bottomBar.height))
  }

  /** Content no taller than its largest height ends at or above the bottom bar. */
  lemma ContentAboveBottomBar(c: Constraints, topBar: Size, bottomBar: Size, measureContent: Constraints -> Size)
    requires var r := Scaffold(c, topBar, bottomBar, measureContent);
      r.content.size.height <= r.content.constraints.maxHeight
    ensures var r := Scaffold(c, topBar, bottomBar, measureContent);
      r.content.y + r.content.size.height <= r.bottomBar.y
  {
  }

  /** The measure block of `SmartScaffold`: the top bar's bottom and the
      content's top consume the top bar's height, the content's bottom and the
      bottom bar's top the bottom bar's height. */
  method MeasureScaffold(constraints: Constraints, topBar: Size, bottomBar: Size, measureContent: Constraints -> Size,
                         consumedInsetsTopBar: MutablePaddingValues, consumedInsetsBottomBar: MutablePaddingValues,
                         consumedInsetsContent: MutablePaddingValues)
    returns (layout: ScaffoldLayout)
    requires consumedInsetsTopBar != consumedInsetsBottomBar && consumedInsetsTopBar != consumedInsetsContent
    requires consumedInsetsBottomBar != consumedInsetsContent
    modifies consumedInsetsTopBar, consumedInsetsBottomBar, consumedInsetsContent
    ensures layout == Scaffold(constraints, topBar, bottomBar, measureContent)
    ensures consumedInsetsTopBar.bottom == layout.topBar.size.height
    ensures consumedInsetsContent.top == layout.topBar.size.height
    ensures consumedInsetsContent.bottom == layout.bottomBar.size.height
    ensures consumedInsetsBottomBar.top == layout.bottomBar.size.height
    ensures consumedInsetsTopBar.start == old(consumedInsetsTopBar.start)
         && consumedInsetsTopBar.top == old(consumedInsetsTopBar.top)
         && consumedInsetsTopBar.end == old(consumedInsetsTopBar.end)
    ensures consumedInsetsContent.start == old(consumedInsetsContent.start)
         && consumedInsetsContent.end == old(consumedInsetsContent.end)
    ensures consumedInsetsBottomBar.start == old(consumedInsetsBottomBar.start)
         && consumedInsetsBottomBar.end == old(consumedInsetsBottomBar.end)
         && consumedInsetsBottomBar.bottom == old(consumedInsetsBottomBar.bottom)
  {
    var width := constraints.maxWidth;
    var height := constraints.maxHeight;
    var maxContentHeight := height - topBar.height - bottomBar.height;
    var contentConstraints := constraints.(maxHeight := maxContentHeight, minHeight := constraints.minHeight);
    var content := measureContent(contentConstraints);
    consumedInsetsTopBar.bottom := topBar.height;
    consumedInsetsContent.top := topBar.height;
    consumedInsetsContent.bottom := bottomBar.height;
    consumedInsetsBottomBar.top := bottomBar.height;
    layout := ScaffoldLayout(width, height,
                             Placed(constraints, topBar, 0, 0),
                             Placed(contentConstraints, content, 0, topBar.height),
                             Placed(constraints, bottomBar, 0, height - bottomBar.height));
  }
}
