/** The two-pane layouts of the layout experiments: a vertical split whose
    second pane is 100 px wide, and vertical and horizontal splits at the middle
    of the window, or of the part of it the insets leave free. Each pane is told
    through a `MutablePaddingValues` that the other pane's extent is consumed on
    its inner side. */
module SplitLayout {
  import opened Wrappers
  import opened Geometry
  import opened ComposeLayout

  /** `MutablePaddingValues`: padding given by start and end, which become left
      and right according to the layout direction. All four start at 0. */
  class MutablePaddingValues {
    var start: int
    var top: int
    var end: int
    var bottom: int

    constructor()
      ensures start == 0 && top == 0 && end == 0 && bottom == 0
    {
      start, top, end, bottom := 0, 0, 0, 0;
    }

    function CalculateLeftPadding(layoutDirection: LayoutDirection): int
      reads this
    {
      if layoutDirection == Ltr then start else end
    }

    function CalculateRightPadding(layoutDirection: LayoutDirection): int
      reads this
    {
      if layoutDirection == Ltr then end else start
    }

    function CalculateTopPadding(): int
      reads this
    {
      top
    }

    function CalculateBottomPadding(): int
      reads this
    {
      bottom
    }
  }

  /** Left is start and right is end left-to-right, and the other way round
      right-to-left: a change of direction swaps the horizontal paddings. */
  lemma PaddingFollowsDirection(p: MutablePaddingValues)
    ensures p.CalculateLeftPadding(Ltr) == p.start && p.CalculateRightPadding(Ltr) == p.end
    ensures p.CalculateLeftPadding(Rtl) == p.CalculateRightPadding(Ltr)
    ensures p.CalculateRightPadding(Rtl) == p.CalculateLeftPadding(Ltr)
  {
  }

  /** What a split layout reports: its own size and its two panes. */
  datatype SplitLayout = SplitLayout(width: int, height: int, first: Slot, second: Slot)

  /** The pane sizes of a split: both fill the layout's extent across the split
      and the two together fill it along the split. */
  predicate TilesWidth(c: Constraints, r: SplitLayout) {
    && r.width == c.maxWidth && r.height == c.maxHeight
    && r.first.x == 0 && r.first.y == 0
    && r.second.x == r.first.constraints.maxWidth && r.second.y == 0
    && r.first.constraints.maxWidth + r.second.constraints.maxWidth == r.width
    && r.first.constraints.minWidth <= r.first.constraints.maxWidth
    && r.second.constraints.minWidth <= r.second.constraints.maxWidth
    && r.first.constraints.minWidth <= c.minWidth && r.second.constraints.minWidth <= c.minWidth
    && r.first.constraints.minHeight == c.minHeight && r.first.constraints.maxHeight == c.maxHeight
    && r.second.constraints.minHeight == c.minHeight && r.second.constraints.maxHeight == c.maxHeight
  }

  /** The same for a split along the height. */
  predicate TilesHeight(c: Constraints, r: SplitLayout) {
    && r.width == c.maxWidth && r.height == c.maxHeight
    && r.first.x == 0 && r.first.y == 0
    && r.second.x == 0 && r.second.y == r.first.constraints.maxHeight
    && r.first.constraints.maxHeight + r.second.constraints.maxHeight == r.height
    && r.first.constraints.minHeight <= r.first.constraints.maxHeight
    && r.second.constraints.minHeight <= r.second.constraints.maxHeight
    && r.first.constraints.minHeight <= c.minHeight && r.second.constraints.minHeight <= c.minHeight
    && r.first.constraints.minWidth == c.minWidth && r.first.constraints.maxWidth == c.maxWidth
    && r.second.constraints.minWidth == c.minWidth && r.second.constraints.maxWidth == c.maxWidth
  }

  /** The panes of a split along the width at `firstWidth`. */
  function SplitWidthAt(c: Constraints, firstWidth: int): (r: SplitLayout)
    ensures TilesWidth(c, r) && r.first.constraints.maxWidth == firstWidth
  {
    var secondWidth := c.maxWidth - firstWidth;
    SplitLayout(c.maxWidth, c.maxHeight,
                Slot(c.(maxWidth := firstWidth, minWidth := Min(firstWidth, c.minWidth)), 0, 0),
                Slot(c.(maxWidth := secondWidth, minWidth := Min(secondWidth, c.minWidth)), firstWidth, 0))
  }

  /** The panes of a split along the height at `firstHeight`. */
  function SplitHeightAt(c: Constraints, firstHeight: int): (r: SplitLayout)
    ensures TilesHeight(c, r) && r.first.constraints.maxHeight == firstHeight
  {
    var secondHeight := c.maxHeight - firstHeight;
    SplitLayout(c.maxWidth, c.maxHeight,
                Slot(c.(maxHeight := firstHeight, minHeight := Min(firstHeight, c.minHeight)), 0, 0),
                Slot(c.(maxHeight := secondHeight, minHeight := Min(secondHeight, c.minHeight)), 0, firstHeight))
  }

  // ---- SplitLayoutVerticalSimple ----

  /** `SplitLayoutVerticalSimple`: the second pane is the last 100 px. */
  function SplitSimple(c: Constraints): (r: SplitLayout)
    ensures TilesWidth(c, r) && r.second.constraints.maxWidth == 100
  {
    SplitWidthAt(c, c.maxWidth - 100)
  }

  /** From a width of 100 px on, neither pane gets a negative width. */
  lemma SplitSimpleNonNegative(c: Constraints)
    requires c.maxWidth >= 100 && c.minWidth >= 0
    ensures SplitSimple(c).first.constraints.minWidth >= 0 && SplitSimple(c).first.constraints.maxWidth >= 0
    ensures SplitSimple(c).second.constraints.minWidth >= 0
  {
  }

  /** The measure block of `SplitLayoutVerticalSimple`: the pane constraints
      and their `placeRelative` offsets (left-to-right). */
  method MeasureSplitSimple(constraints: Constraints) returns (layout: SplitLayout)
    ensures layout == SplitSimple(constraints)
  {
    var width := constraints.maxWidth;
    var height := constraints.maxHeight;
    var midPoint := width - 100;
    var firstWidth := midPoint;
    var secondWidth := width - midPoint;
    var firstConstraints := constraints.(maxWidth := firstWidth, minWidth := Min(firstWidth, constraints.minWidth));
    var secondConstraints := constraints.(maxWidth := secondWidth, minWidth := Min(secondWidth, constraints.minWidth));
    layout := SplitLayout(width, height, Slot(firstConstraints, 0, 0), Slot(secondConstraints, firstWidth, 0));
  }

  // ---- the split point ----

  /** The split point of an extent: its half without insets, else the middle of
      what the two insets (`lead` before, `trail` after) leave free. */
  function SplitPoint(extent: int, insets: Option<(int, int)>): int {
    match insets
    case None => Half(extent)
    case Some((lead, trail)) => Half(extent - lead - trail) + lead
  }

  /** Without insets the second part is the first or one more. */
  lemma SplitPointHalves(extent: int)
    requires extent >= 0
    ensures var first := SplitPoint(extent, None);
      extent - first - first in {0, 1}
  {
  }

  /** With insets that fit, the split point lies in the free part: at or after
      the leading inset and at or before the trailing one. */
  lemma SplitPointBetweenInsets(extent: int, lead: int, trail: int)
    requires lead + trail <= extent
    ensures lead <= SplitPoint(extent, Some((lead, trail))) <= extent - trail
  {
  }

  /** The left and right insets of the vertical split. */
  function HorizontalInsets(insets: Option<Insets>): Option<(int, int)> {
    match insets
    case None => None
    case Some(i) => Some((i.left, i.right))
  }

  /** The top and bottom insets of the horizontal split. */
  function VerticalInsets(insets: Option<Insets>): Option<(int, int)> {
    match insets
    case None => None
    case Some(i) => Some((i.top, i.bottom))
  }

  // ---- SplitLayoutVertical ----

  /** `SplitLayoutVertical`: panes side by side, split at the middle of the
      width or of the part the left and right insets leave free. */
  function SplitVertical(c: Constraints, insets: Option<Insets>): (r: SplitLayout)
    ensures TilesWidth(c, r)
    ensures r.first.constraints.maxWidth == SplitPoint(c.maxWidth, HorizontalInsets(insets))
  {
    SplitWidthAt(c, SplitPoint(c.maxWidth, HorizontalInsets(insets)))
  }

  /** The measure block of `SplitLayoutVertical`, with the insets resolved for
      the layout direction. The first pane consumes the second pane's width at
      its end, the second the first pane's width at its start. */
  method MeasureSplitVertical(constraints: Constraints, insets: Option<Insets>,
                              consumedInsetsFirst: MutablePaddingValues, consumedInsetsSecond: MutablePaddingValues)
    returns (layout: SplitLayout)
    requires consumedInsetsFirst != consumedInsetsSecond
    modifies consumedInsetsFirst, consumedInsetsSecond
    ensures layout == SplitVertical(constraints, insets)
    ensures consumedInsetsFirst.end == layout.second.constraints.maxWidth
    ensures consumedInsetsSecond.start == layout.first.constraints.maxWidth
    ensures consumedInsetsFirst.start == old(consumedInsetsFirst.start)
         && consumedInsetsFirst.top == old(consumedInsetsFirst.top)
         && consumedInsetsFirst.bottom == old(consumedInsetsFirst.bottom)
    ensures consumedInsetsSecond.end == old(consumedInsetsSecond.end)
         && consumedInsetsSecond.top == old(consumedInsetsSecond.top)
         && consumedInsetsSecond.bottom == old(consumedInsetsSecond.bottom)
  {
    var width := constraints.maxWidth;
    var height := constraints.maxHeight;
    var midPoint;
    if insets.None? {
      midPoint := Half(width);
    } else {
      var leftInset := insets.value.left;
      var rightInset := insets.value.right;
      var widthWoInsets := width - leftInset - rightInset;
      midPoint := Half(widthWoInsets) + leftInset;
    }
    var firstWidth := midPoint;
    var secondWidth := width - midPoint;
    consumedInsetsFirst.end := secondWidth;
    consumedInsetsSecond.start := firstWidth;
    var firstConstraints := constraints.(maxWidth := firstWidth, minWidth := Min(firstWidth, constraints.minWidth));
    var secondConstraints := constraints.(maxWidth := secondWidth, minWidth := Min(secondWidth, constraints.minWidth));
    layout := SplitLayout(width, height, Slot(firstConstraints, 0, 0), Slot(secondConstraints, firstWidth, 0));
  }

  /** Left-to-right, each pane's consumed padding on its inner side covers the
      other pane exactly: the first pane and its right padding, like the second
      pane's left padding and the second pane, make up the whole width. */
  lemma ConsumedSpansOtherPane(c: Constraints, insets: Option<Insets>, first: MutablePaddingValues,
                               second: MutablePaddingValues)
    requires first.end == SplitVertical(c, insets).second.constraints.maxWidth
    requires second.start == SplitVertical(c, insets).first.constraints.maxWidth
    ensures SplitVertical(c, insets).first.constraints.maxWidth + first.CalculateRightPadding(Ltr) == c.maxWidth
    ensures second.CalculateLeftPadding(Ltr) == SplitVertical(c, insets).second.x
  {
  }

  // ---- SplitLayoutHorizontal ----

  /** `SplitLayoutHorizontal`: panes one above the other, split at the middle of
      the height or of the part the top and bottom insets leave free. */
  function SplitHorizontal(c: Constraints, insets: Option<Insets>): (r: SplitLayout)
    ensures TilesHeight(c, r)
    ensures r.first.constraints.maxHeight == SplitPoint(c.maxHeight, VerticalInsets(insets))
  {
    SplitHeightAt(c, SplitPoint(c.maxHeight, VerticalInsets(insets)))
  }

  /** The measure block of `SplitLayoutHorizontal`. The first pane consumes the
      second pane's height at its bottom, the second the first pane's height at
      its top. */
  method MeasureSplitHorizontal(constraints: Constraints, insets: Option<Insets>,
                                consumedInsetsFirst: MutablePaddingValues, consumedInsetsSecond: MutablePaddingValues)
    returns (layout: SplitLayout)
    requires consumedInsetsFirst != consumedInsetsSecond
    modifies consumedInsetsFirst, consumedInsetsSecond
    ensures layout == SplitHorizontal(constraints, insets)
    ensures consumedInsetsFirst.bottom == layout.second.constraints.maxHeight
    ensures consumedInsetsSecond.top == layout.first.constraints.maxHeight
    ensures consumedInsetsFirst.start == old(consumedInsetsFirst.start)
         && consumedInsetsFirst.top == old(consumedInsetsFirst.top)
         && consumedInsetsFirst.end == old(consumedInsetsFirst.end)
    ensures consumedInsetsSecond.start == old(consumedInsetsSecond.start)
         && consumedInsetsSecond.end == old(consumedInsetsSecond.end)
         && consumedInsetsSecond.bottom == old(consumedInsetsSecond.bottom)
  {
    var width := constraints.maxWidth;
    var height := constraints.maxHeight;
    var midPoint;
    if insets.None? {
      midPoint := Half(height);
    } else {
      var topInset := insets.value.top;
      var bottomInset := insets.value.bottom;
      var heightWoInsets := height - topInset - bottomInset;
      midPoint := Half(heightWoInsets) + topInset;
    }
    var firstHeight := midPoint;
    var secondHeight := height - midPoint;
    consumedInsetsFirst.bottom := secondHeight;
    consumedInsetsSecond.top := firstHeight;
    var firstConstraints := constraints.(maxHeight := firstHeight, minHeight := Min(firstHeight, constraints.minHeight));
    var secondConstraints := constraints.(maxHeight := secondHeight, minHeight := Min(secondHeight, constraints.minHeight));
    layout := SplitLayout(width, height, Slot(firstConstraints, 0, 0), Slot(secondConstraints, 0, firstHeight));
  }
}
