/** The overlap check of the check library: a pre-order search of the
    semantics tree, the nearest scroll range on the way to the root, the
    remove-based choice of the sides a scrolled node is checked against, and the
    walk over the inset bands that reports every band overlapping the node. */
module OverlapCheck {
  import opened Wrappers
  import opened Geometry
  import opened SemanticsTree
  import opened Sequences

  // ---- searchChildren ----

  /** The list `searchChildren` appends to. */
  class NodeList {
    var items: seq<Node>

    constructor()
      ensures items == []
    {
      items := [];
    }

    method Add(n: Node)
      modifies this
      ensures items == old(items) + [n]
    {
      items := items + [n];
    }
  }

  /** One more child extends the listing by that child and its subtree. */
  lemma FilterNextChild(n: Node, i: nat, matches: Node -> bool)
    requires i < |n.children|
    ensures Filter(DescendantsOfFirst(n, i + 1), matches)
         == Filter(DescendantsOfFirst(n, i), matches)
            + (if matches(n.children[i]) then [n.children[i]] else [])
            + Filter(Descendants(n.children[i]), matches)
  {
    var c := n.children[i];
    assert DescendantsOfFirst(n, i + 1) == DescendantsOfFirst(n, i) + [c] + Descendants(c);
    FilterAppend(DescendantsOfFirst(n, i) + [c], Descendants(c), matches);
    FilterAppend(DescendantsOfFirst(n, i), [c], matches);
    assert Filter([c], matches) == (if matches(c) then [c] else []) + Filter([], matches);
  }

  /** `searchChildren(list, matcher)`: for each child in order, add it when it
      matches, then search its own children. */
  method SearchChildrenInto(n: Node, list: NodeList, matches: Node -> bool)
    modifies list
    ensures list.items == old(list.items) + Filter(Descendants(n), matches)
    decreases n
  {
    var i := 0;
    while i < |n.children|
      invariant 0 <= i <= |n.children|
      invariant list.items == old(list.items) + Filter(DescendantsOfFirst(n, i), matches)
    {
      var child := n.children[i];
      if matches(child) {
        list.Add(child);
      } else {
        assert list.items == list.items + [];
      }
      SearchChildrenInto(child, list, matches);
      FilterNextChild(n, i, matches);
      NodesRegroup(old(list.items), Filter(DescendantsOfFirst(n, i), matches),
                   if matches(child) then [child] else [], Filter(Descendants(child), matches));
      i := i + 1;
    }
  }

  lemma NodesRegroup(o: seq<Node>, a: seq<Node>, b: seq<Node>, c: seq<Node>)
    ensures o + a + b + c == o + (a + b + c)
  {
  }

  /** `searchChildren(matcher)`: the matching strict descendants, in pre-order. */
  method SearchChildren(n: Node, matches: Node -> bool) returns (found: seq<Node>)
    ensures found == Filter(Descendants(n), matches)
  {
    var list := new NodeList();
    SearchChildrenInto(n, list, matches);
    found := list.items;
  }

  /** Every listed node is strictly below `n`. */
  lemma {:induction false} DescendantsAreSmaller(n: Node, k: nat, d: Node)
    requires k <= |n.children|
    requires d in DescendantsOfFirst(n, k)
    ensures d < n
    decreases n, k
  {
    var c := n.children[k - 1];
    assert DescendantsOfFirst(n, k) == DescendantsOfFirst(n, k - 1) + [c] + Descendants(c);
    if d in DescendantsOfFirst(n, k - 1) {
      DescendantsAreSmaller(n, k - 1, d);
    } else if d != c {
      assert d in Descendants(c);
      DescendantsAreSmaller(c, |c.children|, d);
    }
  }

  /** The search finds a node iff it is a matching strict descendant, so the
      receiver itself is never tested. */
  lemma SearchChildrenFinds(n: Node, matches: Node -> bool, x: Node)
    ensures x in Filter(Descendants(n), matches) <==> x in Descendants(n) && matches(x)
    ensures n !in Filter(Descendants(n), matches)
  {
    FilterMembers(Descendants(n), matches, x);
    FilterMembers(Descendants(n), matches, n);
    if n in Descendants(n) {
      DescendantsAreSmaller(n, |n.children|, n);
    }
  }

  // ---- scroll ranges on the way to the root ----

  /** The parent's path is the node's ancestor chain. */
  lemma ParentPath(r: NodeRef)
    requires r.ancestors != []
    ensures r.Parent().value.Path() == r.ancestors
    ensures r.Path() == r.ancestors + [r.node]
  {
  }

  /** `findVerticalScrollAxisRange`: the node's own vertical range, else its parent's search. */
  function FindVerticalScrollAxisRange(r: NodeRef): Option<ScrollAxisRange>
    decreases |r.ancestors|
  {
    if r.node.verticalScroll.Some? then r.node.verticalScroll
    else match r.Parent()
      case None => None
      case Some(parent) => FindVerticalScrollAxisRange(parent)
  }

  /** `findHorizontalScrollAxisRange`: the same search for the horizontal range. */
  function FindHorizontalScrollAxisRange(r: NodeRef): Option<ScrollAxisRange>
    decreases |r.ancestors|
  {
    if r.node.horizontalScroll.Some? then r.node.horizontalScroll
    else match r.Parent()
      case None => None
      case Some(parent) => FindHorizontalScrollAxisRange(parent)
  }

  /** The vertical search yields the range of the nearest node on the path from
      the node up to the root that has one (the node itself first), or None when none has. */
  lemma {:induction false} VerticalRangeIsNearest(r: NodeRef)
    ensures var p := r.Path();
      FindVerticalScrollAxisRange(r).None? <==> forall k :: 0 <= k < |p| ==> p[k].verticalScroll.None?
    ensures var p := r.Path();
      FindVerticalScrollAxisRange(r).Some? ==>
        exists k :: 0 <= k < |p| && p[k].verticalScroll == FindVerticalScrollAxisRange(r)
          && forall j :: k < j < |p| ==> p[j].verticalScroll.None?
    decreases |r.ancestors|
  {
    var p := r.Path();
    if r.node.verticalScroll.Some? {
      assert p[|p| - 1].verticalScroll == FindVerticalScrollAxisRange(r);
    } else if r.ancestors != [] {
      var parent := r.Parent().value;
      VerticalRangeIsNearest(parent);
      ParentPath(r);
      assert p[|p| - 1].verticalScroll.None?;
    }
  }

  /** The horizontal search yields the horizontal range of the nearest node on the
      path from the node up to the root that has one, or None when none has. */
  lemma {:induction false} HorizontalRangeIsNearest(r: NodeRef)
    ensures var p := r.Path();
      FindHorizontalScrollAxisRange(r).None? <==> forall k :: 0 <= k < |p| ==> p[k].horizontalScroll.None?
    ensures var p := r.Path();
      FindHorizontalScrollAxisRange(r).Some? ==>
        exists k :: 0 <= k < |p| && p[k].horizontalScroll == FindHorizontalScrollAxisRange(r)
          && forall j :: k < j < |p| ==> p[j].horizontalScroll.None?
    decreases |r.ancestors|
  {
    var p := r.Path();
    if r.node.horizontalScroll.Some? {
      assert p[|p| - 1].horizontalScroll == FindHorizontalScrollAxisRange(r);
    } else if r.ancestors != [] {
      var parent := r.Parent().value;
      HorizontalRangeIsNearest(parent);
      ParentPath(r);
      assert p[|p| - 1].horizontalScroll.None?;
    }
  }

  // ---- checkOverlap ----

  /** The sides left after the exclusions: a range that can still scroll back
      removes Top (or Left), one that can still scroll on removes Bottom (or Right). */
  function KeptSides(vertical: Option<ScrollAxisRange>, horizontal: Option<ScrollAxisRange>,
                     excludeVertical: bool, excludeHorizontal: bool): set<Side>
  {
    var afterTop := if excludeVertical && vertical.Some? && vertical.value.value > 0
                    then AllSides - {Top} else AllSides;
    var afterBottom := if excludeVertical && vertical.Some? && vertical.value.value < vertical.value.maxValue
                       then afterTop - {Bottom} else afterTop;
    var afterLeft := if excludeHorizontal && horizontal.Some? && horizontal.value.value > 0
                     then afterBottom - {Left} else afterBottom;
    if excludeHorizontal && horizontal.Some? && horizontal.value.value < horizontal.value.maxValue
    then afterLeft - {Right} else afterLeft
  }

  /** Each side is checked unless its exclusion applies: with a range present,
      Top stays iff value <= 0 and Bottom iff value >= max (Left and Right alike). */
  lemma KeptSidesIff(v: Option<ScrollAxisRange>, h: Option<ScrollAxisRange>, exclV: bool, exclH: bool)
    ensures var k := KeptSides(v, h, exclV, exclH);
      (Top in k <==> !(exclV && v.Some? && v.value.value > 0))
      && (Bottom in k <==> !(exclV && v.Some? && v.value.value < v.value.maxValue))
      && (Left in k <==> !(exclH && h.Some? && h.value.value > 0))
      && (Right in k <==> !(exclH && h.Some? && h.value.value < h.value.maxValue))
  {
  }

  /** Without exclusions, or without any range, every side is checked. */
  lemma AllSidesWithoutExclusion(v: Option<ScrollAxisRange>, h: Option<ScrollAxisRange>, exclV: bool, exclH: bool)
    requires (!exclV || v.None?) && (!exclH || h.None?)
    ensures KeptSides(v, h, exclV, exclH) == AllSides
  {
  }

  /** The callback invocations for the bands that overlap the node, in band order. */
  function OverlapCalls(bands: seq<Rect>, nodeRect: Rect): (r: seq<(Rect, Rect)>)
    ensures |r| <= |bands|
  {
    if bands == [] then []
    else (if Overlaps(nodeRect, bands[0]) then [(bands[0], nodeRect)] else [])
         + OverlapCalls(bands[1..], nodeRect)
  }

  /** A call is made with a band and the node's rectangle iff the band overlaps the node. */
  lemma {:induction false} OverlapCallsMembers(bands: seq<Rect>, nodeRect: Rect, c: (Rect, Rect))
    ensures c in OverlapCalls(bands, nodeRect) <==> c.0 in bands && c.1 == nodeRect && Overlaps(nodeRect, c.0)
  {
    if bands != [] {
      OverlapCallsMembers(bands[1..], nodeRect, c);
      assert bands == [bands[0]] + bands[1..];
    }
  }

  /** The side set of `checkOverlap`: all four sides, then the removals. */
  method CheckedSides(r: NodeRef, excludeVerticalScrollSides: bool, excludeHorizontalScrollSides: bool)
    returns (sides: set<Side>)
    ensures sides == KeptSides(FindVerticalScrollAxisRange(r), FindHorizontalScrollAxisRange(r),
                               excludeVerticalScrollSides, excludeHorizontalScrollSides)
  {
    sides := AllSides;
    if excludeVerticalScrollSides {
      var verticalRange := FindVerticalScrollAxisRange(r);
      if verticalRange.Some? {
        var vPos := verticalRange.value.value;
        if vPos > 0 {
          sides := sides - {Top};
        }
        if vPos < verticalRange.value.maxValue {
          sides := sides - {Bottom};
        }
      }
    }
    if excludeHorizontalScrollSides {
      var horizontalRange := FindHorizontalScrollAxisRange(r);
      if horizontalRange.Some? {
        var hPos := horizontalRange.value.value;
        if hPos > 0 {
          sides := sides - {Left};
        }
        if hPos < horizontalRange.value.maxValue {
          sides := sides - {Right};
        }
      }
    }
  }

  /** `checkOverlap`: narrows the side set by the scroll ranges found on the way
      to the root, then calls `overlap(insetRect, nodeRect)` for every band of the
      kept sides that overlaps the node's bounds; the calls are returned in order. */
  method CheckOverlap(r: NodeRef, insets: Insets, windowWidth: int, windowHeight: int,
                      excludeVerticalScrollSides: bool, excludeHorizontalScrollSides: bool)
    returns (calls: seq<(Rect, Rect)>)
    ensures calls == OverlapCalls(
      ToBounds(insets, windowWidth, windowHeight,
               KeptSides(FindVerticalScrollAxisRange(r), FindHorizontalScrollAxisRange(r),
                         excludeVerticalScrollSides, excludeHorizontalScrollSides)),
      r.node.boundsInWindow)
  {
    var sides := CheckedSides(r, excludeVerticalScrollSides, excludeHorizontalScrollSides);
    var nodeRect := r.node.boundsInWindow;
    var bands := ToBounds(insets, windowWidth, windowHeight, sides);
    calls := [];
    var i := 0;
    while i < |bands|
      invariant 0 <= i <= |bands|
      invariant calls + OverlapCalls(bands[i..], nodeRect) == OverlapCalls(bands, nodeRect)
    {
      assert bands[i..][1..] == bands[i + 1..];
      ghost var step := if Overlaps(nodeRect, bands[i]) then [(bands[i], nodeRect)] else [];
      Regroup3(calls, step, OverlapCalls(bands[i + 1..], nodeRect));
      if Overlaps(nodeRect, bands[i]) {
        calls := calls + [(bands[i], nodeRect)];
      } else {
        assert calls + step == calls;
      }
      i := i + 1;
    }
    assert bands[i..] == [];
  }

  /** The calls, side by side: a kept side with a positive inset whose band overlaps
      the node gives a call, and every call comes from such a side, so a removed side never fires. */
  lemma CheckOverlapBySide(insets: Insets, width: int, height: int, kept: set<Side>, nodeRect: Rect, s: Side)
    ensures s in kept && InsetOn(insets, s) > 0 && Overlaps(nodeRect, EdgeBand(insets, width, height, s))
        ==> (EdgeBand(insets, width, height, s), nodeRect) in OverlapCalls(ToBounds(insets, width, height, kept), nodeRect)
    ensures forall c :: c in OverlapCalls(ToBounds(insets, width, height, kept), nodeRect) ==>
      c.1 == nodeRect && Overlaps(nodeRect, c.0)
      && exists t :: t in kept && InsetOn(insets, t) > 0 && c.0 == EdgeBand(insets, width, height, t)
  {
    var bands := ToBounds(insets, width, height, kept);
    ToBoundsIsEmittedBands(insets, width, height, kept);
    var e := EmittedSides(insets, kept, SideOrder);
    EmittedSidesMembers(insets, kept, SideOrder, s);
    if s in kept && InsetOn(insets, s) > 0 && Overlaps(nodeRect, EdgeBand(insets, width, height, s)) {
      var k :| 0 <= k < |e| && e[k] == s;
      assert bands[k] == EdgeBand(insets, width, height, s);
      OverlapCallsMembers(bands, nodeRect, (EdgeBand(insets, width, height, s), nodeRect));
    }
    forall c | c in OverlapCalls(bands, nodeRect)
      ensures c.1 == nodeRect && Overlaps(nodeRect, c.0)
      ensures exists t :: t in kept && InsetOn(insets, t) > 0 && c.0 == EdgeBand(insets, width, height, t)
    {
      OverlapCallsMembers(bands, nodeRect, c);
      var k :| 0 <= k < |bands| && bands[k] == c.0;
      EmittedSidesMembers(insets, kept, SideOrder, e[k]);
    }
  }
}
