/** Integer-pixel geometry shared by every overlap check: rectangles, four-edge
    insets, the side sets that select edges, and the conversion of an inset into
    the edge bands it covers in a window (`toBounds`). Density is fixed at 1 and
    the layout direction is left-to-right, so an inset edge is read as its plain
    integer value. */
module Geometry {

  /** An axis-aligned rectangle given by its four edges. */
  datatype Rect = Rect(left: int, top: int, right: int, bottom: int)
  {
    function Width(): int { right - left }
    function Height(): int { bottom - top }
  }

  /** Strict overlap: the open intervals intersect on both axes, so rectangles
      that only touch along an edge do not overlap. */
  predicate Overlaps(a: Rect, b: Rect) {
    a.left < b.right && b.left < a.right && a.top < b.bottom && b.top < a.bottom
  }

  lemma OverlapsSymmetric(a: Rect, b: Rect)
    ensures Overlaps(a, b) <==> Overlaps(b, a)
  {
  }

  /** Two rectangles that share only an edge do not overlap. */
  lemma TouchingDoesNotOverlap(a: Rect, b: Rect)
    requires a.right == b.left || a.bottom == b.top
    ensures !Overlaps(a, b)
  {
  }

  /** A four-edge inset, as read at density 1 in left-to-right layout. */
  datatype Insets = Insets(left: int, top: int, right: int, bottom: int)

  const NoInsets := Insets(0, 0, 0, 0)

  /** The window sides an overlap check may consider. */
  datatype Side = Left | Top | Right | Bottom

  const AllSides: set<Side> := {Left, Top, Right, Bottom}

  /** The fixed order in which edge bands are emitted. */
  const SideOrder: seq<Side> := [Left, Top, Right, Bottom]

  /** The thickness the inset has on side `s`. */
  function InsetOn(i: Insets, s: Side): int {
    match s
    case Left => i.left
    case Top => i.top
    case Right => i.right
    case Bottom => i.bottom
  }

  /** The band that side `s` of the inset covers in a `width` x `height` window. */
  function EdgeBand(i: Insets, width: int, height: int, s: Side): (r: Rect)
    ensures s == Left ==> r.left == 0 && r.top == 0 && r.bottom == height
    ensures s == Top ==> r.left == 0 && r.top == 0 && r.right == width
    ensures s == Right ==> r.right == width && r.top == 0 && r.bottom == height
    ensures s == Bottom ==> r.left == 0 && r.right == width && r.bottom == height
    ensures s in {Left, Right} ==> r.Width() == InsetOn(i, s)
    ensures s in {Top, Bottom} ==> r.Height() == InsetOn(i, s)
  {
    match s
    case Left => Rect(0, 0, i.left, height)
    case Top => Rect(0, 0, width, i.top)
    case Right => Rect(width - i.right, 0, width, height)
    case Bottom => Rect(0, height - i.bottom, width, height)
  }

  /** The rule every copy of `toBounds` applies to one side. */
  predicate Emits(i: Insets, s: Side, sides: set<Side>) {
    InsetOn(i, s) > 0 && s in sides
  }

  /** `toBounds` with the side filter given as a set: one guarded append per
      side, in the order Left, Top, Right, Bottom. */
  function ToBounds(i: Insets, width: int, height: int, sides: set<Side>): (r: seq<Rect>)
    ensures |r| <= 4
    ensures sides == {} ==> r == []
  {
    (if i.left > 0 && Left in sides then [Rect(0, 0, i.left, height)] else [])
    + (if i.top > 0 && Top in sides then [Rect(0, 0, width, i.top)] else [])
    + (if i.right > 0 && Right in sides then [Rect(width - i.right, 0, width, height)] else [])
    + (if i.bottom > 0 && Bottom in sides then [Rect(0, height - i.bottom, width, height)] else [])
  }

  /** The emitting sides of `order`, in that order: the reference description
      of which bands `toBounds` produces. */
  function EmittedSides(i: Insets, sides: set<Side>, order: seq<Side>): (r: seq<Side>)
    ensures |r| <= |order|
  {
    if order == [] then []
    else (if Emits(i, order[0], sides) then [order[0]] else []) + EmittedSides(i, sides, order[1..])
  }

  function Bands(i: Insets, width: int, height: int, ss: seq<Side>): (r: seq<Rect>)
    ensures |r| == |ss|
    ensures forall k :: 0 <= k < |ss| ==> r[k] == EdgeBand(i, width, height, ss[k])
  {
    if ss == [] then [] else [EdgeBand(i, width, height, ss[0])] + Bands(i, width, height, ss[1..])
  }

  /** `toBounds` is exactly the band of every emitting side, in side order. */
  lemma ToBoundsIsEmittedBands(i: Insets, width: int, height: int, sides: set<Side>)
    ensures ToBounds(i, width, height, sides)
         == Bands(i, width, height, EmittedSides(i, sides, SideOrder))
  {
    var l, t, r, b := OneSide(i, sides, Left), OneSide(i, sides, Top), OneSide(i, sides, Right), OneSide(i, sides, Bottom);
    EmittedSidesUnfold(i, sides);
    BandsAppend(i, width, height, r, b);
    BandsAppend(i, width, height, t, r + b);
    BandsAppend(i, width, height, l, t + (r + b));
    BandsOneSide(i, width, height, sides, Left);
    BandsOneSide(i, width, height, sides, Top);
    BandsOneSide(i, width, height, sides, Right);
    BandsOneSide(i, width, height, sides, Bottom);
    BandsRegroup(Bands(i, width, height, l), Bands(i, width, height, t), Bands(i, width, height, r),
                 Bands(i, width, height, b));
  }

  lemma BandsRegroup(a: seq<Rect>, b: seq<Rect>, c: seq<Rect>, d: seq<Rect>)
    ensures a + b + c + d == a + (b + (c + d))
  {
  }

  function OneSide(i: Insets, sides: set<Side>, s: Side): seq<Side> {
    if Emits(i, s, sides) then [s] else []
  }

  lemma EmittedSidesUnfold(i: Insets, sides: set<Side>)
    ensures EmittedSides(i, sides, SideOrder)
         == OneSide(i, sides, Left) + (OneSide(i, sides, Top) + (OneSide(i, sides, Right) + OneSide(i, sides, Bottom)))
  {
    assert [Bottom][1..] == [];
    assert EmittedSides(i, sides, [Bottom]) == OneSide(i, sides, Bottom);
    assert [Right, Bottom][1..] == [Bottom];
    assert EmittedSides(i, sides, [Right, Bottom]) == OneSide(i, sides, Right) + OneSide(i, sides, Bottom);
    assert [Top, Right, Bottom][1..] == [Right, Bottom];
    assert EmittedSides(i, sides, [Top, Right, Bottom])
        == OneSide(i, sides, Top) + (OneSide(i, sides, Right) + OneSide(i, sides, Bottom));
    assert SideOrder[1..] == [Top, Right, Bottom];
  }

  lemma BandsOneSide(i: Insets, width: int, height: int, sides: set<Side>, s: Side)
    ensures Bands(i, width, height, OneSide(i, sides, s))
         == if InsetOn(i, s) > 0 && s in sides then [EdgeBand(i, width, height, s)] else []
  {
  }

  lemma BandsAppend(i: Insets, width: int, height: int, a: seq<Side>, b: seq<Side>)
    ensures Bands(i, width, height, a + b) == Bands(i, width, height, a) + Bands(i, width, height, b)
  {
    var l, r := Bands(i, width, height, a + b), Bands(i, width, height, a) + Bands(i, width, height, b);
    assert |l| == |r|;
    forall k | 0 <= k < |l| ensures l[k] == r[k] {
      if k < |a| {
        assert (a + b)[k] == a[k];
      } else {
        assert (a + b)[k] == b[k - |a|];
      }
    }
  }

  /** A side is emitted iff it is in the order, its inset is positive and it is selected. */
  lemma {:induction false} EmittedSidesMembers(i: Insets, sides: set<Side>, order: seq<Side>, s: Side)
    ensures s in EmittedSides(i, sides, order) <==> s in order && InsetOn(i, s) > 0 && s in sides
  {
    if order != [] {
      EmittedSidesMembers(i, sides, order[1..], s);
      assert s in order <==> s == order[0] || s in order[1..];
    }
  }

  /** A side's band is emitted iff that inset is positive and the side is selected. */
  lemma ToBoundsEmitsIff(i: Insets, sides: set<Side>, s: Side)
    ensures s in EmittedSides(i, sides, SideOrder) <==> InsetOn(i, s) > 0 && s in sides
  {
    EmittedSidesMembers(i, sides, SideOrder, s);
  }

  /** No band at all for an inset that is zero (or negative) on every edge. */
  lemma ToBoundsOfEmptyInsets(i: Insets, width: int, height: int, sides: set<Side>)
    requires i.left <= 0 && i.top <= 0 && i.right <= 0 && i.bottom <= 0
    ensures ToBounds(i, width, height, sides) == []
  {
  }

  predicate InsideWindow(r: Rect, width: int, height: int) {
    0 <= r.left <= r.right <= width && 0 <= r.top <= r.bottom <= height
  }

  /** An emitted band lies in the window when its inset fits the matching window dimension. */
  lemma ToBoundsInsideWindow(i: Insets, width: int, height: int, sides: set<Side>)
    requires i.left <= width && i.right <= width && i.top <= height && i.bottom <= height
    requires width >= 0 && height >= 0
    ensures forall r :: r in ToBounds(i, width, height, sides) ==> InsideWindow(r, width, height)
  {
  }

  // ---- Side sets as bit masks (`WindowInsetsSides`) ----

  /** A `WindowInsetsSides` value; in left-to-right layout only the four edge bits matter. */
  type SidesMask = bv4

  const LeftBit: SidesMask := 1
  const TopBit: SidesMask := 2
  const RightBit: SidesMask := 4
  const BottomBit: SidesMask := 8
  const HorizontalMask: SidesMask := LeftBit | RightBit
  const VerticalMask: SidesMask := TopBit | BottomBit

  function SideBit(s: Side): SidesMask {
    match s
    case Left => LeftBit
    case Top => TopBit
    case Right => RightBit
    case Bottom => BottomBit
  }

  /** `WindowInsetsSides.intersect`: every bit of `s` is also set in `a`. */
  predicate Intersect(a: SidesMask, s: SidesMask) {
    a & s == s
  }

  /** The sides a mask selects. */
  function SidesOf(m: SidesMask): (r: set<Side>)
    ensures forall s :: s in r <==> Intersect(m, SideBit(s))
  {
    set s | s in AllSides && Intersect(m, SideBit(s))
  }

  /** The mask that selects exactly the sides of `ss`. */
  function MaskOf(ss: set<Side>): (m: SidesMask)
    ensures forall s :: Intersect(m, SideBit(s)) <==> s in ss
  {
    (if Left in ss then LeftBit else 0) | (if Top in ss then TopBit else 0)
    | (if Right in ss then RightBit else 0) | (if Bottom in ss then BottomBit else 0)
  }

  /** Masks and side sets are in one-to-one correspondence. */
  lemma MaskSidesRoundTrip(m: SidesMask, ss: set<Side>)
    ensures MaskOf(SidesOf(m)) == m
    ensures SidesOf(MaskOf(ss)) == ss
  {
    var r := SidesOf(m);
    assert Left in r <==> m & 1 == 1;
    assert Top in r <==> m & 2 == 2;
    assert Right in r <==> m & 4 == 4;
    assert Bottom in r <==> m & 8 == 8;
    assert forall s :: s in SidesOf(MaskOf(ss)) <==> s in ss;
  }

  /** `intersect` is reflexive. */
  lemma IntersectReflexive(a: SidesMask)
    ensures Intersect(a, a)
  {
  }

  /** `intersect` is monotone in the receiver: adding sides keeps a subset a subset. */
  lemma IntersectMonotone(a: SidesMask, b: SidesMask, s: SidesMask)
    requires Intersect(a, s)
    ensures Intersect(a | b, s)
  {
  }

  /** `intersect` is the subset test on the sides the masks select. */
  lemma IntersectIsSubset(a: SidesMask, s: SidesMask)
    ensures Intersect(a, s) <==> SidesOf(s) <= SidesOf(a)
  {
    MaskSidesRoundTrip(a, {});
    MaskSidesRoundTrip(s, {});
    if SidesOf(s) <= SidesOf(a) {
      assert s & 1 == 1 ==> a & 1 == 1;
      assert s & 2 == 2 ==> a & 2 == 2;
      assert s & 4 == 4 ==> a & 4 == 4;
      assert s & 8 == 8 ==> a & 8 == 8;
    }
  }

  /** `+` on `WindowInsetsSides` is union of the selected sides. */
  lemma SidesOfUnion(a: SidesMask, b: SidesMask)
    ensures SidesOf(a | b) == SidesOf(a) + SidesOf(b)
  {
    assert forall s :: s in SidesOf(a | b) <==> s in SidesOf(a) + SidesOf(b);
  }

  /** The `toBounds` copies that take a `WindowInsetsSides` mask: the same four
      guarded appends, with membership decided by `intersect`. */
  function ToBoundsMask(i: Insets, width: int, height: int, sides: SidesMask): (r: seq<Rect>)
    ensures |r| <= 4
  {
    (if i.left > 0 && Intersect(sides, LeftBit) then [Rect(0, 0, i.left, height)] else [])
    + (if i.top > 0 && Intersect(sides, TopBit) then [Rect(0, 0, width, i.top)] else [])
    + (if i.right > 0 && Intersect(sides, RightBit) then [Rect(width - i.right, 0, width, height)] else [])
    + (if i.bottom > 0 && Intersect(sides, BottomBit) then [Rect(0, height - i.bottom, width, height)] else [])
  }

  /** The mask form and the set form of `toBounds` agree. */
  lemma ToBoundsMaskAgrees(i: Insets, width: int, height: int, sides: SidesMask)
    ensures ToBoundsMask(i, width, height, sides) == ToBounds(i, width, height, SidesOf(sides))
  {
  }
}
