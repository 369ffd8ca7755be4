/** The `buildInsets` DSL: a builder object that records, per inset type, the
    visible insets, the insets ignoring visibility and the visibility flag, and
    a `buildInsets` that runs a block of `setInset` calls on a fresh builder.
    The builder's three tables stand for `WindowInsetsCompat.Builder`, keyed by
    the single inset type a call names; a type missing from a table keeps the
    builder's default. */
module InsetsBuilder {
  import G = Geometry
  import opened InsetTypes
  import opened Wrappers

  /** The edge a positional `setInset` puts its size on. */
  datatype InsetPos = Left | Right | Top | Bottom

  /** The window side an `InsetPos` names. */
  function SideOf(pos: InsetPos): G.Side {
    match pos
    case Left => G.Left
    case Right => G.Right
    case Top => G.Top
    case Bottom => G.Bottom
  }

  /** The insets a positional `setInset` passes on: `size` on the named edge, 0 elsewhere. */
  function InsetsAt(pos: InsetPos, size: int): (r: G.Insets)
    ensures forall s :: G.InsetOn(r, s) == if s == SideOf(pos) then size else 0
  {
    match pos
    case Left => G.Insets(size, 0, 0, 0)
    case Right => G.Insets(0, 0, size, 0)
    case Top => G.Insets(0, size, 0, 0)
    case Bottom => G.Insets(0, 0, 0, size)
  }

  /** What `build()` returns: the three tables of the builder. */
  datatype BuiltInsets = BuiltInsets(
    visible: map<InsetType, G.Insets>,
    ignoringVisibility: map<InsetType, G.Insets>,
    visibility: map<InsetType, bool>)

  const Untouched := BuiltInsets(map[], map[], map[])

  /** One `setInset` call of a block, in either of its two forms. */
  datatype InsetCall =
    | SetEdges(left: int, top: int, right: int, bottom: int, insetType: InsetType, isVisible: bool)
    | SetAt(pos: InsetPos, insetType: InsetType, size: int, isVisible: bool)
  {
    /** The insets the call records (and returns). */
    function Insets(): G.Insets {
      match this
      case SetEdges(l, t, r, b, _, _) => G.Insets(l, t, r, b)
      case SetAt(pos, _, size, _) => InsetsAt(pos, size)
    }
  }

  /** The effect of one call on the builder's tables. */
  function Apply(b: BuiltInsets, c: InsetCall): (r: BuiltInsets)
    ensures r.ignoringVisibility == b.ignoringVisibility[c.insetType := c.Insets()]
    ensures r.visibility == b.visibility[c.insetType := c.isVisible]
    ensures c.isVisible ==> r.visible == b.visible[c.insetType := c.Insets()]
    ensures !c.isVisible ==> r.visible == b.visible
  {
    var insets := c.Insets();
    BuiltInsets(
      if c.isVisible then b.visible[c.insetType := insets] else b.visible,
      b.ignoringVisibility[c.insetType := insets],
      b.visibility[c.insetType := c.isVisible])
  }

  /** The tables after running `calls` in order, starting from `b`. */
  function Replay(b: BuiltInsets, calls: seq<InsetCall>): BuiltInsets
  {
    if calls == [] then b else Apply(Replay(b, calls[..|calls| - 1]), calls[|calls| - 1])
  }

  /** The builder object of `buildInsets`. */
  class InsetsDsl {
    var visible: map<InsetType, G.Insets>
    var ignoringVisibility: map<InsetType, G.Insets>
    var visibility: map<InsetType, bool>

    function Build(): BuiltInsets
      reads this
    {
      BuiltInsets(visible, ignoringVisibility, visibility)
    }

    constructor()
      ensures Build() == Untouched
    {
      visible := map[];
      ignoringVisibility := map[];
      visibility := map[];
    }

    /** The four-edge `setInset`: the insets ignoring visibility and the flag are
        always recorded, the visible insets only when `isVisible`; the insets
        are returned as passed either way. */
    method SetInset(left: int, top: int, right: int, bottom: int, insetType: InsetType, isVisible: bool)
      returns (insets: G.Insets)
      modifies this
      ensures insets == G.Insets(left, top, right, bottom)
      ensures ignoringVisibility == old(ignoringVisibility)[insetType := insets]
      ensures visibility == old(visibility)[insetType := isVisible]
      ensures visible == if isVisible then old(visible)[insetType := insets] else old(visible)
      ensures Build() == Apply(old(Build()), SetEdges(left, top, right, bottom, insetType, isVisible))
    {
      insets := G.Insets(left, top, right, bottom);
      if isVisible {
        visible := visible[insetType := insets];
      }
      ignoringVisibility := ignoringVisibility[insetType := insets];
      visibility := visibility[insetType := isVisible];
    }

    /** The positional `setInset`: the four-edge form with `size` on one edge. */
    method SetInsetAt(pos: InsetPos, insetType: InsetType, size: int, isVisible: bool)
      returns (insets: G.Insets)
      modifies this
      ensures insets == InsetsAt(pos, size)
      ensures Build() == Apply(old(Build()), SetAt(pos, insetType, size, isVisible))
    {
      match pos
      case Left => insets := SetInset(size, 0, 0, 0, insetType, isVisible);
      case Right => insets := SetInset(0, 0, size, 0, insetType, isVisible);
      case Top => insets := SetInset(0, size, 0, 0, insetType, isVisible);
      case Bottom => insets := SetInset(0, 0, 0, size, insetType, isVisible);
    }

    /** Runs one call of a block on this builder. */
    method Run(c: InsetCall)
      modifies this
      ensures Build() == Apply(old(Build()), c)
    {
      match c
      case SetEdges(l, t, r, b, ty, v) => var _ := SetInset(l, t, r, b, ty, v);
      case SetAt(pos, ty, size, v) => var _ := SetInsetAt(pos, ty, size, v);
    }
  }

  /** `buildInsets(block)`: a fresh builder, the block's calls in order, then `build()`. */
  method BuildInsets(block: seq<InsetCall>) returns (w: BuiltInsets)
    ensures w == Replay(Untouched, block)
  {
    var dsl := new InsetsDsl();
    var k := 0;
    while k < |block|
      invariant 0 <= k <= |block|
      invariant dsl.Build() == Replay(Untouched, block[..k])
    {
      assert block[..k + 1][..k] == block[..k];
      dsl.Run(block[k]);
      k := k + 1;
    }
    assert block[..k] == block;
    w := dsl.Build();
  }

  predicate Mentions(calls: seq<InsetCall>, t: InsetType) {
    exists k :: 0 <= k < |calls| && calls[k].insetType == t
  }

  /** A type no call mentions keeps the builder's default in all three tables;
      a mentioned type always has its insets ignoring visibility and its flag recorded. */
  lemma {:induction false} ReplayTouches(calls: seq<InsetCall>, t: InsetType)
    ensures t in Replay(Untouched, calls).ignoringVisibility <==> Mentions(calls, t)
    ensures t in Replay(Untouched, calls).visibility <==> Mentions(calls, t)
    ensures t in Replay(Untouched, calls).visible ==> Mentions(calls, t)
  {
    if calls != [] {
      var init := calls[..|calls| - 1];
      ReplayTouches(init, t);
      assert Mentions(calls, t) <==> Mentions(init, t) || calls[|calls| - 1].insetType == t by {
        if Mentions(calls, t) {
          var k :| 0 <= k < |calls| && calls[k].insetType == t;
          if k < |calls| - 1 {
            assert init[k] == calls[k];
          }
        }
        if Mentions(init, t) {
          var k :| 0 <= k < |init| && init[k].insetType == t;
          assert calls[k] == init[k];
        }
      }
    }
  }

  /** The last call for a type decides its tables: the insets ignoring visibility
      and the flag are that call's, and the visible insets are that call's iff it
      is visible (a hidden call leaves the earlier visible insets in place). */
  lemma LastCallDecides(calls: seq<InsetCall>, c: InsetCall)
    ensures Replay(Untouched, calls + [c]).ignoringVisibility[c.insetType] == c.Insets()
    ensures Replay(Untouched, calls + [c]).visibility[c.insetType] == c.isVisible
    ensures c.isVisible ==> Replay(Untouched, calls + [c]).visible[c.insetType] == c.Insets()
    ensures !c.isVisible ==> Replay(Untouched, calls + [c]).visible == Replay(Untouched, calls).visible
  {
    assert (calls + [c])[..|calls + [c]| - 1] == calls;
    assert Replay(Untouched, calls + [c]) == Apply(Replay(Untouched, calls), c);
  }

  /** Running one more call applies it to the tables so far. */
  lemma ReplayAppend(calls: seq<InsetCall>, c: InsetCall)
    ensures Replay(Untouched, calls + [c]) == Apply(Replay(Untouched, calls), c)
  {
    assert (calls + [c])[..|calls + [c]| - 1] == calls;
  }

  /** Calls for other types do not disturb a type's tables. */
  lemma OtherTypeUnchanged(calls: seq<InsetCall>, c: InsetCall, t: InsetType)
    requires c.insetType != t
    ensures var before, after := Replay(Untouched, calls), Replay(Untouched, calls + [c]);
      (t in after.ignoringVisibility <==> t in before.ignoringVisibility)
      && (t in after.ignoringVisibility ==> after.ignoringVisibility[t] == before.ignoringVisibility[t])
      && (t in after.visible <==> t in before.visible)
      && (t in after.visible ==> after.visible[t] == before.visible[t])
      && (t in after.visibility ==> after.visibility[t] == before.visibility[t])
  {
    assert (calls + [c])[..|calls + [c]| - 1] == calls;
    assert Replay(Untouched, calls + [c]) == Apply(Replay(Untouched, calls), c);
  }

  /** The last call of `calls` that names `t`, if any. */
  function CallFor(calls: seq<InsetCall>, t: InsetType): (r: Option<InsetCall>)
    ensures r.Some? ==> r.value in calls && r.value.insetType == t
  {
    if calls == [] then None
    else if calls[|calls| - 1].insetType == t then Some(calls[|calls| - 1])
    else CallFor(calls[..|calls| - 1], t)
  }

  lemma CallForSingle(c: InsetCall, t: InsetType)
    ensures CallFor([c], t) == if c.insetType == t then Some(c) else None
  {
    assert [c][..0] == [];
  }

  /** Looking a type up in two blocks run one after the other. */
  lemma {:induction false} CallForAppend(a: seq<InsetCall>, b: seq<InsetCall>, t: InsetType)
    ensures CallFor(a + b, t) == if CallFor(b, t).Some? then CallFor(b, t) else CallFor(a, t)
    decreases |b|
  {
    if b == [] {
      assert a + b == a;
    } else {
      assert (a + b)[..|a + b| - 1] == a + b[..|b| - 1];
      CallForAppend(a, b[..|b| - 1], t);
    }
  }

  predicate DistinctTypes(calls: seq<InsetCall>) {
    forall j, k :: 0 <= j < k < |calls| ==> calls[j].insetType != calls[k].insetType
  }

  /** When every call names a different type, a type's tables are exactly what
      its own call wrote: nothing if there is no call for it; otherwise the call's
      insets ignoring visibility and flag, and its visible insets iff it is visible. */
  lemma {:induction false} ReplayByCallFor(calls: seq<InsetCall>, t: InsetType)
    requires DistinctTypes(calls)
    ensures var w := Replay(Untouched, calls);
      match CallFor(calls, t)
      case None =>
        t !in w.ignoringVisibility && t !in w.visibility && t !in w.visible
      case Some(c) =>
        t in w.ignoringVisibility && w.ignoringVisibility[t] == c.Insets()
        && t in w.visibility && w.visibility[t] == c.isVisible
        && (t in w.visible <==> c.isVisible)
        && (c.isVisible ==> w.visible[t] == c.Insets())
  {
    if calls != [] {
      var init, last := calls[..|calls| - 1], calls[|calls| - 1];
      assert calls == init + [last];
      assert DistinctTypes(init);
      if last.insetType == t {
        LastCallDecides(init, last);
        if !last.isVisible {
          ReplayTouches(init, t);
        }
      } else {
        ReplayByCallFor(init, t);
        OtherTypeUnchanged(init, last, t);
        ReplayTouches(calls, t);
        ReplayTouches(init, t);
      }
    }
  }
}
