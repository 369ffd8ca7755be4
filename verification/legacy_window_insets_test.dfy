/** The older overlap assertions of the preview app's instrumented tests:
    `assertWindowInsets` for one node and `assertAllWindowInsets` for a
    collection. They share the overlap filter, the anchor search and the naming
    of the newer test library, but they name the asserted type before anything
    else, do not check for empty insets, take the scroll range from the nearest
    traversal group, always take a screenshot of an overlapping node and always
    print a scroll position. */
module LegacyWindowInsetsTest {
  import opened Wrappers
  import opened Text
  import opened Geometry
  import opened InsetTypes
  import opened InsetRecords
  import opened SemanticsTree
  import opened Sequences
  import OverlapCheck
  import W = WindowInsetsTest
  import SNI = SemanticsNodeInfo

  const AnchorMissingMessage: string := "SemanticsWindowInsetsAnchor not found in semantics hierarchy"

  // ---- findTraversalGroupNode ----

  /** `findTraversalGroupNode`: the node itself when its `IsTraversalGroup` is
      true (a missing value counts as false), else the search from its parent. */
  function FindTraversalGroup(r: NodeRef): Option<NodeRef>
    decreases |r.ancestors|
  {
    if r.node.isTraversalGroup == Some(true) then Some(r)
    else match r.Parent()
      case None => None
      case Some(parent) => FindTraversalGroup(parent)
  }

  predicate IsGroup(n: Node) {
    n.isTraversalGroup == Some(true)
  }

  /** The search finds the traversal group nearest to the node on its path to
      the root, as a reference with its own ancestors, and nothing when no node
      on the path is a traversal group. */
  lemma {:induction false} TraversalGroupIsNearest(r: NodeRef)
    ensures var p := r.Path();
      FindTraversalGroup(r).None? <==> forall k :: 0 <= k < |p| ==> !IsGroup(p[k])
    ensures var p := r.Path();
      FindTraversalGroup(r).Some? ==>
        exists k :: (0 <= k < |p| && FindTraversalGroup(r).value == NodeRef(r.ancestors[..k], p[k])
          && IsGroup(p[k]) && forall j :: k < j < |p| ==> !IsGroup(p[j]))
    decreases |r.ancestors|
  {
    var p := r.Path();
    var n := |r.ancestors|;
    if IsGroup(r.node) {
      assert r.ancestors[..n] == r.ancestors;
      assert FindTraversalGroup(r).value == NodeRef(r.ancestors[..n], p[n]);
    } else if r.ancestors != [] {
      var parent := r.Parent().value;
      TraversalGroupIsNearest(parent);
      OverlapCheck.ParentPath(r);
      assert !IsGroup(p[n]);
      if FindTraversalGroup(r).Some? {
        var k :| 0 <= k < n && FindTraversalGroup(parent).value == NodeRef(parent.ancestors[..k], parent.Path()[k])
          && IsGroup(parent.Path()[k]) && forall j :: k < j < n ==> !IsGroup(parent.Path()[j]);
        assert parent.ancestors[..k] == r.ancestors[..k];
        assert p[k] == parent.Path()[k];
        assert forall j :: k < j < n ==> p[j] == parent.Path()[j];
      }
    }
  }

  // ---- the sides of assertAllWindowInsets ----

  /** The vertical range of the nearest traversal group, if it has one. */
  function GroupRange(r: NodeRef): Option<ScrollAxisRange> {
    match FindTraversalGroup(r)
    case None => None
    case Some(g) => g.node.verticalScroll
  }

  /** The sides checked for a node. */
  function LegacySides(r: NodeRef): SidesMask {
    W.TestSides(true, GroupRange(r))
  }

  /** The scroll position printed for a node: the group's vertical value, or 0. */
  function LegacyPosition(r: NodeRef): int {
    match GroupRange(r)
    case None => 0
    case Some(range) => range.value
  }

  /** Left and Right are always checked; Top unless the group scrolls and is
      past its start, Bottom unless the group scrolls and is before its end. */
  lemma LegacySidesRule(r: NodeRef)
    ensures Left in SidesOf(LegacySides(r)) && Right in SidesOf(LegacySides(r))
    ensures Top in SidesOf(LegacySides(r)) <==> GroupRange(r).None? || GroupRange(r).value.value <= 0
    ensures Bottom in SidesOf(LegacySides(r))
        <==> GroupRange(r).None? || GroupRange(r).value.value >= GroupRange(r).value.maxValue
  {
    W.TestSidesAgreeWithKeptSides(true, GroupRange(r), None);
    OverlapCheck.KeptSidesIff(GroupRange(r), None, true, false);
  }

  /** The two variables `sides` and `scrollPosition` of the loop body. */
  method SelectLegacySides(r: NodeRef) returns (sides: SidesMask, scrollPosition: int)
    ensures sides == LegacySides(r) && scrollPosition == LegacyPosition(r)
  {
    var traversalGroupNode := FindTraversalGroup(r);
    sides := HorizontalMask | VerticalMask;
    scrollPosition := 0;
    if traversalGroupNode.Some? {
      var verticalRange := traversalGroupNode.value.node.verticalScroll;
      if verticalRange.Some? {
        sides := HorizontalMask;
        var vPos := verticalRange.value.value;
        scrollPosition := vPos;
        if vPos <= 0 {
          sides := sides | TopBit;
        }
        if vPos >= verticalRange.value.maxValue {
          sides := sides | BottomBit;
        }
      }
    }
  }

  // ---- assertAllWindowInsets ----

  /** The entries reported for a node. */
  function LegacyOverlap(insetType: TypeMask, rec: WindowInsetsRecord, r: NodeRef): seq<InsetEntry> {
    W.CheckOverlap(insetType, rec, r.node.boundsInWindow, LegacySides(r))
  }

  predicate LegacyOverlaps(insetType: TypeMask, rec: WindowInsetsRecord, r: NodeRef) {
    LegacyOverlap(insetType, rec, r) != []
  }

  /** The bands the legacy screenshots draw: every band of the selected sides
      of every overlapping entry, in entry order (`flatMap` with no filter). */
  function ShotBounds(rec: WindowInsetsRecord, es: seq<InsetEntry>, sides: SidesMask): seq<Rect> {
    if es == [] then []
    else W.EntryBands(rec, es[0], sides) + ShotBounds(rec, es[1..], sides)
  }

  /** A band is drawn iff it is a band of one of the entries. */
  lemma {:induction false} ShotBoundsMembers(rec: WindowInsetsRecord, es: seq<InsetEntry>, sides: SidesMask, b: Rect)
    ensures b in ShotBounds(rec, es, sides) <==> exists k :: 0 <= k < |es| && b in W.EntryBands(rec, es[k], sides)
  {
    if es != [] {
      ShotBoundsMembers(rec, es[1..], sides, b);
      if b in W.EntryBands(rec, es[0], sides) {
      } else if b in ShotBounds(rec, es[1..], sides) {
        var k :| 0 <= k < |es[1..]| && b in W.EntryBands(rec, es[1..][k], sides);
        assert b in W.EntryBands(rec, es[k + 1], sides);
      } else {
        forall k | 0 <= k < |es| ensures b !in W.EntryBands(rec, es[k], sides) {
          if k > 0 {
            assert es[k] == es[1..][k - 1];
          }
        }
      }
    }
  }

  /** The test library draws exactly those legacy bands that overlap the node:
      its `flatMap` filters what the legacy one draws whole. */
  lemma {:induction false} FilteredShotBounds(rec: WindowInsetsRecord, es: seq<InsetEntry>, sides: SidesMask, bounds: Rect)
    ensures W.OverlappingBounds(rec, es, sides, bounds) == Filter(ShotBounds(rec, es, sides), W.OverlapsBounds(bounds))
  {
    if es != [] {
      FilteredShotBounds(rec, es[1..], sides, bounds);
      FilterAppend(W.EntryBands(rec, es[0], sides), ShotBounds(rec, es[1..], sides), W.OverlapsBounds(bounds));
    }
  }

  /** An entry with left and top insets of 10 in a 100 x 100 window, and a
      node touched only by the top band: the legacy screenshot draws both
      bands, the test library's only the top one. */
  lemma ShotBoundsUnfiltered()
    ensures var e := InsetEntry(1, Insets(10, 10, 0, 0), Insets(10, 10, 0, 0), true);
      var rec := WindowInsetsRecord(100, 100, [e]);
      var node := Rect(50, 0, 60, 5);
      ShotBounds(rec, [e], W.AllSidesMask) == [Rect(0, 0, 10, 100), Rect(0, 0, 100, 10)]
      && W.OverlappingBounds(rec, [e], W.AllSidesMask, node) == [Rect(0, 0, 100, 10)]
  {
    var e := InsetEntry(1, Insets(10, 10, 0, 0), Insets(10, 10, 0, 0), true);
    var rec := WindowInsetsRecord(100, 100, [e]);
    var bands := W.EntryBands(rec, e, W.AllSidesMask);
    assert bands == [Rect(0, 0, 10, 100), Rect(0, 0, 100, 10)];
    assert Filter(bands, W.OverlapsBounds(Rect(50, 0, 60, 5))) == [Rect(0, 0, 100, 10)] by {
      assert bands[1..][1..] == [];
    }
  }

  /** The screenshot of an overlapping node: "screenshot_node_<id>" with every
      band of the checked sides of the overlapping entries. */
  function NodeShot(rec: WindowInsetsRecord, r: NodeRef, overlap: seq<InsetEntry>, sides: SidesMask): W.Screenshot {
    W.Screenshot("screenshot_node_" + IntToString(r.node.id), ShotBounds(rec, overlap, sides), r.node.boundsInWindow)
  }

  /** A node's report, one piece per `append`. */
  function LegacyReport(message: string, names: string, position: int): seq<string> {
    [message, "\n", "[" + names + "] overlap with node!", "\n", "scroll position: " + FloatText(position), "\n", "\n"]
  }

  /** One node of the loop: the screenshot and the general message come before
      the naming, which may throw. */
  function LegacyStep(insetType: TypeMask, rec: WindowInsetsRecord, p: W.Progress, r: NodeRef, message: string)
    : W.Progress
  {
    var overlap := LegacyOverlap(insetType, rec, r);
    if overlap == [] then p
    else
      var shots := p.shots + [NodeShot(rec, r, overlap, LegacySides(r))];
      match W.OverlapNames(overlap)
      case Err(e) => W.Progress(p.pieces, shots, Some(e))
      case Ok(names) => W.Progress(p.pieces + LegacyReport(message, names, LegacyPosition(r)), shots, None)
  }

  /** The loop after the first `k` nodes; a naming exception stops it. */
  function LegacyRun(insetType: TypeMask, rec: WindowInsetsRecord, nodes: seq<NodeRef>, messages: NodeRef -> string,
                     k: nat): W.Progress
    requires k <= |nodes|
  {
    if k == 0 then W.Progress([], [], None)
    else
      var p := LegacyRun(insetType, rec, nodes, messages, k - 1);
      if p.failure.Some? then p else LegacyStep(insetType, rec, p, nodes[k - 1], messages(nodes[k - 1]))
  }

  lemma LegacyRunStep(insetType: TypeMask, rec: WindowInsetsRecord, nodes: seq<NodeRef>, messages: NodeRef -> string,
                      k: nat)
    requires k < |nodes| && LegacyRun(insetType, rec, nodes, messages, k).failure.None?
    ensures LegacyRun(insetType, rec, nodes, messages, k + 1)
         == LegacyStep(insetType, rec, LegacyRun(insetType, rec, nodes, messages, k), nodes[k], messages(nodes[k]))
  {
  }

  lemma {:induction false} LegacyRunStops(insetType: TypeMask, rec: WindowInsetsRecord, nodes: seq<NodeRef>,
                                          messages: NodeRef -> string, k: nat, m: nat)
    requires k <= m <= |nodes|
    requires LegacyRun(insetType, rec, nodes, messages, k).failure.Some?
    ensures LegacyRun(insetType, rec, nodes, messages, m) == LegacyRun(insetType, rec, nodes, messages, k)
    decreases m
  {
    if m > k {
      LegacyRunStops(insetType, rec, nodes, messages, k, m - 1);
    }
  }

  /** The whole assertion as it ends, with the screenshots taken. */
  function AssertAllResult(insetType: TypeMask, nodes: seq<NodeRef>, messages: NodeRef -> string)
    : (W.Outcome, seq<W.Screenshot>)
  {
    match NameFromTypeMask(insetType)
    case Err(e) => (W.Thrown(W.IllegalArgument(e)), [])
    case Ok(_) =>
      if nodes == [] then (W.Thrown(W.NoSuchElement), [])
      else match W.FindWindowInsets(nodes[0])
        case None => (W.Thrown(W.IllegalState(AnchorMissingMessage)), [])
        case Some(rec) =>
          var p := LegacyRun(insetType, rec, nodes, messages, |nodes|);
          if p.failure.Some? then (W.Thrown(W.IllegalArgument(p.failure.value)), p.shots)
          else if |Concat(p.pieces)| > 0 then (W.Thrown(W.AssertionFailed(Concat(p.pieces))), p.shots)
          else (W.Passed, p.shots)
  }

  /** `assertAllWindowInsets(insetType, root)`: the general message of a node
      is `buildGeneralErrorMessage("", collection, node)`, given here as
      `generalErrorMessage`. */
  method AssertAllWindowInsets(insetType: TypeMask, nodes: seq<NodeRef>, generalErrorMessage: NodeRef -> string)
    returns (outcome: W.Outcome, shots: seq<W.Screenshot>)
    ensures (outcome, shots) == AssertAllResult(insetType, nodes, generalErrorMessage)
  {
    shots := [];
    var insetName := NameFromTypeMask(insetType);
    if insetName.Err? {
      outcome := W.Thrown(W.IllegalArgument(insetName.error));
      return;
    }
    if nodes == [] {
      outcome := W.Thrown(W.NoSuchElement);
      return;
    }
    var recordedInsets := W.FindWindowInsets(nodes[0]);
    if recordedInsets.None? {
      outcome := W.Thrown(W.IllegalState(AnchorMissingMessage));
      return;
    }
    var pieces, failure;
    pieces, shots, failure := CheckAllNodes(insetType, recordedInsets.value, nodes, generalErrorMessage);
    if failure.Some? {
      outcome := W.Thrown(W.IllegalArgument(failure.value));
      return;
    }
    var message := Concat(pieces);
    if |message| > 0 {
      outcome := W.Thrown(W.AssertionFailed(message));
    } else {
      outcome := W.Passed;
    }
  }

  /** The `nodes.forEach` loop inside `buildString`: the pieces appended, the
      screenshots taken, and the message of a naming exception that ended it. */
  method CheckAllNodes(insetType: TypeMask, rec: WindowInsetsRecord, nodes: seq<NodeRef>,
                       generalErrorMessage: NodeRef -> string)
    returns (pieces: seq<string>, shots: seq<W.Screenshot>, failure: Option<string>)
    ensures var p := LegacyRun(insetType, rec, nodes, generalErrorMessage, |nodes|);
      shots == p.shots && failure == p.failure && (failure.None? ==> pieces == p.pieces)
  {
    var sb := new StringBuilder();
    shots := [];
    var k := 0;
    while k < |nodes|
      invariant 0 <= k <= |nodes|
      invariant LegacyRun(insetType, rec, nodes, generalErrorMessage, k) == W.Progress(sb.pieces, shots, None)
    {
      LegacyRunStep(insetType, rec, nodes, generalErrorMessage, k);
      shots, failure := LegacyReportNode(insetType, rec, nodes[k], generalErrorMessage(nodes[k]), sb, shots);
      if failure.Some? {
        LegacyRunStops(insetType, rec, nodes, generalErrorMessage, k + 1, |nodes|);
        pieces := sb.pieces;
        return;
      }
      k := k + 1;
    }
    pieces, failure := sb.pieces, None;
  }

  /** The loop body for one node. */
  method LegacyReportNode(insetType: TypeMask, rec: WindowInsetsRecord, r: NodeRef, message: string,
                          sb: StringBuilder, shots0: seq<W.Screenshot>)
    returns (shots: seq<W.Screenshot>, failure: Option<string>)
    modifies sb
    ensures var p := LegacyStep(insetType, rec, W.Progress(old(sb.pieces), shots0, None), r, message);
      shots == p.shots && failure == p.failure && (failure.None? ==> p == W.Progress(sb.pieces, shots, None))
  {
    var sides, scrollPosition := SelectLegacySides(r);
    var bounds := r.node.boundsInWindow;
    var overlapInsets := W.CheckOverlap(insetType, rec, bounds, sides);
    shots := shots0;
    failure := None;
    if overlapInsets != [] {
      shots := shots + [NodeShot(rec, r, overlapInsets, sides)];
      sb.Append(message);
      sb.NewLine();
      var overlappingInsetTypes := W.OverlapNames(overlapInsets);
      if overlappingInsetTypes.Err? {
        failure := Some(overlappingInsetTypes.error);
        return;
      }
      var namesLine := "[" + overlappingInsetTypes.value + "] overlap with node!";
      var positionLine := "scroll position: " + FloatText(scrollPosition);
      sb.AppendLine(namesLine);
      sb.AppendLine(positionLine);
      sb.NewLine();
      LegacyRegroup(old(sb.pieces), message, namesLine, positionLine);
    }
  }

  lemma LegacyRegroup(o: seq<string>, message: string, a: string, b: string)
    ensures o + [message] + ["\n"] + [a, "\n"] + [b, "\n"] + ["\n"] == o + [message, "\n", a, "\n", b, "\n", "\n"]
  {
  }

  // ---- what assertAllWindowInsets promises ----

  /** Every report holds a line break, so it is never empty. */
  lemma LegacyReportNotEmpty(message: string, names: string, position: int)
    ensures !AllEmpty(LegacyReport(message, names, position))
  {
    assert LegacyReport(message, names, position)[1] == "\n";
  }

  /** With known types one node never stops the loop, adds a non-empty report
      exactly when it overlaps, and takes one screenshot then. */
  lemma LegacyStepKeepsGoing(insetType: TypeMask, rec: WindowInsetsRecord, p: W.Progress, r: NodeRef, message: string)
    requires p.failure.None? && W.KnownTypes(rec)
    ensures LegacyStep(insetType, rec, p, r, message).failure.None?
    ensures AllEmpty(LegacyStep(insetType, rec, p, r, message).pieces)
        <==> AllEmpty(p.pieces) && !LegacyOverlaps(insetType, rec, r)
    ensures |LegacyStep(insetType, rec, p, r, message).shots|
         == |p.shots| + (if LegacyOverlaps(insetType, rec, r) then 1 else 0)
  {
    var overlap := LegacyOverlap(insetType, rec, r);
    if overlap != [] {
      W.CheckOverlapSpec(insetType, rec, r.node.boundsInWindow, LegacySides(r));
      W.TypeNamesOk(overlap);
      var names := W.OverlapNames(overlap).value;
      LegacyReportNotEmpty(message, names, LegacyPosition(r));
      AllEmptyAppend(p.pieces, LegacyReport(message, names, LegacyPosition(r)));
    }
  }

  /** How many of the first `k` nodes overlap. */
  function OverlapCount(insetType: TypeMask, rec: WindowInsetsRecord, nodes: seq<NodeRef>, k: nat): nat
    requires k <= |nodes|
  {
    if k == 0 then 0
    else OverlapCount(insetType, rec, nodes, k - 1) + (if LegacyOverlaps(insetType, rec, nodes[k - 1]) then 1 else 0)
  }

  /** With known types the loop never stops early, and its message has only
      empty pieces iff none of the first `k` nodes overlaps. */
  lemma {:induction false} LegacyRunIff(insetType: TypeMask, rec: WindowInsetsRecord, nodes: seq<NodeRef>,
                                        messages: NodeRef -> string, k: nat)
    requires k <= |nodes|
    requires W.KnownTypes(rec)
    ensures LegacyRun(insetType, rec, nodes, messages, k).failure.None?
    ensures AllEmpty(LegacyRun(insetType, rec, nodes, messages, k).pieces)
        <==> forall j :: 0 <= j < k ==> !LegacyOverlaps(insetType, rec, nodes[j])
  {
    if k > 0 {
      LegacyRunIff(insetType, rec, nodes, messages, k - 1);
      LegacyRunStep(insetType, rec, nodes, messages, k - 1);
      LegacyStepKeepsGoing(insetType, rec, LegacyRun(insetType, rec, nodes, messages, k - 1), nodes[k - 1],
                           messages(nodes[k - 1]));
      assert (forall j :: 0 <= j < k ==> !LegacyOverlaps(insetType, rec, nodes[j]))
         <==> (forall j :: 0 <= j < k - 1 ==> !LegacyOverlaps(insetType, rec, nodes[j]))
              && !LegacyOverlaps(insetType, rec, nodes[k - 1]);
    }
  }

  /** With known types the loop takes one screenshot per overlapping node. */
  lemma {:induction false} LegacyRunShots(insetType: TypeMask, rec: WindowInsetsRecord, nodes: seq<NodeRef>,
                                          messages: NodeRef -> string, k: nat)
    requires k <= |nodes|
    requires W.KnownTypes(rec)
    ensures |LegacyRun(insetType, rec, nodes, messages, k).shots| == OverlapCount(insetType, rec, nodes, k)
  {
    if k > 0 {
      LegacyRunShots(insetType, rec, nodes, messages, k - 1);
      LegacyRunIff(insetType, rec, nodes, messages, k - 1);
      LegacyRunStep(insetType, rec, nodes, messages, k - 1);
      LegacyStepKeepsGoing(insetType, rec, LegacyRun(insetType, rec, nodes, messages, k - 1), nodes[k - 1],
                           messages(nodes[k - 1]));
    }
  }

  /** An asserted type that is none of the eight throws before anything else. */
  lemma UnknownTypeThrowsFirst(insetType: TypeMask, nodes: seq<NodeRef>, messages: NodeRef -> string)
    requires insetType & 0xFF == 0
    ensures AssertAllResult(insetType, nodes, messages)
         == (W.Thrown(W.IllegalArgument(UnknownTypeMessage(insetType))), [])
  {
    NameFromTypeMaskFailsIff(insetType);
  }

  /** With a known asserted type, an anchor and known recorded types: the
      assertion throws an `AssertionError` iff some node overlaps, passes
      otherwise, and takes one screenshot per overlapping node. */
  lemma AssertAllFailsIffSomeNodeOverlaps(insetType: TypeMask, nodes: seq<NodeRef>, messages: NodeRef -> string)
    requires insetType & 0xFF != 0
    requires nodes != [] && W.FindWindowInsets(nodes[0]).Some? && W.KnownTypes(W.FindWindowInsets(nodes[0]).value)
    ensures var rec := W.FindWindowInsets(nodes[0]).value;
      var outcome := AssertAllResult(insetType, nodes, messages).0;
      (outcome.Thrown? && outcome.failure.AssertionFailed?)
        <==> exists j :: 0 <= j < |nodes| && LegacyOverlaps(insetType, rec, nodes[j])
    ensures AssertAllResult(insetType, nodes, messages).0.Passed?
         || AssertAllResult(insetType, nodes, messages).0.failure.AssertionFailed?
    ensures |AssertAllResult(insetType, nodes, messages).1|
         == OverlapCount(insetType, W.FindWindowInsets(nodes[0]).value, nodes, |nodes|)
  {
    NameFromTypeMaskFailsIff(insetType);
    var rec := W.FindWindowInsets(nodes[0]).value;
    LegacyRunIff(insetType, rec, nodes, messages, |nodes|);
    LegacyRunShots(insetType, rec, nodes, messages, |nodes|);
    ConcatEmpty(LegacyRun(insetType, rec, nodes, messages, |nodes|).pieces);
  }

  // ---- assertWindowInsets ----

  /** The failure message passed to `fetchSemanticsNode`, with the optional prefix. */
  function ErrorMessageOnFail(insetName: string, prefix: Option<string>): string {
    var base := "Failed to assertWindowInsets: [" + insetName + "])";
    match prefix
    case None => base
    case Some(pre) => pre + "\n" + base
  }

  /** The single-node message, one piece per `append`. */
  function SingleReport(general: string, names: string, uri: string): seq<string> {
    [general, "\n", "[" + names + "] overlap with node!", "\n", "screenshot: " + uri, "\n"]
  }

  /** The single-node assertion as it ends, with the screenshot taken. */
  function AssertResult(insetType: TypeMask, prefix: Option<string>, r: NodeRef,
                        generalErrorMessage: (string, NodeRef) -> string, uriOf: string -> string)
    : (W.Outcome, Option<W.Screenshot>)
  {
    match NameFromTypeMask(insetType)
    case Err(e) => (W.Thrown(W.IllegalArgument(e)), None)
    case Ok(insetName) =>
      match W.FindWindowInsets(r)
      case None => (W.Thrown(W.IllegalState(AnchorMissingMessage)), None)
      case Some(rec) =>
        var overlap := W.CheckOverlap(insetType, rec, r.node.boundsInWindow, W.AllSidesMask);
        if overlap == [] then (W.Passed, None)
        else
          var fileName := "screenshot_overlap_" + IntToString(r.node.id);
          var shot := W.Screenshot(fileName, ShotBounds(rec, overlap, W.AllSidesMask), r.node.boundsInWindow);
          match W.OverlapNames(overlap)
          case Err(e) => (W.Thrown(W.IllegalArgument(e)), Some(shot))
          case Ok(names) =>
            var general := generalErrorMessage(ErrorMessageOnFail(insetName, prefix), r);
            (W.Thrown(W.AssertionFailed(Concat(SingleReport(general, names, uriOf(fileName))))), Some(shot))
  }

  /** `assertWindowInsets(insetType, messagePrefixOnError)` on the node the
      interaction fetches: the prefix is the value of `messagePrefixOnError`,
      `generalErrorMessage` stands for `buildGeneralErrorMessage(_, this, node)`
      and `uriOf` for the storage location of a written screenshot. All four
      sides are checked. */
  method AssertWindowInsets(insetType: TypeMask, prefix: Option<string>, r: NodeRef,
                            generalErrorMessage: (string, NodeRef) -> string, uriOf: string -> string)
    returns (outcome: W.Outcome, shot: Option<W.Screenshot>)
    ensures (outcome, shot) == AssertResult(insetType, prefix, r, generalErrorMessage, uriOf)
  {
    shot := None;
    var insetName := NameFromTypeMask(insetType);
    if insetName.Err? {
      outcome := W.Thrown(W.IllegalArgument(insetName.error));
      return;
    }
    var errorMessageOnFail := "Failed to assertWindowInsets: [" + insetName.value + "])";
    if prefix.Some? {
      errorMessageOnFail := prefix.value + "\n" + errorMessageOnFail;
    }
    var recordedInsets := W.FindWindowInsets(r);
    if recordedInsets.None? {
      outcome := W.Thrown(W.IllegalState(AnchorMissingMessage));
      return;
    }
    var rec := recordedInsets.value;
    var bounds := r.node.boundsInWindow;
    var overlapInsets := W.CheckOverlap(insetType, rec, bounds, W.AllSidesMask);
    if overlapInsets == [] {
      outcome := W.Passed;
      return;
    }
    var fileName := "screenshot_overlap_" + IntToString(r.node.id);
    shot := Some(W.Screenshot(fileName, ShotBounds(rec, overlapInsets, W.AllSidesMask), bounds));
    var overlappingInsetTypes := W.OverlapNames(overlapInsets);
    if overlappingInsetTypes.Err? {
      outcome := W.Thrown(W.IllegalArgument(overlappingInsetTypes.error));
      return;
    }
    var message := BuildSingleMessage(generalErrorMessage(errorMessageOnFail, r), overlappingInsetTypes.value,
                                      uriOf(fileName));
    outcome := W.Thrown(W.AssertionFailed(message));
  }

  /** The `buildString` block of `assertWindowInsets`. The names are computed
      before the block here; in the source they are computed inside it, after
      the general message, which makes no difference since a naming exception
      discards the half-built message. */
  method BuildSingleMessage(general: string, names: string, uri: string) returns (message: string)
    ensures message == Concat(SingleReport(general, names, uri))
  {
    var sb := new StringBuilder();
    sb.Append(general);
    sb.NewLine();
    var namesLine := "[" + names + "] overlap with node!";
    var uriLine := "screenshot: " + uri;
    sb.AppendLine(namesLine);
    sb.AppendLine(uriLine);
    SingleRegroup(general, namesLine, uriLine);
    message := sb.ToString();
  }

  lemma SingleRegroup(general: string, a: string, b: string)
    ensures [] + [general] + ["\n"] + [a, "\n"] + [b, "\n"] == [general, "\n", a, "\n", b, "\n"]
  {
  }

  /** With a known asserted type, an anchor and known recorded types, the
      single-node assertion throws an `AssertionError` iff the node overlaps an
      inset on any of the four sides, and a screenshot is taken exactly then;
      the message starts with the general message and its line break. */
  lemma AssertThrowsIffOverlap(insetType: TypeMask, prefix: Option<string>, r: NodeRef,
                               generalErrorMessage: (string, NodeRef) -> string, uriOf: string -> string)
    requires insetType & 0xFF != 0
    requires W.FindWindowInsets(r).Some? && W.KnownTypes(W.FindWindowInsets(r).value)
    ensures var rec := W.FindWindowInsets(r).value;
      var (outcome, shot) := AssertResult(insetType, prefix, r, generalErrorMessage, uriOf);
      && (outcome.Thrown? <==> W.CheckOverlap(insetType, rec, r.node.boundsInWindow, W.AllSidesMask) != [])
      && (outcome.Thrown? ==> outcome.failure.AssertionFailed?)
      && (shot.Some? <==> outcome.Thrown?)
  {
    NameFromTypeMaskFailsIff(insetType);
    var rec := W.FindWindowInsets(r).value;
    var overlap := W.CheckOverlap(insetType, rec, r.node.boundsInWindow, W.AllSidesMask);
    if overlap != [] {
      W.CheckOverlapSpec(insetType, rec, r.node.boundsInWindow, W.AllSidesMask);
      W.TypeNamesOk(overlap);
    }
  }

  // ---- the general message of the failures ----

  /** `buildGeneralErrorMessage(errorMessage, this, node)` for an interaction
      whose selector reads `selector`. */
  function InteractionMessage(selector: string): (string, NodeRef) -> string {
    (errorMessage, r) => SNI.GeneralErrorMessage(errorMessage, selector, r)
  }

  /** `buildGeneralErrorMessage("", this, node)`, the general message of a node
      in `assertAllWindowInsets`. */
  function CollectionMessage(selector: string): NodeRef -> string {
    r => SNI.GeneralErrorMessage("", selector, r)
  }

  /** `assertWindowInsets` on an interaction whose selector reads `selector`,
      with the general message laid out by `buildGeneralErrorMessage`. */
  method AssertWindowInsetsWithSelector(insetType: TypeMask, prefix: Option<string>, r: NodeRef, selector: string,
                                        uriOf: string -> string)
    returns (outcome: W.Outcome, shot: Option<W.Screenshot>)
    ensures (outcome, shot) == AssertResult(insetType, prefix, r, InteractionMessage(selector), uriOf)
  {
    outcome, shot := AssertWindowInsets(insetType, prefix, r, InteractionMessage(selector), uriOf);
  }

  /** `assertAllWindowInsets` on a collection whose selector reads `selector`,
      with each node's general message built for an empty error. */
  method AssertAllWindowInsetsWithSelector(insetType: TypeMask, nodes: seq<NodeRef>, selector: string)
    returns (outcome: W.Outcome, shots: seq<W.Screenshot>)
    ensures (outcome, shots) == AssertAllResult(insetType, nodes, CollectionMessage(selector))
  {
    outcome, shots := AssertAllWindowInsets(insetType, nodes, CollectionMessage(selector));
  }
}
