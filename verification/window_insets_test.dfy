/** The window-insets assertion of the test library: the search for the
    window-insets anchor, the scroll ranges on the way to the root, the filter
    that picks the inset entries overlapping a node, the check that the recorded
    insets are not empty, the side selection of a scrolled node and the loop of
    `testWindowInsets` that collects one report per overlapping node into a
    `StringBuilder` and throws when anything was reported. Screenshots are
    represented by the request to take them; taking, drawing and storing them is
    I/O and lies outside the model. */
module WindowInsetsTest {
  import opened Wrappers
  import opened Text
  import opened Sequences
  import opened Geometry
  import opened InsetTypes
  import opened InsetRecords
  import opened SemanticsTree
  import OverlapCheck

  // ---- findWindowInsets ----

  /** `searchChildren()` of the anchor search: the `return` inside `forEach`
      leaves on the first child, so only the first child of each level is looked
      at; its anchor, or else the search below it; null for a childless node. */
  function SearchAnchor(n: Node): Option<WindowInsetsRecord>
    decreases n
  {
    if n.children == [] then None
    else n.children[0].anchor.Or(SearchAnchor(n.children[0]))
  }

  /** `findWindowInsets()`: the search starts at the root of the node's tree. */
  function FindWindowInsets(r: NodeRef): Option<WindowInsetsRecord> {
    SearchAnchor(r.Root())
  }

  /** The chain of first children below `n`: first child, its first child, and so on. */
  function FirstChildChain(n: Node): (c: seq<Node>)
    decreases n
  {
    if n.children == [] then [] else [n.children[0]] + FirstChildChain(n.children[0])
  }

  /** The search yields the anchor of the first node on the first-child chain
      that has one, and null when no node on that chain has one. */
  lemma {:induction false} AnchorOnFirstChildChain(n: Node)
    ensures var c := FirstChildChain(n);
      SearchAnchor(n).None? <==> forall k :: 0 <= k < |c| ==> c[k].anchor.None?
    ensures var c := FirstChildChain(n);
      SearchAnchor(n).Some? ==>
        exists k :: 0 <= k < |c| && c[k].anchor == SearchAnchor(n)
          && forall j :: 0 <= j < k ==> c[j].anchor.None?
    decreases n
  {
    if n.children != [] {
      var first := n.children[0];
      var c := FirstChildChain(n);
      AnchorOnFirstChildChain(first);
      assert c[0] == first;
      assert forall k :: 1 <= k < |c| ==> c[k] == FirstChildChain(first)[k - 1];
      if first.anchor.None? && SearchAnchor(first).Some? {
        var k :| 0 <= k < |FirstChildChain(first)| && FirstChildChain(first)[k].anchor == SearchAnchor(first)
          && forall j :: 0 <= j < k ==> FirstChildChain(first)[j].anchor.None?;
        assert c[k + 1].anchor == SearchAnchor(n);
      }
      if first.anchor.None? && SearchAnchor(first).None? {
        forall k | 0 <= k < |c| ensures c[k].anchor.None? {
          if k > 0 {
            assert c[k] == FirstChildChain(first)[k - 1];
          }
        }
      }
    }
  }

  /** Only the first child matters: dropping every later child at the top
      level changes nothing, however many anchors those children hold. */
  lemma LaterChildrenIgnored(n: Node)
    requires |n.children| > 0
    ensures SearchAnchor(n) == SearchAnchor(n.(children := n.children[..1]))
  {
  }

  // ---- scroll ranges ----

  /** `findHorizontalScrollAxisRange` of this library, as written: the node's own
      horizontal range, otherwise the parent's VERTICAL search. */
  function FindHorizontalScrollAxisRangeAsWritten(r: NodeRef): Option<ScrollAxisRange> {
    if r.node.horizontalScroll.Some? then r.node.horizontalScroll
    else match r.Parent()
      case None => None
      case Some(parent) => OverlapCheck.FindVerticalScrollAxisRange(parent)
  }

  /** A node with no horizontal range under a parent with only a vertical range:
      the finder as written reports the parent's vertical range as a horizontal
      one, where the nearest horizontal range (`OverlapCheck.FindHorizontalScrollAxisRange`)
      is none at all. */
  lemma HorizontalFinderReturnsVerticalRange()
    ensures var range := ScrollAxisRange(5, 10);
      var parent := Node(1, Rect(0, 0, 10, 10), Rect(0, 0, 10, 10), [], None, Some(range), None, None, false, false, []);
      var child := Node(2, Rect(0, 0, 10, 10), Rect(0, 0, 10, 10), [], None, None, None, None, false, false, []);
      var r := NodeRef([parent], child);
      FindHorizontalScrollAxisRangeAsWritten(r) == Some(range)
      && OverlapCheck.FindHorizontalScrollAxisRange(r) == None
  {
    var range := ScrollAxisRange(5, 10);
    var parent := Node(1, Rect(0, 0, 10, 10), Rect(0, 0, 10, 10), [], None, Some(range), None, None, false, false, []);
    var child := Node(2, Rect(0, 0, 10, 10), Rect(0, 0, 10, 10), [], None, None, None, None, false, false, []);
    var r := NodeRef([parent], child);
    assert r.Parent() == Some(NodeRef([], parent));
    assert NodeRef([], parent).Parent() == None;
  }

  /** The two finders agree on the node itself and part ways only above it: as
      written, the ancestors are searched for a vertical range. */
  lemma HorizontalFinderAsWrittenDelegates(r: NodeRef)
    ensures r.node.horizontalScroll.Some? ==>
      FindHorizontalScrollAxisRangeAsWritten(r) == r.node.horizontalScroll
      && OverlapCheck.FindHorizontalScrollAxisRange(r) == r.node.horizontalScroll
    ensures r.node.horizontalScroll.None? && r.ancestors != [] ==>
      FindHorizontalScrollAxisRangeAsWritten(r) == OverlapCheck.FindVerticalScrollAxisRange(r.Parent().value)
  {
  }

  // ---- checkOverlap ----

  /** The `forEach` with `return@filter true`: some band overlaps the bounds. */
  function AnyOverlap(bands: seq<Rect>, bounds: Rect): bool {
    if bands == [] then false
    else Overlaps(bands[0], bounds) || AnyOverlap(bands[1..], bounds)
  }

  lemma {:induction false} AnyOverlapIff(bands: seq<Rect>, bounds: Rect)
    ensures AnyOverlap(bands, bounds) <==> exists k :: 0 <= k < |bands| && Overlaps(bands[k], bounds)
  {
    if bands != [] {
      AnyOverlapIff(bands[1..], bounds);
      if AnyOverlap(bands[1..], bounds) {
        var k :| 0 <= k < |bands[1..]| && Overlaps(bands[1..][k], bounds);
        assert Overlaps(bands[k + 1], bounds);
      }
      if exists k :: 0 <= k < |bands| && Overlaps(bands[k], bounds) {
        var k :| 0 <= k < |bands| && Overlaps(bands[k], bounds);
        if k > 0 {
          assert Overlaps(bands[1..][k - 1], bounds);
        }
      }
    }
  }

  /** The bands of an entry's visible insets for the selected sides. */
  function EntryBands(rec: WindowInsetsRecord, e: InsetEntry, sides: SidesMask): seq<Rect> {
    ToBoundsMask(e.visible, rec.windowWidth, rec.windowHeight, sides)
  }

  /** `checkOverlap(type, recordedInsets, bounds, sides)`: the visible entries,
      then those sharing a bit with `type`, then those with a band overlapping
      `bounds`. */
  function CheckOverlap(insetType: TypeMask, rec: WindowInsetsRecord, bounds: Rect, sides: SidesMask)
    : seq<InsetEntry>
  {
    Filter(Filter(Filter(rec.insetList, IsVisible()), SharesTypeBit(insetType)), HasOverlap(rec, bounds, sides))
  }

  function IsVisible(): InsetEntry -> bool {
    (e: InsetEntry) => e.isVisible
  }

  function SharesTypeBit(insetType: TypeMask): InsetEntry -> bool {
    (e: InsetEntry) => AndPositive(insetType, e.insetType)
  }

  function HasOverlap(rec: WindowInsetsRecord, bounds: Rect, sides: SidesMask): InsetEntry -> bool {
    e => AnyOverlap(EntryBands(rec, e, sides), bounds)
  }

  /** What makes an entry part of the overlap list. */
  predicate Reported(insetType: TypeMask, rec: WindowInsetsRecord, bounds: Rect, sides: SidesMask, e: InsetEntry) {
    e.isVisible && AndPositive(insetType, e.insetType)
    && exists k :: 0 <= k < |EntryBands(rec, e, sides)| && Overlaps(EntryBands(rec, e, sides)[k], bounds)
  }

  /** The overlap list is the inset list filtered once by `Reported`: exactly the
      visible entries that share a type bit and have an overlapping band, kept
      in list order (a subsequence of the list). */
  lemma CheckOverlapSpec(insetType: TypeMask, rec: WindowInsetsRecord, bounds: Rect, sides: SidesMask)
    ensures CheckOverlap(insetType, rec, bounds, sides)
         == Filter(rec.insetList, ReportedBy(insetType, rec, bounds, sides))
    ensures IsSubsequence(CheckOverlap(insetType, rec, bounds, sides), rec.insetList)
    ensures forall e :: (e in CheckOverlap(insetType, rec, bounds, sides)
                         <==> e in rec.insetList && Reported(insetType, rec, bounds, sides, e))
  {
    var visible, typed, hit := IsVisible(), SharesTypeBit(insetType), HasOverlap(rec, bounds, sides);
    var spec := ReportedBy(insetType, rec, bounds, sides);
    var both := (e: InsetEntry) => e.isVisible && AndPositive(insetType, e.insetType);
    FilterTwice(rec.insetList, visible, typed, both);
    forall e: InsetEntry ensures (both(e) && hit(e)) == spec(e) {
      AnyOverlapIff(EntryBands(rec, e, sides), bounds);
    }
    FilterTwice(rec.insetList, both, hit, spec);
    FilterIsSubsequence(rec.insetList, spec);
    forall e ensures e in Filter(rec.insetList, spec) <==> e in rec.insetList && spec(e) {
      FilterMembers(rec.insetList, spec, e);
    }
  }

  function ReportedBy(insetType: TypeMask, rec: WindowInsetsRecord, bounds: Rect, sides: SidesMask)
    : InsetEntry -> bool
  {
    e => Reported(insetType, rec, bounds, sides, e)
  }

  // ---- isNotEmpty ----

  /** Some edge of the ignoring-visibility insets is positive. */
  predicate HasPositiveEdge(e: InsetEntry) {
    e.ignoringVisibility.top > 0 || e.ignoringVisibility.right > 0
    || e.ignoringVisibility.bottom > 0 || e.ignoringVisibility.left > 0
  }

  /** `insetList.any { ... }`. */
  function AnyPositiveEdge(es: seq<InsetEntry>): bool {
    if es == [] then false else HasPositiveEdge(es[0]) || AnyPositiveEdge(es[1..])
  }

  /** `TestWindowInsets.isNotEmpty()`. */
  function IsNotEmpty(rec: WindowInsetsRecord): bool {
    rec.windowWidth > 0 && rec.windowHeight > 0 && AnyPositiveEdge(rec.insetList)
  }

  lemma {:induction false} AnyPositiveEdgeIff(es: seq<InsetEntry>)
    ensures AnyPositiveEdge(es) <==> exists e :: e in es && HasPositiveEdge(e)
  {
    if es != [] {
      AnyPositiveEdgeIff(es[1..]);
      assert forall e :: e in es <==> e == es[0] || e in es[1..];
    }
  }

  /** The recorded insets count as present iff the window has an area and some
      entry has a positive ignoring-visibility edge. */
  lemma IsNotEmptyIff(rec: WindowInsetsRecord)
    ensures IsNotEmpty(rec) <==>
      rec.windowWidth > 0 && rec.windowHeight > 0 && exists e :: e in rec.insetList && HasPositiveEdge(e)
  {
    AnyPositiveEdgeIff(rec.insetList);
  }

  // ---- side selection ----

  /** `WindowInsetsSides.Horizontal + WindowInsetsSides.Vertical`. */
  const AllSidesMask: SidesMask := HorizontalMask | VerticalMask

  /** The sides `testWindowInsets` checks a node against: all four, or with a
      vertical range found and exclusion on, Left and Right plus Top when the
      range is at its start and Bottom when it is at its end. */
  function TestSides(excludeVerticalScrollSides: bool, verticalRange: Option<ScrollAxisRange>): SidesMask {
    if excludeVerticalScrollSides && verticalRange.Some? then
      HorizontalMask | (if verticalRange.value.value <= 0 then TopBit else 0)
      | (if verticalRange.value.value >= verticalRange.value.maxValue then BottomBit else 0)
    else AllSidesMask
  }

  /** The add-based rule keeps exactly the sides the remove-based rule of the
      check library keeps with horizontal exclusion off: horizontal scrolling
      never removes a side here. */
  lemma TestSidesAgreeWithKeptSides(excl: bool, v: Option<ScrollAxisRange>, h: Option<ScrollAxisRange>)
    ensures SidesOf(TestSides(excl, v)) == OverlapCheck.KeptSides(v, h, excl, false)
  {
    OverlapCheck.KeptSidesIff(v, h, excl, false);
    var m := TestSides(excl, v);
    assert Left in SidesOf(m) && Right in SidesOf(m);
    assert Top in SidesOf(m) <==> !(excl && v.Some? && v.value.value > 0);
    assert Bottom in SidesOf(m) <==> !(excl && v.Some? && v.value.value < v.value.maxValue);
  }

  /** The scroll position reported for a node: the vertical value when exclusion
      is on and a range was found. */
  function ScrollPosition(excludeVerticalScrollSides: bool, verticalRange: Option<ScrollAxisRange>): Option<int> {
    if excludeVerticalScrollSides && verticalRange.Some? then Some(verticalRange.value.value) else None
  }

  /** The two variables of the loop body, `sides` and `verticalScrollPosition`,
      as they stand before the overlap check. */
  method SelectSides(r: NodeRef, excludeVerticalScrollSides: bool)
    returns (sides: SidesMask, verticalScrollPosition: Option<int>)
    ensures sides == TestSides(excludeVerticalScrollSides, OverlapCheck.FindVerticalScrollAxisRange(r))
    ensures verticalScrollPosition == ScrollPosition(excludeVerticalScrollSides, OverlapCheck.FindVerticalScrollAxisRange(r))
  {
    sides := AllSidesMask;
    verticalScrollPosition := None;
    if excludeVerticalScrollSides {
      var verticalRange := OverlapCheck.FindVerticalScrollAxisRange(r);
      if verticalRange.Some? {
        sides := HorizontalMask;
        var vPos := verticalRange.value.value;
        verticalScrollPosition := Some(vPos);
        if vPos <= 0 {
          sides := sides | TopBit;
        }
        if vPos >= verticalRange.value.maxValue {
          sides := sides | BottomBit;
        }
      }
    }
  }

  // ---- testWindowInsets ----

  /** `overlapInsets.joinToString { getNameFromWindowInsetType(it.type) }`: the
      names in list order; the first unnamed type throws. */
  function TypeNames(es: seq<InsetEntry>): (r: Result<seq<string>, string>)
    ensures r.Ok? ==> |r.value| == |es|
  {
    if es == [] then Ok([])
    else match NameFromTypeMask(es[0].insetType)
      case Err(e) => Err(e)
      case Ok(name) =>
        match TypeNames(es[1..])
        case Err(e) => Err(e)
        case Ok(names) => Ok([name] + names)
  }

  /** Entries that all carry one of the eight type bits are all named, each by
      the bitmask form of its type. */
  lemma {:induction false} TypeNamesOk(es: seq<InsetEntry>)
    requires forall e :: e in es ==> e.insetType & 0xFF != 0
    ensures TypeNames(es).Ok?
    ensures forall k :: 0 <= k < |es| ==> NameFromTypeMask(es[k].insetType) == Ok(TypeNames(es).value[k])
  {
    if es != [] {
      NameFromTypeMaskFailsIff(es[0].insetType);
      TypeNamesOk(es[1..]);
      forall k | 1 <= k < |es|
        ensures NameFromTypeMask(es[k].insetType) == Ok(TypeNames(es).value[k])
      {
        assert es[1..][k - 1] == es[k];
      }
    }
  }

  function OverlapNames(es: seq<InsetEntry>): Result<string, string> {
    match TypeNames(es)
    case Err(e) => Err(e)
    case Ok(names) => Ok(Join(", ", names))
  }

  /** What the test fixes before it starts: the type mask, the two switches, the
      optional screenshot base name and the device line (`Build.MODEL` and
      `Build.VERSION.RELEASE`, read by the caller). */
  datatype TestSetup = TestSetup(
    insetType: TypeMask,
    excludeVerticalScrollSides: bool,
    complainAboutNoWindowInsets: bool,
    screenshotBaseName: Option<string>,
    device: string)

  /** A screenshot the test asks for: the file name, the overlapping inset bands
      to draw and the node's bounds. */
  datatype Screenshot = Screenshot(fileName: string, insetBounds: seq<Rect>, bounds: Rect)

  /** What the test throws. */
  datatype Failure =
    | NoSuchElement               // `nodes.first()` on an empty list
    | IllegalState(message: string)
    | IllegalArgument(message: string)
    | AssertionFailed(message: string)

  datatype Outcome = Passed | Thrown(failure: Failure)

  /** The `trimMargin` text of `checkWindowInsetsAnchor`: its lines joined by
      line breaks, without a final one. */
  const AnchorNotFoundMessage: string :=
    "SemanticsWindowInsetsAnchor not found in semantics hierarchy!\n"
    + "Please make sure you added SemanticsWindowInsetsAnchor in your composable.\n"
    + "Example:\n"
    + "> composeTestRule.setContent {\n"
    + ">     enableEdgeToEdge()\n"
    + ">  -> SemanticsWindowInsetsAnchor() <--\n"
    + ">     AppTheme {\n"
    + ">         ComposableToTest()\n"
    + ">     }\n"
    + "> }"

  /** The `trimMargin` text of the empty-insets check, including its TODO line. */
  const NoWindowInsetsMessage: string :=
    "Detected window insets are empty!\n"
    + "Maybe you forgot to enable edge to edge?\n"
    + "//TODO different example when in robolectric mode!\n"
    + "Example:\n"
    + "> composeTestRule.setContent {\n"
    + "> --> (LocalContext.current as ComponentActivity).enableEdgeToEdge()  <--\n"
    + ">     SemanticsWindowInsetsAnchor()\n"
    + ">     AppTheme {\n"
    + ">         ScreenToTest()\n"
    + ">     }\n"
    + "> }"

  /** The filter `bounds.overlaps(node.boundsInWindow)` on a band. */
  function OverlapsBounds(bounds: Rect): Rect -> bool {
    b => Overlaps(b, bounds)
  }

  /** The bands of the overlapping entries that overlap the node (`flatMap`
      of the filtered bands). */
  function OverlappingBounds(rec: WindowInsetsRecord, es: seq<InsetEntry>, sides: SidesMask, bounds: Rect)
    : seq<Rect>
  {
    if es == [] then []
    else Filter(EntryBands(rec, es[0], sides), OverlapsBounds(bounds))
         + OverlappingBounds(rec, es[1..], sides, bounds)
  }

  /** The file name of a node's screenshot, when a base name is given. */
  function ScreenshotName(setup: TestSetup, r: NodeRef): Option<string> {
    match setup.screenshotBaseName
    case None => None
    case Some(base) => Some(base + "_node_" + IntToString(r.node.id))
  }

  /** The node's report, one piece per `append`. */
  function ReportPieces(message: string, names: string, position: Option<int>, device: string,
                        fileName: Option<string>): seq<string>
  {
    [message] + ["\n"] + ["[" + names + "] overlap with node!", "\n"]
    + (if position.Some? then ["vertical scroll position: " + FloatText(position.value), "\n"] else [])
    + ["Device: " + device, "\n"]
    + (if fileName.Some? then ["Screenshot: [" + device + "] " + fileName.value + ".png", "\n"] else [])
    + ["\n"]
  }

  /** Where the loop stands: the pieces of the message, the screenshots asked
      for, and the message of a naming exception that ended it. */
  datatype Progress = Progress(pieces: seq<string>, shots: seq<Screenshot>, failure: Option<string>)

  /** The sides checked for a node: all four, or the horizontal pair when the
      node scrolls vertically and those sides are excluded. */
  function NodeSides(setup: TestSetup, r: NodeRef): SidesMask {
    TestSides(setup.excludeVerticalScrollSides, OverlapCheck.FindVerticalScrollAxisRange(r))
  }

  /** The entries reported for a node. */
  function NodeOverlap(setup: TestSetup, rec: WindowInsetsRecord, r: NodeRef): seq<InsetEntry> {
    CheckOverlap(setup.insetType, rec, r.node.boundsInWindow, NodeSides(setup, r))
  }

  /** One node of the loop. */
  function NodeStep(setup: TestSetup, rec: WindowInsetsRecord, p: Progress, r: NodeRef, message: string)
    : Progress
  {
    var overlap := NodeOverlap(setup, rec, r);
    if overlap == [] then p
    else
      var sides := NodeSides(setup, r);
      var bounds := r.node.boundsInWindow;
      var fileName := ScreenshotName(setup, r);
      var shots := p.shots + (if fileName.Some? then [Screenshot(fileName.value, OverlappingBounds(rec, overlap, sides, bounds), bounds)] else []);
      match OverlapNames(overlap)
      case Err(e) => Progress(p.pieces, shots, Some(e))
      case Ok(names) =>
        var position := ScrollPosition(setup.excludeVerticalScrollSides, OverlapCheck.FindVerticalScrollAxisRange(r));
        Progress(p.pieces + ReportPieces(message, names, position, setup.device, fileName), shots, None)
  }

  /** The loop after the first `k` nodes; a naming exception stops it. */
  function Run(setup: TestSetup, rec: WindowInsetsRecord, nodes: seq<NodeRef>, messages: NodeRef -> string, k: nat)
    : Progress
    requires k <= |nodes|
  {
    if k == 0 then Progress([], [], None)
    else
      var p := Run(setup, rec, nodes, messages, k - 1);
      if p.failure.Some? then p else NodeStep(setup, rec, p, nodes[k - 1], messages(nodes[k - 1]))
  }

  /** A loop that has not stopped goes on with the next node. */
  lemma RunStep(setup: TestSetup, rec: WindowInsetsRecord, nodes: seq<NodeRef>, messages: NodeRef -> string, k: nat)
    requires k < |nodes| && Run(setup, rec, nodes, messages, k).failure.None?
    ensures Run(setup, rec, nodes, messages, k + 1)
         == NodeStep(setup, rec, Run(setup, rec, nodes, messages, k), nodes[k], messages(nodes[k]))
  {
  }

  /** Once a naming exception ends the loop, later nodes change nothing. */
  lemma {:induction false} RunStops(setup: TestSetup, rec: WindowInsetsRecord, nodes: seq<NodeRef>,
                                    messages: NodeRef -> string, k: nat, m: nat)
    requires k <= m <= |nodes|
    requires Run(setup, rec, nodes, messages, k).failure.Some?
    ensures Run(setup, rec, nodes, messages, m) == Run(setup, rec, nodes, messages, k)
    decreases m
  {
    if m > k {
      RunStops(setup, rec, nodes, messages, k, m - 1);
    }
  }

  /** The whole test, as it ends: an exception or a pass, with the screenshots asked for. */
  function TestResult(setup: TestSetup, nodes: seq<NodeRef>, messages: NodeRef -> string)
    : (Outcome, seq<Screenshot>)
  {
    if nodes == [] then (Thrown(NoSuchElement), [])
    else match FindWindowInsets(nodes[0])
      case None => (Thrown(IllegalState(AnchorNotFoundMessage)), [])
      case Some(rec) =>
        if setup.complainAboutNoWindowInsets && !IsNotEmpty(rec) then (Thrown(IllegalState(NoWindowInsetsMessage)), [])
        else
          var p := Run(setup, rec, nodes, messages, |nodes|);
          if p.failure.Some? then (Thrown(IllegalArgument(p.failure.value)), p.shots)
          else if |Concat(p.pieces)| > 0 then (Thrown(AssertionFailed(Concat(p.pieces))), p.shots)
          else (Passed, p.shots)
  }

  /** `testWindowInsets(nodes, generalErrorMessage, insetType, ...)`: the anchor
      of the first node's tree, the emptiness check, then one report per node
      with an overlap, and an `AssertionError` carrying the reports. */
  method TestWindowInsets(setup: TestSetup, nodes: seq<NodeRef>, generalErrorMessage: NodeRef -> string)
    returns (outcome: Outcome, shots: seq<Screenshot>)
    ensures (outcome, shots) == TestResult(setup, nodes, generalErrorMessage)
  {
    shots := [];
    if nodes == [] {
      outcome := Thrown(NoSuchElement);
      return;
    }
    var windowInsets := FindWindowInsets(nodes[0]);
    if windowInsets.None? {
      outcome := Thrown(IllegalState(AnchorNotFoundMessage));
      return;
    }
    var rec := windowInsets.value;
    if setup.complainAboutNoWindowInsets && !IsNotEmpty(rec) {
      outcome := Thrown(IllegalState(NoWindowInsetsMessage));
      return;
    }
    var sb := new StringBuilder();
    var k := 0;
    while k < |nodes|
      invariant 0 <= k <= |nodes|
      invariant Run(setup, rec, nodes, generalErrorMessage, k) == Progress(sb.pieces, shots, None)
    {
      RunStep(setup, rec, nodes, generalErrorMessage, k);
      var failure;
      shots, failure := ReportNode(setup, rec, nodes[k], generalErrorMessage(nodes[k]), sb, shots);
      if failure.Some? {
        RunStops(setup, rec, nodes, generalErrorMessage, k + 1, |nodes|);
        outcome := Thrown(IllegalArgument(failure.value));
        return;
      }
      k := k + 1;
    }
    var message := sb.ToString();
    if |message| > 0 {
      outcome := Thrown(AssertionFailed(message));
    } else {
      outcome := Passed;
    }
  }

  /** The loop body for one node: choose the sides, check the overlap, and for
      an overlapping node ask for the screenshot and append its report. */
  method ReportNode(setup: TestSetup, rec: WindowInsetsRecord, r: NodeRef, message: string,
                    sb: StringBuilder, shots0: seq<Screenshot>)
    returns (shots: seq<Screenshot>, failure: Option<string>)
    modifies sb
    ensures var p := NodeStep(setup, rec, Progress(old(sb.pieces), shots0, None), r, message);
      shots == p.shots && failure == p.failure && (failure.None? ==> p == Progress(sb.pieces, shots, None))
  {
    var sides, verticalScrollPosition := SelectSides(r, setup.excludeVerticalScrollSides);
    var bounds := r.node.boundsInWindow;
    var overlapInsets := CheckOverlap(setup.insetType, rec, bounds, sides);
    shots := shots0;
    failure := None;
    if overlapInsets != [] {
      var fileName := ScreenshotName(setup, r);
      if fileName.Some? {
        shots := shots + [Screenshot(fileName.value, OverlappingBounds(rec, overlapInsets, sides, bounds), bounds)];
      } else {
        assert shots == shots + [];
      }
      sb.Append(message);
      sb.NewLine();
      var names := OverlapNames(overlapInsets);
      if names.Err? {
        failure := Some(names.error);
        return;
      }
      AppendReportTail(sb, names.value, verticalScrollPosition, setup.device, fileName);
      ReportRegroup(old(sb.pieces), message, names.value, verticalScrollPosition, setup.device, fileName);
    }
  }

  /** The lines after the error message and its line break. */
  method AppendReportTail(sb: StringBuilder, names: string, position: Option<int>, device: string,
                          fileName: Option<string>)
    modifies sb
    ensures sb.pieces == old(sb.pieces) + ReportTail(names, position, device, fileName)
  {
    sb.AppendLine("[" + names + "] overlap with node!");
    ghost var afterNames := sb.pieces;
    AppendPosition(sb, position);
    sb.AppendLine("Device: " + device);
    ghost var afterDevice := sb.pieces;
    AppendScreenshotLine(sb, device, fileName);
    sb.NewLine();
    TailRegroup(old(sb.pieces), ["[" + names + "] overlap with node!", "\n"], PositionLines(position),
                ["Device: " + device, "\n"], ScreenshotLines(device, fileName), ["\n"]);
  }

  function PositionLines(position: Option<int>): seq<string> {
    if position.Some? then ["vertical scroll position: " + FloatText(position.value), "\n"] else []
  }

  function ScreenshotLines(device: string, fileName: Option<string>): seq<string> {
    if fileName.Some? then ["Screenshot: [" + device + "] " + fileName.value + ".png", "\n"] else []
  }

  function ReportTail(names: string, position: Option<int>, device: string, fileName: Option<string>): seq<string> {
    ["[" + names + "] overlap with node!", "\n"] + PositionLines(position) + ["Device: " + device, "\n"]
    + ScreenshotLines(device, fileName) + ["\n"]
  }

  method AppendPosition(sb: StringBuilder, position: Option<int>)
    modifies sb
    ensures sb.pieces == old(sb.pieces) + PositionLines(position)
  {
    if position.Some? {
      sb.AppendLine("vertical scroll position: " + FloatText(position.value));
    } else {
      assert sb.pieces == sb.pieces + [];
    }
  }

  method AppendScreenshotLine(sb: StringBuilder, device: string, fileName: Option<string>)
    modifies sb
    ensures sb.pieces == old(sb.pieces) + ScreenshotLines(device, fileName)
  {
    if fileName.Some? {
      sb.AppendLine("Screenshot: [" + device + "] " + fileName.value + ".png");
    } else {
      assert sb.pieces == sb.pieces + [];
    }
  }

  lemma TailRegroup(o: seq<string>, a: seq<string>, b: seq<string>, c: seq<string>, d: seq<string>, e: seq<string>)
    ensures o + a + b + c + d + e == o + (a + b + c + d + e)
  {
  }

  lemma ReportRegroup(o: seq<string>, message: string, names: string, position: Option<int>, device: string,
                      fileName: Option<string>)
    ensures o + [message] + ["\n"] + ReportTail(names, position, device, fileName)
         == o + ReportPieces(message, names, position, device, fileName)
  {
  }

  // ---- what the test promises ----

  /** A node is reported iff its overlap list is not empty. */
  predicate NodeOverlaps(setup: TestSetup, rec: WindowInsetsRecord, r: NodeRef) {
    NodeOverlap(setup, rec, r) != []
  }

  /** Entries whose types are all among the eight never make the naming throw. */
  predicate KnownTypes(rec: WindowInsetsRecord) {
    forall e :: e in rec.insetList ==> e.insetType & 0xFF != 0
  }

  /** Every report holds a line break, so it is never empty. */
  lemma ReportNotEmpty(message: string, names: string, position: Option<int>, device: string,
                       fileName: Option<string>)
    ensures !AllEmpty(ReportPieces(message, names, position, device, fileName))
  {
    assert ReportPieces(message, names, position, device, fileName)[1] == "\n";
  }

  /** With known types one node never stops the loop, and it adds a non-empty
      report exactly when it overlaps. */
  lemma StepKeepsGoing(setup: TestSetup, rec: WindowInsetsRecord, p: Progress, r: NodeRef, message: string)
    requires p.failure.None? && KnownTypes(rec)
    ensures NodeStep(setup, rec, p, r, message).failure.None?
    ensures AllEmpty(NodeStep(setup, rec, p, r, message).pieces)
        <==> AllEmpty(p.pieces) && !NodeOverlaps(setup, rec, r)
  {
    var overlap := NodeOverlap(setup, rec, r);
    if overlap != [] {
      CheckOverlapSpec(setup.insetType, rec, r.node.boundsInWindow, NodeSides(setup, r));
      TypeNamesOk(overlap);
      var names := OverlapNames(overlap).value;
      var position := ScrollPosition(setup.excludeVerticalScrollSides, OverlapCheck.FindVerticalScrollAxisRange(r));
      var fileName := ScreenshotName(setup, r);
      ReportNotEmpty(message, names, position, setup.device, fileName);
      AllEmptyAppend(p.pieces, ReportPieces(message, names, position, setup.device, fileName));
    }
  }

  /** With known types the loop never stops early, and its message has only
      empty pieces iff none of the first `k` nodes overlaps. */
  lemma {:induction false} RunMessageEmptyIff(setup: TestSetup, rec: WindowInsetsRecord, nodes: seq<NodeRef>,
                                              messages: NodeRef -> string, k: nat)
    requires k <= |nodes|
    requires KnownTypes(rec)
    ensures Run(setup, rec, nodes, messages, k).failure.None?
    ensures AllEmpty(Run(setup, rec, nodes, messages, k).pieces)
        <==> forall j :: 0 <= j < k ==> !NodeOverlaps(setup, rec, nodes[j])
  {
    if k > 0 {
      RunMessageEmptyIff(setup, rec, nodes, messages, k - 1);
      RunStep(setup, rec, nodes, messages, k - 1);
      StepKeepsGoing(setup, rec, Run(setup, rec, nodes, messages, k - 1), nodes[k - 1], messages(nodes[k - 1]));
      assert (forall j :: 0 <= j < k ==> !NodeOverlaps(setup, rec, nodes[j]))
         <==> (forall j :: 0 <= j < k - 1 ==> !NodeOverlaps(setup, rec, nodes[j]))
              && !NodeOverlaps(setup, rec, nodes[k - 1]);
    }
  }

  /** Once the anchor is found and the emptiness check passes, and all recorded
      types are known: the test throws an `AssertionError` iff some node has an
      overlap, and passes otherwise. */
  lemma TestFailsIffSomeNodeOverlaps(setup: TestSetup, nodes: seq<NodeRef>, messages: NodeRef -> string)
    requires nodes != [] && FindWindowInsets(nodes[0]).Some?
    requires var rec := FindWindowInsets(nodes[0]).value;
      KnownTypes(rec) && (setup.complainAboutNoWindowInsets ==> IsNotEmpty(rec))
    ensures var rec := FindWindowInsets(nodes[0]).value;
      var outcome := TestResult(setup, nodes, messages).0;
      (outcome.Thrown? && outcome.failure.AssertionFailed?) <==> exists j :: 0 <= j < |nodes| && NodeOverlaps(setup, rec, nodes[j])
    ensures TestResult(setup, nodes, messages).0.Passed? || TestResult(setup, nodes, messages).0.failure.AssertionFailed?
  {
    var rec := FindWindowInsets(nodes[0]).value;
    RunMessageEmptyIff(setup, rec, nodes, messages, |nodes|);
    ConcatEmpty(Run(setup, rec, nodes, messages, |nodes|).pieces);
  }

  /** The emptiness check: with `complainAboutNoWindowInsets` and an anchor
      whose insets are empty, the test throws `IllegalStateException` before
      looking at any node. */
  lemma ComplainsAboutEmptyInsets(setup: TestSetup, nodes: seq<NodeRef>, messages: NodeRef -> string)
    requires nodes != [] && FindWindowInsets(nodes[0]).Some?
    requires setup.complainAboutNoWindowInsets && !IsNotEmpty(FindWindowInsets(nodes[0]).value)
    ensures TestResult(setup, nodes, messages) == (Thrown(IllegalState(NoWindowInsetsMessage)), [])
  {
  }

  /** No screenshot is asked for without a base name. */
  lemma {:induction false} NoScreenshotWithoutBaseName(setup: TestSetup, rec: WindowInsetsRecord, nodes: seq<NodeRef>,
                                                       messages: NodeRef -> string, k: nat)
    requires k <= |nodes| && setup.screenshotBaseName.None?
    ensures Run(setup, rec, nodes, messages, k).shots == []
  {
    if k > 0 {
      NoScreenshotWithoutBaseName(setup, rec, nodes, messages, k - 1);
    }
  }

  /** Hence the whole test asks for no screenshot without a base name. */
  lemma TestTakesNoScreenshot(setup: TestSetup, nodes: seq<NodeRef>, messages: NodeRef -> string)
    requires setup.screenshotBaseName.None?
    ensures TestResult(setup, nodes, messages).1 == []
  {
    if nodes != [] && FindWindowInsets(nodes[0]).Some? {
      NoScreenshotWithoutBaseName(setup, FindWindowInsets(nodes[0]).value, nodes, messages, |nodes|);
    }
  }
}
