/** The text dump of semantics nodes used in failure messages: a header line
    per node, its configuration, and either its children (indented as a tree)
    or, at the depth limit, a count of children and siblings. Everything is
    written into one `StringBuilder`, as in the library. */
module SemanticsNodeInfo {
  import opened Wrappers
  import opened Text
  import opened Sequences
  import opened Geometry
  import opened SemanticsTree

  /** `Int.MAX_VALUE`, the default depth of the single-node interaction dump. */
  const IntMaxValue: int := 0x7fff_ffff

  function BoolText(b: bool): string {
    if b then "true" else "false"
  }

  /** `rectToShortString`: the four coordinates as Kotlin floats. */
  function RectText(r: Rect): string {
    "(l=" + FloatText(r.left) + ", t=" + FloatText(r.top)
    + ", r=" + FloatText(r.right) + ", b=" + FloatText(r.bottom) + ")px"
  }

  /** A property value as `append(value)` renders it; a plain `AnnotatedString` prints its text. */
  function ValueText(v: PropertyValue): string {
    match v
    case ActionValue => ""
    case UnitValue => "kotlin.Unit"
    case PlainText(text) => text
    case Rendered(text) => text
  }

  /** The value of the first `TestTag` entry, if there is one. */
  function TagOf(config: seq<ConfigEntry>): (r: Option<string>)
    ensures r.Some? <==> exists k :: 0 <= k < |config| && config[k].key.TestTag?
  {
    if config == [] then None
    else if config[0].key.TestTag? then Some(ValueText(config[0].value))
    else TagOf(config[1..])
  }

  /** The tree connector written before a node below level 0. */
  function ConnectorPieces(level: nat, indent: string): seq<string> {
    if level > 0 then [indent + " |-"] else []
  }

  /** The test tag part of the header: written only when the node has a tag. */
  function TagPieces(tag: Option<string>): seq<string> {
    match tag
    case Some(t) => [", Tag: '", t, "'"]
    case None => []
  }

  /** The first line of a node, one piece per `append`: the tree connector below
      level 0, the id, the unclipped bounds and the test tag. */
  function HeaderPieces(id: int, bounds: Rect, tag: Option<string>, level: nat, indent: string): seq<string> {
    ConnectorPieces(level, indent) + ["Node #" + IntToString(id) + " at ", RectText(bounds)] + TagPieces(tag)
  }

  /** The indentation of the node's own lines and of its children's connectors. */
  function NewIndent(level: nat, indent: string, isFollowedBySibling: bool): string {
    if level == 0 then ""
    else if isFollowedBySibling then indent + " | "
    else indent + "   "
  }

  /** Level 0 has no indent; below it the indent grows by three characters, the
      middle one a bar exactly when a sibling follows. */
  lemma NewIndentShape(level: nat, indent: string, isFollowedBySibling: bool)
    ensures level == 0 ==> NewIndent(level, indent, isFollowedBySibling) == ""
    ensures level > 0 ==>
      var r := NewIndent(level, indent, isFollowedBySibling);
      |r| == |indent| + 3 && r[..|indent|] == indent
      && r[|indent| + 1] == (if isFollowedBySibling then '|' else ' ')
  {
    if level > 0 {
      var r := NewIndent(level, indent, isFollowedBySibling);
      assert r[..|indent|] == indent;
    }
  }

  // ---- appendConfigInfo ----

  predicate IsAction(e: ConfigEntry) { e.value.ActionValue? }
  predicate IsUnit(e: ConfigEntry) { e.value.UnitValue? }

  /** Entries printed as a `key = 'value'` line: not the test tag, not an action, not a flag. */
  predicate Listed(e: ConfigEntry) {
    !e.key.TestTag? && !IsAction(e) && !IsUnit(e)
  }
  predicate ListedAction(e: ConfigEntry) { !e.key.TestTag? && IsAction(e) }
  predicate ListedUnit(e: ConfigEntry) { !e.key.TestTag? && !IsAction(e) && IsUnit(e) }

  /** The line of one property: a line break, the indent, `key = 'value'`. */
  function PropertyPieces(e: ConfigEntry, indent: string): seq<string> {
    ["\n", indent, e.key.Name(), " = '", ValueText(e.value), "'"]
  }

  /** The state of the scan over the configuration: the pieces written so far and
      the collected flag and action names. */
  datatype ConfigScan = ConfigScan(lines: seq<string>, units: seq<string>, actions: seq<string>)

  /** One pass of the loop of `appendConfigInfo`: the test tag is skipped, an
      action or a flag is remembered by name, anything else is written out. */
  function ScanEntry(s: ConfigScan, e: ConfigEntry, indent: string): ConfigScan {
    if e.key.TestTag? then s
    else if IsAction(e) then s.(actions := s.actions + [e.key.Name()])
    else if IsUnit(e) then s.(units := s.units + [e.key.Name()])
    else s.(lines := s.lines + PropertyPieces(e, indent))
  }

  /** The loop of `appendConfigInfo` over the entries, in iteration order. */
  function Scan(config: seq<ConfigEntry>, indent: string): ConfigScan
  {
    if config == [] then ConfigScan([], [], [])
    else ScanEntry(Scan(config[..|config| - 1], indent), config[|config| - 1], indent)
  }

  /** The scan of one more entry. */
  lemma ScanStep(config: seq<ConfigEntry>, i: nat, indent: string)
    requires i < |config|
    ensures Scan(config[..i + 1], indent) == ScanEntry(Scan(config[..i], indent), config[i], indent)
  {
    assert config[..i + 1][..i] == config[..i];
  }

  /** A bracketed list line, written only when the list is not empty. */
  function ListPieces(indent: string, opener: string, keys: seq<string>): seq<string> {
    if keys == [] then [] else ["\n", indent, opener, Join(", ", keys), "]"]
  }

  const MergeMarker := "MergeDescendants = 'true'"
  const ClearMarker := "ClearAndSetSemantics = 'true'"

  /** A marker line, written only when its flag is set. */
  function MarkerPieces(isSet: bool, indent: string, marker: string): seq<string> {
    if isSet then ["\n", indent, marker] else []
  }

  /** Everything `appendConfigInfo` appends. */
  function ConfigPieces(config: seq<ConfigEntry>, merges: bool, clears: bool, indent: string): seq<string> {
    var s := Scan(config, indent);
    s.lines + ListPieces(indent, "[", s.units) + ListPieces(indent, "Actions = [", s.actions)
    + MarkerPieces(merges, indent, MergeMarker)
    + MarkerPieces(clears, indent, ClearMarker)
  }

  /** The property lines of a list of entries, in order. */
  function Lines(es: seq<ConfigEntry>, indent: string): (r: seq<string>)
    ensures |r| == 6 * |es|
  {
    if es == [] then [] else PropertyPieces(es[0], indent) + Lines(es[1..], indent)
  }

  function Keys(es: seq<ConfigEntry>): (r: seq<string>)
    ensures |r| == |es|
  {
    if es == [] then [] else [es[0].key.Name()] + Keys(es[1..])
  }

  lemma {:induction false} LinesSnoc(es: seq<ConfigEntry>, e: ConfigEntry, indent: string)
    ensures Lines(es + [e], indent) == Lines(es, indent) + PropertyPieces(e, indent)
  {
    if es != [] {
      assert (es + [e])[1..] == es[1..] + [e];
      LinesSnoc(es[1..], e, indent);
    }
  }

  lemma {:induction false} KeysSnoc(es: seq<ConfigEntry>, e: ConfigEntry)
    ensures Keys(es + [e]) == Keys(es) + [e.key.Name()]
  {
    if es != [] {
      assert (es + [e])[1..] == es[1..] + [e];
      KeysSnoc(es[1..], e);
    }
  }

  /** The test tag is never listed; each other entry lands in exactly one place:
      a property line, the flag list or the action list, each in entry order. */
  lemma {:induction false} ScanSortsEntries(config: seq<ConfigEntry>, indent: string)
    ensures Scan(config, indent)
      == ConfigScan(Lines(Filter(config, Listed), indent),
                    Keys(Filter(config, ListedUnit)),
                    Keys(Filter(config, ListedAction)))
  {
    if config != [] {
      var init, e := config[..|config| - 1], config[|config| - 1];
      assert config == init + [e];
      ScanSortsEntries(init, indent);
      FilterAppend(init, [e], Listed);
      FilterAppend(init, [e], ListedUnit);
      FilterAppend(init, [e], ListedAction);
      assert Filter([e], Listed) == (if Listed(e) then [e] else []) + Filter([], Listed);
      assert Filter([e], ListedUnit) == (if ListedUnit(e) then [e] else []) + Filter([], ListedUnit);
      assert Filter([e], ListedAction) == (if ListedAction(e) then [e] else []) + Filter([], ListedAction);
      assert config[..|config| - 1] == init;
      if Listed(e) {
        assert Filter(config, Listed) == Filter(init, Listed) + [e];
        assert Filter(config, ListedUnit) == Filter(init, ListedUnit);
        assert Filter(config, ListedAction) == Filter(init, ListedAction);
        LinesSnoc(Filter(init, Listed), e, indent);
      } else if ListedUnit(e) {
        assert Filter(config, Listed) == Filter(init, Listed);
        assert Filter(config, ListedUnit) == Filter(init, ListedUnit) + [e];
        assert Filter(config, ListedAction) == Filter(init, ListedAction);
        KeysSnoc(Filter(init, ListedUnit), e);
      } else if ListedAction(e) {
        assert Filter(config, Listed) == Filter(init, Listed);
        assert Filter(config, ListedUnit) == Filter(init, ListedUnit);
        assert Filter(config, ListedAction) == Filter(init, ListedAction) + [e];
        KeysSnoc(Filter(init, ListedAction), e);
      } else {
        assert e.key.TestTag?;
        assert Filter(config, Listed) == Filter(init, Listed);
        assert Filter(config, ListedUnit) == Filter(init, ListedUnit);
        assert Filter(config, ListedAction) == Filter(init, ListedAction);
      }
    }
  }

  /** `appendConfigInfo`: a line per listed property, then the flag names, the
      action names, and the merge and clear markers. */
  method AppendConfigInfo(sb: StringBuilder, config: seq<ConfigEntry>, merges: bool, clears: bool, indent: string)
    modifies sb
    ensures sb.pieces == old(sb.pieces) + ConfigPieces(config, merges, clears, indent)
  {
    var actions: seq<string> := [];
    var units: seq<string> := [];
    var i := 0;
    while i < |config|
      invariant 0 <= i <= |config|
      invariant sb.pieces == old(sb.pieces) + Scan(config[..i], indent).lines
      invariant units == Scan(config[..i], indent).units
      invariant actions == Scan(config[..i], indent).actions
    {
      var e := config[i];
      ScanStep(config, i, indent);
      if e.key.TestTag? {
      } else if e.value.ActionValue? {
        actions := actions + [e.key.Name()];
      } else if e.value.UnitValue? {
        units := units + [e.key.Name()];
      } else {
        AppendProperty(sb, e, indent);
        AppendAssoc3(old(sb.pieces), Scan(config[..i], indent).lines, PropertyPieces(e, indent));
      }
      i := i + 1;
    }
    assert config[..i] == config;
    var lines := Scan(config, indent).lines;
    AppendListLine(sb, indent, "[", units);
    AppendListLine(sb, indent, "Actions = [", actions);
    AppendMarker(sb, merges, indent, MergeMarker);
    AppendMarker(sb, clears, indent, ClearMarker);
    AppendAssoc5(old(sb.pieces), lines, ListPieces(indent, "[", units), ListPieces(indent, "Actions = [", actions),
                 MarkerPieces(merges, indent, MergeMarker),
                 MarkerPieces(clears, indent, ClearMarker));
  }

  /** The line of one listed property: its name, then its value in quotes. */
  method AppendProperty(sb: StringBuilder, e: ConfigEntry, indent: string)
    modifies sb
    ensures sb.pieces == old(sb.pieces) + PropertyPieces(e, indent)
  {
    sb.NewLine();
    sb.Append(indent);
    sb.Append(e.key.Name());
    sb.Append(" = '");
    sb.Append(ValueText(e.value));
    sb.Append("'");
  }

  /** A marker line, written only when its flag is set. */
  method AppendMarker(sb: StringBuilder, isSet: bool, indent: string, marker: string)
    modifies sb
    ensures sb.pieces == old(sb.pieces) + MarkerPieces(isSet, indent, marker)
  {
    if isSet {
      sb.NewLine();
      sb.Append(indent);
      sb.Append(marker);
    }
  }

  /** A bracketed list line, written only when the list is not empty. */
  method AppendListLine(sb: StringBuilder, indent: string, opener: string, keys: seq<string>)
    modifies sb
    ensures sb.pieces == old(sb.pieces) + ListPieces(indent, opener, keys)
  {
    if |keys| > 0 {
      sb.NewLine();
      sb.Append(indent);
      sb.Append(opener);
      sb.Append(Join(", ", keys));
      sb.Append("]");
    }
  }

  // ---- printToStringInner ----

  /** "N child" or "N children"; nothing without children. */
  function ChildCountPieces(childrenCount: int): seq<string> {
    if childrenCount > 1 then [IntToString(childrenCount) + " children"]
    else if childrenCount == 1 then [IntToString(childrenCount) + " child"]
    else []
  }

  /** ", " when children were counted, then "M sibling" or "M siblings"; only at level 0. */
  function SiblingCountPieces(childrenCount: int, siblingsCount: int, level: nat): seq<string> {
    if siblingsCount > 0 && level == 0 then
      (if childrenCount > 0 then [", "] else [])
      + [if siblingsCount > 1 then IntToString(siblingsCount) + " siblings"
         else IntToString(siblingsCount) + " sibling"]
    else []
  }

  /** The line written instead of the children at the depth limit. */
  function SummaryPieces(childrenCount: int, siblingsCount: int, level: nat, indent: string): seq<string> {
    if childrenCount > 0 || (siblingsCount > 0 && level == 0) then
      ["\n", indent, "Has "] + ChildCountPieces(childrenCount) + SiblingCountPieces(childrenCount, siblingsCount, level)
    else []
  }

  /** The dump of `n` at `level`, one piece per `append`: header, configuration,
      then the children or the count line. */
  function NodePieces(n: Node, maxDepth: int, level: nat, indent: string, isFollowedBySibling: bool,
                      siblingsCount: int): seq<string>
    decreases n, 3
  {
    var newIndent := NewIndent(level, indent, isFollowedBySibling);
    HeaderPieces(n.id, n.unclippedBounds, TagOf(n.config), level, indent) + ConfigPieces(n.config, n.mergesDescendants, n.clearsSemantics, newIndent)
    + BelowPieces(n, maxDepth, level, newIndent, siblingsCount)
  }

  /** What follows the configuration: the count line at the depth limit, otherwise
      each child's dump on a line of its own. */
  function BelowPieces(n: Node, maxDepth: int, level: nat, newIndent: string, siblingsCount: int): seq<string>
    decreases n, 2
  {
    if level == maxDepth then SummaryPieces(|n.children|, siblingsCount, level, newIndent)
    else Flatten(ChildRuns(n, maxDepth, level + 1, newIndent))
  }

  /** The pieces of each child of `n`, in the children's order. */
  function ChildRuns(n: Node, maxDepth: int, childLevel: nat, indent: string): (r: seq<seq<string>>)
    ensures |r| == |n.children|
    decreases n, 1
  {
    seq(|n.children|, i requires 0 <= i < |n.children| => ChildPieces(n, maxDepth, childLevel, indent, i))
  }

  /** Child `i` of `n`: a line break, then its dump; all but the last child are
      marked as followed by a sibling, and each is told the number of its siblings. */
  function ChildPieces(n: Node, maxDepth: int, childLevel: nat, indent: string, i: nat): seq<string>
    requires i < |n.children|
    decreases n, 0
  {
    ["\n"] + NodePieces(n.children[i], maxDepth, childLevel, indent, i < |n.children| - 1, |n.children| - 1)
  }

  /** The dump of `n` as text. */
  function NodeText(n: Node, maxDepth: int, level: nat, indent: string, isFollowedBySibling: bool,
                    siblingsCount: int): string {
    Concat(NodePieces(n, maxDepth, level, indent, isFollowedBySibling, siblingsCount))
  }

  /** The count line, written piece by piece. */
  method AppendChildSummary(sb: StringBuilder, childrenCount: int, siblingsCount: int, level: nat, indent: string)
    modifies sb
    ensures sb.pieces == old(sb.pieces) + SummaryPieces(childrenCount, siblingsCount, level, indent)
  {
    if childrenCount > 0 || (siblingsCount > 0 && level == 0) {
      sb.NewLine();
      sb.Append(indent);
      sb.Append("Has ");
      AppendThree(old(sb.pieces), "\n", indent, "Has ");
      AppendChildCount(sb, childrenCount);
      AppendSiblingCount(sb, childrenCount, siblingsCount, level);
      AppendAssoc(old(sb.pieces), ["\n", indent, "Has "], ChildCountPieces(childrenCount),
                  SiblingCountPieces(childrenCount, siblingsCount, level));
    }
  }

  /** "N child" or "N children". */
  method AppendChildCount(sb: StringBuilder, childrenCount: int)
    modifies sb
    ensures sb.pieces == old(sb.pieces) + ChildCountPieces(childrenCount)
  {
    if childrenCount > 1 {
      sb.Append(IntToString(childrenCount) + " children");
    } else if childrenCount == 1 {
      sb.Append(IntToString(childrenCount) + " child");
    }
  }

  /** The sibling count, at the top level only. */
  method AppendSiblingCount(sb: StringBuilder, childrenCount: int, siblingsCount: int, level: nat)
    modifies sb
    ensures sb.pieces == old(sb.pieces) + SiblingCountPieces(childrenCount, siblingsCount, level)
  {
    if siblingsCount > 0 && level == 0 {
      if childrenCount > 0 {
        sb.Append(", ");
      }
      if siblingsCount > 1 {
        sb.Append(IntToString(siblingsCount) + " siblings");
      } else {
        sb.Append(IntToString(siblingsCount) + " sibling");
      }
    }
  }

  method AppendConnector(sb: StringBuilder, nestingLevel: nat, nestingIndent: string)
    modifies sb
    ensures sb.pieces == old(sb.pieces) + ConnectorPieces(nestingLevel, nestingIndent)
  {
    if nestingLevel > 0 {
      sb.Append(nestingIndent + " |-");
    }
  }

  method AppendTag(sb: StringBuilder, tag: Option<string>)
    modifies sb
    ensures sb.pieces == old(sb.pieces) + TagPieces(tag)
  {
    if tag.Some? {
      sb.Append(", Tag: '");
      sb.Append(tag.value);
      sb.Append("'");
    }
  }

  /** The header line, written piece by piece. */
  method AppendHeader(sb: StringBuilder, id: int, bounds: Rect, tag: Option<string>, nestingLevel: nat,
                      nestingIndent: string)
    modifies sb
    ensures sb.pieces == old(sb.pieces) + HeaderPieces(id, bounds, tag, nestingLevel, nestingIndent)
  {
    AppendConnector(sb, nestingLevel, nestingIndent);
    sb.Append("Node #" + IntToString(id) + " at ");
    sb.Append(RectText(bounds));
    AppendTag(sb, tag);
  }

  /** `printToStringInner`: writes the dump of `n` into the shared builder. */
  method PrintToStringInner(n: Node, sb: StringBuilder, maxDepth: int, nestingLevel: nat, nestingIndent: string,
                            isFollowedBySibling: bool, siblingsCount: int)
    modifies sb
    ensures sb.pieces == old(sb.pieces)
      + NodePieces(n, maxDepth, nestingLevel, nestingIndent, isFollowedBySibling, siblingsCount)
    decreases n, 3
  {
    var newIndent := NewIndent(nestingLevel, nestingIndent, isFollowedBySibling);
    AppendHeader(sb, n.id, n.unclippedBounds, TagOf(n.config), nestingLevel, nestingIndent);
    AppendConfigInfo(sb, n.config, n.mergesDescendants, n.clearsSemantics, newIndent);
    if nestingLevel == maxDepth {
      AppendChildSummary(sb, |n.children|, siblingsCount, nestingLevel, newIndent);
    } else {
      AppendChildren(n, sb, maxDepth, nestingLevel + 1, newIndent);
    }
    AppendAssoc(old(sb.pieces), HeaderPieces(n.id, n.unclippedBounds, TagOf(n.config), nestingLevel, nestingIndent),
                ConfigPieces(n.config, n.mergesDescendants, n.clearsSemantics, newIndent),
                BelowPieces(n, maxDepth, nestingLevel, newIndent, siblingsCount));
  }

  /** The loop over the children in `printToStringInner`. */
  method AppendChildren(n: Node, sb: StringBuilder, maxDepth: int, childLevel: nat, indent: string)
    modifies sb
    ensures sb.pieces == old(sb.pieces) + Flatten(ChildRuns(n, maxDepth, childLevel, indent))
    decreases n, 1
  {
    ghost var runs := ChildRuns(n, maxDepth, childLevel, indent);
    var index := 0;
    while index < |n.children|
      invariant 0 <= index <= |n.children|
      invariant sb.pieces == old(sb.pieces) + Flatten(runs[..index])
    {
      AppendChild(n, sb, maxDepth, childLevel, indent, index);
      FlattenStep(runs, index);
      AppendAssoc3(old(sb.pieces), Flatten(runs[..index]), runs[index]);
      index := index + 1;
    }
    assert runs[..index] == runs;
  }

  /** One pass of the loop: a line break, then the child's dump. */
  method AppendChild(n: Node, sb: StringBuilder, maxDepth: int, childLevel: nat, indent: string, index: nat)
    requires index < |n.children|
    modifies sb
    ensures sb.pieces == old(sb.pieces) + ChildPieces(n, maxDepth, childLevel, indent, index)
    decreases n, 0
  {
    var hasSibling := index < |n.children| - 1;
    sb.NewLine();
    PrintToStringInner(n.children[index], sb, maxDepth, childLevel, indent, hasSibling, |n.children| - 1);
    AppendAssoc3(old(sb.pieces), ["\n"], NodePieces(n.children[index], maxDepth, childLevel, indent, hasSibling, |n.children| - 1));
  }

  /** The number of siblings the framework reports: the parent's child count minus one. */
  function SiblingsCount(r: NodeRef): int {
    match r.Parent()
    case None => 0
    case Some(p) => |p.node.children| - 1
  }

  /** `SemanticsNode.printToString(maxDepth)`, as text. */
  function NodeDump(r: NodeRef, maxDepth: int): string {
    NodeText(r.node, maxDepth, 0, "", false, SiblingsCount(r))
  }

  /** `SemanticsNode.printToString(maxDepth = 0)`: a fresh builder, level 0, no indent. */
  method PrintToString(r: NodeRef, maxDepth: int := 0) returns (s: string)
    ensures s == NodeDump(r, maxDepth)
  {
    var sb := new StringBuilder();
    PrintToStringInner(r.node, sb, maxDepth, 0, "", false, SiblingsCount(r));
    assert sb.pieces == NodePieces(r.node, maxDepth, 0, "", false, SiblingsCount(r));
    s := sb.ToString();
  }

  // ---- properties of the node dump ----

  /** A node's dump starts with its header: the id at level 0, the tree
      connector below it. */
  lemma NodeTextStart(n: Node, maxDepth: int, level: nat, indent: string, isFollowedBySibling: bool,
                      siblingsCount: int)
    ensures level == 0 ==> "Node #" + IntToString(n.id) + " at " <= NodeText(n, maxDepth, level, indent, isFollowedBySibling, siblingsCount)
    ensures level > 0 ==> indent + " |-" <= NodeText(n, maxDepth, level, indent, isFollowedBySibling, siblingsCount)
  {
    NodePiecesFirst(n, maxDepth, level, indent, isFollowedBySibling, siblingsCount);
    ConcatFirst(NodePieces(n, maxDepth, level, indent, isFollowedBySibling, siblingsCount));
  }

  /** The first piece of a node's dump. */
  lemma NodePiecesFirst(n: Node, maxDepth: int, level: nat, indent: string, isFollowedBySibling: bool,
                        siblingsCount: int)
    ensures var p := NodePieces(n, maxDepth, level, indent, isFollowedBySibling, siblingsCount);
      |p| > 0 && p[0] == if level > 0 then indent + " |-" else "Node #" + IntToString(n.id) + " at "
  {
  }

  /** Below the depth limit every child is written, in order: the children before
      child `i`, then child `i` after its line break, then the children after it. */
  lemma ChildrenInOrder(n: Node, maxDepth: int, childLevel: nat, indent: string, i: nat)
    requires i < |n.children|
    ensures Flatten(ChildRuns(n, maxDepth, childLevel, indent))
         == Flatten(ChildRuns(n, maxDepth, childLevel, indent)[..i]) + ChildPieces(n, maxDepth, childLevel, indent, i)
            + Flatten(ChildRuns(n, maxDepth, childLevel, indent)[i + 1..])
  {
    FlattenAround(ChildRuns(n, maxDepth, childLevel, indent), i);
  }

  /** With the default depth 0 a node is written without its children: its
      header, its configuration, then the count line. */
  lemma DefaultDepthPrintsNodeOnly(n: Node, siblingsCount: int)
    ensures NodePieces(n, 0, 0, "", false, siblingsCount)
         == HeaderPieces(n.id, n.unclippedBounds, TagOf(n.config), 0, "")
            + ConfigPieces(n.config, n.mergesDescendants, n.clearsSemantics, "")
            + SummaryPieces(|n.children|, siblingsCount, 0, "")
  {
  }

  /** The count line is written exactly when there are children, or siblings at
      the top level; it says "child" for one and "children" for more, the sibling
      count only at level 0, singular for one, and ", " only between the two counts. */
  lemma SummaryWording(childrenCount: int, siblingsCount: int, level: nat, indent: string)
    ensures var p := SummaryPieces(childrenCount, siblingsCount, level, indent);
      (p != [] <==> childrenCount > 0 || (siblingsCount > 0 && level == 0))
      && (p != [] ==>
        p[..3] == ["\n", indent, "Has "]
        && |p| == 3 + (if childrenCount > 0 then 1 else 0)
                    + (if siblingsCount > 0 && level == 0 then (if childrenCount > 0 then 2 else 1) else 0)
        && (childrenCount > 1 ==> p[3] == IntToString(childrenCount) + " children")
        && (childrenCount == 1 ==> p[3] == IntToString(childrenCount) + " child")
        && (childrenCount > 0 && siblingsCount > 0 && level == 0 ==> p[4] == ", ")
        && (siblingsCount > 0 && level == 0 ==>
              p[|p| - 1] == IntToString(siblingsCount) + (if siblingsCount > 1 then " siblings" else " sibling")))
  {
  }

  /** An example: two children and one sibling at the top level. */
  lemma SummaryExample()
    ensures SummaryPieces(2, 1, 0, "  ") == ["\n", "  ", "Has ", "2 children", ", ", "1 sibling"]
  {
    assert DigitChar(2) == '2' && DigitChar(1) == '1';
    assert IntToString(2) == "2" && IntToString(1) == "1";
    assert IntToString(2) + " children" == "2 children";
    assert IntToString(1) + " sibling" == "1 sibling";
  }

  /** The configuration part of a dump, described entry by entry: the property
      lines of the listed entries, the flag list, the action list, then the markers. */
  lemma ConfigPiecesByFilter(config: seq<ConfigEntry>, merges: bool, clears: bool, indent: string)
    ensures ConfigPieces(config, merges, clears, indent)
         == Lines(Filter(config, Listed), indent)
            + ListPieces(indent, "[", Keys(Filter(config, ListedUnit)))
            + ListPieces(indent, "Actions = [", Keys(Filter(config, ListedAction)))
            + MarkerPieces(merges, indent, MergeMarker)
            + MarkerPieces(clears, indent, ClearMarker)
  {
    ScanSortsEntries(config, indent);
  }

  /** The property lines end with the closing quote of the last value. */
  lemma {:induction false} ScanLinesEnd(config: seq<ConfigEntry>, indent: string)
    ensures var l := Scan(config, indent).lines; l == [] || l[|l| - 1] == "'"
  {
    if config != [] {
      ScanLinesEnd(config[..|config| - 1], indent);
    }
  }

  /** The clear marker ends the configuration part exactly when the node clears
      semantics, and the merge marker comes right before it exactly when the node
      merges its descendants. */
  lemma MarkersIffFlags(config: seq<ConfigEntry>, merges: bool, clears: bool, indent: string)
    ensures var p := ConfigPieces(config, merges, clears, indent);
      clears <==> |p| > 0 && p[|p| - 1] == ClearMarker
    ensures var p := ConfigPieces(config, merges, clears, indent);
      var body := p[..|p| - |MarkerPieces(clears, indent, ClearMarker)|];
      merges <==> |body| > 0 && body[|body| - 1] == MergeMarker
  {
    var sc := Scan(config, indent);
    ScanLinesEnd(config, indent);
    var lists := sc.lines + ListPieces(indent, "[", sc.units) + ListPieces(indent, "Actions = [", sc.actions);
    assert lists == [] || lists[|lists| - 1] in {"'", "]"};
    var body := lists + MarkerPieces(merges, indent, MergeMarker);
    assert body == [] || body[|body| - 1] in {"'", "]", MergeMarker};
    var p := body + MarkerPieces(clears, indent, ClearMarker);
    assert p == ConfigPieces(config, merges, clears, indent);
    assert p[..|p| - |MarkerPieces(clears, indent, ClearMarker)|] == body;
  }

  // ---- Collection<SemanticsNode>.printToString ----

  /** The label before entry `i` (counted from 1): written only when there is
      more than one node. */
  function Label(i: nat, size: nat): string {
    if size > 1 then IntToString(i) + ") " else ""
  }

  /** Entry `i` of `size`, one piece per `append`: the number and ") " when there is
      more than one node, the node's dump, and a line break unless it is the last. */
  function EntryPieces(dump: string, i: nat, size: nat): seq<string> {
    (if size > 1 then [IntToString(i), ") "] else []) + [dump] + (if i < size then ["\n"] else [])
  }

  /** The first `k` entries. */
  function CollectionPieces(dumps: seq<string>, k: nat): seq<string>
    requires k <= |dumps|
  {
    if k == 0 then [] else CollectionPieces(dumps, k - 1) + EntryPieces(dumps[k - 1], k, |dumps|)
  }

  /** The dumps of the nodes, in collection order. */
  function Dumps(nodes: seq<NodeRef>, maxDepth: int): (r: seq<string>)
    ensures |r| == |nodes|
  {
    seq(|nodes|, i requires 0 <= i < |nodes| => NodeDump(nodes[i], maxDepth))
  }

  function CollectionText(nodes: seq<NodeRef>, maxDepth: int): string {
    var dumps := Dumps(nodes, maxDepth);
    Concat(CollectionPieces(dumps, |dumps|))
  }

  /** `Collection<SemanticsNode>.printToString(maxDepth = 0)`: the counter `i` runs
      from 1 alongside the nodes. */
  method PrintCollection(nodes: seq<NodeRef>, maxDepth: int := 0) returns (s: string)
    ensures s == CollectionText(nodes, maxDepth)
  {
    var sb := new StringBuilder();
    ghost var dumps := Dumps(nodes, maxDepth);
    var i := 1;
    var k := 0;
    while k < |nodes|
      invariant 0 <= k <= |nodes| && i == k + 1
      invariant sb.pieces == CollectionPieces(dumps, k)
    {
      var d := PrintToString(nodes[k], maxDepth);
      AppendEntry(sb, d, i, |nodes|);
      CollectionPiecesStep(dumps, k);
      i := i + 1;
      k := k + 1;
    }
    s := sb.ToString();
  }

  /** One pass of the loop: the label, the dump, the line break. */
  method AppendEntry(sb: StringBuilder, dump: string, i: nat, size: nat)
    modifies sb
    ensures sb.pieces == old(sb.pieces) + EntryPieces(dump, i, size)
  {
    if size > 1 {
      sb.Append(IntToString(i));
      sb.Append(") ");
    }
    sb.Append(dump);
    if i < size {
      sb.NewLine();
    }
  }

  lemma CollectionPiecesStep(dumps: seq<string>, k: nat)
    requires k < |dumps|
    ensures CollectionPieces(dumps, k + 1) == CollectionPieces(dumps, k) + EntryPieces(dumps[k], k + 1, |dumps|)
  {
  }

  /** The text of one entry. */
  lemma EntryText(dump: string, i: nat, size: nat)
    ensures Concat(EntryPieces(dump, i, size)) == Label(i, size) + dump + (if i < size then "\n" else "")
  {
    var numbering := if size > 1 then [IntToString(i), ") "] else [];
    var nl := if i < size then ["\n"] else [];
    ConcatAppend(numbering + [dump], nl);
    ConcatAppend(numbering, [dump]);
    ConcatSingle(dump);
    if size > 1 {
      ConcatPair(IntToString(i), ") ");
    }
    if i < size {
      ConcatSingle("\n");
    }
  }

  /** The numbered entries: "i) " before each dump when there is more than one. */
  function Numbered(dumps: seq<string>): (r: seq<string>)
    ensures |r| == |dumps|
  {
    seq(|dumps|, i requires 0 <= i < |dumps| => Label(i + 1, |dumps|) + dumps[i])
  }

  /** After `k` entries the text is the first `k` numbered dumps joined by line
      breaks, plus a line break when more entries follow. */
  lemma {:induction false} CollectionPrefixText(dumps: seq<string>, k: nat)
    requires 1 <= k <= |dumps|
    ensures Concat(CollectionPieces(dumps, k))
         == Join("\n", Numbered(dumps)[..k]) + (if k < |dumps| then "\n" else "")
  {
    var size := |dumps|;
    var nb := Numbered(dumps);
    EntryText(dumps[k - 1], k, size);
    ConcatAppend(CollectionPieces(dumps, k - 1), EntryPieces(dumps[k - 1], k, size));
    var tail := if k < size then "\n" else "";
    if k == 1 {
      assert CollectionPieces(dumps, 0) == [];
      assert nb[..1] == [nb[0]];
      assert Concat(CollectionPieces(dumps, 0)) == "";
      assert "" + (Label(1, size) + dumps[0] + tail) == nb[0] + tail;
    } else {
      CollectionPrefixText(dumps, k - 1);
      assert nb[..k] == nb[..k - 1] + [nb[k - 1]];
      JoinSnoc("\n", nb[..k - 1], nb[k - 1]);
      var j := Join("\n", nb[..k - 1]);
      assert Concat(CollectionPieces(dumps, k - 1)) == j + "\n";
      assert Label(k, size) + dumps[k - 1] == nb[k - 1];
      StringAssoc(j + "\n", nb[k - 1], tail);
    }
  }

  /** The collection dump is the numbered dumps joined by line breaks: entries in
      order, a line break between neighbours and none after the last. */
  lemma CollectionTextJoin(nodes: seq<NodeRef>, maxDepth: int)
    requires |nodes| > 0
    ensures CollectionText(nodes, maxDepth) == Join("\n", Numbered(Dumps(nodes, maxDepth)))
  {
    var dumps := Dumps(nodes, maxDepth);
    CollectionPrefixText(dumps, |dumps|);
    assert Numbered(dumps)[..|dumps|] == Numbered(dumps);
  }

  /** A single node is printed without a number: the collection dump is the node's dump. */
  lemma SingleNodeCollection(nodes: seq<NodeRef>, maxDepth: int)
    requires |nodes| == 1
    ensures CollectionText(nodes, maxDepth) == NodeDump(nodes[0], maxDepth)
  {
    var dumps := Dumps(nodes, maxDepth);
    SingleEntry(dumps);
  }

  lemma SingleEntry(dumps: seq<string>)
    requires |dumps| == 1
    ensures Concat(CollectionPieces(dumps, 1)) == dumps[0]
  {
    CollectionPrefixText(dumps, 1);
    var nb := Numbered(dumps);
    assert Label(1, 1) == "";
    assert nb[0] == "" + dumps[0];
    assert nb[..1] == [nb[0]];
  }

  // ---- SemanticsNodeInteraction(Collection).printToString ----

  /** The first line of an interaction dump: which tree was searched. */
  function UnmergedHeader(useUnmergedTree: bool): string {
    "Printing with useUnmergedTree = '" + BoolText(useUnmergedTree) + "'\n"
  }

  /** The header is one line: a single line break, at its end. */
  lemma UnmergedHeaderLine(useUnmergedTree: bool)
    ensures var h := UnmergedHeader(useUnmergedTree);
      |h| > 0 && h[|h| - 1] == '\n' && NoNewline(h[..|h| - 1])
  {
    var h := UnmergedHeader(useUnmergedTree);
    assert h[..|h| - 1] == "Printing with useUnmergedTree = '" + BoolText(useUnmergedTree) + "'";
  }

  /** `SemanticsNodeInteraction.printToString(maxDepth = Int.MAX_VALUE)`: the
      header, then the dump of the fetched node. */
  method PrintInteraction(useUnmergedTree: bool, r: NodeRef, maxDepth: int := IntMaxValue) returns (s: string)
    ensures s == UnmergedHeader(useUnmergedTree) + NodeDump(r, maxDepth)
  {
    var d := PrintToString(r, maxDepth);
    s := UnmergedHeader(useUnmergedTree) + d;
  }

  /** `SemanticsNodeInteractionCollection.printToString(maxDepth = 0)`: the header,
      then a fixed sentence when nothing was found, otherwise the collection dump. */
  method PrintInteractionCollection(useUnmergedTree: bool, nodes: seq<NodeRef>, maxDepth: int := 0)
    returns (s: string)
    ensures nodes == [] ==> s == UnmergedHeader(useUnmergedTree) + "There were 0 nodes found!"
    ensures nodes != [] ==> s == UnmergedHeader(useUnmergedTree) + Join("\n", Numbered(Dumps(nodes, maxDepth)))
  {
    if |nodes| == 0 {
      s := UnmergedHeader(useUnmergedTree) + "There were 0 nodes found!";
    } else {
      var d := PrintCollection(nodes, maxDepth);
      CollectionTextJoin(nodes, maxDepth);
      s := UnmergedHeader(useUnmergedTree) + d;
    }
  }

  // ---- buildGeneralErrorMessage ----

  /** The failure message: the error, a caption, the node's dump with default depth,
      and the selector's description, each line ending in a line break. */
  function GeneralErrorMessage(errorMessage: string, selectorDescription: string, r: NodeRef): string {
    Unlines([errorMessage, "Semantics of the node:", NodeDump(r, 0), "Selector used: (" + selectorDescription + ")"])
  }

  /** What `buildGeneralErrorMessage` appends, one piece per call. */
  function ErrorPieces(errorMessage: string, dump: string, selectorDescription: string): seq<string> {
    [errorMessage, "\n"] + ["Semantics of the node:", "\n"] + [dump, "\n"]
    + ["Selector used: ("] + [selectorDescription] + [")", "\n"]
  }

  /** The appended pieces make up the four lines of the message. */
  lemma ErrorText(errorMessage: string, dump: string, selectorDescription: string)
    ensures Concat(ErrorPieces(errorMessage, dump, selectorDescription))
         == Unlines([errorMessage, "Semantics of the node:", dump, "Selector used: (" + selectorDescription + ")"])
  {
    var a, b, c := [errorMessage, "\n"], ["Semantics of the node:", "\n"], [dump, "\n"];
    var d := ["Selector used: (", selectorDescription, ")", "\n"];
    assert ErrorPieces(errorMessage, dump, selectorDescription) == a + b + c + d;
    ConcatAppend(a + b + c, d);
    ConcatAppend(a + b, c);
    ConcatAppend(a, b);
    ConcatPair(errorMessage, "\n");
    ConcatPair("Semantics of the node:", "\n");
    ConcatPair(dump, "\n");
    ConcatAppend(["Selector used: (", selectorDescription], [")", "\n"]);
    assert ["Selector used: (", selectorDescription] + [")", "\n"] == d;
    ConcatPair("Selector used: (", selectorDescription);
    ConcatPair(")", "\n");
    UnlinesFour(errorMessage, "Semantics of the node:", dump, "Selector used: (" + selectorDescription + ")");
  }

  /** `buildGeneralErrorMessage(errorMessage, selector, node)`. */
  method BuildGeneralErrorMessage(errorMessage: string, selectorDescription: string, r: NodeRef) returns (s: string)
    ensures s == GeneralErrorMessage(errorMessage, selectorDescription, r)
  {
    var sb := new StringBuilder();
    EmptyAppend([errorMessage, "\n"]);
    sb.AppendLine(errorMessage);
    sb.AppendLine("Semantics of the node:");
    var dump := PrintToString(r);
    sb.AppendLine(dump);
    sb.Append("Selector used: (");
    sb.Append(selectorDescription);
    sb.AppendLine(")");
    s := sb.ToString();
    ErrorText(errorMessage, dump, selectorDescription);
  }
}
