/** The semantics tree the checks walk. A node carries the semantics
    properties the checks read (window-insets anchor, scroll ranges, traversal
    group flag, merge and clear flags, bounds) and, for the text dump, its whole
    configuration as an ordered list of keyed values. A node inside a tree is
    referred to with the chain of its ancestors from the root, which stands in
    for the `parent` pointers of the framework. Coordinates are integer pixels. */
module SemanticsTree {
  import opened Wrappers
  import opened Geometry
  import opened InsetRecords

  /** `ScrollAxisRange`: the current scroll offset and its largest value. */
  datatype ScrollAxisRange = ScrollAxisRange(value: int, maxValue: int)

  /** The kinds of semantics values the dump tells apart. */
  datatype PropertyValue =
    | ActionValue                  // an `AccessibilityAction` or a function
    | UnitValue                    // a flag property whose value is `Unit`
    | PlainText(text: string)      // an `AnnotatedString` with no styles or annotations
    | Rendered(text: string)       // any other value, as its `toString()`

  /** A `SemanticsPropertyKey`. Keys are told apart as objects, not by name:
      only the `TestTag` key itself is the test tag. */
  datatype PropertyKey = TestTag | Key(name: string)
  {
    /** The key's `name`, as the dump prints it. */
    function Name(): string {
      match this
      case TestTag => "TestTag"
      case Key(name) => name
    }
  }

  /** One entry of a `SemanticsConfiguration`, in iteration order. */
  datatype ConfigEntry = ConfigEntry(key: PropertyKey, value: PropertyValue)

  datatype Node = Node(
    id: int,
    boundsInWindow: Rect,
    unclippedBounds: Rect,
    config: seq<ConfigEntry>,
    anchor: Option<WindowInsetsRecord>,
    verticalScroll: Option<ScrollAxisRange>,
    horizontalScroll: Option<ScrollAxisRange>,
    isTraversalGroup: Option<bool>,
    mergesDescendants: bool,
    clearsSemantics: bool,
    children: seq<Node>)

  /** A node together with its ancestors, root first; an empty chain means the node is the root. */
  datatype NodeRef = NodeRef(ancestors: seq<Node>, node: Node)
  {
    /** The node's `parent`, as a reference of its own. */
    function Parent(): (p: Option<NodeRef>)
      ensures p.Some? <==> |ancestors| > 0
      ensures p.Some? ==> |p.value.ancestors| == |ancestors| - 1
    {
      if ancestors == [] then None
      else Some(NodeRef(ancestors[..|ancestors| - 1], ancestors[|ancestors| - 1]))
    }

    /** The root of the tree the node is in. */
    function Root(): Node {
      if ancestors == [] then node else ancestors[0]
    }

    /** The root-to-node path: the ancestors, then the node. */
    function Path(): (p: seq<Node>)
      ensures |p| == |ancestors| + 1 && p[|p| - 1] == node && p[..|ancestors|] == ancestors
    {
      ancestors + [node]
    }
  }

  /** Each node of the chain is a child of the one before it. */
  predicate WellFormed(r: NodeRef) {
    (forall k :: 0 <= k < |r.ancestors| - 1 ==> r.ancestors[k + 1] in r.ancestors[k].children)
    && (|r.ancestors| > 0 ==> r.node in r.ancestors[|r.ancestors| - 1].children)
  }

  /** The strict descendants of `n` in pre-order: each child, then its subtree, left to right. */
  function Descendants(n: Node): seq<Node>
    decreases n, 1
  {
    DescendantsOfFirst(n, |n.children|)
  }

  /** The pre-order listing of the first `k` children of `n` and their subtrees. */
  function DescendantsOfFirst(n: Node, k: nat): seq<Node>
    requires k <= |n.children|
    decreases n, 0, k
  {
    if k == 0 then []
    else DescendantsOfFirst(n, k - 1) + [n.children[k - 1]] + Descendants(n.children[k - 1])
  }

  /** Every listed node is a strict descendant, and every child is listed. */
  lemma {:induction false} ChildrenAreDescendants(n: Node, k: nat)
    requires k <= |n.children|
    ensures forall j :: 0 <= j < k ==> n.children[j] in DescendantsOfFirst(n, k)
  {
    if k > 0 {
      ChildrenAreDescendants(n, k - 1);
    }
  }

  /** A node with no children has no descendants. */
  lemma LeafHasNoDescendants(n: Node)
    requires n.children == []
    ensures Descendants(n) == []
  {
  }
}
