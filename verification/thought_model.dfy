/**
 * The recursive thought model: a tree of drawer-like thought nodes and the
 * system that opens drawers, grows children, injects echoes and triggers
 * the collapse protocol.
 *
 * The source links `ThoughtNode` objects by reference (`parent`, and a
 * `children` array per node). Here every node the system ever created is a
 * record in the system's `nodes` sequence, and a reference to a node is its
 * index there; the root is node 0. A `children` array becomes a sequence of
 * indices, so pushing and unshifting into a node's array is an update of
 * that node's record, exactly where the source mutates the array in place.
 * The `Math.random` draws of the node constructor are parameters, and the
 * event log keeps a structured entry per `logEvent` call.
 */
module ThoughtModel {
  import opened Common

  /** `thought-<n>` for a thought the system created, `echo-<id>` for an echo of `id`. */
  datatype NodeId = Thought(n: nat) | Echo(of: NodeId)

  /**
   * Drawer titles. The text of each title is fixed by the source; only its
   * structure matters here (which layer, which depth, echo of which title).
   */
  datatype Title =
    | RootThought
    | InterpretationLayer1
    | ReflectedEcho
    | MemoryOfPastDrawer
    | MetaCognitiveLayer
    | RecursiveLimitLayer(k: real)
    | ThoughtLayer(k: real)
    | EchoOf(original: Title)

  datatype Metadata = Metadata(
    entropyLevel: real,
    recursiveEchoes: int,
    dimensionalStability: real,
    emergenceThreshold: real,
    reflectionIndex: real,
    /** Set by `collapse`: how many children the node had. */
    childrenCount: Option<nat>)

  datatype ThoughtNode = ThoughtNode(
    id: NodeId,
    title: Title,
    depth: real,
    parent: Option<nat>,
    children: seq<nat>,
    isOpen: bool,
    isEcho: bool,
    isCollapsed: bool,
    accessCount: nat,
    metadata: Metadata)

  /** One `logEvent` call. */
  datatype LogEvent =
    | DrawerOpened(title: Title, depth: real)
    | Created(child: Title, inside: Title)
    | UIGlitch
    | EmergenceDetected
    | EchoInjected
    | CollapseTriggered

  /** What `checkSystemEffects` returns. */
  datatype SystemEffects = SystemEffects(
    currentDepth: real, maxSafeDepth: real, systemEntropy: real, glitchDetected: bool, emergenceDetected: bool)

  // ---------------------------------------------------------------------
  // ThoughtNode
  // ---------------------------------------------------------------------

  /** `new ThoughtNode(id, title, depth)`: closed, childless, with entropy `0.3 * draw`. */
  function NewThoughtNode(id: NodeId, title: Title, depth: real, draw: real): (n: ThoughtNode)
    ensures n.id == id && n.title == title && n.depth == depth && n.parent == None && n.children == []
    ensures !n.isOpen && !n.isEcho && !n.isCollapsed && n.accessCount == 0
    ensures 0.0 <= draw < 1.0 ==> 0.0 <= n.metadata.entropyLevel < 0.3
    ensures n.metadata.dimensionalStability == 1.0 - depth * 0.1 && n.metadata.emergenceThreshold == 0.7
  {
    ThoughtNode(id, title, depth, None, [], false, false, false, 0,
                Metadata(draw * 0.3, 0, 1.0 - depth * 0.1, 0.7, 0.0, None))
  }

  /**
   * Flips the drawer and counts the access; the entropy grows by
   * `0.05 * accessCount / (depth + 1)` and is capped at 1.
   */
  function ToggleOpen(n: ThoughtNode): (r: ThoughtNode)
    requires n.depth >= 0.0
    ensures r.isOpen == !n.isOpen && r.accessCount == n.accessCount + 1
    ensures r.metadata.entropyLevel <= 1.0
    ensures n.metadata.entropyLevel <= 1.0 ==> r.metadata.entropyLevel >= n.metadata.entropyLevel
    ensures r.(isOpen := n.isOpen, accessCount := n.accessCount,
               metadata := r.metadata.(entropyLevel := n.metadata.entropyLevel)) == n
  {
    var count := n.accessCount + 1;
    var growth := 0.05 * (count as real) / (n.depth + 1.0);
    assert growth >= 0.0;
    n.(isOpen := !n.isOpen, accessCount := count,
       metadata := n.metadata.(entropyLevel := MinR(1.0, n.metadata.entropyLevel + growth)))
  }

  /** An echo entropy above 1 is pulled down to 1 by the cap of the next toggle. */
  lemma {:induction false} ToggleCanLowerEchoEntropy()
    ensures var echo := CreateEcho(NewThoughtNode(Thought(1), RootThought, 0.0, 0.0).(
                          metadata := NewThoughtNode(Thought(1), RootThought, 0.0, 0.0).metadata.(entropyLevel := 1.0)));
      echo.metadata.entropyLevel == 1.2 && ToggleOpen(echo).metadata.entropyLevel == 1.0
  {
  }

  /**
   * An echo: a closed copy half a level deeper, under the same parent, with
   * the metadata carried over and its entropy, echo count, stability and
   * reflection index adjusted.
   */
  function CreateEcho(n: ThoughtNode): (e: ThoughtNode)
    ensures e.id == Echo(n.id) && e.title == EchoOf(n.title) && e.depth == n.depth + 0.5
    ensures e.parent == n.parent && e.children == [] && e.isEcho && !e.isOpen && !e.isCollapsed
    ensures e.accessCount == 0
    ensures e.metadata == n.metadata.(entropyLevel := n.metadata.entropyLevel * 1.2,
                                      recursiveEchoes := n.metadata.recursiveEchoes + 1,
                                      dimensionalStability := n.metadata.dimensionalStability * 0.9,
                                      reflectionIndex := n.metadata.reflectionIndex + 0.3)
  {
    ThoughtNode(Echo(n.id), EchoOf(n.title), n.depth + 0.5, n.parent, [], false, true, false, 0,
                n.metadata.(entropyLevel := n.metadata.entropyLevel * 1.2,
                            recursiveEchoes := n.metadata.recursiveEchoes + 1,
                            dimensionalStability := n.metadata.dimensionalStability * 0.9,
                            reflectionIndex := n.metadata.reflectionIndex + 0.3))
  }

  /**
   * Closes the node, marks it collapsed, halves its entropy (not below
   * 0.1), raises its stability by half (not above 1), remembers how many
   * children it had and drops them.
   */
  function Collapse(n: ThoughtNode): (r: ThoughtNode)
    ensures !r.isOpen && r.isCollapsed && r.children == []
    ensures r.metadata.childrenCount == Some(|n.children|)
    ensures r.metadata.entropyLevel >= 0.1 && r.metadata.dimensionalStability <= 1.0
    ensures n.metadata.entropyLevel >= 0.2 ==> r.metadata.entropyLevel == n.metadata.entropyLevel / 2.0
    ensures n.metadata.entropyLevel < 0.2 ==> r.metadata.entropyLevel == 0.1
    ensures 1.5 * n.metadata.dimensionalStability <= 1.0 ==>
      r.metadata.dimensionalStability == 1.5 * n.metadata.dimensionalStability
    ensures 1.5 * n.metadata.dimensionalStability >= 1.0 ==> r.metadata.dimensionalStability == 1.0
    ensures r.(isOpen := n.isOpen, isCollapsed := n.isCollapsed, children := n.children,
               metadata := n.metadata) == n
  {
    n.(isOpen := false, isCollapsed := true, children := [],
       metadata := n.metadata.(entropyLevel := MaxR(0.1, n.metadata.entropyLevel * 0.5),
                               dimensionalStability := MinR(1.0, n.metadata.dimensionalStability * 1.5),
                               childrenCount := Some(|n.children|)))
  }

  /** The five emergence factors, in the order of the source. */
  function EmergenceFactors(n: ThoughtNode): seq<bool>
  {
    [n.metadata.entropyLevel > n.metadata.emergenceThreshold,
     n.depth > 3.0,
     n.metadata.recursiveEchoes > 2,
     n.accessCount > 5,
     n.metadata.reflectionIndex > 0.5]
  }

  function CountTrue(s: seq<bool>): (c: nat)
    ensures c <= |s|
  {
    if s == [] then 0 else CountTrue(s[..|s| - 1]) + (if s[|s| - 1] then 1 else 0)
  }

  /** The share of factors that hold exceeds 0.6. */
  predicate HasEmergence(n: ThoughtNode)
  {
    (CountTrue(EmergenceFactors(n)) as real) / 5.0 > 0.6
  }

  /** A share above 0.6 of five factors means at least four of them. */
  lemma {:induction false} HasEmergenceIffFourFactors(n: ThoughtNode)
    ensures HasEmergence(n) <==> CountTrue(EmergenceFactors(n)) >= 4
  {
    var c := CountTrue(EmergenceFactors(n));
    assert c <= 5;
    if c >= 4 {
      assert (c as real) / 5.0 >= 0.8;
    } else {
      assert (c as real) <= 3.0;
      assert (c as real) / 5.0 <= 0.6;
    }
  }

  // ---------------------------------------------------------------------
  // The node arena and walks over it
  // ---------------------------------------------------------------------

  /** Every child index points to a later node of the arena. */
  predicate ChildrenAfter(nodes: seq<ThoughtNode>)
  {
    forall j, k :: 0 <= j < |nodes| && 0 <= k < |nodes[j].children| ==> j < nodes[j].children[k] < |nodes|
  }

  /** The nodes of the subtree at `i`, in the order a depth-first search visits them. */
  function Preorder(nodes: seq<ThoughtNode>, i: nat): (s: seq<nat>)
    requires ChildrenAfter(nodes) && i < |nodes|
    ensures |s| >= 1 && s[0] == i
    ensures forall j :: j in s ==> i <= j < |nodes|
    decreases |nodes| - i, 1
  {
    [i] + PreorderAmong(nodes, i, 0)
  }

  /** The subtrees of the children of `i` from the `k`-th on, in order. */
  function PreorderAmong(nodes: seq<ThoughtNode>, i: nat, k: nat): (s: seq<nat>)
    requires ChildrenAfter(nodes) && i < |nodes| && k <= |nodes[i].children|
    ensures forall j :: j in s ==> i < j < |nodes|
    decreases |nodes| - i, 0, |nodes[i].children| - k
  {
    if k == |nodes[i].children| then []
    else Preorder(nodes, nodes[i].children[k]) + PreorderAmong(nodes, i, k + 1)
  }

  /** The search of `openDrawer`: the first node of the subtree, depth first, carrying `id`. */
  function Find(nodes: seq<ThoughtNode>, id: NodeId, i: nat): (r: Option<nat>)
    requires ChildrenAfter(nodes) && i < |nodes|
    ensures r.Some? ==> r.value in Preorder(nodes, i) && r.value < |nodes| && nodes[r.value].id == id
    ensures r.None? ==> forall j :: j in Preorder(nodes, i) ==> nodes[j].id != id
    decreases |nodes| - i, 1
  {
    if nodes[i].id == id then Some(i) else FindAmong(nodes, id, i, 0)
  }

  function FindAmong(nodes: seq<ThoughtNode>, id: NodeId, i: nat, k: nat): (r: Option<nat>)
    requires ChildrenAfter(nodes) && i < |nodes| && k <= |nodes[i].children|
    ensures r.Some? ==> r.value in PreorderAmong(nodes, i, k) && r.value < |nodes| && nodes[r.value].id == id
    ensures r.None? ==> forall j :: j in PreorderAmong(nodes, i, k) ==> nodes[j].id != id
    decreases |nodes| - i, 0, |nodes[i].children| - k
  {
    if k == |nodes[i].children| then None
    else
      match Find(nodes, id, nodes[i].children[k])
      case Some(j) => Some(j)
      case None => FindAmong(nodes, id, i, k + 1)
  }

  /** `findMaxDepth`: the largest depth in the subtree of `i`. */
  function MaxDepth(nodes: seq<ThoughtNode>, i: nat): (d: real)
    requires ChildrenAfter(nodes) && i < |nodes|
    ensures forall j :: j in Preorder(nodes, i) ==> j < |nodes| && nodes[j].depth <= d
    ensures exists j :: j in Preorder(nodes, i) && j < |nodes| && nodes[j].depth == d
    decreases |nodes| - i, 1
  {
    MaxDepthAmong(nodes, i, 0, nodes[i].depth)
  }

  /** The running maximum `acc` carried over the subtrees of the children of `i` from the `k`-th on. */
  function MaxDepthAmong(nodes: seq<ThoughtNode>, i: nat, k: nat, acc: real): (d: real)
    requires ChildrenAfter(nodes) && i < |nodes| && k <= |nodes[i].children|
    ensures d >= acc
    ensures forall j :: j in PreorderAmong(nodes, i, k) ==> j < |nodes| && nodes[j].depth <= d
    ensures d == acc || exists j :: j in PreorderAmong(nodes, i, k) && j < |nodes| && nodes[j].depth == d
    decreases |nodes| - i, 0, |nodes[i].children| - k
  {
    if k == |nodes[i].children| then acc
    else
      var sub := MaxDepth(nodes, nodes[i].children[k]);
      MaxDepthAmong(nodes, i, k + 1, MaxR(acc, sub))
  }

  /** Each node's parent comes earlier in the arena. */
  predicate ParentsBefore(nodes: seq<ThoughtNode>)
  {
    forall j :: 0 <= j < |nodes| && nodes[j].parent.Some? ==> nodes[j].parent.value < j
  }

  /** `getPath`: the node's ancestors from the topmost one down, ending with the node. */
  function GetPath(nodes: seq<ThoughtNode>, i: nat): (path: seq<nat>)
    requires ParentsBefore(nodes) && i < |nodes|
    ensures |path| >= 1 && path[|path| - 1] == i
    ensures forall k :: 0 <= k < |path| ==> path[k] < |nodes|
    ensures nodes[path[0]].parent == None
    ensures forall k :: 0 <= k < |path| - 1 ==> nodes[path[k + 1]].parent == Some(path[k])
    decreases i
  {
    match nodes[i].parent
    case None => [i]
    case Some(p) => GetPath(nodes, p) + [i]
  }

  /** The title `autoGenerateChild` gives a child at depth `nextDepth`. */
  function ChildTitle(nextDepth: real): Title
  {
    if nextDepth == 2.0 then ReflectedEcho
    else if nextDepth == 3.0 then MemoryOfPastDrawer
    else if nextDepth == 4.0 then MetaCognitiveLayer
    else if nextDepth >= 5.0 then RecursiveLimitLayer(nextDepth - 4.0)
    else ThoughtLayer(nextDepth)
  }


  /** Two records that differ at most in their `children`. */
  predicate SameButChildren(a: ThoughtNode, b: ThoughtNode)
  {
    a.(children := b.children) == b
  }

  /**
   * The children of a node after walking `before` with `forEach`: the
   * old children last, in order, and in front of them one echo of the
   * first old child per old child.
   */
  ghost predicate EchoedFirstChild(before: seq<nat>, oldNodes: seq<ThoughtNode>, after: seq<nat>,
                                   newNodes: seq<ThoughtNode>)
  {
    |after| == 2 * |before| && after[|before|..] == before &&
    (|before| > 0 ==> before[0] < |oldNodes| &&
                      forall m :: 0 <= m < |before| ==>
                        after[m] < |newNodes| && newNodes[after[m]].id == Echo(oldNodes[before[0]].id))
  }

  // ---------------------------------------------------------------------
  // The shape of the arena
  // ---------------------------------------------------------------------

  /** The parent of node `j` is an earlier node, one level up. */
  ghost predicate ParentOk(nodes: seq<ThoughtNode>, levels: seq<nat>, j: nat)
    requires j < |nodes| == |levels|
  {
    nodes[j].parent.Some? && nodes[j].parent.value < j &&
    levels[j] == levels[nodes[j].parent.value] + 1
  }

  /** The children of node `j` are distinct later nodes whose parent is `j`. */
  ghost predicate ChildrenOk(nodes: seq<ThoughtNode>, j: nat)
    requires j < |nodes|
  {
    Distinct(nodes[j].children) &&
    forall k :: 0 <= k < |nodes[j].children| ==>
      j < nodes[j].children[k] < |nodes| && nodes[nodes[j].children[k]].parent == Some(j)
  }

  /**
   * The arena is a tree rooted at node 0 at depth 0: parent and child links
   * agree, every other node is at least one level deep, and `levels` counts
   * the links to the root, none of them above `maxLevel`.
   */
  ghost predicate WellFormed(nodes: seq<ThoughtNode>, levels: seq<nat>, maxLevel: nat)
  {
    |nodes| >= 1 && |levels| == |nodes| &&
    nodes[0].parent == None && nodes[0].depth == 0.0 && levels[0] == 0 &&
    (forall j :: 0 < j < |nodes| ==> ParentOk(nodes, levels, j)) &&
    (forall j :: 0 <= j < |nodes| ==> ChildrenOk(nodes, j)) &&
    (forall j :: 0 < j < |nodes| ==> nodes[j].depth >= 1.0) &&
    (forall j :: 0 <= j < |nodes| ==> levels[j] <= maxLevel)
  }

  lemma {:induction false} WellFormedTree(nodes: seq<ThoughtNode>, levels: seq<nat>, maxLevel: nat)
    requires WellFormed(nodes, levels, maxLevel)
    ensures ChildrenAfter(nodes) && ParentsBefore(nodes)
  {
    forall j, k | 0 <= j < |nodes| && 0 <= k < |nodes[j].children|
      ensures j < nodes[j].children[k] < |nodes|
    {
      assert ChildrenOk(nodes, j);
    }
    forall j | 0 <= j < |nodes| && nodes[j].parent.Some?
      ensures nodes[j].parent.value < j
    {
      if j > 0 {
        assert ParentOk(nodes, levels, j);
      }
    }
  }

  /** Only the root lacks a parent, so every path of `getPath` starts at the root and passes one node per level. */
  lemma {:induction false} PathFromRoot(nodes: seq<ThoughtNode>, levels: seq<nat>, maxLevel: nat, i: nat)
    requires WellFormed(nodes, levels, maxLevel) && i < |nodes|
    ensures ParentsBefore(nodes)
    ensures GetPath(nodes, i)[0] == 0 && |GetPath(nodes, i)| == levels[i] + 1
    decreases i
  {
    WellFormedTree(nodes, levels, maxLevel);
    if i > 0 {
      assert ParentOk(nodes, levels, i);
      PathFromRoot(nodes, levels, maxLevel, nodes[i].parent.value);
    }
  }

  /** Replacing a node by a record with the same links (or with its children dropped) keeps the tree. */
  lemma {:induction false} ReplaceKeepsTree(nodes: seq<ThoughtNode>, levels: seq<nat>, maxLevel: nat, i: nat, n: ThoughtNode)
    requires WellFormed(nodes, levels, maxLevel) && i < |nodes|
    requires n.parent == nodes[i].parent && n.depth == nodes[i].depth
    requires n.children == nodes[i].children || n.children == []
    ensures WellFormed(nodes[i := n], levels, maxLevel)
  {
    var after := nodes[i := n];
    forall j | 0 < j < |after|
      ensures ParentOk(after, levels, j)
    {
      assert ParentOk(nodes, levels, j);
    }
    forall j | 0 <= j < |after|
      ensures ChildrenOk(after, j)
    {
      assert ChildrenOk(nodes, j);
    }
  }

  /**
   * Appending a childless node under `p`, and listing it first or last
   * among the children of `p`, keeps the tree.
   */
  lemma {:induction false} AttachLeafKeepsTree(nodes: seq<ThoughtNode>, levels: seq<nat>, maxLevel: nat, p: nat, n: ThoughtNode,
                            children: seq<nat>)
    requires WellFormed(nodes, levels, maxLevel) && p < |nodes|
    requires n.parent == Some(p) && n.children == [] && n.depth >= 1.0
    requires children == nodes[p].children + [|nodes|] || children == [|nodes|] + nodes[p].children
    ensures WellFormed(nodes[p := nodes[p].(children := children)] + [n], levels + [levels[p] + 1],
                       MaxI(maxLevel, levels[p] + 1))
  {
    var after := nodes[p := nodes[p].(children := children)] + [n];
    var lv := levels + [levels[p] + 1];
    var e := |nodes|;
    forall j | 0 < j < |after|
      ensures ParentOk(after, lv, j)
    {
      if j < e {
        assert ParentOk(nodes, levels, j);
      }
    }
    forall j | 0 <= j < |after|
      ensures ChildrenOk(after, j)
    {
      if j < e {
        assert ChildrenOk(nodes, j);
        if j == p {
          forall k | 0 <= k < |nodes[p].children|
            ensures nodes[p].children[k] != e
          {
          }
        }
      }
    }
  }

  /**
   * `after` extends `before`: the old nodes keep everything but their
   * children and their levels, and those at most `lvl` deep other than
   * `a` and `b` are untouched.
   */
  ghost predicate Grown(before: seq<ThoughtNode>, lvBefore: seq<nat>, after: seq<ThoughtNode>, lvAfter: seq<nat>,
                        lvl: nat, a: nat, b: nat)
  {
    |before| == |lvBefore| && |before| <= |after| && |before| <= |lvAfter| && lvAfter[..|before|] == lvBefore &&
    forall j :: 0 <= j < |before| ==>
      SameButChildren(after[j], before[j]) && (lvBefore[j] <= lvl && j != a && j != b ==> after[j] == before[j])
  }

  /**
   * The walk of the children of `i` so far: the old children `original`
   * last, preceded by `echoes`, each an echo of the first of them.
   */
  ghost predicate Walked(n0: seq<ThoughtNode>, l0: seq<nat>, nodes: seq<ThoughtNode>, levels: seq<nat>, i: nat,
                         original: seq<nat>, echoes: seq<nat>)
  {
    i < |n0| && i < |l0| && i < |nodes| && Grown(n0, l0, nodes, levels, l0[i], i, i) &&
    original == n0[i].children && nodes[i].children == echoes + original &&
    (original != [] ==>
       original[0] < |n0| &&
       forall m :: 0 <= m < |echoes| ==> echoes[m] < |nodes| && nodes[echoes[m]].id == Echo(n0[original[0]].id))
  }

  lemma {:induction false} WalkStarts(nodes: seq<ThoughtNode>, levels: seq<nat>, i: nat)
    requires i < |nodes| == |levels| && ChildrenOk(nodes, i)
    ensures Walked(nodes, levels, nodes, levels, i, nodes[i].children, [])
  {
    assert levels[..|nodes|] == levels;
  }

  lemma {:induction false} WalkEnds(n0: seq<ThoughtNode>, l0: seq<nat>, nodes: seq<ThoughtNode>, levels: seq<nat>, i: nat,
                 original: seq<nat>, echoes: seq<nat>)
    requires Walked(n0, l0, nodes, levels, i, original, echoes) && |echoes| == |original|
    ensures EchoedFirstChild(n0[i].children, n0, nodes[i].children, nodes)
  {
    assert nodes[i].children[|original|..] == original;
  }

  lemma {:induction false} PrependRegroups(e: nat, front: seq<nat>, back: seq<nat>)
    ensures [e] + (front + back) == ([e] + front) + back
  {
  }

  /** Two growths in a row are one, provided the second leaves alone what the first must. */
  lemma {:induction false} GrownTrans(n0: seq<ThoughtNode>, l0: seq<nat>, n1: seq<ThoughtNode>, l1: seq<nat>,
                   n2: seq<ThoughtNode>, l2: seq<nat>, lvl: nat, a: nat, b: nat, lvl2: nat, c: nat, d: nat)
    requires Grown(n0, l0, n1, l1, lvl, a, b) && Grown(n1, l1, n2, l2, lvl2, c, d) && lvl <= lvl2
    requires c < |n0| && c != a && c != b ==> l0[c] > lvl
    requires d < |n0| && d != a && d != b ==> l0[d] > lvl
    ensures Grown(n0, l0, n2, l2, lvl, a, b)
  {
    assert l2[..|n0|] == l1[..|n1|][..|n0|];
    forall j | 0 <= j < |n0|
      ensures SameButChildren(n2[j], n0[j])
    {
      assert SameButChildren(n1[j], n0[j]);
      assert l1[j] == l0[j];
    }
  }

  // ---------------------------------------------------------------------
  // The system
  // ---------------------------------------------------------------------

  class RecursiveThoughtSystem {
    var idCounter: nat
    var maxSafeDepth: real
    var systemEntropy: real
    var emergenceDetected: bool
    var glitchDetected: bool
    var collapseTriggered: bool
    var echoInjected: bool
    var eventLog: seq<LogEvent>
    /** Every node the system created; node 0 is `rootThought`. */
    var nodes: seq<ThoughtNode>
    var activeThought: nat
    /** How many parent links separate each node from the root. */
    ghost var levels: seq<nat>
    /** A bound on `levels`, raised only when a child is added. */
    ghost var maxLevel: nat

    ghost predicate Valid()
      reads this
    {
      WellFormed(nodes, levels, maxLevel) && activeThought < |nodes|
    }

    /**
     * A root titled "Root Thought" holding the first interpretation layer;
     * the root is opened once and active.
     */
    constructor (maxSafe: real, rootDraw: real, layerDraw: real)
      ensures Valid()
      ensures idCounter == 2 && maxSafeDepth == maxSafe && systemEntropy == 0.0
      ensures !emergenceDetected && !glitchDetected && !collapseTriggered && !echoInjected
      ensures |nodes| == 2 && activeThought == 0
      ensures nodes[0] == ToggleOpen(NewThoughtNode(Thought(1), RootThought, 0.0, rootDraw).(children := [1]))
      ensures nodes[1] == NewThoughtNode(Thought(2), InterpretationLayer1, 0.0, layerDraw).(parent := Some(0), depth := 1.0)
      ensures eventLog == [DrawerOpened(RootThought, 0.0)]
    {
      idCounter := 2;
      maxSafeDepth := maxSafe;
      systemEntropy := 0.0;
      emergenceDetected := false;
      glitchDetected := false;
      collapseTriggered := false;
      echoInjected := false;
      var root := NewThoughtNode(Thought(1), RootThought, 0.0, rootDraw);
      var layer := NewThoughtNode(Thought(2), InterpretationLayer1, 0.0, layerDraw);
      layer := layer.(parent := Some(0), depth := root.depth + 1.0);
      root := root.(children := [1]);
      root := ToggleOpen(root);
      assert ParentOk([root, layer], [0, 1], 1);
      assert ChildrenOk([root, layer], 0) && ChildrenOk([root, layer], 1);
      nodes := [root, layer];
      levels := [0, 1];
      maxLevel := 1;
      activeThought := 0;
      eventLog := [DrawerOpened(RootThought, 0.0)];
    }

    /** `getCurrentDepth`: the deepest node reachable from the root, and at least 0. */
    function CurrentDepth(): (d: real)
      reads this
      requires Valid()
      ensures ChildrenAfter(nodes)
      ensures d >= 0.0
      ensures forall j :: j in Preorder(nodes, 0) ==> j < |nodes| && nodes[j].depth <= d
      ensures d == 0.0 || exists j :: j in Preorder(nodes, 0) && j < |nodes| && nodes[j].depth == d
    {
      WellFormedTree(nodes, levels, maxLevel);
      MaxR(0.0, MaxDepth(nodes, 0))
    }

    /**
     * `openDrawer`: opens (or closes) the first drawer, depth first from
     * the root, carrying `thoughtId`. Without such a drawer nothing changes.
     */
    method OpenDrawer(thoughtId: NodeId, draw: real) returns (found: bool)
      requires Valid()
      modifies this`nodes, this`levels, this`maxLevel, this`idCounter, this`eventLog, this`systemEntropy,
               this`activeThought, this`glitchDetected, this`emergenceDetected
      ensures Valid()
      ensures ChildrenAfter(old(nodes))
      ensures found <==> Find(old(nodes), thoughtId, 0).Some?
      ensures !found ==> nodes == old(nodes) && activeThought == old(activeThought) && eventLog == old(eventLog) &&
                         systemEntropy == old(systemEntropy) && glitchDetected == old(glitchDetected) &&
                         emergenceDetected == old(emergenceDetected) && idCounter == old(idCounter)
      ensures found ==> var i := Find(old(nodes), thoughtId, 0).value;
        i < old(|nodes|) && old(nodes[i].id) == thoughtId && OpenedAt(i, draw)
      ensures maxSafeDepth == old(maxSafeDepth) && echoInjected == old(echoInjected) &&
              collapseTriggered == old(collapseTriggered)
    {
      WellFormedTree(nodes, levels, maxLevel);
      var r := Find(nodes, thoughtId, 0);
      if r.None? {
        return false;
      }
      label before:
      OpenFound(r.value, draw);
      assert r == old@before(Find(nodes, thoughtId, 0));
      return true;
    }

    /**
     * The state `openDrawer` leaves once node `i` matched: the node toggled;
     * one child grown exactly when the toggled node is open, empty and below
     * the safe depth, raising the system entropy; the glitch and emergence
     * flags latched; and the log holding exactly the lines of these steps.
     */
    twostate predicate OpenedAt(i: nat, draw: real)
      reads this
      requires Valid() && i < old(|nodes|) && old(nodes[i].depth) >= 0.0
    {
      var t := ToggleOpen(old(nodes[i]));
      var grows := t.isOpen && t.children == [] && t.depth < maxSafeDepth;
      activeThought == i && |nodes| >= old(|nodes|) && SameButChildren(nodes[i], t) &&
      |eventLog| > old(|eventLog|) && eventLog[old(|eventLog|)] == DrawerOpened(old(nodes[i].title), old(nodes[i].depth)) &&
      (grows ==> |nodes| == old(|nodes|) + 1 && idCounter == old(idCounter) + 1 &&
                 nodes[..old(|nodes|)] == old(nodes)[i := t.(children := [old(|nodes|)])] &&
                 nodes[old(|nodes|)] == NewThoughtNode(Thought(old(idCounter) + 1), ChildTitle(t.depth + 1.0),
                                                       t.depth + 1.0, draw).(parent := Some(i)) &&
                 systemEntropy == MinR(1.0, old(systemEntropy) + 0.05 * (t.depth + 1.0))) &&
      (!grows ==> nodes == old(nodes)[i := t] && systemEntropy == old(systemEntropy) && idCounter == old(idCounter)) &&
      eventLog == old(eventLog) + [DrawerOpened(t.title, t.depth)]
                  + (if grows then [Created(ChildTitle(t.depth + 1.0), t.title)] else [])
                  + (if glitchDetected && !old(glitchDetected) then [UIGlitch] else [])
                  + (if emergenceDetected && !old(emergenceDetected) then [EmergenceDetected] else []) &&
      glitchDetected == (old(glitchDetected) || CurrentDepth() > maxSafeDepth) &&
      emergenceDetected == (old(emergenceDetected) || systemEntropy > 0.7)
    }

    /**
     * What `openDrawer` does with the drawer it found: toggles it, makes it
     * the active thought, logs it, lets it grow a child and checks the
     * system effects.
     */
    method OpenFound(i: nat, draw: real)
      requires Valid() && i < |nodes|
      modifies this`nodes, this`levels, this`maxLevel, this`idCounter, this`eventLog, this`systemEntropy,
               this`activeThought, this`glitchDetected, this`emergenceDetected
      ensures Valid() && OpenedAt(i, draw)
    {
      ToggleAndLog(i);
      GrowAndCheck(i, draw);
    }

    /** The first half of `findAndToggle` on a match: the node toggles, becomes active and is logged. */
    method ToggleAndLog(i: nat)
      requires Valid() && i < |nodes|
      modifies this`nodes, this`activeThought, this`eventLog
      ensures Valid() && old(nodes[i].depth) >= 0.0
      ensures nodes == old(nodes)[i := ToggleOpen(old(nodes[i]))] && activeThought == i
      ensures eventLog == old(eventLog) + [DrawerOpened(old(nodes[i].title), old(nodes[i].depth))]
    {
      assert nodes[i].depth >= 0.0 by {
        if i > 0 {
          assert nodes[i].depth >= 1.0;
        }
      }
      var t := ToggleOpen(nodes[i]);
      ReplaceKeepsTree(nodes, levels, maxLevel, i, t);
      nodes := nodes[i := t];
      activeThought := i;
      eventLog := eventLog + [DrawerOpened(t.title, t.depth)];
    }

    /**
     * The rest of `openDrawer` once the drawer is toggled: `autoGenerateChild`
     * on it, then `checkSystemEffects`.
     */
    method GrowAndCheck(i: nat, draw: real)
      requires Valid() && i < |nodes|
      modifies this`nodes, this`levels, this`maxLevel, this`idCounter, this`eventLog, this`systemEntropy,
               this`glitchDetected, this`emergenceDetected
      ensures Valid() && |nodes| >= old(|nodes|) && nodes[i].(children := old(nodes[i].children)) == old(nodes[i])
      ensures var n := old(nodes[i]);
        var grows := n.isOpen && n.children == [] && n.depth < maxSafeDepth;
        (grows ==> |nodes| == old(|nodes|) + 1 && idCounter == old(idCounter) + 1 &&
                   nodes[..old(|nodes|)] == old(nodes)[i := n.(children := [old(|nodes|)])] &&
                   nodes[old(|nodes|)] == NewThoughtNode(Thought(old(idCounter) + 1), ChildTitle(n.depth + 1.0),
                                                         n.depth + 1.0, draw).(parent := Some(i)) &&
                   systemEntropy == MinR(1.0, old(systemEntropy) + 0.05 * (n.depth + 1.0))) &&
        (!grows ==> nodes == old(nodes) && systemEntropy == old(systemEntropy) && idCounter == old(idCounter)) &&
        eventLog == old(eventLog) + (if grows then [Created(ChildTitle(n.depth + 1.0), n.title)] else [])
                    + (if glitchDetected && !old(glitchDetected) then [UIGlitch] else [])
                    + (if emergenceDetected && !old(emergenceDetected) then [EmergenceDetected] else [])
      ensures glitchDetected == (old(glitchDetected) || CurrentDepth() > maxSafeDepth)
      ensures emergenceDetected == (old(emergenceDetected) || systemEntropy > 0.7)
    {
      ghost var log0 := eventLog;
      var child := AutoGenerateChild(i, draw);
      ghost var grows := child.Some?;
      ghost var grown := eventLog;
      assert grown == log0 + (if grows then [Created(ChildTitle(old(nodes[i].depth) + 1.0), old(nodes[i].title))] else []);
      var _ := CheckSystemEffects();
    }

    /**
     * `autoGenerateChild`: an open, childless node below the safe depth gets
     * one child one level deeper, titled by that depth, and the system
     * entropy grows by `0.05 * nextDepth` (capped at 1). Otherwise nothing
     * changes.
     */
    method AutoGenerateChild(i: nat, draw: real) returns (child: Option<nat>)
      requires Valid() && i < |nodes|
      modifies this`nodes, this`levels, this`maxLevel, this`idCounter, this`eventLog, this`systemEntropy
      ensures Valid()
      ensures var grows := old(nodes[i].isOpen) && old(nodes[i].children) == [] && old(nodes[i].depth) < maxSafeDepth;
        (grows ==> child == Some(old(|nodes|)) && |nodes| == old(|nodes|) + 1 && idCounter == old(idCounter) + 1 &&
                    nodes[..old(|nodes|)] == old(nodes)[i := old(nodes[i]).(children := [old(|nodes|)])] &&
                    nodes[old(|nodes|)] == NewThoughtNode(Thought(old(idCounter) + 1), ChildTitle(old(nodes[i].depth) + 1.0),
                                                          old(nodes[i].depth) + 1.0, draw).(parent := Some(i)) &&
                    eventLog == old(eventLog) + [Created(ChildTitle(old(nodes[i].depth) + 1.0), old(nodes[i].title))] &&
                    systemEntropy == MinR(1.0, old(systemEntropy) + 0.05 * (old(nodes[i].depth) + 1.0))) &&
        (!grows ==> child == None && nodes == old(nodes) && systemEntropy == old(systemEntropy) &&
                    eventLog == old(eventLog) && idCounter == old(idCounter))
      ensures old(systemEntropy) <= 1.0 ==> systemEntropy <= 1.0
      ensures |nodes| >= old(|nodes|) && nodes[i].(children := old(nodes[i].children)) == old(nodes[i])
      ensures |eventLog| >= old(|eventLog|) && eventLog[..old(|eventLog|)] == old(eventLog)
    {
      var node := nodes[i];
      if !node.isOpen || |node.children| > 0 || node.depth >= maxSafeDepth {
        return None;
      }
      assert node.children == [];
      var nextDepth := node.depth + 1.0;
      var childTitle := ChildTitle(nextDepth);
      var c := AddChild(i, childTitle, nextDepth, draw);
      assert node.children + [c] == [c];
      eventLog := eventLog + [Created(childTitle, node.title)];
      systemEntropy := MinR(1.0, systemEntropy + 0.05 * nextDepth);
      return Some(c);
    }

    /**
     * `createThought` followed by `addChild`: a new thought, numbered by the
     * id counter, becomes the last child of node `i`, one level deeper.
     */
    method AddChild(i: nat, title: Title, createdDepth: real, draw: real) returns (c: nat)
      requires Valid() && i < |nodes|
      modifies this`nodes, this`levels, this`maxLevel, this`idCounter
      ensures Valid()
      ensures c == old(|nodes|) && |nodes| == c + 1 && idCounter == old(idCounter) + 1
      ensures nodes[..c] == old(nodes)[i := old(nodes[i]).(children := old(nodes[i].children) + [c])]
      ensures nodes[c] == NewThoughtNode(Thought(idCounter), title, createdDepth, draw).(
                            parent := Some(i), depth := old(nodes[i].depth) + 1.0)
    {
      idCounter := idCounter + 1;
      var child := NewThoughtNode(Thought(idCounter), title, createdDepth, draw);
      child := child.(parent := Some(i), depth := nodes[i].depth + 1.0);
      c := |nodes|;
      assert nodes[i].depth >= 0.0 by {
        if i > 0 {
          assert nodes[i].depth >= 1.0;
        }
      }
      var children := nodes[i].children + [c];
      AttachLeafKeepsTree(nodes, levels, maxLevel, i, child, children);
      nodes := nodes[i := nodes[i].(children := children)] + [child];
      levels := levels + [levels[i] + 1];
      maxLevel := MaxI(maxLevel, levels[i] + 1);
      assert nodes[..c] == old(nodes)[i := old(nodes[i]).(children := children)];
    }

    /**
     * `checkSystemEffects`: the glitch flag latches once the tree is deeper
     * than the safe depth, the emergence flag once the system entropy
     * exceeds 0.7; each is logged the first time.
     */
    method CheckSystemEffects() returns (effects: SystemEffects)
      requires Valid()
      modifies this`glitchDetected, this`emergenceDetected, this`eventLog
      ensures glitchDetected == (old(glitchDetected) || CurrentDepth() > maxSafeDepth)
      ensures emergenceDetected == (old(emergenceDetected) || systemEntropy > 0.7)
      ensures eventLog == old(eventLog) + (if !old(glitchDetected) && CurrentDepth() > maxSafeDepth then [UIGlitch] else [])
                                        + (if !old(emergenceDetected) && systemEntropy > 0.7 then [EmergenceDetected] else [])
      ensures effects == SystemEffects(CurrentDepth(), maxSafeDepth, systemEntropy, glitchDetected, emergenceDetected)
      ensures |eventLog| >= old(|eventLog|) && eventLog[..old(|eventLog|)] == old(eventLog)
    {
      var currentDepth := CurrentDepth();
      if currentDepth > maxSafeDepth && !glitchDetected {
        glitchDetected := true;
        eventLog := eventLog + [UIGlitch];
      }
      if systemEntropy > 0.7 && !emergenceDetected {
        emergenceDetected := true;
        eventLog := eventLog + [EmergenceDetected];
      }
      return SystemEffects(currentDepth, maxSafeDepth, systemEntropy, glitchDetected, emergenceDetected);
    }

    /**
     * `injectEcho`, at most once: every child of the root is walked with
     * `forEach` and echoed into its parent's children, raising the safe
     * depth by 2 and the entropy by 0.3 (capped at 1). Because `forEach`
     * fixes the length first and reads the array live while `unshift` grows
     * it at the front, the first child of the root is walked once per
     * original child and the others not at all: the root gains one echo of
     * its first child per original child, in front of the old children.
     */
    method InjectEcho() returns (injected: bool)
      requires Valid()
      modifies this`echoInjected, this`eventLog, this`nodes, this`levels, this`maxSafeDepth, this`systemEntropy
      ensures Valid()
      ensures injected == !old(echoInjected) && echoInjected
      ensures !injected ==> nodes == old(nodes) && maxSafeDepth == old(maxSafeDepth) &&
                            systemEntropy == old(systemEntropy) && eventLog == old(eventLog)
      ensures injected ==> maxSafeDepth == old(maxSafeDepth) + 2.0 &&
                           systemEntropy == MinR(1.0, old(systemEntropy) + 0.3) &&
                           eventLog == old(eventLog) + [EchoInjected]
      ensures injected ==> EchoedFirstChild(old(nodes[0].children), old(nodes), nodes[0].children, nodes)
      ensures Grown(old(nodes), old(levels), nodes, levels, 0, 0, 0)
    {
      if echoInjected {
        assert levels[..|nodes|] == levels;
        return false;
      }
      echoInjected := true;
      eventLog := eventLog + [EchoInjected];
      ForEachProcess(0);
      maxSafeDepth := maxSafeDepth + 2.0;
      systemEntropy := MinR(1.0, systemEntropy + 0.3);
      return true;
    }

    /** `processNode` on node `i`: echo it into its parent's children, then walk its own children. */
    method ProcessNode(i: nat)
      requires Valid() && 0 < i < |nodes|
      modifies this`nodes, this`levels
      ensures Valid()
      ensures old(nodes[i].parent).Some? && old(nodes[i].parent.value) < old(|nodes|)
      ensures Grown(old(nodes), old(levels), nodes, levels, old(levels[i]), i, old(nodes[i].parent.value))
      ensures |nodes| > old(|nodes|) && nodes[old(|nodes|)] == CreateEcho(old(nodes[i]))
      ensures nodes[old(nodes[i].parent.value)].children == [old(|nodes|)] + old(nodes[nodes[i].parent.value].children)
      decreases maxLevel - levels[i], 2
    {
      assert ParentOk(nodes, levels, i);
      var p := nodes[i].parent.value;
      var echo := CreateEcho(nodes[i]);
      var e := |nodes|;
      var children := [e] + nodes[p].children;
      AttachLeafKeepsTree(nodes, levels, maxLevel, p, echo, children);
      assert MaxI(maxLevel, levels[p] + 1) == maxLevel;
      nodes := nodes[p := nodes[p].(children := children)] + [echo];
      levels := levels + [levels[p] + 1];
      assert levels[..e] == old(levels);
      assert Grown(old(nodes), old(levels), nodes, levels, levels[i], i, p);
      ghost var mid, midLevels := nodes, levels;
      ForEachProcess(i);
      GrownTrans(old(nodes), old(levels), mid, midLevels, nodes, levels, levels[i], i, p, levels[i], i, i);
      assert nodes[e] == mid[e];
    }

    /**
     * `node.children.forEach(processNode)`: the length is fixed before the
     * walk and the `k`-th element is read afresh at every step.
     */
    method ForEachProcess(i: nat)
      requires Valid() && i < |nodes|
      modifies this`nodes, this`levels
      ensures Valid()
      ensures Grown(old(nodes), old(levels), nodes, levels, old(levels[i]), i, i)
      ensures EchoedFirstChild(old(nodes[i].children), old(nodes), nodes[i].children, nodes)
      decreases maxLevel - levels[i], 1
    {
      var len := |nodes[i].children|;
      ghost var original := nodes[i].children;
      ghost var echoes: seq<nat> := [];
      assert ChildrenOk(nodes, i);
      WalkStarts(nodes, levels, i);
      var k := 0;
      while k < len
        invariant Valid() && k <= len && |echoes| == k
        invariant Walked(old(nodes), old(levels), nodes, levels, i, original, echoes)
      {
        echoes := WalkStep(i, k, old(nodes), old(levels), original, echoes);
        k := k + 1;
      }
      WalkEnds(old(nodes), old(levels), nodes, levels, i, original, echoes);
    }

    /** One step of the walk: the `k`-th child read afresh is always the first original child. */
    method WalkStep(i: nat, k: nat, ghost n0: seq<ThoughtNode>, ghost l0: seq<nat>, ghost original: seq<nat>,
                    ghost echoes: seq<nat>) returns (ghost echoes': seq<nat>)
      requires Valid() && Walked(n0, l0, nodes, levels, i, original, echoes) && original != [] &&
               |echoes| == k
      modifies this`nodes, this`levels
      ensures Valid() && Walked(n0, l0, nodes, levels, i, original, echoes') && echoes' == [old(|nodes|)] + echoes
      decreases maxLevel - levels[i], 0
    {
      var c := nodes[i].children[k];
      assert c == original[0];
      assert ChildrenOk(nodes, i);
      assert ParentOk(nodes, levels, c);
      var e := |nodes|;
      ghost var lvl := l0[i];
      ProcessNode(c);
      GrownTrans(n0, l0, old(nodes), old(levels), nodes, levels, lvl, i, i, lvl + 1, c, i);
      assert nodes[i].children == [e] + (echoes + original);
      PrependRegroups(e, echoes, original);
      assert nodes[e].id == Echo(n0[original[0]].id) by {
        assert SameButChildren(old(nodes[c]), n0[c]);
      }
      echoes' := [e] + echoes;
    }

    /**
     * `triggerCollapse`, at most once: walks the tree from the root,
     * collapsing every node below the root before copying its (now empty)
     * children, so only the children of the root are collapsed. The glitch
     * flag is cleared, the entropy scaled by 0.3 (not below 0.1) and the
     * root left open.
     */
    method TriggerCollapse() returns (triggered: bool)
      requires Valid()
      modifies this`collapseTriggered, this`eventLog, this`nodes, this`glitchDetected, this`systemEntropy
      ensures Valid()
      ensures triggered == !old(collapseTriggered) && collapseTriggered
      ensures !triggered ==> nodes == old(nodes) && systemEntropy == old(systemEntropy) &&
                             glitchDetected == old(glitchDetected) && eventLog == old(eventLog)
      ensures triggered ==> |nodes| == old(|nodes|) && nodes[0] == old(nodes[0]).(isOpen := true) &&
                            (forall c :: c in old(nodes[0].children) ==> c < |nodes| && nodes[c] == Collapse(old(nodes[c]))) &&
                            (forall j :: 0 < j < |nodes| && j !in old(nodes[0].children) ==> nodes[j] == old(nodes[j])) &&
                            !glitchDetected && systemEntropy == MaxR(0.1, old(systemEntropy) * 0.3) &&
                            eventLog == old(eventLog) + [CollapseTriggered]
    {
      if collapseTriggered {
        return false;
      }
      collapseTriggered := true;
      eventLog := eventLog + [CollapseTriggered];
      CollapseNode(0);
      glitchDetected := false;
      systemEntropy := MaxR(0.1, systemEntropy * 0.3);
      ReplaceKeepsTree(nodes, levels, maxLevel, 0, nodes[0].(isOpen := true));
      nodes := nodes[0 := nodes[0].(isOpen := true)];
      return true;
    }

    /**
     * `collapseNode`: a node below the root collapses, dropping its
     * children before they are copied, so the walk stops there; the root
     * stays as it is and its children are walked.
     */
    method CollapseNode(i: nat)
      requires Valid() && i < |nodes|
      modifies this`nodes
      ensures Valid() && |nodes| == old(|nodes|)
      ensures i > 0 ==> nodes == old(nodes)[i := Collapse(old(nodes[i]))]
      ensures i == 0 ==> nodes[0] == old(nodes[0]) &&
                         (forall c :: c in old(nodes[0].children) ==> c < |nodes| && nodes[c] == Collapse(old(nodes[c]))) &&
                         (forall j :: 0 < j < |nodes| && j !in old(nodes[0].children) ==> nodes[j] == old(nodes[j]))
      decreases |nodes| - i
    {
      if nodes[i].depth > 0.0 {
        ReplaceKeepsTree(nodes, levels, maxLevel, i, Collapse(nodes[i]));
        nodes := nodes[i := Collapse(nodes[i])];
      }
      var copy := nodes[i].children;
      assert ChildrenOk(nodes, i);
      for k := 0 to |copy|
        invariant Valid() && |nodes| == old(|nodes|)
        invariant i > 0 ==> copy == [] && nodes == old(nodes)[i := Collapse(old(nodes[i]))]
        invariant i == 0 ==> nodes[0] == old(nodes[0]) && copy == old(nodes[0].children)
        invariant forall m :: 0 <= m < k ==> nodes[copy[m]] == Collapse(old(nodes[copy[m]]))
        invariant i == 0 ==> forall j :: 0 < j < |nodes| && j !in copy[..k] ==> nodes[j] == old(nodes[j])
      {
        assert copy[k] !in copy[..k];
        CollapseNode(copy[k]);
      }
    }
  }
}
