/**
 * The recursion depth synchroniser: a generated structure of recursion
 * levels 1..T (T is 9 in the component), links from each level to the
 * next, and a synchronisation run that moves every node's depth toward T
 * over 100 frames.
 *
 * Node coordinates are trigonometric and are not modelled; a node keeps
 * its ring radius, which the synchronisation interpolates. Random draws
 * are parameters in [0, 1), and the timer chain of the run is the step
 * function `SyncStep`.
 */
module DepthSync {
  import opened Common

  datatype GlyphMarker =
    | SyncPoint | Bifurcation | StableNode | FractalRecursion
    | TemporalFork | TerminalNode | TemporalCollapse | ResonanceLock

  datatype SyncStatus = Synced | Pending | Overrun

  /** `node_<depth>_<index>`. */
  datatype NodeKey = NodeKey(depth: int, index: int)

  datatype SyncNode = SyncNode(
    key: NodeKey,
    depth: real,
    glyph: Option<GlyphMarker>,
    isTurningPoint: bool,
    isBifurcation: bool,
    isTerminal: bool,
    stabilityFactor: real,
    compressionFactor: real,
    alignmentOffset: int,
    originalDepth: int,
    radius: real,
    syncStatus: SyncStatus,
    syncProgress: real,
    pulsing: bool)

  datatype SyncLink = SyncLink(
    source: NodeKey,
    target: NodeKey,
    sourceDepth: real,
    targetDepth: real,
    strength: real,
    isBifurcation: bool,
    isTurningPoint: bool)

  datatype RecursionLevel = RecursionLevel(depth: int, nodes: seq<SyncNode>, color: nat)

  const CompressionRatio: real := 12.4
  const DepthColorCount: nat := 10
  const TotalFrames: nat := 100

  // ---------------------------------------------------------------------
  // Nodes
  // ---------------------------------------------------------------------

  /** The number of nodes on level `d`: seven on the last level, `5 - floor(d/3)` before it, never fewer than three. */
  function LevelSize(d: int, target: int): (n: nat)
    requires d >= 1
    ensures n >= 3
    ensures d == target ==> n == 7
    ensures d != target ==> n == MaxI(3, 5 - d / 3)
  {
    MaxI(3, if d == target then 7 else 5 - d / 3)
  }

  /** The glyph a node gets, first match winning. */
  function GlyphFor(target: int, d: int, turning: bool, bifurcation: bool, i: int): (g: Option<GlyphMarker>)
    ensures g == Some(SyncPoint) <==> turning
    ensures g == Some(Bifurcation) <==> !turning && bifurcation
    ensures g == Some(FractalRecursion) <==> !turning && !bifurcation && d == target - 2
    ensures g == Some(TerminalNode) <==> !turning && !bifurcation && d != target - 2 && d == target
    ensures g == Some(StableNode) <==>
      !turning && !bifurcation && d != target - 2 && d != target && d == target - 1 && i % 2 == 0
    ensures g.None? || g.value in {SyncPoint, Bifurcation, FractalRecursion, TerminalNode, StableNode}
  {
    if turning then Some(SyncPoint)
    else if bifurcation then Some(Bifurcation)
    else if d == target - 2 then Some(FractalRecursion)
    else if d == target then Some(TerminalNode)
    else if d == target - 1 && i % 2 == 0 then Some(StableNode)
    else None
  }

  /** Node `i` of level `d` as the generator makes it. */
  function MakeNode(target: int, d: int, i: int): (n: SyncNode)
    requires 1 <= d && target >= 1
    ensures n.key == NodeKey(d, i) && n.depth == d as real && n.originalDepth == d
    ensures n.isTerminal <==> d == target
    ensures n.syncStatus == Synced <==> d == target
  {
    var size := LevelSize(d, target);
    var turning := (d % 3 == 0 && i % 2 == 0) || (d == target && i == size / 2);
    var bifurcation := d % 4 == 2 && i == 1;
    var terminal := d == target;
    SyncNode(
      NodeKey(d, i), d as real, GlyphFor(target, d, turning, bifurcation, i),
      turning, bifurcation, terminal,
      if turning then 0.95 else if bifurcation then 0.6 else if terminal then 0.85 else 0.75,
      CompressionRatio / target as real * d as real,
      target - d, d, 60.0 + d as real * 35.0,
      if d == target then Synced else if d < target then Pending else Overrun,
      0.0, false)
  }

  function Level(target: int, d: int): (ns: seq<SyncNode>)
    requires 1 <= d && target >= 1
    ensures |ns| == LevelSize(d, target)
    ensures forall i :: 0 <= i < |ns| ==> ns[i] == MakeNode(target, d, i)
  {
    seq(LevelSize(d, target), i requires 0 <= i => MakeNode(target, d, i))
  }

  /** The nodes of levels 1..d in generation order. */
  function NodesThrough(target: int, d: nat): (ns: seq<SyncNode>)
    requires target >= 1
    ensures forall k :: 0 <= k < |ns| ==> 1 <= ns[k].key.depth <= d && ns[k].originalDepth == ns[k].key.depth
    ensures forall k :: 0 <= k < |ns| ==> ns[k] == MakeNode(target, ns[k].key.depth, ns[k].key.index)
  {
    if d == 0 then [] else NodesThrough(target, d - 1) + Level(target, d)
  }

  /** `generateRecursiveStructure`, node part: levels 1..T, nodes pushed level by level. */
  method GenerateNodes(target: nat) returns (nodes: seq<SyncNode>, levels: seq<RecursionLevel>)
    requires target >= 1
    ensures nodes == NodesThrough(target, target)
    ensures |levels| == target
    ensures forall d :: 1 <= d <= target ==>
      levels[d - 1] == RecursionLevel(d, Level(target, d), (d - 1) % DepthColorCount)
  {
    nodes := [];
    levels := [];
    for depth := 1 to target + 1
      invariant nodes == NodesThrough(target, depth - 1)
      invariant |levels| == depth - 1
      invariant forall d :: 1 <= d < depth ==> levels[d - 1] == RecursionLevel(d, Level(target, d), (d - 1) % DepthColorCount)
    {
      var levelNodes: seq<SyncNode> := [];
      var size := LevelSize(depth, target);
      for i := 0 to size
        invariant levelNodes == Level(target, depth)[..i]
        invariant nodes == NodesThrough(target, depth - 1) + levelNodes
      {
        var node := MakeNode(target, depth, i);
        nodes := nodes + [node];
        levelNodes := levelNodes + [node];
      }
      assert levelNodes == Level(target, depth);
      levels := levels + [RecursionLevel(depth, levelNodes, (depth - 1) % DepthColorCount)];
    }
  }

  /** No two generated nodes share an id. */
  lemma {:induction false} NodeKeysUnique(target: int, d: nat)
    requires target >= 1
    ensures forall a, b :: 0 <= a < b < |NodesThrough(target, d)| ==>
      NodesThrough(target, d)[a].key != NodesThrough(target, d)[b].key
  {
    if d > 0 {
      NodeKeysUnique(target, d - 1);
      var prev := NodesThrough(target, d - 1);
      var ns := NodesThrough(target, d);
      forall a, b | 0 <= a < b < |ns|
        ensures ns[a].key != ns[b].key
      {
        if b >= |prev| {
          if a >= |prev| {
            assert ns[a].key.index == a - |prev| && ns[b].key.index == b - |prev|;
          } else {
            assert ns[a] == prev[a] && ns[a].key.depth <= d - 1 && ns[b].key.depth == d;
          }
        } else {
          assert ns[a] == prev[a] && ns[b] == prev[b];
        }
      }
    }
  }

  /** The status is 'synced' exactly on the last level, 'pending' elsewhere; 'overrun' never occurs. */
  lemma {:induction false} StatusNeverOverrun(target: int)
    requires target >= 1
    ensures forall k :: 0 <= k < |NodesThrough(target, target)| ==>
      var n := NodesThrough(target, target)[k];
      n.syncStatus != Overrun && (n.syncStatus == Synced <==> n.key.depth == target)
  {
  }

  /** What the glyph choice means for a generated node. */
  lemma {:induction false} GlyphPlacement(target: int, d: int, i: int)
    requires 1 <= d && target >= 1
    ensures var n := MakeNode(target, d, i);
      (n.glyph == Some(TerminalNode) ==> d == target) &&
      (n.glyph == Some(FractalRecursion) ==> d == target - 2) &&
      (n.glyph == Some(StableNode) ==> d == target - 1 && i % 2 == 0) &&
      (n.glyph == Some(Bifurcation) ==> d % 4 == 2 && i == 1) &&
      (n.glyph == Some(SyncPoint) <==> n.isTurningPoint)
  {
  }

  // ---------------------------------------------------------------------
  // Links
  // ---------------------------------------------------------------------

  /** How many links a source makes: one or two by the draw, never more than the next level holds. */
  function LinkCount(target: int, d: int, draw: real): (c: nat)
    requires 1 <= d && 0.0 <= draw < 1.0
    ensures 1 <= c <= 2 && c <= LevelSize(d + 1, target)
  {
    MinI(1 + (draw * 2.0).Floor, LevelSize(d + 1, target))
  }

  /** Link `k` from node `i` of level `d`: to node `(i + k) mod size` of the next level. */
  function MakeLink(target: int, d: int, i: int, k: int): (l: SyncLink)
    requires 1 <= d && target >= 1
    ensures l.source == NodeKey(d, i) && l.target == NodeKey(d + 1, (i + k) % LevelSize(d + 1, target))
    ensures l.targetDepth == l.sourceDepth + 1.0
  {
    var source := MakeNode(target, d, i);
    var next := MakeNode(target, d + 1, (i + k) % LevelSize(d + 1, target));
    SyncLink(source.key, next.key, source.depth, next.depth, 0.7 - (d - 1) as real * 0.05,
             source.isBifurcation || next.isBifurcation, source.isTurningPoint || next.isTurningPoint)
  }

  /** The links from node `i` of level `d`. */
  function LinksFrom(target: int, d: int, i: int, draw: real): (ls: seq<SyncLink>)
    requires 1 <= d && target >= 1 && 0.0 <= draw < 1.0
    ensures |ls| == LinkCount(target, d, draw)
    ensures forall k :: 0 <= k < |ls| ==> ls[k] == MakeLink(target, d, i, k)
  {
    seq(LinkCount(target, d, draw), k requires 0 <= k => MakeLink(target, d, i, k))
  }

  /** A source's links go to distinct nodes. */
  lemma {:induction false} LinksFromDistinct(target: int, d: int, i: int, draw: real)
    requires 1 <= d && target >= 1 && 0.0 <= draw < 1.0 && i >= 0
    ensures var ls := LinksFrom(target, d, i, draw);
      forall a, b :: 0 <= a < b < |ls| ==> ls[a].target != ls[b].target
  {
    var ls := LinksFrom(target, d, i, draw);
    var size := LevelSize(d + 1, target);
    if |ls| == 2 {
      assert (i + 0) % size != (i + 1) % size by {
        assert size >= 3;
      }
    }
  }

  ghost predicate DrawsOk(draw: (int, int) -> real)
  {
    forall d, i :: 0.0 <= draw(d, i) < 1.0
  }

  /** The links from the first `i` nodes of level `d`. */
  function LevelLinks(target: int, d: int, i: nat, draw: (int, int) -> real): seq<SyncLink>
    requires 1 <= d && target >= 1 && DrawsOk(draw)
  {
    if i == 0 then [] else LevelLinks(target, d, i - 1, draw) + LinksFrom(target, d, i - 1, draw(d, i - 1))
  }

  /** The links from levels 1..d. */
  function LinksThrough(target: int, d: nat, draw: (int, int) -> real): seq<SyncLink>
    requires target >= 1 && DrawsOk(draw)
  {
    if d == 0 then [] else LinksThrough(target, d - 1, draw) + LevelLinks(target, d, LevelSize(d, target), draw)
  }

  /** The inner loop of the link generation: the links from one source. */
  method SourceLinks(target: nat, d: nat, source: nat, draw: real) returns (links: seq<SyncLink>)
    requires 1 <= d && target >= 1 && 0.0 <= draw < 1.0
    ensures links == LinksFrom(target, d, source, draw)
  {
    links := [];
    var count := LinkCount(target, d, draw);
    for k := 0 to count
      invariant links == LinksFrom(target, d, source, draw)[..k]
    {
      links := links + [MakeLink(target, d, source, k)];
    }
  }

  /**
   * `generateRecursiveStructure`, link part: every level but the last links
   * each of its nodes to the next level. `draw(d, i)` is the draw node `i`
   * of level `d` makes.
   */
  method GenerateLinks(target: nat, draw: (int, int) -> real) returns (links: seq<SyncLink>)
    requires target >= 1 && DrawsOk(draw)
    ensures links == LinksThrough(target, target - 1, draw)
  {
    links := [];
    for d := 1 to target
      invariant links == LinksThrough(target, d - 1, draw)
    {
      var fromLevel := LevelLinksOf(target, d, draw);
      links := links + fromLevel;
    }
  }

  /** The middle loop of the link generation: the links from every node of one level. */
  method LevelLinksOf(target: nat, d: nat, draw: (int, int) -> real) returns (links: seq<SyncLink>)
    requires 1 <= d && target >= 1 && DrawsOk(draw)
    ensures links == LevelLinks(target, d, LevelSize(d, target), draw)
  {
    links := [];
    for source := 0 to LevelSize(d, target)
      invariant links == LevelLinks(target, d, source, draw)
    {
      var fromSource := SourceLinks(target, d, source, draw(d, source));
      links := links + fromSource;
    }
  }

  /** Every link of level `d` leaves level `d` and enters level `d + 1`. */
  lemma {:induction false} LevelLinksAdjacent(target: int, d: int, i: nat, draw: (int, int) -> real)
    requires 1 <= d && target >= 1 && DrawsOk(draw)
    ensures forall l :: l in LevelLinks(target, d, i, draw) ==>
      l.source.depth == d && l.target.depth == d + 1 && 0 <= l.target.index < LevelSize(d + 1, target)
  {
    if i > 0 {
      LevelLinksAdjacent(target, d, i - 1, draw);
    }
  }

  /** Every link goes from some level `k` below `d + 1` to level `k + 1`. */
  lemma {:induction false} LinksAdjacent(target: int, d: nat, draw: (int, int) -> real)
    requires target >= 1 && DrawsOk(draw)
    ensures forall l :: l in LinksThrough(target, d, draw) ==>
      1 <= l.source.depth <= d && l.target.depth == l.source.depth + 1
  {
    if d > 0 {
      LinksAdjacent(target, d - 1, draw);
      LevelLinksAdjacent(target, d, LevelSize(d, target), draw);
    }
  }

  /** No link leaves the last level. */
  lemma {:induction false} LinksStayInside(target: nat, draw: (int, int) -> real)
    requires target >= 1 && DrawsOk(draw)
    ensures forall l :: l in LinksThrough(target, target - 1, draw) ==> l.source.depth < target && l.target.depth <= target
  {
    LinksAdjacent(target, target - 1, draw);
  }

  /**
   * The temporal-bifurcation loop. Its guard compares a local `targetDepth`,
   * which shadows the structure's target, with itself, so the branch is
   * never taken: the nodes and links come back unchanged.
   */
  method TemporalBifurcations(nodes: seq<SyncNode>, links: seq<SyncLink>, draws: seq<real>)
    returns (nodes': seq<SyncNode>, links': seq<SyncLink>)
    requires |draws| == 3
    ensures nodes' == nodes && links' == links
  {
    nodes', links' := nodes, links;
    for i := 0 to 3
      invariant nodes' == nodes && links' == links
    {
      var sourceDepth := 2 + i * 2;
      var targetDepth := sourceDepth + 2 + (draws[i] * 2.0).Floor;
      if targetDepth < targetDepth {
        links' := links' + [SyncLink(NodeKey(sourceDepth, 0), NodeKey(targetDepth, 0),
                                     sourceDepth as real, targetDepth as real, 0.4, true, false)];
      }
    }
  }

  // ---------------------------------------------------------------------
  // Synchronisation
  // ---------------------------------------------------------------------

  /** One console line of the run. */
  datatype SyncMessage =
    | SyncStarting(target: int)
    | StabilizationEngaged
    | BifurcationsAligned
    | CompressionRatioReport
    | AlignmentStabilized
    | SyncComplete
    | AllAligned(target: int)
    | VisualizationReset
    | CompressionAnalysis
    /** `None` stands for the `NaN` an empty node list gives. */
    | AverageCompression(ratio: Option<real>)
    | StabilityAverage(factor: Option<real>)
    | AttentionEfficiency(value: real)

  datatype SyncState = SyncState(
    target: int, nodes: seq<SyncNode>, syncProgress: real, isSyncing: bool, frame: nat,
    messages: seq<SyncMessage>)

  /** `start + p * (goal - start)`. */
  function Interpolate(start: real, goal: real, p: real): real
  {
    start + p * (goal - start)
  }

  /**
   * One node at frame `frame`: a node at the target depth only starts
   * pulsing; any other has its depth and radius moved the fraction
   * `frame / 100` of the way from where they started to the target.
   */
  function SyncNodeAt(target: int, n: SyncNode, frame: nat): (r: SyncNode)
    ensures n.depth == target as real ==> r == n.(pulsing := true)
    ensures n.depth != target as real ==>
      r.depth == Interpolate(n.originalDepth as real, target as real, frame as real / TotalFrames as real) &&
      r.pulsing && r.key == n.key && r.originalDepth == n.originalDepth
  {
    if n.depth == target as real then n.(pulsing := true)
    else
      var p := frame as real / TotalFrames as real;
      var originalRadius := 60.0 + n.originalDepth as real * 35.0;
      var targetRadius := 60.0 + target as real * 35.0;
      n.(radius := Interpolate(originalRadius, targetRadius, p),
         depth := Interpolate(n.originalDepth as real, target as real, p),
         syncProgress := p, pulsing := true)
  }

  function SyncNodes(target: int, ns: seq<SyncNode>, frame: nat): (r: seq<SyncNode>)
    ensures |r| == |ns|
    ensures forall k :: 0 <= k < |ns| ==> r[k] == SyncNodeAt(target, ns[k], frame)
  {
    if ns == [] then [] else [SyncNodeAt(target, ns[0], frame)] + SyncNodes(target, ns[1..], frame)
  }

  /** `startSynchronization`: ignored while a run is going, otherwise the run starts at frame 0. */
  function StartSynchronization(s: SyncState): (r: SyncState)
    ensures s.isSyncing ==> r == s
    ensures !s.isSyncing ==>
      r == s.(isSyncing := true, syncProgress := 0.0, frame := 0, messages := s.messages + [SyncStarting(s.target)])
  {
    if s.isSyncing then s
    else s.(isSyncing := true, syncProgress := 0.0, frame := 0, messages := s.messages + [SyncStarting(s.target)])
  }

  /** The message logged at a frame, if any. */
  function FrameMessages(frame: nat): seq<SyncMessage>
  {
    if frame == 20 then [StabilizationEngaged]
    else if frame == 40 then [BifurcationsAligned]
    else if frame == 60 then [CompressionRatioReport]
    else if frame == 80 then [AlignmentStabilized]
    else []
  }

  /**
   * One timer tick of a run: the frame advances, the nodes move, and at
   * frame 100 the run ends.
   */
  function SyncStep(s: SyncState): (r: SyncState)
    ensures !s.isSyncing ==> r == s
    ensures s.isSyncing ==>
      r.frame == s.frame + 1 && r.nodes == SyncNodes(s.target, s.nodes, s.frame + 1) &&
      r.syncProgress == (s.frame + 1) as real / TotalFrames as real &&
      (r.isSyncing <==> s.frame + 1 < TotalFrames)
  {
    if !s.isSyncing then s
    else
      var frame := s.frame + 1;
      var messages := s.messages + FrameMessages(frame) + (if frame < TotalFrames then [] else [SyncComplete, AllAligned(s.target)]);
      s.(frame := frame, syncProgress := frame as real / TotalFrames as real,
         nodes := SyncNodes(s.target, s.nodes, frame), isSyncing := frame < TotalFrames, messages := messages)
  }

  /** `n` ticks of the timer. */
  function Steps(s: SyncState, n: nat): SyncState
    decreases n
  {
    if n == 0 then s else Steps(SyncStep(s), n - 1)
  }

  lemma {:induction false} StepsLast(s: SyncState, k: nat)
    requires k >= 1
    ensures Steps(s, k) == SyncStep(Steps(s, k - 1))
    decreases k
  {
    if k > 1 {
      StepsLast(SyncStep(s), k - 1);
    }
  }

  /**
   * Where a node that started as `n0` is at frame `frame`: a node already
   * at the target stays there; any other follows the interpolation.
   */
  predicate AtFrame(target: int, n0: SyncNode, n: SyncNode, frame: nat)
  {
    if n0.depth == target as real then
      n == n0.(pulsing := n.pulsing)
    else
      n.originalDepth == n0.originalDepth &&
      n.depth == Interpolate(n0.originalDepth as real, target as real, frame as real / TotalFrames as real)
  }

  /** A run in progress `frame` ticks after it started from `s0`. */
  predicate Following(s0: SyncState, s: SyncState, frame: nat)
  {
    s.target == s0.target && s.frame == frame && (s.isSyncing <==> frame < TotalFrames) &&
    |s.nodes| == |s0.nodes| &&
    forall j :: 0 <= j < |s.nodes| ==> AtFrame(s0.target, s0.nodes[j], s.nodes[j], frame)
  }

  /** A node generated at or below the target, not yet moved. */
  predicate Unmoved(target: int, n: SyncNode)
  {
    n.depth == n.originalDepth as real && n.originalDepth <= target
  }

  /** Short of the end, the interpolation stays below its goal. */
  lemma {:induction false} InterpolateBelow(start: real, goal: real, p: real)
    requires start < goal && 0.0 <= p < 1.0
    ensures Interpolate(start, goal, p) < goal
  {
    var q := 1.0 - p;
    assert q * (goal - start) > 0.0;
    assert p * (goal - start) == (goal - start) - q * (goal - start);
  }

  /** One tick moves a node from one frame of its interpolation to the next. */
  lemma {:induction false} NodeStep(target: int, n0: SyncNode, n: SyncNode, frame: nat)
    requires Unmoved(target, n0) && AtFrame(target, n0, n, frame) && frame < TotalFrames
    ensures AtFrame(target, n0, SyncNodeAt(target, n, frame + 1), frame + 1)
  {
    if n0.depth != target as real {
      InterpolateBelow(n0.originalDepth as real, target as real, frame as real / TotalFrames as real);
    }
  }

  lemma {:induction false} StepFollows(s0: SyncState, s: SyncState, frame: nat)
    requires forall j :: 0 <= j < |s0.nodes| ==> Unmoved(s0.target, s0.nodes[j])
    requires Following(s0, s, frame) && frame < TotalFrames
    ensures Following(s0, SyncStep(s), frame + 1)
  {
    var r := SyncStep(s);
    forall j | 0 <= j < |r.nodes|
      ensures AtFrame(s0.target, s0.nodes[j], r.nodes[j], frame + 1)
    {
      NodeStep(s0.target, s0.nodes[j], s.nodes[j], frame);
    }
  }

  /** Each node generated below the target follows the interpolation frame by frame. */
  lemma {:induction false} SyncFrames(s0: SyncState, k: nat)
    requires !s0.isSyncing
    requires forall j :: 0 <= j < |s0.nodes| ==> Unmoved(s0.target, s0.nodes[j])
    requires k <= TotalFrames
    ensures Following(s0, Steps(StartSynchronization(s0), k), k)
  {
    var start := StartSynchronization(s0);
    if k == 0 {
      forall j | 0 <= j < |s0.nodes|
        ensures AtFrame(s0.target, s0.nodes[j], start.nodes[j], 0)
      {
        assert Interpolate(s0.nodes[j].originalDepth as real, s0.target as real, 0.0) == s0.nodes[j].depth;
      }
    } else {
      SyncFrames(s0, k - 1);
      StepsLast(start, k);
      StepFollows(s0, Steps(start, k - 1), k - 1);
    }
  }

  /** After the 100 ticks of a run every node sits at the target depth and the run has ended. */
  lemma {:induction false} SyncReachesTarget(s0: SyncState)
    requires !s0.isSyncing
    requires forall j :: 0 <= j < |s0.nodes| ==> Unmoved(s0.target, s0.nodes[j])
    ensures var s := Steps(StartSynchronization(s0), TotalFrames);
      !s.isSyncing && |s.nodes| == |s0.nodes| && forall j :: 0 <= j < |s.nodes| ==> s.nodes[j].depth == s0.target as real
  {
    SyncFrames(s0, TotalFrames);
  }

  /** The generator's nodes are unmoved and at or below the target. */
  lemma {:induction false} GeneratedUnmoved(target: int)
    requires target >= 1
    ensures forall j :: 0 <= j < |NodesThrough(target, target)| ==> Unmoved(target, NodesThrough(target, target)[j])
  {
  }

  /**
   * `resetVisualization`: the run stops and the structure is generated
   * afresh for the target depth, levels 1 to the target (none for a target
   * below 1), so every node is back at its original depth.
   */
  function ResetVisualization(s: SyncState): (r: SyncState)
    ensures !r.isSyncing && r.syncProgress == 0.0 && r.target == s.target && r.frame == s.frame
    ensures r.nodes == if s.target >= 1 then NodesThrough(s.target, s.target) else []
    ensures forall j :: 0 <= j < |r.nodes| ==> Unmoved(s.target, r.nodes[j])
    ensures r.messages == s.messages + [VisualizationReset]
  {
    var regenerated := if s.target >= 1 then NodesThrough(s.target, s.target) else [];
    s.(isSyncing := false, syncProgress := 0.0, nodes := regenerated, messages := s.messages + [VisualizationReset])
  }

  /** After a reset a new run again brings every node to the target depth. */
  lemma {:induction false} ResetThenSyncReachesTarget(s: SyncState)
    ensures var s0 := ResetVisualization(s); var r := Steps(StartSynchronization(s0), TotalFrames);
      !r.isSyncing && |r.nodes| == |s0.nodes| && forall j :: 0 <= j < |r.nodes| ==> r.nodes[j].depth == s.target as real
  {
    SyncReachesTarget(ResetVisualization(s));
  }

  const AttentionEfficiencyValue: real := 11.8

  /** The `reduce` over the nodes' compression factors, first to last. */
  function CompressionSum(ns: seq<SyncNode>): real
  {
    if ns == [] then 0.0 else CompressionSum(ns[..|ns| - 1]) + ns[|ns| - 1].compressionFactor
  }

  /** The `reduce` over the nodes' stability factors, first to last. */
  function StabilitySum(ns: seq<SyncNode>): real
  {
    if ns == [] then 0.0 else StabilitySum(ns[..|ns| - 1]) + ns[|ns| - 1].stabilityFactor
  }

  /** A sum over `n` items divided by `n`; `None` is the `NaN` of `0 / 0`. */
  function Mean(sum: real, n: nat): (m: Option<real>)
    ensures m.None? <==> n == 0
    ensures m.Some? ==> m.value * n as real == sum
  {
    if n == 0 then None else Some(sum / n as real)
  }

  /**
   * `showCompressionMetrics`: four console lines, the heading, the mean
   * compression factor, the mean stability factor and the fixed attention
   * efficiency; nothing else changes. Rounding to fixed digits is not
   * modelled.
   */
  function ShowCompressionMetrics(s: SyncState): (r: SyncState)
    ensures r.(messages := s.messages) == s
    ensures r.messages == s.messages + [CompressionAnalysis, AverageCompression(Mean(CompressionSum(s.nodes), |s.nodes|)),
                                        StabilityAverage(Mean(StabilitySum(s.nodes), |s.nodes|)),
                                        AttentionEfficiency(AttentionEfficiencyValue)]
  {
    var avgCompression := Mean(CompressionSum(s.nodes), |s.nodes|);
    var avgStability := Mean(StabilitySum(s.nodes), |s.nodes|);
    s.(messages := s.messages + [CompressionAnalysis, AverageCompression(avgCompression),
                                 StabilityAverage(avgStability), AttentionEfficiency(AttentionEfficiencyValue)])
  }

  /** Factors within bounds sum to within the bounds times the count. */
  lemma {:induction false} SumsWithin(ns: seq<SyncNode>, lo: real, hi: real)
    requires forall k :: 0 <= k < |ns| ==> lo <= ns[k].compressionFactor <= hi
    ensures |ns| as real * lo <= CompressionSum(ns) <= |ns| as real * hi
    decreases |ns|
  {
    if ns != [] {
      SumsWithin(ns[..|ns| - 1], lo, hi);
    }
  }

  lemma {:induction false} StabilitySumsWithin(ns: seq<SyncNode>, lo: real, hi: real)
    requires forall k :: 0 <= k < |ns| ==> lo <= ns[k].stabilityFactor <= hi
    ensures |ns| as real * lo <= StabilitySum(ns) <= |ns| as real * hi
    decreases |ns|
  {
    if ns != [] {
      StabilitySumsWithin(ns[..|ns| - 1], lo, hi);
    }
  }

  /** A mean of a sum between `n * lo` and `n * hi` lies between `lo` and `hi`. */
  lemma {:induction false} MeanWithin(sum: real, n: nat, lo: real, hi: real)
    requires n > 0 && n as real * lo <= sum <= n as real * hi
    ensures lo <= Mean(sum, n).value <= hi
  {
    var m := Mean(sum, n).value;
    assert (m - lo) * n as real == sum - lo * n as real >= 0.0;
    assert (hi - m) * n as real == hi * n as real - sum >= 0.0;
  }

  /** Every generated node has a compression factor in [12.4 / T, 12.4] and a stability factor in [0.6, 0.95]. */
  lemma {:induction false} GeneratedFactors(t: int)
    requires t >= 1
    ensures var ns := NodesThrough(t, t);
      forall k :: 0 <= k < |ns| ==>
        CompressionRatio / t as real <= ns[k].compressionFactor <= CompressionRatio &&
        0.6 <= ns[k].stabilityFactor <= 0.95
  {
    var ns := NodesThrough(t, t);
    var lo := CompressionRatio / t as real;
    forall k | 0 <= k < |ns|
      ensures lo <= ns[k].compressionFactor <= CompressionRatio && 0.6 <= ns[k].stabilityFactor <= 0.95
    {
      MakeNodeFactors(t, ns[k].key.depth, ns[k].key.index);
    }
  }

  lemma {:induction false} MakeNodeFactors(t: int, d: int, i: int)
    requires 1 <= d <= t
    ensures var n := MakeNode(t, d, i);
      CompressionRatio / t as real <= n.compressionFactor <= CompressionRatio &&
      0.6 <= n.stabilityFactor <= 0.95
  {
    var lo := CompressionRatio / t as real;
    assert MakeNode(t, d, i).compressionFactor == lo * d as real;
    assert lo * t as real == CompressionRatio;
    assert lo * d as real <= lo * t as real;
  }

  /**
   * For a freshly generated structure the metrics report a mean compression
   * factor in (0, 12.4] and a mean stability factor in [0.6, 0.95].
   */
  lemma {:induction false} GeneratedMetrics(s: SyncState)
    requires s.target >= 1 && s.nodes == NodesThrough(s.target, s.target)
    ensures var m := ShowCompressionMetrics(s).messages[|s.messages|..];
      m[1].ratio.Some? && 0.0 < m[1].ratio.value <= CompressionRatio &&
      m[2].factor.Some? && 0.6 <= m[2].factor.value <= 0.95
  {
    var t := s.target;
    assert |s.nodes| > 0 by {
      assert |Level(t, t)| >= 3;
    }
    GeneratedFactors(t);
    MetricsWithin(s, CompressionRatio / t as real);
  }

  /** Node factors within bounds give reported means within the same bounds. */
  lemma {:induction false} MetricsWithin(s: SyncState, lo: real)
    requires |s.nodes| > 0 && 0.0 < lo
    requires forall k :: 0 <= k < |s.nodes| ==>
      lo <= s.nodes[k].compressionFactor <= CompressionRatio && 0.6 <= s.nodes[k].stabilityFactor <= 0.95
    ensures var m := ShowCompressionMetrics(s).messages[|s.messages|..];
      m[1].ratio.Some? && lo <= m[1].ratio.value <= CompressionRatio &&
      m[2].factor.Some? && 0.6 <= m[2].factor.value <= 0.95
  {
    var ns := s.nodes;
    SumsWithin(ns, lo, CompressionRatio);
    StabilitySumsWithin(ns, 0.6, 0.95);
    MeanWithin(CompressionSum(ns), |ns|, lo, CompressionRatio);
    MeanWithin(StabilitySum(ns), |ns|, 0.6, 0.95);
    var r := ShowCompressionMetrics(s);
    assert r.messages[|s.messages|..] ==
      [CompressionAnalysis, AverageCompression(Mean(CompressionSum(ns), |ns|)),
       StabilityAverage(Mean(StabilitySum(ns), |ns|)), AttentionEfficiency(AttentionEfficiencyValue)];
  }

  // ---------------------------------------------------------------------
  // Zoom and colours
  // ---------------------------------------------------------------------

  /** `handleZoom`: the product clamped to [0.5, 2.5]. */
  function HandleZoom(zoom: real, factor: real): (r: real)
    ensures 0.5 <= r <= 2.5
    ensures 0.5 <= zoom * factor <= 2.5 ==> r == zoom * factor
  {
    MaxR(0.5, MinR(2.5, zoom * factor))
  }

  /** `getColorForDepth`: the palette index `floor(depth) - 1`, clamped to [0, 9]. */
  function ColorIndexForDepth(depth: real): (k: nat)
    ensures k < DepthColorCount
    ensures 1 <= depth.Floor <= DepthColorCount ==> k == depth.Floor - 1
    ensures depth.Floor < 1 ==> k == 0
    ensures depth.Floor > DepthColorCount ==> k == DepthColorCount - 1
  {
    MaxI(0, MinI(depth.Floor - 1, DepthColorCount - 1))
  }
}
