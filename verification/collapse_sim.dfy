/**
 * The collapse simulator console (`recursive.collapse.sim.tsx`): a
 * sixteen-node network laid out in three rings around an origin, a
 * cascade step that collapses nodes joined to already collapsed ones,
 * observation toggling and a small `.p/` command language.
 *
 * The `Math.random()` values the generator consumes are a finite stream
 * handed in as a sequence; the generator reports `None` when the stream
 * runs dry. Screen coordinates (`Math.cos`/`Math.sin`) are left out.
 */
module CollapseSim {
  import opened Common

  datatype NodeType = Origin | Reasoning | Memory | Attention | Value | Output
  datatype CollapseType = Visible | Latent
  datatype NodeStatus = Active | Collapsed

  /** A network node; `layer` is 0 for the origin, which the source leaves without one. */
  datatype CollapseNode = CollapseNode(
    id: nat,
    kind: NodeType,
    layer: nat,
    radius: real,
    collapseProbability: real,
    collapseType: CollapseType,
    collapsed: bool,
    observed: bool,
    status: NodeStatus)

  datatype EdgeType = Direct | Cross
  datatype Edge = Edge(source: nat, target: nat, strength: real, kind: EdgeType)

  const NodeCount: nat := 16

  // ---------------------------------------------------------------------
  // Generating the network
  // ---------------------------------------------------------------------

  /** Every value of the stream lies in [0, 1), as `Math.random()` promises. */
  predicate UnitDraws(draws: seq<real>)
  {
    forall k :: 0 <= k < |draws| ==> 0.0 <= draws[k] < 1.0
  }

  /** The ring of node `i`: 1 for ids 1-5, 2 for ids 6-11, 3 beyond. */
  function LayerOf(i: nat): nat
  {
    if i == 0 then 0 else if i <= 5 then 1 else if i <= 11 then 2 else 3
  }

  /** A node no simulation has touched yet. */
  predicate Untouched(n: CollapseNode)
  {
    !n.collapsed && !n.observed && n.status == Active
  }

  const OriginNode := CollapseNode(0, Origin, 0, 24.0, 1.0, Visible, false, false, Active)

  /** What the generator promises of node `i >= 1`. */
  predicate RingNode(n: CollapseNode, i: nat)
  {
    n.id == i && n.layer == LayerOf(i) && n.kind != Origin &&
    0.3 <= n.collapseProbability < 0.9 && 16.0 <= n.radius < 22.0 && Untouched(n)
  }

  /**
   * Node `i` from its four draws, in the order the source takes them:
   * the type, the collapse probability, the collapse type and the radius.
   */
  function MakeNode(i: nat, dKind: real, dProb: real, dType: real, dRadius: real): (n: CollapseNode)
    requires 1 <= i
    requires 0.0 <= dKind < 1.0 && 0.0 <= dProb < 1.0 && 0.0 <= dType < 1.0 && 0.0 <= dRadius < 1.0
    ensures RingNode(n, i)
    ensures n.collapseType == Visible <==> dType > 0.5
  {
    var kinds := [Reasoning, Memory, Attention, Value, Output];
    CollapseNode(i, kinds[(dKind * 5.0).Floor], LayerOf(i), 16.0 + dRadius * 6.0,
                 0.3 + dProb * 0.6, if dType > 0.5 then Visible else Latent, false, false, Active)
  }

  /** The sixteen nodes: the origin first, then node `k` at index `k`. */
  predicate NodesShaped(nodes: seq<CollapseNode>)
  {
    |nodes| == NodeCount && nodes[0] == OriginNode &&
    forall k :: 1 <= k < |nodes| ==> RingNode(nodes[k], k)
  }

  method GenerateNodes(draws: seq<real>, pos: nat) returns (ok: bool, nodes: seq<CollapseNode>, next: nat)
    requires UnitDraws(draws)
    ensures ok <==> pos + 4 * (NodeCount - 1) <= |draws|
    ensures ok ==> next == pos + 4 * (NodeCount - 1) && NodesShaped(nodes)
    ensures ok ==> forall k :: 1 <= k < NodeCount ==>
      nodes[k] == MakeNode(k, draws[pos + 4 * (k - 1)], draws[pos + 4 * (k - 1) + 1],
                           draws[pos + 4 * (k - 1) + 2], draws[pos + 4 * (k - 1) + 3])
  {
    if |draws| < pos + 4 * (NodeCount - 1) {
      return false, [], pos;
    }
    nodes := [OriginNode];
    next := pos;
    for i := 1 to NodeCount
      invariant |nodes| == i && next == pos + 4 * (i - 1)
      invariant nodes[0] == OriginNode
      invariant forall k :: 1 <= k < i ==> RingNode(nodes[k], k)
      invariant forall k :: 1 <= k < i ==>
        nodes[k] == MakeNode(k, draws[pos + 4 * (k - 1)], draws[pos + 4 * (k - 1) + 1],
                             draws[pos + 4 * (k - 1) + 2], draws[pos + 4 * (k - 1) + 3])
    {
      nodes := nodes + [MakeNode(i, draws[next], draws[next + 1], draws[next + 2], draws[next + 3])];
      next := next + 4;
    }
    ok := true;
  }

  /** The origin's link to node `i` of the first ring. */
  predicate OriginEdge(e: Edge, i: nat)
  {
    e.source == 0 && e.target == i && e.kind == Direct && 0.7 <= e.strength < 1.0
  }

  predicate LayerOneEdge(e: Edge)
  {
    1 <= e.source <= 5 && 6 <= e.target <= 11 && e.kind == Direct && 0.5 <= e.strength < 0.9
  }

  predicate LayerTwoEdge(e: Edge)
  {
    6 <= e.source <= 11 && 12 <= e.target <= 15 && e.kind == Direct && 0.4 <= e.strength < 0.7
  }

  predicate CrossEdge(e: Edge)
  {
    1 <= e.source <= 15 && 1 <= e.target <= 15 && e.source != e.target &&
    e.kind == Cross && 0.2 <= e.strength < 0.5
  }

  /** How many edges of `es` leave node `i`. */
  function SourceCount(es: seq<Edge>, i: nat): nat
  {
    if es == [] then 0
    else SourceCount(es[..|es| - 1], i) + (if es[|es| - 1].source == i then 1 else 0)
  }

  lemma {:induction false} SourceCountAppend(a: seq<Edge>, b: seq<Edge>, i: nat, x: nat)
    requires forall e :: e in b ==> e.source == i
    ensures SourceCount(a + b, x) == SourceCount(a, x) + (if x == i then |b| else 0)
  {
    if b != [] {
      var b' := b[..|b| - 1];
      assert (a + b)[..|a + b| - 1] == a + b';
      assert forall e :: e in b' ==> e in b;
      SourceCountAppend(a, b', i, x);
    } else {
      assert a + b == a;
    }
  }

  method OriginEdges(draws: seq<real>, pos: nat) returns (ok: bool, es: seq<Edge>, next: nat)
    requires UnitDraws(draws)
    ensures ok <==> pos + 5 <= |draws|
    ensures ok ==> next == pos + 5 && |es| == 5 && forall k :: 0 <= k < 5 ==> OriginEdge(es[k], k + 1)
  {
    if |draws| < pos + 5 {
      return false, [], pos;
    }
    es := [];
    next := pos;
    for i := 1 to 6
      invariant |es| == i - 1 && next == pos + i - 1
      invariant forall k :: 0 <= k < i - 1 ==> OriginEdge(es[k], k + 1)
    {
      es := es + [Edge(0, i, 0.7 + draws[next] * 0.3, Direct)];
      next := next + 1;
    }
    ok := true;
  }

  /** The one or two links node `i` of the first ring makes into the second. */
  method LayerOneLinks(draws: seq<real>, pos: nat, i: nat) returns (ok: bool, es: seq<Edge>, next: nat)
    requires UnitDraws(draws) && 1 <= i <= 5 && pos <= |draws|
    ensures pos <= next <= |draws|
    ensures ok ==> 1 <= |es| <= 2 && forall e :: e in es ==> e.source == i && LayerOneEdge(e)
  {
    if pos >= |draws| {
      return false, [], pos;
    }
    var connections := 1 + (draws[pos] * 2.0).Floor;
    es := [];
    next := pos + 1;
    for j := 0 to connections
      invariant pos < next <= |draws| && |es| == j
      invariant forall e :: e in es ==> e.source == i && LayerOneEdge(e)
    {
      if |draws| < next + 2 {
        return false, es, next;
      }
      es := es + [Edge(i, 6 + (draws[next] * 6.0).Floor, 0.5 + draws[next + 1] * 0.4, Direct)];
      next := next + 2;
    }
    ok := true;
  }

  method LayerOneEdges(draws: seq<real>, pos: nat) returns (ok: bool, es: seq<Edge>, next: nat)
    requires UnitDraws(draws) && pos <= |draws|
    ensures pos <= next <= |draws|
    ensures ok ==> forall e :: e in es ==> LayerOneEdge(e)
    ensures ok ==> forall i :: 1 <= i <= 5 ==> 1 <= SourceCount(es, i) <= 2
  {
    es := [];
    next := pos;
    for i := 1 to 6
      invariant pos <= next <= |draws|
      invariant forall e :: e in es ==> LayerOneEdge(e) && e.source < i
      invariant forall x :: 1 <= x < i ==> 1 <= SourceCount(es, x) <= 2
      invariant forall x :: x >= i ==> SourceCount(es, x) == 0
    {
      var linked, links, after := LayerOneLinks(draws, next, i);
      if !linked {
        return false, es, next;
      }
      forall x | true
        ensures SourceCount(es + links, x) == SourceCount(es, x) + (if x == i then |links| else 0)
      {
        SourceCountAppend(es, links, i, x);
      }
      es := es + links;
      next := after;
    }
    ok := true;
  }

  /** Edges whose sources strictly increase: no source appears twice. */
  predicate SourcesIncreasing(es: seq<Edge>)
  {
    forall a, b :: 0 <= a < b < |es| ==> es[a].source < es[b].source
  }

  /**
   * Each node of the second ring links on with a draw above 0.3; the
   * source's inner loop runs `connections` times, and `connections` is 0
   * or 1, so it is written here as a conditional.
   */
  method LayerTwoEdges(draws: seq<real>, pos: nat) returns (ok: bool, es: seq<Edge>, next: nat)
    requires UnitDraws(draws) && pos <= |draws|
    ensures pos <= next <= |draws|
    ensures ok ==> (forall e :: e in es ==> LayerTwoEdge(e)) && SourcesIncreasing(es)
  {
    es := [];
    next := pos;
    for i := 6 to 12
      invariant pos <= next <= |draws|
      invariant forall e :: e in es ==> LayerTwoEdge(e) && e.source < i
      invariant SourcesIncreasing(es)
    {
      if next >= |draws| {
        return false, es, next;
      }
      var connections := if draws[next] > 0.3 then 1 else 0;
      next := next + 1;
      if connections == 1 {
        if |draws| < next + 2 {
          return false, es, next;
        }
        es := es + [Edge(i, 12 + (draws[next] * 4.0).Floor, 0.4 + draws[next + 1] * 0.3, Direct)];
        next := next + 2;
      }
    }
    ok := true;
  }

  /** The five cross links; a target equal to its source is drawn again. */
  method CrossEdges(draws: seq<real>, pos: nat) returns (ok: bool, es: seq<Edge>, next: nat)
    requires UnitDraws(draws) && pos <= |draws|
    ensures pos <= next <= |draws|
    ensures ok ==> |es| == 5 && forall e :: e in es ==> CrossEdge(e)
  {
    es := [];
    next := pos;
    for i := 0 to 5
      invariant pos <= next <= |draws| && |es| == i
      invariant forall e :: e in es ==> CrossEdge(e)
    {
      if |draws| < next + 2 {
        return false, es, next;
      }
      var source := 1 + (draws[next] * 15.0).Floor;
      var target := 1 + (draws[next + 1] * 15.0).Floor;
      next := next + 2;
      while target == source
        invariant pos <= next <= |draws| && 1 <= target <= 15
        decreases |draws| - next
      {
        if next >= |draws| {
          return false, es, next;
        }
        target := 1 + (draws[next] * 15.0).Floor;
        next := next + 1;
      }
      if next >= |draws| {
        return false, es, next;
      }
      es := es + [Edge(source, target, 0.2 + draws[next] * 0.3, Cross)];
      next := next + 1;
    }
    ok := true;
  }

  /** The generated network, its edges kept in the four groups the source builds in turn. */
  datatype Network = Network(
    nodes: seq<CollapseNode>,
    originEdges: seq<Edge>,
    layerOneEdges: seq<Edge>,
    layerTwoEdges: seq<Edge>,
    crossEdges: seq<Edge>)

  /** The `edges` array, in the order the source pushes onto it. */
  function Edges(n: Network): seq<Edge>
  {
    n.originEdges + n.layerOneEdges + n.layerTwoEdges + n.crossEdges
  }

  predicate WellFormedNetwork(n: Network)
  {
    NodesShaped(n.nodes) &&
    |n.originEdges| == 5 && (forall k :: 0 <= k < 5 ==> OriginEdge(n.originEdges[k], k + 1)) &&
    (forall e :: e in n.layerOneEdges ==> LayerOneEdge(e)) &&
    (forall i :: 1 <= i <= 5 ==> 1 <= SourceCount(n.layerOneEdges, i) <= 2) &&
    (forall e :: e in n.layerTwoEdges ==> LayerTwoEdge(e)) && SourcesIncreasing(n.layerTwoEdges) &&
    |n.crossEdges| == 5 && (forall e :: e in n.crossEdges ==> CrossEdge(e))
  }

  /** `generateNetwork`, taking its random values from `draws` in call order. */
  method GenerateNetwork(draws: seq<real>) returns (r: Option<Network>)
    requires UnitDraws(draws)
    ensures |draws| < 4 * (NodeCount - 1) ==> r.None?
    ensures r.Some? ==> WellFormedNetwork(r.value)
  {
    var ok, nodes, next := GenerateNodes(draws, 0);
    if !ok {
      return None;
    }
    var ok1, origin, n1 := OriginEdges(draws, next);
    if !ok1 {
      return None;
    }
    var ok2, layerOne, n2 := LayerOneEdges(draws, n1);
    if !ok2 {
      return None;
    }
    var ok3, layerTwo, n3 := LayerTwoEdges(draws, n2);
    if !ok3 {
      return None;
    }
    var ok4, cross, _ := CrossEdges(draws, n3);
    if !ok4 {
      return None;
    }
    return Some(Network(nodes, origin, layerOne, layerTwo, cross));
  }

  /** Every generated edge joins two distinct nodes of the network, with a strength in (0, 1). */
  lemma {:induction false} NetworkEdgesValid(n: Network)
    requires WellFormedNetwork(n)
    ensures forall e :: e in Edges(n) ==>
      e.source < NodeCount && e.target < NodeCount && e.source != e.target && 0.0 < e.strength < 1.0
  {
    forall e | e in Edges(n)
      ensures e.source < NodeCount && e.target < NodeCount && e.source != e.target && 0.0 < e.strength < 1.0
    {
      if e in n.originEdges {
        var k :| 0 <= k < |n.originEdges| && n.originEdges[k] == e;
        assert OriginEdge(n.originEdges[k], k + 1);
      }
    }
  }

  // ---------------------------------------------------------------------
  // Simulation state
  // ---------------------------------------------------------------------

  datatype ObserverMode = Schrodinger | Deterministic
  datatype SystemStatus = Initializing | Ready | Simulating | Paused | Complete | Stable

  /** Console lines, one constructor per message the console prints. */
  datatype SimMessage =
    | Input(command: string)
    | InitialCollapse
    | PropagationInitiated
    | SimulationPaused
    | NetworkRestored
    | ReadyForCascade
    | CollapseTriggered(id: int, collapseType: CollapseType, probability: real)
    | HighConfidence(kind: NodeType)
    | CompleteCollapse
    | PropagationComplete(stable: int)
    | ObserveRequest(id: int)
    | NowObserved(id: int)
    | ReleaseRequest(id: int)
    | Released(id: int)
    | AllObserved
    | ThresholdUpdated(threshold: real)
    | ModeUpdated(mode: ObserverMode)
    | InvalidConfig
    | Unrecognized

  datatype SimState = SimState(
    nodes: seq<CollapseNode>,
    edges: seq<Edge>,
    collapsed: seq<int>,
    observed: seq<int>,
    activeNode: Option<int>,
    isSimulating: bool,
    status: SystemStatus,
    threshold: real,
    mode: ObserverMode,
    console: seq<SimMessage>)

  /** The state once the generated network is in place. */
  function Initial(n: Network): SimState
  {
    SimState(n.nodes, Edges(n), [], [], None, false, Initializing, 0.42, Schrodinger, [])
  }

  /** The boot messages have been printed: the console is ready. */
  function BootComplete(s: SimState): SimState
  {
    s.(status := Ready)
  }

  /**
   * What every handler keeps: node `k` sits at index `k`, a node's flags
   * agree with the collapsed and observed lists, neither list repeats an
   * id, edges join nodes of the network with strengths in [0, 1], and the
   * threshold stays in [0, 1].
   */
  ghost predicate Inv(s: SimState)
  {
    |s.nodes| == NodeCount &&
    (forall k :: 0 <= k < |s.nodes| ==> s.nodes[k].id == k) &&
    (forall k :: 0 <= k < |s.nodes| ==> (s.nodes[k].collapsed <==> k in s.collapsed)) &&
    (forall k :: 0 <= k < |s.nodes| ==> (s.nodes[k].status == Collapsed <==> s.nodes[k].collapsed)) &&
    (forall k :: 0 <= k < |s.nodes| ==> (s.nodes[k].observed <==> k in s.observed)) &&
    (forall x :: x in s.collapsed ==> 0 <= x < |s.nodes|) && Distinct(s.collapsed) &&
    (forall x :: x in s.observed ==> 0 <= x < |s.nodes|) && Distinct(s.observed) &&
    (forall e :: e in s.edges ==> e.source < NodeCount && e.target < NodeCount && 0.0 <= e.strength <= 1.0) &&
    0.0 <= s.threshold <= 1.0
  }

  lemma {:induction false} InitialInv(n: Network)
    requires WellFormedNetwork(n)
    ensures Inv(Initial(n)) && Inv(BootComplete(Initial(n)))
  {
    NetworkEdgesValid(n);
  }

  // ---------------------------------------------------------------------
  // Start, stop and reset
  // ---------------------------------------------------------------------

  /** `stopSimulation`. */
  function Stop(s: SimState): (r: SimState)
    ensures !r.isSimulating && r.status == Paused
    ensures r.nodes == s.nodes && r.collapsed == s.collapsed && r.observed == s.observed
  {
    s.(isSimulating := false, status := Paused, console := s.console + [SimulationPaused])
  }

  /** The node as the network generated it: no collapse, no observer. */
  function Restored(n: CollapseNode): (r: CollapseNode)
    ensures Untouched(r)
    ensures r.id == n.id && r.kind == n.kind && r.layer == n.layer && r.radius == n.radius
    ensures r.collapseProbability == n.collapseProbability && r.collapseType == n.collapseType
  {
    n.(collapsed := false, observed := false, status := Active)
  }

  function RestoreAll(nodes: seq<CollapseNode>): (r: seq<CollapseNode>)
    ensures |r| == |nodes| && forall k :: 0 <= k < |r| ==> r[k] == Restored(nodes[k])
  {
    seq(|nodes|, k requires 0 <= k < |nodes| => Restored(nodes[k]))
  }

  /** `resetSimulation`: both lists emptied, every node back to its generated state. */
  function Reset(s: SimState): (r: SimState)
    ensures r.collapsed == [] && r.observed == []
    ensures !r.isSimulating && r.status == Ready
    ensures |r.nodes| == |s.nodes| && forall k :: 0 <= k < |r.nodes| ==> Untouched(r.nodes[k])
    ensures r.edges == s.edges && r.threshold == s.threshold && r.mode == s.mode
  {
    s.(isSimulating := false, status := Ready, collapsed := [], observed := [],
       nodes := RestoreAll(s.nodes), console := s.console + [NetworkRestored, ReadyForCascade])
  }

  /** Collapsing a node: its flag and its status. */
  function CollapseAt(n: CollapseNode): CollapseNode
  {
    n.(collapsed := true, status := Collapsed)
  }

  /**
   * `startSimulation`. Every branch reads the state from before the call:
   * after a complete collapse the reset runs, and since the old collapsed
   * list is not empty no origin collapse follows, so the console ends up
   * reset and not simulating.
   */
  function Start(s: SimState): (r: SimState)
    requires |s.nodes| > 0
    ensures |r.nodes| == |s.nodes|
    ensures s.isSimulating ==> r == s
    ensures !s.isSimulating && |s.collapsed| >= |s.nodes| ==>
      !r.isSimulating && r.status == Ready && r.collapsed == [] && r.observed == [] && r == Reset(s)
    ensures !s.isSimulating && s.collapsed == [] ==>
      r.isSimulating && r.status == Simulating && r.collapsed == [0] && r.nodes[0].collapsed &&
      r.nodes[1..] == s.nodes[1..]
    ensures !s.isSimulating && s.collapsed == [] ==>
      r == s.(isSimulating := true, status := Simulating, nodes := s.nodes[0 := CollapseAt(s.nodes[0])],
              collapsed := [0], console := s.console + [InitialCollapse, PropagationInitiated])
    ensures !s.isSimulating && 0 < |s.collapsed| < |s.nodes| ==> r == s.(isSimulating := true, status := Simulating)
  {
    if s.isSimulating then s
    else
      var started := s.(isSimulating := true, status := Simulating);
      var reset := if |s.collapsed| >= |s.nodes| then Reset(started) else started;
      if |s.collapsed| == 0 then
        reset.(nodes := s.nodes[0 := CollapseAt(s.nodes[0])], collapsed := [0],
               console := reset.console + [InitialCollapse, PropagationInitiated])
      else reset
  }

  // ---------------------------------------------------------------------
  // The cascade step
  // ---------------------------------------------------------------------

  /** Whether `e` joins node `id` to a node of `collapsed`, in either direction. */
  predicate Touches(e: Edge, id: int, collapsed: seq<int>)
  {
    (e.source == id && e.target as int in collapsed) || (e.target == id && e.source as int in collapsed)
  }

  /** `edges.some(...)`: node `id` has an edge to a collapsed node. */
  predicate Linked(edges: seq<Edge>, id: int, collapsed: seq<int>)
  {
    exists k :: 0 <= k < |edges| && Touches(edges[k], id, collapsed)
  }

  /** The strengths of the edges joining `id` to collapsed nodes, multiplied in edge order. */
  function LinkProduct(edges: seq<Edge>, id: int, collapsed: seq<int>): real
  {
    if edges == [] then 1.0
    else
      var last := edges[|edges| - 1];
      LinkProduct(edges[..|edges| - 1], id, collapsed) * (if Touches(last, id, collapsed) then last.strength else 1.0)
  }

  /** Observation in schrodinger mode: latent collapses become likelier, visible ones less likely. */
  function ObservationFactor(s: SimState, n: CollapseNode): real
  {
    if s.mode == Schrodinger && n.id as int in s.observed then
      (if n.collapseType == Latent then 1.5 else 0.7)
    else 1.0
  }

  /** The adjusted probability a step computes for node `n`. */
  function Adjusted(s: SimState, n: CollapseNode): real
  {
    n.collapseProbability * LinkProduct(s.edges, n.id, s.collapsed) * ObservationFactor(s, n)
  }

  /** Node `n` collapses in this step. */
  predicate Fires(s: SimState, n: CollapseNode)
  {
    !n.collapsed && n.id as int !in s.collapsed && Linked(s.edges, n.id, s.collapsed) &&
    Adjusted(s, n) > s.threshold
  }

  /** The ids of the first `k` nodes that fire, in node order. */
  function FiredIds(s: SimState, k: nat): seq<int>
    requires k <= |s.nodes|
  {
    if k == 0 then []
    else FiredIds(s, k - 1) + (if Fires(s, s.nodes[k - 1]) then [s.nodes[k - 1].id as int] else [])
  }

  /** The lines logged for a node that fires. */
  function FireMessages(s: SimState, n: CollapseNode): seq<SimMessage>
  {
    var p := Adjusted(s, n);
    [CollapseTriggered(n.id, n.collapseType, p)] + (if p > 0.7 then [HighConfidence(n.kind)] else [])
  }

  /** The lines logged for the first `k` nodes. */
  function FiredLog(s: SimState, k: nat): seq<SimMessage>
    requires k <= |s.nodes|
  {
    if k == 0 then []
    else FiredLog(s, k - 1) + (if Fires(s, s.nodes[k - 1]) then FireMessages(s, s.nodes[k - 1]) else [])
  }

  /** `findIndex` on the node id: the first node carrying `id`, or -1. */
  function IndexOfId(nodes: seq<CollapseNode>, id: int): (k: int)
    ensures -1 <= k < |nodes|
    ensures k >= 0 ==> nodes[k].id == id && forall j :: 0 <= j < k ==> nodes[j].id != id
    ensures k == -1 ==> forall j :: 0 <= j < |nodes| ==> nodes[j].id != id
  {
    if nodes == [] then -1
    else if nodes[0].id == id then 0
    else
      var k := IndexOfId(nodes[1..], id);
      if k == -1 then -1 else k + 1
  }

  function MarkOne(nodes: seq<CollapseNode>, id: int): seq<CollapseNode>
  {
    var k := IndexOfId(nodes, id);
    if k == -1 then nodes else nodes[k := CollapseAt(nodes[k])]
  }

  /** The nodes after marking each id of `ids` collapsed, in turn. */
  function MarkAll(nodes: seq<CollapseNode>, ids: seq<int>): seq<CollapseNode>
  {
    if ids == [] then nodes else MarkOne(MarkAll(nodes, ids[..|ids| - 1]), ids[|ids| - 1])
  }

  /**
   * `processCollapseStep` at animation frame `frame`. With nothing
   * collapsing after frame 5 the cascade ends: complete when no node was
   * left standing, stable after frame 15 otherwise.
   */
  function CollapseStep(s: SimState, frame: nat): (r: SimState)
    ensures r.edges == s.edges && r.observed == s.observed
    ensures r.threshold == s.threshold && r.mode == s.mode
    ensures |r.collapsed| >= |s.collapsed| && r.collapsed[..|s.collapsed|] == s.collapsed
  {
    var fired := FiredIds(s, |s.nodes|);
    var logged := s.(console := s.console + FiredLog(s, |s.nodes|));
    var marked := if |fired| > 0 then logged.(nodes := MarkAll(s.nodes, fired), collapsed := s.collapsed + fired) else logged;
    if |fired| == 0 && frame > 5 then
      var remaining := |s.nodes| - |s.collapsed|;
      if remaining == 0 then
        Stop(marked.(console := marked.console + [CompleteCollapse])).(status := Complete)
      else if frame > 15 then
        Stop(marked.(console := marked.console + [PropagationComplete(remaining)])).(status := Stable)
      else marked
    else marked
  }

  /** `adjustedProb` after the strength loop: `base` times each joining edge's strength. */
  method Accumulate(base: real, edges: seq<Edge>, id: int, collapsed: seq<int>) returns (p: real)
    ensures p == base * LinkProduct(edges, id, collapsed)
  {
    p := base;
    for e := 0 to |edges|
      invariant p == base * LinkProduct(edges[..e], id, collapsed)
    {
      assert edges[..e + 1][..e] == edges[..e];
      if Touches(edges[e], id, collapsed) {
        p := p * edges[e].strength;
      }
    }
    assert edges[..|edges|] == edges;
  }

  /** The `forEach` over the nodes: which fire, and what they log. */
  method ScanNodes(s: SimState) returns (fired: seq<int>, log: seq<SimMessage>)
    ensures fired == FiredIds(s, |s.nodes|) && log == FiredLog(s, |s.nodes|)
  {
    fired := [];
    log := [];
    for k := 0 to |s.nodes|
      invariant fired == FiredIds(s, k) && log == FiredLog(s, k)
    {
      var f, l := ScanNode(s, s.nodes[k]);
      fired := fired + f;
      log := log + l;
    }
  }

  /** One pass of the `forEach` body: the id the node adds and the lines it logs. */
  method ScanNode(s: SimState, node: CollapseNode) returns (fired: seq<int>, log: seq<SimMessage>)
    ensures fired == (if Fires(s, node) then [node.id as int] else [])
    ensures log == (if Fires(s, node) then FireMessages(s, node) else [])
  {
    fired, log := [], [];
    if !node.collapsed && node.id as int !in s.collapsed {
      var linked := exists j :: 0 <= j < |s.edges| && Touches(s.edges[j], node.id, s.collapsed);
      if linked {
        var adjusted := Accumulate(node.collapseProbability, s.edges, node.id, s.collapsed);
        if s.mode == Schrodinger && node.id as int in s.observed {
          if node.collapseType == Latent {
            adjusted := adjusted * 1.5;
          } else {
            adjusted := adjusted * 0.7;
          }
        }
        assert adjusted == Adjusted(s, node);
        if adjusted > s.threshold {
          fired := [node.id as int];
          log := [CollapseTriggered(node.id, node.collapseType, adjusted)];
          if adjusted > 0.7 {
            log := log + [HighConfidence(node.kind)];
          }
        }
      }
    }
  }

  /** The `forEach` over the fired ids, each marking the node `findIndex` finds. */
  method MarkNodes(nodes: seq<CollapseNode>, fired: seq<int>) returns (marked: seq<CollapseNode>)
    ensures marked == MarkAll(nodes, fired)
  {
    marked := nodes;
    for i := 0 to |fired|
      invariant marked == MarkAll(nodes, fired[..i])
    {
      assert fired[..i + 1][..i] == fired[..i];
      var index := IndexOfId(marked, fired[i]);
      if index != -1 {
        marked := marked[index := CollapseAt(marked[index])];
      }
    }
    assert fired[..|fired|] == fired;
  }

  method ProcessCollapseStep(s: SimState, frame: nat) returns (r: SimState)
    ensures r == CollapseStep(s, frame)
  {
    var fired, log := ScanNodes(s);
    r := s.(console := s.console + log);
    if |fired| > 0 {
      var nodes := MarkNodes(s.nodes, fired);
      r := r.(nodes := nodes, collapsed := s.collapsed + fired);
    }
    if |fired| == 0 && frame > 5 {
      var remaining := |s.nodes| - |s.collapsed|;
      if remaining == 0 {
        r := Stop(r.(console := r.console + [CompleteCollapse])).(status := Complete);
      } else if frame > 15 {
        r := Stop(r.(console := r.console + [PropagationComplete(remaining)])).(status := Stable);
      }
    }
  }

  // ---------------------------------------------------------------------
  // The animation frame loop
  // ---------------------------------------------------------------------

  /** The speed slider runs from 0.5 to 3 in steps of 0.5: `halves` is the speed in half steps. */
  predicate SliderSpeed(halves: nat)
  {
    1 <= halves <= 6
  }

  /** `30 / simulationSpeed`: for every slider speed a whole number of frames, from 10 to 60. */
  function FramesToSkip(halves: nat): (n: nat)
    requires SliderSpeed(halves)
    ensures 10 <= n <= 60 && n * halves == 60
  {
    60 / halves
  }

  /** What one animation frame leaves: the state, the frame counter, and whether the next frame was requested. */
  datatype Frame = Frame(state: SimState, counter: nat, rescheduled: bool)

  /**
   * One frame of `simulationLoop`, given the frame counter before it and
   * the `isSimulating` the running closure reads. The counter advances;
   * since the frames to skip are a whole number, `counter % framesToSkip < 1`
   * holds exactly on its multiples, and then the cascade step runs; the next
   * frame is requested exactly when the flag read is true.
   */
  function SimulationLoop(s: SimState, counter: nat, halves: nat, simulating: bool): (r: Frame)
    requires SliderSpeed(halves)
    ensures r.counter == counter + 1 && r.rescheduled == simulating
    ensures (counter + 1) % FramesToSkip(halves) == 0 ==> r.state == CollapseStep(s, counter + 1)
    ensures (counter + 1) % FramesToSkip(halves) != 0 ==> r.state == s
  {
    var step := counter + 1;
    Frame(if step % FramesToSkip(halves) == 0 then CollapseStep(s, step) else s, step, simulating)
  }

  /**
   * As written, the cascade never runs. `startSimulation` only proceeds when
   * `isSimulating` is false, resets the counter to 0 and requests a frame
   * for the `simulationLoop` of the same render, which reads that false
   * flag. The first frame has counter 1, no multiple of the 10 to 60 frames
   * to skip, so no step runs, and the false flag requests no further frame.
   */
  lemma {:induction false} StartedLoopStops(s: SimState, halves: nat)
    requires SliderSpeed(halves) && |s.nodes| > 0 && !s.isSimulating
    ensures SimulationLoop(Start(s), 0, halves, s.isSimulating) == Frame(Start(s), 1, false)
  {
    assert 1 % FramesToSkip(halves) != 0;
  }

  /**
   * The loop as intended: each frame reads the current `isSimulating`, and
   * up to `k` frames run while each one requests the next.
   */
  function LiveFrames(s: SimState, counter: nat, halves: nat, k: nat): (r: Frame)
    requires SliderSpeed(halves)
    ensures r.counter <= counter + k
    decreases k
  {
    if k == 0 then Frame(s, counter, s.isSimulating)
    else
      var f := SimulationLoop(s, counter, halves, s.isSimulating);
      if k == 1 || !f.rescheduled then f else LiveFrames(f.state, f.counter, halves, k - 1)
  }

  /**
   * With the flag read live, a simulating state keeps the loop going
   * through the idle frames, and the cascade step runs on the frame whose
   * counter reaches the frames to skip.
   */
  lemma {:induction false} LiveLoopReachesStep(s: SimState, halves: nat, counter: nat)
    requires SliderSpeed(halves) && s.isSimulating && counter < FramesToSkip(halves)
    ensures var n := FramesToSkip(halves);
      LiveFrames(s, counter, halves, n - counter) == Frame(CollapseStep(s, n), n, true)
    decreases FramesToSkip(halves) - counter
  {
    var n := FramesToSkip(halves);
    if counter + 1 < n {
      assert (counter + 1) % n != 0;
      LiveLoopReachesStep(s, halves, counter + 1);
    }
  }

  /** Started with the flag read live, the loop runs the cascade step from a fresh or paused start. */
  lemma {:induction false} StartedLiveLoopSteps(s: SimState, halves: nat)
    requires SliderSpeed(halves) && |s.nodes| > 0 && !s.isSimulating && |s.collapsed| < |s.nodes|
    ensures var n := FramesToSkip(halves);
      LiveFrames(Start(s), 0, halves, n) == Frame(CollapseStep(Start(s), n), n, true)
  {
    LiveLoopReachesStep(Start(s), halves, 0);
  }

  /** Node `k` sits at index `k`. */
  predicate IdsAreIndices(nodes: seq<CollapseNode>)
  {
    forall k :: 0 <= k < |nodes| ==> nodes[k].id == k
  }

  /** The fired ids are exactly the nodes among the first `k` that fire, each once. */
  lemma {:induction false} FiredIdsMembers(s: SimState, k: nat)
    requires k <= |s.nodes| && IdsAreIndices(s.nodes)
    ensures forall x :: x in FiredIds(s, k) <==> 0 <= x < k && Fires(s, s.nodes[x])
    ensures Distinct(FiredIds(s, k))
  {
    if k > 0 {
      FiredIdsMembers(s, k - 1);
      var prev := FiredIds(s, k - 1);
      if Fires(s, s.nodes[k - 1]) {
        assert FiredIds(s, k) == prev + [k - 1];
        assert k - 1 !in prev;
      }
    }
  }

  /** With ids at their indices, marking collapses exactly the listed nodes. */
  lemma {:induction false} MarkAllIndexed(nodes: seq<CollapseNode>, ids: seq<int>)
    requires IdsAreIndices(nodes)
    ensures |MarkAll(nodes, ids)| == |nodes|
    ensures forall k :: 0 <= k < |nodes| ==>
      MarkAll(nodes, ids)[k] == if k in ids then CollapseAt(nodes[k]) else nodes[k]
  {
    if ids != [] {
      var ids' := ids[..|ids| - 1];
      var x := ids[|ids| - 1];
      MarkAllIndexed(nodes, ids');
      var m := MarkAll(nodes, ids');
      assert IdsAreIndices(m);
      assert forall k :: 0 <= k < |nodes| ==> (k in ids <==> k in ids' || k == x);
      if 0 <= x < |m| {
        assert m[x].id == x;
        assert IndexOfId(m, x) == x;
      } else {
        assert IndexOfId(m, x) == -1;
      }
    }
  }

  /**
   * A step collapses exactly the nodes that fire: uncollapsed, joined by
   * an edge to a node collapsed before the step, and with an adjusted
   * probability strictly above the threshold. No other node changes.
   */
  lemma {:induction false} NewlyCollapsed(s: SimState, frame: nat, x: int)
    requires Inv(s)
    ensures var r := CollapseStep(s, frame);
      (x in r.collapsed <==> x in s.collapsed || (0 <= x < |s.nodes| && Fires(s, s.nodes[x])))
    ensures var r := CollapseStep(s, frame);
      x in r.collapsed && x !in s.collapsed ==>
        0 <= x < |s.nodes| && Linked(s.edges, x, s.collapsed) && Adjusted(s, s.nodes[x]) > s.threshold
  {
    FiredIdsMembers(s, |s.nodes|);
  }

  lemma {:induction false} StepKeepsInv(s: SimState, frame: nat)
    requires Inv(s)
    ensures Inv(CollapseStep(s, frame))
  {
    var fired := FiredIds(s, |s.nodes|);
    FiredIdsMembers(s, |s.nodes|);
    MarkAllIndexed(s.nodes, fired);
    var r := CollapseStep(s, frame);
    if |fired| > 0 {
      assert r.nodes == MarkAll(s.nodes, fired) && r.collapsed == s.collapsed + fired;
      DistinctAppend(s.collapsed, fired);
    } else {
      assert r.nodes == s.nodes && r.collapsed == s.collapsed;
    }
  }

  lemma {:induction false} DistinctAppend(a: seq<int>, b: seq<int>)
    requires Distinct(a) && Distinct(b) && forall x :: x in b ==> x !in a
    ensures Distinct(a + b)
  {
    forall i, j | 0 <= i < j < |a + b|
      ensures (a + b)[i] != (a + b)[j]
    {
      if j < |a| {
        assert (a + b)[i] == a[i] && (a + b)[j] == a[j];
      } else if i < |a| {
        assert (a + b)[i] == a[i] && (a + b)[j] == b[j - |a|];
        assert b[j - |a|] in b;
      } else {
        assert (a + b)[i] == b[i - |a|] && (a + b)[j] == b[j - |a|];
      }
    }
  }

  /** Strengths in [0, 1] multiply to a value in [0, 1]. */
  lemma {:induction false} LinkProductUnit(edges: seq<Edge>, id: int, collapsed: seq<int>)
    requires forall e :: e in edges ==> 0.0 <= e.strength <= 1.0
    ensures 0.0 <= LinkProduct(edges, id, collapsed) <= 1.0
  {
    if edges != [] {
      var rest := edges[..|edges| - 1];
      assert forall e :: e in rest ==> e in edges;
      LinkProductUnit(rest, id, collapsed);
      var p := LinkProduct(rest, id, collapsed);
      var last := edges[|edges| - 1];
      var f := if Touches(last, id, collapsed) then last.strength else 1.0;
      assert 0.0 <= f <= 1.0;
      assert LinkProduct(edges, id, collapsed) == p * f;
      assert 0.0 <= p * f <= p * 1.0;
    }
  }

  /**
   * Edges only weaken a collapse: unless observation boosts a latent node,
   * the adjusted probability never exceeds the node's base probability, so
   * a node whose base probability is at most the threshold never fires
   * unboosted.
   */
  lemma {:induction false} AdjustedAtMostBase(s: SimState, n: CollapseNode)
    requires Inv(s) && 0.0 <= n.collapseProbability
    requires !(s.mode == Schrodinger && n.id as int in s.observed && n.collapseType == Latent)
    ensures Adjusted(s, n) <= n.collapseProbability
    ensures n.collapseProbability <= s.threshold ==> !Fires(s, n)
  {
    LinkProductUnit(s.edges, n.id, s.collapsed);
    var p := LinkProduct(s.edges, n.id, s.collapsed);
    var f := ObservationFactor(s, n);
    assert 0.0 <= f <= 1.0;
    assert 0.0 <= p * f <= 1.0 by {
      assert p * f <= 1.0 * f;
    }
    assert Adjusted(s, n) == n.collapseProbability * (p * f);
    assert n.collapseProbability * (p * f) <= n.collapseProbability * 1.0;
  }

  /** Marking nodes collapsed changes nothing a reset keeps. */
  lemma {:induction false} RestoreMarkAll(nodes: seq<CollapseNode>, ids: seq<int>)
    ensures RestoreAll(MarkAll(nodes, ids)) == RestoreAll(nodes)
  {
    if ids != [] {
      RestoreMarkAll(nodes, ids[..|ids| - 1]);
    }
  }

  /** Resetting after a step gives the nodes resetting before it gives. */
  lemma {:induction false} ResetAfterStep(s: SimState, frame: nat)
    ensures Reset(CollapseStep(s, frame)).nodes == Reset(s).nodes
  {
    RestoreMarkAll(s.nodes, FiredIds(s, |s.nodes|));
  }

  // ---------------------------------------------------------------------
  // Observation
  // ---------------------------------------------------------------------

  /** `prev.filter(id => id !== x)`. */
  function Without(xs: seq<int>, x: int): (r: seq<int>)
    ensures forall y :: y in r <==> y in xs && y != x
  {
    if xs == [] then [] else (if xs[0] == x then [] else [xs[0]]) + Without(xs[1..], x)
  }

  lemma {:induction false} WithoutDistinct(xs: seq<int>, x: int)
    requires Distinct(xs)
    ensures Distinct(Without(xs, x))
  {
    if xs != [] {
      WithoutDistinct(xs[1..], x);
      assert xs[0] !in xs[1..];
    }
  }

  /** Removing what was never there changes nothing; removing the appended id undoes the append. */
  lemma {:induction false} WithoutAppended(xs: seq<int>, x: int)
    requires x !in xs
    ensures Without(xs, x) == xs && Without(xs + [x], x) == xs
  {
    if xs != [] {
      WithoutAppended(xs[1..], x);
      assert (xs + [x])[1..] == xs[1..] + [x];
    }
  }

  /**
   * `handleNodeClick`: the clicked id becomes active; a known node is
   * observed when it was not, released when it was.
   */
  function HandleNodeClick(s: SimState, nodeId: int): (r: SimState)
    ensures r.activeNode == Some(nodeId)
    ensures IndexOfId(s.nodes, nodeId) == -1 ==> r == s.(activeNode := Some(nodeId))
    ensures var k := IndexOfId(s.nodes, nodeId);
      k != -1 ==>
        (nodeId in r.observed <==> nodeId !in s.observed) &&
        (forall y :: y != nodeId ==> (y in r.observed <==> y in s.observed)) &&
        r.nodes == s.nodes[k := s.nodes[k].(observed := nodeId in r.observed)] &&
        r.collapsed == s.collapsed && r.edges == s.edges
  {
    var k := IndexOfId(s.nodes, nodeId);
    var focused := s.(activeNode := Some(nodeId));
    if k == -1 then focused
    else if nodeId !in s.observed then
      focused.(observed := s.observed + [nodeId],
               nodes := s.nodes[k := s.nodes[k].(observed := true)],
               console := s.console + [ObserveRequest(nodeId), NowObserved(nodeId)])
    else
      focused.(observed := Without(s.observed, nodeId),
               nodes := s.nodes[k := s.nodes[k].(observed := false)],
               console := s.console + [ReleaseRequest(nodeId), Released(nodeId)])
  }

  lemma {:induction false} ClickKeepsInv(s: SimState, nodeId: int)
    requires Inv(s)
    ensures Inv(HandleNodeClick(s, nodeId))
  {
    var k := IndexOfId(s.nodes, nodeId);
    if k != -1 {
      assert s.nodes[nodeId].id == nodeId;
      if nodeId in s.observed {
        WithoutDistinct(s.observed, nodeId);
      }
    }
  }

  /** Clicking an unobserved node twice restores the nodes and the observed list. */
  lemma {:induction false} ClickTwiceRestores(s: SimState, nodeId: int)
    requires Inv(s) && nodeId !in s.observed
    ensures var r := HandleNodeClick(HandleNodeClick(s, nodeId), nodeId);
      r.nodes == s.nodes && r.observed == s.observed && r.collapsed == s.collapsed
  {
    var k := IndexOfId(s.nodes, nodeId);
    if k != -1 {
      var once := HandleNodeClick(s, nodeId);
      assert IndexOfId(once.nodes, nodeId) == k by {
        assert once.nodes[k].id == nodeId;
        assert forall j :: 0 <= j < |once.nodes| && j != k ==> once.nodes[j] == s.nodes[j];
      }
      WithoutAppended(s.observed, nodeId);
      assert s.nodes[k].observed == false;
    }
  }

  /** `.p/observe.all`: every node observed, the observed list holding every id in node order. */
  function ObserveAll(s: SimState): (r: SimState)
    ensures |r.observed| == |s.nodes| && forall k :: 0 <= k < |s.nodes| ==> r.observed[k] == s.nodes[k].id
    ensures |r.nodes| == |s.nodes| && forall k :: 0 <= k < |s.nodes| ==> r.nodes[k] == s.nodes[k].(observed := true)
    ensures r.collapsed == s.collapsed && r.edges == s.edges
  {
    s.(observed := seq(|s.nodes|, k requires 0 <= k < |s.nodes| => s.nodes[k].id as int),
       nodes := seq(|s.nodes|, k requires 0 <= k < |s.nodes| => s.nodes[k].(observed := true)),
       console := s.console + [AllObserved])
  }

  // ---------------------------------------------------------------------
  // `.p/config` parameters
  // ---------------------------------------------------------------------

  /** The character classes of `[0-9.]` and `\w`. */
  datatype CharClass = NumChars | WordChars

  predicate InClass(c: char, cls: CharClass)
  {
    match cls
    case NumChars => IsDigit(c) || c == '.'
    case WordChars =>
      IsDigit(c) || c == '_' || ('a' as int <= c as int <= 'z' as int) || ('A' as int <= c as int <= 'Z' as int)
  }

  /** The length of the longest prefix of `s` in class `cls`: a greedy `+` run. */
  function ClassRun(s: string, cls: CharClass): (n: nat)
    ensures n <= |s|
    ensures forall k :: 0 <= k < n ==> InClass(s[k], cls)
    ensures n < |s| ==> !InClass(s[n], cls)
  {
    if s != [] && InClass(s[0], cls) then 1 + ClassRun(s[1..], cls) else 0
  }

  /** `/threshold=([0-9.]+)/` and `/mode=(['"])(\w+)(['"])/`. */
  datatype Param = ThresholdParam | ModeParam

  /**
   * The captured text when `p` matches at offset `i`. The runs are
   * greedy, and since a quote is not a word character the mode pattern
   * matches only when the whole word run is followed by a quote.
   */
  function MatchAt(p: Param, s: string, i: nat): Option<string>
  {
    match p
    case ThresholdParam =>
      if i + 10 < |s| && s[i..i + 10] == "threshold=" then
        var n := ClassRun(s[i + 10..], NumChars);
        if n >= 1 then Some(s[i + 10..i + 10 + n]) else None
      else None
    case ModeParam =>
      if i + 6 < |s| && s[i..i + 5] == "mode=" && IsQuote(s[i + 5]) then
        var n := ClassRun(s[i + 6..], WordChars);
        if n >= 1 && i + 6 + n < |s| && IsQuote(s[i + 6 + n]) then Some(s[i + 6..i + 6 + n]) else None
      else None
  }

  /** `s.match(p)`: the capture of the leftmost match starting at or after `i`. */
  function FirstMatch(p: Param, s: string, i: nat): (r: Option<string>)
    ensures r.Some? ==>
      exists j :: (i <= j < |s| && MatchAt(p, s, j) == r && forall k :: i <= k < j ==> MatchAt(p, s, k).None?)
    ensures r.None? ==> forall j :: i <= j < |s| ==> MatchAt(p, s, j).None?
    decreases |s| - i
  {
    if i >= |s| then None
    else if MatchAt(p, s, i).Some? then MatchAt(p, s, i)
    else FirstMatch(p, s, i + 1)
  }

  /** A match at `j` with none before it is the one `match` returns. */
  lemma {:induction false} LeftmostMatch(p: Param, s: string, j: nat)
    requires j < |s| && MatchAt(p, s, j).Some?
    requires forall k :: 0 <= k < j ==> MatchAt(p, s, k).None?
    ensures FirstMatch(p, s, 0) == MatchAt(p, s, j)
  {
  }

  /** No threshold match starts in `[lo, hi)` when no `h` follows those offsets. */
  lemma {:induction false} NoThresholdIn(s: string, lo: nat, hi: nat)
    requires forall k :: lo < k <= hi && k < |s| ==> s[k] != 'h'
    ensures forall k :: lo <= k < hi ==> MatchAt(ThresholdParam, s, k).None?
  {
    forall k | lo <= k < hi && k + 10 < |s|
      ensures MatchAt(ThresholdParam, s, k).None?
    {
      assert s[k..k + 10][1] == s[k + 1];
    }
  }

  /** No mode match starts in `[lo, hi)` when no `m` stands at those offsets. */
  lemma {:induction false} NoModeIn(s: string, lo: nat, hi: nat)
    requires forall k :: lo <= k < hi && k < |s| ==> s[k] != 'm'
    ensures forall k :: lo <= k < hi ==> MatchAt(ModeParam, s, k).None?
  {
    forall k | lo <= k < hi && k + 6 < |s|
      ensures MatchAt(ModeParam, s, k).None?
    {
      assert s[k..k + 5][0] == s[k];
    }
  }

  /** A greedy run over `a` stops at the first character of `b` outside the class. */
  lemma {:induction false} ClassRunStops(a: string, b: string, cls: CharClass)
    requires forall k :: 0 <= k < |a| ==> InClass(a[k], cls)
    requires b == [] || !InClass(b[0], cls)
    ensures ClassRun(a + b, cls) == |a|
  {
    if a != [] {
      assert (a + b)[1..] == a[1..] + b;
      ClassRunStops(a[1..], b, cls);
    } else {
      assert a + b == b;
    }
  }

  /** The digits after the point, over the power of ten they span. */
  function Ratio(v: nat, p: nat): real
    requires p > 0
  {
    v as real / p as real
  }

  /**
   * `parseFloat` on a run of digits and dots: the leading digits, then a
   * dot and the digits after it; a second dot ends the number, and a run
   * with no digit before or after its first dot is `NaN` (`None`).
   */
  function ParseDecimal(t: string): (r: Option<real>)
    ensures r.Some? ==> r.value >= 0.0
  {
    var a := DigitRun(t);
    var whole := DigitsValue(t[..a]) as real;
    if a < |t| && t[a] == '.' then
      var rest := t[a + 1..];
      var b := DigitRun(rest);
      if a == 0 && b == 0 then None
      else Some(whole + Ratio(DigitsValue(rest[..b]), Pow10(b)))
    else if a == 0 then None
    else Some(whole)
  }

  lemma {:induction false} DigitsBelow(ds: string)
    requires forall k :: 0 <= k < |ds| ==> IsDigit(ds[k])
    ensures DigitsValue(ds) < Pow10(|ds|)
  {
    if ds != [] {
      DigitsBelow(ds[..|ds| - 1]);
    }
  }

  /** A run of digits reads as the whole number it spells. */
  lemma {:induction false} ParseWhole(ds: string)
    requires |ds| >= 1 && forall k :: 0 <= k < |ds| ==> IsDigit(ds[k])
    ensures ParseDecimal(ds) == Some(DigitsValue(ds) as real)
  {
    DigitRunAll(ds);
    assert ds[..|ds|] == ds;
  }

  /** In `0.<digits>` the whole part is the single zero and the fraction digits follow the point. */
  lemma {:induction false} ZeroPointFacts(ds: string)
    ensures var t := "0." + ds;
      DigitRun(t) == 1 && DigitsValue(t[..1]) == 0 && t[1] == '.' && t[2..] == ds
  {
    var t := "0." + ds;
    assert t[0] == '0' && t[1] == '.' && t[2..] == ds;
    assert t[1..][0] == '.';
    assert DigitRun(t[1..]) == 0;
    assert t[..1] == ['0'];
    assert t[..1][..0] == [];
  }

  /** `0.` followed by digits reads as a fraction below one. */
  lemma {:induction false} ParseFraction(ds: string)
    requires |ds| >= 1 && forall k :: 0 <= k < |ds| ==> IsDigit(ds[k])
    ensures ParseDecimal("0." + ds) == Some(DigitsValue(ds) as real / Pow10(|ds|) as real)
    ensures DigitsValue(ds) as real / Pow10(|ds|) as real < 1.0
  {
    ParseZeroPoint(ds);
    DigitsBelow(ds);
    FractionBelowOne(DigitsValue(ds), Pow10(|ds|));
  }

  lemma {:induction false} ParseZeroPoint(ds: string)
    requires |ds| >= 1 && forall k :: 0 <= k < |ds| ==> IsDigit(ds[k])
    ensures ParseDecimal("0." + ds) == Some(0.0 + Ratio(DigitsValue(ds), Pow10(|ds|)))
  {
    var t := "0." + ds;
    ZeroPointFacts(ds);
    DigitRunAll(ds);
    assert ds[..|ds|] == ds;
    assert t[1 + 1..] == ds;
  }

  lemma {:induction false} FractionBelowOne(v: nat, p: nat)
    requires v < p
    ensures (v as real) / (p as real) < 1.0
  {
    assert (v as real) / (p as real) * (p as real) == v as real;
  }

  /** The threshold a `.p/config` command sets: its parameter, when it reads as a number in [0, 1]. */
  function ThresholdSetting(cmd: string): (r: Option<real>)
    ensures r.Some? ==> 0.0 <= r.value <= 1.0
  {
    match FirstMatch(ThresholdParam, cmd, 0)
    case None => None
    case Some(text) =>
      match ParseDecimal(text)
      case Some(v) => if v <= 1.0 then Some(v) else None
      case None => None
  }

  /** The observer mode a `.p/config` command sets: only the two known names. */
  function ModeSetting(cmd: string): (r: Option<ObserverMode>)
    ensures r == Some(Schrodinger) <==> FirstMatch(ModeParam, cmd, 0) == Some("schrodinger")
    ensures r == Some(Deterministic) <==> FirstMatch(ModeParam, cmd, 0) == Some("deterministic")
  {
    match FirstMatch(ModeParam, cmd, 0)
    case None => None
    case Some(word) =>
      if word == "schrodinger" then Some(Schrodinger)
      else if word == "deterministic" then Some(Deterministic)
      else None
  }

  /**
   * `.p/config`: a valid threshold wins; failing that a valid mode;
   * otherwise only an error line is added.
   */
  function ApplyConfig(s: SimState, cmd: string): (r: SimState)
    ensures r.nodes == s.nodes && r.edges == s.edges && r.collapsed == s.collapsed && r.observed == s.observed
    ensures r.isSimulating == s.isSimulating && r.status == s.status
    ensures r.threshold == s.threshold || 0.0 <= r.threshold <= 1.0
    ensures r.threshold != s.threshold ==> r.mode == s.mode
    ensures ThresholdSetting(cmd).None? && ModeSetting(cmd).None? ==>
      r == s.(console := s.console + [InvalidConfig])
  {
    match ThresholdSetting(cmd)
    case Some(v) => s.(threshold := v, console := s.console + [ThresholdUpdated(v)])
    case None =>
      match ModeSetting(cmd)
      case Some(m) => s.(mode := m, console := s.console + [ModeUpdated(m)])
      case None => s.(console := s.console + [InvalidConfig])
  }

  // ---------------------------------------------------------------------
  // Commands
  // ---------------------------------------------------------------------

  /**
   * `runCommand`: the line is echoed, then dispatched on its prefix in
   * the source's order. The network exists before any command can run.
   */
  function RunCommand(s: SimState, cmd: string): (r: SimState)
    requires |s.nodes| > 0
    ensures |r.console| > |s.console| && r.console[|s.console|] == Input(cmd)
    ensures !StartsWith(cmd, ".p/collapse.trigger") && !StartsWith(cmd, ".p/observe.all") &&
            !StartsWith(cmd, ".p/reset") && !StartsWith(cmd, ".p/config") ==>
      r == s.(console := s.console + [Input(cmd), Unrecognized])
  {
    var echoed := s.(console := s.console + [Input(cmd)]);
    if StartsWith(cmd, ".p/collapse.trigger") then
      if s.isSimulating then Stop(echoed) else Start(echoed)
    else if StartsWith(cmd, ".p/observe.all") then ObserveAll(echoed)
    else if StartsWith(cmd, ".p/reset") then Reset(echoed)
    else if StartsWith(cmd, ".p/config") then ApplyConfig(echoed, cmd)
    else echoed.(console := echoed.console + [Unrecognized])
  }

  /** The console form submits only a line whose `trim()` is not empty. */
  function Submit(s: SimState, text: string): (r: SimState)
    requires |s.nodes| > 0
    ensures Blank(text) ==> r == s
    ensures !Blank(text) ==> |r.console| > |s.console| && r.console[|s.console|] == Input(text)
  {
    if Blank(text) then s else RunCommand(s, text)
  }

  // ---------------------------------------------------------------------
  // What commands do
  // ---------------------------------------------------------------------

  /** A `.p/config` line goes to the configuration handler, after its echo. */
  lemma {:induction false} ConfigDispatch(s: SimState, cmd: string)
    requires |s.nodes| > 0 && StartsWith(cmd, ".p/config")
    ensures RunCommand(s, cmd) == ApplyConfig(s.(console := s.console + [Input(cmd)]), cmd)
  {
    assert cmd[..9] == ".p/config";
    assert cmd[3] == 'c' && cmd[5] == 'n';
    assert !StartsWith(cmd, ".p/collapse.trigger") by { assert ".p/collapse.trigger"[5] == 'l'; }
    assert !StartsWith(cmd, ".p/observe.all") by { assert ".p/observe.all"[3] == 'o'; }
    assert !StartsWith(cmd, ".p/reset") by { assert ".p/reset"[3] == 'r'; }
  }

  const ThresholdPrefix: string := ".p/config threshold="
  const ModePrefix: string := ".p/config mode="

  lemma {:induction false} ThresholdPrefixFacts()
    ensures |ThresholdPrefix| == 20 && ThresholdPrefix[..9] == ".p/config"
    ensures ThresholdPrefix[10..20] == "threshold="
    ensures forall k :: 0 <= k < 20 ==> ThresholdPrefix[k] != 'm'
    ensures forall k :: 0 < k <= 10 ==> ThresholdPrefix[k] != 'h'
  {
    assert ThresholdPrefix ==
      ['.', 'p', '/', 'c', 'o', 'n', 'f', 'i', 'g', ' ', 't', 'h', 'r', 'e', 's', 'h', 'o', 'l', 'd', '='];
    assert ThresholdPrefix[..9] == ['.', 'p', '/', 'c', 'o', 'n', 'f', 'i', 'g'] == ".p/config";
    assert ThresholdPrefix[10..20] == ['t', 'h', 'r', 'e', 's', 'h', 'o', 'l', 'd', '='] == "threshold=";
  }

  lemma {:induction false} ModePrefixFacts()
    ensures |ModePrefix| == 15 && ModePrefix[..9] == ".p/config" && ModePrefix[10..15] == "mode="
    ensures forall k :: 0 <= k < 10 ==> ModePrefix[k] != 'm'
    ensures forall k :: 0 <= k < 15 ==> ModePrefix[k] != 'h'
  {
    assert ModePrefix == ['.', 'p', '/', 'c', 'o', 'n', 'f', 'i', 'g', ' ', 'm', 'o', 'd', 'e', '='];
    assert ModePrefix[..9] == ['.', 'p', '/', 'c', 'o', 'n', 'f', 'i', 'g'] == ".p/config";
    assert ModePrefix[10..15] == ['m', 'o', 'd', 'e', '='] == "mode=";
  }

  /** In `.p/config threshold=<num>` the threshold pattern captures `num`, and no mode is named. */
  lemma {:induction false} ThresholdCommandMatch(num: string)
    requires |num| >= 1 && forall k :: 0 <= k < |num| ==> InClass(num[k], NumChars)
    ensures var cmd := ThresholdPrefix + num;
      StartsWith(cmd, ".p/config") &&
      FirstMatch(ThresholdParam, cmd, 0) == Some(num) && FirstMatch(ModeParam, cmd, 0).None?
  {
    var cmd := ThresholdPrefix + num;
    ThresholdPrefixFacts();
    assert cmd[..9] == ThresholdPrefix[..9];
    assert cmd[10..20] == ThresholdPrefix[10..20];
    assert cmd[20..] == num + [];
    ClassRunStops(num, [], NumChars);
    assert cmd[20..20 + |num|] == num;
    assert MatchAt(ThresholdParam, cmd, 10) == Some(num);
    assert forall k :: 0 <= k < 20 ==> cmd[k] == ThresholdPrefix[k];
    NoThresholdIn(cmd, 0, 10);
    LeftmostMatch(ThresholdParam, cmd, 10);
    assert forall k :: 20 <= k < |cmd| ==> cmd[k] == num[k - 20];
    NoModeIn(cmd, 0, |cmd|);
  }

  /** In `.p/config mode=<q1><word><q2>` the mode pattern captures `word`, and no threshold is named. */
  lemma {:induction false} ModeCommandMatch(word: string, q1: char, q2: char)
    requires |word| >= 1 && forall k :: 0 <= k < |word| ==> InClass(word[k], WordChars) && word[k] != 'h'
    requires IsQuote(q1) && IsQuote(q2)
    ensures var cmd := ModePrefix + [q1] + word + [q2];
      StartsWith(cmd, ".p/config") &&
      FirstMatch(ModeParam, cmd, 0) == Some(word) && FirstMatch(ThresholdParam, cmd, 0).None?
  {
    var cmd := ModePrefix + [q1] + word + [q2];
    ModeMatchAtTen(word, q1, q2);
    NoModeIn(cmd, 0, 10);
    LeftmostMatch(ModeParam, cmd, 10);
    NoThresholdIn(cmd, 0, |cmd|);
  }

  lemma {:induction false} ModeMatchAtTen(word: string, q1: char, q2: char)
    requires |word| >= 1 && forall k :: 0 <= k < |word| ==> InClass(word[k], WordChars) && word[k] != 'h'
    requires IsQuote(q1) && IsQuote(q2)
    ensures var cmd := ModePrefix + [q1] + word + [q2];
      StartsWith(cmd, ".p/config") && MatchAt(ModeParam, cmd, 10) == Some(word) &&
      (forall k :: 0 <= k < 10 ==> cmd[k] != 'm') && (forall k :: 0 <= k < |cmd| ==> cmd[k] != 'h')
  {
    ModePrefixFacts();
    var tail := word + [q2];
    var cmd := ModePrefix + [q1] + word + [q2];
    assert cmd == ModePrefix + [q1] + tail;
    assert |cmd| == 16 + |tail|;
    assert forall k :: 0 <= k < 15 ==> cmd[k] == ModePrefix[k];
    assert cmd[..9] == ModePrefix[..9];
    assert cmd[10..15] == ModePrefix[10..15];
    assert cmd[15] == q1;
    assert cmd[16..] == tail;
    ClassRunStops(word, [q2], WordChars);
    assert cmd[16..16 + |word|] == word;
    assert forall k :: 16 <= k < |cmd| ==> cmd[k] == tail[k - 16];
  }

  /** A `.p/config` line whose threshold is valid sets it and changes nothing else. */
  lemma {:induction false} ConfigThresholdEffect(s: SimState, cmd: string, v: real)
    requires |s.nodes| > 0 && StartsWith(cmd, ".p/config") && ThresholdSetting(cmd) == Some(v)
    ensures RunCommand(s, cmd) == s.(threshold := v, console := s.console + [Input(cmd), ThresholdUpdated(v)])
  {
    ConfigDispatch(s, cmd);
    var echoed := s.(console := s.console + [Input(cmd)]);
    assert echoed.console + [ThresholdUpdated(v)] == s.console + [Input(cmd), ThresholdUpdated(v)];
  }

  /** A `.p/config` line naming neither a valid threshold nor a valid mode only logs an error. */
  lemma {:induction false} ConfigInvalidEffect(s: SimState, cmd: string)
    requires |s.nodes| > 0 && StartsWith(cmd, ".p/config")
    requires ThresholdSetting(cmd).None? && ModeSetting(cmd).None?
    ensures RunCommand(s, cmd) == s.(console := s.console + [Input(cmd), InvalidConfig])
  {
    ConfigDispatch(s, cmd);
    var echoed := s.(console := s.console + [Input(cmd)]);
    assert echoed.console + [InvalidConfig] == s.console + [Input(cmd), InvalidConfig];
  }

  /** The threshold `.p/config threshold=0.<digits>` names is that fraction, always accepted. */
  lemma {:induction false} ZeroPointNumChars(ds: string)
    requires forall k :: 0 <= k < |ds| ==> IsDigit(ds[k])
    ensures forall k :: 0 <= k < |"0." + ds| ==> InClass(("0." + ds)[k], NumChars)
  {
    var num := "0." + ds;
    assert forall k :: 2 <= k < |num| ==> num[k] == ds[k - 2];
  }

  lemma {:induction false} FractionSetting(ds: string)
    requires |ds| >= 1 && forall k :: 0 <= k < |ds| ==> IsDigit(ds[k])
    ensures StartsWith(ThresholdPrefix + "0." + ds, ".p/config")
    ensures ThresholdSetting(ThresholdPrefix + "0." + ds) == Some(DigitsValue(ds) as real / Pow10(|ds|) as real)
  {
    var num := "0." + ds;
    ZeroPointNumChars(ds);
    ThresholdCommandMatch(num);
    ParseFraction(ds);
    assert ThresholdPrefix + "0." + ds == ThresholdPrefix + num;
  }

  /** `.p/config threshold=0.<digits>` always sets the threshold to that fraction. */
  lemma {:induction false} ConfigSetsFraction(s: SimState, ds: string)
    requires |s.nodes| > 0 && |ds| >= 1 && forall k :: 0 <= k < |ds| ==> IsDigit(ds[k])
    ensures RunCommand(s, ThresholdPrefix + "0." + ds).threshold == DigitsValue(ds) as real / Pow10(|ds|) as real
  {
    FractionSetting(ds);
    ConfigThresholdEffect(s, ThresholdPrefix + "0." + ds, DigitsValue(ds) as real / Pow10(|ds|) as real);
  }

  /** A whole-number threshold above one is refused, and nothing but the console changes. */
  lemma {:induction false} ConfigRejectsAboveOne(s: SimState, ds: string)
    requires |s.nodes| > 0 && |ds| >= 1 && forall k :: 0 <= k < |ds| ==> IsDigit(ds[k])
    requires DigitsValue(ds) > 1
    ensures var cmd := ThresholdPrefix + ds;
      RunCommand(s, cmd) == s.(console := s.console + [Input(cmd), InvalidConfig])
  {
    var cmd := ThresholdPrefix + ds;
    ThresholdCommandMatch(ds);
    ParseWhole(ds);
    assert ThresholdSetting(cmd).None?;
    assert ModeSetting(cmd).None?;
    ConfigInvalidEffect(s, cmd);
  }

  /**
   * `mode="deterministic"` switches the observer mode and keeps the
   * threshold; the pattern's two quote groups are independent, so the
   * quotes need not match.
   */
  lemma {:induction false} ConfigSetsMode(s: SimState, q1: char, q2: char)
    requires |s.nodes| > 0 && IsQuote(q1) && IsQuote(q2)
    ensures var r := RunCommand(s, ModePrefix + [q1] + "deterministic" + [q2]);
      r.mode == Deterministic && r.threshold == s.threshold
  {
    var cmd := ModePrefix + [q1] + "deterministic" + [q2];
    ModeCommandMatch("deterministic", q1, q2);
    ConfigDispatch(s, cmd);
  }

  /** A mode other than the two known names is refused. */
  lemma {:induction false} ConfigRejectsUnknownMode(s: SimState, q1: char, q2: char)
    requires |s.nodes| > 0 && IsQuote(q1) && IsQuote(q2)
    ensures var cmd := ModePrefix + [q1] + "quantum" + [q2];
      RunCommand(s, cmd) == s.(console := s.console + [Input(cmd), InvalidConfig])
  {
    var cmd := ModePrefix + [q1] + "quantum" + [q2];
    ModeCommandMatch("quantum", q1, q2);
    assert ThresholdSetting(cmd).None?;
    assert ModeSetting(cmd).None?;
    ConfigInvalidEffect(s, cmd);
  }

  lemma {:induction false} ResetKeepsInv(s: SimState)
    requires Inv(s)
    ensures Inv(Reset(s))
  {
  }

  lemma {:induction false} StartKeepsInv(s: SimState)
    requires Inv(s)
    ensures Inv(Start(s))
  {
    if !s.isSimulating && s.collapsed == [] {
      var r := Start(s);
      assert r.nodes == s.nodes[0 := CollapseAt(s.nodes[0])];
    }
  }

  lemma {:induction false} ObserveAllKeepsInv(s: SimState)
    requires Inv(s)
    ensures Inv(ObserveAll(s))
  {
  }

  /** Every command keeps the invariant. */
  lemma {:induction false} CommandKeepsInv(s: SimState, cmd: string)
    requires Inv(s)
    ensures Inv(RunCommand(s, cmd))
  {
    var echoed := s.(console := s.console + [Input(cmd)]);
    assert Inv(echoed);
    var r := RunCommand(s, cmd);
    if StartsWith(cmd, ".p/collapse.trigger") {
      if !s.isSimulating {
        StartKeepsInv(echoed);
      }
    } else if StartsWith(cmd, ".p/observe.all") {
      ObserveAllKeepsInv(echoed);
    } else if StartsWith(cmd, ".p/reset") {
      ResetKeepsInv(echoed);
    } else if StartsWith(cmd, ".p/config") {
      assert r == ApplyConfig(echoed, cmd);
    }
  }
}
