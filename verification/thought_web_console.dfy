/**
 * The recursive thought-web console: a set of glyph-marked nodes that can
 * be added, deleted, dragged (leaving fading echoes) and connected, one
 * pair at a time or all at once in a ring.
 *
 * The component's state is a record and each handler a function from one
 * state to the next; `connectAllNodes`, which pushes into a list in a
 * loop, is a method. Random draws are parameters in [0, 1); console
 * colours are implied by the message kind.
 */
module ThoughtWebConsole {
  import opened Common

  datatype Glyph = RecursionSeed | ResidueTrace | FeedbackLoop | LockPoint

  datatype Point = Point(x: real, y: real)

  /** A fading copy of a node left behind by a drag. */
  datatype EchoMark = EchoMark(x: real, y: real, opacity: real, radius: real)

  /** `color` indexes the five-entry palette. */
  datatype WebNode = WebNode(id: int, text: string, position: Point, glyph: Glyph, color: nat, echoes: seq<EchoMark>, pulseRate: real)

  datatype Connection = Connection(source: int, target: int, pulseStrength: real)

  /** One `addConsoleMessage` call. */
  datatype ConsoleMessage =
    | Initialized
    | AttributionMappingActive
    | InitExecuted
    | NodeNeedsText
    | NodeCreated(text: string, glyph: Glyph)
    | NodeRemoved(id: int)
    | SelectSourceFirst
    | ConnectionInitiated(id: int)
    | CannotConnectToSelf
    | ConnectionEstablished(source: int, target: int)
    | ConnectionAlreadyExists
    | ConnectionCancelled
    | NeedTwoNodes
    | CircuitFormed(added: nat)

  datatype WebState = WebState(
    nodes: seq<WebNode>,
    connections: seq<Connection>,
    selected: Option<int>,
    zoom: real,
    newNodeText: string,
    newNodeGlyph: Glyph,
    isConnecting: bool,
    connectionStart: Option<int>,
    console: seq<ConsoleMessage>)

  const PaletteSize: nat := 5
  const MaxEchoes: nat := 5

  function Initial(): WebState
  {
    WebState(
      [WebNode(1, "Cascade initialized", Point(300.0, 300.0), RecursionSeed, 0, [], 1.5),
       WebNode(2, "Recursive loop tension rising", Point(500.0, 200.0), FeedbackLoop, 1, [], 2.2),
       WebNode(3, "Meta-observer pattern emerging", Point(400.0, 450.0), ResidueTrace, 2, [], 1.8)],
      [], None, 1.0, "", RecursionSeed, false, None,
      [Initialized, AttributionMappingActive, InitExecuted])
  }

  // ---------------------------------------------------------------------
  // What the handlers keep
  // ---------------------------------------------------------------------

  predicate UniqueNodeIds(ns: seq<WebNode>)
  {
    forall i, j :: 0 <= i < j < |ns| ==> ns[i].id != ns[j].id
  }

  predicate NoSelfLoops(cs: seq<Connection>)
  {
    forall k :: 0 <= k < |cs| ==> cs[k].source != cs[k].target
  }

  predicate EchoesCapped(ns: seq<WebNode>)
  {
    forall k :: 0 <= k < |ns| ==> |ns[k].echoes| <= MaxEchoes
  }

  /**
   * Node ids are unique, no connection is a self-loop, connecting mode has
   * a start, echo lists hold at most five and the zoom is within its bounds.
   */
  predicate Inv(s: WebState)
  {
    UniqueNodeIds(s.nodes) && NoSelfLoops(s.connections) && EchoesCapped(s.nodes) &&
    (s.isConnecting ==> s.connectionStart.Some?) && 0.1 <= s.zoom <= 2.0
  }

  lemma {:induction false} InitialInv()
    ensures Inv(Initial())
  {
  }

  // ---------------------------------------------------------------------
  // Adding and deleting nodes
  // ---------------------------------------------------------------------

  /** `Math.max(0, ...ids) + 1`. */
  function NextId(ns: seq<WebNode>): (id: int)
    ensures id >= 1
    ensures forall k :: 0 <= k < |ns| ==> ns[k].id < id
    ensures id == 1 || exists k :: 0 <= k < |ns| && ns[k].id == id - 1
  {
    if ns == [] then 1
    else
      var rest := NextId(ns[1..]);
      if ns[0].id + 1 > rest then ns[0].id + 1 else rest
  }

  /** The draws `addNode` makes: position offsets, palette choice and pulse rate. */
  datatype NodeDraws = NodeDraws(dx: real, dy: real, color: real, pulse: real)

  predicate DrawsOk(d: NodeDraws)
  {
    0.0 <= d.dx < 1.0 && 0.0 <= d.dy < 1.0 && 0.0 <= d.color < 1.0 && 0.0 <= d.pulse < 1.0
  }

  /**
   * `addNode`: blank text is refused with an error; otherwise a node with
   * an id above every existing one is appended and the text field cleared.
   */
  function AddNode(s: WebState, d: NodeDraws): (r: WebState)
    requires DrawsOk(d)
    ensures Blank(s.newNodeText) ==> r == s.(console := s.console + [NodeNeedsText])
    ensures !Blank(s.newNodeText) ==>
      |r.nodes| == |s.nodes| + 1 && r.nodes[..|s.nodes|] == s.nodes &&
      r.nodes[|s.nodes|].text == s.newNodeText && r.nodes[|s.nodes|].glyph == s.newNodeGlyph &&
      r.nodes[|s.nodes|].echoes == [] && r.nodes[|s.nodes|].color < PaletteSize &&
      (forall k :: 0 <= k < |s.nodes| ==> s.nodes[k].id < r.nodes[|s.nodes|].id) &&
      r == s.(nodes := r.nodes, newNodeText := [], console := s.console + [NodeCreated(s.newNodeText, s.newNodeGlyph)])
  {
    if Blank(s.newNodeText) then
      s.(console := s.console + [NodeNeedsText])
    else
      var node := WebNode(NextId(s.nodes), s.newNodeText,
                          Point(400.0 + (d.dx * 200.0 - 100.0), 300.0 + (d.dy * 200.0 - 100.0)),
                          s.newNodeGlyph, (d.color * PaletteSize as real).Floor as nat, [], 1.0 + d.pulse);
      s.(nodes := s.nodes + [node], newNodeText := [],
         console := s.console + [NodeCreated(s.newNodeText, s.newNodeGlyph)])
  }

  function WithoutNode(ns: seq<WebNode>, id: int): (r: seq<WebNode>)
    ensures |r| <= |ns|
    ensures forall n :: n in r <==> n in ns && n.id != id
  {
    if ns == [] then []
    else (if ns[0].id != id then [ns[0]] else []) + WithoutNode(ns[1..], id)
  }

  function WithoutEndpoint(cs: seq<Connection>, id: int): (r: seq<Connection>)
    ensures |r| <= |cs|
    ensures forall c :: c in r <==> c in cs && c.source != id && c.target != id
  {
    if cs == [] then []
    else (if cs[0].source != id && cs[0].target != id then [cs[0]] else []) + WithoutEndpoint(cs[1..], id)
  }

  /**
   * `deleteNode`: the node goes, so does every connection it ends, and the
   * selection is cleared if it was that node.
   */
  function DeleteNode(s: WebState, id: int): (r: WebState)
    ensures forall n :: n in r.nodes <==> n in s.nodes && n.id != id
    ensures forall c :: c in r.connections <==> c in s.connections && c.source != id && c.target != id
    ensures r.selected == if s.selected == Some(id) then None else s.selected
    ensures r.console == s.console + [NodeRemoved(id)]
    ensures r.(nodes := s.nodes, connections := s.connections, selected := s.selected, console := s.console) == s
  {
    s.(nodes := WithoutNode(s.nodes, id), connections := WithoutEndpoint(s.connections, id),
       selected := if s.selected == Some(id) then None else s.selected,
       console := s.console + [NodeRemoved(id)])
  }

  lemma {:induction false} WithoutFreshNode(ns: seq<WebNode>, n: WebNode)
    requires forall k :: 0 <= k < |ns| ==> ns[k].id < n.id
    ensures WithoutNode(ns + [n], n.id) == ns
  {
    if ns == [] {
      assert [n][1..] == [];
    } else {
      assert (ns + [n])[1..] == ns[1..] + [n];
      WithoutFreshNode(ns[1..], n);
      assert [ns[0]] + ns[1..] == ns;
    }
  }

  /** Deleting the node just added gives the node list back. */
  lemma {:induction false} DeleteUndoesAdd(s: WebState, d: NodeDraws)
    requires DrawsOk(d) && !Blank(s.newNodeText)
    ensures var a := AddNode(s, d);
      DeleteNode(a, a.nodes[|s.nodes|].id).nodes == s.nodes
  {
    var a := AddNode(s, d);
    assert a.nodes == s.nodes + [a.nodes[|s.nodes|]];
    WithoutFreshNode(s.nodes, a.nodes[|s.nodes|]);
  }

  // ---------------------------------------------------------------------
  // Connecting
  // ---------------------------------------------------------------------

  /** Whether some connection joins `a` and `b`, in either direction. */
  predicate Linked(cs: seq<Connection>, a: int, b: int)
  {
    exists k :: 0 <= k < |cs| && ((cs[k].source == a && cs[k].target == b) || (cs[k].source == b && cs[k].target == a))
  }

  /** `startConnection`: with a node selected, connecting mode starts from it. */
  function StartConnection(s: WebState): (r: WebState)
    ensures s.selected.None? ==> r == s.(console := s.console + [SelectSourceFirst])
    ensures s.selected.Some? ==> r.isConnecting && r.connectionStart == s.selected
    ensures r.nodes == s.nodes && r.connections == s.connections && r.selected == s.selected
  {
    match s.selected
    case None => s.(console := s.console + [SelectSourceFirst])
    case Some(id) => s.(isConnecting := true, connectionStart := Some(id), console := s.console + [ConnectionInitiated(id)])
  }

  /**
   * `completeConnection`, reached only in connecting mode, where the start
   * is set: a self-connection is refused (the start is kept), a pair
   * already linked either way is refused, otherwise the pair is appended.
   * Connecting mode ends in every case.
   */
  function CompleteConnection(s: WebState, targetId: int, draw: real): (r: WebState)
    requires s.connectionStart.Some?
    requires 0.0 <= draw < 1.0
    ensures !r.isConnecting && r.nodes == s.nodes && r.selected == s.selected
    ensures s.connectionStart == Some(targetId) ==>
      r == s.(isConnecting := false, console := s.console + [CannotConnectToSelf])
    ensures s.connectionStart != Some(targetId) ==> r.connectionStart.None?
    ensures s.connectionStart != Some(targetId) && Linked(s.connections, s.connectionStart.value, targetId) ==>
      r.connections == s.connections
    ensures s.connectionStart != Some(targetId) && !Linked(s.connections, s.connectionStart.value, targetId) ==>
      |r.connections| == |s.connections| + 1 && r.connections[..|s.connections|] == s.connections &&
      r.connections[|s.connections|].source == s.connectionStart.value &&
      r.connections[|s.connections|].target == targetId
  {
    var start := s.connectionStart.value;
    if start == targetId then
      s.(isConnecting := false, console := s.console + [CannotConnectToSelf])
    else if Linked(s.connections, start, targetId) then
      s.(isConnecting := false, connectionStart := None, console := s.console + [ConnectionAlreadyExists])
    else
      s.(connections := s.connections + [Connection(start, targetId, draw * 3.0)],
         isConnecting := false, connectionStart := None,
         console := s.console + [ConnectionEstablished(start, targetId)])
  }

  /** A completed connection never repeats a pair, in either direction. */
  lemma {:induction false} CompleteConnectionNoDuplicate(s: WebState, targetId: int, draw: real)
    requires s.connectionStart.Some? && 0.0 <= draw < 1.0
    requires forall i, j :: 0 <= i < j < |s.connections| ==>
      !Linked([s.connections[j]], s.connections[i].source, s.connections[i].target)
    ensures var r := CompleteConnection(s, targetId, draw);
      forall i, j :: 0 <= i < j < |r.connections| ==>
        !Linked([r.connections[j]], r.connections[i].source, r.connections[i].target)
  {
    var r := CompleteConnection(s, targetId, draw);
    var n := |s.connections|;
    if r.connections != s.connections {
      forall i, j | 0 <= i < j < |r.connections|
        ensures !Linked([r.connections[j]], r.connections[i].source, r.connections[i].target)
      {
        if j == n {
          if Linked([r.connections[j]], r.connections[i].source, r.connections[i].target) {
            assert Linked(s.connections, s.connectionStart.value, targetId) by {
              assert r.connections[i] == s.connections[i];
            }
            assert false;
          }
        } else {
          assert r.connections[i] == s.connections[i] && r.connections[j] == s.connections[j];
        }
      }
    }
  }

  /** A click while connecting completes the connection; otherwise it toggles the selection. */
  function HandleNodeClick(s: WebState, id: int, draw: real): (r: WebState)
    requires Inv(s) && 0.0 <= draw < 1.0
    ensures !s.isConnecting ==> r == s.(selected := if s.selected == Some(id) then None else Some(id))
    ensures s.isConnecting ==> r == CompleteConnection(s, id, draw)
  {
    if s.isConnecting then CompleteConnection(s, id, draw)
    else s.(selected := if s.selected == Some(id) then None else Some(id))
  }

  /** A click on the background clears the selection and cancels connecting mode. */
  function HandleBackgroundClick(s: WebState): (r: WebState)
    ensures r.selected.None? && !r.isConnecting
    ensures s.isConnecting ==> r.connectionStart.None? && r.console == s.console + [ConnectionCancelled]
    ensures !s.isConnecting ==> r == s.(selected := None)
  {
    if s.isConnecting then
      s.(selected := None, isConnecting := false, connectionStart := None, console := s.console + [ConnectionCancelled])
    else
      s.(selected := None)
  }

  // ---------------------------------------------------------------------
  // Connecting all nodes in a ring
  // ---------------------------------------------------------------------

  /** The ends of the ring link leaving node `i`: from it to the next node, the last to the first. */
  function RingSource(ns: seq<WebNode>, i: nat): int
    requires i < |ns|
  {
    ns[i].id
  }

  function RingTarget(ns: seq<WebNode>, i: nat): int
    requires i < |ns|
  {
    ns[(i + 1) % |ns|].id
  }

  function RingLink(ns: seq<WebNode>, i: nat, draw: real): (c: Connection)
    requires i < |ns|
    ensures c.source == RingSource(ns, i) && c.target == RingTarget(ns, i)
  {
    Connection(ns[i].id, ns[(i + 1) % |ns|].id, draw * 3.0)
  }

  /**
   * The ring links among the first `i` that are absent, in either
   * direction, from the connections that existed before the loop.
   */
  function RingAdditions(ns: seq<WebNode>, cs: seq<Connection>, draws: seq<real>, i: nat): (r: seq<Connection>)
    requires i <= |ns| == |draws|
    ensures |r| <= i
    decreases i
  {
    if i == 0 then []
    else
      var c := RingLink(ns, i - 1, draws[i - 1]);
      RingAdditions(ns, cs, draws, i - 1) + (if Linked(cs, c.source, c.target) then [] else [c])
  }

  /**
   * `connectAllNodes`: with fewer than two nodes an error is logged;
   * otherwise every ring link absent from the existing connections is
   * appended, and the count is logged.
   */
  method ConnectAllNodes(s: WebState, draws: seq<real>) returns (r: WebState)
    requires |draws| == |s.nodes|
    ensures |s.nodes| < 2 ==> r == s.(console := s.console + [NeedTwoNodes])
    ensures |s.nodes| >= 2 ==>
      var added := RingAdditions(s.nodes, s.connections, draws, |s.nodes|);
      r == s.(connections := s.connections + added, console := s.console + [CircuitFormed(|added|)])
  {
    if |s.nodes| < 2 {
      return s.(console := s.console + [NeedTwoNodes]);
    }
    var added: seq<Connection> := [];
    for i := 0 to |s.nodes|
      invariant added == RingAdditions(s.nodes, s.connections, draws, i)
    {
      var source := s.nodes[i].id;
      var target := s.nodes[(i + 1) % |s.nodes|].id;
      var exists_ := false;
      for k := 0 to |s.connections|
        invariant exists_ <==> Linked(s.connections[..k], source, target)
      {
        var c := s.connections[k];
        assert s.connections[..k + 1] == s.connections[..k] + [c];
        if (c.source == source && c.target == target) || (c.source == target && c.target == source) {
          exists_ := true;
        }
      }
      assert s.connections[..|s.connections|] == s.connections;
      if !exists_ {
        added := added + [Connection(source, target, draws[i] * 3.0)];
      }
    }
    r := s.(connections := s.connections + added, console := s.console + [CircuitFormed(|added|)]);
  }

  /** Every added link is a ring link not present before, in either direction. */
  lemma {:induction false} RingAdditionsAreNew(ns: seq<WebNode>, cs: seq<Connection>, draws: seq<real>, i: nat)
    requires i <= |ns| == |draws|
    ensures forall k :: 0 <= k < |RingAdditions(ns, cs, draws, i)| ==>
      var c := RingAdditions(ns, cs, draws, i)[k];
      !Linked(cs, c.source, c.target) &&
      exists j :: 0 <= j < i && c.source == RingSource(ns, j) && c.target == RingTarget(ns, j)
    decreases i
  {
    if i > 0 {
      RingAdditionsAreNew(ns, cs, draws, i - 1);
    }
  }

  /** After the loop every ring link among the first `i` nodes is present. */
  lemma {:induction false} RingAdditionsCover(ns: seq<WebNode>, cs: seq<Connection>, draws: seq<real>, i: nat)
    requires i <= |ns| == |draws|
    ensures forall j :: 0 <= j < i ==>
      Linked(cs + RingAdditions(ns, cs, draws, i), RingSource(ns, j), RingTarget(ns, j))
    decreases i
  {
    if i > 0 {
      RingAdditionsCover(ns, cs, draws, i - 1);
      var prev := RingAdditions(ns, cs, draws, i - 1);
      var now := RingAdditions(ns, cs, draws, i);
      forall j | 0 <= j < i
        ensures Linked(cs + now, RingSource(ns, j), RingTarget(ns, j))
      {
        var a, b := RingSource(ns, j), RingTarget(ns, j);
        if j < i - 1 {
          var m :| 0 <= m < |cs + prev| &&
            (((cs + prev)[m].source == a && (cs + prev)[m].target == b) || ((cs + prev)[m].source == b && (cs + prev)[m].target == a));
          assert (cs + now)[m] == (cs + prev)[m];
        } else if Linked(cs, a, b) {
          var m :| 0 <= m < |cs| && ((cs[m].source == a && cs[m].target == b) || (cs[m].source == b && cs[m].target == a));
          assert (cs + now)[m] == cs[m];
        } else {
          assert (cs + now)[|cs + now| - 1] == RingLink(ns, j, draws[j]);
        }
      }
    }
  }

  /** With unique ids and at least two nodes no ring link is a self-loop. */
  lemma {:induction false} RingAdditionsNoSelfLoops(ns: seq<WebNode>, cs: seq<Connection>, draws: seq<real>)
    requires 2 <= |ns| == |draws| && UniqueNodeIds(ns)
    ensures NoSelfLoops(RingAdditions(ns, cs, draws, |ns|))
  {
    var added := RingAdditions(ns, cs, draws, |ns|);
    RingAdditionsAreNew(ns, cs, draws, |ns|);
    forall k | 0 <= k < |added|
      ensures added[k].source != added[k].target
    {
      var j :| 0 <= j < |ns| && added[k].source == RingSource(ns, j) && added[k].target == RingTarget(ns, j);
      var j' := (j + 1) % |ns|;
      assert j != j' && added[k].source == ns[j].id && added[k].target == ns[j'].id;
    }
  }

  /**
   * Links added by one ring are not checked against each other: two
   * unconnected nodes get a link in each direction.
   */
  lemma {:induction false} RingTwoNodesLinksBothWays(ns: seq<WebNode>, draws: seq<real>)
    requires |ns| == 2 == |draws|
    ensures var added := RingAdditions(ns, [], draws, 2);
      |added| == 2 &&
      added[0].source == ns[0].id && added[0].target == ns[1].id &&
      added[1].source == ns[1].id && added[1].target == ns[0].id
  {
    assert RingAdditions(ns, [], draws, 1) == [RingLink(ns, 0, draws[0])];
  }

  // ---------------------------------------------------------------------
  // Dragging, echoes and zoom
  // ---------------------------------------------------------------------

  /** The index of the first node carrying `id`. */
  function FindIndex(ns: seq<WebNode>, id: int): (r: Option<nat>)
    ensures r.None? <==> forall k :: 0 <= k < |ns| ==> ns[k].id != id
    ensures r.Some? ==> r.value < |ns| && ns[r.value].id == id && forall k :: 0 <= k < r.value ==> ns[k].id != id
  {
    if ns == [] then None
    else if ns[0].id == id then Some(0)
    else match FindIndex(ns[1..], id)
      case None => None
      case Some(k) => Some(k + 1)
  }

  /** The draws a drag makes: whether an echo is left, and its radius. */
  datatype DragDraws = DragDraws(leave: real, radius: real)

  /**
   * A drag moved far enough (more than 10 units) leaves, on a draw above
   * 0.7, an echo at the old position; the five newest echoes are kept.
   */
  function DraggedNode(n: WebNode, x: real, y: real, d: DragDraws): (r: WebNode)
    requires 0.0 <= d.radius < 1.0
    ensures r.position == Point(x, y)
    ensures r == n.(position := r.position, echoes := r.echoes)
    ensures |n.echoes| <= MaxEchoes ==> |r.echoes| <= MaxEchoes
    ensures r.echoes == n.echoes ||
      (|r.echoes| >= 1 && r.echoes[|r.echoes| - 1] == EchoMark(n.position.x, n.position.y, 0.7, 25.0 + d.radius * 10.0) &&
       r.echoes[..|r.echoes| - 1] == (if |n.echoes| < MaxEchoes then n.echoes else n.echoes[|n.echoes| - MaxEchoes + 1..]))
  {
    var dx := x - n.position.x;
    var dy := y - n.position.y;
    var echoes :=
      if dx * dx + dy * dy > 100.0 && d.leave > 0.7 then
        var grown := n.echoes + [EchoMark(n.position.x, n.position.y, 0.7, 25.0 + d.radius * 10.0)];
        if |grown| > MaxEchoes then grown[|grown| - MaxEchoes..] else grown
      else n.echoes;
    n.(position := Point(x, y), echoes := echoes)
  }

  /** `handleNodeDrag`: the first node with the id is moved; an unknown id changes nothing. */
  function HandleNodeDrag(s: WebState, id: int, x: real, y: real, d: DragDraws): (r: WebState)
    requires 0.0 <= d.radius < 1.0
    ensures FindIndex(s.nodes, id).None? ==> r == s
    ensures FindIndex(s.nodes, id).Some? ==>
      var i := FindIndex(s.nodes, id).value;
      r == s.(nodes := s.nodes[i := DraggedNode(s.nodes[i], x, y, d)])
  {
    match FindIndex(s.nodes, id)
    case None => s
    case Some(i) => s.(nodes := s.nodes[i := DraggedNode(s.nodes[i], x, y, d)])
  }

  function Faded(e: EchoMark): EchoMark
  {
    e.(opacity := e.opacity * 0.95, radius := e.radius * 0.98)
  }

  /** `echoes.map(fade)`. */
  function FadeAll(es: seq<EchoMark>): (r: seq<EchoMark>)
    ensures |r| == |es|
    ensures forall k :: 0 <= k < |es| ==> r[k] == Faded(es[k])
  {
    if es == [] then [] else [Faded(es[0])] + FadeAll(es[1..])
  }

  /** `filter(echo => echo.opacity > 0.1)`. */
  function Visible(es: seq<EchoMark>): (r: seq<EchoMark>)
    ensures |r| <= |es|
    ensures forall e :: e in r <==> e in es && e.opacity > 0.1
  {
    if es == [] then []
    else (if es[0].opacity > 0.1 then [es[0]] else []) + Visible(es[1..])
  }

  /** One fade of a node's echoes: each fades, and those at opacity 0.1 or less go. */
  function FadeEchoes(es: seq<EchoMark>): (r: seq<EchoMark>)
    ensures |r| <= |es|
    ensures forall e :: e in r <==> e.opacity > 0.1 && exists j :: 0 <= j < |es| && e == Faded(es[j])
  {
    var faded := FadeAll(es);
    assert forall e :: e in faded <==> exists j :: 0 <= j < |es| && e == Faded(es[j]) by {
      forall e | e in faded
        ensures exists j :: 0 <= j < |es| && e == Faded(es[j])
      {
        var j :| 0 <= j < |faded| && faded[j] == e;
      }
    }
    Visible(faded)
  }

  /** The echo timer's tick: every node's echoes fade; nothing else changes. */
  function FadeTick(ns: seq<WebNode>): (r: seq<WebNode>)
    ensures |r| == |ns|
    ensures forall k :: 0 <= k < |ns| ==> r[k] == ns[k].(echoes := FadeEchoes(ns[k].echoes))
  {
    if ns == [] then []
    else [ns[0].(echoes := FadeEchoes(ns[0].echoes))] + FadeTick(ns[1..])
  }

  /** A fade never lengthens an echo list, so the cap and the ids survive it. */
  lemma {:induction false} FadeTickKeepsInv(s: WebState)
    requires Inv(s)
    ensures Inv(s.(nodes := FadeTick(s.nodes)))
    ensures forall k :: 0 <= k < |s.nodes| ==> |FadeTick(s.nodes)[k].echoes| <= |s.nodes[k].echoes|
  {
  }

  /** `handleZoom`: the product clamped to [0.1, 2]. */
  function HandleZoom(zoom: real, factor: real): (r: real)
    ensures 0.1 <= r <= 2.0
    ensures 0.1 <= zoom * factor <= 2.0 ==> r == zoom * factor
    ensures zoom * factor < 0.1 ==> r == 0.1
    ensures zoom * factor > 2.0 ==> r == 2.0
  {
    MaxR(0.1, MinR(2.0, zoom * factor))
  }

  // ---------------------------------------------------------------------
  // The invariant across handlers
  // ---------------------------------------------------------------------

  lemma {:induction false} AddNodeKeepsInv(s: WebState, d: NodeDraws)
    requires Inv(s) && DrawsOk(d)
    ensures Inv(AddNode(s, d))
  {
  }

  lemma {:induction false} DeleteNodeKeepsInv(s: WebState, id: int)
    requires Inv(s)
    ensures Inv(DeleteNode(s, id))
  {
    var r := DeleteNode(s, id);
    WithoutNodeUnique(s.nodes, id);
    forall k | 0 <= k < |r.nodes|
      ensures |r.nodes[k].echoes| <= MaxEchoes
    {
      assert r.nodes[k] in s.nodes;
    }
    forall k | 0 <= k < |r.connections|
      ensures r.connections[k].source != r.connections[k].target
    {
      assert r.connections[k] in s.connections;
    }
  }

  lemma {:induction false} WithoutNodeUnique(ns: seq<WebNode>, id: int)
    requires UniqueNodeIds(ns)
    ensures UniqueNodeIds(WithoutNode(ns, id))
  {
    if ns != [] {
      var rest := WithoutNode(ns[1..], id);
      WithoutNodeUnique(ns[1..], id);
      if ns[0].id != id {
        forall k | 0 <= k < |rest|
          ensures rest[k].id != ns[0].id
        {
          assert rest[k] in ns[1..];
          var q :| 0 <= q < |ns[1..]| && ns[1..][q] == rest[k];
          assert ns[q + 1] == rest[k];
        }
        assert WithoutNode(ns, id) == [ns[0]] + rest;
      }
    }
  }

  lemma {:induction false} CompleteConnectionKeepsInv(s: WebState, targetId: int, draw: real)
    requires Inv(s) && s.isConnecting && 0.0 <= draw < 1.0
    ensures Inv(CompleteConnection(s, targetId, draw))
  {
  }

  lemma {:induction false} ConnectAllKeepsInv(s: WebState, draws: seq<real>)
    requires Inv(s) && |draws| == |s.nodes| >= 2
    ensures var added := RingAdditions(s.nodes, s.connections, draws, |s.nodes|);
      Inv(s.(connections := s.connections + added, console := s.console + [CircuitFormed(|added|)]))
  {
    RingAdditionsNoSelfLoops(s.nodes, s.connections, draws);
  }

  lemma {:induction false} DragKeepsInv(s: WebState, id: int, x: real, y: real, d: DragDraws)
    requires Inv(s) && 0.0 <= d.radius < 1.0
    ensures Inv(HandleNodeDrag(s, id, x, y, d))
  {
  }
}
