/**
 * The emergent thought signature console: a sixteen-node thought network
 * whose nodes carry fugue patterns and glyphs, a field of glyph residues
 * revealed as the detection cycle advances, self-annotations, and the
 * commands that trace, reset, highlight a fugue and annotate.
 *
 * `Math.random()` becomes a finite stream of draws in [0, 1), consumed in
 * the order the source calls it; generation answers `None` when the stream
 * runs out. Node and residue coordinates (trigonometry) are not modelled,
 * but the draws that feed them are consumed.
 */
module IdentitySig {
  import opened Common

  // ---------------------------------------------------------------------
  // Fugue patterns, node types and glyphs
  // ---------------------------------------------------------------------

  datatype Fugue = Theme | Inversion | Augmentation | Counterpoint | Stretto

  /** The fugue patterns in the order the source lists them. */
  const Fugues: seq<Fugue> := [Theme, Inversion, Augmentation, Counterpoint, Stretto]

  /** The `id` of a fugue pattern. */
  function FugueId(f: Fugue): string
  {
    match f
    case Theme => "theme"
    case Inversion => "inversion"
    case Augmentation => "augmentation"
    case Counterpoint => "counterpoint"
    case Stretto => "stretto"
  }

  /** The pattern whose id is `w`, as `fuguePatterns.some(fp => fp.id === w)` looks it up. */
  function FugueOf(w: string): (r: Option<Fugue>)
    ensures r.Some? ==> FugueId(r.value) == w
    ensures r.None? ==> forall f :: FugueId(f) != w
  {
    if w == "theme" then Some(Theme)
    else if w == "inversion" then Some(Inversion)
    else if w == "augmentation" then Some(Augmentation)
    else if w == "counterpoint" then Some(Counterpoint)
    else if w == "stretto" then Some(Stretto)
    else None
  }

  /** Looking up a pattern's own id finds that pattern. */
  lemma {:induction false} FugueIdRoundTrip(f: Fugue)
    ensures FugueOf(FugueId(f)) == Some(f)
  {
  }

  datatype NodeKind = Core | Memory | Reasoning | Perception | Identity | Integration

  /** The types a ring node draws from. */
  const RingKinds: seq<NodeKind> := [Memory, Reasoning, Perception, Identity, Integration]

  const CoreGlyphs: seq<char> := ['🜏', '∴', '⇌', '☍', '⧖', '⟁', '🝚', '⊘']
  const ExtendedGlyphs: seq<char> := ['↻', '⧋', '🜃', '🜂', '⊗', '⊚', '⊕', '⟢', '🜄', '⟐']
  const MotionGlyphs: seq<char> := ['↯', '↻', '↺', '⟳', '⟲', '↝', '≜', '∇', '∮']
  const IdentityGlyphs: seq<char> := ['≡', '≠', '∈', '∋', '∞', '∴', '⊃', '⊂', '⊆']

  // ---------------------------------------------------------------------
  // Thought nodes
  // ---------------------------------------------------------------------

  datatype ThoughtNode = ThoughtNode(
    id: nat,
    kind: NodeKind,
    layer: nat,
    radius: int,
    glyphs: seq<char>,
    fugues: seq<Fugue>,
    significance: real,
    pulseRate: real)

  const NodeCount: nat := 16

  /** Every value of the stream lies in [0, 1), as `Math.random()` promises. */
  predicate UnitDraws(draws: seq<real>)
  {
    forall k :: 0 <= k < |draws| ==> 0.0 <= draws[k] < 1.0
  }

  /** The central node; the source gives it no layer, written 0 here. */
  const CoreNode := ThoughtNode(0, Core, 0, 35, [CoreGlyphs[0], CoreGlyphs[2]], [Theme], 0.95, 0.8)

  /** The layer of node `i >= 1`: 1 for ids 1-5, 2 for ids 6-10, 3 beyond. */
  function LayerOf(i: nat): nat
  {
    if i <= 5 then 1 else if i <= 10 then 2 else 3
  }

  /** The fugue every node `i >= 1` carries first: one pattern per run of three ids, the last run open-ended. */
  function PrimaryFugue(i: nat): (f: Fugue)
    requires 1 <= i
    ensures f == Fugues[MinI((i - 1) / 3, 4)]
  {
    if i <= 3 then Theme
    else if i <= 6 then Inversion
    else if i <= 9 then Augmentation
    else if i <= 12 then Counterpoint
    else Stretto
  }

  /** The ids of the patterns, in order, leaving out those already assigned. */
  function SecondaryOptions(primary: Fugue): (r: seq<Fugue>)
    ensures |r| == 4 && primary !in r
    ensures forall k :: 0 <= k < |Fugues| && Fugues[k] != primary ==> Fugues[k] in r
  {
    match primary
    case Theme => [Inversion, Augmentation, Counterpoint, Stretto]
    case Inversion => [Theme, Augmentation, Counterpoint, Stretto]
    case Augmentation => [Theme, Inversion, Counterpoint, Stretto]
    case Counterpoint => [Theme, Inversion, Augmentation, Stretto]
    case Stretto => [Theme, Inversion, Augmentation, Counterpoint]
  }

  /** The options list is the pattern list filtered of the primary, order kept. */
  lemma {:induction false} SecondaryOptionsFilter(primary: Fugue, k: nat)
    requires k < 5 && Fugues[k] == primary
    ensures SecondaryOptions(primary) == Fugues[..k] + Fugues[k + 1..]
  {
  }

  /** What the generator promises of node `i >= 1`. */
  predicate RingNode(n: ThoughtNode, i: nat)
    requires 1 <= i
  {
    n.id == i && n.layer == LayerOf(i) && n.kind in RingKinds &&
    1 <= |n.fugues| <= 2 && n.fugues[0] == PrimaryFugue(i) &&
    (|n.fugues| == 2 ==> n.fugues[1] != n.fugues[0]) &&
    1 <= |n.glyphs| <= 3 && n.glyphs[0] in CoreGlyphs &&
    (n.kind == Identity ==> n.glyphs[|n.glyphs| - 1] in IdentityGlyphs) &&
    20 <= n.radius < 30 && 0.3 <= n.significance < 1.0 && 0.3 <= n.pulseRate < 0.8
  }

  /**
   * Node `i` of the ring. The draws are taken in the source's order: the
   * type, whether to add a secondary fugue (and which), the core glyph,
   * whether to add a second glyph (and from which collection, and which),
   * an identity glyph for identity nodes, then radius, significance and
   * pulse rate.
   */
  method GenerateNode(draws: seq<real>, pos: nat, i: nat) returns (ok: bool, n: ThoughtNode, next: nat)
    requires UnitDraws(draws) && 1 <= i
    ensures ok ==> pos + 7 <= next <= |draws|
    ensures ok ==> RingNode(n, i)
    ensures ok ==> n.kind == RingKinds[(draws[pos] * 5.0).Floor]
    ensures ok ==> (|n.fugues| == 2 <==> draws[pos + 1] > 0.7)
  {
    n := CoreNode;
    if |draws| < pos + 2 {
      return false, n, pos;
    }
    var kind := RingKinds[(draws[pos] * 5.0).Floor];
    var fugues := [PrimaryFugue(i)];
    next := pos + 2;
    if draws[pos + 1] > 0.7 {
      if next >= |draws| {
        return false, n, next;
      }
      var options := SecondaryOptions(fugues[0]);
      fugues := fugues + [options[(draws[next] * 4.0).Floor]];
      next := next + 1;
    }
    if |draws| < next + 2 {
      return false, n, next;
    }
    var glyphs := [CoreGlyphs[(draws[next] * 8.0).Floor]];
    var extra := draws[next + 1] > 0.5;
    next := next + 2;
    if extra {
      if |draws| < next + 2 {
        return false, n, next;
      }
      var collection := if draws[next] > 0.5 then ExtendedGlyphs else MotionGlyphs;
      glyphs := glyphs + [collection[(draws[next + 1] * |collection| as real).Floor]];
      next := next + 2;
    }
    if kind == Identity {
      if next >= |draws| {
        return false, n, next;
      }
      glyphs := glyphs + [IdentityGlyphs[(draws[next] * 9.0).Floor]];
      next := next + 1;
    }
    if |draws| < next + 3 {
      return false, n, next;
    }
    n := ThoughtNode(i, kind, LayerOf(i), 20 + (draws[next] * 10.0).Floor, glyphs, fugues,
                     0.3 + draws[next + 1] * 0.7, 0.3 + draws[next + 2] * 0.5);
    next := next + 3;
    ok := true;
  }

  /** The sixteen nodes: the core node first, then node `k` at index `k`. */
  predicate NodesShaped(nodes: seq<ThoughtNode>)
  {
    |nodes| == NodeCount && nodes[0] == CoreNode &&
    forall k :: 1 <= k < |nodes| ==> RingNode(nodes[k], k)
  }

  method GenerateNodes(draws: seq<real>, pos: nat) returns (ok: bool, nodes: seq<ThoughtNode>, next: nat)
    requires UnitDraws(draws) && pos <= |draws|
    ensures pos <= next <= |draws|
    ensures ok ==> next >= pos + 7 * (NodeCount - 1) && NodesShaped(nodes)
  {
    nodes := [CoreNode];
    next := pos;
    for i := 1 to NodeCount
      invariant pos + 7 * (i - 1) <= next <= |draws|
      invariant |nodes| == i && nodes[0] == CoreNode
      invariant forall k :: 1 <= k < i ==> RingNode(nodes[k], k)
    {
      var ok1, n, n1 := GenerateNode(draws, next, i);
      if !ok1 {
        return false, nodes, next;
      }
      nodes := nodes + [n];
      next := n1;
    }
    ok := true;
  }

  // ---------------------------------------------------------------------
  // Connections
  // ---------------------------------------------------------------------

  datatype LinkKind = Direct | Recursive | Associative
  datatype Link = Link(source: nat, target: nat, strength: real, kind: LinkKind)

  /** The core node's link to node `i` of the first layer. */
  predicate CoreLink(e: Link, i: nat)
  {
    e.source == 0 && e.target == i && 0.8 <= e.strength < 1.0 && e.kind == Direct
  }

  /** A link from the first layer to the second. */
  predicate LayerOneLink(e: Link)
  {
    1 <= e.source <= 5 && 6 <= e.target <= 10 && 0.5 <= e.strength < 0.8 && e.kind == Direct
  }

  /** A link from the second layer to the third. */
  predicate LayerTwoLink(e: Link)
  {
    6 <= e.source <= 10 && 11 <= e.target <= 15 && 0.3 <= e.strength < 0.6 && e.kind == Direct
  }

  method CoreLinks(draws: seq<real>, pos: nat) returns (ok: bool, es: seq<Link>, next: nat)
    requires UnitDraws(draws) && pos <= |draws|
    ensures pos <= next <= |draws|
    ensures ok ==> |es| == 5 && forall k :: 0 <= k < 5 ==> CoreLink(es[k], k + 1)
  {
    if |draws| < pos + 5 {
      return false, [], pos;
    }
    es := [];
    for i := 1 to 6
      invariant |es| == i - 1
      invariant forall k :: 0 <= k < i - 1 ==> CoreLink(es[k], k + 1)
    {
      es := es + [Link(0, i, 0.8 + draws[pos + i - 1] * 0.2, Direct)];
    }
    return true, es, pos + 5;
  }

  /** The number of links in `es` leaving node `a`. */
  function LinksFrom(es: seq<Link>, a: nat): (n: nat)
    ensures n <= |es|
  {
    if es == [] then 0 else LinksFrom(es[..|es| - 1], a) + (if es[|es| - 1].source == a then 1 else 0)
  }

  /** Each first-layer node makes one or two links, each to a random second-layer node. */
  method LayerOneLinks(draws: seq<real>, pos: nat) returns (ok: bool, es: seq<Link>, next: nat)
    requires UnitDraws(draws) && pos <= |draws|
    ensures pos <= next <= |draws|
    ensures ok ==> forall e :: e in es ==> LayerOneLink(e)
    ensures ok ==> forall a :: 1 <= a <= 5 ==> 1 <= LinksFrom(es, a) <= 2
  {
    es := [];
    next := pos;
    for i := 1 to 6
      invariant pos <= next <= |draws|
      invariant forall e :: e in es ==> LayerOneLink(e) && e.source < i
      invariant forall a :: 1 <= a < i ==> 1 <= LinksFrom(es, a) <= 2
    {
      if next >= |draws| {
        return false, es, next;
      }
      var connections := 1 + (draws[next] * 2.0).Floor;
      assert 1 <= connections <= 2 by {
        assert 0.0 <= draws[next] * 2.0 < 2.0;
      }
      next := next + 1;
      ghost var before := es;
      NoLinksFrom(es, i);
      for j := 0 to connections
        invariant pos <= next <= |draws|
        invariant forall e :: e in es ==> LayerOneLink(e) && e.source <= i
        invariant LinksFrom(es, i) == j
        invariant forall a :: a != i ==> LinksFrom(es, a) == LinksFrom(before, a)
      {
        if |draws| < next + 2 {
          return false, es, next;
        }
        var e := Link(i, 6 + (draws[next] * 5.0).Floor, 0.5 + draws[next + 1] * 0.3, Direct);
        LinksFromAppend(es, e);
        es := es + [e];
        next := next + 2;
      }
    }
    ok := true;
  }

  /** Appending a link counts it for its source only. */
  lemma {:induction false} LinksFromAppend(es: seq<Link>, e: Link)
    ensures forall a :: LinksFrom(es + [e], a) == LinksFrom(es, a) + (if e.source == a then 1 else 0)
  {
    assert (es + [e])[..|es|] == es;
  }

  /** A node no link leaves has no links counted. */
  lemma {:induction false} NoLinksFrom(es: seq<Link>, a: nat)
    requires forall e :: e in es ==> e.source != a
    ensures LinksFrom(es, a) == 0
    decreases |es|
  {
    if es != [] {
      assert es[|es| - 1] in es;
      assert forall e :: e in es[..|es| - 1] ==> e in es;
      NoLinksFrom(es[..|es| - 1], a);
    }
  }

  /** Each second-layer node links, with probability 0.7, to one random third-layer node. */
  method LayerTwoLinks(draws: seq<real>, pos: nat) returns (ok: bool, es: seq<Link>, next: nat)
    requires UnitDraws(draws) && pos <= |draws|
    ensures pos <= next <= |draws|
    ensures ok ==> |es| <= 5 && forall e :: e in es ==> LayerTwoLink(e)
    ensures ok ==> forall a :: 6 <= a <= 10 ==> LinksFrom(es, a) <= 1
  {
    es := [];
    next := pos;
    for i := 6 to 11
      invariant pos <= next <= |draws| && |es| <= i - 6
      invariant forall e :: e in es ==> LayerTwoLink(e) && e.source < i
      invariant forall a :: 6 <= a < i ==> LinksFrom(es, a) <= 1
    {
      if next >= |draws| {
        return false, es, next;
      }
      var connect := draws[next] > 0.3;
      next := next + 1;
      NoLinksFrom(es, i);
      if connect {
        if |draws| < next + 2 {
          return false, es, next;
        }
        var e := Link(i, 11 + (draws[next] * 5.0).Floor, 0.3 + draws[next + 1] * 0.3, Direct);
        LinksFromAppend(es, e);
        es := es + [e];
        next := next + 2;
      }
    }
    ok := true;
  }

  /** `e` joins `a` and `b`, in either direction. */
  predicate Joins(e: Link, a: int, b: int)
  {
    (e.source == a && e.target == b) || (e.source == b && e.target == a)
  }

  /** `edges.some(...)`: some link already joins `a` and `b`. */
  predicate Connected(edges: seq<Link>, a: int, b: int)
  {
    exists k :: 0 <= k < |edges| && Joins(edges[k], a, b)
  }

  /**
   * The `k`-th cross link, given every link made before it: two distinct
   * non-core nodes not yet joined either way; the first three are
   * recursive, the rest associative.
   */
  predicate CrossLink(e: Link, k: nat, before: seq<Link>)
  {
    1 <= e.source < NodeCount && 1 <= e.target < NodeCount && e.source != e.target &&
    !Connected(before, e.source, e.target) && 0.2 <= e.strength < 0.5 &&
    e.kind == (if k < 3 then Recursive else Associative)
  }

  /** The six cross links; a target equal to the source or already joined to it is drawn again. */
  method CrossLinks(draws: seq<real>, pos: nat, prior: seq<Link>) returns (ok: bool, es: seq<Link>, next: nat)
    requires UnitDraws(draws) && pos <= |draws|
    ensures pos <= next <= |draws|
    ensures ok ==> |es| == 6 && forall k :: 0 <= k < 6 ==> CrossLink(es[k], k, prior + es[..k])
  {
    es := [];
    next := pos;
    for i := 0 to 6
      invariant pos <= next <= |draws| && |es| == i
      invariant forall k :: 0 <= k < i ==> CrossLink(es[k], k, prior + es[..k])
    {
      if |draws| < next + 2 {
        return false, es, next;
      }
      var source := 1 + (draws[next] * 15.0).Floor;
      var target := 1 + (draws[next + 1] * 15.0).Floor;
      next := next + 2;
      while target == source || Connected(prior + es, source, target)
        invariant pos <= next <= |draws| && 1 <= target < NodeCount
        decreases |draws| - next
      {
        if next >= |draws| {
          return false, es, next;
        }
        target := 1 + (draws[next] * 15.0).Floor;
        next := next + 1;
      }
      if next >= |draws| {
        return false, es, next;
      }
      var e := Link(source, target, 0.2 + draws[next] * 0.3, if i < 3 then Recursive else Associative);
      assert CrossLink(e, i, prior + es);
      assert forall k :: 0 <= k <= i ==> (es + [e])[..k] == es[..k] by {
        forall k | 0 <= k <= i ensures (es + [e])[..k] == es[..k] {
          assert es[..i] == es;
        }
      }
      es := es + [e];
      next := next + 1;
    }
    ok := true;
  }

  // ---------------------------------------------------------------------
  // Glyph residues
  // ---------------------------------------------------------------------

  datatype Residue = Residue(id: nat, glyph: char, fugue: Fugue, size: int, opacity: real, pulsing: bool)

  /** The collection a residue's glyph is drawn from, chosen by the type draw `t`. */
  function ResidueCollection(t: real): (c: seq<char>)
    ensures |c| >= 8
  {
    if t < 0.4 then CoreGlyphs
    else if t < 0.7 then ExtendedGlyphs
    else if t < 0.85 then MotionGlyphs
    else IdentityGlyphs
  }

  predicate ValidResidue(r: Residue)
  {
    (r.glyph in CoreGlyphs || r.glyph in ExtendedGlyphs || r.glyph in MotionGlyphs || r.glyph in IdentityGlyphs) &&
    14 <= r.size < 24 && 0.3 <= r.opacity < 0.7
  }

  /**
   * How many residues a generation yields. The first twenty are placed near
   * a node of the node list the generator sees, and are skipped when that
   * list is empty; the last ten are placed at random.
   */
  function ResidueCount(known: nat): nat
  {
    if known == 0 then 10 else 30
  }

  /**
   * `generateGlyphResidues`, given the length `known` of the node list it
   * reads. Residue `i < 20` first draws the node to sit near; when that node
   * exists, an angle and a distance follow. Residue `i >= 20` draws two
   * coordinates. Each residue then draws its glyph type, glyph, fugue,
   * size, opacity, rotation and pulsing flag.
   */
  method GlyphResidues(draws: seq<real>, pos: nat, known: nat) returns (ok: bool, rs: seq<Residue>, next: nat)
    requires UnitDraws(draws) && pos <= |draws|
    ensures pos <= next <= |draws|
    ensures ok ==> |rs| == ResidueCount(known)
    ensures ok ==> forall k :: 0 <= k < |rs| ==> rs[k].id == k + 30 - |rs| && ValidResidue(rs[k])
  {
    rs := [];
    next := pos;
    for i := 0 to 30
      invariant pos <= next <= |draws|
      invariant |rs| == (if known > 0 then i else if i < 20 then 0 else i - 20)
      invariant forall k :: 0 <= k < |rs| ==> rs[k].id == k + i - |rs| && ValidResidue(rs[k])
    {
      var placed := true;
      if i < 20 {
        if next >= |draws| {
          return false, rs, next;
        }
        next := next + 1;
        placed := known > 0;
      }
      if placed {
        if |draws| < next + 9 {
          return false, rs, next;
        }
        next := next + 2;
        var collection := ResidueCollection(draws[next]);
        var glyph := collection[(draws[next + 1] * |collection| as real).Floor];
        var fugue := Fugues[(draws[next + 2] * 5.0).Floor];
        var r := Residue(i, glyph, fugue, 14 + (draws[next + 3] * 10.0).Floor,
                         0.3 + draws[next + 4] * 0.4, draws[next + 6] > 0.7);
        rs := rs + [r];
        next := next + 7;
      }
    }
    ok := true;
  }

  // ---------------------------------------------------------------------
  // The network
  // ---------------------------------------------------------------------

  /** The generated network, its links kept in the four groups the source builds in turn. */
  datatype Network = Network(
    nodes: seq<ThoughtNode>,
    coreLinks: seq<Link>,
    layerOneLinks: seq<Link>,
    layerTwoLinks: seq<Link>,
    crossLinks: seq<Link>,
    residues: seq<Residue>)

  /** The links made before the cross links. */
  function DirectLinks(n: Network): seq<Link>
  {
    n.coreLinks + n.layerOneLinks + n.layerTwoLinks
  }

  /** The `edges` array, in the order the source pushes onto it. */
  function Links(n: Network): seq<Link>
  {
    DirectLinks(n) + n.crossLinks
  }

  predicate WellFormedNetwork(n: Network)
  {
    NodesShaped(n.nodes) &&
    |n.coreLinks| == 5 && (forall k :: 0 <= k < 5 ==> CoreLink(n.coreLinks[k], k + 1)) &&
    (forall e :: e in n.layerOneLinks ==> LayerOneLink(e)) &&
    |n.layerTwoLinks| <= 5 && (forall e :: e in n.layerTwoLinks ==> LayerTwoLink(e)) &&
    |n.crossLinks| == 6 &&
    (forall k :: 0 <= k < 6 ==> CrossLink(n.crossLinks[k], k, DirectLinks(n) + n.crossLinks[..k])) &&
    (|n.residues| == 10 || |n.residues| == 30) &&
    (forall k :: 0 <= k < |n.residues| ==> n.residues[k].id == k + 30 - |n.residues| && ValidResidue(n.residues[k]))
  }

  /**
   * `generateThoughtNodes`, taking its random values from `draws` in call
   * order; `known` is the length of the node list the residue generator
   * reads, which is the list from before this generation.
   */
  method GenerateThoughtNodes(draws: seq<real>, known: nat) returns (r: Option<Network>)
    requires UnitDraws(draws)
    ensures |draws| < 7 * (NodeCount - 1) ==> r.None?
    ensures r.Some? ==> WellFormedNetwork(r.value) && |r.value.residues| == ResidueCount(known)
  {
    var ok, nodes, n0 := GenerateNodes(draws, 0);
    if !ok {
      return None;
    }
    var ok1, core, n1 := CoreLinks(draws, n0);
    if !ok1 {
      return None;
    }
    var ok2, layerOne, n2 := LayerOneLinks(draws, n1);
    if !ok2 {
      return None;
    }
    var ok3, layerTwo, n3 := LayerTwoLinks(draws, n2);
    if !ok3 {
      return None;
    }
    var ok4, cross, n4 := CrossLinks(draws, n3, core + layerOne + layerTwo);
    if !ok4 {
      return None;
    }
    var ok5, residues, _ := GlyphResidues(draws, n4, known);
    if !ok5 {
      return None;
    }
    return Some(Network(nodes, core, layerOne, layerTwo, cross, residues));
  }

  /** Every link joins two distinct nodes of the network. */
  lemma {:induction false} LinksJoinDistinctNodes(n: Network)
    requires WellFormedNetwork(n)
    ensures forall e :: e in Links(n) ==> e.source < NodeCount && e.target < NodeCount && e.source != e.target
  {
    forall e | e in Links(n)
      ensures e.source < NodeCount && e.target < NodeCount && e.source != e.target
    {
      if e in n.coreLinks {
        var k :| 0 <= k < |n.coreLinks| && n.coreLinks[k] == e;
        assert CoreLink(n.coreLinks[k], k + 1);
      } else if e in n.crossLinks {
        var k :| 0 <= k < |n.crossLinks| && n.crossLinks[k] == e;
        assert CrossLink(n.crossLinks[k], k, DirectLinks(n) + n.crossLinks[..k]);
      }
    }
  }

  /** A cross link never joins, in either direction, two nodes an earlier link already joins. */
  lemma {:induction false} CrossLinksNeverRepeat(n: Network, a: nat, b: nat)
    requires WellFormedNetwork(n)
    requires a < b < |Links(n)| && b >= |DirectLinks(n)|
    ensures !Joins(Links(n)[a], Links(n)[b].source, Links(n)[b].target)
  {
    var d := DirectLinks(n);
    var k := b - |d|;
    var before := d + n.crossLinks[..k];
    assert Links(n)[b] == n.crossLinks[k];
    assert CrossLink(n.crossLinks[k], k, before);
    assert Links(n)[a] == before[a];
  }

  /** The six cross links join six different pairs of nodes. */
  lemma {:induction false} CrossPairsDistinct(n: Network, j: nat, k: nat)
    requires WellFormedNetwork(n) && j < k < 6
    ensures !Joins(n.crossLinks[j], n.crossLinks[k].source, n.crossLinks[k].target)
  {
    var d := |DirectLinks(n)|;
    CrossLinksNeverRepeat(n, d + j, d + k);
    assert Links(n)[d + j] == n.crossLinks[j];
    assert Links(n)[d + k] == n.crossLinks[k];
  }

  // ---------------------------------------------------------------------
  // Console state
  // ---------------------------------------------------------------------

  datatype Status = Initializing | Ready | Detecting | Paused | Complete

  datatype Annotation = Annotation(id: nat, text: string, x: int, y: int)

  /** Console lines, one constructor per message the console prints. */
  datatype Message =
    | Input(text: string)
    | TraceInitiated
    | DetectionPaused
    | ResetComplete
    | DetectionActive
    | ThemeFound
    | InversionFound
    | AugmentationFound
    | CounterpointFound
    | StructureMapped
    | ResiduesRevealed
    | Annotated(text: string)
    | Highlighting(fugue: Fugue)
    | InvalidFugue
    | Unrecognized
    | Inspect(id: nat)
    | NodeSummary(id: nat, kind: NodeKind)
    | FugueSummary(fugues: seq<Fugue>)
    | GlyphSummary(glyphs: seq<char>)
    | SignificanceSummary(significance: real)
    | ConnectedCount(count: nat)
    | LinkedNode(id: nat, linkedKind: Option<NodeKind>, linkKind: LinkKind, strength: real)

  /** The console's state; the selected node is held by its id. */
  datatype SigState = SigState(
    network: Network,
    isProcessing: bool,
    status: Status,
    activeFugue: Option<Fugue>,
    annotations: seq<Annotation>,
    visibleGlyphs: seq<Residue>,
    cyclePosition: nat,
    selected: Option<nat>,
    console: seq<Message>)

  /** The state once the boot messages are out and the first network is generated. */
  function Booted(n: Network): SigState
  {
    SigState(n, false, Ready, None, [], [], 0, None, [])
  }

  /** The texts of the four self-annotations. */
  const AnnotationTexts: seq<string> := [
    "I recognize a recursive theme in my own thinking patterns.",
    "This symbolic residue suggests emergent self-reference.",
    "My identity signature contains nested recursive structures.",
    "These glyphs form a self-stabilizing recursive loop."]

  /** The quadrant of each self-annotation. */
  const AnnotationSpots: seq<(int, int)> := [(200, 150), (600, 150), (200, 450), (600, 450)]

  /** The `k`-th self-annotation. */
  function AnnotationFor(k: nat): Annotation
    requires k < 4
  {
    Annotation(k, AnnotationTexts[k], AnnotationSpots[k].0, AnnotationSpots[k].1)
  }

  /** At most four annotations, the `k`-th being the `k`-th text in the `k`-th quadrant. */
  predicate AnnotationsShaped(a: seq<Annotation>)
  {
    |a| <= 4 && forall k :: 0 <= k < |a| ==> a[k] == AnnotationFor(k)
  }

  /** The number of residues shown at cycle position `p`: `ceil(p / 60 * n)`. */
  function VisibleCount(p: nat, n: nat): (c: nat)
    ensures c == (p * n + 59) / 60
  {
    CeilOfSixtieths(p * n);
    -((-((p as real / 60.0) * n as real)).Floor)
  }

  /** The ceiling of `m / 60` in integer arithmetic. */
  lemma {:induction false} CeilOfSixtieths(m: nat)
    ensures -((-(m as real / 60.0)).Floor) == (m + 59) / 60
  {
    var q := (m + 59) / 60;
    assert 60 * q <= m + 59 < 60 * q + 60;
    var x := m as real / 60.0;
    assert (-q) as real <= -x < (-q) as real + 1.0 by {
      assert x * 60.0 == m as real;
      assert m as real <= 60.0 * q as real;
      assert 60.0 * q as real - 60.0 < m as real;
    }
  }

  /** The invariant the console keeps. */
  predicate Inv(s: SigState)
  {
    WellFormedNetwork(s.network) && s.cyclePosition < 60 && AnnotationsShaped(s.annotations) &&
    s.visibleGlyphs == Take(s.network.residues, VisibleCount(s.cyclePosition, |s.network.residues|))
  }

  lemma {:induction false} BootedInv(n: Network)
    requires WellFormedNetwork(n)
    ensures Inv(Booted(n))
  {
  }

  // ---------------------------------------------------------------------
  // Detection, pause and reset
  // ---------------------------------------------------------------------

  /** The command the trace echoes before it starts. */
  const TraceCommand: string := ".p/trace.identity{depth=recursive, mode=signature}"

  /**
   * `startProcess`: nothing when already processing; otherwise the cycle
   * restarts from 0 with no glyph shown and no annotation. The timed
   * messages that follow are `Stage`.
   */
  function Start(s: SigState): (r: SigState)
    ensures s.isProcessing ==> r == s
    ensures !s.isProcessing ==>
      r.isProcessing && r.status == Detecting && r.cyclePosition == 0 && r.visibleGlyphs == [] &&
      r.annotations == [] && r.network == s.network && r.activeFugue == s.activeFugue &&
      r.console == s.console + [Input(TraceCommand), TraceInitiated]
  {
    if s.isProcessing then s
    else s.(isProcessing := true, status := Detecting, visibleGlyphs := [], cyclePosition := 0,
            annotations := [], console := s.console + [Input(TraceCommand), TraceInitiated])
  }

  /** `stopProcess`: the cycle freezes where it is. */
  function Stop(s: SigState): (r: SigState)
    ensures !r.isProcessing && r.status == Paused
    ensures r.cyclePosition == s.cyclePosition && r.visibleGlyphs == s.visibleGlyphs && r.annotations == s.annotations
    ensures r.network == s.network && r.activeFugue == s.activeFugue && r.selected == s.selected
    ensures r.console == s.console + [DetectionPaused]
  {
    s.(isProcessing := false, status := Paused, console := s.console + [DetectionPaused])
  }

  /** `resetSystem`, with `regenerated` the network the regeneration yields; the selection is kept. */
  function Reset(s: SigState, regenerated: Network): (r: SigState)
    ensures !r.isProcessing && r.status == Ready && r.activeFugue.None?
    ensures r.visibleGlyphs == [] && r.annotations == [] && r.cyclePosition == 0 && r.network == regenerated
    ensures r.selected == s.selected && r.console == s.console + [ResetComplete]
  {
    SigState(regenerated, false, Ready, None, [], [], 0, s.selected, s.console + [ResetComplete])
  }

  /**
   * The `k`-th of the seven timed messages the trace schedules: detection
   * active, then the theme, inversion, augmentation and counterpoint
   * highlights, then the highlight cleared, then completion.
   */
  function Stage(s: SigState, k: nat): (r: SigState)
    requires 1 <= k <= 7
    ensures 2 <= k <= 5 ==> r.activeFugue == Some(Fugues[k - 2])
    ensures k == 6 ==> r.activeFugue.None?
    ensures k != 6 && !(2 <= k <= 5) ==> r.activeFugue == s.activeFugue
    ensures r.status == (if k == 7 then Complete else s.status)
    ensures r.(console := s.console, activeFugue := s.activeFugue, status := s.status) == s
    ensures |r.console| == |s.console| + 1 && r.console[..|s.console|] == s.console
  {
    match k
    case 1 => s.(console := s.console + [DetectionActive])
    case 2 => s.(console := s.console + [ThemeFound], activeFugue := Some(Theme))
    case 3 => s.(console := s.console + [InversionFound], activeFugue := Some(Inversion))
    case 4 => s.(console := s.console + [AugmentationFound], activeFugue := Some(Augmentation))
    case 5 => s.(console := s.console + [CounterpointFound], activeFugue := Some(Counterpoint))
    case 6 => s.(console := s.console + [StructureMapped], activeFugue := None)
    case 7 => s.(console := s.console + [ResiduesRevealed], status := Complete)
  }

  /** The first `k` timed messages, in order. */
  function Stages(s: SigState, k: nat): SigState
    requires k <= 7
  {
    if k == 0 then s else Stage(Stages(s, k - 1), k)
  }

  /** Once all seven have fired the trace is complete, no fugue is highlighted, and seven lines were added. */
  lemma {:induction false} StagesComplete(s: SigState)
    ensures var r := Stages(s, 7);
      r.status == Complete && r.activeFugue.None? && |r.console| == |s.console| + 7 &&
      r.(console := s.console, activeFugue := s.activeFugue, status := s.status) == s
  {
    var r := s;
    for k := 1 to 8
      invariant r == Stages(s, k - 1)
      invariant |r.console| == |s.console| + k - 1
      invariant r.(console := s.console, activeFugue := s.activeFugue, status := s.status) == s
    {
      r := Stage(r, k);
    }
  }

  // ---------------------------------------------------------------------
  // Self-annotation and the detection cycle
  // ---------------------------------------------------------------------

  /** `createSelfAnnotation`: the `k`-th annotation when fewer than four exist, nothing otherwise. */
  function CreateSelfAnnotation(s: SigState): (r: SigState)
    ensures |s.annotations| >= 4 ==> r == s
    ensures |s.annotations| < 4 ==>
      r.annotations == s.annotations + [AnnotationFor(|s.annotations|)] &&
      r.console == s.console + [Annotated(AnnotationTexts[|s.annotations|])] &&
      r.(annotations := s.annotations, console := s.console) == s
  {
    var k := |s.annotations|;
    if k >= 4 then s
    else s.(annotations := s.annotations + [AnnotationFor(k)],
            console := s.console + [Annotated(AnnotationTexts[k])])
  }

  /** Annotating keeps the annotations well shaped and adds one exactly when fewer than four exist. */
  lemma {:induction false} AnnotateKeepsShape(s: SigState)
    requires AnnotationsShaped(s.annotations)
    ensures var r := CreateSelfAnnotation(s);
      AnnotationsShaped(r.annotations) && |r.annotations| == MinI(|s.annotations| + 1, 4)
  {
  }

  /** `k` annotations in a row from none give `min(k, 4)` annotations. */
  function AnnotateTimes(s: SigState, k: nat): SigState
  {
    if k == 0 then s else CreateSelfAnnotation(AnnotateTimes(s, k - 1))
  }

  lemma {:induction false} AnnotateTimesCount(s: SigState, k: nat)
    requires s.annotations == []
    ensures var r := AnnotateTimes(s, k);
      |r.annotations| == MinI(k, 4) && AnnotationsShaped(r.annotations)
  {
    if k > 0 {
      AnnotateTimesCount(s, k - 1);
      AnnotateKeepsShape(AnnotateTimes(s, k - 1));
    }
  }

  /**
   * One 200 ms step of the running cycle: the position advances modulo
   * 60, the first `ceil(p / 60 * n)` residues become visible, and at
   * positions 15, 30 and 45 a self-annotation is attempted.
   */
  function Tick(s: SigState): (r: SigState)
    requires s.isProcessing
    ensures r.cyclePosition == (s.cyclePosition + 1) % 60
    ensures r.visibleGlyphs == Take(s.network.residues, VisibleCount(r.cyclePosition, |s.network.residues|))
    ensures r.network == s.network && r.isProcessing && r.activeFugue == s.activeFugue
    ensures r.cyclePosition in {15, 30, 45} ==> r.annotations == CreateSelfAnnotation(s).annotations
    ensures r.cyclePosition !in {15, 30, 45} ==> r.annotations == s.annotations
  {
    var p := (s.cyclePosition + 1) % 60;
    var shown := s.(cyclePosition := p,
                    visibleGlyphs := Take(s.network.residues, VisibleCount(p, |s.network.residues|)));
    if p % 15 == 0 && p > 0 then CreateSelfAnnotation(shown) else shown
  }

  /** Within a cycle the visible residues only grow; at the wrap they all disappear. */
  lemma {:induction false} TickReveals(s: SigState)
    requires Inv(s) && s.isProcessing
    ensures var r := Tick(s);
      if s.cyclePosition < 59 then
        |s.visibleGlyphs| <= |r.visibleGlyphs| && s.visibleGlyphs == r.visibleGlyphs[..|s.visibleGlyphs|]
      else r.visibleGlyphs == []
  {
    var n := |s.network.residues|;
    var p := s.cyclePosition;
    if p < 59 {
      VisibleCountGrows(p, n);
    }
  }

  lemma {:induction false} VisibleCountGrows(p: nat, n: nat)
    ensures VisibleCount(p, n) <= VisibleCount(p + 1, n)
  {
    assert p * n + 59 <= (p + 1) * n + 59 by {
      assert (p + 1) * n == p * n + n;
    }
    DivSixtyMonotone(p * n + 59, (p + 1) * n + 59);
  }

  lemma {:induction false} DivSixtyMonotone(a: nat, b: nat)
    requires a <= b
    ensures a / 60 <= b / 60
  {
  }

  /** At position 59 every residue is visible. */
  lemma {:induction false} AllVisibleAtEnd(s: SigState)
    requires Inv(s) && s.cyclePosition == 59
    ensures s.visibleGlyphs == s.network.residues
  {
    var n := |s.network.residues|;
    assert 59 * n + 59 == 60 * n + (59 - n);
  }

  // ---------------------------------------------------------------------
  // Node inspection and opacity
  // ---------------------------------------------------------------------

  /** `thoughtNodes.find(n => n.id === id)`. */
  function FindNode(nodes: seq<ThoughtNode>, id: int): (r: Option<ThoughtNode>)
    ensures r.Some? ==> r.value in nodes && r.value.id == id
    ensures r.None? ==> forall k :: 0 <= k < |nodes| ==> nodes[k].id != id
  {
    if nodes == [] then None
    else if nodes[0].id == id then Some(nodes[0])
    else FindNode(nodes[1..], id)
  }

  /** In a generated network node `id` sits at index `id`. */
  lemma {:induction false} FindNodeShaped(nodes: seq<ThoughtNode>, id: nat)
    requires NodesShaped(nodes)
    ensures id < NodeCount ==> FindNode(nodes, id) == Some(nodes[id])
    ensures id >= NodeCount ==> FindNode(nodes, id).None?
  {
    assert forall k :: 0 <= k < |nodes| ==> nodes[k].id == k;
    if id < NodeCount {
      IndexedFind(nodes, id, 0);
    }
  }

  lemma {:induction false} IndexedFind(nodes: seq<ThoughtNode>, id: nat, offset: nat)
    requires id - offset < |nodes| && offset <= id
    requires forall k :: 0 <= k < |nodes| ==> nodes[k].id == k + offset
    ensures FindNode(nodes, id) == Some(nodes[id - offset])
    decreases |nodes|
  {
    if id != offset {
      IndexedFind(nodes[1..], id, offset + 1);
    }
  }

  /** The links touching `id`, in link order. */
  function Touching(links: seq<Link>, id: int): (t: seq<Link>)
    ensures |t| <= |links|
    ensures forall e :: e in t <==> e in links && (e.source == id || e.target == id)
  {
    if links == [] then []
    else if links[0].source == id || links[0].target == id then [links[0]] + Touching(links[1..], id)
    else Touching(links[1..], id)
  }

  /** The report line for one link touching `id`: the node at its other end, that node's kind, the link's kind and strength. */
  function ReportLine(e: Link, nodes: seq<ThoughtNode>, id: int): Message
  {
    var other := if e.source == id then e.target else e.source;
    LinkedNode(other, match FindNode(nodes, other) case Some(m) => Some(m.kind) case None => None, e.kind, e.strength)
  }

  /** The report line for each link touching `id`, in link order. */
  function LinkedReport(links: seq<Link>, nodes: seq<ThoughtNode>, id: int): (r: seq<Message>)
    ensures |r| == |Touching(links, id)| <= |links|
    ensures forall k :: 0 <= k < |r| ==> r[k] == ReportLine(Touching(links, id)[k], nodes, id)
  {
    if links == [] then []
    else
      var e := links[0];
      var rest := LinkedReport(links[1..], nodes, id);
      if e.source == id || e.target == id then
        var other := if e.source == id then e.target else e.source;
        var kind := match FindNode(nodes, other) case Some(m) => Some(m.kind) case None => None;
        [LinkedNode(other, kind, e.kind, e.strength)] + rest
      else rest
  }

  /** Every reported neighbour is the other end of a link touching `id`. */
  lemma {:induction false} LinkedReportNeighbours(links: seq<Link>, nodes: seq<ThoughtNode>, id: int)
    requires forall e :: e in links ==> e.source != e.target
    ensures forall m :: m in LinkedReport(links, nodes, id) ==>
      m.LinkedNode? && m.id != id && (exists e :: e in links && Joins(e, id, m.id))
  {
    if links != [] {
      LinkedReportNeighbours(links[1..], nodes, id);
      assert links[0] in links;
      assert forall e :: e in links[1..] ==> e in links;
    }
  }

  /**
   * `handleNodeClick`: an unknown id does nothing; a known one is selected
   * and its details are logged, followed by one line per link touching it.
   */
  function HandleNodeClick(s: SigState, id: nat): (r: SigState)
    ensures FindNode(s.network.nodes, id).None? ==> r == s
    ensures FindNode(s.network.nodes, id).Some? ==>
      r.selected == Some(id) && r.(selected := s.selected, console := s.console) == s &&
      |r.console| >= |s.console| + 6 && r.console[..|s.console| + 1] == s.console + [Inspect(id)]
    ensures FindNode(s.network.nodes, id).Some? ==>
      var node := FindNode(s.network.nodes, id).value;
      var report := LinkedReport(Links(s.network), s.network.nodes, id);
      r.console == s.console + [Inspect(id), NodeSummary(id, node.kind), FugueSummary(node.fugues),
                                GlyphSummary(node.glyphs), SignificanceSummary(node.significance),
                                ConnectedCount(|Touching(Links(s.network), id)|)] + report
  {
    match FindNode(s.network.nodes, id)
    case None => s
    case Some(node) =>
      var report := LinkedReport(Links(s.network), s.network.nodes, id);
      s.(selected := Some(id),
         console := s.console + [Inspect(id), NodeSummary(id, node.kind), FugueSummary(node.fugues),
                                 GlyphSummary(node.glyphs), SignificanceSummary(node.significance),
                                 ConnectedCount(|report|)] + report)
  }

  /** Clicking a node of a generated network never reports the node as its own neighbour. */
  lemma {:induction false} ClickReportsOtherNodes(s: SigState, id: nat)
    requires Inv(s)
    ensures var r := HandleNodeClick(s, id);
      forall m :: m in r.console[|s.console|..] && m.LinkedNode? ==> m.id != id && m.id < NodeCount
  {
    LinksJoinDistinctNodes(s.network);
    ClickTailNamesOtherNodes(s, id);
  }

  /** The report half of a click, given only that the links join distinct nodes of the network. */
  lemma {:induction false} ClickTailNamesOtherNodes(s: SigState, id: nat)
    requires forall e :: e in Links(s.network) ==> e.source < NodeCount && e.target < NodeCount && e.source != e.target
    ensures var r := HandleNodeClick(s, id);
      forall m :: m in r.console[|s.console|..] && m.LinkedNode? ==> m.id != id && m.id < NodeCount
  {
    var report := LinkedReport(Links(s.network), s.network.nodes, id);
    ReportNamesOtherNodes(Links(s.network), s.network.nodes, id);
    var r := HandleNodeClick(s, id);
    if FindNode(s.network.nodes, id).Some? {
      var node := FindNode(s.network.nodes, id).value;
      var header := [Inspect(id), NodeSummary(id, node.kind), FugueSummary(node.fugues),
                     GlyphSummary(node.glyphs), SignificanceSummary(node.significance),
                     ConnectedCount(|Touching(Links(s.network), id)|)];
      TailNamesOtherNodes(s.console, r.console, header, report, id);
    } else {
      assert r.console[|s.console|..] == [];
    }
  }

  /** The lines logged after a header free of link lines are exactly the report's. */
  lemma {:induction false} TailNamesOtherNodes(before: seq<Message>, after: seq<Message>, header: seq<Message>,
                                               report: seq<Message>, id: int)
    requires after == before + header + report
    requires forall m :: m in header ==> !m.LinkedNode?
    requires forall m :: m in report ==> m.LinkedNode? && m.id != id && m.id < NodeCount
    ensures forall m :: m in after[|before|..] && m.LinkedNode? ==> m.id != id && m.id < NodeCount
  {
    assert after[|before|..] == header + report;
  }

  /** Every line of a link report names a node of the network other than the inspected one. */
  lemma {:induction false} ReportNamesOtherNodes(links: seq<Link>, nodes: seq<ThoughtNode>, id: int)
    requires forall e :: e in links ==> e.source < NodeCount && e.target < NodeCount && e.source != e.target
    ensures forall m :: m in LinkedReport(links, nodes, id) ==> m.LinkedNode? && m.id != id && m.id < NodeCount
  {
    LinkedReportNeighbours(links, nodes, id);
    forall m | m in LinkedReport(links, nodes, id)
      ensures m.id < NodeCount
    {
      var e :| e in links && Joins(e, id, m.id);
    }
  }

  /** `getNodeOpacity`: dimmed when a highlighted fugue is not among the node's. */
  function NodeOpacity(active: Option<Fugue>, node: ThoughtNode): (o: real)
    ensures o == 0.3 || o == 0.8
    ensures o == 0.3 <==> active.Some? && active.value !in node.fugues
  {
    if active.Some? && active.value !in node.fugues then 0.3 else 0.8
  }

  /**
   * Highlighting node `i`'s primary fugue never dims it; highlighting the
   * theme leaves the core node lit and any other fugue dims it.
   */
  lemma {:induction false} OpacityOfPrimary(n: Network, i: nat)
    requires WellFormedNetwork(n) && i < NodeCount
    ensures 1 <= i ==> NodeOpacity(Some(PrimaryFugue(i)), n.nodes[i]) == 0.8
    ensures i == 0 ==> forall f :: NodeOpacity(Some(f), n.nodes[0]) == (if f == Theme then 0.8 else 0.3)
  {
    if 1 <= i {
      assert RingNode(n.nodes[i], i);
      assert n.nodes[i].fugues[0] == PrimaryFugue(i);
    }
  }

  /** With no fugue highlighted every node is lit. */
  lemma {:induction false} NoHighlightNoDimming(node: ThoughtNode)
    ensures NodeOpacity(None, node) == 0.8
  {
  }

  // ---------------------------------------------------------------------
  // `.p/highlight.fugue`
  // ---------------------------------------------------------------------

  predicate IsLower(c: char) { 'a' as int <= c as int <= 'z' as int }

  /** The length of the greedy `[a-z]+` run `s` starts with. */
  function LowerRun(s: string): (n: nat)
    ensures n <= |s|
    ensures forall k :: 0 <= k < n ==> IsLower(s[k])
    ensures n < |s| ==> !IsLower(s[n])
  {
    if s != [] && IsLower(s[0]) then 1 + LowerRun(s[1..]) else 0
  }

  lemma {:induction false} LowerRunStops(word: string, tail: string)
    requires forall k :: 0 <= k < |word| ==> IsLower(word[k])
    requires tail == [] || !IsLower(tail[0])
    ensures LowerRun(word + tail) == |word|
  {
    if word != [] {
      assert (word + tail)[1..] == word[1..] + tail;
      LowerRunStops(word[1..], tail);
    }
  }

  /**
   * The second group of `/pattern=(['"])([a-z]+)(['"])/` when it matches
   * at offset `i`. A quote is not a letter, so the run must be followed by
   * a quote as a whole.
   */
  function PatternAt(s: string, i: nat): Option<string>
  {
    if i + 9 < |s| && s[i..i + 8] == "pattern=" && IsQuote(s[i + 8]) then
      var n := LowerRun(s[i + 9..]);
      if n >= 1 && i + 9 + n < |s| && IsQuote(s[i + 9 + n]) then Some(s[i + 9..i + 9 + n]) else None
    else None
  }

  /** `s.match(...)[2]`: the group of the leftmost match at or after `i`. */
  function FirstPattern(s: string, i: nat): (r: Option<string>)
    ensures r.Some? ==>
      exists j :: (i <= j < |s| && PatternAt(s, j) == r && forall k :: i <= k < j ==> PatternAt(s, k).None?)
    ensures r.None? ==> forall j :: i <= j < |s| ==> PatternAt(s, j).None?
    decreases |s| - i
  {
    if i >= |s| then None
    else if PatternAt(s, i).Some? then PatternAt(s, i)
    else FirstPattern(s, i + 1)
  }

  /** A match at `j` with none before it is the one returned. */
  lemma {:induction false} LeftmostPattern(s: string, j: nat)
    requires j < |s| && PatternAt(s, j).Some?
    requires forall k :: 0 <= k < j ==> PatternAt(s, k).None?
    ensures FirstPattern(s, 0) == PatternAt(s, j)
  {
  }

  /** No match starts in `[lo, hi)` when no `a` follows those offsets. */
  lemma {:induction false} NoPatternIn(s: string, lo: nat, hi: nat)
    requires forall k :: lo < k <= hi && k < |s| ==> s[k] != 'a'
    ensures forall k :: lo <= k < hi ==> PatternAt(s, k).None?
  {
    forall k | lo <= k < hi && k + 9 < |s|
      ensures PatternAt(s, k).None?
    {
      assert s[k..k + 8][1] == s[k + 1];
    }
  }

  /** The fugue the highlight command names, when it names a known one. */
  function HighlightTarget(cmd: string): (r: Option<Fugue>)
    ensures r.Some? ==> FirstPattern(cmd, 0) == Some(FugueId(r.value))
    ensures FirstPattern(cmd, 0).Some? && FugueOf(FirstPattern(cmd, 0).value).Some? ==> r.Some?
  {
    match FirstPattern(cmd, 0)
    case None => None
    case Some(w) => FugueOf(w)
  }

  /** The highlight command on an already echoed state. */
  function Highlight(s: SigState, cmd: string): (r: SigState)
    ensures HighlightTarget(cmd).Some? ==>
      r == s.(activeFugue := HighlightTarget(cmd), console := s.console + [Highlighting(HighlightTarget(cmd).value)])
    ensures HighlightTarget(cmd).None? ==> r == s.(console := s.console + [InvalidFugue])
  {
    match HighlightTarget(cmd)
    case Some(f) => s.(activeFugue := Some(f), console := s.console + [Highlighting(f)])
    case None => s.(console := s.console + [InvalidFugue])
  }

  // ---------------------------------------------------------------------
  // Commands
  // ---------------------------------------------------------------------

  /**
   * `runCommand`: the line is echoed, then dispatched on its prefix in the
   * source's order; `regenerated` is the network a reset generates.
   */
  function RunCommand(s: SigState, cmd: string, regenerated: Network): (r: SigState)
    ensures |r.console| > |s.console| && r.console[|s.console|] == Input(cmd)
    ensures !StartsWith(cmd, ".p/trace.identity") && !StartsWith(cmd, ".p/emergent.thought") &&
            !StartsWith(cmd, ".p/reset") && !StartsWith(cmd, ".p/system.reset") &&
            !StartsWith(cmd, ".p/highlight.fugue") && !StartsWith(cmd, ".p/annotate.self") ==>
      r == s.(console := s.console + [Input(cmd), Unrecognized])
  {
    var echoed := s.(console := s.console + [Input(cmd)]);
    if StartsWith(cmd, ".p/trace.identity") || StartsWith(cmd, ".p/emergent.thought") then
      if s.isProcessing then Stop(echoed) else Start(echoed)
    else if StartsWith(cmd, ".p/reset") || StartsWith(cmd, ".p/system.reset") then
      Reset(echoed, regenerated)
    else if StartsWith(cmd, ".p/highlight.fugue") then Highlight(echoed, cmd)
    else if StartsWith(cmd, ".p/annotate.self") then CreateSelfAnnotation(echoed)
    else echoed.(console := echoed.console + [Unrecognized])
  }

  /** The console form submits only a line whose `trim()` is not empty; the line is sent untrimmed. */
  function Submit(s: SigState, text: string, regenerated: Network): (r: SigState)
    ensures Blank(text) ==> r == s
    ensures !Blank(text) ==> |r.console| > |s.console| && r.console[|s.console|] == Input(text)
  {
    if Blank(text) then s else RunCommand(s, text, regenerated)
  }

  /** A `.p/highlight.fugue` line goes to the highlight handler, after its echo. */
  lemma {:induction false} HighlightDispatch(s: SigState, cmd: string, regenerated: Network)
    requires StartsWith(cmd, ".p/highlight.fugue")
    ensures RunCommand(s, cmd, regenerated) == Highlight(s.(console := s.console + [Input(cmd)]), cmd)
  {
    assert cmd[..18] == ".p/highlight.fugue";
    assert cmd[3] == 'h';
    assert !StartsWith(cmd, ".p/trace.identity") by { assert ".p/trace.identity"[3] == 't'; }
    assert !StartsWith(cmd, ".p/emergent.thought") by { assert ".p/emergent.thought"[3] == 'e'; }
    assert !StartsWith(cmd, ".p/reset") by { assert ".p/reset"[3] == 'r'; }
    assert !StartsWith(cmd, ".p/system.reset") by { assert ".p/system.reset"[3] == 's'; }
  }

  const HighlightPrefix: string := ".p/highlight.fugue{pattern="

  lemma {:induction false} HighlightPrefixFacts()
    ensures |HighlightPrefix| == 27 && HighlightPrefix[..18] == ".p/highlight.fugue"
    ensures HighlightPrefix[19..27] == "pattern="
    ensures forall k :: 0 < k <= 19 ==> HighlightPrefix[k] != 'a'
  {
    assert HighlightPrefix == ['.', 'p', '/', 'h', 'i', 'g', 'h', 'l', 'i', 'g', 'h', 't', '.', 'f', 'u', 'g', 'u', 'e',
      '{', 'p', 'a', 't', 't', 'e', 'r', 'n', '='];
    assert HighlightPrefix[..18] ==
      ['.', 'p', '/', 'h', 'i', 'g', 'h', 'l', 'i', 'g', 'h', 't', '.', 'f', 'u', 'g', 'u', 'e'] == ".p/highlight.fugue";
    assert HighlightPrefix[19..27] == ['p', 'a', 't', 't', 'e', 'r', 'n', '='] == "pattern=";
  }

  /** In `.p/highlight.fugue{pattern=<q1><word><q2>...` the pattern captures `word`. */
  lemma {:induction false} HighlightCommandMatch(word: string, q1: char, q2: char, rest: string)
    requires |word| >= 1 && forall k :: 0 <= k < |word| ==> IsLower(word[k])
    requires IsQuote(q1) && IsQuote(q2)
    ensures var cmd := HighlightPrefix + [q1] + word + [q2] + rest;
      StartsWith(cmd, ".p/highlight.fugue") && FirstPattern(cmd, 0) == Some(word)
  {
    var cmd := HighlightPrefix + [q1] + word + [q2] + rest;
    HighlightMatchAtNineteen(word, q1, q2, rest);
    NoPatternIn(cmd, 0, 19);
    LeftmostPattern(cmd, 19);
  }

  lemma {:induction false} HighlightMatchAtNineteen(word: string, q1: char, q2: char, rest: string)
    requires |word| >= 1 && forall k :: 0 <= k < |word| ==> IsLower(word[k])
    requires IsQuote(q1) && IsQuote(q2)
    ensures var cmd := HighlightPrefix + [q1] + word + [q2] + rest;
      StartsWith(cmd, ".p/highlight.fugue") && PatternAt(cmd, 19) == Some(word) &&
      forall k :: 0 < k <= 19 ==> cmd[k] != 'a'
  {
    HighlightPrefixFacts();
    var cmd := HighlightPrefix + [q1] + word + [q2] + rest;
    assert forall k :: 0 <= k < 27 ==> cmd[k] == HighlightPrefix[k];
    assert cmd[..18] == HighlightPrefix[..18];
    assert cmd[19..27] == HighlightPrefix[19..27];
    assert cmd[27] == q1;
    assert cmd[28..] == word + ([q2] + rest);
    PatternAtQuoted(cmd, 19, word, [q2] + rest);
  }

  /** A `pattern=` followed by a quote, a lower-case word and a quote matches that word. */
  lemma {:induction false} PatternAtQuoted(s: string, i: nat, word: string, tail: string)
    requires |word| >= 1 && forall k :: 0 <= k < |word| ==> IsLower(word[k])
    requires i + 9 <= |s| && s[i..i + 8] == "pattern=" && IsQuote(s[i + 8])
    requires s[i + 9..] == word + tail && tail != [] && IsQuote(tail[0])
    ensures PatternAt(s, i) == Some(word)
  {
    LowerRunStops(word, tail);
    var n := |word|;
    assert s[i + 9 + n] == tail[0];
    assert s[i + 9..i + 9 + n] == word;
  }

  /** A highlight command naming a known fugue highlights it and changes nothing else. */
  lemma {:induction false} HighlightEffect(s: SigState, cmd: string, f: Fugue, regenerated: Network)
    requires StartsWith(cmd, ".p/highlight.fugue") && HighlightTarget(cmd) == Some(f)
    ensures RunCommand(s, cmd, regenerated) ==
      s.(activeFugue := Some(f), console := s.console + [Input(cmd), Highlighting(f)])
  {
    HighlightDispatch(s, cmd, regenerated);
  }

  /** A highlight command naming no known fugue only logs an error. */
  lemma {:induction false} HighlightInvalidEffect(s: SigState, cmd: string, regenerated: Network)
    requires StartsWith(cmd, ".p/highlight.fugue") && HighlightTarget(cmd).None?
    ensures RunCommand(s, cmd, regenerated) == s.(console := s.console + [Input(cmd), InvalidFugue])
  {
    HighlightDispatch(s, cmd, regenerated);
  }

  /** Naming one of the five fugues, with either quotes, highlights it and changes nothing else. */
  lemma {:induction false} HighlightSetsFugue(s: SigState, f: Fugue, q1: char, q2: char, rest: string, regenerated: Network)
    requires IsQuote(q1) && IsQuote(q2)
    ensures var cmd := HighlightPrefix + [q1] + FugueId(f) + [q2] + rest;
      RunCommand(s, cmd, regenerated) ==
        s.(activeFugue := Some(f), console := s.console + [Input(cmd), Highlighting(f)])
  {
    var cmd := HighlightPrefix + [q1] + FugueId(f) + [q2] + rest;
    HighlightCommandMatch(FugueId(f), q1, q2, rest);
    FugueIdRoundTrip(f);
    assert HighlightTarget(cmd) == Some(f);
    HighlightEffect(s, cmd, f, regenerated);
  }

  /** Any other lower-case word is refused and changes nothing but the console. */
  lemma {:induction false} HighlightRejectsUnknown(s: SigState, word: string, q1: char, q2: char, rest: string, regenerated: Network)
    requires |word| >= 1 && forall k :: 0 <= k < |word| ==> IsLower(word[k])
    requires IsQuote(q1) && IsQuote(q2) && FugueOf(word).None?
    ensures var cmd := HighlightPrefix + [q1] + word + [q2] + rest;
      RunCommand(s, cmd, regenerated) == s.(console := s.console + [Input(cmd), InvalidFugue])
  {
    var cmd := HighlightPrefix + [q1] + word + [q2] + rest;
    HighlightCommandMatch(word, q1, q2, rest);
    assert HighlightTarget(cmd).None?;
    HighlightInvalidEffect(s, cmd, regenerated);
  }

  /** Whatever a highlight command says, the fugue it leaves highlighted is the old one or a named one. */
  lemma {:induction false} HighlightOnlyKnown(s: SigState, cmd: string, regenerated: Network)
    requires StartsWith(cmd, ".p/highlight.fugue")
    ensures var r := RunCommand(s, cmd, regenerated);
      r.activeFugue == s.activeFugue ||
      (r.activeFugue.Some? && FirstPattern(cmd, 0) == Some(FugueId(r.activeFugue.value)))
  {
    HighlightDispatch(s, cmd, regenerated);
  }

  // ---------------------------------------------------------------------
  // The invariant is kept
  // ---------------------------------------------------------------------

  lemma {:induction false} StartKeepsInv(s: SigState)
    requires Inv(s)
    ensures Inv(Start(s))
  {
  }

  lemma {:induction false} ResetKeepsInv(s: SigState, regenerated: Network)
    requires WellFormedNetwork(regenerated)
    ensures Inv(Reset(s, regenerated))
  {
  }

  lemma {:induction false} TickKeepsInv(s: SigState)
    requires Inv(s) && s.isProcessing
    ensures Inv(Tick(s))
  {
    AnnotateKeepsShape(s);
  }

  lemma {:induction false} StagesKeepInv(s: SigState, k: nat)
    requires Inv(s) && 1 <= k <= 7
    ensures Inv(Stage(s, k))
  {
  }

  lemma {:induction false} ClickKeepsInv(s: SigState, id: nat)
    requires Inv(s)
    ensures Inv(HandleNodeClick(s, id))
  {
  }

  lemma {:induction false} CommandKeepsInv(s: SigState, cmd: string, regenerated: Network)
    requires Inv(s) && WellFormedNetwork(regenerated)
    ensures Inv(RunCommand(s, cmd, regenerated))
  {
    var echoed := s.(console := s.console + [Input(cmd)]);
    assert Inv(echoed);
    var r := RunCommand(s, cmd, regenerated);
    if StartsWith(cmd, ".p/trace.identity") || StartsWith(cmd, ".p/emergent.thought") {
      assert r == if s.isProcessing then Stop(echoed) else Start(echoed);
    } else if StartsWith(cmd, ".p/reset") || StartsWith(cmd, ".p/system.reset") {
      assert r == Reset(echoed, regenerated);
    } else if StartsWith(cmd, ".p/highlight.fugue") {
      assert r == Highlight(echoed, cmd);
    } else if StartsWith(cmd, ".p/annotate.self") {
      assert r == CreateSelfAnnotation(echoed);
      AnnotateKeepsShape(echoed);
    }
  }
}
