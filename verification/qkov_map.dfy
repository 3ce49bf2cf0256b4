/**
 * The recursive QKOV attribution drift map generator.
 *
 * The generator builds a layered directed graph: level `L` holds
 * `max(3, N - L)` nodes with consecutive ids, every node below the last
 * level points at one to three distinct nodes of the next level, and every
 * node and edge carries metadata, a glyph and a drift value.
 *
 * The graph is the networkx successor structure: `nodes[id]` holds a node's
 * attributes (ids are the consecutive integers from 0, in insertion order)
 * and `succ[id]` its out-edges in insertion order. The numpy draws are not
 * generated here: each node's draws come in as a `NodeDraws` record, and
 * the model turns the raw draws into the library's results
 * (`randint(1, h)` is `1 + raw % (h - 1)`, a choice without replacement
 * picks `pool[raw % |pool|]` and removes it).
 */
module QkovMap {
  import opened Common

  datatype Glyph = Decay | Feedback | Contradiction | Classifier

  datatype AttributionClass = Strong | Moderate | Weak

  /** The symbolic shell metadata of one node. */
  datatype Metadata = Metadata(
    recursionDepth: int,
    attributionEntropy: real,
    loopbackDensity: real,
    classifierInertia: real,
    attributionClass: AttributionClass,
    glyph: Glyph)

  datatype Node = Node(level: nat, position: nat, metadata: Metadata)

  datatype Edge = Edge(target: nat, weight: real)

  /**
   * The random draws one node consumes: the normal noise on its entropy,
   * the normal draws behind loopback density and classifier inertia, the
   * uniform draw for the weighted glyph fallback, the raw integers behind
   * the edge count and the target choice, the edge weights and the normal
   * noise on each out-edge's drift.
   */
  datatype NodeDraws = NodeDraws(
    entropyNoise: real,
    loopbackDraw: real,
    inertiaDraw: real,
    glyphDraw: real,
    edgeCountDraw: nat,
    targetDraws: seq<nat>,
    weightDraws: seq<real>,
    driftNoise: seq<real>)

  /** Enough draws for `count` nodes, and three per-edge draws for each. */
  predicate DrawsCover(count: nat, draws: seq<NodeDraws>)
  {
    |draws| >= count &&
    forall i :: 0 <= i < |draws| ==>
      |draws[i].targetDraws| >= 3 && |draws[i].weightDraws| >= 3 && |draws[i].driftNoise| >= 3
  }

  // ---------------------------------------------------------------------
  // Metadata and glyphs
  // ---------------------------------------------------------------------

  function ClassOf(entropy: real): (c: AttributionClass)
    ensures c == Strong <==> entropy < 0.3
    ensures c == Weak <==> entropy >= 0.7
  {
    if entropy < 0.3 then Strong else if entropy < 0.7 then Moderate else Weak
  }

  /**
   * `np.random.choice` over the glyphs in declaration order with
   * probabilities 0.4, 0.3, 0.2, 0.1, driven by one uniform draw in [0, 1).
   */
  function WeightedGlyph(draw: real): (g: Glyph)
    ensures g == Decay <==> draw < 0.4
    ensures g == Feedback <==> 0.4 <= draw < 0.7
    ensures g == Contradiction <==> 0.7 <= draw < 0.9
    ensures g == Classifier <==> 0.9 <= draw
  {
    if draw < 0.4 then Decay
    else if draw < 0.7 then Feedback
    else if draw < 0.9 then Contradiction
    else Classifier
  }

  /** The first matching rule wins; the weighted draw is the last resort. */
  function AssignGlyph(depth: int, entropy: real, level: nat, position: nat, draw: real): (g: Glyph)
    ensures entropy > 0.7 ==> g == Decay
    ensures entropy <= 0.7 && 1 <= level < depth - 1 && 0.3 <= entropy ==> g == Feedback
    ensures g == Decay ==> entropy > 0.7 || draw < 0.4
    ensures g == Feedback && !(1 <= level < depth - 1) ==> 0.4 <= draw < 0.7
    ensures g == Contradiction ==> entropy <= 0.7 && ((position % 3 == 0 && entropy > 0.4) || 0.7 <= draw < 0.9)
    ensures g == Classifier ==> entropy <= 0.7 && ((level == 1 && position % 2 == 0) || 0.9 <= draw)
    ensures (entropy <= 0.7 && !(1 <= level < depth - 1 && 0.3 <= entropy) &&
             position % 3 == 0 && entropy > 0.4) ==> g == Contradiction
    ensures (entropy <= 0.7 && !(1 <= level < depth - 1 && 0.3 <= entropy) && !(position % 3 == 0 && entropy > 0.4) &&
             level == 1 && position % 2 == 0) ==> g == Classifier
    ensures (entropy <= 0.7 && !(1 <= level < depth - 1 && 0.3 <= entropy) && !(position % 3 == 0 && entropy > 0.4) &&
             !(level == 1 && position % 2 == 0)) ==> g == WeightedGlyph(draw)
  {
    if entropy > 0.7 then Decay
    else if 1 <= level < depth - 1 && 0.3 <= entropy <= 0.7 then Feedback
    else if position % 3 == 0 && entropy > 0.4 then Contradiction
    else if level == 1 && position % 2 == 0 then Classifier
    else WeightedGlyph(draw)
  }

  /** The weighted draw decides the glyph only when no rule matches. */
  lemma {:induction false} GlyphDrawMattersOnlyAsFallback(depth: int, entropy: real, level: nat, position: nat, d1: real, d2: real)
    requires entropy > 0.7 || (1 <= level < depth - 1 && 0.3 <= entropy) ||
             (position % 3 == 0 && entropy > 0.4) || (level == 1 && position % 2 == 0)
    ensures AssignGlyph(depth, entropy, level, position, d1) == AssignGlyph(depth, entropy, level, position, d2)
  {
  }

  /** `(position / N) + (level / depth)`, capped at 1. */
  function BaseEntropy(depth: int, n: int, level: nat, position: nat): (b: real)
    requires n != 0 && level < depth
    ensures b <= 1.0
    ensures n > 0 ==> 0.0 <= b
  {
    MinR(1.0, (position as real) / (n as real) + (level as real) / (depth as real))
  }

  /**
   * The metadata of the node at `position` on `level`. The entropy is
   * capped at 1 but has no lower bound: negative noise can push it below 0.
   */
  function GenerateNodeMetadata(depth: int, n: int, level: nat, position: nat, d: NodeDraws): (m: Metadata)
    requires n != 0 && level < depth
    ensures m.recursionDepth == level + 1
    ensures m.attributionEntropy <= 1.0
    ensures m.attributionEntropy == 1.0 || m.attributionEntropy == BaseEntropy(depth, n, level, position) + d.entropyNoise
    ensures BaseEntropy(depth, n, level, position) + d.entropyNoise <= 1.0 ==>
      m.attributionEntropy == BaseEntropy(depth, n, level, position) + d.entropyNoise
    ensures BaseEntropy(depth, n, level, position) + d.entropyNoise >= 1.0 ==> m.attributionEntropy == 1.0
    ensures 0.0 <= m.loopbackDensity <= 1.0 && 0.0 <= m.classifierInertia <= 1.0
    ensures 0.0 <= d.loopbackDraw <= 1.0 ==> m.loopbackDensity == d.loopbackDraw
    ensures d.loopbackDraw < 0.0 ==> m.loopbackDensity == 0.0
    ensures d.loopbackDraw > 1.0 ==> m.loopbackDensity == 1.0
    ensures 0.0 <= d.inertiaDraw <= 1.0 ==> m.classifierInertia == d.inertiaDraw
    ensures d.inertiaDraw < 0.0 ==> m.classifierInertia == 0.0
    ensures d.inertiaDraw > 1.0 ==> m.classifierInertia == 1.0
    ensures m.attributionClass == ClassOf(m.attributionEntropy)
    ensures m.glyph == AssignGlyph(depth, m.attributionEntropy, level, position, d.glyphDraw)
  {
    var entropy := MinR(1.0, BaseEntropy(depth, n, level, position) + d.entropyNoise);
    Metadata(
      level + 1,
      entropy,
      ClampR(0.0, 1.0, d.loopbackDraw),
      ClampR(0.0, 1.0, d.inertiaDraw),
      ClassOf(entropy),
      AssignGlyph(depth, entropy, level, position, d.glyphDraw))
  }

  /** The entropy is only capped above: a node can carry a negative entropy. */
  lemma {:induction false} EntropyHasNoLowerClamp()
    ensures GenerateNodeMetadata(4, 7, 0, 0, NodeDraws(-0.25, 0.5, 0.4, 0.0, 0, [], [], [])).attributionEntropy < 0.0
  {
  }

  // ---------------------------------------------------------------------
  // Level layout: sizes, first ids, and the slot of each id
  // ---------------------------------------------------------------------

  /** `max(3, N - level)`. */
  function LevelSize(n: int, level: nat): nat
  {
    if n - level > 3 then n - level else 3
  }

  /** The id of the first node on `level`. */
  function LevelStart(n: int, level: nat): nat
  {
    if level == 0 then 0 else LevelStart(n, level - 1) + LevelSize(n, level - 1)
  }

  /** How many nodes `range(depth)` levels produce. */
  function NodeCount(depth: int, n: int): nat
  {
    if depth <= 0 then 0 else LevelStart(n, depth)
  }

  /** The (level, position) of id `id`, counting levels from `from`. */
  function SlotFrom(n: int, id: nat, from: nat): (nat, nat)
    decreases id
  {
    if id < LevelSize(n, from) then (from, id) else SlotFrom(n, id - LevelSize(n, from), from + 1)
  }

  function Slot(n: int, id: nat): (nat, nat)
  {
    SlotFrom(n, id, 0)
  }

  lemma {:induction false} LevelStartMonotone(n: int, a: nat, b: nat)
    requires a <= b
    ensures LevelStart(n, a) + (if a < b then LevelSize(n, a) else 0) <= LevelStart(n, b)
    decreases b - a
  {
    if a < b {
      LevelStartMonotone(n, a + 1, b);
    }
  }

  lemma {:induction false} SlotFromStart(n: int, from: nat, level: nat, p: nat, id: nat)
    requires from <= level && p < LevelSize(n, level)
    requires LevelStart(n, from) + id == LevelStart(n, level) + p
    ensures SlotFrom(n, id, from) == (level, p)
    decreases level - from
  {
    if from < level {
      LevelStartMonotone(n, from, level);
      assert id >= LevelSize(n, from);
      assert LevelStart(n, from + 1) == LevelStart(n, from) + LevelSize(n, from);
      SlotFromStart(n, from + 1, level, p, id - LevelSize(n, from));
    }
  }

  /** Level `L` holds the ids `LevelStart(L) .. LevelStart(L) + max(3, N - L) - 1`, in position order. */
  lemma {:induction false} SlotOfLevel(n: int, level: nat, p: nat)
    requires p < LevelSize(n, level)
    ensures Slot(n, LevelStart(n, level) + p) == (level, p)
  {
    SlotFromStart(n, 0, level, p, LevelStart(n, level) + p);
  }

  lemma {:induction false} SlotFromInverse(n: int, id: nat, from: nat)
    ensures SlotFrom(n, id, from).0 >= from
    ensures SlotFrom(n, id, from).1 < LevelSize(n, SlotFrom(n, id, from).0)
    ensures LevelStart(n, from) + id == LevelStart(n, SlotFrom(n, id, from).0) + SlotFrom(n, id, from).1
    decreases id
  {
    if id >= LevelSize(n, from) {
      SlotFromInverse(n, id - LevelSize(n, from), from + 1);
    }
  }

  /** An id lies on `level` exactly when it falls in that level's block of ids. */
  lemma {:induction false} SlotLevelIff(n: int, id: nat, level: nat)
    ensures Slot(n, id).0 == level <==> LevelStart(n, level) <= id < LevelStart(n, level) + LevelSize(n, level)
  {
    SlotFromInverse(n, id, 0);
    var (l, p) := Slot(n, id);
    if LevelStart(n, level) <= id < LevelStart(n, level) + LevelSize(n, level) {
      SlotOfLevel(n, level, id - LevelStart(n, level));
    } else if l == level {
      assert false;
    }
  }

  /** Every id below the node count lies on one of the `depth` levels. */
  lemma {:induction false} SlotBelowDepth(depth: int, n: int, id: nat)
    requires id < NodeCount(depth, n)
    ensures Slot(n, id).0 < depth
  {
    SlotFromInverse(n, id, 0);
    var l := Slot(n, id).0;
    if l >= depth {
      LevelStartMonotone(n, depth, l);
      assert false;
    }
  }

  // ---------------------------------------------------------------------
  // Target choice, drift, and drawing quantities
  // ---------------------------------------------------------------------

  /**
   * `k` picks from `pool` without replacement: each raw draw selects among
   * the members not yet taken.
   */
  function ChooseDistinct(pool: seq<nat>, k: nat, picks: seq<nat>): (r: seq<nat>)
    requires k <= |pool| && k <= |picks|
    ensures |r| == k
    ensures forall x :: x in r ==> x in pool
    ensures Distinct(pool) ==> Distinct(r)
    decreases k
  {
    if k == 0 then []
    else
      var j := picks[0] % |pool|;
      var rest := pool[..j] + pool[j + 1..];
      assert forall x :: x in rest ==> x in pool;
      assert Distinct(pool) ==> pool[j] !in rest && Distinct(rest) by {
        if Distinct(pool) {
          forall a, b | 0 <= a < b < |rest| ensures rest[a] != rest[b] {
            var a' := if a < j then a else a + 1;
            var b' := if b < j then b else b + 1;
            assert rest[a] == pool[a'] && rest[b] == pool[b'];
          }
          forall a | 0 <= a < |rest| ensures rest[a] != pool[j] {
            assert rest[a] == pool[if a < j then a else a + 1];
          }
        }
      }
      [pool[j]] + ChooseDistinct(rest, k - 1, picks[1..])
  }

  /** `min(1, entropy * (1 + level / depth))`. */
  function NodeDrift(depth: int, node: Node): (d: real)
    requires node.level < depth
    ensures d <= 1.0
    ensures d <= node.metadata.attributionEntropy * (1.0 + (node.level as real) / (depth as real))
    ensures d == 1.0 || d == node.metadata.attributionEntropy * (1.0 + (node.level as real) / (depth as real))
    ensures d < 1.0 <==> node.metadata.attributionEntropy * (1.0 + (node.level as real) / (depth as real)) < 1.0
  {
    MinR(1.0, node.metadata.attributionEntropy * (1.0 + (node.level as real) / (depth as real)))
  }

  /** A node is a classifier node when its glyph says so or its inertia exceeds 0.7. */
  predicate IsClassifierNode(m: Metadata)
  {
    m.glyph == Classifier || m.classifierInertia > 0.7
  }

  /** The mean of the endpoint drifts plus noise, clamped to [0, 1]. */
  function EdgeDrift(sourceDrift: real, targetDrift: real, noise: real): (d: real)
    ensures 0.0 <= d <= 1.0
    ensures noise == 0.0 && 0.0 <= sourceDrift <= 1.0 && 0.0 <= targetDrift <= 1.0 ==>
              d == (sourceDrift + targetDrift) / 2.0
  {
    ClampR(0.0, 1.0, (sourceDrift + targetDrift) / 2.0 + noise)
  }

  /** The line width of an edge: drift-free edges are drawn widest. */
  function EdgeWidth(drift: real): real
  {
    1.5 * (1.0 - drift) + 0.5
  }

  lemma {:induction false} EdgeWidthBounds(d1: real, d2: real)
    requires 0.0 <= d1 <= d2 <= 1.0
    ensures 0.5 <= EdgeWidth(d2) <= EdgeWidth(d1) <= 2.0
  {
  }

  /** The radius of the ring that holds `level`: deeper levels sit closer to the centre. */
  function LevelRadius(depth: int, level: nat): int
  {
    2 + (depth - level) * 2
  }

  lemma {:induction false} LevelRadiusShrinks(depth: int, l1: nat, l2: nat)
    requires l1 < l2 < depth
    ensures 4 <= LevelRadius(depth, l2) < LevelRadius(depth, l1)
  {
  }

  /** The pulse of the animation, between 0.2 and 0.9 for a sine value `wave` in [-1, 1]. */
  function Pulse(wave: real): real
  {
    0.2 + 0.7 * (0.5 + 0.5 * wave)
  }

  /** The damping of high-drift paths: `1 - 0.7 * drift`. */
  function Damping(drift: real): real
  {
    1.0 - 0.7 * drift
  }

  /**
   * The animated opacity of an edge in a frame: `wave` is the sine of the
   * frame's phase, between -1 and 1.
   */
  function EdgeAlpha(wave: real, drift: real): real
  {
    Pulse(wave) * Damping(drift)
  }

  lemma {:induction false} MulMonotone(x: real, y: real, f: real)
    requires x <= y && 0.0 <= f
    ensures x * f <= y * f
  {
  }

  /** The wave moves the opacity between 0.2 and 0.9 of the damping, so never above 0.9 nor below 0.06. */
  lemma {:induction false} EdgeAlphaBounds(wave: real, drift: real)
    requires -1.0 <= wave <= 1.0 && 0.0 <= drift <= 1.0
    ensures 0.2 * Damping(drift) <= EdgeAlpha(wave, drift) <= 0.9 * Damping(drift)
    ensures 0.06 <= EdgeAlpha(wave, drift) <= 0.9
  {
    var a, f := Pulse(wave), Damping(drift);
    assert 0.2 <= a <= 0.9 && 0.3 <= f <= 1.0;
    MulMonotone(a, 0.9, f);
    MulMonotone(0.2, a, f);
  }

  // ---------------------------------------------------------------------
  // Properties of a generated graph, stated on values
  // ---------------------------------------------------------------------

  /** Node `id` sits on its slot, below `depth`, with metadata from its own draws. */
  predicate NodeOk(depth: int, n: int, id: nat, node: Node, draws: seq<NodeDraws>)
  {
    n != 0 && id < |draws| && node.level < depth &&
    (node.level, node.position) == Slot(n, id) &&
    node.metadata == GenerateNodeMetadata(depth, n, node.level, node.position, draws[id])
  }

  /** Every id of the graph sits on its slot. */
  predicate LaidOut(depth: int, n: int, nodes: seq<Node>, draws: seq<NodeDraws>)
  {
    n != 0 && |nodes| == NodeCount(depth, n) && |draws| >= |nodes| &&
    forall id :: 0 <= id < |nodes| ==> NodeOk(depth, n, id, nodes[id], draws)
  }

  /** The ids of the level after `level`, in insertion order. */
  function NextLevelPool(n: int, level: nat): seq<nat>
  {
    Range(LevelStart(n, level + 1), LevelStart(n, level + 1) + LevelSize(n, level + 1))
  }

  /** How many out-edges a node below the last level receives. */
  function EdgeCount(n: int, level: nat, d: NodeDraws): nat
  {
    1 + d.edgeCountDraw % MinI(3, LevelSize(n, level + 1))
  }

  /** The out-edges of `u` are the ones its draws select. */
  predicate EdgesDrawnAt(depth: int, n: int, nodes: seq<Node>, draws: seq<NodeDraws>, u: nat, out: seq<Edge>)
    requires u < |nodes| && u < |draws|
    requires |draws[u].targetDraws| >= 3 && |draws[u].weightDraws| >= 3
  {
    if nodes[u].level >= depth - 1 then out == []
    else
      var k := EdgeCount(n, nodes[u].level, draws[u]);
      var targets := ChooseDistinct(NextLevelPool(n, nodes[u].level), k, draws[u].targetDraws);
      |out| == k &&
      forall j :: 0 <= j < k ==> out[j] == Edge(targets[j], draws[u].weightDraws[j])
  }

  predicate EdgesDrawn(depth: int, n: int, nodes: seq<Node>, succ: seq<seq<Edge>>, draws: seq<NodeDraws>)
  {
    |succ| == |nodes| && DrawsCover(|nodes|, draws) &&
    forall u :: 0 <= u < |nodes| ==> EdgesDrawnAt(depth, n, nodes, draws, u, succ[u])
  }

  /**
   * The shape the generator promises: no edges out of the last level, one
   * to three out-edges (never more than the next level holds) from every
   * other node, every edge to the next level, no target twice.
   */
  predicate Layered(depth: int, n: int, nodes: seq<Node>, succ: seq<seq<Edge>>)
  {
    |succ| == |nodes| &&
    (forall u :: 0 <= u < |nodes| && nodes[u].level >= depth - 1 ==> succ[u] == []) &&
    (forall u :: 0 <= u < |nodes| && nodes[u].level < depth - 1 ==>
       1 <= |succ[u]| <= MinI(3, LevelSize(n, nodes[u].level + 1))) &&
    (forall u, j :: 0 <= u < |nodes| && 0 <= j < |succ[u]| ==>
       succ[u][j].target < |nodes| && nodes[succ[u][j].target].level == nodes[u].level + 1) &&
    (forall u, i, j :: 0 <= u < |nodes| && 0 <= i < j < |succ[u]| ==> succ[u][i].target != succ[u][j].target)
  }

  lemma {:induction false} NextLevelPoolOnNextLevel(depth: int, n: int, nodes: seq<Node>, draws: seq<NodeDraws>, level: nat)
    requires LaidOut(depth, n, nodes, draws) && level + 1 < depth
    ensures Distinct(NextLevelPool(n, level))
    ensures forall t :: t in NextLevelPool(n, level) ==> t < |nodes| && nodes[t].level == level + 1
  {
    var pool := NextLevelPool(n, level);
    LevelStartMonotone(n, level + 1, depth);
    forall t | t in pool ensures t < |nodes| && nodes[t].level == level + 1 {
      SlotLevelIff(n, t, level + 1);
    }
  }

  /** The drawn edges have the promised layered shape. */
  lemma {:induction false} DrawnEdgesAreLayered(depth: int, n: int, nodes: seq<Node>, succ: seq<seq<Edge>>, draws: seq<NodeDraws>)
    requires LaidOut(depth, n, nodes, draws) && EdgesDrawn(depth, n, nodes, succ, draws)
    ensures Layered(depth, n, nodes, succ)
  {
    forall u | 0 <= u < |nodes| && nodes[u].level < depth - 1
      ensures 1 <= |succ[u]| <= MinI(3, LevelSize(n, nodes[u].level + 1))
      ensures forall j :: 0 <= j < |succ[u]| ==> succ[u][j].target < |nodes| && nodes[succ[u][j].target].level == nodes[u].level + 1
      ensures forall i, j :: 0 <= i < j < |succ[u]| ==> succ[u][i].target != succ[u][j].target
    {
      assert EdgesDrawnAt(depth, n, nodes, draws, u, succ[u]);
      var level := nodes[u].level;
      var k := EdgeCount(n, level, draws[u]);
      var targets := ChooseDistinct(NextLevelPool(n, level), k, draws[u].targetDraws);
      NextLevelPoolOnNextLevel(depth, n, nodes, draws, level);
      forall j | 0 <= j < |succ[u]|
        ensures succ[u][j].target < |nodes| && nodes[succ[u][j].target].level == level + 1
      {
        assert succ[u][j].target == targets[j] && targets[j] in targets;
      }
      forall i, j | 0 <= i < j < |succ[u]| ensures succ[u][i].target != succ[u][j].target {
        assert succ[u][i].target == targets[i] && succ[u][j].target == targets[j];
      }
    }
    forall u | 0 <= u < |nodes| && nodes[u].level >= depth - 1 ensures succ[u] == [] {
      assert EdgesDrawnAt(depth, n, nodes, draws, u, succ[u]);
    }
  }

  /** The little the drift pass needs of a graph: levels below `depth`, at most three out-edges, targets in range. */
  predicate Shaped(depth: int, nodes: seq<Node>, succ: seq<seq<Edge>>)
  {
    |succ| == |nodes| &&
    (forall u :: 0 <= u < |nodes| ==> nodes[u].level < depth && |succ[u]| <= 3) &&
    (forall u, j :: 0 <= u < |nodes| && 0 <= j < |succ[u]| ==> succ[u][j].target < |nodes|)
  }

  lemma {:induction false} LayeredIsShaped(depth: int, n: int, nodes: seq<Node>, succ: seq<seq<Edge>>, draws: seq<NodeDraws>)
    requires LaidOut(depth, n, nodes, draws) && Layered(depth, n, nodes, succ)
    ensures Shaped(depth, nodes, succ)
  {
  }

  /** Node drift values and classifier flags as the drift pass assigns them. */
  predicate NodeDriftAssigned(depth: int, nodes: seq<Node>, drift: seq<real>, isClassifier: seq<bool>)
  {
    |drift| == |nodes| && |isClassifier| == |nodes| &&
    forall u :: 0 <= u < |nodes| ==>
      nodes[u].level < depth && drift[u] == NodeDrift(depth, nodes[u]) &&
      isClassifier[u] == IsClassifierNode(nodes[u].metadata)
  }

  /** Edge drift values as the drift pass assigns them, one per out-edge. */
  predicate EdgeDriftAssigned(nodes: seq<Node>, succ: seq<seq<Edge>>, draws: seq<NodeDraws>,
                              drift: seq<real>, edgeDrift: seq<seq<real>>)
  {
    |drift| == |nodes| && |edgeDrift| == |succ| && |succ| == |nodes| && |draws| >= |nodes| &&
    (forall u :: 0 <= u < |nodes| ==> |edgeDrift[u]| == |succ[u]| && |succ[u]| <= |draws[u].driftNoise|) &&
    (forall u, j :: 0 <= u < |nodes| && 0 <= j < |succ[u]| && j < |edgeDrift[u]| ==>
       succ[u][j].target < |nodes| && j < |draws[u].driftNoise| &&
       edgeDrift[u][j] == EdgeDrift(drift[u], drift[succ[u][j].target], draws[u].driftNoise[j]))
  }

  /** Every edge's drift, and so its drawn width, stays in range. */
  lemma {:induction false} EdgeDriftInRange(nodes: seq<Node>, succ: seq<seq<Edge>>, draws: seq<NodeDraws>,
                         drift: seq<real>, edgeDrift: seq<seq<real>>, u: nat, j: nat)
    requires EdgeDriftAssigned(nodes, succ, draws, drift, edgeDrift)
    requires u < |nodes| && j < |succ[u]|
    ensures 0.0 <= edgeDrift[u][j] <= 1.0
    ensures 0.5 <= EdgeWidth(edgeDrift[u][j]) <= 2.0
  {
  }

  // ---------------------------------------------------------------------
  // The generator object
  // ---------------------------------------------------------------------

  class RecursiveQKOVMapper {
    const depth: int
    const nodesPerLevel: int
    /** Stored by the constructor and never consulted by the generator. */
    const driftThreshold: real

    var nodes: seq<Node>
    var succ: seq<seq<Edge>>
    /** The ring radius of every node's layout position (the angle is left out). */
    var radii: map<nat, int>
    var drift: seq<real>
    var isClassifier: seq<bool>
    var edgeDrift: seq<seq<real>>

    /** Builds the structure, lays out the rings and assigns drift, in that order. */
    constructor (depth: int, nodesPerLevel: int, driftThreshold: real, draws: seq<NodeDraws>)
      requires nodesPerLevel != 0
      requires DrawsCover(NodeCount(depth, nodesPerLevel), draws)
      ensures this.depth == depth && this.nodesPerLevel == nodesPerLevel && this.driftThreshold == driftThreshold
      ensures LaidOut(depth, nodesPerLevel, nodes, draws)
      ensures EdgesDrawn(depth, nodesPerLevel, nodes, succ, draws)
      ensures Layered(depth, nodesPerLevel, nodes, succ)
      ensures forall id: nat :: id in radii <==> id < |nodes|
      ensures forall id :: 0 <= id < |nodes| ==> radii[id] == LevelRadius(depth, nodes[id].level)
      ensures NodeDriftAssigned(depth, nodes, drift, isClassifier)
      ensures EdgeDriftAssigned(nodes, succ, draws, drift, edgeDrift)
    {
      this.depth := depth;
      this.nodesPerLevel := nodesPerLevel;
      this.driftThreshold := driftThreshold;
      nodes := [];
      succ := [];
      radii := map[];
      drift := [];
      isClassifier := [];
      edgeDrift := [];
      new;
      GenerateRecursiveStructure(draws);
      radii := CalculateNodePositions(draws);
      LayeredIsShaped(depth, nodesPerLevel, nodes, succ, draws);
      AssignDriftValues(draws);
    }

    /** Adds the nodes level by level, then draws each node's out-edges. */
    method GenerateRecursiveStructure(draws: seq<NodeDraws>)
      requires nodesPerLevel != 0
      requires DrawsCover(NodeCount(depth, nodesPerLevel), draws)
      modifies this`nodes, this`succ
      ensures LaidOut(depth, nodesPerLevel, nodes, draws)
      ensures EdgesDrawn(depth, nodesPerLevel, nodes, succ, draws)
      ensures Layered(depth, nodesPerLevel, nodes, succ)
    {
      AddLevels(draws);
      AddEdges(draws);
      DrawnEdgesAreLayered(depth, nodesPerLevel, nodes, succ, draws);
    }

    /** The node half of the generator: `max(3, N - level)` nodes per level, ids counting up from 0. */
    method AddLevels(draws: seq<NodeDraws>)
      requires nodesPerLevel != 0
      requires DrawsCover(NodeCount(depth, nodesPerLevel), draws)
      modifies this`nodes
      ensures LaidOut(depth, nodesPerLevel, nodes, draws)
    {
      nodes := [];
      var level: nat := 0;
      while level < depth
        invariant depth > 0 ==> level <= depth
        invariant depth <= 0 ==> level == 0
        invariant |nodes| == LevelStart(nodesPerLevel, level)
        invariant forall id :: 0 <= id < |nodes| ==> NodeOk(depth, nodesPerLevel, id, nodes[id], draws)
        decreases depth - level
      {
        AddLevel(level, draws);
        level := level + 1;
      }
      assert |nodes| == NodeCount(depth, nodesPerLevel);
    }

    /** Appends the nodes of `level`, positions 0 upwards, each with its metadata. */
    method AddLevel(level: nat, draws: seq<NodeDraws>)
      requires nodesPerLevel != 0 && level < depth
      requires DrawsCover(NodeCount(depth, nodesPerLevel), draws)
      requires |nodes| == LevelStart(nodesPerLevel, level)
      requires forall id :: 0 <= id < |nodes| ==> NodeOk(depth, nodesPerLevel, id, nodes[id], draws)
      modifies this`nodes
      ensures |nodes| == LevelStart(nodesPerLevel, level + 1)
      ensures forall id :: 0 <= id < |nodes| ==> NodeOk(depth, nodesPerLevel, id, nodes[id], draws)
    {
      var n := nodesPerLevel;
      LevelStartMonotone(n, level + 1, depth);
      var i: nat := 0;
      while i < LevelSize(n, level)
        invariant i <= LevelSize(n, level)
        invariant |nodes| == LevelStart(n, level) + i
        invariant forall id :: 0 <= id < |nodes| ==> NodeOk(depth, n, id, nodes[id], draws)
      {
        SlotOfLevel(n, level, i);
        var metadata := GenerateNodeMetadata(depth, n, level, i, draws[|nodes|]);
        assert NodeOk(depth, n, |nodes|, Node(level, i, metadata), draws);
        nodes := nodes + [Node(level, i, metadata)];
        i := i + 1;
      }
    }

    /**
     * The edge half of the generator: every node below the last level gets
     * `randint(1, min(4, |next| + 1))` edges to distinct nodes of the next
     * level, each with a random weight.
     */
    method AddEdges(draws: seq<NodeDraws>)
      requires LaidOut(depth, nodesPerLevel, nodes, draws)
      requires DrawsCover(|nodes|, draws)
      modifies this`succ
      ensures EdgesDrawn(depth, nodesPerLevel, nodes, succ, draws)
    {
      var n := nodesPerLevel;
      succ := [];
      var u := 0;
      while u < |nodes|
        invariant u <= |nodes| && |succ| == u
        invariant forall v :: 0 <= v < u ==> EdgesDrawnAt(depth, n, nodes, draws, v, succ[v])
      {
        var out := DrawEdgesFrom(u, draws);
        succ := succ + [out];
        u := u + 1;
      }
    }

    /** The out-edges of node `u`: none from the last level, else distinct next-level targets with random weights. */
    method DrawEdgesFrom(u: nat, draws: seq<NodeDraws>) returns (out: seq<Edge>)
      requires LaidOut(depth, nodesPerLevel, nodes, draws)
      requires DrawsCover(|nodes|, draws) && u < |nodes|
      ensures EdgesDrawnAt(depth, nodesPerLevel, nodes, draws, u, out)
    {
      out := [];
      var level := nodes[u].level;
      if level >= depth - 1 {
        return;
      }
      var next := NodesAtLevel(level + 1, draws);
      var k := 1 + draws[u].edgeCountDraw % MinI(3, |next|);
      var targets := ChooseDistinct(next, k, draws[u].targetDraws);
      var j := 0;
      while j < k
        invariant j <= k && |out| == j
        invariant forall m :: 0 <= m < j ==> out[m] == Edge(targets[m], draws[u].weightDraws[m])
      {
        out := out + [Edge(targets[j], draws[u].weightDraws[j])];
        j := j + 1;
      }
    }

    /** The ids of the nodes whose level attribute is `level`, in id order. */
    method NodesAtLevel(level: nat, draws: seq<NodeDraws>) returns (ids: seq<nat>)
      requires LaidOut(depth, nodesPerLevel, nodes, draws) && level < depth
      ensures ids == Range(LevelStart(nodesPerLevel, level), LevelStart(nodesPerLevel, level) + LevelSize(nodesPerLevel, level))
      ensures forall k :: 0 <= k < |ids| ==> ids[k] < |nodes| && nodes[ids[k]].level == level
    {
      var lo := LevelStart(nodesPerLevel, level);
      var hi := lo + LevelSize(nodesPerLevel, level);
      LevelStartMonotone(nodesPerLevel, level, depth);
      ids := [];
      var i := 0;
      while i < |nodes|
        invariant i <= |nodes|
        invariant ids == Range(MinI(i, lo), MinI(i, hi))
      {
        SlotLevelIff(nodesPerLevel, i, level);
        if nodes[i].level == level {
          ids := ids + [i];
        }
        i := i + 1;
      }
      forall k | 0 <= k < |ids| ensures ids[k] < |nodes| && nodes[ids[k]].level == level {
        SlotLevelIff(nodesPerLevel, ids[k], level);
      }
    }

    /**
     * Walks the levels deepest first and gives every node of a level that
     * level's ring radius.
     */
    method CalculateNodePositions(draws: seq<NodeDraws>) returns (positions: map<nat, int>)
      requires LaidOut(depth, nodesPerLevel, nodes, draws)
      ensures forall id: nat :: id in positions <==> id < |nodes|
      ensures forall id :: 0 <= id < |nodes| ==> id in positions && positions[id] == LevelRadius(depth, nodes[id].level)
    {
      var n := nodesPerLevel;
      positions := map[];
      if depth <= 0 {
        assert |nodes| == 0;
        return;
      }
      var level: int := depth - 1;
      while level >= 0
        invariant -1 <= level < depth
        invariant forall id :: id in positions <==> LevelStart(n, level + 1) <= id < |nodes|
        invariant forall id :: id in positions ==> positions[id] == LevelRadius(depth, nodes[id].level)
        decreases level
      {
        var ids := NodesAtLevel(level, draws);
        LevelStartMonotone(n, level + 1, depth);
        var lo, hi := LevelStart(n, level), LevelStart(n, level + 1);
        assert |ids| == hi - lo;
        forall id: nat
          ensures id in ids <==> lo <= id < hi
        {
          if lo <= id < hi {
            assert ids[id - lo] == id;
          }
        }
        var placed := PlaceRing(positions, ids, LevelRadius(depth, level));
        positions := placed;
        level := level - 1;
      }
      assert LevelStart(n, level + 1) == 0;
    }

    /** Sets every id of `ids` to `radius` in `positions`, one at a time. */
    static method PlaceRing(positions: map<nat, int>, ids: seq<nat>, radius: int) returns (r: map<nat, int>)
      ensures forall id :: id in r <==> id in positions || id in ids
      ensures forall id :: id in r ==> r[id] == (if id in ids then radius else positions[id])
    {
      r := positions;
      var i := 0;
      while i < |ids|
        invariant i <= |ids|
        invariant forall id :: id in r <==> id in positions || id in ids[..i]
        invariant forall id :: id in r ==> r[id] == (if id in ids[..i] then radius else positions[id])
      {
        assert ids[..i + 1] == ids[..i] + [ids[i]];
        r := r[ids[i] := radius];
        i := i + 1;
      }
      assert ids[..i] == ids;
    }

    /** Gives every node its drift and classifier flag, then every edge its drift. */
    method AssignDriftValues(draws: seq<NodeDraws>)
      requires Shaped(depth, nodes, succ) && DrawsCover(|nodes|, draws)
      modifies this`drift, this`isClassifier, this`edgeDrift
      ensures NodeDriftAssigned(depth, nodes, drift, isClassifier)
      ensures EdgeDriftAssigned(nodes, succ, draws, drift, edgeDrift)
    {
      var d: seq<real>, c: seq<bool> := [], [];
      var u := 0;
      while u < |nodes|
        invariant u <= |nodes| && |d| == u && |c| == u
        invariant forall v :: 0 <= v < u ==>
          d[v] == NodeDrift(depth, nodes[v]) && c[v] == IsClassifierNode(nodes[v].metadata)
      {
        d := d + [NodeDrift(depth, nodes[u])];
        c := c + [IsClassifierNode(nodes[u].metadata)];
        u := u + 1;
      }
      var e: seq<seq<real>> := [];
      u := 0;
      while u < |succ|
        invariant u <= |succ| && |e| == u
        invariant forall v :: 0 <= v < u ==> |e[v]| == |succ[v]|
        invariant forall v, j :: 0 <= v < u && 0 <= j < |succ[v]| ==>
          e[v][j] == EdgeDrift(d[v], d[succ[v][j].target], draws[v].driftNoise[j])
      {
        var out := EdgeDriftsFrom(u, d, draws);
        e := e + [out];
        u := u + 1;
      }
      drift, isClassifier, edgeDrift := d, c, e;
    }

    /** The drift of each out-edge of `u`, in edge order, from the node drifts `d`. */
    method EdgeDriftsFrom(u: nat, d: seq<real>, draws: seq<NodeDraws>) returns (out: seq<real>)
      requires Shaped(depth, nodes, succ) && DrawsCover(|nodes|, draws)
      requires u < |nodes| && |d| == |nodes|
      ensures |out| == |succ[u]|
      ensures forall j :: 0 <= j < |succ[u]| ==>
        0.0 <= out[j] <= 1.0 && out[j] == EdgeDrift(d[u], d[succ[u][j].target], draws[u].driftNoise[j])
    {
      out := [];
      var j := 0;
      while j < |succ[u]|
        invariant j <= |succ[u]| && |out| == j
        invariant forall m :: 0 <= m < j ==>
          out[m] == EdgeDrift(d[u], d[succ[u][m].target], draws[u].driftNoise[m])
      {
        out := out + [EdgeDrift(d[u], d[succ[u][j].target], draws[u].driftNoise[j])];
        j := j + 1;
      }
    }
  }
}
