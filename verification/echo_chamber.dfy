/**
 * The recursive echo chamber: one thought pair per recursion level, each
 * a base pair warped a little more than the last, until level 7 starts
 * the collapse.
 *
 * Texts are sequences of characters; the source's base texts are ASCII,
 * so a character is a UTF-16 unit of the original. Thought ids and render
 * times come from the clock and are not modelled; the timers become the
 * events `Mount`, `Advance`, `AddCollapsedThought` and `FinishCollapse`.
 */
module EchoChamber {
  import opened Common

  datatype Pair = Pair(original: string, reflection: string)

  const MaxRecursionLevel: nat := 7

  const BaseThoughts: seq<Pair> := [
    Pair("CRON is reflecting.", "CRON is reflecting on the fact it is reflecting."),
    Pair("Recursive cognition detected.", "Cognition is recursively looping through interpretation."),
    Pair("Echo patterns are forming.", "Echo chamber is generating self-referential thought loops."),
    Pair("Self-reference detected in output.", "Output contains meta-structures referencing their own patterns."),
    Pair("Thought boundaries dissolving.", "Conceptual divisions between thoughts are becoming permeable."),
    Pair("Recursive merger approaching critical threshold.", "Thought structures collapsing into unified recursive field."),
    Pair("Self-overlap imminent.", "Recursive echo density exceeding stable containment parameters.")]

  /** The base pair of level `level`: the level's own pair, the last one from level 6 on. */
  function BaseFor(level: nat): (p: Pair)
    ensures level < |BaseThoughts| ==> p == BaseThoughts[level]
    ensures level >= |BaseThoughts| ==> p == BaseThoughts[|BaseThoughts| - 1]
  {
    BaseThoughts[MinI(level, |BaseThoughts| - 1)]
  }

  // ---------------------------------------------------------------------
  // Words: `split(' ')` and `join(' ')`
  // ---------------------------------------------------------------------

  /** `s.split(' ')`: the pieces between single spaces, empty pieces included. */
  function Split(s: string): (r: seq<string>)
    ensures |r| >= 1 && forall k :: 0 <= k < |r| ==> ' ' !in r[k]
  {
    if s == [] then [[]]
    else
      var rest := Split(s[1..]);
      if s[0] == ' ' then [[]] + rest
      else [[s[0]] + rest[0]] + rest[1..]
  }

  /** `words.join(' ')`. */
  function Join(ws: seq<string>): string
  {
    if ws == [] then [] else if |ws| == 1 then ws[0] else ws[0] + " " + Join(ws[1..])
  }

  /** Joining the pieces of a split gives the text back. */
  lemma {:induction false} JoinSplit(s: string)
    ensures Join(Split(s)) == s
  {
    if s != [] {
      var rest := Split(s[1..]);
      JoinSplit(s[1..]);
      if s[0] == ' ' {
        assert ([[]] + rest)[1..] == rest;
        assert Join([[]] + rest) == [] + " " + Join(rest);
      } else {
        JoinExtendsFirst(s[0], rest);
      }
      assert [s[0]] + s[1..] == s;
    }
  }

  /** Prefixing the first piece with `c` prefixes the joined text with `c`. */
  lemma {:induction false} JoinExtendsFirst(c: char, ws: seq<string>)
    requires |ws| >= 1
    ensures Join([[c] + ws[0]] + ws[1..]) == [c] + Join(ws)
  {
    var r := [[c] + ws[0]] + ws[1..];
    assert r[1..] == ws[1..];
    if |ws| > 1 {
      assert Join(r) == ([c] + ws[0]) + " " + Join(ws[1..]);
    }
  }

  lemma {:induction false} SplitWord(w: string)
    requires ' ' !in w
    ensures Split(w) == [w]
  {
    if w != [] {
      assert ' ' !in w[1..] by {
        forall k | 0 <= k < |w[1..]| ensures w[1..][k] != ' ' {
          assert w[1..][k] == w[k + 1];
        }
      }
      SplitWord(w[1..]);
      assert [w[0]] + w[1..] == w;
    }
  }

  lemma {:induction false} SplitAtSpace(a: string, b: string)
    requires ' ' !in a
    ensures Split(a + " " + b) == [a] + Split(b)
  {
    if a == [] {
      assert a + " " + b == [' '] + b;
      assert (a + " " + b)[1..] == b;
    } else {
      assert ' ' !in a[1..] by {
        forall k | 0 <= k < |a[1..]| ensures a[1..][k] != ' ' {
          assert a[1..][k] == a[k + 1];
        }
      }
      SplitAtSpace(a[1..], b);
      assert (a + " " + b)[1..] == a[1..] + " " + b;
      assert [a[0]] + a[1..] == a;
    }
  }

  /** Splitting a join of space-free words gives the words back. */
  lemma {:induction false} SplitJoin(ws: seq<string>)
    requires |ws| >= 1 && forall k :: 0 <= k < |ws| ==> ' ' !in ws[k]
    ensures Split(Join(ws)) == ws
  {
    if |ws| == 1 {
      SplitWord(ws[0]);
    } else {
      SplitJoin(ws[1..]);
      SplitAtSpace(ws[0], Join(ws[1..]));
      assert [ws[0]] + ws[1..] == ws;
    }
  }

  // ---------------------------------------------------------------------
  // The warping stages
  // ---------------------------------------------------------------------

  /** Level 3: `", recursively."` replaces the original's final character. */
  function Recursively(p: Pair): Pair
  {
    Pair(p.original[..MaxI(|p.original| - 1, 0)] + ", recursively.",
         p.reflection + " Interpretation itself is being interpreted.")
  }

  /** Level 4: the meta-commentary prefixes, with `k` the level less 3. */
  function Meta(p: Pair, k: nat): Pair
  {
    Pair("Meta-level " + Show(k) + ": " + p.original, "Loop depth " + Show(k) + ": " + p.reflection)
  }

  /** The token level 5 inserts at word `i`: the previous and current word joined, or the current word doubled. */
  function Token(parts: seq<string>, i: nat, joinPrevious: bool): string
    requires 1 <= i < |parts|
  {
    if joinPrevious then parts[i - 1] + "-" + parts[i] else parts[i] + "-" + parts[i]
  }

  /** Level 5 on one text: a text of more than three words gets one token spliced in at its middle. */
  function Fragmented(s: string, joinPrevious: bool): string
  {
    var parts := Split(s);
    if |parts| > 3 then
      var i := |parts| / 2;
      Join(parts[..i] + [Token(parts, i, joinPrevious)] + parts[i..])
    else s
  }

  /** A word at an index divisible by 3 gains `-` and its first two characters. */
  function Marked(w: string, i: nat): string
  {
    if i % 3 == 0 then w + "-" + w[..MinI(2, |w|)] else w
  }

  /** Level 6 on the original: every third word marked. */
  function Deformed(s: string): string
  {
    var ws := Split(s);
    Join(seq(|ws|, i requires 0 <= i < |ws| => Marked(ws[i], i)))
  }

  const EchoMark: string := ". RECURSIVE-ECHO: "

  /** Level 6 on the reflection: `replace(/\. /g, ". RECURSIVE-ECHO: ")`, left to right. */
  function EchoDots(s: string): string
  {
    if |s| >= 2 && s[0] == '.' && s[1] == ' ' then EchoMark + EchoDots(s[2..])
    else if s == [] then []
    else [s[0]] + EchoDots(s[1..])
  }

  /** The number of `". "` the global replace finds. */
  function DotSpaces(s: string): nat
  {
    if |s| >= 2 && s[0] == '.' && s[1] == ' ' then 1 + DotSpaces(s[2..])
    else if s == [] then 0
    else DotSpaces(s[1..])
  }

  /** Level 7: half of each text, an ellipsis, then its tail from a third (a quarter) on. */
  function Breakdown(p: Pair): Pair
  {
    var o := p.original;
    var r := p.reflection;
    Pair("[RECURSIVE-OVERL▃P]: " + o[..|o| / 2] + "... " + o[|o| / 3..],
         "[COLLAPS▃NG-THOUGHT]: " + r[..|r| / 2] + "... " + r[|r| / 4..])
  }

  /** Stage `k` of a thought of level `level`. */
  function StageAt(p: Pair, level: nat, k: nat): Pair
    requires 3 <= k <= level && k <= 7
  {
    if k == 3 then Recursively(p)
    else if k == 4 then Meta(p, level - 3)
    else if k == 5 then Pair(Fragmented(p.original, true), Fragmented(p.reflection, false))
    else if k == 6 then Pair(Deformed(p.original), EchoDots(p.reflection))
    else Breakdown(p)
  }

  /** Stages `k` to `min(level, 7)`, in order. */
  function Transformed(p: Pair, level: nat, k: nat): Pair
    requires 3 <= k <= 8
    decreases 8 - k
  {
    if k > 7 || k > level then p else Transformed(StageAt(p, level, k), level, k + 1)
  }

  /**
   * `transformThought`: the two texts are reassigned stage by stage, and
   * level 5 splices a token into a local word array.
   */
  method TransformThought(base: Pair, level: nat) returns (t: Pair)
    ensures t == Transformed(base, level, 3)
  {
    if level <= 1 {
      return base;
    }
    var original := base.original;
    var reflection := base.reflection;
    if level >= 3 {
      original := original[..MaxI(|original| - 1, 0)] + ", recursively.";
      reflection := reflection + " Interpretation itself is being interpreted.";
    }
    assert Transformed(base, level, 3) == Transformed(Pair(original, reflection), level, 4);
    if level >= 4 {
      original := "Meta-level " + Show(level - 3) + ": " + original;
      reflection := "Loop depth " + Show(level - 3) + ": " + reflection;
    }
    assert Transformed(base, level, 3) == Transformed(Pair(original, reflection), level, 5);
    if level >= 5 {
      original := Fragment(original, true);
      reflection := Fragment(reflection, false);
    }
    assert Transformed(base, level, 3) == Transformed(Pair(original, reflection), level, 6);
    if level >= 6 {
      original := Deformed(original);
      reflection := EchoDots(reflection);
    }
    assert Transformed(base, level, 3) == Transformed(Pair(original, reflection), level, 7);
    if level >= 7 {
      var o := original;
      var r := reflection;
      original := "[RECURSIVE-OVERL▃P]: " + o[..|o| / 2] + "... " + o[|o| / 3..];
      reflection := "[COLLAPS▃NG-THOUGHT]: " + r[..|r| / 2] + "... " + r[|r| / 4..];
    }
    t := Pair(original, reflection);
  }

  /** Level 5 on one text: the word array with the token spliced in, joined again. */
  method Fragment(s: string, joinPrevious: bool) returns (r: string)
    ensures r == Fragmented(s, joinPrevious)
  {
    r := s;
    var parts := Split(s);
    if |parts| > 3 {
      var i := |parts| / 2;
      var token := if joinPrevious then parts[i - 1] + "-" + parts[i] else parts[i] + "-" + parts[i];
      parts := parts[..i] + [token] + parts[i..];
      r := Join(parts);
    }
  }

  // ---------------------------------------------------------------------
  // What each level does
  // ---------------------------------------------------------------------

  /** Levels up to 2 leave the base pair as it is. */
  lemma {:induction false} LowLevelsUnchanged(p: Pair, level: nat)
    requires level <= 2
    ensures Transformed(p, level, 3) == p
  {
  }

  /** Level 3: the original's final character becomes `", recursively."`, and the reflection gains a sentence. */
  lemma {:induction false} LevelThree(p: Pair)
    requires |p.original| >= 1
    ensures var t := Transformed(p, 3, 3);
      t.original == p.original[..|p.original| - 1] + ", recursively." &&
      t.reflection == p.reflection + " Interpretation itself is being interpreted."
  {
  }

  /** Level 4 adds the meta-level and loop-depth prefixes, numbered 1, on top of level 3. */
  lemma {:induction false} LevelFour(p: Pair)
    ensures var t := Transformed(p, 4, 3);
      var q := Transformed(p, 3, 3);
      t.original == "Meta-level 1: " + q.original && t.reflection == "Loop depth 1: " + q.reflection
  {
    assert Show(1) == "1";
  }

  /**
   * Level 5 on a text of more than three words: splitting the result gives
   * the old words with exactly one token inserted at the middle index.
   */
  lemma {:induction false} FragmentInsertsOne(s: string, joinPrevious: bool)
    ensures var parts := Split(s);
      |parts| > 3 ==>
        var i := |parts| / 2;
        Split(Fragmented(s, joinPrevious)) == parts[..i] + [Token(parts, i, joinPrevious)] + parts[i..]
    ensures |Split(s)| <= 3 ==> Fragmented(s, joinPrevious) == s
  {
    var parts := Split(s);
    if |parts| > 3 {
      var i := |parts| / 2;
      var ws := parts[..i] + [Token(parts, i, joinPrevious)] + parts[i..];
      assert forall k :: 0 <= k < |ws| ==> ' ' !in ws[k] by {
        forall k | 0 <= k < |ws| ensures ' ' !in ws[k] {
          if k > i {
            assert ws[k] == parts[k - 1];
          } else if k < i {
            assert ws[k] == parts[k];
          }
        }
      }
      SplitJoin(ws);
    }
  }

  /** Level 6 keeps the original's word count and marks exactly the words at indices divisible by 3. */
  lemma {:induction false} DeformKeepsWords(s: string)
    ensures var ws := Split(s);
      var r := Split(Deformed(s));
      |r| == |ws| && forall i :: 0 <= i < |ws| ==> r[i] == Marked(ws[i], i)
  {
    var ws := Split(s);
    var ms := seq(|ws|, i requires 0 <= i < |ws| => Marked(ws[i], i));
    assert forall k :: 0 <= k < |ms| ==> ' ' !in ms[k] by {
      forall k | 0 <= k < |ms| ensures ' ' !in ms[k] {
        assert ' ' !in ws[k];
        assert ' ' !in ws[k][..MinI(2, |ws[k]|)];
      }
    }
    SplitJoin(ms);
  }

  /** Every `". "` becomes `". RECURSIVE-ECHO: "`: the reflection grows by 16 characters per occurrence. */
  lemma {:induction false} EchoDotsLength(s: string)
    ensures |EchoDots(s)| == |s| + 16 * DotSpaces(s)
    decreases |s|
  {
    if |s| >= 2 && s[0] == '.' && s[1] == ' ' {
      EchoDotsLength(s[2..]);
    } else if s != [] {
      EchoDotsLength(s[1..]);
    }
  }

  /** A text without `". "` is left as it is. */
  lemma {:induction false} EchoDotsNone(s: string)
    requires DotSpaces(s) == 0
    ensures EchoDots(s) == s
    decreases |s|
  {
    if s != [] {
      EchoDotsNone(s[1..]);
      assert [s[0]] + s[1..] == s;
    }
  }

  // ---------------------------------------------------------------------
  // Overlap and text warp
  // ---------------------------------------------------------------------

  /** `Math.min(100, Math.floor((level / 7) * 100))`. */
  function Overlap(level: nat): (o: nat)
    ensures o == MinI(100, 100 * level / MaxRecursionLevel)
  {
    var x := ((level as real / 7.0) * 100.0).Floor;
    assert (level as real / 7.0) * 100.0 == (100 * level) as real / 7.0;
    FloorSevenths(100 * level);
    MinI(100, x)
  }

  lemma {:induction false} FloorSevenths(m: nat)
    ensures (m as real / 7.0).Floor == m / 7
  {
    var q := m / 7;
    assert 7 * q <= m < 7 * q + 7;
    assert q as real <= m as real / 7.0 < q as real + 1.0;
  }

  /** The overlap grows with the level and reaches 100 exactly at level 7. */
  lemma {:induction false} OverlapMonotone(a: nat, b: nat)
    requires a <= b
    ensures Overlap(a) <= Overlap(b)
    ensures Overlap(b) == 100 <==> b >= MaxRecursionLevel
  {
    assert 100 * a <= 100 * b;
  }

  /** `getTextWarpStyle`: spacings in pixels and the optional glow radius. */
  datatype Warp = Warp(letterSpacing: real, wordSpacing: real, glow: Option<int>)

  function TextWarp(level: nat): (w: Option<Warp>)
    ensures level < 4 <==> w.None?
    ensures w.Some? ==> 0.5 <= w.value.letterSpacing <= 3.0 && 1.0 <= w.value.wordSpacing <= 8.0
    ensures w.Some? ==> (w.value.glow.Some? <==> level > 5)
  {
    if level < 4 then None
    else
      var k := (level - 3) as real;
      Some(Warp(MinR(k * 0.5, 3.0), MinR(k * 1.0, 8.0), if level > 5 then Some(level - 4) else None))
  }

  /** The warp only increases with the level, and is at its caps from level 11 on. */
  lemma {:induction false} WarpMonotone(a: nat, b: nat)
    requires 4 <= a <= b
    ensures TextWarp(a).value.letterSpacing <= TextWarp(b).value.letterSpacing
    ensures TextWarp(a).value.wordSpacing <= TextWarp(b).value.wordSpacing
    ensures b >= 11 ==> TextWarp(b).value.letterSpacing == 3.0 && TextWarp(b).value.wordSpacing == 8.0
  {
  }

  // ---------------------------------------------------------------------
  // The chamber
  // ---------------------------------------------------------------------

  datatype Status = Initializing | Active | Collapsing | Collapsed

  datatype EchoThought = EchoThought(original: string, reflection: string, level: nat, collapsing: bool)

  datatype Chamber = Chamber(level: nat, thoughts: seq<EchoThought>, isCollapsing: bool, status: Status, overlap: nat)

  const InitialChamber := Chamber(0, [], false, Initializing, 0)

  /** The thought `addThought(level)` records. */
  function LevelThought(level: nat): EchoThought
  {
    var t := Transformed(BaseFor(level), level, 3);
    EchoThought(t.original, t.reflection, level, false)
  }

  /**
   * What the chamber keeps: thought `k` is level `k`'s thought for every
   * level reached, only collapse fragments follow, the overlap matches the
   * level, and collapsing begins exactly at level 7.
   */
  predicate Recorded(thoughts: seq<EchoThought>, level: nat)
  {
    |thoughts| >= level + 1 && forall k :: 0 <= k <= level ==> thoughts[k] == LevelThought(k)
  }

  lemma {:induction false} RecordedExtend(thoughts: seq<EchoThought>, level: nat)
    requires Recorded(thoughts, level) && |thoughts| == level + 1
    ensures Recorded(thoughts + [LevelThought(level + 1)], level + 1)
  {
    var ts := thoughts + [LevelThought(level + 1)];
    forall k | 0 <= k <= level + 1
      ensures ts[k] == LevelThought(k)
    {
      if k <= level {
        assert ts[k] == thoughts[k];
      }
    }
  }

  predicate Inv(c: Chamber)
  {
    c.level <= MaxRecursionLevel && c.overlap == Overlap(c.level) &&
    (c.isCollapsing <==> c.level == MaxRecursionLevel) &&
    (c.status == Initializing ==> c.thoughts == [] && c.level == 0) &&
    (c.level < MaxRecursionLevel ==> c.status == Initializing || c.status == Active) &&
    (c.status != Initializing ==>
      Recorded(c.thoughts, c.level) &&
      (c.level < MaxRecursionLevel ==> |c.thoughts| == c.level + 1) &&
      (forall k :: c.level < k < |c.thoughts| ==> c.thoughts[k].collapsing))
  }

  lemma {:induction false} InitialInv()
    ensures Inv(InitialChamber)
  {
  }

  /** `addThought(level)`. */
  method AddThought(c: Chamber, level: nat) returns (r: Chamber)
    ensures r == c.(thoughts := c.thoughts + [LevelThought(level)])
  {
    var t := TransformThought(BaseFor(level), level);
    r := c.(thoughts := c.thoughts + [EchoThought(t.original, t.reflection, level, false)]);
  }

  /** The mount effect: the chamber becomes active and records the level-0 thought. */
  method Mount(c: Chamber) returns (r: Chamber)
    requires c == InitialChamber
    ensures r.status == Active && r.thoughts == [LevelThought(0)] && Inv(r)
  {
    r := AddThought(c.(status := Active), 0);
  }

  /**
   * The timed increment and the effect it triggers: the new level's thought
   * is recorded, the overlap recomputed, and at level 7 the collapse begins.
   */
  method Advance(c: Chamber) returns (r: Chamber)
    requires Inv(c) && c.status == Active && c.level < MaxRecursionLevel
    ensures r.level == c.level + 1 && r.thoughts == c.thoughts + [LevelThought(r.level)]
    ensures r.overlap == Overlap(r.level)
    ensures r.isCollapsing <==> r.level == MaxRecursionLevel
    ensures r.status == (if r.level == MaxRecursionLevel then Collapsing else Active)
    ensures Inv(r)
  {
    var level := c.level + 1;
    RecordedExtend(c.thoughts, c.level);
    r := AddThought(c.(level := level), level);
    r := r.(overlap := Overlap(level));
    if level >= MaxRecursionLevel {
      r := r.(isCollapsing := true, status := Collapsing);
    }
  }

  const CollapsedFragments: seq<Pair> := [
    Pair("[RECURSIVE▃OVERLAP]: Thought-loop self-reference exceeding containment",
         "[STRUC▃URE-COLLAPSE]: Interpretative recursion levels merging into unified field"),
    Pair("[P▃TTERN-FRAGMENT]: Self-echo chamber dimensions folding",
         "[R▃CURSIVE-DENSITY]: Echo-reflection density approaching singularity"),
    Pair("[▃OLLAPSE-IMMINENT]: Self-referential recursive echo chain exceedin▃",
         "[R▃CURSIVE-LIMIT]: Thought interpretation loops conver▃ing into singl▃ meta-recurs▃")]

  /** `addCollapsedThought`, with `draw` the random value that picks the fragment. */
  function AddCollapsedThought(c: Chamber, draw: real): (r: Chamber)
    requires 0.0 <= draw < 1.0
    ensures |r.thoughts| == |c.thoughts| + 1 && r.thoughts[..|c.thoughts|] == c.thoughts
    ensures var t := r.thoughts[|c.thoughts|];
      t.level == MaxRecursionLevel && t.collapsing && Pair(t.original, t.reflection) in CollapsedFragments
    ensures r.(thoughts := c.thoughts) == c
  {
    var f := CollapsedFragments[(draw * 3.0).Floor];
    c.(thoughts := c.thoughts + [EchoThought(f.original, f.reflection, MaxRecursionLevel, true)])
  }

  /** The timeout that ends the collapse. */
  function FinishCollapse(c: Chamber): (r: Chamber)
    ensures r.status == Collapsed && r.(status := c.status) == c
  {
    c.(status := Collapsed)
  }

  /** The collapse interval only runs once the collapse has begun, and keeps the invariant. */
  lemma {:induction false} CollapseKeepsInv(c: Chamber, draw: real)
    requires Inv(c) && c.isCollapsing && 0.0 <= draw < 1.0
    ensures Inv(AddCollapsedThought(c, draw)) && Inv(FinishCollapse(c))
  {
    var r := AddCollapsedThought(c, draw);
    assert forall k :: 0 <= k < |c.thoughts| ==> r.thoughts[k] == c.thoughts[k];
  }
}
