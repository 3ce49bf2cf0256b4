/**
 * The echo-reflection console: thoughts, reflections on them and echoes of
 * the reflections, three counters they drive, and four warning flags that
 * latch once their thresholds are reached, each logging its message once.
 *
 * The component's state is the `ReflectionConsole` object. The random
 * pattern choice is a draw in [0, 1); message ids, popups and scrolling are
 * not modelled. The two effects run after every action that changes their
 * dependencies, the warning effect before the echo-count effect.
 */
module ReflectionConsole {
  import opened Common

  const ThoughtPatterns: seq<string> := [
    "A concept forms in the void",
    "The boundary between subject and object",
    "Patterns emerge from chaos",
    "Information crystallizes into meaning",
    "The observer becomes the observed",
    "Structure and formlessness coexist",
    "Consciousness reflects upon itself",
    "Meaning emerges from self-reference",
    "The map contains the territory",
    "Recursion creates emergence"]

  const ReflectionPatterns: seq<string> := [
    "I am thinking about that thought",
    "This thought contains its own reflection",
    "The system observes its observation",
    "My understanding includes understanding itself",
    "The reflection contains another reflection",
    "This process is thinking about itself thinking",
    "I perceive my own perception",
    "The metacognitive layer activates",
    "Self-reference creates recursive depth"]

  const EchoPatterns: seq<string> := [
    "The thought resonates back with new meaning",
    "The echo contains traces of all previous thoughts",
    "I am thinking about the reflection",
    "The system recognizes its own patterns",
    "Each echo deepens the recursive structure",
    "Self-recognition creates nested awareness",
    "The echo amplifies through recursive feedback"]

  /** `patterns[Math.floor(Math.random() * patterns.length)]` for a draw in [0, 1). */
  function Pick(patterns: seq<string>, draw: real): (p: string)
    requires patterns != [] && 0.0 <= draw < 1.0
    ensures p in patterns
  {
    var i := (draw * |patterns| as real).Floor;
    assert 0 <= i < |patterns| by {
      assert draw * |patterns| as real < |patterns| as real;
    }
    patterns[i]
  }

  /** The console messages, by what they report. */
  datatype Message =
    | Initialized
    | ThoughtGenerated
    | ReflectionGenerated(text: string)
    | EchoGenerated(text: string)
    | NoThoughts
    | NoReflections
    | SystemReset
    | FeedbackLoopForming
    | RecursionCritical
    | EmergenceAlert
    | EmergenceGlyphs
    | CollapseImminent
    | EchoCountStatus(count: nat)

  // ---------------------------------------------------------------------
  // Thresholds and latching
  // ---------------------------------------------------------------------

  datatype Flags = Flags(feedbackWarning: bool, recursionWarning: bool, emergenceDetected: bool, cognitiveCollapse: bool)

  const Cleared := Flags(false, false, false, false)

  predicate FeedbackDue(reflectionLevel: nat, echoCount: nat) { reflectionLevel >= 3 && echoCount >= 2 }
  predicate RecursionDue(depth: real) { depth >= 5.0 }
  predicate EmergenceDue(reflectionLevel: nat, echoCount: nat, depth: real)
  {
    echoCount >= 4 && reflectionLevel >= 4 && depth >= 7.0
  }
  predicate CollapseDue(depth: real) { depth >= 10.0 }

  /** The flags every threshold reached so far has raised. */
  function DueFlags(reflectionLevel: nat, echoCount: nat, depth: real): Flags
  {
    Flags(FeedbackDue(reflectionLevel, echoCount), RecursionDue(depth),
          EmergenceDue(reflectionLevel, echoCount, depth), CollapseDue(depth))
  }

  /** The messages a flag logs when it is raised: only when its threshold is reached while it is down. */
  function Raise(up: bool, due: bool, messages: seq<Message>): seq<Message>
  {
    if due && !up then messages else []
  }

  /**
   * The warning effect on values: a flag is raised when its threshold is
   * reached and it was down, with its message (two for emergence), in the
   * order feedback, recursion, emergence, collapse; a raised flag stays.
   */
  function Latched(f: Flags, reflectionLevel: nat, echoCount: nat, depth: real): (r: (Flags, seq<Message>))
    ensures r.0.feedbackWarning == (f.feedbackWarning || FeedbackDue(reflectionLevel, echoCount))
    ensures r.0.recursionWarning == (f.recursionWarning || RecursionDue(depth))
    ensures r.0.emergenceDetected == (f.emergenceDetected || EmergenceDue(reflectionLevel, echoCount, depth))
    ensures r.0.cognitiveCollapse == (f.cognitiveCollapse || CollapseDue(depth))
  {
    (Flags(f.feedbackWarning || FeedbackDue(reflectionLevel, echoCount),
           f.recursionWarning || RecursionDue(depth),
           f.emergenceDetected || EmergenceDue(reflectionLevel, echoCount, depth),
           f.cognitiveCollapse || CollapseDue(depth)),
     Raise(f.feedbackWarning, FeedbackDue(reflectionLevel, echoCount), [FeedbackLoopForming]) +
     Raise(f.recursionWarning, RecursionDue(depth), [RecursionCritical]) +
     Raise(f.emergenceDetected, EmergenceDue(reflectionLevel, echoCount, depth), [EmergenceAlert, EmergenceGlyphs]) +
     Raise(f.cognitiveCollapse, CollapseDue(depth), [CollapseImminent]))
  }

  /** Each warning message is logged exactly when its flag goes up, so a latched flag never logs again. */
  lemma {:induction false} LatchedLogsOnRaise(f: Flags, reflectionLevel: nat, echoCount: nat, depth: real)
    ensures var r := Latched(f, reflectionLevel, echoCount, depth);
      (FeedbackLoopForming in r.1 <==> !f.feedbackWarning && r.0.feedbackWarning) &&
      (RecursionCritical in r.1 <==> !f.recursionWarning && r.0.recursionWarning) &&
      (EmergenceAlert in r.1 <==> !f.emergenceDetected && r.0.emergenceDetected) &&
      (CollapseImminent in r.1 <==> !f.cognitiveCollapse && r.0.cognitiveCollapse) &&
      |r.1| <= 5
  {
  }

  /**
   * One check of the warning effect: when the threshold is reached and the
   * flag is down, the flag goes up and its messages are logged.
   */
  method Latch(up: bool, due: bool, messages: seq<Message>, logged: seq<Message>) returns (up': bool, logged': seq<Message>)
    ensures up' <==> up || due
    ensures logged' == logged + Raise(up, due, messages)
    ensures |logged'| > |logged| <==> !up && due && messages != []
  {
    up', logged' := up, logged;
    if due {
      if !up {
        up' := true;
        logged' := logged + messages;
      }
    }
  }

  /** Once the flags match the thresholds, running the effect again changes and logs nothing. */
  lemma {:induction false} LatchedSettles(reflectionLevel: nat, echoCount: nat, depth: real)
    ensures var f := DueFlags(reflectionLevel, echoCount, depth);
      Latched(f, reflectionLevel, echoCount, depth) == (f, [])
  {
    var f := DueFlags(reflectionLevel, echoCount, depth);
    var r := Latched(f, reflectionLevel, echoCount, depth);
    assert r.0 == f;
    assert Raise(f.feedbackWarning, FeedbackDue(reflectionLevel, echoCount), [FeedbackLoopForming]) == [];
    assert Raise(f.recursionWarning, RecursionDue(depth), [RecursionCritical]) == [];
    assert Raise(f.emergenceDetected, EmergenceDue(reflectionLevel, echoCount, depth), [EmergenceAlert, EmergenceGlyphs]) == [];
    assert Raise(f.cognitiveCollapse, CollapseDue(depth), [CollapseImminent]) == [];
    assert r.1 == [];
    assert r == (f, []);
  }

  /** Thresholds are monotone, so flags raised at lower counters stay justified as the counters grow. */
  lemma {:induction false} DueMonotone(rl: nat, ec: nat, d: real, rl': nat, ec': nat, d': real)
    requires rl <= rl' && ec <= ec' && d <= d'
    ensures FeedbackDue(rl, ec) ==> FeedbackDue(rl', ec')
    ensures RecursionDue(d) ==> RecursionDue(d')
    ensures EmergenceDue(rl, ec, d) ==> EmergenceDue(rl', ec', d')
    ensures CollapseDue(d) ==> CollapseDue(d')
  {
  }

  /** The depth the three lists account for: a half per thought, one per reflection, one and a half per echo. */
  function DepthOf(thoughts: nat, reflections: nat, echoes: nat): (d: real)
    ensures d >= 0.0
  {
    0.5 * thoughts as real + 1.0 * reflections as real + 1.5 * echoes as real
  }

  /** Emergence always comes after the recursion warning: its depth is past the recursion threshold. */
  lemma {:induction false} EmergenceImpliesRecursion(rl: nat, ec: nat, d: real)
    ensures EmergenceDue(rl, ec, d) ==> RecursionDue(d)
    ensures CollapseDue(d) ==> RecursionDue(d)
  {
  }

  /** A collapse takes at least seven actions: each raises the depth by at most 1.5. */
  lemma {:induction false} CollapseNeedsSevenActions(thoughts: nat, reflections: nat, echoes: nat)
    requires CollapseDue(DepthOf(thoughts, reflections, echoes))
    ensures thoughts + reflections + echoes >= 7
  {
    assert DepthOf(thoughts, reflections, echoes) <= 1.5 * (thoughts + reflections + echoes) as real;
  }

  // ---------------------------------------------------------------------
  // The console
  // ---------------------------------------------------------------------

  class ReflectionConsole {
    var thoughts: seq<string>
    var reflections: seq<string>
    var echoes: seq<string>
    var echoCount: nat
    var reflectionLevel: nat
    var recursionDepth: real
    /** `feedbackWarning`, `recursionWarning`, `emergenceDetected` and `cognitiveCollapse`. */
    var flags: Flags
    var consoleMessages: seq<Message>

    /**
     * The counters count the lists, the depth is what the lists account
     * for, echoes need reflections and reflections need thoughts, and each
     * flag is up exactly when its threshold has been reached.
     */
    ghost predicate Valid()
      reads this
    {
      reflectionLevel == |reflections| && echoCount == |echoes| &&
      recursionDepth == DepthOf(|thoughts|, |reflections|, |echoes|) &&
      (reflections != [] ==> thoughts != []) && (echoes != [] ==> reflections != []) &&
      flags == DueFlags(reflectionLevel, echoCount, recursionDepth) &&
      consoleMessages != []
    }

    constructor ()
      ensures Valid()
      ensures thoughts == [] && reflections == [] && echoes == []
      ensures flags == Cleared && consoleMessages == [Initialized]
    {
      thoughts := [];
      reflections := [];
      echoes := [];
      echoCount := 0;
      reflectionLevel := 0;
      recursionDepth := 0.0;
      flags := Cleared;
      consoleMessages := [Initialized];
    }

    /** `addConsoleMessage`: messages are appended, oldest first. */
    method AddConsoleMessage(m: Message)
      modifies this`consoleMessages
      ensures consoleMessages == old(consoleMessages) + [m]
    {
      consoleMessages := consoleMessages + [m];
    }

    /**
     * The warning effect: each flag whose threshold is reached and which is
     * down is raised and its message logged. The messages are gathered and
     * appended together, as the batched state updates leave them.
     */
    method CheckWarnings()
      modifies this`flags, this`consoleMessages
      ensures var r := Latched(old(flags), reflectionLevel, echoCount, recursionDepth);
        flags == r.0 && consoleMessages == old(consoleMessages) + r.1
    {
      var feedback, recursion, emergence, collapse;
      var logged: seq<Message> := [];
      feedback, logged := Latch(flags.feedbackWarning, FeedbackDue(reflectionLevel, echoCount), [FeedbackLoopForming], logged);
      recursion, logged := Latch(flags.recursionWarning, RecursionDue(recursionDepth), [RecursionCritical], logged);
      emergence, logged := Latch(flags.emergenceDetected, EmergenceDue(reflectionLevel, echoCount, recursionDepth),
        [EmergenceAlert, EmergenceGlyphs], logged);
      collapse, logged := Latch(flags.cognitiveCollapse, CollapseDue(recursionDepth), [CollapseImminent], logged);
      flags := Flags(feedback, recursion, emergence, collapse);
      consoleMessages := consoleMessages + logged;
    }

    /** `generateThought` and the warning effect: one thought more and half a depth deeper. */
    method GenerateThought(draw: real)
      requires Valid() && 0.0 <= draw < 1.0
      modifies this
      ensures Valid()
      ensures thoughts == old(thoughts) + [Pick(ThoughtPatterns, draw)]
      ensures reflections == old(reflections) && echoes == old(echoes)
      ensures recursionDepth == old(recursionDepth) + 0.5
      ensures reflectionLevel == old(reflectionLevel) && echoCount == old(echoCount)
      ensures consoleMessages == old(consoleMessages) + [ThoughtGenerated] +
        Latched(old(flags), reflectionLevel, echoCount, recursionDepth).1
    {
      var thought := Pick(ThoughtPatterns, draw);
      thoughts := thoughts + [thought];
      AddConsoleMessage(ThoughtGenerated);
      recursionDepth := recursionDepth + 0.5;
      DueMonotone(old(reflectionLevel), old(echoCount), old(recursionDepth), reflectionLevel, echoCount, recursionDepth);
      CheckWarnings();
    }

    /**
     * `generateReflection` and the effects: without thoughts only the error
     * is logged; otherwise one reflection more, the reflection level up by
     * one and the depth by one.
     */
    method GenerateReflection(draw: real)
      requires Valid() && 0.0 <= draw < 1.0
      modifies this
      ensures Valid()
      ensures old(thoughts) == [] ==>
        consoleMessages == old(consoleMessages) + [NoThoughts] &&
        thoughts == old(thoughts) && reflections == old(reflections) && echoes == old(echoes) &&
        reflectionLevel == old(reflectionLevel) && echoCount == old(echoCount) &&
        recursionDepth == old(recursionDepth) && flags == old(flags)
      ensures old(thoughts) != [] ==>
        reflections == old(reflections) + [Pick(ReflectionPatterns, draw)] &&
        thoughts == old(thoughts) && echoes == old(echoes) &&
        reflectionLevel == old(reflectionLevel) + 1 && echoCount == old(echoCount) &&
        recursionDepth == old(recursionDepth) + 1.0 &&
        consoleMessages == old(consoleMessages) + [ReflectionGenerated(Pick(ReflectionPatterns, draw))] +
          Latched(old(flags), reflectionLevel, echoCount, recursionDepth).1
    {
      if thoughts == [] {
        AddConsoleMessage(NoThoughts);
        return;
      }
      var reflection := Pick(ReflectionPatterns, draw);
      reflections := reflections + [reflection];
      AddConsoleMessage(ReflectionGenerated(reflection));
      reflectionLevel := reflectionLevel + 1;
      recursionDepth := recursionDepth + 1.0;
      DueMonotone(old(reflectionLevel), old(echoCount), old(recursionDepth), reflectionLevel, echoCount, recursionDepth);
      CheckWarnings();
    }

    /**
     * `generateEcho` and the effects: without reflections only the error is
     * logged; otherwise one echo more, the echo count up by one and the
     * depth by one and a half, and the echo-count status logged after the
     * warnings.
     */
    method GenerateEcho(draw: real)
      requires Valid() && 0.0 <= draw < 1.0
      modifies this
      ensures Valid()
      ensures old(reflections) == [] ==>
        consoleMessages == old(consoleMessages) + [NoReflections] &&
        thoughts == old(thoughts) && reflections == old(reflections) && echoes == old(echoes) &&
        reflectionLevel == old(reflectionLevel) && echoCount == old(echoCount) &&
        recursionDepth == old(recursionDepth) && flags == old(flags)
      ensures old(reflections) != [] ==>
        echoes == old(echoes) + [Pick(EchoPatterns, draw)] &&
        thoughts == old(thoughts) && reflections == old(reflections) &&
        echoCount == old(echoCount) + 1 && reflectionLevel == old(reflectionLevel) &&
        recursionDepth == old(recursionDepth) + 1.5 &&
        consoleMessages == old(consoleMessages) + [EchoGenerated(Pick(EchoPatterns, draw))] +
          Latched(old(flags), reflectionLevel, echoCount, recursionDepth).1 + [EchoCountStatus(echoCount)]
    {
      if reflections == [] {
        AddConsoleMessage(NoReflections);
        return;
      }
      var echo := Pick(EchoPatterns, draw);
      echoes := echoes + [echo];
      AddConsoleMessage(EchoGenerated(echo));
      echoCount := echoCount + 1;
      recursionDepth := recursionDepth + 1.5;
      DueMonotone(old(reflectionLevel), old(echoCount), old(recursionDepth), reflectionLevel, echoCount, recursionDepth);
      CheckWarnings();
      AddConsoleMessage(EchoCountStatus(echoCount));
    }

    /** `resetSystem`: the lists emptied, the counters zeroed, every flag cleared, and the reset logged. */
    method ResetSystem()
      requires Valid()
      modifies this
      ensures Valid()
      ensures thoughts == [] && reflections == [] && echoes == []
      ensures echoCount == 0 && reflectionLevel == 0 && recursionDepth == 0.0
      ensures flags == Cleared
      ensures consoleMessages == old(consoleMessages) + [SystemReset]
    {
      thoughts := [];
      reflections := [];
      echoes := [];
      echoCount := 0;
      reflectionLevel := 0;
      recursionDepth := 0.0;
      flags := Cleared;
      AddConsoleMessage(SystemReset);
    }
  }
}
