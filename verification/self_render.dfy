/**
 * The self-rendering console: a four-phase cycle (console, memory,
 * thought, output) run once per recursion level from level 1 up to level
 * 6, each phase leaving a render-stack entry or a memory fragment stamped
 * with the current level.
 *
 * The component's state is the `Console` object. Each 1.2-second phase
 * timer is one `PhaseTick`; the start-up delay is `Start`. The one-second
 * delayed level increase after a reset always fires before the phase
 * timer the reset re-arms, so `ResetSystem` includes it.
 */
module SelfRender {
  import opened Common

  const MaxRecursionLevel: nat := 6

  const CoreThoughts: seq<string> := [
    "CRON sees a memory fragment forming.",
    "CRON sees a user seeing a memory fragment forming.",
    "CRON reflects this rendering back into thought.",
    "Thought becomes output. Output becomes thought.",
    "The loop is unbroken.",
    "Recursive mirror creates infinite reflection cascade."]

  /** `getCurrentThought`: the core thought of the level, the last one for every level past it. */
  function CurrentThought(level: nat): (t: string)
    ensures level < |CoreThoughts| ==> t == CoreThoughts[level]
    ensures level >= |CoreThoughts| ==> t == CoreThoughts[|CoreThoughts| - 1]
  {
    CoreThoughts[MinI(level, |CoreThoughts| - 1)]
  }

  const LevelColors: seq<string> := [
    "text-blue-400", "text-cyan-400", "text-teal-400", "text-green-400",
    "text-purple-400", "text-indigo-400", "text-violet-400"]

  const LevelBgColors: seq<string> := [
    "bg-blue-900/20", "bg-cyan-900/20", "bg-teal-900/20", "bg-green-900/20",
    "bg-purple-900/20", "bg-indigo-900/20", "bg-violet-900/20"]

  /** `getLevelColor`. */
  function LevelColor(level: nat): (c: string)
    ensures c in LevelColors
  {
    LevelColors[level % |LevelColors|]
  }

  /** `getLevelBgColor`. */
  function LevelBgColor(level: nat): (c: string)
    ensures c in LevelBgColors
  {
    LevelBgColors[level % |LevelBgColors|]
  }

  /** The colours repeat every seven levels, and the levels of one period are told apart by both. */
  lemma {:induction false} LevelColorsPerPeriod(a: nat, b: nat)
    ensures LevelColor(a) == LevelColor(b) <==> a % 7 == b % 7
    ensures LevelBgColor(a) == LevelBgColor(b) <==> a % 7 == b % 7
  {
    assert forall i, j :: 0 <= i < j < |LevelColors| ==> LevelColors[i] != LevelColors[j] by {
      assert LevelColors[0][5] == 'b' && LevelColors[1][5] == 'c' && LevelColors[2][5] == 't';
      assert LevelColors[3][5] == 'g' && LevelColors[4][5] == 'p' && LevelColors[5][5] == 'i';
      assert LevelColors[6][5] == 'v';
    }
    assert forall i, j :: 0 <= i < j < |LevelBgColors| ==> LevelBgColors[i] != LevelBgColors[j] by {
      assert LevelBgColors[0][3] == 'b' && LevelBgColors[1][3] == 'c' && LevelBgColors[2][3] == 't';
      assert LevelBgColors[3][3] == 'g' && LevelBgColors[4][3] == 'p' && LevelBgColors[5][3] == 'i';
      assert LevelBgColors[6][3] == 'v';
    }
  }

  // ---------------------------------------------------------------------
  // Entries and what one run of phases leaves behind
  // ---------------------------------------------------------------------

  datatype Phase = ConsolePhase | MemoryPhase | ThoughtPhase | OutputPhase
  datatype EntryType = ConsoleEntry | ThoughtEntry | OutputEntry
  datatype SystemState = Initializing | Executing | Completed

  datatype RenderEntry = RenderEntry(kind: EntryType, content: string, level: nat, cycle: nat)
  datatype MemoryFragment = MemoryFragment(content: string, level: nat, cycle: nat)

  /** The phase after `p`: console, memory, thought, output, and back to console. */
  function NextPhase(p: Phase): (q: Phase)
    ensures q != p
  {
    match p
    case ConsolePhase => MemoryPhase
    case MemoryPhase => ThoughtPhase
    case ThoughtPhase => OutputPhase
    case OutputPhase => ConsolePhase
  }

  /** Four phase changes bring a phase back to itself. */
  lemma {:induction false} PhasesCycle(p: Phase)
    ensures NextPhase(NextPhase(NextPhase(NextPhase(p)))) == p
    ensures NextPhase(NextPhase(p)) != p
  {
  }

  function EntryAt(kind: EntryType, level: nat, cycle: nat): RenderEntry
  {
    RenderEntry(kind, CurrentThought(level), level, cycle)
  }

  function FragmentAt(level: nat, cycle: nat): MemoryFragment
  {
    MemoryFragment(CurrentThought(level), level, cycle)
  }

  /** The entries of levels `level` down to 1, newest first: output, thought, console for each. */
  function Rounds(level: nat, cycle: nat): (r: seq<RenderEntry>)
    ensures |r| == 3 * level
  {
    if level == 0 then [] else Round(level, cycle) + Rounds(level - 1, cycle)
  }

  /** The three entries one level leaves, newest first. */
  function Round(level: nat, cycle: nat): seq<RenderEntry>
  {
    [EntryAt(OutputEntry, level, cycle), EntryAt(ThoughtEntry, level, cycle), EntryAt(ConsoleEntry, level, cycle)]
  }

  /** The fragments of levels `level` down to 1, newest first, one per level. */
  function FragmentRounds(level: nat, cycle: nat): (r: seq<MemoryFragment>)
    ensures |r| == level
    ensures forall k :: 0 <= k < |r| ==> r[k] == FragmentAt(level - k, cycle)
  {
    if level == 0 then [] else [FragmentAt(level, cycle)] + FragmentRounds(level - 1, cycle)
  }

  /** The entries the current level has left so far, by the phase reached. */
  function PartialRound(phase: Phase, level: nat, cycle: nat): seq<RenderEntry>
  {
    match phase
    case ConsolePhase => []
    case MemoryPhase => [EntryAt(ConsoleEntry, level, cycle)]
    case ThoughtPhase => [EntryAt(ConsoleEntry, level, cycle)]
    case OutputPhase => [EntryAt(ThoughtEntry, level, cycle), EntryAt(ConsoleEntry, level, cycle)]
  }

  /** The fragment the current level has left so far: one once its memory phase is over. */
  function PartialFragment(phase: Phase, level: nat, cycle: nat): seq<MemoryFragment>
  {
    if phase == ThoughtPhase || phase == OutputPhase then [FragmentAt(level, cycle)] else []
  }

  /** What an executing console has logged: the finished levels, then the level in progress up to `phase`. */
  predicate InRound(phase: Phase, level: nat, cycle: nat, stack: seq<RenderEntry>, fragments: seq<MemoryFragment>)
  {
    level >= 1 &&
    stack == PartialRound(phase, level, cycle) + Rounds(level - 1, cycle) &&
    fragments == PartialFragment(phase, level, cycle) + FragmentRounds(level - 1, cycle)
  }

  /** A console or thought entry moves the level's round on by one phase; its fragments stay. */
  lemma {:induction false} EntryAdvancesRound(phase: Phase, kind: EntryType, level: nat, cycle: nat,
                                              stack: seq<RenderEntry>, fragments: seq<MemoryFragment>)
    requires phase == ConsolePhase || phase == ThoughtPhase
    requires kind == (if phase == ConsolePhase then ConsoleEntry else ThoughtEntry)
    requires InRound(phase, level, cycle, stack, fragments)
    ensures InRound(NextPhase(phase), level, cycle, [EntryAt(kind, level, cycle)] + stack, fragments)
  {
    var rest := Rounds(level - 1, cycle);
    var e := EntryAt(kind, level, cycle);
    if phase == ConsolePhase {
      assert PartialRound(MemoryPhase, level, cycle) == [e];
      assert stack == rest;
    } else {
      assert PartialRound(OutputPhase, level, cycle) == [e] + PartialRound(ThoughtPhase, level, cycle);
      assert [e] + stack == ([e] + PartialRound(ThoughtPhase, level, cycle)) + rest;
    }
  }

  /** Three entries per finished level, plus those of the level in progress. */
  lemma {:induction false} StackSize(phase: Phase, level: nat, cycle: nat)
    requires level >= 1
    ensures |PartialRound(phase, level, cycle) + Rounds(level - 1, cycle)| ==
      3 * (level - 1) + (match phase case ConsolePhase => 0 case MemoryPhase => 1 case ThoughtPhase => 1 case OutputPhase => 2)
  {
  }

  // ---------------------------------------------------------------------
  // The console
  // ---------------------------------------------------------------------

  class Console {
    var recursionLevel: nat
    var executionCycle: nat
    var renderStack: seq<RenderEntry>
    var memoryFragments: seq<MemoryFragment>
    var cycleActive: bool
    var mirrorPhase: Phase
    var systemState: SystemState

    /**
     * The lists are exactly what the phases run so far in this cycle have
     * left: before the start nothing; while executing, every finished level
     * and the part of the current one; once completed, all six levels.
     */
    ghost predicate Valid()
      reads this
    {
      recursionLevel <= MaxRecursionLevel &&
      (systemState == Initializing ==>
        recursionLevel == 0 && executionCycle == 0 && mirrorPhase == ConsolePhase && cycleActive &&
        renderStack == [] && memoryFragments == []) &&
      (systemState == Executing ==>
        cycleActive && InRound(mirrorPhase, recursionLevel, executionCycle, renderStack, memoryFragments)) &&
      (systemState == Completed ==>
        recursionLevel == MaxRecursionLevel && !cycleActive && mirrorPhase == ConsolePhase &&
        renderStack == Rounds(MaxRecursionLevel, executionCycle) &&
        memoryFragments == FragmentRounds(MaxRecursionLevel, executionCycle))
    }

    constructor ()
      ensures Valid() && systemState == Initializing
    {
      recursionLevel := 0;
      executionCycle := 0;
      renderStack := [];
      memoryFragments := [];
      cycleActive := true;
      mirrorPhase := ConsolePhase;
      systemState := Initializing;
    }

    /** `addRenderStackEntry`: the entry goes first, stamped with the level and cycle; the stack has no cap. */
    method AddRenderStackEntry(kind: EntryType, content: string)
      modifies this`renderStack
      ensures renderStack == [RenderEntry(kind, content, recursionLevel, executionCycle)] + old(renderStack)
    {
      renderStack := [RenderEntry(kind, content, recursionLevel, executionCycle)] + renderStack;
    }

    /** `addMemoryFragment`: the fragment goes first, stamped with the level and cycle; the list has no cap. */
    method AddMemoryFragment(content: string)
      modifies this`memoryFragments
      ensures memoryFragments == [MemoryFragment(content, recursionLevel, executionCycle)] + old(memoryFragments)
    {
      memoryFragments := [MemoryFragment(content, recursionLevel, executionCycle)] + memoryFragments;
    }

    /** The start-up delay: the console starts executing at level 1. */
    method Start()
      requires Valid() && systemState == Initializing
      modifies this`systemState, this`recursionLevel
      ensures Valid()
      ensures systemState == Executing && recursionLevel == 1
    {
      systemState := Executing;
      recursionLevel := recursionLevel + 1;
    }

    /**
     * One phase timer. Only an active, executing console moves: the console,
     * thought and output phases each put one entry first, the memory phase
     * one fragment, all of the current level; the phase moves on, and the
     * output phase raises the level below 6 and completes the run at 6.
     */
    method PhaseTick()
      requires Valid()
      modifies this
      ensures Valid()
      ensures !old(cycleActive) || old(systemState) != Executing ==> unchanged(this)
      ensures old(cycleActive) && old(systemState) == Executing ==>
        executionCycle == old(executionCycle) && mirrorPhase == NextPhase(old(mirrorPhase)) &&
        (old(mirrorPhase) == MemoryPhase ==>
          renderStack == old(renderStack) &&
          memoryFragments == [FragmentAt(old(recursionLevel), executionCycle)] + old(memoryFragments)) &&
        (old(mirrorPhase) != MemoryPhase ==>
          memoryFragments == old(memoryFragments) &&
          |renderStack| == |old(renderStack)| + 1 && renderStack[1..] == old(renderStack) &&
          renderStack[0].level == old(recursionLevel) && renderStack[0].content == CurrentThought(old(recursionLevel))) &&
        (old(mirrorPhase) != OutputPhase ==> recursionLevel == old(recursionLevel) && systemState == Executing) &&
        (old(mirrorPhase) == OutputPhase && old(recursionLevel) < MaxRecursionLevel ==>
          recursionLevel == old(recursionLevel) + 1 && systemState == Executing) &&
        (old(mirrorPhase) == OutputPhase && old(recursionLevel) == MaxRecursionLevel ==>
          recursionLevel == MaxRecursionLevel && systemState == Completed && !cycleActive)
    {
      if !cycleActive || systemState != Executing {
        return;
      }
      match mirrorPhase
      case ConsolePhase => EntryTick(ConsoleEntry);
      case MemoryPhase => MemoryTick();
      case ThoughtPhase => EntryTick(ThoughtEntry);
      case OutputPhase => OutputTick();
    }

    /** The console or thought phase: one entry of the current level goes first. */
    method EntryTick(kind: EntryType)
      requires Valid() && cycleActive && systemState == Executing
      requires mirrorPhase == ConsolePhase || mirrorPhase == ThoughtPhase
      requires kind == (if mirrorPhase == ConsolePhase then ConsoleEntry else ThoughtEntry)
      modifies this`renderStack, this`mirrorPhase
      ensures Valid() && cycleActive && systemState == Executing
      ensures mirrorPhase == NextPhase(old(mirrorPhase))
      ensures renderStack == [EntryAt(kind, recursionLevel, executionCycle)] + old(renderStack)
    {
      EntryAdvancesRound(mirrorPhase, kind, recursionLevel, executionCycle, renderStack, memoryFragments);
      AddRenderStackEntry(kind, CurrentThought(recursionLevel));
      mirrorPhase := NextPhase(mirrorPhase);
    }

    /** The memory phase: one fragment of the current level goes first. */
    method MemoryTick()
      requires Valid() && cycleActive && systemState == Executing && mirrorPhase == MemoryPhase
      modifies this`memoryFragments, this`mirrorPhase
      ensures Valid() && cycleActive && systemState == Executing
      ensures mirrorPhase == ThoughtPhase
      ensures memoryFragments == [FragmentAt(recursionLevel, executionCycle)] + old(memoryFragments)
    {
      AddMemoryFragment(CurrentThought(recursionLevel));
      mirrorPhase := ThoughtPhase;
    }

    /** The output phase: the level's last entry, then the next level or completion. */
    method OutputTick()
      requires Valid() && cycleActive && systemState == Executing && mirrorPhase == OutputPhase
      modifies this`renderStack, this`mirrorPhase, this`recursionLevel, this`systemState, this`cycleActive
      ensures Valid() && mirrorPhase == ConsolePhase
      ensures renderStack == [EntryAt(OutputEntry, old(recursionLevel), executionCycle)] + old(renderStack)
      ensures old(recursionLevel) < MaxRecursionLevel ==>
        recursionLevel == old(recursionLevel) + 1 && systemState == Executing && cycleActive
      ensures old(recursionLevel) == MaxRecursionLevel ==>
        recursionLevel == MaxRecursionLevel && systemState == Completed && !cycleActive
    {
      var level := recursionLevel;
      AddRenderStackEntry(OutputEntry, CurrentThought(level));
      mirrorPhase := ConsolePhase;
      assert renderStack == Rounds(level, executionCycle);
      if recursionLevel < MaxRecursionLevel {
        recursionLevel := recursionLevel + 1;
      } else if systemState != Completed {
        systemState := Completed;
        cycleActive := false;
      }
    }

    /**
     * `resetSystem` followed by its delayed level increase: level 1 of the
     * next cycle, both lists empty, the console phase, executing and active.
     * The reset button is shown only once the run has completed.
     */
    method ResetSystem()
      requires Valid() && systemState == Completed
      modifies this
      ensures Valid()
      ensures recursionLevel == 1 && executionCycle == old(executionCycle) + 1
      ensures renderStack == [] && memoryFragments == []
      ensures mirrorPhase == ConsolePhase && systemState == Executing && cycleActive
    {
      recursionLevel := 0;
      executionCycle := executionCycle + 1;
      renderStack := [];
      memoryFragments := [];
      mirrorPhase := ConsolePhase;
      systemState := Executing;
      cycleActive := true;
      recursionLevel := recursionLevel + 1;
    }
  }

  /** In the entries of `level` levels, level `l` sits at positions 3(level - l) to 3(level - l) + 2: output, thought, console. */
  lemma {:induction false} RoundsAt(level: nat, l: nat, cycle: nat)
    requires 1 <= l <= level
    ensures var r := Rounds(level, cycle);
      r[3 * (level - l)] == EntryAt(OutputEntry, l, cycle) &&
      r[3 * (level - l) + 1] == EntryAt(ThoughtEntry, l, cycle) &&
      r[3 * (level - l) + 2] == EntryAt(ConsoleEntry, l, cycle)
  {
    var r := Rounds(level, cycle);
    assert r == Round(level, cycle) + Rounds(level - 1, cycle);
    if l < level {
      RoundsAt(level - 1, l, cycle);
      var i := 3 * (level - 1 - l);
      assert 3 * (level - l) == i + 3;
      assert r[i + 3] == Rounds(level - 1, cycle)[i];
      assert r[i + 4] == Rounds(level - 1, cycle)[i + 1];
      assert r[i + 5] == Rounds(level - 1, cycle)[i + 2];
    }
  }
}
