/**
 * The CRON recursive mirror: a recursion level that cycles through 0..5,
 * a count of completed cycles, and two newest-first lists, the render log
 * and the memory fragments, each fed once per level change.
 *
 * The component's state is the `Mirror` object; entry ids and timestamps
 * come from the clock and are not modelled.
 */
module CronMirror {
  import opened Common

  const MaxRecursionLevel: nat := 5

  /** The number of levels a cycle passes through. */
  const LevelCount: nat := MaxRecursionLevel + 1

  const BaseThoughts: seq<string> := [
    "Cron sees a memory fragment forming.",
    "Cron sees a user seeing a memory fragment forming.",
    "Cron reflects this rendering back into thought.",
    "Thought becomes output. Output becomes thought.",
    "The loop is unbroken."]

  const ObservesPrefix: string := "Cron observes itself processing: \""
  const ChainPrefix: string := "Recursive observation chain contains nested reflections of \""
  const FeedbackThought: string := "Memory-thought-output feedback stabilizes into higher-order pattern"
  const UnifyThought: string := "Observer and observed unify through recursive mirroring"

  // ---------------------------------------------------------------------
  // Thoughts, entry types and colours
  // ---------------------------------------------------------------------

  /**
   * `getCurrentThought`: a base thought at levels 0 and 1; from level 2 on
   * a transformation of the thought one below the level's own.
   */
  function CurrentThought(level: nat): (t: string)
    ensures level <= 1 ==> t == BaseThoughts[level]
    ensures level == 4 ==> t == FeedbackThought
    ensures level >= 5 ==> t == UnifyThought
  {
    var n := |BaseThoughts|;
    var thought := BaseThoughts[level % n];
    if level > 1 then
      var baseIndex := level % n;
      var lower := BaseThoughts[(baseIndex + n - 1) % n];
      if level == 2 then ObservesPrefix + lower + "\""
      else if level == 3 then ChainPrefix + lower[..MinI(15, |lower|)] + "...\""
      else if level == 4 then FeedbackThought
      else UnifyThought
    else thought
  }

  /** Level 2 quotes the level-1 base thought whole. */
  lemma {:induction false} ThoughtAtTwo()
    ensures CurrentThought(2) == ObservesPrefix + BaseThoughts[1] + "\""
  {
    assert (2 % 5 + 5 - 1) % 5 == 1;
  }

  /** Level 3 quotes the first fifteen characters of the level-2 base thought. */
  lemma {:induction false} ThoughtAtThree()
    ensures CurrentThought(3) == ChainPrefix + BaseThoughts[2][..15] + "...\""
  {
    assert (3 % 5 + 5 - 1) % 5 == 2;
    assert |BaseThoughts[2]| > 15;
  }

  /** The fifteen characters level 3 quotes. */
  lemma {:induction false} ExcerptAtThree()
    ensures BaseThoughts[2][..15] == "Cron reflects t"
  {
  }

  datatype EntryType = ConsoleEntry | MemoryEntry | ThoughtEntry

  /** The log entry type of a level: console, memory, thought, by the level modulo 3. */
  function EntryKind(level: nat): EntryType
  {
    if level % 3 == 0 then ConsoleEntry else if level % 3 == 1 then MemoryEntry else ThoughtEntry
  }

  datatype FragmentType = ThoughtFragment | ReflectionFragment

  /** A fragment is a thought at even levels and a reflection at odd ones. */
  function FragmentKind(level: nat): (k: FragmentType)
    ensures k == ThoughtFragment <==> level % 2 == 0
  {
    if level % 2 == 0 then ThoughtFragment else ReflectionFragment
  }

  const LevelColors: seq<string> := [
    "text-blue-400", "text-indigo-400", "text-purple-400", "text-violet-400", "text-fuchsia-500", "text-pink-500"]

  /** `getLevelColor`: the colours repeat every six levels. */
  function LevelColor(level: nat): (c: string)
    ensures c in LevelColors
  {
    LevelColors[level % |LevelColors|]
  }

  /** Each level of a cycle has its own colour, and the colours repeat with the cycle. */
  lemma {:induction false} LevelColorsPerCycle(a: nat, b: nat)
    ensures LevelColor(a) == LevelColor(b) <==> a % LevelCount == b % LevelCount
  {
    assert forall i, j :: 0 <= i < j < |LevelColors| ==> LevelColors[i] != LevelColors[j] by {
      assert LevelColors[0][5] == 'b' && LevelColors[1][5] == 'i' && LevelColors[2][5] == 'p';
      assert LevelColors[3][5] == 'v' && LevelColors[4][5] == 'f' && LevelColors[5][6] == 'i';
      assert LevelColors[2][6] == 'u' && LevelColors[4][6] == 'u';
    }
  }

  // ---------------------------------------------------------------------
  // Level and cycle arithmetic
  // ---------------------------------------------------------------------

  /** One advance of the (level, cycle) pair. */
  function Advanced(level: nat, cycle: nat): (r: (nat, nat))
    requires level < LevelCount
    ensures r.0 == (level + 1) % LevelCount
    ensures r.1 == cycle + (if r.0 == 0 then 1 else 0)
  {
    var next := (level + 1) % LevelCount;
    (next, if next == 0 then cycle + 1 else cycle)
  }

  /** `k` advances in a row. */
  function AdvancedTimes(level: nat, cycle: nat, k: nat): (nat, nat)
    requires level < LevelCount
  {
    if k == 0 then (level, cycle)
    else
      var p := AdvancedTimes(level, cycle, k - 1);
      if p.0 < LevelCount then Advanced(p.0, p.1) else p
  }

  /** After `k` advances the level is `(level + k) mod 6` and a cycle was counted at every wrap. */
  lemma {:induction false} AdvancedTimesClosedForm(level: nat, cycle: nat, k: nat)
    requires level < LevelCount
    ensures AdvancedTimes(level, cycle, k) == ((level + k) % LevelCount, cycle + (level + k) / LevelCount)
  {
    if k > 0 {
      AdvancedTimesClosedForm(level, cycle, k - 1);
      var m := level + k - 1;
      assert m % 6 + 1 == 6 ==> (m + 1) % 6 == 0 && (m + 1) / 6 == m / 6 + 1;
      assert m % 6 + 1 < 6 ==> (m + 1) % 6 == m % 6 + 1 && (m + 1) / 6 == m / 6;
    }
  }

  // ---------------------------------------------------------------------
  // The mirror
  // ---------------------------------------------------------------------

  datatype LogEntry = LogEntry(content: string, kind: EntryType, recursionLevel: nat, cycle: nat)
  datatype Fragment = Fragment(content: string, recursionLevel: nat, cycle: nat, kind: FragmentType)
  datatype RenderMode = Standard | Dark | Light

  /** The entry `addLogEntry` makes at a level and cycle. */
  function EntryFor(level: nat, cycle: nat): LogEntry
  {
    LogEntry(CurrentThought(level), EntryKind(level), level, cycle)
  }

  /** The fragment `addMemoryFragment` makes at a level and cycle. */
  function FragmentFor(level: nat, cycle: nat): Fragment
  {
    Fragment(CurrentThought(level), level, cycle, FragmentKind(level))
  }

  /** Consecutive log entries, newest first: `newer` was recorded by the advance after `older`. */
  predicate Follows(newer: LogEntry, older: LogEntry)
  {
    older.recursionLevel < LevelCount &&
    (newer.recursionLevel, newer.cycle) == Advanced(older.recursionLevel, older.cycle)
  }

  /** Every entry is the one its level and cycle produce, and each follows the next older one. */
  predicate WellLogged(log: seq<LogEntry>)
  {
    (forall k :: 0 <= k < |log| ==> log[k] == EntryFor(log[k].recursionLevel, log[k].cycle)) &&
    (forall k :: 0 <= k < |log| - 1 ==> Follows(log[k], log[k + 1]))
  }

  /** Pushing the entry of the next advance keeps the log well formed. */
  lemma {:induction false} PushKeepsWellLogged(e: LogEntry, log: seq<LogEntry>, cap: nat)
    requires WellLogged(log) && log != [] && cap >= 1
    requires e == EntryFor(e.recursionLevel, e.cycle) && Follows(e, log[0])
    ensures WellLogged(Pushed(e, log, cap))
  {
    var r := Pushed(e, log, cap);
    PushedNewestFirst(e, log, cap);
    assert forall k :: 1 <= k < |r| ==> r[k] == log[k - 1];
  }

  class Mirror {
    var recursionLevel: nat
    var cycleCount: nat
    var memoryFragments: seq<Fragment>
    var renderLog: seq<LogEntry>
    var autoAdvance: bool
    var renderMode: RenderMode

    /**
     * The newest log entry and fragment describe the current level and
     * cycle, each older entry is the level before the one above it, and
     * both lists respect their caps.
     */
    ghost predicate Valid()
      reads this
    {
      recursionLevel < LevelCount &&
      1 <= |renderLog| <= 100 && 1 <= |memoryFragments| <= 20 &&
      renderLog[0] == EntryFor(recursionLevel, cycleCount) &&
      memoryFragments[0] == FragmentFor(recursionLevel, cycleCount) &&
      WellLogged(renderLog)
    }

    /** The first render and its level effect: level 0 of cycle 0 is logged once. */
    constructor ()
      ensures Valid()
      ensures recursionLevel == 0 && cycleCount == 0 && autoAdvance && renderMode == Standard
      ensures renderLog == [EntryFor(0, 0)] && memoryFragments == [FragmentFor(0, 0)]
    {
      recursionLevel := 0;
      cycleCount := 0;
      autoAdvance := true;
      renderMode := Standard;
      renderLog := [EntryFor(0, 0)];
      memoryFragments := [FragmentFor(0, 0)];
    }

    /** `addLogEntry`: the entry goes first and the log keeps its 100 newest. */
    method AddLogEntry(content: string, kind: EntryType)
      modifies this`renderLog
      ensures renderLog == Pushed(LogEntry(content, kind, recursionLevel, cycleCount), old(renderLog), 100)
    {
      renderLog := Take([LogEntry(content, kind, recursionLevel, cycleCount)] + renderLog, 100);
    }

    /** `addMemoryFragment`: the fragment goes first and the list keeps its 20 newest. */
    method AddMemoryFragment(content: string)
      modifies this`memoryFragments
      ensures memoryFragments ==
        Pushed(Fragment(content, recursionLevel, cycleCount, FragmentKind(recursionLevel)), old(memoryFragments), 20)
    {
      var fragment := Fragment(content, recursionLevel, cycleCount, FragmentKind(recursionLevel));
      memoryFragments := Take([fragment] + memoryFragments, 20);
    }

    /**
     * `advanceRecursion` and the level effect it triggers: the level moves
     * on modulo 6, a cycle is counted at the wrap, and one entry and one
     * fragment for the new level are recorded.
     */
    method AdvanceRecursion()
      requires Valid()
      modifies this`recursionLevel, this`cycleCount, this`renderLog, this`memoryFragments
      ensures Valid()
      ensures (recursionLevel, cycleCount) == Advanced(old(recursionLevel), old(cycleCount))
      ensures renderLog == Pushed(EntryFor(recursionLevel, cycleCount), old(renderLog), 100)
      ensures memoryFragments == Pushed(FragmentFor(recursionLevel, cycleCount), old(memoryFragments), 20)
    {
      var next := (recursionLevel + 1) % LevelCount;
      if next == 0 {
        cycleCount := cycleCount + 1;
      }
      recursionLevel := next;
      var thought := CurrentThought(recursionLevel);
      AddLogEntry(thought, EntryKind(recursionLevel));
      AddMemoryFragment(thought);
      PushKeepsWellLogged(EntryFor(recursionLevel, cycleCount), old(renderLog), 100);
    }

    /** One 3-second interval: it advances only while auto-advance is on. */
    method Tick()
      requires Valid()
      modifies this`recursionLevel, this`cycleCount, this`renderLog, this`memoryFragments
      ensures Valid()
      ensures !autoAdvance ==> unchanged(this)
      ensures autoAdvance ==> (recursionLevel, cycleCount) == Advanced(old(recursionLevel), old(cycleCount))
      ensures autoAdvance ==> renderLog == Pushed(EntryFor(recursionLevel, cycleCount), old(renderLog), 100)
      ensures autoAdvance ==>
        memoryFragments == Pushed(FragmentFor(recursionLevel, cycleCount), old(memoryFragments), 20)
    {
      if autoAdvance {
        AdvanceRecursion();
      }
    }

    /** The auto-advance switch. */
    method ToggleAutoAdvance()
      modifies this`autoAdvance
      ensures autoAdvance == !old(autoAdvance)
    {
      autoAdvance := !autoAdvance;
    }

    /** The render-mode button: dark becomes light, anything else becomes dark. */
    method ToggleRenderMode()
      modifies this`renderMode
      ensures renderMode == (if old(renderMode) == Dark then Light else Dark)
    {
      renderMode := if renderMode == Dark then Light else Dark;
    }
  }

  /** Reading the log from oldest to newest retraces the advances, so its levels run in cycle order. */
  lemma {:induction false} LogRetracesAdvances(log: seq<LogEntry>, k: nat)
    requires forall j :: 0 <= j < |log| - 1 ==> Follows(log[j], log[j + 1])
    requires k < |log| && log[|log| - 1].recursionLevel < LevelCount
    ensures var oldest := log[|log| - 1];
      (log[k].recursionLevel, log[k].cycle) ==
        AdvancedTimes(oldest.recursionLevel, oldest.cycle, |log| - 1 - k)
    decreases |log| - k
  {
    if k < |log| - 1 {
      LogRetracesAdvances(log, k + 1);
      assert Follows(log[k], log[k + 1]);
    }
  }
}
