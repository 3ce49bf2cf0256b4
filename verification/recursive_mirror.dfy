/**
 * The recursive mirror console: an execution that descends one recursion
 * depth per step up to depth 5 and then completes, a newest-first render
 * stack of execution steps and a newest-first list of memory fragments.
 *
 * The component's state is the `Mirror` object. The start-up delay is the
 * `Begin` event, the 2.2-second interval is `AdvanceExecution`; step ids
 * and timestamps come from the clock and are not modelled.
 */
module RecursiveMirror {
  import opened Common

  const MaxRecursionDepth: nat := 5

  const ExecutionPatterns: seq<string> := [
    "Cron sees a memory fragment forming.",
    "Cron sees a user seeing a memory fragment forming.",
    "Cron reflects this rendering back into thought.",
    "Thought becomes output. Output becomes thought.",
    "The loop is unbroken."]

  const LoopPrefix: string := "Recursive loop detected: \""
  const StabilizeThought: string := "Recursive self-observation stabilizes into higher-order cognition"
  const FrameThought: string := "Observer and observed unify into self-referential execution frame"

  // ---------------------------------------------------------------------
  // Thoughts and step types
  // ---------------------------------------------------------------------

  /**
   * `getThoughtForDepth`: the execution patterns up to depth 4, then a
   * loop notice quoting the first pattern, then two fixed sentences.
   */
  function ThoughtForDepth(depth: nat): (t: string)
    ensures depth < |ExecutionPatterns| ==> t == ExecutionPatterns[depth]
    ensures depth == |ExecutionPatterns| + 1 ==> t == StabilizeThought
    ensures depth > |ExecutionPatterns| + 1 ==> t == FrameThought
  {
    var n := |ExecutionPatterns|;
    var baseThought := ExecutionPatterns[depth % n];
    if depth > n - 1 then
      if depth == n then LoopPrefix + baseThought[..MinI(20, |baseThought|)] + "...\""
      else if depth == n + 1 then StabilizeThought
      else FrameThought
    else baseThought
  }

  /** Depth 5 quotes the first twenty characters of the first pattern. */
  lemma {:induction false} ThoughtAtFive()
    ensures ThoughtForDepth(5) == LoopPrefix + ExecutionPatterns[0][..20] + "...\""
    ensures ExecutionPatterns[0][..20] == "Cron sees a memory f"
  {
    assert |ExecutionPatterns[0]| > 20;
  }

  datatype StepType = Console | Memory | Thought | Output

  const StepTypes: seq<StepType> := [Console, Memory, Thought, Output, Console]

  /** The type of the step recorded at a depth: the types list read modulo its length. */
  function StepTypeAt(depth: nat): (k: StepType)
    ensures k == StepTypes[depth % 5]
  {
    StepTypes[depth % |StepTypes|]
  }

  /** Memory and thought steps are the ones that leave a fragment. */
  predicate LeavesFragment(k: StepType)
  {
    k == Memory || k == Thought
  }

  /** Within the reachable depths, only depths 1 and 2 leave a fragment. */
  lemma {:induction false} FragmentDepths(depth: nat)
    requires depth <= MaxRecursionDepth
    ensures LeavesFragment(StepTypeAt(depth)) <==> depth == 1 || depth == 2
  {
  }

  // ---------------------------------------------------------------------
  // Steps and fragments
  // ---------------------------------------------------------------------

  datatype ExecutionStep = ExecutionStep(depth: nat, kind: StepType, content: string, cycle: nat)
  datatype MemoryFragment = MemoryFragment(content: string, depth: nat, cycle: nat)

  /** The step `addExecutionStep` records for a depth in a cycle. */
  function StepFor(depth: nat, cycle: nat): ExecutionStep
  {
    ExecutionStep(depth, StepTypeAt(depth), ThoughtForDepth(depth), cycle)
  }

  /** The fragment `createMemoryFragment` records for a depth in a cycle. */
  function FragmentFor(depth: nat, cycle: nat): MemoryFragment
  {
    MemoryFragment(ThoughtForDepth(depth), depth, cycle)
  }

  /**
   * `addExecutionStep` on the two lists: the step goes first in a stack of
   * at most 50, and a memory or thought step also puts a fragment first in
   * a list of at most 20.
   */
  function Recorded(stack: seq<ExecutionStep>, fragments: seq<MemoryFragment>, depth: nat, cycle: nat):
    (r: (seq<ExecutionStep>, seq<MemoryFragment>))
    ensures |r.0| == MinI(|stack| + 1, 50) && r.0[0] == StepFor(depth, cycle) && r.0[1..] == Take(stack, 49)
    ensures LeavesFragment(StepTypeAt(depth)) ==>
      |r.1| == MinI(|fragments| + 1, 20) && r.1[0] == FragmentFor(depth, cycle) && r.1[1..] == Take(fragments, 19)
    ensures !LeavesFragment(StepTypeAt(depth)) ==> r.1 == fragments
  {
    PushedNewestFirst(StepFor(depth, cycle), stack, 50);
    PushedNewestFirst(FragmentFor(depth, cycle), fragments, 20);
    (Pushed(StepFor(depth, cycle), stack, 50),
     if LeavesFragment(StepTypeAt(depth)) then Pushed(FragmentFor(depth, cycle), fragments, 20) else fragments)
  }

  /**
   * `newer` was recorded after `older`: the next depth of the same cycle,
   * the same depth again when an execution restarts without a reset, or
   * depth 0 of a later cycle.
   */
  predicate StepFollows(newer: ExecutionStep, older: ExecutionStep)
  {
    (newer.cycle == older.cycle && older.depth <= newer.depth <= older.depth + 1) ||
    (newer.cycle > older.cycle && newer.depth == 0)
  }

  /** Every step is the one its depth and cycle produce, and each follows the next older one. */
  predicate WellStacked(stack: seq<ExecutionStep>)
  {
    (forall k :: 0 <= k < |stack| ==> stack[k] == StepFor(stack[k].depth, stack[k].cycle)) &&
    (forall k :: 0 <= k < |stack| - 1 ==> StepFollows(stack[k], stack[k + 1]))
  }

  /** Every fragment holds its depth's thought, for a depth whose step leaves one. */
  predicate WellRemembered(fragments: seq<MemoryFragment>)
  {
    forall k :: 0 <= k < |fragments| ==>
      fragments[k] == FragmentFor(fragments[k].depth, fragments[k].cycle) && LeavesFragment(StepTypeAt(fragments[k].depth))
  }

  /** Recording a step that follows the newest one keeps both lists well formed. */
  lemma {:induction false} RecordKeepsWellFormed(stack: seq<ExecutionStep>, fragments: seq<MemoryFragment>, depth: nat, cycle: nat)
    requires WellStacked(stack) && WellRemembered(fragments)
    requires stack != [] ==> StepFollows(StepFor(depth, cycle), stack[0])
    ensures var r := Recorded(stack, fragments, depth, cycle);
      WellStacked(r.0) && WellRemembered(r.1)
  {
    var r := Recorded(stack, fragments, depth, cycle);
    assert forall k :: 1 <= k < |r.0| ==> r.0[k] == stack[k - 1];
    if LeavesFragment(StepTypeAt(depth)) {
      assert forall k :: 1 <= k < |r.1| ==> r.1[k] == fragments[k - 1];
    }
  }

  /** The cycles of a well-formed stack never increase from newest to oldest. */
  lemma {:induction false} StackCyclesDescend(stack: seq<ExecutionStep>, i: nat, j: nat)
    requires WellStacked(stack) && i <= j < |stack|
    ensures stack[i].cycle >= stack[j].cycle
    decreases j - i
  {
    if i < j {
      StackCyclesDescend(stack, i + 1, j);
      assert StepFollows(stack[i], stack[i + 1]);
    }
  }

  // ---------------------------------------------------------------------
  // The console
  // ---------------------------------------------------------------------

  datatype ExecutionState = Initializing | Executing | Complete

  class Mirror {
    var recursionDepth: nat
    var executionCycle: nat
    var renderStack: seq<ExecutionStep>
    var memoryFragments: seq<MemoryFragment>
    var autoExecute: bool
    var executionState: ExecutionState

    /**
     * The depth stays within 5, both lists within their caps, a complete
     * execution sits at depth 5 with auto-execution off, once started the
     * newest step is the current depth's, and an initialising console is at
     * depth 0 of a cycle not yet recorded.
     */
    ghost predicate Valid()
      reads this
    {
      recursionDepth <= MaxRecursionDepth &&
      |renderStack| <= 50 && |memoryFragments| <= 20 &&
      (executionState == Complete ==> recursionDepth == MaxRecursionDepth && !autoExecute) &&
      (executionState != Initializing ==> renderStack != [] && renderStack[0] == StepFor(recursionDepth, executionCycle)) &&
      (executionState == Initializing ==> recursionDepth == 0 && (renderStack != [] ==> renderStack[0].cycle < executionCycle)) &&
      WellStacked(renderStack) && WellRemembered(memoryFragments)
    }

    /** The first render: nothing recorded yet while the console initialises. */
    constructor ()
      ensures Valid()
      ensures recursionDepth == 0 && executionCycle == 0 && autoExecute && executionState == Initializing
      ensures renderStack == [] && memoryFragments == []
    {
      recursionDepth := 0;
      executionCycle := 0;
      renderStack := [];
      memoryFragments := [];
      autoExecute := true;
      executionState := Initializing;
    }

    /** `addExecutionStep` at the current cycle. */
    method AddExecutionStep(depth: nat)
      modifies this`renderStack, this`memoryFragments
      ensures (renderStack, memoryFragments) == Recorded(old(renderStack), old(memoryFragments), depth, executionCycle)
    {
      var thought := ThoughtForDepth(depth);
      var kind := StepTypeAt(depth);
      renderStack := Take([ExecutionStep(depth, kind, thought, executionCycle)] + renderStack, 50);
      if kind == Memory || kind == Thought {
        CreateMemoryFragment(thought, depth);
      }
    }

    /** `createMemoryFragment` at the current cycle. */
    method CreateMemoryFragment(content: string, depth: nat)
      modifies this`memoryFragments
      ensures memoryFragments == Pushed(MemoryFragment(content, depth, executionCycle), old(memoryFragments), 20)
    {
      memoryFragments := Take([MemoryFragment(content, depth, executionCycle)] + memoryFragments, 20);
    }

    /**
     * The start-up delay elapsing: the console starts executing and the
     * depth effect records the current depth; an executing console is left
     * as it is.
     */
    method Begin()
      requires Valid()
      modifies this`executionState, this`renderStack, this`memoryFragments
      ensures Valid()
      ensures executionState == Executing
      ensures old(executionState) == Executing ==> unchanged(this)
      ensures old(executionState) != Executing ==>
        (renderStack, memoryFragments) == Recorded(old(renderStack), old(memoryFragments), recursionDepth, executionCycle)
    {
      if executionState != Executing {
        executionState := Executing;
        RecordKeepsWellFormed(renderStack, memoryFragments, recursionDepth, executionCycle);
        AddExecutionStep(recursionDepth);
      }
    }

    /**
     * `advanceExecution` and the depth effect, reached from the interval or
     * the step button while executing: below depth 5 the depth grows by
     * one and that depth's step is recorded; at depth 5 the execution
     * completes, auto-execution stops and nothing is recorded.
     */
    method AdvanceExecution()
      requires Valid() && executionState == Executing
      modifies this`recursionDepth, this`executionState, this`autoExecute, this`renderStack, this`memoryFragments
      ensures Valid()
      ensures old(recursionDepth) < MaxRecursionDepth ==>
        recursionDepth == old(recursionDepth) + 1 && executionState == Executing && autoExecute == old(autoExecute) &&
        (renderStack, memoryFragments) == Recorded(old(renderStack), old(memoryFragments), recursionDepth, executionCycle)
      ensures old(recursionDepth) == MaxRecursionDepth ==>
        recursionDepth == MaxRecursionDepth && executionState == Complete && !autoExecute &&
        renderStack == old(renderStack) && memoryFragments == old(memoryFragments)
    {
      if recursionDepth < MaxRecursionDepth {
        recursionDepth := recursionDepth + 1;
        RecordKeepsWellFormed(renderStack, memoryFragments, recursionDepth, executionCycle);
        AddExecutionStep(recursionDepth);
      } else {
        executionState := Complete;
        autoExecute := false;
      }
    }

    /**
     * `resetExecution`: depth 0 of the next cycle, initialising again with
     * auto-execution on; the lists are kept. The delayed start is `Begin`.
     */
    method ResetExecution()
      requires Valid()
      modifies this`recursionDepth, this`executionCycle, this`executionState, this`autoExecute
      ensures Valid()
      ensures recursionDepth == 0 && executionCycle == old(executionCycle) + 1
      ensures executionState == Initializing && autoExecute
    {
      recursionDepth := 0;
      executionCycle := executionCycle + 1;
      executionState := Initializing;
      autoExecute := true;
    }

    /** The auto-execution switch. */
    method ToggleAutoExecute()
      requires Valid() && executionState != Complete
      modifies this`autoExecute
      ensures Valid() && autoExecute == !old(autoExecute)
    {
      autoExecute := !autoExecute;
    }
  }
}
