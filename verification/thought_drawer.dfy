/**
 * The recursive thought drawer component: a tree of drawers that grow a
 * child when an empty one is opened, an echo token that doubles the tree,
 * and a collapse protocol that folds everything below the root.
 *
 * The component rebuilds the tree on every change (spread and `map`), so
 * drawers are values and each handler is a function from the component's
 * state to its next state. The id generator is a counter carried in the
 * state; the two delayed log messages become explicit steps, and the depth
 * monitor is the effect `Settle` runs when its dependencies change.
 */
module ThoughtDrawer {
  import opened Common

  /** Drawer titles; each one stands for the text the source gives it. */
  datatype Title =
    | RootThought
    | InterpretationLayer1
    | ReflectedEcho
    | MemoryOfPastDrawer
    | MetaCognitiveLayer
    | RecursionLimitBoundary
    | NestedThought(depth: real)
    | EchoOf(original: Title)

  datatype Drawer = Drawer(id: nat, title: Title, isOpen: bool, depth: real, isEcho: bool, children: seq<Drawer>)

  /** One `addLog` call. */
  datatype LogMessage =
    | OpenedCreating(drawer: Title, child: Title)
    | Opened(drawer: Title)
    | Closed(drawer: Title)
    | UIGlitch
    | EchoTokenInjected
    | EchoPropagationComplete
    | CollapseTriggered
    | SystemRestored

  /** The title of a child created at `depth`. */
  function ChildTitle(depth: real): Title
  {
    if depth == 2.0 then ReflectedEcho
    else if depth == 3.0 then MemoryOfPastDrawer
    else if depth == 4.0 then MetaCognitiveLayer
    else if depth == 5.0 then RecursionLimitBoundary
    else NestedThought(depth)
  }

  /** The ids of a tree, in depth-first order. */
  function Ids(d: Drawer): (s: seq<nat>)
    ensures |s| >= 1 && s[0] == d.id
    decreases d
  {
    [d.id] + IdsAll(d.children)
  }

  function IdsAll(ds: seq<Drawer>): seq<nat>
    decreases ds
  {
    if ds == [] then [] else Ids(ds[0]) + IdsAll(ds[1..])
  }

  lemma {:induction false} IdsAllCons(d: Drawer, ds: seq<Drawer>)
    ensures IdsAll([d] + ds) == Ids(d) + IdsAll(ds)
  {
    assert ([d] + ds)[1..] == ds;
  }

  /** No id occurs twice. */
  predicate UniqueIds(s: seq<nat>)
  {
    forall x :: x in s ==> multiset(s)[x] <= 1
  }

  /** Each id from `lo` up to `hi` occurs once in `Range(lo, hi)`, and nothing else does. */
  lemma {:induction false} RangeCounts(lo: nat, hi: nat)
    requires lo <= hi
    ensures forall x :: multiset(Range(lo, hi))[x] == if lo <= x < hi then 1 else 0
    decreases hi - lo
  {
    if lo < hi {
      RangeCounts(lo + 1, hi);
      assert Range(lo, hi) == [lo] + Range(lo + 1, hi);
    } else {
      assert Range(lo, hi) == [];
    }
  }

  lemma {:induction false} RangeConcat(lo: nat, mid: nat, hi: nat)
    requires lo <= mid <= hi
    ensures Range(lo, mid) + Range(mid, hi) == Range(lo, hi)
  {
  }

  // ---------------------------------------------------------------------
  // Toggling a drawer
  // ---------------------------------------------------------------------

  /** What `updateDrawers` produces: the new tree, the id counter, the log lines and the depths of created children. */
  datatype Toggled = Toggled(drawer: Drawer, nextId: nat, log: seq<LogMessage>, created: seq<real>)

  datatype ToggledAll = ToggledAll(drawers: seq<Drawer>, nextId: nat, log: seq<LogMessage>, created: seq<real>)

  /** Whether toggling `d` opens an empty drawer below the safe depth, which then grows a child. */
  predicate Grows(d: Drawer, maxSafeDepth: real)
  {
    !d.isOpen && d.children == [] && d.depth < maxSafeDepth
  }

  /**
   * `e` is `d` after a toggle of `target`: a drawer carrying `target` flips
   * and, when it `Grows`, holds exactly one closed, empty child one level
   * deeper; every other drawer keeps its id, title, depth, echo mark, open
   * state and number of children. Nothing below a drawer carrying `target`
   * is visited.
   */
  predicate TogglesOnly(d: Drawer, e: Drawer, target: nat, maxSafeDepth: real)
    decreases d
  {
    e.id == d.id && e.title == d.title && e.depth == d.depth && e.isEcho == d.isEcho &&
    if d.id == target then
      e.isOpen == !d.isOpen &&
      (Grows(d, maxSafeDepth) ==>
         |e.children| == 1 && e.children[0] == Drawer(e.children[0].id, ChildTitle(d.depth + 1.0), false, d.depth + 1.0, false, [])) &&
      (!Grows(d, maxSafeDepth) ==> e.children == d.children)
    else
      e.isOpen == d.isOpen && |e.children| == |d.children| &&
      forall k :: 0 <= k < |d.children| ==> TogglesOnly(d.children[k], e.children[k], target, maxSafeDepth)
  }

  /**
   * `updateDrawers`: the drawer carrying `target` flips; opening it when it
   * is empty and below the safe depth gives it one closed, empty child one
   * level deeper. The search does not go below a matching drawer; every
   * other drawer keeps its state.
   */
  function UpdateDrawers(d: Drawer, target: nat, maxSafeDepth: real, nextId: nat): (r: Toggled)
    ensures r.drawer.id == d.id && r.drawer.title == d.title && r.drawer.depth == d.depth && r.drawer.isEcho == d.isEcho
    ensures r.nextId == nextId + |r.created|
    ensures target !in Ids(d) ==> r == Toggled(d, nextId, [], [])
    ensures d.id == target ==> r.drawer.isOpen == !d.isOpen
    ensures d.id == target && Grows(d, maxSafeDepth) ==>
      r.drawer.children == [Drawer(nextId, ChildTitle(d.depth + 1.0), false, d.depth + 1.0, false, [])] &&
      r.created == [d.depth + 1.0] && r.log == [OpenedCreating(d.title, ChildTitle(d.depth + 1.0))]
    ensures d.id == target && !Grows(d, maxSafeDepth) ==>
      r.drawer.children == d.children && r.created == [] && r.log == [if d.isOpen then Closed(d.title) else Opened(d.title)]
    ensures d.id != target ==> r.drawer.isOpen == d.isOpen && |r.drawer.children| == |d.children|
    ensures TogglesOnly(d, r.drawer, target, maxSafeDepth)
    ensures forall k :: 0 <= k < |r.created| ==> r.created[k] < maxSafeDepth + 1.0
    decreases d
  {
    if d.id == target then
      if Grows(d, maxSafeDepth) then
        var childDepth := d.depth + 1.0;
        var child := Drawer(nextId, ChildTitle(childDepth), false, childDepth, false, []);
        Toggled(d.(isOpen := true, children := [child]), nextId + 1, [OpenedCreating(d.title, ChildTitle(childDepth))],
                [childDepth])
      else
        Toggled(d.(isOpen := !d.isOpen), nextId, [if d.isOpen then Closed(d.title) else Opened(d.title)], [])
    else if |d.children| > 0 then
      var rs := UpdateAll(d.children, target, maxSafeDepth, nextId);
      Toggled(d.(children := rs.drawers), rs.nextId, rs.log, rs.created)
    else
      Toggled(d, nextId, [], [])
  }

  /** `children.map(updateDrawers)`, with the id counter and the log carried from one child to the next. */
  function UpdateAll(ds: seq<Drawer>, target: nat, maxSafeDepth: real, nextId: nat): (r: ToggledAll)
    ensures |r.drawers| == |ds| && r.nextId == nextId + |r.created|
    ensures forall k :: 0 <= k < |ds| ==> r.drawers[k].id == ds[k].id
    ensures target !in IdsAll(ds) ==> r == ToggledAll(ds, nextId, [], [])
    ensures forall k :: 0 <= k < |ds| ==> TogglesOnly(ds[k], r.drawers[k], target, maxSafeDepth)
    ensures forall k :: 0 <= k < |r.created| ==> r.created[k] < maxSafeDepth + 1.0
    decreases ds
  {
    if ds == [] then
      ToggledAll([], nextId, [], [])
    else
      var first := UpdateDrawers(ds[0], target, maxSafeDepth, nextId);
      var rest := UpdateAll(ds[1..], target, maxSafeDepth, first.nextId);
      assert [ds[0]] + ds[1..] == ds;
      var drawers := [first.drawer] + rest.drawers;
      assert drawers[1..] == rest.drawers;
      TogglesCons(ds, drawers, target, maxSafeDepth);
      ToggledAll(drawers, rest.nextId, first.log + rest.log, first.created + rest.created)
  }

  /** A toggle of the first tree and of each later one is a toggle of each tree of the list. */
  lemma {:induction false} TogglesCons(ds: seq<Drawer>, es: seq<Drawer>, target: nat, maxSafeDepth: real)
    requires |ds| == |es| > 0 && TogglesOnly(ds[0], es[0], target, maxSafeDepth)
    requires forall k :: 0 <= k < |ds| - 1 ==> TogglesOnly(ds[1..][k], es[1..][k], target, maxSafeDepth)
    ensures forall k :: 0 <= k < |ds| ==> TogglesOnly(ds[k], es[k], target, maxSafeDepth) && es[k].id == ds[k].id
  {
    forall k | 1 <= k < |ds|
      ensures TogglesOnly(ds[k], es[k], target, maxSafeDepth)
    {
      assert ds[1..][k - 1] == ds[k] && es[1..][k - 1] == es[k];
    }
  }

  /** The ids of the open drawers of a tree. */
  function OpenIds(d: Drawer): set<nat>
    decreases d
  {
    (if d.isOpen then {d.id} else {}) + OpenIdsAll(d.children)
  }

  function OpenIdsAll(ds: seq<Drawer>): set<nat>
    decreases ds
  {
    if ds == [] then {} else OpenIds(ds[0]) + OpenIdsAll(ds[1..])
  }

  /** `s` with `x` added when absent and removed when present. */
  function Flip(s: set<nat>, x: nat): (r: set<nat>)
    ensures x in r <==> x !in s
    ensures r - {x} == s - {x}
  {
    if x in s then s - {x} else s + {x}
  }

  /** Only drawers of a tree are open in it. */
  lemma {:induction false} OpenIdsInIds(d: Drawer)
    ensures forall x :: x in OpenIds(d) ==> x in Ids(d)
    decreases d
  {
    OpenIdsAllInIds(d.children);
  }

  lemma {:induction false} OpenIdsAllInIds(ds: seq<Drawer>)
    ensures forall x :: x in OpenIdsAll(ds) ==> x in IdsAll(ds)
    decreases ds
  {
    if ds != [] {
      OpenIdsInIds(ds[0]);
      OpenIdsAllInIds(ds[1..]);
    }
  }

  /**
   * With the target carried by exactly one drawer, a toggle flips that
   * drawer's open state and no other: a created child is closed.
   */
  lemma {:induction false} UpdateFlipsOne(d: Drawer, target: nat, maxSafeDepth: real, nextId: nat)
    requires multiset(Ids(d))[target] == 1
    ensures OpenIds(UpdateDrawers(d, target, maxSafeDepth, nextId).drawer) == Flip(OpenIds(d), target)
    decreases d
  {
    assert multiset(Ids(d))[target] == multiset([d.id])[target] + multiset(IdsAll(d.children))[target];
    if d.id == target {
      assert target !in IdsAll(d.children);
      FlipsHere(d, target, maxSafeDepth, nextId);
    } else {
      UpdateAllFlipsOne(d.children, target, maxSafeDepth, nextId);
    }
  }

  /** The drawer carrying the target flips; below it nothing carries the target, so nothing else flips. */
  lemma {:induction false} FlipsHere(d: Drawer, target: nat, maxSafeDepth: real, nextId: nat)
    requires d.id == target && target !in IdsAll(d.children)
    ensures OpenIds(UpdateDrawers(d, target, maxSafeDepth, nextId).drawer) == Flip(OpenIds(d), target)
  {
    var r := UpdateDrawers(d, target, maxSafeDepth, nextId);
    OpenIdsAllInIds(d.children);
    assert OpenIdsAll(r.drawer.children) == OpenIdsAll(d.children) by {
      if Grows(d, maxSafeDepth) {
        var child := r.drawer.children[0];
        assert OpenIdsAll([child]) == OpenIds(child) + OpenIdsAll([]);
      }
    }
  }

  lemma {:induction false} UpdateAllFlipsOne(ds: seq<Drawer>, target: nat, maxSafeDepth: real, nextId: nat)
    requires multiset(IdsAll(ds))[target] == 1
    ensures OpenIdsAll(UpdateAll(ds, target, maxSafeDepth, nextId).drawers) == Flip(OpenIdsAll(ds), target)
    decreases ds
  {
    var first := UpdateDrawers(ds[0], target, maxSafeDepth, nextId);
    var rest := UpdateAll(ds[1..], target, maxSafeDepth, first.nextId);
    var r := UpdateAll(ds, target, maxSafeDepth, nextId);
    assert r.drawers[0] == first.drawer && r.drawers[1..] == rest.drawers;
    assert OpenIdsAll(r.drawers) == OpenIds(first.drawer) + OpenIdsAll(rest.drawers);
    assert multiset(IdsAll(ds))[target] == multiset(Ids(ds[0]))[target] + multiset(IdsAll(ds[1..]))[target];
    if target in Ids(ds[0]) {
      assert target !in IdsAll(ds[1..]);
      UpdateFlipsOne(ds[0], target, maxSafeDepth, nextId);
      OpenIdsAllInIds(ds[1..]);
      FlipUnion(OpenIds(ds[0]), OpenIdsAll(ds[1..]), target);
    } else {
      UpdateAllFlipsOne(ds[1..], target, maxSafeDepth, first.nextId);
      OpenIdsInIds(ds[0]);
      FlipUnion(OpenIdsAll(ds[1..]), OpenIds(ds[0]), target);
    }
  }

  /** The first drawer of a tree, in depth-first order, that carries `target`. */
  function DrawerWithId(d: Drawer, target: nat): (r: Drawer)
    requires target in Ids(d)
    ensures r.id == target
    decreases d
  {
    if d.id == target then d else DrawerWithIdAll(d.children, target)
  }

  function DrawerWithIdAll(ds: seq<Drawer>, target: nat): (r: Drawer)
    requires target in IdsAll(ds)
    ensures r.id == target
    decreases ds
  {
    if target in Ids(ds[0]) then DrawerWithId(ds[0], target) else DrawerWithIdAll(ds[1..], target)
  }

  /** The one line `updateDrawers` logs when it toggles `d`. */
  function ToggleLine(d: Drawer, maxSafeDepth: real): LogMessage
  {
    if Grows(d, maxSafeDepth) then OpenedCreating(d.title, ChildTitle(d.depth + 1.0))
    else if d.isOpen then Closed(d.title) else Opened(d.title)
  }

  /**
   * With the target carried by exactly one drawer, the toggle creates a
   * child exactly when that drawer grows, one level below it, and logs that
   * drawer's line and nothing else.
   */
  lemma {:induction false} UpdateOne(d: Drawer, target: nat, maxSafeDepth: real, nextId: nat)
    requires multiset(Ids(d))[target] == 1
    ensures var x := DrawerWithId(d, target);
      UpdateDrawers(d, target, maxSafeDepth, nextId).log == [ToggleLine(x, maxSafeDepth)]
    ensures var x := DrawerWithId(d, target);
      Grows(x, maxSafeDepth) ==> UpdateDrawers(d, target, maxSafeDepth, nextId).created == [x.depth + 1.0]
    ensures !Grows(DrawerWithId(d, target), maxSafeDepth) ==> UpdateDrawers(d, target, maxSafeDepth, nextId).created == []
    decreases d
  {
    assert multiset(Ids(d))[target] == multiset([d.id])[target] + multiset(IdsAll(d.children))[target];
    if d.id != target {
      UpdateAllOne(d.children, target, maxSafeDepth, nextId);
    }
  }

  lemma {:induction false} UpdateAllOne(ds: seq<Drawer>, target: nat, maxSafeDepth: real, nextId: nat)
    requires multiset(IdsAll(ds))[target] == 1
    ensures var x := DrawerWithIdAll(ds, target);
      UpdateAll(ds, target, maxSafeDepth, nextId).log == [ToggleLine(x, maxSafeDepth)]
    ensures var x := DrawerWithIdAll(ds, target);
      Grows(x, maxSafeDepth) ==> UpdateAll(ds, target, maxSafeDepth, nextId).created == [x.depth + 1.0]
    ensures !Grows(DrawerWithIdAll(ds, target), maxSafeDepth) ==> UpdateAll(ds, target, maxSafeDepth, nextId).created == []
    decreases ds
  {
    var first := UpdateDrawers(ds[0], target, maxSafeDepth, nextId);
    var rest := UpdateAll(ds[1..], target, maxSafeDepth, first.nextId);
    assert multiset(IdsAll(ds))[target] == multiset(Ids(ds[0]))[target] + multiset(IdsAll(ds[1..]))[target];
    if target in Ids(ds[0]) {
      assert target !in IdsAll(ds[1..]);
      assert multiset(Ids(ds[0]))[target] == 1;
      UpdateOne(ds[0], target, maxSafeDepth, nextId);
      assert rest.created == [] && rest.log == [];
    } else {
      assert first.created == [] && first.log == [];
      assert multiset(IdsAll(ds[1..]))[target] == 1;
      UpdateAllOne(ds[1..], target, maxSafeDepth, first.nextId);
    }
  }

  /** With unique ids, a toggle of an id of the tree acts as `UpdateOne` says. */
  lemma {:induction false} ToggleOne(d: Drawer, target: nat, maxSafeDepth: real, nextId: nat)
    ensures UniqueIds(Ids(d)) && target in Ids(d) ==>
      var x := DrawerWithId(d, target);
      var r := UpdateDrawers(d, target, maxSafeDepth, nextId);
      r.log == [ToggleLine(x, maxSafeDepth)] &&
      (Grows(x, maxSafeDepth) ==> r.created == [x.depth + 1.0]) && (!Grows(x, maxSafeDepth) ==> r.created == [])
  {
    if UniqueIds(Ids(d)) && target in Ids(d) {
      assert multiset(Ids(d))[target] == 1;
      UpdateOne(d, target, maxSafeDepth, nextId);
    }
  }

  /** Flipping an element absent from one side of a union flips it in the other side. */
  lemma {:induction false} FlipUnion(a: set<nat>, b: set<nat>, x: nat)
    requires x !in b
    ensures Flip(a, x) + b == Flip(a + b, x) && b + Flip(a, x) == Flip(b + a, x)
  {
  }

  /** Giving an empty drawer one empty child adds exactly the child's id. */
  lemma {:induction false} GrowIds(d: Drawer, e: Drawer, child: Drawer)
    requires d.children == [] && child.children == []
    requires e.id == d.id && e.children == [child]
    ensures Ids(e) == Ids(d) + [child.id]
  {
    assert IdsAll([child]) == Ids(child) + IdsAll([]);
  }

  /** Replacing a drawer's children changes its ids as the children's ids change. */
  lemma {:induction false} ReplaceChildrenIds(d: Drawer, e: Drawer, m: multiset<nat>)
    requires e.id == d.id
    requires multiset(IdsAll(e.children)) == multiset(IdsAll(d.children)) + m
    ensures multiset(Ids(e)) == multiset(Ids(d)) + m
  {
  }

  /** The ids after a toggle are the old ones and those the generator handed out for created children. */
  lemma {:induction false} UpdateIds(d: Drawer, target: nat, maxSafeDepth: real, nextId: nat)
    ensures var r := UpdateDrawers(d, target, maxSafeDepth, nextId);
      multiset(Ids(r.drawer)) == multiset(Ids(d)) + multiset(Range(nextId, r.nextId))
    decreases d
  {
    var r := UpdateDrawers(d, target, maxSafeDepth, nextId);
    if d.id == target && Grows(d, maxSafeDepth) {
      GrowIds(d, r.drawer, r.drawer.children[0]);
      assert Range(nextId, r.nextId) == [nextId];
    } else if d.id == target || |d.children| == 0 {
      assert Ids(r.drawer) == Ids(d);
      assert Range(nextId, r.nextId) == [];
    } else {
      UpdateAllIds(d.children, target, maxSafeDepth, nextId);
      ReplaceChildrenIds(d, r.drawer, multiset(Range(nextId, r.nextId)));
    }
  }

  lemma {:induction false} UpdateAllIds(ds: seq<Drawer>, target: nat, maxSafeDepth: real, nextId: nat)
    ensures var r := UpdateAll(ds, target, maxSafeDepth, nextId);
      multiset(IdsAll(r.drawers)) == multiset(IdsAll(ds)) + multiset(Range(nextId, r.nextId))
    decreases ds
  {
    if ds == [] {
      assert Range(nextId, nextId) == [];
    } else {
      var first := UpdateDrawers(ds[0], target, maxSafeDepth, nextId);
      var rest := UpdateAll(ds[1..], target, maxSafeDepth, first.nextId);
      UpdateIds(ds[0], target, maxSafeDepth, nextId);
      UpdateAllIds(ds[1..], target, maxSafeDepth, first.nextId);
      IdsAllCons(first.drawer, rest.drawers);
      RangeConcat(nextId, first.nextId, rest.nextId);
    }
  }

  // ---------------------------------------------------------------------
  // Echo injection and collapse
  // ---------------------------------------------------------------------

  datatype Injected = Injected(drawer: Drawer, nextId: nat)

  datatype InjectedAll = InjectedAll(drawers: seq<Drawer>, nextId: nat)

  /** The echo `injectEcho` puts in front of a drawer's children. */
  function EchoOfDrawer(d: Drawer, id: nat): Drawer
  {
    Drawer(id, EchoOf(d.title), false, d.depth + 0.5, true, [])
  }

  /**
   * `e` is `d` after injection: each drawer keeps its own fields and gains,
   * in front of its old children (each injected in turn), a closed empty
   * echo of itself half a level deeper.
   */
  predicate EchoedTree(d: Drawer, e: Drawer)
    decreases d
  {
    e.(children := d.children) == d && |e.children| == |d.children| + 1 &&
    e.children[0] == EchoOfDrawer(d, e.children[0].id) &&
    forall k :: 0 <= k < |d.children| ==> EchoedTree(d.children[k], e.children[k + 1])
  }

  /**
   * `injectEcho`: every drawer gains, as its first child, a closed empty
   * echo half a level deeper; the echo takes the next id before the
   * children are visited.
   */
  function InjectEcho(d: Drawer, nextId: nat): (r: Injected)
    ensures r.drawer.(children := d.children) == d
    ensures |r.drawer.children| == |d.children| + 1 && r.drawer.children[0] == EchoOfDrawer(d, nextId)
    ensures EchoedTree(d, r.drawer)
    ensures r.nextId >= nextId + 1
    decreases d
  {
    var echo := EchoOfDrawer(d, nextId);
    var rest := InjectAll(d.children, nextId + 1);
    var children := [echo] + rest.drawers;
    assert forall k :: 0 <= k < |d.children| ==> children[k + 1] == rest.drawers[k];
    Injected(d.(children := children), rest.nextId)
  }

  function InjectAll(ds: seq<Drawer>, nextId: nat): (r: InjectedAll)
    ensures |r.drawers| == |ds| && r.nextId >= nextId
    ensures forall k :: 0 <= k < |ds| ==> EchoedTree(ds[k], r.drawers[k])
    decreases ds
  {
    if ds == [] then
      InjectedAll([], nextId)
    else
      var first := InjectEcho(ds[0], nextId);
      var rest := InjectAll(ds[1..], first.nextId);
      var drawers := [first.drawer] + rest.drawers;
      assert forall k :: 1 <= k < |ds| ==> drawers[k] == rest.drawers[k - 1] && ds[k] == ds[1..][k - 1];
      InjectedAll(drawers, rest.nextId)
  }

  /**
   * Injection doubles the tree, one id per echo: the new ids are exactly
   * those the generator hands out.
   */
  lemma {:induction false} InjectIds(d: Drawer, nextId: nat)
    ensures var r := InjectEcho(d, nextId);
      |Ids(r.drawer)| == 2 * |Ids(d)| && r.nextId == nextId + |Ids(d)| &&
      multiset(Ids(r.drawer)) == multiset(Ids(d)) + multiset(Range(nextId, r.nextId))
    decreases d
  {
    var r := InjectEcho(d, nextId);
    var echo := EchoOfDrawer(d, nextId);
    var rest := InjectAll(d.children, nextId + 1);
    InjectAllIds(d.children, nextId + 1);
    PrependEchoIds(d, r.drawer, echo, rest.drawers);
    RangeConcat(nextId, nextId + 1, rest.nextId);
    assert Range(nextId, nextId + 1) == [nextId];
  }

  /** Putting an empty echo in front of new children adds the echo's id to theirs. */
  lemma {:induction false} PrependEchoIds(d: Drawer, e: Drawer, echo: Drawer, rest: seq<Drawer>)
    requires e.id == d.id && e.children == [echo] + rest && echo.children == []
    ensures Ids(e) == [d.id] + ([echo.id] + IdsAll(rest))
  {
    IdsAllCons(echo, rest);
    assert IdsAll([]) == [];
  }

  lemma {:induction false} InjectAllIds(ds: seq<Drawer>, nextId: nat)
    ensures var r := InjectAll(ds, nextId);
      |IdsAll(r.drawers)| == 2 * |IdsAll(ds)| && r.nextId == nextId + |IdsAll(ds)| &&
      multiset(IdsAll(r.drawers)) == multiset(IdsAll(ds)) + multiset(Range(nextId, r.nextId))
    decreases ds
  {
    if ds == [] {
      assert Range(nextId, nextId) == [];
    } else {
      var first := InjectEcho(ds[0], nextId);
      var rest := InjectAll(ds[1..], first.nextId);
      InjectIds(ds[0], nextId);
      InjectAllIds(ds[1..], first.nextId);
      IdsAllCons(first.drawer, rest.drawers);
      RangeConcat(nextId, first.nextId, rest.nextId);
    }
  }

  /** A grandchild of the root after the collapse: closed and empty. */
  function FoldGrandchild(g: Drawer): Drawer
  {
    g.(isOpen := false, children := [])
  }

  function FoldGrandchildren(gs: seq<Drawer>): (r: seq<Drawer>)
    ensures |r| == |gs|
    ensures forall k :: 0 <= k < |gs| ==> r[k] == FoldGrandchild(gs[k])
  {
    if gs == [] then [] else [FoldGrandchild(gs[0])] + FoldGrandchildren(gs[1..])
  }

  /** A child of the root after the collapse: closed, with its own children folded. */
  function FoldChild(c: Drawer): Drawer
  {
    c.(isOpen := false, children := FoldGrandchildren(c.children))
  }

  function FoldChildren(cs: seq<Drawer>): (r: seq<Drawer>)
    ensures |r| == |cs|
    ensures forall k :: 0 <= k < |cs| ==> r[k] == FoldChild(cs[k])
  {
    if cs == [] then [] else [FoldChild(cs[0])] + FoldChildren(cs[1..])
  }

  /**
   * `collapseDrawers`: a drawer at depth 0 stays open, its children close
   * and its grandchildren close and lose their children; a drawer at any
   * other depth closes and the walk goes on below it.
   */
  function CollapseDrawers(d: Drawer): (r: Drawer)
    ensures r.id == d.id && |r.children| == |d.children|
    ensures d.depth == 0.0 ==>
      r.isOpen && forall k :: 0 <= k < |r.children| ==>
        !r.children[k].isOpen && |r.children[k].children| == |d.children[k].children| &&
        forall m :: 0 <= m < |r.children[k].children| ==>
          !r.children[k].children[m].isOpen && r.children[k].children[m].children == []
    ensures d.depth != 0.0 ==> !r.isOpen
    decreases d
  {
    if d.depth == 0.0 then
      d.(isOpen := true, children := FoldChildren(d.children))
    else
      d.(isOpen := false, children := CollapseAll(d.children))
  }

  function CollapseAll(ds: seq<Drawer>): (r: seq<Drawer>)
    ensures |r| == |ds|
    ensures forall k :: 0 <= k < |ds| ==> r[k] == CollapseDrawers(ds[k])
    decreases ds
  {
    if ds == [] then [] else [CollapseDrawers(ds[0])] + CollapseAll(ds[1..])
  }

  /** Folding drops drawers and keeps the ids of the rest. */
  lemma {:induction false} FoldGrandchildrenIds(gs: seq<Drawer>)
    ensures multiset(IdsAll(FoldGrandchildren(gs))) <= multiset(IdsAll(gs))
  {
    if gs != [] {
      FoldGrandchildrenIds(gs[1..]);
      IdsAllCons(FoldGrandchild(gs[0]), FoldGrandchildren(gs[1..]));
      assert Ids(FoldGrandchild(gs[0])) == [gs[0].id] + IdsAll([]);
    }
  }

  lemma {:induction false} FoldChildrenIds(cs: seq<Drawer>)
    ensures multiset(IdsAll(FoldChildren(cs))) <= multiset(IdsAll(cs))
  {
    if cs != [] {
      FoldChildrenIds(cs[1..]);
      FoldGrandchildrenIds(cs[0].children);
      IdsAllCons(FoldChild(cs[0]), FoldChildren(cs[1..]));
    }
  }

  /** The collapse only drops drawers: no id is added or repeated. */
  lemma {:induction false} CollapseIds(d: Drawer)
    ensures multiset(Ids(CollapseDrawers(d))) <= multiset(Ids(d))
    decreases d
  {
    if d.depth == 0.0 {
      FoldChildrenIds(d.children);
    } else {
      CollapseAllIds(d.children);
    }
  }

  lemma {:induction false} CollapseAllIds(ds: seq<Drawer>)
    ensures multiset(IdsAll(CollapseAll(ds))) <= multiset(IdsAll(ds))
    decreases ds
  {
    if ds != [] {
      CollapseIds(ds[0]);
      CollapseAllIds(ds[1..]);
      IdsAllCons(CollapseDrawers(ds[0]), CollapseAll(ds[1..]));
    }
  }

  // ---------------------------------------------------------------------
  // The component
  // ---------------------------------------------------------------------

  datatype DrawerSystem = DrawerSystem(
    recursionDepth: real,
    maxSafeDepth: real,
    glitchDetected: bool,
    collapseTriggered: bool,
    echoInjected: bool,
    log: seq<LogMessage>,
    root: Drawer,
    /** The next value of the id generator. */
    nextId: nat)

  /** Ids are unique and all drawn from the generator; the root sits at depth 0. */
  predicate Inv(s: DrawerSystem)
  {
    UniqueIds(Ids(s.root)) && (forall x :: x in Ids(s.root) ==> x < s.nextId) && s.root.depth == 0.0
  }

  /** The open root thought holding the closed first interpretation layer. */
  function Initial(): (s: DrawerSystem)
    ensures Inv(s)
  {
    var layer := Drawer(1, InterpretationLayer1, false, 1.0, false, []);
    var root := Drawer(0, RootThought, true, 0.0, false, [layer]);
    assert Ids(root) == [0, 1] by {
      assert IdsAll([layer]) == Ids(layer) + IdsAll([]);
    }
    DrawerSystem(0.0, 4.0, false, false, false, [], root, 2)
  }

  /** The depth monitor: past the safe depth the glitch flag is set and logged (again on each run). */
  function MonitorDepth(s: DrawerSystem): (r: DrawerSystem)
    ensures r.glitchDetected == (s.glitchDetected || s.recursionDepth > s.maxSafeDepth)
    ensures r.log == s.log + (if s.recursionDepth > s.maxSafeDepth then [UIGlitch] else [])
    ensures r.(glitchDetected := s.glitchDetected, log := s.log) == s
  {
    if s.recursionDepth > s.maxSafeDepth then s.(glitchDetected := true, log := s.log + [UIGlitch]) else s
  }

  /** After a handler: the monitor runs when the recursion depth or the safe depth changed. */
  function Settle(before: DrawerSystem, after: DrawerSystem): DrawerSystem
  {
    if after.recursionDepth != before.recursionDepth || after.maxSafeDepth != before.maxSafeDepth then
      MonitorDepth(after)
    else after
  }

  /**
   * `handleDrawerToggle`: updates the tree and, when a child was created,
   * raises the recursion depth to that child's depth.
   */
  function HandleDrawerToggle(s: DrawerSystem, drawerId: nat): (r: DrawerSystem)
    ensures drawerId !in Ids(s.root) ==> r == s
    ensures TogglesOnly(s.root, r.root, drawerId, s.maxSafeDepth)
    ensures r.maxSafeDepth == s.maxSafeDepth && r.collapseTriggered == s.collapseTriggered &&
            r.echoInjected == s.echoInjected
  {
    var t := UpdateDrawers(s.root, drawerId, s.maxSafeDepth, s.nextId);
    var depth := if t.created == [] then s.recursionDepth else MaxR(s.recursionDepth, t.created[|t.created| - 1]);
    Settle(s, s.(root := t.drawer, nextId := t.nextId, log := s.log + t.log, recursionDepth := depth))
  }

  /** The recursion depth a toggle of drawer `d` leaves: max(depth, d.depth + 1) exactly when `d` grows. */
  function DepthAfterToggle(s: DrawerSystem, d: Drawer): real
  {
    if Grows(d, s.maxSafeDepth) then MaxR(s.recursionDepth, d.depth + 1.0) else s.recursionDepth
  }

  /**
   * With unique ids, the drawer `d` carrying the id decides the rest of the
   * state: the depth becomes max(depth, d.depth + 1) exactly when `d`
   * grows, one id is handed out for its child, its line is logged, and the
   * monitor runs, setting and logging the glitch, when the depth changed
   * past the safe depth.
   */
  lemma {:induction false} ToggleDepthRule(s: DrawerSystem, drawerId: nat)
    requires UniqueIds(Ids(s.root)) && drawerId in Ids(s.root)
    ensures var d := DrawerWithId(s.root, drawerId);
      HandleDrawerToggle(s, drawerId).recursionDepth == DepthAfterToggle(s, d)
    ensures var d := DrawerWithId(s.root, drawerId);
      HandleDrawerToggle(s, drawerId).nextId == s.nextId + (if Grows(d, s.maxSafeDepth) then 1 else 0)
    ensures var d := DrawerWithId(s.root, drawerId);
      var glitch := DepthAfterToggle(s, d) != s.recursionDepth && DepthAfterToggle(s, d) > s.maxSafeDepth;
      HandleDrawerToggle(s, drawerId).glitchDetected == (s.glitchDetected || glitch) &&
      HandleDrawerToggle(s, drawerId).log == s.log + [ToggleLine(d, s.maxSafeDepth)] + (if glitch then [UIGlitch] else [])
  {
    ToggleSettles(s, drawerId);
    var d := DrawerWithId(s.root, drawerId);
    var t := UpdateDrawers(s.root, drawerId, s.maxSafeDepth, s.nextId);
    var mid := s.(root := t.drawer, nextId := t.nextId, log := s.log + [ToggleLine(d, s.maxSafeDepth)],
                  recursionDepth := DepthAfterToggle(s, d));
    SettleAfterLine(s, mid, ToggleLine(d, s.maxSafeDepth));
  }

  /** The monitor after a handler that logged one line: the glitch is set and logged when the depth changed past the safe depth. */
  lemma {:induction false} SettleAfterLine(s: DrawerSystem, mid: DrawerSystem, line: LogMessage)
    requires mid.maxSafeDepth == s.maxSafeDepth && mid.glitchDetected == s.glitchDetected && mid.log == s.log + [line]
    ensures var glitch := mid.recursionDepth != s.recursionDepth && mid.recursionDepth > s.maxSafeDepth;
      var r := Settle(s, mid);
      r.recursionDepth == mid.recursionDepth && r.nextId == mid.nextId &&
      r.glitchDetected == (s.glitchDetected || glitch) && r.log == s.log + [line] + (if glitch then [UIGlitch] else [])
  {
  }

  /** The toggle as `ToggleDepthRule` reads it: the tree update, then the monitor on the new depth. */
  lemma {:induction false} ToggleSettles(s: DrawerSystem, drawerId: nat)
    requires UniqueIds(Ids(s.root)) && drawerId in Ids(s.root)
    ensures var d := DrawerWithId(s.root, drawerId);
      var t := UpdateDrawers(s.root, drawerId, s.maxSafeDepth, s.nextId);
      t.nextId == s.nextId + (if Grows(d, s.maxSafeDepth) then 1 else 0) &&
      HandleDrawerToggle(s, drawerId) ==
        Settle(s, s.(root := t.drawer, nextId := t.nextId, log := s.log + [ToggleLine(d, s.maxSafeDepth)],
                     recursionDepth := DepthAfterToggle(s, d)))
  {
    var d := DrawerWithId(s.root, drawerId);
    var t := UpdateDrawers(s.root, drawerId, s.maxSafeDepth, s.nextId);
    ToggleOne(s.root, drawerId, s.maxSafeDepth, s.nextId);
    var depth := if t.created == [] then s.recursionDepth else MaxR(s.recursionDepth, t.created[|t.created| - 1]);
    assert depth == DepthAfterToggle(s, d);
  }

  /** `injectEchoToken`: every drawer gains an echo and the safe depth rises by 2. */
  function InjectEchoToken(s: DrawerSystem): (r: DrawerSystem)
    ensures r.echoInjected && r.maxSafeDepth == s.maxSafeDepth + 2.0
    ensures r.recursionDepth == s.recursionDepth && r.collapseTriggered == s.collapseTriggered
    ensures EchoedTree(s.root, r.root) && r.root.children[0] == EchoOfDrawer(s.root, s.nextId)
    ensures r.glitchDetected == (s.glitchDetected || s.recursionDepth > s.maxSafeDepth + 2.0)
    ensures r.log == s.log + [EchoTokenInjected] + (if s.recursionDepth > s.maxSafeDepth + 2.0 then [UIGlitch] else [])
  {
    var injected := InjectEcho(s.root, s.nextId);
    Settle(s, s.(echoInjected := true, log := s.log + [EchoTokenInjected], root := injected.drawer,
                 nextId := injected.nextId, maxSafeDepth := s.maxSafeDepth + 2.0))
  }

  /** The delayed message one second after an injection. */
  function EchoPropagated(s: DrawerSystem): (r: DrawerSystem)
    ensures r.log == s.log + [EchoPropagationComplete] && r.(log := s.log) == s
  {
    s.(log := s.log + [EchoPropagationComplete])
  }

  /** `triggerCollapse`: the tree folds under the open root; the recursion depth is left as it was. */
  function TriggerCollapse(s: DrawerSystem): (r: DrawerSystem)
    ensures r.collapseTriggered && r.root == CollapseDrawers(s.root)
    ensures r.recursionDepth == s.recursionDepth && r.maxSafeDepth == s.maxSafeDepth
    ensures r.glitchDetected == s.glitchDetected && r.log == s.log + [CollapseTriggered]
  {
    s.(collapseTriggered := true, log := s.log + [CollapseTriggered], root := CollapseDrawers(s.root))
  }

  /** The delayed step 1.5 seconds after a collapse: the glitch flag clears. */
  function SystemRestoredStep(s: DrawerSystem): (r: DrawerSystem)
    ensures !r.glitchDetected && r.log == s.log + [SystemRestored]
    ensures r.(glitchDetected := s.glitchDetected, log := s.log) == s
  {
    s.(glitchDetected := false, log := s.log + [SystemRestored])
  }

  /** The echo button is enabled until the first injection. */
  predicate InjectEnabled(s: DrawerSystem) { !s.echoInjected }

  /** The collapse button is enabled before the first collapse and whenever the glitch flag is up. */
  predicate CollapseEnabled(s: DrawerSystem) { !s.collapseTriggered || s.glitchDetected }

  // ---------------------------------------------------------------------
  // What the handlers keep and promise
  // ---------------------------------------------------------------------

  /** Adding ids fresh from the generator keeps them unique and below the generator. */
  lemma {:induction false} FreshIdsKeepUnique(before: seq<nat>, after: seq<nat>, lo: nat, hi: nat)
    requires UniqueIds(before) && (forall x :: x in before ==> x < lo) && lo <= hi
    requires multiset(after) == multiset(before) + multiset(Range(lo, hi))
    ensures UniqueIds(after) && (forall x :: x in after ==> x < hi)
  {
    RangeCounts(lo, hi);
    forall x | x in after
      ensures multiset(after)[x] <= 1
    {
      if lo <= x {
        assert x !in before;
      } else if x in before {
        assert multiset(before)[x] <= 1;
      }
    }
    forall x | x in after
      ensures x < hi
    {
      assert x in multiset(after);
      if x !in before {
        assert multiset(Range(lo, hi))[x] > 0;
      }
    }
  }

  lemma {:induction false} FewerIdsKeepUnique(before: seq<nat>, after: seq<nat>, bound: nat)
    requires UniqueIds(before) && (forall x :: x in before ==> x < bound)
    requires multiset(after) <= multiset(before)
    ensures UniqueIds(after) && (forall x :: x in after ==> x < bound)
  {
    forall x | x in after
      ensures x in before && multiset(after)[x] <= 1
    {
      assert multiset(after)[x] > 0;
      assert multiset(after)[x] <= multiset(before)[x];
      assert x in multiset(before);
    }
  }

  /** In a consistent system a toggle opens or closes exactly the drawer it names. */
  lemma {:induction false} ToggleFlipsOnlyTarget(s: DrawerSystem, drawerId: nat)
    requires Inv(s) && drawerId in Ids(s.root)
    ensures OpenIds(HandleDrawerToggle(s, drawerId).root) == Flip(OpenIds(s.root), drawerId)
  {
    assert multiset(Ids(s.root))[drawerId] <= 1;
    UpdateFlipsOne(s.root, drawerId, s.maxSafeDepth, s.nextId);
  }

  /** Toggling keeps the ids unique; an unknown id changes nothing. */
  lemma {:induction false} ToggleKeepsInv(s: DrawerSystem, drawerId: nat)
    requires Inv(s)
    ensures Inv(HandleDrawerToggle(s, drawerId))
  {
    var t := UpdateDrawers(s.root, drawerId, s.maxSafeDepth, s.nextId);
    UpdateIds(s.root, drawerId, s.maxSafeDepth, s.nextId);
    FreshIdsKeepUnique(Ids(s.root), Ids(t.drawer), s.nextId, t.nextId);
  }

  /** Injection keeps the ids unique. */
  lemma {:induction false} InjectKeepsInv(s: DrawerSystem)
    requires Inv(s)
    ensures Inv(InjectEchoToken(s)) && |Ids(InjectEchoToken(s).root)| == 2 * |Ids(s.root)|
  {
    var injected := InjectEcho(s.root, s.nextId);
    InjectIds(s.root, s.nextId);
    FreshIdsKeepUnique(Ids(s.root), Ids(injected.drawer), s.nextId, injected.nextId);
  }

  /** Collapse keeps the ids unique and leaves the root open. */
  lemma {:induction false} CollapseKeepsInv(s: DrawerSystem)
    requires Inv(s)
    ensures Inv(TriggerCollapse(s)) && TriggerCollapse(s).root.isOpen
  {
    CollapseIds(s.root);
    FewerIdsKeepUnique(Ids(s.root), Ids(CollapseDrawers(s.root)), s.nextId);
  }

  /**
   * The glitch flag is raised by a toggle exactly when the toggle takes the
   * recursion depth past the safe depth.
   */
  lemma {:induction false} ToggleGlitch(s: DrawerSystem, drawerId: nat)
    ensures var r := HandleDrawerToggle(s, drawerId);
      r.recursionDepth >= s.recursionDepth &&
      (r.recursionDepth != s.recursionDepth ==> r.glitchDetected == (s.glitchDetected || r.recursionDepth > s.maxSafeDepth))
  {
  }

  /** Through the buttons, injection happens once: afterwards its button is disabled. */
  lemma {:induction false} InjectOnce(s: DrawerSystem)
    ensures !InjectEnabled(InjectEchoToken(s))
  {
  }

  /** A created child is at most one level past the safe depth, so a toggle never takes the depth further. */
  lemma {:induction false} ToggleDepthBound(s: DrawerSystem, drawerId: nat)
    requires s.recursionDepth <= s.maxSafeDepth + 1.0
    ensures HandleDrawerToggle(s, drawerId).recursionDepth <= s.maxSafeDepth + 1.0
  {
  }
}
