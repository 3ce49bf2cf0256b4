/**
 * The fractal thought visualiser: a tree of thoughts, a form that adds a
 * child under the thought whose id is typed in, and the recursive rebuild
 * (`addChildToNode`) that performs the insertion.
 *
 * The rebuild is pure, so thoughts are values; the random id becomes a
 * parameter `draw` in [0, 1), and `parseInt` on the id field is modelled
 * for the sign-and-digits strings a number input produces.
 */
module FractalThoughtVis {
  import opened Common

  datatype Thought = Thought(id: int, content: string, children: seq<Thought>)

  /** The sample tree the component starts with. */
  function InitialThoughts(): Thought
  {
    Thought(1, "Root Concept", [
      Thought(2, "Branch 1: Analysis", [
        Thought(5, "Logical Structure", []),
        Thought(6, "Empirical Evidence", [
          Thought(9, "Experiment Design", []),
          Thought(10, "Data Collection", [])])]),
      Thought(3, "Branch 2: Synthesis", [
        Thought(7, "Pattern Recognition", []),
        Thought(8, "Model Creation", [])]),
      Thought(4, "Branch 3: Application", [])])
  }

  // ---------------------------------------------------------------------
  // Measures of a tree
  // ---------------------------------------------------------------------

  /** The number of thoughts in a tree. */
  function Size(t: Thought): (n: nat)
    ensures n >= 1
    decreases t
  {
    1 + SizeAll(t.children)
  }

  function SizeAll(ts: seq<Thought>): nat
    decreases ts
  {
    if ts == [] then 0 else Size(ts[0]) + SizeAll(ts[1..])
  }

  /** The ids of a tree, in depth-first order. */
  function Ids(t: Thought): (s: seq<int>)
    ensures |s| == Size(t) && s[0] == t.id
    decreases t
  {
    [t.id] + IdsAll(t.children)
  }

  function IdsAll(ts: seq<Thought>): (s: seq<int>)
    ensures |s| == SizeAll(ts)
    decreases ts
  {
    if ts == [] then [] else Ids(ts[0]) + IdsAll(ts[1..])
  }

  /**
   * The thoughts the insertion reaches that carry `parentId`: a matching
   * thought counts once and hides everything below it.
   */
  function Hits(t: Thought, parentId: int): nat
    decreases t
  {
    if t.id == parentId then 1 else HitsAll(t.children, parentId)
  }

  function HitsAll(ts: seq<Thought>, parentId: int): nat
    decreases ts
  {
    if ts == [] then 0 else Hits(ts[0], parentId) + HitsAll(ts[1..], parentId)
  }

  // ---------------------------------------------------------------------
  // Adding a child
  // ---------------------------------------------------------------------

  /** The id `Math.floor(Math.random() * 1000)` gives for a draw in [0, 1). */
  function NewId(draw: real): (id: int)
    requires 0.0 <= draw < 1.0
    ensures 0 <= id < 1000
  {
    (draw * 1000.0).Floor
  }

  /**
   * `addChildToNode`: a thought with the parent's id gains the new thought
   * as its last child and is not searched below; any other thought with
   * children is rebuilt from its rebuilt children, and a leaf is kept.
   */
  function AddChildToNode(t: Thought, parentId: int, newId: int, content: string): (r: Thought)
    ensures r.id == t.id && r.content == t.content
    ensures t.id == parentId ==> r.children == t.children + [Thought(newId, content, [])]
    ensures t.id != parentId ==> |r.children| == |t.children|
    decreases t
  {
    if t.id == parentId then
      t.(children := t.children + [Thought(newId, content, [])])
    else if |t.children| > 0 then
      t.(children := AddChildAll(t.children, parentId, newId, content))
    else
      t
  }

  /** `children.map(addChildToNode)`. */
  function AddChildAll(ts: seq<Thought>, parentId: int, newId: int, content: string): (r: seq<Thought>)
    ensures |r| == |ts|
    ensures forall k :: 0 <= k < |ts| ==> r[k] == AddChildToNode(ts[k], parentId, newId, content)
    decreases ts
  {
    if ts == [] then [] else [AddChildToNode(ts[0], parentId, newId, content)] + AddChildAll(ts[1..], parentId, newId, content)
  }

  /** The insertion adds exactly one thought per reached match. */
  lemma {:induction false} AddChildSize(t: Thought, parentId: int, newId: int, content: string)
    ensures Size(AddChildToNode(t, parentId, newId, content)) == Size(t) + Hits(t, parentId)
    decreases t
  {
    var r := AddChildToNode(t, parentId, newId, content);
    if t.id == parentId {
      SizeAllAppend(t.children, Thought(newId, content, []));
    } else if |t.children| > 0 {
      AddChildAllSize(t.children, parentId, newId, content);
    } else {
      assert HitsAll(t.children, parentId) == 0;
    }
  }

  lemma {:induction false} AddChildAllSize(ts: seq<Thought>, parentId: int, newId: int, content: string)
    ensures SizeAll(AddChildAll(ts, parentId, newId, content)) == SizeAll(ts) + HitsAll(ts, parentId)
    decreases ts
  {
    if ts != [] {
      var r := AddChildAll(ts, parentId, newId, content);
      AddChildSize(ts[0], parentId, newId, content);
      AddChildAllSize(ts[1..], parentId, newId, content);
      assert r[1..] == AddChildAll(ts[1..], parentId, newId, content);
    }
  }

  lemma {:induction false} SizeAllAppend(ts: seq<Thought>, u: Thought)
    ensures SizeAll(ts + [u]) == SizeAll(ts) + Size(u)
    decreases ts
  {
    if ts == [] {
      assert [u][1..] == [];
    } else {
      SizeAllAppend(ts[1..], u);
      assert (ts + [u])[1..] == ts[1..] + [u];
    }
  }

  /** Some thought is reached exactly when the id occurs in the tree. */
  lemma {:induction false} HitsIffPresent(t: Thought, parentId: int)
    ensures Hits(t, parentId) > 0 <==> parentId in Ids(t)
    decreases t
  {
    if t.id != parentId {
      HitsAllIffPresent(t.children, parentId);
    }
  }

  lemma {:induction false} HitsAllIffPresent(ts: seq<Thought>, parentId: int)
    ensures HitsAll(ts, parentId) > 0 <==> parentId in IdsAll(ts)
    decreases ts
  {
    if ts != [] {
      HitsIffPresent(ts[0], parentId);
      HitsAllIffPresent(ts[1..], parentId);
    }
  }

  /** An id that matches nothing leaves the tree as it was. */
  lemma {:induction false} AddChildAbsent(t: Thought, parentId: int, newId: int, content: string)
    requires parentId !in Ids(t)
    ensures AddChildToNode(t, parentId, newId, content) == t
    decreases t
  {
    if |t.children| > 0 {
      AddChildAllAbsent(t.children, parentId, newId, content);
    }
  }

  lemma {:induction false} AddChildAllAbsent(ts: seq<Thought>, parentId: int, newId: int, content: string)
    requires parentId !in IdsAll(ts)
    ensures AddChildAll(ts, parentId, newId, content) == ts
    decreases ts
  {
    if ts != [] {
      AddChildAbsent(ts[0], parentId, newId, content);
      AddChildAllAbsent(ts[1..], parentId, newId, content);
      assert [ts[0]] + ts[1..] == ts;
    }
  }

  /** The tree changes exactly when some thought carries the parent id. */
  lemma {:induction false} AddChildChangesIffPresent(t: Thought, parentId: int, newId: int, content: string)
    ensures AddChildToNode(t, parentId, newId, content) != t <==> parentId in Ids(t)
  {
    HitsIffPresent(t, parentId);
    AddChildSize(t, parentId, newId, content);
    if parentId !in Ids(t) {
      AddChildAbsent(t, parentId, newId, content);
    }
  }

  /** The new id is not checked against the tree: a drawn id can repeat one already present. */
  lemma {:induction false} NewIdMayRepeat()
    ensures var t := Thought(1, "root", [Thought(5, "leaf", [])]);
      var r := AddChildToNode(t, 1, NewId(0.005), "again");
      NewId(0.005) == 5 && Ids(r) == [1, 5, 5]
  {
    var t := Thought(1, "root", [Thought(5, "leaf", [])]);
    var r := AddChildToNode(t, 1, 5, "again");
    assert r.children == [Thought(5, "leaf", []), Thought(5, "again", [])];
    assert IdsAll(r.children) == Ids(r.children[0]) + IdsAll(r.children[1..]);
    assert IdsAll(r.children[1..]) == Ids(r.children[1]) + IdsAll([]);
  }

  // ---------------------------------------------------------------------
  // parseInt on the id field
  // ---------------------------------------------------------------------

  /**
   * `parseInt(s)`: an optional sign followed by the leading digits; `None`
   * stands for `NaN`, which equals no id.
   */
  function ParseInt(s: string): (r: Option<int>)
    ensures r.None? <==> var u := if s != [] && (s[0] == '-' || s[0] == '+') then s[1..] else s;
      u == [] || !IsDigit(u[0])
  {
    var negative := s != [] && s[0] == '-';
    var u := if s != [] && (s[0] == '-' || s[0] == '+') then s[1..] else s;
    var n := DigitRun(u);
    if n == 0 then None
    else
      var v: int := DigitsValue(u[..n]);
      Some(if negative then -v else v)
  }

  /** Reading back what a number input holds gives the number. */
  lemma {:induction false} ParseShow(n: nat)
    ensures ParseInt(Show(n)) == Some(n)
    ensures ParseInt(['-'] + Show(n)) == Some(-(n as int))
  {
    var s := Show(n);
    ShowValue(n);
    assert DigitRun(s) == |s| by { DigitRunAll(s); }
    assert s[..|s|] == s;
    assert (['-'] + s)[1..] == s;
  }

  // ---------------------------------------------------------------------
  // The form
  // ---------------------------------------------------------------------

  /** The component's state: the two input fields and the tree. */
  datatype Form = Form(parentField: string, textField: string, thoughts: Thought)

  /**
   * `handleSubmit`: with both fields filled the child is added under the
   * parsed id and only the text field is cleared; otherwise nothing changes.
   */
  function HandleSubmit(f: Form, draw: real): (r: Form)
    requires 0.0 <= draw < 1.0
    ensures r.parentField == f.parentField
    ensures f.parentField == [] || f.textField == [] ==> r == f
    ensures f.parentField != [] && f.textField != [] ==>
      r.textField == [] &&
      (ParseInt(f.parentField).None? ==> r.thoughts == f.thoughts) &&
      (ParseInt(f.parentField).Some? ==>
        r.thoughts == AddChildToNode(f.thoughts, ParseInt(f.parentField).value, NewId(draw), f.textField))
  {
    if f.parentField != [] && f.textField != [] then
      var thoughts := match ParseInt(f.parentField)
        case None => f.thoughts
        case Some(p) => AddChildToNode(f.thoughts, p, NewId(draw), f.textField);
      Form(f.parentField, [], thoughts)
    else
      f
  }

  /** A submit grows the tree by one thought per reached match, and by none when the id is absent or unreadable. */
  lemma {:induction false} SubmitSize(f: Form, draw: real)
    requires 0.0 <= draw < 1.0
    ensures var r := HandleSubmit(f, draw);
      Size(r.thoughts) == Size(f.thoughts) +
        (if f.parentField != [] && f.textField != [] && ParseInt(f.parentField).Some?
         then Hits(f.thoughts, ParseInt(f.parentField).value) else 0)
  {
    if f.parentField != [] && f.textField != [] && ParseInt(f.parentField).Some? {
      AddChildSize(f.thoughts, ParseInt(f.parentField).value, NewId(draw), f.textField);
    }
  }
}
