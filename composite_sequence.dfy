/** The mutable composite sequences of CompositeSequence.cs. Every composite
    object the builders create is an entry of one store and is addressed by
    its handle; the handle a builder returns plays the part of the returned
    object reference, so operations added through it later show up nested
    in the parent at the position where the builder put it. Handles only
    ever point forward (a nested composite is created after its parent) and
    each is held by at most one parent, so the entries always form a strict
    forest, as the builders guarantee by construction. */
module Composites {
  import opened Outcomes
  import opened SequenceTree

  /** A child as a composite's list holds it. */
  datatype Child = Op(op: Operation) | Nested(handle: nat)

  /** One composite object: its name (fixed at creation), its gate, and its
      ordered list of children. */
  datatype Entry = Entry(name: string, gate: Gate, children: seq<Child>)

  /** Every nested handle points to a composite created after its holder. */
  predicate RefsForward(nodes: seq<Entry>) {
    forall h, i :: 0 <= h < |nodes| && 0 <= i < |nodes[h].children| && nodes[h].children[i].Nested? ==>
      h < nodes[h].children[i].handle < |nodes|
  }

  /** Child `i` of composite `j` is the nested composite `c`. */
  predicate Holds(nodes: seq<Entry>, j: int, i: int, c: nat) {
    0 <= j < |nodes| && 0 <= i < |nodes[j].children| && nodes[j].children[i] == Nested(c)
  }

  /** No composite is held twice: not by two parents, nor twice by one. */
  ghost predicate NoSharing(nodes: seq<Entry>) {
    forall j1, i1, j2, i2, c :: Holds(nodes, j1, i1, c) && Holds(nodes, j2, i2, c) ==> j1 == j2 && i1 == i2
  }

  ghost predicate WellFormed(nodes: seq<Entry>) {
    RefsForward(nodes) && NoSharing(nodes)
  }

  predicate HandlesAbove(cs: seq<Child>, h: nat, bound: nat) {
    forall i :: 0 <= i < |cs| && cs[i].Nested? ==> h < cs[i].handle < bound
  }

  /** The tree a handle stands for, as executed, dry-run and validated. */
  function TreeOf(nodes: seq<Entry>, h: nat): Node
    requires RefsForward(nodes) && h < |nodes|
    decreases |nodes| - h, |nodes[h].children| + 1
  {
    Composite(nodes[h].name, nodes[h].gate, Subtrees(nodes, h, nodes[h].children))
  }

  function Subtrees(nodes: seq<Entry>, h: nat, cs: seq<Child>): (r: seq<Node>)
    requires RefsForward(nodes) && h < |nodes| && HandlesAbove(cs, h, |nodes|)
    ensures |r| == |cs|
    ensures forall i :: 0 <= i < |cs| ==> r[i] == ChildTree(nodes, h, cs[i])
    decreases |nodes| - h, |cs|
  {
    if cs == [] then []
    else [ChildTree(nodes, h, cs[0])] + Subtrees(nodes, h, cs[1..])
  }

  function ChildTree(nodes: seq<Entry>, h: nat, c: Child): Node
    requires RefsForward(nodes) && h < |nodes|
    requires c.Nested? ==> h < c.handle < |nodes|
    decreases |nodes| - h, 0
  {
    match c
    case Op(op) => Leaf(op)
    case Nested(k) => TreeOf(nodes, k)
  }

  /** The `Name` getter: the name the composite was created with, which is
      the name its tree carries when executed. */
  function Name(nodes: seq<Entry>, h: nat): (r: string)
    requires h < |nodes|
    ensures RefsForward(nodes) ==> TreeOf(nodes, h).Composite? && TreeOf(nodes, h).name == r
  {
    nodes[h].name
  }

  /** The name is fixed at creation: neither Add nor a builder renames any
      existing composite. */
  lemma NameIsFixed(nodes: seq<Entry>, h: nat, k: nat, op: Operation, addFirst: bool, name: string, gate: Gate)
    requires h < |nodes| && k < |nodes|
    ensures k < |Added(nodes, h, op, addFirst)| && Name(Added(nodes, h, op, addFirst), k) == Name(nodes, k)
    ensures k < |WithNested(nodes, h, name, gate)| && Name(WithNested(nodes, h, name, gate), k) == Name(nodes, k)
  {
  }

  /** The store after `Add(op, addFirst)` on composite `h`. */
  function Added(nodes: seq<Entry>, h: nat, op: Operation, addFirst: bool): seq<Entry>
    requires h < |nodes|
  {
    var cs := nodes[h].children;
    nodes[h := nodes[h].(children := if addFirst then [Op(op)] + cs else cs + [Op(op)])]
  }

  /** The store after composite `h` appends a new, empty composite. */
  function WithNested(nodes: seq<Entry>, h: nat, name: string, gate: Gate): seq<Entry>
    requires h < |nodes|
  {
    nodes[h := nodes[h].(children := nodes[h].children + [Nested(|nodes|)])] + [Entry(name, gate, [])]
  }

  /** A tree only depends on the entries from its own handle on. */
  lemma {:induction false} TreeFrame(a: seq<Entry>, b: seq<Entry>, k: nat)
    requires RefsForward(a) && RefsForward(b) && k < |a| <= |b|
    requires forall j :: k <= j < |a| ==> b[j] == a[j]
    ensures TreeOf(a, k) == TreeOf(b, k)
    decreases |a| - k
  {
    var cs := a[k].children;
    forall i | 0 <= i < |cs|
      ensures ChildTree(a, k, cs[i]) == ChildTree(b, k, cs[i])
    {
      if cs[i].Nested? {
        TreeFrame(a, b, cs[i].handle);
      }
    }
    assert Subtrees(a, k, cs) == Subtrees(b, k, cs);
  }

  /** A tree does not change when an entry it does not reach changes: here
      `c`, which no entry from `k` on holds. */
  lemma {:induction false} TreeFrameExcept(a: seq<Entry>, b: seq<Entry>, k: nat, c: nat)
    requires RefsForward(a) && RefsForward(b) && k < |a| == |b| && k != c
    requires forall j :: k <= j < |a| && j != c ==> b[j] == a[j]
    requires forall j, i :: k <= j < |a| && 0 <= i < |a[j].children| && j != c ==> a[j].children[i] != Nested(c)
    ensures TreeOf(a, k) == TreeOf(b, k)
    decreases |a| - k
  {
    var cs := a[k].children;
    forall i | 0 <= i < |cs|
      ensures ChildTree(a, k, cs[i]) == ChildTree(b, k, cs[i])
    {
      if cs[i].Nested? {
        TreeFrameExcept(a, b, cs[i].handle, c);
      }
    }
    assert Subtrees(a, k, cs) == Subtrees(b, k, cs);
  }

  /** Add keeps the store a strict forest: the new child is a leaf and the
      nested handles keep their holders. */
  lemma AddedIsWellFormed(nodes: seq<Entry>, h: nat, op: Operation, addFirst: bool)
    requires WellFormed(nodes) && h < |nodes|
    ensures WellFormed(Added(nodes, h, op, addFirst))
  {
    var n' := Added(nodes, h, op, addFirst);
    var cs := nodes[h].children;
    var cs' := n'[h].children;
    assert forall i :: 0 <= i < |cs'| && cs'[i].Nested? ==>
      (if addFirst then 1 <= i && cs'[i] == cs[i - 1] else i < |cs| && cs'[i] == cs[i]);
    assert RefsForward(n');
    forall j1, i1, j2, i2, c | Holds(n', j1, i1, c) && Holds(n', j2, i2, c)
      ensures j1 == j2 && i1 == i2
    {
      AddedHolder(nodes, h, op, addFirst, j1, i1, c);
      AddedHolder(nodes, h, op, addFirst, j2, i2, c);
    }
  }

  /** Who holds a nested composite after Add: the same holder, one position
      further on when the leaf went to the front of that holder. */
  lemma AddedHolder(nodes: seq<Entry>, h: nat, op: Operation, addFirst: bool, j: int, i: int, c: nat)
    requires h < |nodes|
    requires Holds(Added(nodes, h, op, addFirst), j, i, c)
    ensures Holds(nodes, j, if j == h && addFirst then i - 1 else i, c)
  {
    var n' := Added(nodes, h, op, addFirst);
    if j == h && addFirst {
      assert n'[j].children[i] == nodes[j].children[i - 1];
    } else if j == h {
      assert n'[j].children[i] == nodes[j].children[i];
    }
  }

  /** Add puts exactly one new leaf at the front or the back of the
      composite's children; the other children keep their order and nothing
      is deduplicated. */
  lemma AddedTree(nodes: seq<Entry>, h: nat, op: Operation, addFirst: bool)
    requires WellFormed(nodes) && h < |nodes|
    ensures RefsForward(Added(nodes, h, op, addFirst))
    ensures TreeOf(Added(nodes, h, op, addFirst), h) ==
      var t := TreeOf(nodes, h);
      t.(children := if addFirst then [Leaf(op)] + t.children else t.children + [Leaf(op)])
  {
    AddedIsWellFormed(nodes, h, op, addFirst);
    var n' := Added(nodes, h, op, addFirst);
    var cs := nodes[h].children;
    var cs' := n'[h].children;
    forall i | 0 <= i < |cs|
      ensures ChildTree(n', h, cs[i]) == ChildTree(nodes, h, cs[i])
    {
      if cs[i].Nested? {
        TreeFrame(nodes, n', cs[i].handle);
      }
    }
    var t := TreeOf(nodes, h);
    var expected := if addFirst then [Leaf(op)] + t.children else t.children + [Leaf(op)];
    var got := Subtrees(n', h, cs');
    assert |got| == |expected|;
    forall i | 0 <= i < |got|
      ensures got[i] == expected[i]
    {
      if addFirst && i > 0 {
        assert cs'[i] == cs[i - 1] && expected[i] == t.children[i - 1];
      } else if !addFirst && i < |cs| {
        assert cs'[i] == cs[i] && expected[i] == t.children[i];
      }
    }
    assert got == expected;
  }

  /** The builders append exactly one new, empty composite at the end of the
      parent's children, under a handle no other composite holds; the
      existing children are unchanged. */
  lemma WithNestedIsWellFormed(nodes: seq<Entry>, h: nat, name: string, gate: Gate)
    requires WellFormed(nodes) && h < |nodes|
    ensures WellFormed(WithNested(nodes, h, name, gate))
    ensures |WithNested(nodes, h, name, gate)| == |nodes| + 1
    ensures TreeOf(WithNested(nodes, h, name, gate), |nodes|) == Composite(name, gate, [])
    ensures TreeOf(WithNested(nodes, h, name, gate), h) ==
      var t := TreeOf(nodes, h);
      t.(children := t.children + [Composite(name, gate, [])])
  {
    var n' := WithNested(nodes, h, name, gate);
    var cs := nodes[h].children;
    var cs' := n'[h].children;
    assert cs' == cs + [Nested(|nodes|)];
    assert RefsForward(n');
    forall j1, i1, j2, i2, c | Holds(n', j1, i1, c) && Holds(n', j2, i2, c)
      ensures j1 == j2 && i1 == i2
    {
      if c != |nodes| {
        assert Holds(nodes, j1, i1, c);
        assert Holds(nodes, j2, i2, c);
      } else {
        assert forall j, i :: Holds(nodes, j, i, c) ==> false;
      }
    }
    forall i | 0 <= i < |cs| && cs[i].Nested?
      ensures TreeOf(n', cs[i].handle) == TreeOf(nodes, cs[i].handle)
    {
      TreeFrame(nodes, n', cs[i].handle);
    }
    var t := TreeOf(nodes, h);
    var got := Subtrees(n', h, cs');
    var expected := t.children + [Composite(name, gate, [])];
    assert |got| == |expected|;
    forall i | 0 <= i < |got|
      ensures got[i] == expected[i]
    {
      if i < |cs| {
        assert cs'[i] == cs[i];
      } else {
        assert cs'[i] == Nested(|nodes|);
        assert got[i] == TreeOf(n', |nodes|);
      }
    }
  }

  /** Adding through the handle of a nested composite changes the parent's
      tree at exactly that position and nowhere else: the builder's returned
      object and the parent's child are the same composite. */
  lemma AddAppearsNested(nodes: seq<Entry>, h: nat, p: nat, op: Operation, addFirst: bool)
    requires WellFormed(nodes) && h < |nodes|
    requires p < |nodes[h].children| && nodes[h].children[p].Nested?
    ensures WellFormed(Added(nodes, nodes[h].children[p].handle, op, addFirst))
    ensures
      var c := nodes[h].children[p].handle;
      var n' := Added(nodes, c, op, addFirst);
      var t := TreeOf(nodes, h);
      TreeOf(n', h) == t.(children := t.children[p := TreeOf(n', c)])
  {
    var c := nodes[h].children[p].handle;
    var n' := Added(nodes, c, op, addFirst);
    AddedIsWellFormed(nodes, c, op, addFirst);
    AddedTree(nodes, c, op, addFirst);
    var cs := nodes[h].children;
    assert n'[h] == nodes[h];
    forall q | 0 <= q < |cs| && q != p
      ensures ChildTree(n', h, cs[q]) == ChildTree(nodes, h, cs[q])
    {
      if cs[q].Nested? {
        SiblingUnchanged(nodes, h, p, q, op, addFirst);
      }
    }
    var t := TreeOf(nodes, h);
    var got := Subtrees(n', h, cs);
    var expected := t.children[p := TreeOf(n', c)];
    assert |got| == |expected|;
    forall q | 0 <= q < |got|
      ensures got[q] == expected[q]
    {
    }
    assert got == expected;
  }

  /** The other nested children of `h` do not reach the composite added to. */
  lemma SiblingUnchanged(nodes: seq<Entry>, h: nat, p: nat, q: nat, op: Operation, addFirst: bool)
    requires WellFormed(nodes) && h < |nodes|
    requires p < |nodes[h].children| && nodes[h].children[p].Nested?
    requires q < |nodes[h].children| && q != p && nodes[h].children[q].Nested?
    ensures
      var c := nodes[h].children[p].handle;
      var n' := Added(nodes, c, op, addFirst);
      RefsForward(n') && nodes[h].children[q].handle < |n'| &&
      TreeOf(n', nodes[h].children[q].handle) == TreeOf(nodes, nodes[h].children[q].handle)
  {
    var c := nodes[h].children[p].handle;
    var n' := Added(nodes, c, op, addFirst);
    AddedIsWellFormed(nodes, c, op, addFirst);
    var k := nodes[h].children[q].handle;
    assert Holds(nodes, h, p, c) && Holds(nodes, h, q, k);
    assert h < k && k != c;
    forall j, i | k <= j < |nodes| && 0 <= i < |nodes[j].children| && j != c
      ensures nodes[j].children[i] != Nested(c)
    {
      assert !Holds(nodes, j, i, c);
    }
    TreeFrameExcept(nodes, n', k, c);
  }


  /** The composite sequences of one deployment definition. */
  class CompositeSequences {
    var nodes: seq<Entry>

    ghost predicate Valid()
      reads this
    {
      WellFormed(nodes)
    }

    constructor ()
      ensures Valid() && nodes == []
    {
      nodes := [];
    }

    /** `new CompositeSequence(name)`: a fresh, empty, unconditional
        composite, held by no parent. */
    method NewSequence(name: string) returns (h: nat)
      requires Valid()
      modifies this
      ensures Valid()
      ensures h == |old(nodes)| && nodes == old(nodes) + [Entry(name, Unconditional, [])]
      ensures TreeOf(nodes, h) == Composite(name, Unconditional, [])
      ensures forall k :: 0 <= k < h ==> TreeOf(nodes, k) == old(TreeOf(nodes, k))
    {
      ghost var before := nodes;
      h := |nodes|;
      nodes := nodes + [Entry(name, Unconditional, [])];
      forall j, i, c | Holds(nodes, j, i, c)
        ensures Holds(before, j, i, c)
      {
        assert j < h;
      }
      forall k | 0 <= k < h
        ensures TreeOf(nodes, k) == TreeOf(before, k)
      {
        TreeFrame(before, nodes, k);
      }
    }

    method Add(h: nat, op: Operation, addFirst: bool)
      requires Valid() && h < |nodes|
      modifies this
      ensures Valid()
      ensures nodes == Added(old(nodes), h, op, addFirst)
      ensures TreeOf(nodes, h) ==
        var t := old(TreeOf(nodes, h));
        t.(children := if addFirst then [Leaf(op)] + t.children else t.children + [Leaf(op)])
    {
      AddedIsWellFormed(nodes, h, op, addFirst);
      AddedTree(nodes, h, op, addFirst);
      var e := nodes[h];
      nodes := nodes[h := e.(children := if addFirst then [Op(op)] + e.children else e.children + [Op(op)])];
    }

    method NewCompositeSequence(h: nat, operationName: string) returns (child: nat)
      requires Valid() && h < |nodes|
      modifies this
      ensures Valid()
      ensures child == |old(nodes)| && nodes == WithNested(old(nodes), h, operationName, Unconditional)
      ensures TreeOf(nodes, child) == Composite(operationName, Unconditional, [])
      ensures TreeOf(nodes, h) ==
        var t := old(TreeOf(nodes, h));
        t.(children := t.children + [Composite(operationName, Unconditional, [])])
    {
      WithNestedIsWellFormed(nodes, h, operationName, Unconditional);
      child := |nodes|;
      nodes := nodes[h := nodes[h].(children := nodes[h].children + [Nested(child)])] +
               [Entry(operationName, Unconditional, [])];
    }

    /** Both overloads (a server predicate or a condition script): the new
        conditional composite carries the parent's own name. */
    method NewConditionalCompositeSequence(h: nat, condition: Condition) returns (child: nat)
      requires Valid() && h < |nodes|
      modifies this
      ensures Valid()
      ensures child == |old(nodes)| && nodes == WithNested(old(nodes), h, Name(old(nodes), h), When(condition))
      ensures TreeOf(nodes, child) == Composite(Name(old(nodes), h), When(condition), [])
      ensures TreeOf(nodes, h) ==
        var t := old(TreeOf(nodes, h));
        t.(children := t.children + [Composite(t.name, When(condition), [])])
    {
      var name := nodes[h].name;
      WithNestedIsWellFormed(nodes, h, name, When(condition));
      child := |nodes|;
      nodes := nodes[h := nodes[h].(children := nodes[h].children + [Nested(child)])] +
               [Entry(name, When(condition), [])];
    }

    /** The foreach of Execute: a check point before every child; a nested
        composite runs through its own Execute (which applies its gate); the
        first child that does not end normally ends the loop. */
    method Execute(h: nat, env: Env, step: nat) returns (trace: seq<Operation>, outcome: Outcome, next: nat)
      requires Valid() && h < |nodes|
      ensures Run(trace, outcome, next) == Exec(TreeOf(nodes, h), env, step)
      decreases |nodes| - h
    {
      var e := nodes[h];
      if !IsOpen(e.gate, env.open) {
        return [], Ok, step;
      }
      ghost var subs := TreeOf(nodes, h).children;
      trace, outcome, next := [], Ok, step;
      var i := 0;
      while i < |e.children|
        invariant 0 <= i <= |e.children| && outcome == Ok
        invariant Exec(TreeOf(nodes, h), env, step) ==
          var rest := ExecAll(subs[i..], env, next);
          Run(trace + rest.trace, rest.outcome, rest.step)
      {
        assert subs[i..][0] == subs[i] && subs[i..][1..] == subs[i + 1..];
        if env.token.IsCancellationRequested(next) {
          return trace, Cancelled, next + 1;
        }
        var t, o, n;
        match e.children[i] {
          case Op(op) =>
            t, o, n := [op], if env.fails(op) then Failed else Ok, next + 1;
          case Nested(k) =>
            t, o, n := Execute(k, env, next + 1);
        }
        assert Run(t, o, n) == Exec(subs[i], env, next + 1);
        if o != Ok {
          return trace + t, o, n;
        }
        ConcatAssoc(trace, t, ExecAll(subs[i + 1..], env, n).trace);
        trace, next := trace + t, n;
        i := i + 1;
      }
    }

    /** The dry run walks every child in order, descending into nested
        composites whatever their gates. */
    method DryRun(h: nat) returns (ops: seq<Operation>)
      requires Valid() && h < |nodes|
      ensures ops == Flatten(TreeOf(nodes, h))
      decreases |nodes| - h
    {
      var e := nodes[h];
      ghost var subs := TreeOf(nodes, h).children;
      ops := [];
      var i := 0;
      while i < |e.children|
        invariant 0 <= i <= |e.children|
        invariant Flatten(TreeOf(nodes, h)) == ops + FlattenAll(subs[i..])
      {
        assert subs[i..][0] == subs[i] && subs[i..][1..] == subs[i + 1..];
        var more;
        match e.children[i] {
          case Op(op) =>
            more := [op];
          case Nested(k) =>
            more := DryRun(k);
        }
        assert more == Flatten(subs[i]);
        ops := ops + more;
        i := i + 1;
      }
    }

    /** Validation: every operation of the composite, nested ones included,
        is valid. */
    function IsValid(h: nat, valid: Operation -> bool): (r: bool)
      reads this
      requires Valid() && h < |nodes|
      ensures r <==> AllValid(Flatten(TreeOf(nodes, h)), valid)
    {
      SequenceTree.IsValid(TreeOf(nodes, h), valid).valid
    }
  }
}
