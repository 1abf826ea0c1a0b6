/** The value semantics of a composite sequence (CompositeSequence.cs): an
    ordered, nestable tree of operations, what executing it does, what a dry
    run walks, and what validating it consults. The mutable builder that
    grows such trees lives in composite_sequence.dfy. */
module SequenceTree {
  import opened Outcomes

  /** A leaf operation. What it does is not part of this model; `id` tells
      apart operations that share a name. */
  datatype Operation = Operation(name: string, id: nat)

  /** The gate of a conditional composite: a predicate over the server's
      metadata, or a condition script for an external evaluator. */
  datatype Condition = ServerPredicate(id: nat) | ConditionScript(script: string)

  datatype Gate = Unconditional | When(condition: Condition)

  /** A child of a sequence: an operation, or a nested (possibly conditional)
      composite with its own name and ordered children. */
  datatype Node =
    | Leaf(op: Operation)
    | Composite(name: string, gate: Gate, children: seq<Node>)

  /** What the world answers during one execution: the cancellation token,
      which operations fail, and which gates are open. */
  datatype Env = Env(token: CancellationToken, fails: Operation -> bool, open: Condition -> bool)

  /** The observable effect of an execution: the operations started, in
      order, how it ended, and the next check point number. */
  datatype Run = Run(trace: seq<Operation>, outcome: Outcome, step: nat)

  predicate IsPrefix<T(==)>(a: seq<T>, b: seq<T>) {
    |a| <= |b| && a == b[..|a|]
  }

  predicate IsOpen(g: Gate, open: Condition -> bool) {
    g.Unconditional? || open(g.condition)
  }

  /** Every operation of the tree in pre-order, gates ignored: the order of a
      dry run. */
  function Flatten(n: Node): seq<Operation>
    decreases n, 1
  {
    match n
    case Leaf(op) => [op]
    case Composite(_, _, cs) => FlattenAll(cs)
  }

  function FlattenAll(cs: seq<Node>): seq<Operation>
    decreases cs, 0
  {
    if cs == [] then [] else Flatten(cs[0]) + FlattenAll(cs[1..])
  }

  /** The operations an execution reaches when nothing fails and nothing is
      cancelled: the pre-order leaves of the composites whose gates are open. */
  function Leaves(n: Node, open: Condition -> bool): seq<Operation>
    decreases n, 1
  {
    match n
    case Leaf(op) => [op]
    case Composite(_, g, cs) => if IsOpen(g, open) then LeavesAll(cs, open) else []
  }

  function LeavesAll(cs: seq<Node>, open: Condition -> bool): seq<Operation>
    decreases cs, 0
  {
    if cs == [] then [] else Leaves(cs[0], open) + LeavesAll(cs[1..], open)
  }

  /** Executing one child. A leaf runs without a check of its own (its parent
      checked the token just before); a composite whose gate is closed is
      skipped without a failure; any other composite runs its children. */
  function Exec(n: Node, env: Env, step: nat): Run
    decreases n, 1
  {
    match n
    case Leaf(op) => Run([op], if env.fails(op) then Failed else Ok, step)
    case Composite(_, g, cs) =>
      if IsOpen(g, env.open) then ExecAll(cs, env, step) else Run([], Ok, step)
  }

  /** The loop of CompositeSequence.Execute: before each child the token is
      checked (one check point), then the child runs; the first child that
      does not end normally ends the loop with its outcome. */
  function ExecAll(cs: seq<Node>, env: Env, step: nat): Run
    decreases cs, 0
  {
    if cs == [] then Run([], Ok, step)
    else if env.token.IsCancellationRequested(step) then Run([], Cancelled, step + 1)
    else
      var first := Exec(cs[0], env, step + 1);
      if first.outcome != Ok then first
      else
        var rest := ExecAll(cs[1..], env, first.step);
        Run(first.trace + rest.trace, rest.outcome, rest.step)
  }

  /** Validation (`All` over the children): the verdict, and the operations
      consulted, in order; consultation stops at the first invalid one. */
  datatype Validation = Validation(valid: bool, consulted: seq<Operation>)

  predicate AllValid(ops: seq<Operation>, valid: Operation -> bool) {
    forall i :: 0 <= i < |ops| ==> valid(ops[i])
  }

  lemma AllValidConcat(a: seq<Operation>, b: seq<Operation>, valid: Operation -> bool)
    ensures AllValid(a + b, valid) <==> AllValid(a, valid) && AllValid(b, valid)
  {
    if AllValid(a, valid) && AllValid(b, valid) {
      forall i | 0 <= i < |a + b|
        ensures valid((a + b)[i])
      {
        if i >= |a| {
          assert (a + b)[i] == b[i - |a|];
        }
      }
    }
    if AllValid(a + b, valid) {
      forall i | 0 <= i < |a|
        ensures valid(a[i])
      {
        assert (a + b)[i] == a[i];
      }
      forall i | 0 <= i < |b|
        ensures valid(b[i])
      {
        assert (a + b)[|a| + i] == b[i];
      }
    }
  }

  /** What validating `ops` reports: the verdict is whether every
      operation is valid, the operations consulted are a prefix of `ops`
      (all of them when the verdict is valid), the last one consulted is the
      invalid one, and every one before it was valid. */
  predicate Consults(r: Validation, ops: seq<Operation>, valid: Operation -> bool) {
    && (r.valid <==> AllValid(ops, valid))
    && IsPrefix(r.consulted, ops)
    && (r.valid ==> r.consulted == ops)
    && (!r.valid ==> |r.consulted| > 0 && !valid(r.consulted[|r.consulted| - 1]))
    && (forall i :: 0 <= i < |r.consulted| - 1 ==> valid(r.consulted[i]))
  }

  /** A valid first part followed by the validation of the second. */
  lemma ConsultsThen(first: Validation, rest: Validation, a: seq<Operation>, b: seq<Operation>,
                     valid: Operation -> bool)
    requires Consults(first, a, valid) && first.valid && Consults(rest, b, valid)
    ensures Consults(Validation(rest.valid, first.consulted + rest.consulted), a + b, valid)
  {
    AllValidConcat(a, b, valid);
    var c := first.consulted + rest.consulted;
    assert (a + b)[..|c|] == a + b[..|rest.consulted|];
    forall i | 0 <= i < |c| - 1
      ensures valid(c[i])
    {
      if i >= |a| {
        assert c[i] == rest.consulted[i - |a|];
      }
    }
  }

  /** An invalid first part ends the validation. */
  lemma ConsultsStops(first: Validation, a: seq<Operation>, b: seq<Operation>, valid: Operation -> bool)
    requires Consults(first, a, valid) && !first.valid
    ensures Consults(first, a + b, valid)
  {
    AllValidConcat(a, b, valid);
    assert (a + b)[..|first.consulted|] == a[..|first.consulted|];
  }

  /** CompositeSequence.IsValid: every child in order, stopping at the first
      invalid one. */
  function IsValid(n: Node, valid: Operation -> bool): (r: Validation)
    ensures Consults(r, Flatten(n), valid)
    decreases n, 1
  {
    match n
    case Leaf(op) =>
      assert Flatten(n) == [op] && Flatten(n)[0] == op;
      Validation(valid(op), [op])
    case Composite(_, _, cs) => IsValidAll(cs, valid)
  }

  function IsValidAll(cs: seq<Node>, valid: Operation -> bool): (r: Validation)
    ensures Consults(r, FlattenAll(cs), valid)
    decreases cs, 0
  {
    if cs == [] then Validation(true, [])
    else
      var first := IsValid(cs[0], valid);
      if !first.valid then
        ConsultsStops(first, Flatten(cs[0]), FlattenAll(cs[1..]), valid);
        first
      else
        var rest := IsValidAll(cs[1..], valid);
        ConsultsThen(first, rest, Flatten(cs[0]), FlattenAll(cs[1..]), valid);
        Validation(rest.valid, first.consulted + rest.consulted)
  }

  /** Execution follows the tree in pre-order: the operations started are a
      prefix of the reachable leaves, and all of them when the run ends
      normally, so a nested composite's operations run before its parent's
      next sibling. */
  lemma {:induction false} ExecFollowsPreOrder(n: Node, env: Env, step: nat)
    ensures IsPrefix(Exec(n, env, step).trace, Leaves(n, env.open))
    ensures Exec(n, env, step).outcome == Ok ==> Exec(n, env, step).trace == Leaves(n, env.open)
    decreases n, 1
  {
    match n
    case Leaf(_) =>
    case Composite(_, g, cs) =>
      if IsOpen(g, env.open) {
        ExecAllFollowsPreOrder(cs, env, step);
      }
  }

  lemma {:induction false} ExecAllFollowsPreOrder(cs: seq<Node>, env: Env, step: nat)
    ensures IsPrefix(ExecAll(cs, env, step).trace, LeavesAll(cs, env.open))
    ensures ExecAll(cs, env, step).outcome == Ok ==> ExecAll(cs, env, step).trace == LeavesAll(cs, env.open)
    decreases cs, 0
  {
    if cs != [] && !env.token.IsCancellationRequested(step) {
      var first := Exec(cs[0], env, step + 1);
      ExecFollowsPreOrder(cs[0], env, step + 1);
      assert LeavesAll(cs, env.open) == Leaves(cs[0], env.open) + LeavesAll(cs[1..], env.open);
      if first.outcome == Ok {
        ExecAllFollowsPreOrder(cs[1..], env, first.step);
      }
    }
  }

  /** A failure ends the execution at once: the run fails exactly when the
      last operation started failed, and every operation before it succeeded. */
  lemma {:induction false} ExecStopsAtFirstFailure(n: Node, env: Env, step: nat)
    ensures var r := Exec(n, env, step);
      (r.outcome == Failed <==> |r.trace| > 0 && env.fails(r.trace[|r.trace| - 1]))
    ensures var r := Exec(n, env, step);
      forall i :: 0 <= i < |r.trace| - 1 ==> !env.fails(r.trace[i])
    decreases n, 1
  {
    match n
    case Leaf(_) =>
    case Composite(_, g, cs) =>
      if IsOpen(g, env.open) {
        ExecAllStopsAtFirstFailure(cs, env, step);
      }
  }

  lemma {:induction false} ExecAllStopsAtFirstFailure(cs: seq<Node>, env: Env, step: nat)
    ensures var r := ExecAll(cs, env, step);
      (r.outcome == Failed <==> |r.trace| > 0 && env.fails(r.trace[|r.trace| - 1]))
    ensures var r := ExecAll(cs, env, step);
      forall i :: 0 <= i < |r.trace| - 1 ==> !env.fails(r.trace[i])
    decreases cs, 0
  {
    if cs != [] && !env.token.IsCancellationRequested(step) {
      var first := Exec(cs[0], env, step + 1);
      ExecStopsAtFirstFailure(cs[0], env, step + 1);
      if first.outcome == Ok {
        var rest := ExecAll(cs[1..], env, first.step);
        ExecAllStopsAtFirstFailure(cs[1..], env, first.step);
        var t := first.trace + rest.trace;
        forall i | 0 <= i < |t| - 1
          ensures !env.fails(t[i])
        {
          if i < |first.trace| - 1 {
          } else if i == |first.trace| - 1 {
          } else {
            assert t[i] == rest.trace[i - |first.trace|];
          }
        }
        if |rest.trace| == 0 && |first.trace| > 0 {
          assert t[|t| - 1] == first.trace[|first.trace| - 1];
        } else if |rest.trace| > 0 {
          assert t[|t| - 1] == rest.trace[|rest.trace| - 1];
        }
      }
    }
  }

  /** Check points: an execution uses consecutive check points from `step`
      on, starts at most one operation per check point, and is cancelled
      exactly when its last check point found cancellation requested, every
      earlier one having found it not requested. */
  lemma {:induction false} ExecCheckPoints(n: Node, env: Env, step: nat)
    ensures var r := Exec(n, env, step);
      && step <= r.step
      && (n.Leaf? ==> r.step == step && |r.trace| == 1)
      && (n.Composite? ==> |r.trace| <= r.step - step)
      && (r.outcome == Cancelled ==> |r.trace| < r.step - step)
      && (r.outcome == Cancelled <==> step < r.step && env.token.IsCancellationRequested(r.step - 1))
      && (step + 2 <= r.step ==> !env.token.IsCancellationRequested(r.step - 2))
    decreases n, 1
  {
    match n
    case Leaf(_) =>
    case Composite(_, g, cs) =>
      if IsOpen(g, env.open) {
        ExecAllCheckPoints(cs, env, step);
      }
  }

  lemma {:induction false} ExecAllCheckPoints(cs: seq<Node>, env: Env, step: nat)
    ensures var r := ExecAll(cs, env, step);
      && step <= r.step
      && |r.trace| <= r.step - step
      && (r.outcome == Cancelled ==> |r.trace| < r.step - step)
      && (r.outcome == Cancelled <==> step < r.step && env.token.IsCancellationRequested(r.step - 1))
      && (step + 2 <= r.step ==> !env.token.IsCancellationRequested(r.step - 2))
    decreases cs, 0
  {
    if cs != [] && !env.token.IsCancellationRequested(step) {
      var first := Exec(cs[0], env, step + 1);
      ExecCheckPoints(cs[0], env, step + 1);
      if first.outcome == Ok {
        var rest := ExecAll(cs[1..], env, first.step);
        ExecAllCheckPoints(cs[1..], env, first.step);
        assert first.step > step + 1 ==> !env.token.IsCancellationRequested(first.step - 1);
      }
    }
  }

  /** Cancelled from check point k on: once the signal is requested no
      further child executes. Starting at or after k, a non-empty sequence
      runs nothing; starting before k, a run that is not cancelled used only
      check points before k, and a cancelled one stopped at check point k
      having started at most one operation per earlier check point. */
  lemma CancellationStopsExecution(cs: seq<Node>, env: Env, step: nat, k: nat)
    requires env.token == CancelledFrom(k)
    ensures k <= step && cs != [] ==> ExecAll(cs, env, step) == Run([], Cancelled, step + 1)
    ensures step <= k && ExecAll(cs, env, step).outcome != Cancelled ==> ExecAll(cs, env, step).step <= k
    ensures step <= k && ExecAll(cs, env, step).outcome == Cancelled ==>
      ExecAll(cs, env, step).step == k + 1 && |ExecAll(cs, env, step).trace| <= k - step
  {
    ExecAllCheckPoints(cs, env, step);
  }

  /** Without a cancellation request an execution is never cancelled. */
  lemma NeverCancelledRunsToEnd(cs: seq<Node>, env: Env, step: nat)
    requires env.token == NeverCancelled
    ensures ExecAll(cs, env, step).outcome != Cancelled
  {
    ExecAllCheckPoints(cs, env, step);
  }

  /** With every gate open the reachable leaves are exactly the dry-run
      order. */
  lemma {:induction false} OpenGatesReachEveryLeaf(n: Node, open: Condition -> bool)
    requires forall c :: open(c)
    ensures Leaves(n, open) == Flatten(n)
    decreases n, 1
  {
    match n
    case Leaf(_) =>
    case Composite(_, _, cs) => OpenGatesReachEveryLeafAll(cs, open);
  }

  lemma {:induction false} OpenGatesReachEveryLeafAll(cs: seq<Node>, open: Condition -> bool)
    requires forall c :: open(c)
    ensures LeavesAll(cs, open) == FlattenAll(cs)
    decreases cs, 0
  {
    if cs != [] {
      OpenGatesReachEveryLeaf(cs[0], open);
      OpenGatesReachEveryLeafAll(cs[1..], open);
    }
  }

  /** An execution that ends normally with every gate open started exactly
      the operations a dry run walks, in the same order. */
  lemma SuccessfulRunMatchesDryRun(n: Node, env: Env, step: nat)
    requires forall c :: env.open(c)
    requires Exec(n, env, step).outcome == Ok
    ensures Exec(n, env, step).trace == Flatten(n)
  {
    ExecFollowsPreOrder(n, env, step);
    OpenGatesReachEveryLeaf(n, env.open);
  }

  /** An empty sequence executes nothing, succeeds, uses no check point and
      is valid. */
  lemma EmptySequence(name: string, g: Gate, env: Env, step: nat, valid: Operation -> bool)
    ensures IsOpen(g, env.open) ==> Exec(Composite(name, g, []), env, step) == Run([], Ok, step)
    ensures IsValid(Composite(name, g, []), valid) == Validation(true, [])
  {
  }
}
