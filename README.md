# ConDep execution core in Dafny

This project models the execution-sequencing engine of ConDep, a
rolling-deployment orchestrator, and proves what it guarantees. It covers
three parts:

- **Composite sequences** (`CompositeSequence`). A composite is an ordered,
  nestable list of operations.
  - Operations are appended or put first.
  - Builders append a nested (possibly conditional) composite and return it
    for further population.
  - Execution walks the children in order, checking the cancellation token
    before each one.
  - A dry run walks every child.
  - Validation is a short-circuiting conjunction.
- **The load-balancer executor strategy** (`LoadBalancerExecutorBase`):
  - the server execution order of a run: stop after the marked server,
    continue after the marked server, or the whole fleet;
  - the Online/Offline state machine that suspends and resumes one server in
    the external load balancer.
- **The execution manager** (`ExecutionSequenceManager`):
  - registers local and remote sequences and picks the executor strategy from
    the load-balancer mode;
  - runs the local phase, then the rolling deployment. Each server in order is
    taken out of rotation, gets every remote sequence (unless deployment to it
    is prevented), and is put back unless the run stops after the marked
    server or something failed. The first failure ends the run;
  - runs the dry-run walk over every configured server.

Files:

- `outcomes.dfy`: outcomes (Ok, Failed, Cancelled), the cancellation token,
  and Option and Result.
- `sequence_tree.dfy`: the value semantics of a composite. It holds the tree,
  execution as a trace of the operations started, the dry-run walk,
  validation, and the lemmas about them.
- `composite_sequence.dfy`: the mutable builder, class `CompositeSequences`.
  Every composite object is an entry of one store and is addressed by a
  handle. A builder's returned handle is the returned object reference, so
  later `Add`s through it show up nested in the parent.
- `load_balancing.dfy`:
  - server objects whose `currentState` is updated in place;
  - the external balancer as an append-only log of suspend and resume calls;
  - the ordering rule and the state machine;
  - the executor class.
- `deployment.dfy`: a run of the manager as pure functions over values. Every
  step is an event on one timeline: a local sequence ran, a remote sequence
  ran on a server, or a load-balancer call was made for a server.
- `rollout_properties.dfy`: what such a run guarantees, proved about those
  functions.
- `execution_manager.dfy`: the manager class, whose loops are proved equal to
  the functions of `deployment.dfy`.

Exceptions are modelled as outcomes:

- A thrown cancellation is `Cancelled`.
- A failing sequence is `Failed`, or whatever outcome the oracle gives.
- A refused load-balancer call is `Failed`.
- An unsupported mode or an order that cannot be computed is a `Failure` value.

The cancellation token is "cancelled from check point k on". Check points are
numbered in the order a run reaches them.

Where the code differs from the documented intent of the system, the model
follows the code:

- **No cancellation check before each server.** The documented intent is a
  cancellation check before each server's deployment. In the code the only checks are the one
  before each local sequence and the one before each remote sequence. A server
  whose deployment is prevented, or a run with no remote sequences, passes no
  check point.
- **Refused suspend call.** The documented intent is that a server whose
  deployment fails is left offline. When the suspend call itself is refused,
  the server is not left offline. Its state is set
  only after the call returns, so it stays Online. `DeployState` states this.
- **Dry-run state.** The documented intent is that a dry run changes nothing.
  Here it does not leave server states untouched. This follows from the
  modelling assumption under "Left out" that the Sticky and RoundRobin
  strategies delegate to the protected `BringOffline`/`BringOnline` of their
  base class, which update `currentState`. Only the external balancer is
  replaced by one that does nothing.
- **Dry-run balancer configuration.** The documented intent is that the dry
  run always uses a balancer that does nothing. In the code the dry run honours the absence of a
  load-balancer configuration like a real run.
- **Both options set.** The documented intent names no precedence between
  the two options. With both `StopAfterMarkedServer` and
  `ContinueAfterMarkedServer` set, the stop branch wins and nothing is brought
  online first. `StopAfterMarkedOrder` states this.

## Model

| member | source | states |
|---|---|---|
| SequenceTree.IsValid | src/ConDep.Execution/Sequence/CompositeSequence.cs:80-83 | Validation consults the operations in pre-order. It stops at the first invalid one, or consults all of them. The verdict is true iff every operation of the tree is valid. |
| SequenceTree.ExecFollowsPreOrder | src/ConDep.Execution/Sequence/CompositeSequence.cs:37-46 | The operations an execution starts are a prefix of the tree's pre-order leaves behind open gates. They are all of them when it ends Ok, so nested leaves run before the parent's next sibling. |
| SequenceTree.ExecStopsAtFirstFailure | src/ConDep.Execution/Sequence/CompositeSequence.cs:37-46 | An execution fails iff the last operation it started failed. Every operation started before it succeeded, so nothing runs after a failure. |
| SequenceTree.ExecCheckPoints | src/ConDep.Execution/Sequence/CompositeSequence.cs:39 | Check points are consecutive, with at most one operation started per check point. A run is cancelled iff its last check point found cancellation requested and every earlier one did not. |
| SequenceTree.CancellationStopsExecution | src/ConDep.Execution/Sequence/CompositeSequence.cs:39 | With the token cancelled from check point k, a non-empty sequence started at or after k starts nothing and ends Cancelled. One started before k either ends by check point k without being cancelled, or is cancelled exactly at k, having started at most one operation per earlier check point. |
| SequenceTree.NeverCancelledRunsToEnd | src/ConDep.Execution/Sequence/CompositeSequence.cs:39 | Without a cancellation request an execution is never Cancelled. |
| SequenceTree.OpenGatesReachEveryLeaf | src/ConDep.Execution/Sequence/CompositeSequence.cs:42-45 | With every gate open, the leaves execution can reach are exactly the dry-run walk of the tree. |
| SequenceTree.SuccessfulRunMatchesDryRun | src/ConDep.Execution/Sequence/CompositeSequence.cs:33-78 | An execution that ends Ok with every gate open started exactly the operations the dry run walks, in the same order. |
| SequenceTree.EmptySequence | src/ConDep.Execution/Sequence/CompositeSequence.cs:37-82 | An empty composite executes nothing, succeeds, uses no check point, and is valid without consulting anything. |
| Composites.Name | src/ConDep.Execution/Sequence/CompositeSequence.cs:85 | The name a composite reports is the name of its tree, the one execution and the dry run see. |
| Composites.NameIsFixed | src/ConDep.Execution/Sequence/CompositeSequence.cs:13-19 | The name is set at creation. Neither Add nor a builder changes the name of any existing composite. |
| Composites.AddedTree | src/ConDep.Execution/Sequence/CompositeSequence.cs:21-31 | Add puts exactly one new leaf first (addFirst) or last. The other children keep their order, and nothing is deduplicated. |
| Composites.AddedIsWellFormed | src/ConDep.Execution/Sequence/CompositeSequence.cs:21-31 | Add keeps the store a strict forest: references point forward and no composite is shared. |
| Composites.WithNestedIsWellFormed | src/ConDep.Execution/Sequence/CompositeSequence.cs:51-70 | A builder appends exactly one new, empty composite as the parent's last child. The earlier children are unchanged, and the store stays a strict forest. |
| Composites.AddAppearsNested | src/ConDep.Execution/Sequence/CompositeSequence.cs:51-56 | An Add through a builder's returned composite changes the parent's tree at that child's position and nowhere else. |
| Composites.CompositeSequences.NewSequence | src/ConDep.Execution/Sequence/CompositeSequence.cs:16-19 | A new composite is named as given, unconditional and empty. No existing tree changes. |
| Composites.CompositeSequences.Add | src/ConDep.Execution/Sequence/CompositeSequence.cs:21-31 | The store becomes `Added(old, h, op, addFirst)`. The composite's tree gains the leaf first or last, and the forest invariant is kept. |
| Composites.CompositeSequences.NewCompositeSequence | src/ConDep.Execution/Sequence/CompositeSequence.cs:51-56 | Returns a fresh handle to an empty unconditional composite named after the operation. That composite is appended as the parent's last child. |
| Composites.CompositeSequences.NewConditionalCompositeSequence | src/ConDep.Execution/Sequence/CompositeSequence.cs:58-70 | Both overloads append one conditional composite that carries the parent's own name and the given gate, and return its handle. |
| Composites.CompositeSequences.Execute | src/ConDep.Execution/Sequence/CompositeSequence.cs:33-49 | The loop, including nested composites, gives exactly `Exec` of the composite's tree: the same trace, outcome and check points. |
| Composites.CompositeSequences.DryRun | src/ConDep.Execution/Sequence/CompositeSequence.cs:72-78 | The dry run lists the tree's operations in pre-order. |
| Composites.CompositeSequences.IsValid | src/ConDep.Execution/Sequence/CompositeSequence.cs:80-83 | True iff every operation of the composite, nested ones included, is valid. |
| LoadBalancing.SelectMarked | src/ConDep.Execution/Sequence/LoadBalancerExecutorBase.cs:20-25 | Returns the single marked server, or the first server when none is marked. It fails iff more than one server is marked or the list is empty. |
| LoadBalancing.Except | src/ConDep.Execution/Sequence/LoadBalancerExecutorBase.cs:28 | Keeps exactly the servers not excluded, each once, drawn from the input. |
| LoadBalancing.ExceptOfDistinct | src/ConDep.Execution/Sequence/LoadBalancerExecutorBase.cs:28 | Over a list of distinct servers, excluding one of them removes exactly that position and keeps the order of the rest. |
| LoadBalancing.StopAfterMarkedOrder | src/ConDep.Execution/Sequence/LoadBalancerExecutorBase.cs:18-21 | With stop-after-marked, the order is the marked server, or the first server, alone. Continue-after-marked is then ignored, and nothing is brought online. |
| LoadBalancing.ContinueAfterMarkedOrder | src/ConDep.Execution/Sequence/LoadBalancerExecutorBase.cs:23-29 | Continue-after-marked resumes the marked server, or the first. The order is every other server in configuration order, which is empty for a one-server fleet. |
| LoadBalancing.OrderFailures | src/ConDep.Execution/Sequence/LoadBalancerExecutorBase.cs:15-32 | The order fails iff an option is set and there are several marked servers or none at all. With no option set, the order is the configured list. |
| LoadBalancing.OrderHoldsConfiguredServers | src/ConDep.Execution/Sequence/LoadBalancerExecutorBase.cs:15-32 | The order holds configured servers only. Whenever a server is to be resumed first, the order can be computed. |
| LoadBalancing.OrderIsDistinctSubset | src/ConDep.Execution/Sequence/LoadBalancerExecutorBase.cs:15-32 | Over distinct servers, the order lists each configured server at most once and never the resumed one. |
| LoadBalancing.Transit | src/ConDep.Execution/Sequence/LoadBalancerExecutorBase.cs:34-57 | A transition makes no call iff there is no configuration or the server is already in the target state. Otherwise it makes exactly one call. The state changes only when that call returns. |
| LoadBalancing.TransitIdempotent | src/ConDep.Execution/Sequence/LoadBalancerExecutorBase.cs:34-57 | Repeating a transition that returned makes no call and changes nothing, so two consecutive calls make at most one external call. |
| LoadBalancing.OfflineThenOnline | src/ConDep.Execution/Sequence/LoadBalancerExecutorBase.cs:34-57 | With a configuration and an accepting balancer, offline then online takes an Online server round the state machine with exactly one suspend and then one resume. |
| LoadBalancing.LoadBalancer.BringOffline | src/ConDep.Execution/Sequence/LoadBalancerExecutorBase.cs:41 | The balancer logs one suspend call with the server's name, its farm and the Suspend method. It returns normally iff it does not refuse that call. |
| LoadBalancing.LoadBalancer.BringOnline | src/ConDep.Execution/Sequence/LoadBalancerExecutorBase.cs:53 | The balancer logs one resume call with the server's name and farm. It returns normally iff it does not refuse that call. |
| LoadBalancing.LoadBalancer.Default | src/ConDep.Execution/Sequence/ExecutionSequenceManager.cs:170-172 | A default balancer is built without arguments, starts with an empty log, and refuses nothing. Its mode is left unspecified; the dry-run strategy takes its kind from the real balancer's mode. |
| LoadBalancing.LoadBalancerExecutor.BringOfflineWith | src/ConDep.Execution/Sequence/LoadBalancerExecutorBase.cs:34-45 | The server's new state, the result and the calls logged are those of `Transit` to Offline. |
| LoadBalancing.LoadBalancerExecutor.BringOnlineWith | src/ConDep.Execution/Sequence/LoadBalancerExecutorBase.cs:46-57 | The server's new state, the result and the calls logged are those of `Transit` to Online. |
| LoadBalancing.LoadBalancerExecutor.BringOffline | src/ConDep.Execution/Sequence/LoadBalancerExecutorBase.cs:12 | The strategy's BringOffline is the protected one applied to its own balancer. |
| LoadBalancing.LoadBalancerExecutor.BringOnline | src/ConDep.Execution/Sequence/LoadBalancerExecutorBase.cs:13 | The strategy's BringOnline is the protected one applied to its own balancer. |
| LoadBalancing.LoadBalancerExecutor.GetServerExecutionOrder | src/ConDep.Execution/Sequence/LoadBalancerExecutorBase.cs:15-32 | Returns `ServerOrder`, without touching any server or the balancer, unless a server is to be resumed. In that case only that server's state changes, by one online transition, and a refused resume fails the order. |
| ExecutionManager.ExecutorFor | src/ConDep.Execution/Sequence/ExecutionSequenceManager.cs:153-162 | Sticky and RoundRobin each get an executor strategy. Any other mode is a configuration error naming that mode. |
| ExecutionManager.AllLocalsValid | src/ConDep.Execution/Sequence/ExecutionSequenceManager.cs:115 | True iff every local sequence is valid. |
| ExecutionManager.ExecutionSequenceManager.Make | src/ConDep.Execution/Sequence/ExecutionSequenceManager.cs:28-33 | A new manager keeps the servers and the balancer, holds a fresh strategy for the balancer's mode, and has no sequences. |
| ExecutionManager.ExecutionSequenceManager.Create | src/ConDep.Execution/Sequence/ExecutionSequenceManager.cs:146-163 | Construction fails iff the mode is unsupported. Otherwise the manager's strategy is Sticky's or RoundRobin's as the mode says. |
| ExecutionManager.ExecutionSequenceManager.NewLocalSequence | src/ConDep.Execution/Sequence/ExecutionSequenceManager.cs:35-40 | Appends exactly one new local sequence with the given name. The remote list is untouched. |
| ExecutionManager.ExecutionSequenceManager.NewRemoteSequence | src/ConDep.Execution/Sequence/ExecutionSequenceManager.cs:42-47 | Appends exactly one new remote sequence with the given name, whatever the parallel flag. The local list is untouched. |
| ExecutionManager.ExecutionSequenceManager.IsValid | src/ConDep.Execution/Sequence/ExecutionSequenceManager.cs:113-116 | True iff every local sequence is valid. Remote sequences are not consulted. |
| ExecutionManager.ExecutionSequenceManager.ExecuteLocalOperations | src/ConDep.Execution/Sequence/ExecutionSequenceManager.cs:55-67 | The loop gives exactly `RunLocals`: a check point before each local sequence, stopping at the first that is cancelled or does not end Ok. |
| ExecutionManager.ExecutionSequenceManager.ExecuteRemoteSequences | src/ConDep.Execution/Sequence/ExecutionSequenceManager.cs:86-93 | The loop gives exactly `RunRemotes` for the server. |
| ExecutionManager.ExecutionSequenceManager.DeployToServer | src/ConDep.Execution/Sequence/ExecutionSequenceManager.cs:81-107 | One server's try/catch/finally gives exactly `DeployServer`. The server's new state is that of `DeployServer`, and the balancer log grows by exactly the calls on the timeline. |
| ExecutionManager.ExecutionSequenceManager.DeployNext | src/ConDep.Execution/Sequence/ExecutionSequenceManager.cs:76-109 | One iteration of the server loop advances the rollout by one server, or ends it with that server's outcome, keeping heap states and the call log in step with the timeline. |
| ExecutionManager.ExecutionSequenceManager.RollOut | src/ConDep.Execution/Sequence/ExecutionSequenceManager.cs:76-109 | The server loop gives exactly `RunServers` from the servers' current states: the same events, outcome, check points and final states. The log grows by the timeline's calls. |
| ExecutionManager.ExecutionSequenceManager.OrderServers | src/ConDep.Execution/Sequence/ExecutionSequenceManager.cs:73 | The order and the resume calls made before the rollout, with the one server state they change. |
| ExecutionManager.ExecutionSequenceManager.ExecuteRemoteOperations | src/ConDep.Execution/Sequence/ExecutionSequenceManager.cs:69-111 | The remote phase gives exactly `RemotePhase`, states and call log included. |
| ExecutionManager.ExecutionSequenceManager.Execute | src/ConDep.Execution/Sequence/ExecutionSequenceManager.cs:49-53 | A run gives exactly `RunAll`: the events, the outcome and every server's final state. The real balancer receives exactly the timeline's calls. |
| ExecutionManager.ExecutionSequenceManager.DryRunLocals | src/ConDep.Execution/Sequence/ExecutionSequenceManager.cs:120-126 | Lists every local sequence in registration order. |
| ExecutionManager.ExecutionSequenceManager.DryRunRemotes | src/ConDep.Execution/Sequence/ExecutionSequenceManager.cs:136-139 | Lists every remote sequence on the server, in registration order. |
| ExecutionManager.ExecutionSequenceManager.DryNext | src/ConDep.Execution/Sequence/ExecutionSequenceManager.cs:133-141 | One server of the dry run: offline, every remote sequence, online, advancing `DryServers` by one server. |
| ExecutionManager.ExecutionSequenceManager.DryRunServers | src/ConDep.Execution/Sequence/ExecutionSequenceManager.cs:129-143 | Every configured server in configuration order, not the computed order, through an accepting balancer. This is exactly `DryServers`, states included. |
| ExecutionManager.ExecutionSequenceManager.DryRun | src/ConDep.Execution/Sequence/ExecutionSequenceManager.cs:118-144 | The dry run lists exactly `DryRunPlan` and leaves the servers in its states. The real balancer's log is unchanged. |
| RolloutProperties.RunEachInOrder | src/ConDep.Execution/Sequence/ExecutionSequenceManager.cs:59-65 | The check-then-run loop runs a prefix of the items in order, every item before the last having ended Ok. It ends Ok only after all of them, and a failure is the last item's. |
| RolloutProperties.RunEachCheckPoints | src/ConDep.Execution/Sequence/ExecutionSequenceManager.cs:61 | The loop passes one check point per item it runs, all of them uncancelled, and at most one more: the check point that found it cancelled, which ends the loop Cancelled. |
| RolloutProperties.RemoteEvents | src/ConDep.Execution/Sequence/ExecutionSequenceManager.cs:86-93 | One server's remote phase runs that server's remote sequences only, in registration order, and makes no balancer call. |
| RolloutProperties.DeployOrder | src/ConDep.Execution/Sequence/ExecutionSequenceManager.cs:81-107 | A server's timeline concerns that server only and runs no local sequence. Its phases are in order: suspend calls, then remote sequences, then resume calls. |
| RolloutProperties.DeployRuns | src/ConDep.Execution/Sequence/ExecutionSequenceManager.cs:84-93 | A server whose deployment is prevented runs no sequence. One that ends Ok ran every remote sequence. Its check points were all passed. |
| RolloutProperties.DeployState | src/ConDep.Execution/Sequence/ExecutionSequenceManager.cs:96-106 | The resume call is made iff there is a configuration, the server went offline, its sequences ended Ok or were prevented, and the run does not stop after the marked server. The lemma also gives the state each outcome leaves the server in, and says that without a configuration there are no calls and no state change. |
| RolloutProperties.RolloutFrame | src/ConDep.Execution/Sequence/ExecutionSequenceManager.cs:76-109 | A rollout touches only servers of its order and leaves every other state unchanged. It passes one check point per sequence run. Without a configuration it makes no call and changes no state. |
| RolloutProperties.RolloutStopsAtFirstFailure | src/ConDep.Execution/Sequence/ExecutionSequenceManager.cs:76-109 | A rollout that does not end Ok stopped at a server k, and k is the first server that did not end Ok: the rollout of the servers before it ended Ok, and k's own deployment gives the rollout's outcome. Every server before k ran every remote sequence (unless its deployment is prevented) and, under a configuration, is back Online (Offline when the run stops after the marked server), unless it is server k itself. Server k stays out of rotation, unless taking it out is what failed. Nothing after k is touched or changed. |
| RolloutProperties.RolloutCompletes | src/ConDep.Execution/Sequence/ExecutionSequenceManager.cs:76-109 | A rollout that ends Ok ran every remote sequence on every server not prevented. Every server of the order ends Online, or Offline when the run stops after the marked server. |
| RolloutProperties.ResumeThenRollout | src/ConDep.Execution/Sequence/ExecutionSequenceManager.cs:73-76 | Resuming the marked server first and then rolling out touches configured servers only, runs no local sequence and passes its check points. Without a configuration it makes no call. |
| RolloutProperties.RemotePhaseFrame | src/ConDep.Execution/Sequence/ExecutionSequenceManager.cs:69-111 | An order that cannot be computed fails the phase before anything is touched. Otherwise only configured servers are touched and no local sequence runs. Without a configuration no call is made and no state changes. |
| RolloutProperties.LocalsBeforeRemotes | src/ConDep.Execution/Sequence/ExecutionSequenceManager.cs:49-53 | The local sequences run in registration order before any server event. A local phase that does not end Ok ends the run with no call and no state change. |
| RolloutProperties.RunAllBounds | src/ConDep.Execution/Sequence/ExecutionSequenceManager.cs:55-93 | Every check point before a started sequence was passed. At most one more check point is reached, and if it is, it found cancellation requested and the run ends Cancelled. With the token cancelled from check point k, at most k sequences start, and a run that reaches check point k ends Cancelled there. A run touches configured servers only. Without a configuration it makes no call and changes no state. |
| RolloutProperties.DeployMatchesDryRun | src/ConDep.Execution/Sequence/ExecutionSequenceManager.cs:133-141 | When nothing is refused, prevented, failed or cancelled, one server's deployment is exactly its dry-run entry. |
| RolloutProperties.RolloutMatchesDryRun | src/ConDep.Execution/Sequence/ExecutionSequenceManager.cs:129-143 | Under the same conditions, a rollout over a list of servers is exactly the dry run over it, states included. |
| RolloutProperties.DryRunMatchesExecution | src/ConDep.Execution/Sequence/ExecutionSequenceManager.cs:118-144 | With no option set and nothing refused, prevented, failed or cancelled, Execute makes exactly the dry run's steps in order and leaves the same states. |

## Left out

- Logging and its section nesting, the status reporter, and all message text, including `DryRunBringOnline`/`DryRunBringOffline`. They only render output.
- RelayApiLogger.cs is not part of this model. It is file logging.
- LoadBalancerLookup.cs is not part of this model. It loads a balancer by reflection.
- The Sticky and RoundRobin executors and the concrete balancers are not part of this model. The abstract `BringOffline`/`BringOnline` are modelled as the protected base operations applied to the strategy's own balancer. The balancer's answer to each call is an oracle (`refuses`).
- Leaf operations, local and remote sequences, and the gate of a conditional composite (a server predicate or a script) are not part of this model. Their outcomes, their validity and whether a gate is open are oracles passed in.
- The oracles (`SequenceTree.Env.fails`, `Deployment.Env.localOutcome` and `Deployment.Env.remoteOutcome`, the balancer's `refuses`) are keyed by value, not by object identity or by time. The same operation added twice, the same sequence registered twice, or the same balancer call made twice always gets the same answer.
- The cancellation token is not modelled as a threading primitive. It is a value saying from which check point on cancellation is requested.
- Concurrency and the `paralell` flag are left out. The flag has no effect in the source.
- `PreventDeployment` is a fixed field of each server. Whatever sets it in the external balancer is not part of this model.
- The `Notification` collected by validation is left out. Only the boolean verdict is modelled.
- Exceptions are left out as a mechanism. Each is modelled as the outcome it ends the run with, and which exception type was thrown is not kept.
- Composites.CompositeSequences: a composite is addressed by a handle into one store rather than by an object reference. Adding an existing composite through `Add` (CompositeSequence.cs:21-31 accepts any `IExecuteRemotely`) is not modelled: it would share one composite under two parents, or make a cycle on which execution, the dry run and validation do not terminate. Only the builders nest composites here, and the store keeps "no sharing, references forward" as an invariant.
- ExecutionManager.ExecutionSequenceManager.DryRun: the dry-run strategy's own balancer is a fresh `Default` balancer. Its call log is not returned, only the real balancer's log is shown to be untouched.
