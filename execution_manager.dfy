/** ExecutionSequenceManager: the registry of local and remote sequences of
    a deployment, and the driver that runs them, the remote ones as a
    rolling deployment across the servers behind the load balancer. */
module ExecutionManager {
  import opened Outcomes
  import opened LoadBalancing
  import opened Deployment
  import RolloutProperties

  datatype ConfigError = UnsupportedLoadBalancerMode(mode: LbMode)

  /** The executor strategy for a load-balancer mode (GetLoadBalancer and
      GetDryRunLoadBalancer): Sticky and RoundRobin have one each, any
      other mode is a configuration error. */
  function ExecutorFor(mode: LbMode): (r: Result<ExecutorKind, ConfigError>)
    ensures r.Success? <==> !mode.UnsupportedMode?
    ensures r.Failure? ==> r.error == UnsupportedLoadBalancerMode(mode)
  {
    match mode
    case Sticky => Success(StickyExecutor)
    case RoundRobin => Success(RoundRobinExecutor)
    case UnsupportedMode(_) => Failure(UnsupportedLoadBalancerMode(mode))
  }

  class ExecutionSequenceManager {
    const servers: seq<ServerConfig>
    const loadBalancer: LoadBalancer
    const executor: LoadBalancerExecutor
    var localSequences: seq<LocalSequence>
    var remoteSequences: seq<RemoteSequence>

    /** The executor drives this manager's balancer with the strategy of its
        mode, and every sequence's id is its registration index. */
    ghost predicate Valid()
      reads this
    {
      && executor.loadBalancer == loadBalancer
      && ExecutorFor(loadBalancer.mode) == Success(executor.kind)
      && (forall i :: 0 <= i < |localSequences| ==> localSequences[i].id == i)
      && (forall i :: 0 <= i < |remoteSequences| ==> remoteSequences[i].id == i)
    }

    constructor Make(servers: seq<ServerConfig>, loadBalancer: LoadBalancer, kind: ExecutorKind)
      requires ExecutorFor(loadBalancer.mode) == Success(kind)
      ensures Valid() && fresh(executor)
      ensures this.servers == servers && this.loadBalancer == loadBalancer
      ensures localSequences == [] && remoteSequences == []
    {
      this.servers := servers;
      this.loadBalancer := loadBalancer;
      executor := new LoadBalancerExecutor(kind, loadBalancer);
      localSequences := [];
      remoteSequences := [];
    }

    /** The constructor: it picks the executor for the balancer's mode and
        fails on an unsupported mode. */
    static method Create(servers: seq<ServerConfig>, loadBalancer: LoadBalancer)
      returns (r: Result<ExecutionSequenceManager, ConfigError>)
      ensures r.Failure? <==> loadBalancer.mode.UnsupportedMode?
      ensures r.Failure? ==> r.error == UnsupportedLoadBalancerMode(loadBalancer.mode)
      ensures r.Success? ==>
        && fresh(r.value) && fresh(r.value.executor) && r.value.Valid()
        && r.value.servers == servers && r.value.loadBalancer == loadBalancer
        && r.value.executor.kind == (if loadBalancer.mode == Sticky then StickyExecutor else RoundRobinExecutor)
        && r.value.localSequences == [] && r.value.remoteSequences == []
    {
      var kind := ExecutorFor(loadBalancer.mode);
      if kind.Failure? {
        return Failure(kind.error);
      }
      var m := new ExecutionSequenceManager.Make(servers, loadBalancer, kind.value);
      r := Success(m);
    }

    method NewLocalSequence(name: string) returns (l: LocalSequence)
      requires Valid()
      modifies this`localSequences
      ensures Valid()
      ensures l.name == name && l !in old(localSequences)
      ensures localSequences == old(localSequences) + [l]
    {
      l := LocalSequence(name, |localSequences|);
      localSequences := localSequences + [l];
    }

    /** The parallel flag is accepted and ignored, as in the source. */
    method NewRemoteSequence(name: string, paralell: bool) returns (r: RemoteSequence)
      requires Valid()
      modifies this`remoteSequences
      ensures Valid()
      ensures r.name == name && r !in old(remoteSequences)
      ensures remoteSequences == old(remoteSequences) + [r]
    {
      r := RemoteSequence(name, |remoteSequences|);
      remoteSequences := remoteSequences + [r];
    }

    /** Only the local sequences are validated. */
    function IsValid(valid: LocalSequence -> bool): (r: bool)
      reads this
      ensures r <==> forall i :: 0 <= i < |localSequences| ==> valid(localSequences[i])
    {
      AllLocalsValid(localSequences, valid)
    }

    method ExecuteLocalOperations(env: Env) returns (events: seq<Event>, outcome: Outcome, next: nat)
      ensures Progress(events, outcome, next) == RunLocals(localSequences, env, 0)
    {
      events, outcome, next := [], Ok, 0;
      var i := 0;
      while i < |localSequences|
        invariant 0 <= i <= |localSequences| && next == i
        invariant RunLocals(localSequences, env, 0) ==
          var rest := RunEach(localSequences[i..], LocalEvent, env.localOutcome, env.token, next);
          Progress(events + rest.events, rest.outcome, rest.step)
      {
        assert localSequences[i..][1..] == localSequences[i + 1..];
        if env.token.IsCancellationRequested(next) {
          outcome, next := Cancelled, next + 1;
          return;
        }
        var l := localSequences[i];
        var o := env.localOutcome(l);
        events, next := events + [LocalRan(l)], next + 1;
        if o != Ok {
          outcome := o;
          return;
        }
        i := i + 1;
      }
    }

    method ExecuteRemoteSequences(server: ServerConfig, env: Env, step: nat)
      returns (events: seq<Event>, outcome: Outcome, next: nat)
      ensures Progress(events, outcome, next) == RunRemotes(remoteSequences, server, env, step)
    {
      events, outcome, next := [], Ok, step;
      var i := 0;
      while i < |remoteSequences|
        invariant 0 <= i <= |remoteSequences| && next == step + i
        invariant RunRemotes(remoteSequences, server, env, step) ==
          var rest := RunEach(remoteSequences[i..], RemoteRanOn(server), RemoteOutcomeOn(env, server), env.token, next);
          Progress(events + rest.events, rest.outcome, rest.step)
      {
        assert remoteSequences[i..][1..] == remoteSequences[i + 1..];
        if env.token.IsCancellationRequested(next) {
          outcome, next := Cancelled, next + 1;
          return;
        }
        var r := remoteSequences[i];
        var o := env.remoteOutcome(r, server);
        events, next := events + [RemoteRan(r, server)], next + 1;
        if o != Ok {
          outcome := o;
          return;
        }
        i := i + 1;
      }
    }

    /** One server: offline, its remote sequences unless deployment to it is
        prevented, and back online only when nothing threw and the run does
        not stop after the marked server. */
    method DeployToServer(server: ServerConfig, settings: Settings, env: Env, step: nat)
      returns (events: seq<Event>, outcome: Outcome, next: nat)
      requires Valid()
      modifies server`currentState, loadBalancer`calls
      ensures var d := DeployServer(server, remoteSequences, settings, loadBalancer.refuses, env, old(server.currentState), step);
        events == d.events && outcome == d.outcome && next == d.step && server.currentState == d.state
      ensures loadBalancer.calls == old(loadBalancer.calls) + CallsOf(events)
    {
      ghost var off := Transit(settings.hasLoadBalancerConfig, server, server.currentState, Offline, loadBalancer.refuses);
      ghost var rem := if server.preventDeployment then Progress([], Ok, step)
                       else RunRemotes(remoteSequences, server, env, step);
      ghost var calls0 := loadBalancer.calls;
      var before := |loadBalancer.calls|;
      var ok := executor.BringOffline(server, settings);
      var offCalls := loadBalancer.calls[before..];
      assert offCalls == off.calls && ok == off.ok && server.currentState == off.state;
      events, next := BalancedEvents(server, offCalls), step;
      RolloutProperties.BalancedEventsFacts(server, offCalls);
      if !ok {
        outcome := Failed;
        return;
      }
      var remEvents, remOutcome := [], Ok;
      if !server.preventDeployment {
        remEvents, remOutcome, next := ExecuteRemoteSequences(server, env, step);
      }
      assert Progress(remEvents, remOutcome, next) == rem;
      RolloutProperties.RemoteRunsMakeNoCalls(remoteSequences, server, env, step);
      RolloutProperties.CallsOfConcat(events, remEvents);
      events := events + remEvents;
      assert loadBalancer.calls == calls0 + CallsOf(events);
      if remOutcome != Ok {
        outcome := remOutcome;
        return;
      }
      if settings.options.stopAfterMarkedServer {
        outcome := Ok;
        return;
      }
      ghost var on := Transit(settings.hasLoadBalancerConfig, server, off.state, Online, loadBalancer.refuses);
      ghost var calls1 := loadBalancer.calls;
      before := |loadBalancer.calls|;
      ok := executor.BringOnline(server, settings);
      var onCalls := loadBalancer.calls[before..];
      assert onCalls == on.calls && ok == on.ok && server.currentState == on.state;
      RolloutProperties.BalancedEventsFacts(server, onCalls);
      RolloutProperties.CallsOfConcat(events, BalancedEvents(server, onCalls));
      ConcatAssoc(calls0, CallsOf(events), onCalls);
      events := events + BalancedEvents(server, onCalls);
      outcome := if ok then Ok else Failed;
    }

    /** The next server of a rollout: `total`, the rollout seen from the
        first server, is `prefix` followed by the rollout from `order[i]`;
        after this server it is the longer prefix followed by the rollout
        from `order[i + 1]`, or the longer prefix alone if the server did
        not end Ok. */
    method DeployNext(order: seq<ServerConfig>, i: nat, settings: Settings, env: Env, step: nat,
                      ghost cur: map<ServerConfig, LbState>, ghost prefix: seq<Event>, ghost total: Stage,
                      ghost calls0: seq<LbCall>)
      returns (events: seq<Event>, outcome: Outcome, next: nat, ghost cur': map<ServerConfig, LbState>)
      requires Valid() && i < |order| && Covers(cur, order) && order[i] in settings.servers
      requires forall s :: s in settings.servers ==> s in cur && s.currentState == cur[s]
      requires total == Prepend(prefix, RunServers(order[i..], remoteSequences, settings, loadBalancer.refuses, env, cur, step))
      requires loadBalancer.calls == calls0 + CallsOf(prefix)
      modifies settings.servers`currentState, loadBalancer`calls
      ensures cur'.Keys == cur.Keys && Covers(cur', order)
      ensures forall s :: s in settings.servers ==> s in cur' && s.currentState == cur'[s]
      ensures outcome == Ok ==>
        total == Prepend(prefix + events, RunServers(order[i + 1..], remoteSequences, settings, loadBalancer.refuses, env, cur', next))
      ensures outcome != Ok ==> total == Stage(prefix + events, outcome, next, cur')
      ensures loadBalancer.calls == calls0 + CallsOf(prefix + events)
    {
      var s := order[i];
      assert order[i..][1..] == order[i + 1..];
      events, outcome, next := DeployToServer(s, settings, env, step);
      cur' := cur[s := s.currentState];
      ghost var rest := RunServers(order[i + 1..], remoteSequences, settings, loadBalancer.refuses, env, cur', next);
      ConcatAssoc(prefix, events, rest.events);
      RolloutProperties.CallsOfConcat(prefix, events);
      ConcatAssoc(calls0, CallsOf(prefix), CallsOf(events));
    }

    /** The servers of the order one after the other, until one does not
        end Ok. */
    method RollOut(order: seq<ServerConfig>, settings: Settings, env: Env, step: nat)
      returns (events: seq<Event>, outcome: Outcome, next: nat)
      requires Valid()
      requires forall i :: 0 <= i < |order| ==> order[i] in settings.servers
      modifies settings.servers`currentState, loadBalancer`calls
      ensures var r := RunServers(order, remoteSequences, settings, loadBalancer.refuses, env, old(StatesOf(settings.servers)), step);
        && events == r.events && outcome == r.outcome && next == r.step
        && (forall s :: s in settings.servers ==> s.currentState == r.states[s])
      ensures loadBalancer.calls == old(loadBalancer.calls) + CallsOf(events)
    {
      ghost var cur: map<ServerConfig, LbState> := StatesOf(settings.servers);
      ghost var total := RunServers(order, remoteSequences, settings, loadBalancer.refuses, env, cur, step);
      ghost var calls0 := loadBalancer.calls;
      events, outcome, next := [], Ok, step;
      var i := 0;
      while i < |order|
        invariant 0 <= i <= |order|
        invariant Covers(cur, order)
        invariant forall s :: s in settings.servers ==> s in cur && s.currentState == cur[s]
        invariant total == Prepend(events, RunServers(order[i..], remoteSequences, settings, loadBalancer.refuses, env, cur, next))
        invariant loadBalancer.calls == calls0 + CallsOf(events)
      {
        var evs: seq<Event>, o: Outcome;
        evs, o, next, cur := DeployNext(order, i, settings, env, next, cur, events, total, calls0);
        events := events + evs;
        if o != Ok {
          outcome := o;
          return;
        }
        i := i + 1;
      }
    }

    /** The order of the servers, computed by the executor, which brings
        the marked server online first in the continue-after-marked case;
        `events` are the load-balancer calls that made. */
    method OrderServers(settings: Settings) returns (order: Result<seq<ServerConfig>, OrderError>, events: seq<Event>)
      requires Valid()
      modifies settings.servers`currentState, loadBalancer`calls
      ensures MarkedToResume(settings.servers, settings.options).None? ==>
        && order == ServerOrder(settings.servers, settings.options) && events == []
        && StatesOf(settings.servers) == old(StatesOf(settings.servers))
      ensures MarkedToResume(settings.servers, settings.options).Some? ==>
        var m := MarkedToResume(settings.servers, settings.options).value;
        var t := Transit(settings.hasLoadBalancerConfig, m, old(m.currentState), Online, loadBalancer.refuses);
        && order == (if t.ok then ServerOrder(settings.servers, settings.options) else Failure(ResumeRefused))
        && events == BalancedEvents(m, t.calls)
        && StatesOf(settings.servers) == old(StatesOf(settings.servers))[m := t.state]
      ensures loadBalancer.calls == old(loadBalancer.calls) + CallsOf(events)
    {
      ghost var states0 := StatesOf(settings.servers);
      var resumed := MarkedToResume(settings.servers, settings.options);
      OrderHoldsConfiguredServers(settings.servers, settings.options);
      ghost var t := if resumed.Some?
        then Transit(settings.hasLoadBalancerConfig, resumed.value, resumed.value.currentState, Online, loadBalancer.refuses)
        else Transition([], Online, true);
      var before := |loadBalancer.calls|;
      order := executor.GetServerExecutionOrder(settings);
      var resumeCalls := loadBalancer.calls[before..];
      events := if resumed.Some? then BalancedEvents(resumed.value, resumeCalls) else [];
      if resumed.Some? {
        assert resumeCalls == t.calls;
        RolloutProperties.BalancedEventsFacts(resumed.value, resumeCalls);
        assert StatesOf(settings.servers) == states0[resumed.value := t.state];
      } else {
        assert StatesOf(settings.servers) == states0;
      }
    }

    /** The order of the servers, then the rollout; a failure to compute
        the order fails the phase. */
    method ExecuteRemoteOperations(settings: Settings, env: Env, step: nat)
      returns (events: seq<Event>, outcome: Outcome, next: nat)
      requires Valid()
      modifies settings.servers`currentState, loadBalancer`calls
      ensures var r := RemotePhase(remoteSequences, settings, loadBalancer.refuses, env, old(StatesOf(settings.servers)), step);
        && events == r.events && outcome == r.outcome && next == r.step
        && (forall s :: s in settings.servers ==> s.currentState == r.states[s])
      ensures loadBalancer.calls == old(loadBalancer.calls) + CallsOf(events)
    {
      ghost var calls0 := loadBalancer.calls;
      OrderHoldsConfiguredServers(settings.servers, settings.options);
      var order;
      order, events := OrderServers(settings);
      next := step;
      if order.Failure? {
        outcome := Failed;
        return;
      }
      var rolled;
      rolled, outcome, next := RollOut(order.value, settings, env, step);
      RolloutProperties.CallsOfConcat(events, rolled);
      ConcatAssoc(calls0, CallsOf(events), CallsOf(rolled));
      events := events + rolled;
    }

    method Execute(settings: Settings, env: Env) returns (events: seq<Event>, outcome: Outcome)
      requires Valid()
      modifies settings.servers`currentState, loadBalancer`calls
      ensures var r := RunAll(localSequences, remoteSequences, settings, loadBalancer.refuses, env, old(StatesOf(settings.servers)));
        && events == r.events && outcome == r.outcome
        && (forall s :: s in settings.servers ==> s.currentState == r.states[s])
      ensures loadBalancer.calls == old(loadBalancer.calls) + CallsOf(events)
    {
      ghost var calls0 := loadBalancer.calls;
      var localEvents, next;
      localEvents, outcome, next := ExecuteLocalOperations(env);
      RolloutProperties.LocalRunsMakeNoCalls(localSequences, env, 0);
      events := localEvents;
      if outcome != Ok {
        assert loadBalancer.calls == calls0 + [];
        return;
      }
      var remoteEvents;
      remoteEvents, outcome, next := ExecuteRemoteOperations(settings, env, next);
      RolloutProperties.CallsOfConcat(localEvents, remoteEvents);
      assert CallsOf(localEvents) + CallsOf(remoteEvents) == CallsOf(remoteEvents);
      events := localEvents + remoteEvents;
    }

    method DryRunLocals() returns (events: seq<Event>)
      ensures events == DryLocals(localSequences)
    {
      events := [];
      var i := 0;
      while i < |localSequences|
        invariant 0 <= i <= |localSequences|
        invariant events == DryLocals(localSequences[..i])
      {
        assert localSequences[..i + 1] == localSequences[..i] + [localSequences[i]];
        events := events + [LocalRan(localSequences[i])];
        i := i + 1;
      }
      assert localSequences[..i] == localSequences;
    }

    method DryRunRemotes(server: ServerConfig) returns (events: seq<Event>)
      ensures events == DryRemotes(remoteSequences, server)
    {
      events := [];
      var i := 0;
      while i < |remoteSequences|
        invariant 0 <= i <= |remoteSequences|
        invariant events == DryRemotes(remoteSequences[..i], server)
      {
        assert remoteSequences[..i + 1] == remoteSequences[..i] + [remoteSequences[i]];
        events := events + [RemoteRan(remoteSequences[i], server)];
        i := i + 1;
      }
      assert remoteSequences[..i] == remoteSequences;
    }

    /** The next server of a dry run, through `dry`, whose balancer accepts
        every call: `total`, the dry run of the servers seen from the first,
        is `prefix` followed by the dry run from `servers[i]`, and after
        this server the longer prefix followed by the dry run from
        `servers[i + 1]`. */
    method DryNext(dry: LoadBalancerExecutor, settings: Settings, i: nat,
                   ghost cur: map<ServerConfig, LbState>, ghost prefix: seq<Event>, ghost total: Plan)
      returns (events: seq<Event>, ghost cur': map<ServerConfig, LbState>)
      requires dry.loadBalancer.refuses == Accepting && i < |servers| && Covers(cur, servers)
      requires forall s :: s in servers ==> s in cur && s.currentState == cur[s]
      requires total == var rest := DryServers(servers[i..], remoteSequences, settings.hasLoadBalancerConfig, cur);
        Plan(prefix + rest.events, rest.states)
      modifies servers`currentState, dry.loadBalancer`calls
      ensures cur'.Keys == cur.Keys && Covers(cur', servers)
      ensures forall s :: s in servers ==> s in cur' && s.currentState == cur'[s]
      ensures total == var rest := DryServers(servers[i + 1..], remoteSequences, settings.hasLoadBalancerConfig, cur');
        Plan(prefix + events + rest.events, rest.states)
    {
      assert servers[i..][1..] == servers[i + 1..];
      var s := servers[i];
      var lb := dry.loadBalancer;
      var before := |lb.calls|;
      var ok := dry.BringOffline(s, settings);
      var offCalls := lb.calls[before..];
      var remotes := DryRunRemotes(s);
      before := |lb.calls|;
      ok := dry.BringOnline(s, settings);
      var onCalls := lb.calls[before..];
      cur' := cur[s := s.currentState];
      events := BalancedEvents(s, offCalls) + remotes + BalancedEvents(s, onCalls);
      ghost var rest := DryServers(servers[i + 1..], remoteSequences, settings.hasLoadBalancerConfig, cur');
      ConcatAssoc(prefix, events, rest.events);
    }

    /** Every configured server of this manager, in order, through `dry`,
        whose balancer accepts every call. */
    method DryRunServers(dry: LoadBalancerExecutor, settings: Settings) returns (listed: seq<Event>)
      requires dry.loadBalancer.refuses == Accepting
      modifies servers`currentState, dry.loadBalancer`calls
      ensures var p := DryServers(servers, remoteSequences, settings.hasLoadBalancerConfig, old(StatesOf(servers)));
        && listed == p.events
        && (forall s :: s in servers ==> s.currentState == p.states[s])
    {
      ghost var cur: map<ServerConfig, LbState> := StatesOf(servers);
      ghost var total := DryServers(servers, remoteSequences, settings.hasLoadBalancerConfig, cur);
      listed := [];
      var i := 0;
      while i < |servers|
        invariant 0 <= i <= |servers|
        invariant Covers(cur, servers)
        invariant forall s :: s in servers ==> s in cur && s.currentState == cur[s]
        invariant total == var rest := DryServers(servers[i..], remoteSequences, settings.hasLoadBalancerConfig, cur);
          Plan(listed + rest.events, rest.states)
      {
        var events;
        events, cur := DryNext(dry, settings, i, cur, listed, total);
        listed := listed + events;
        i := i + 1;
      }
      assert servers[i..] == [];
    }

    /** The dry run: every local sequence, then every configured server of
        this manager through a fresh balancer that accepts every call, so
        the real balancer receives nothing; the servers' states are updated
        as in a run. */
    method DryRun(settings: Settings) returns (plan: seq<Event>)
      requires Valid()
      modifies servers`currentState
      ensures var p := DryRunPlan(localSequences, remoteSequences, servers, settings.hasLoadBalancerConfig,
                                  old(StatesOf(servers)));
        && plan == p.events
        && (forall s :: s in servers ==> s.currentState == p.states[s])
      ensures loadBalancer.calls == old(loadBalancer.calls)
    {
      plan := DryRunLocals();
      var lb := new LoadBalancer.Default();
      var dry := new LoadBalancerExecutor(executor.kind, lb);
      var listed := DryRunServers(dry, settings);
      plan := plan + listed;
    }
  }

  function AllLocalsValid(locals: seq<LocalSequence>, valid: LocalSequence -> bool): (r: bool)
    ensures r <==> forall i :: 0 <= i < |locals| ==> valid(locals[i])
  {
    if locals == [] then true
    else valid(locals[0]) && AllLocalsValid(locals[1..], valid)
  }
}
