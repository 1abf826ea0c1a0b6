/** The load-balancer executor strategy of LoadBalancerExecutorBase.cs: which
    servers a run deploys to and in what order, and the Online/Offline state
    machine of one server against the external load balancer. */
module LoadBalancing {
  import opened Outcomes

  datatype LbState = Online | Offline

  /** The suspend method passed to the balancer; the strategy always uses
      a plain suspend. */
  datatype SuspendMethod = Suspend

  /** One call made to the external load balancer. */
  datatype LbCall =
    | SuspendCall(server: string, farm: string, suspendMethod: SuspendMethod)
    | ResumeCall(server: string, farm: string)

  /** The configured load-balancer mode; an enum value other than the two
      supported ones is representable and is a configuration error. */
  datatype LbMode = Sticky | RoundRobin | UnsupportedMode(code: int)

  /** One fleet member. Its name, farm, marker and deployment guard come
      from configuration; its load-balancer state is updated in place by the
      strategy. */
  class ServerConfig {
    const name: string
    const loadBalancerFarm: string
    const stopServer: bool
    const preventDeployment: bool
    var currentState: LbState

    /** Servers are assumed live before a run starts. */
    constructor (name: string, loadBalancerFarm: string, stopServer: bool, preventDeployment: bool)
      ensures this.name == name && this.loadBalancerFarm == loadBalancerFarm && this.stopServer == stopServer
      ensures currentState == Online && this.preventDeployment == preventDeployment
    {
      this.name := name;
      this.loadBalancerFarm := loadBalancerFarm;
      this.stopServer := stopServer;
      this.preventDeployment := preventDeployment;
      currentState := Online;
    }
  }

  /** The behaviour of a balancer that refuses no call. */
  const Accepting: LbCall -> bool := (c: LbCall) => false

  /** The external load balancer (ILoadBalance): an append-only log of the
      calls it received, and which calls it refuses (a refused call throws). */
  class LoadBalancer {
    const mode: LbMode
    const refuses: LbCall -> bool
    var calls: seq<LbCall>

    constructor (mode: LbMode, refuses: LbCall -> bool)
      ensures this.mode == mode && this.refuses == refuses && calls == []
    {
      this.mode := mode;
      this.refuses := refuses;
      calls := [];
    }

    /** DefaultLoadBalancer: accepts every call and does nothing else. It is
        built without arguments; its mode is left unspecified, since no one
        reads it. */
    constructor Default()
      ensures calls == [] && refuses == Accepting
    {
      refuses := Accepting;
      calls := [];
    }

    method BringOffline(serverName: string, farm: string, suspendMethod: SuspendMethod) returns (ok: bool)
      modifies this`calls
      ensures calls == old(calls) + [SuspendCall(serverName, farm, suspendMethod)]
      ensures ok == !refuses(SuspendCall(serverName, farm, suspendMethod))
    {
      calls := calls + [SuspendCall(serverName, farm, suspendMethod)];
      ok := !refuses(SuspendCall(serverName, farm, suspendMethod));
    }

    method BringOnline(serverName: string, farm: string) returns (ok: bool)
      modifies this`calls
      ensures calls == old(calls) + [ResumeCall(serverName, farm)]
      ensures ok == !refuses(ResumeCall(serverName, farm))
    {
      calls := calls + [ResumeCall(serverName, farm)];
      ok := !refuses(ResumeCall(serverName, farm));
    }
  }

  datatype RunOptions = RunOptions(stopAfterMarkedServer: bool, continueAfterMarkedServer: bool)

  /** The per-run settings: the configured servers in order, whether a
      load-balancer configuration is present, and the run options. */
  datatype Settings = Settings(servers: seq<ServerConfig>, hasLoadBalancerConfig: bool, options: RunOptions)

  predicate Distinct<T(==)>(s: seq<T>) {
    forall i, j :: 0 <= i < j < |s| ==> s[i] != s[j]
  }

  // ---------------------------------------------------------------------
  // Server execution order

  /** The servers marked `StopServer`, in configuration order (a server
      listed twice counts twice). */
  function Marked(servers: seq<ServerConfig>): (r: seq<ServerConfig>)
    ensures forall i :: 0 <= i < |r| ==> r[i] in servers && r[i].stopServer
    ensures forall i :: 0 <= i < |servers| && servers[i].stopServer ==> servers[i] in r
  {
    if servers == [] then []
    else (if servers[0].stopServer then [servers[0]] else []) + Marked(servers[1..])
  }

  datatype OrderError = MoreThanOneMarked | NoServers | ResumeRefused

  /** `SingleOrDefault(x => x.StopServer) ?? First()`: the marked server,
      or the first server when none is marked; more than one marked server
      and an empty list both throw. */
  function SelectMarked(servers: seq<ServerConfig>): (r: Result<ServerConfig, OrderError>)
    ensures r == Failure(MoreThanOneMarked) <==> |Marked(servers)| > 1
    ensures r == Failure(NoServers) <==> servers == []
    ensures r.Success? ==> r.value in servers
    ensures r.Success? && |Marked(servers)| == 1 ==> r.value.stopServer
    ensures r.Success? && |Marked(servers)| == 0 ==> r.value == servers[0]
  {
    var marked := Marked(servers);
    if |marked| > 1 then Failure(MoreThanOneMarked)
    else if |marked| == 1 then
      assert marked[0] in marked;
      Success(marked[0])
    else if servers == [] then Failure(NoServers)
    else Success(servers[0])
  }

  /** LINQ `Except`: the servers not in `seen`, each once, in the order of
      their first occurrence. */
  function Except(servers: seq<ServerConfig>, seen: set<ServerConfig>): (r: seq<ServerConfig>)
    ensures forall i :: 0 <= i < |r| ==> r[i] in servers && r[i] !in seen
    ensures forall i :: 0 <= i < |servers| && servers[i] !in seen ==> servers[i] in r
    ensures Distinct(r)
  {
    if servers == [] then []
    else if servers[0] in seen then Except(servers[1..], seen)
    else [servers[0]] + Except(servers[1..], seen + {servers[0]})
  }

  /** GetServerExecutionOrder's selection: stop-after-marked (taking
      precedence), continue-after-marked, or the whole list. */
  function ServerOrder(servers: seq<ServerConfig>, options: RunOptions): Result<seq<ServerConfig>, OrderError> {
    if options.stopAfterMarkedServer then
      match SelectMarked(servers)
      case Success(m) => Success([m])
      case Failure(e) => Failure(e)
    else if options.continueAfterMarkedServer then
      match SelectMarked(servers)
      case Success(m) => Success(if |servers| == 1 then [] else Except(servers, {m}))
      case Failure(e) => Failure(e)
    else Success(servers)
  }

  /** The server the continue-after-marked branch brings online before
      computing the order, if that branch is taken and selection succeeds. */
  function MarkedToResume(servers: seq<ServerConfig>, options: RunOptions): Option<ServerConfig> {
    if !options.stopAfterMarkedServer && options.continueAfterMarkedServer && SelectMarked(servers).Success?
    then Some(SelectMarked(servers).value)
    else None
  }

  lemma DistinctTail(servers: seq<ServerConfig>)
    requires Distinct(servers) && servers != []
    ensures Distinct(servers[1..])
    ensures servers[0] !in servers[1..]
  {
    var tail := servers[1..];
    forall a, b | 0 <= a < b < |tail| ensures tail[a] != tail[b] {
      assert tail[a] == servers[a + 1] && tail[b] == servers[b + 1];
    }
  }

  /** Over a distinct list, Except with a set that holds exactly the
      element at `i` removes that one element. */
  lemma {:induction false} ExceptOfDistinct(servers: seq<ServerConfig>, seen: set<ServerConfig>, i: nat)
    requires Distinct(servers) && i < |servers|
    requires forall j :: 0 <= j < |servers| && j != i ==> servers[j] !in seen
    requires servers[i] in seen
    ensures Except(servers, seen) == servers[..i] + servers[i + 1..]
    decreases |servers|
  {
    var tail := servers[1..];
    DistinctTail(servers);
    if i == 0 {
      ExceptNoneSeen(tail, seen);
    } else {
      var seen' := seen + {servers[0]};
      ExceptStep(servers, seen, i);
      ExceptOfDistinct(tail, seen', i - 1);
      assert tail[..i - 1] == servers[1..i];
      assert tail[i..] == servers[i + 1..];
      assert [servers[0]] + servers[1..i] == servers[..i];
    }
  }

  lemma ExceptStep(servers: seq<ServerConfig>, seen: set<ServerConfig>, i: nat)
    requires Distinct(servers) && 0 < i < |servers|
    requires forall j :: 0 <= j < |servers| && j != i ==> servers[j] !in seen
    requires servers[i] in seen
    ensures Except(servers, seen) == [servers[0]] + Except(servers[1..], seen + {servers[0]})
    ensures forall j :: 0 <= j < |servers[1..]| && j != i - 1 ==> servers[1..][j] !in seen + {servers[0]}
    ensures servers[1..][i - 1] in seen + {servers[0]}
  {
    assert servers[0] !in seen;
    forall j | 0 <= j < |servers[1..]| && j != i - 1 ensures servers[1..][j] !in seen + {servers[0]} {
      assert servers[1..][j] == servers[j + 1];
      assert servers[j + 1] != servers[0];
    }
  }

  lemma {:induction false} ExceptNoneSeen(servers: seq<ServerConfig>, seen: set<ServerConfig>)
    requires Distinct(servers)
    requires forall j :: 0 <= j < |servers| ==> servers[j] !in seen
    ensures Except(servers, seen) == servers
    decreases |servers|
  {
    if servers != [] {
      var tail := servers[1..];
      DistinctTail(servers);
      forall j | 0 <= j < |tail| ensures tail[j] !in seen + {servers[0]} {
        assert tail[j] == servers[j + 1];
        assert servers[j + 1] != servers[0];
      }
      ExceptNoneSeen(tail, seen + {servers[0]});
      assert servers == [servers[0]] + tail;
    }
  }

  /** With no option set the order is exactly the configured list. With
      stop-after-marked (whatever continue-after-marked says) it is the one
      marked server, or the first server when none is marked. */
  lemma StopAfterMarkedOrder(servers: seq<ServerConfig>, options: RunOptions)
    requires options.stopAfterMarkedServer
    ensures ServerOrder(servers, options) == ServerOrder(servers, options.(continueAfterMarkedServer := false))
    ensures |Marked(servers)| == 1 ==> ServerOrder(servers, options) == Success([Marked(servers)[0]])
    ensures |Marked(servers)| == 0 && servers != [] ==> ServerOrder(servers, options) == Success([servers[0]])
    ensures ServerOrder(servers, options).Success? ==> |ServerOrder(servers, options).value| == 1
    ensures MarkedToResume(servers, options) == None
  {
  }

  /** Continue-after-marked over distinct servers: the marked server (or
      the first) is left out and every other server follows in configuration
      order; a single-server list gives the empty order. */
  lemma ContinueAfterMarkedOrder(servers: seq<ServerConfig>, options: RunOptions, i: nat)
    requires !options.stopAfterMarkedServer && options.continueAfterMarkedServer
    requires Distinct(servers) && i < |servers|
    requires SelectMarked(servers) == Success(servers[i])
    ensures MarkedToResume(servers, options) == Some(servers[i])
    ensures ServerOrder(servers, options) == Success(servers[..i] + servers[i + 1..])
    ensures servers[i] !in ServerOrder(servers, options).value
    ensures |ServerOrder(servers, options).value| == |servers| - 1
  {
    if |servers| != 1 {
      ExceptOfDistinct(servers, {servers[i]}, i);
    }
  }

  /** The order fails exactly when an option is set and the marked server
      cannot be chosen: several are marked, or there are no servers. */
  lemma OrderFailures(servers: seq<ServerConfig>, options: RunOptions)
    ensures ServerOrder(servers, options).Failure? <==>
      (options.stopAfterMarkedServer || options.continueAfterMarkedServer) &&
      (|Marked(servers)| > 1 || servers == [])
    ensures !options.stopAfterMarkedServer && !options.continueAfterMarkedServer ==>
      ServerOrder(servers, options) == Success(servers)
  {
  }

  /** The order holds configured servers only, and it can be computed
      whenever the continue branch has a server to resume. */
  lemma OrderHoldsConfiguredServers(servers: seq<ServerConfig>, options: RunOptions)
    ensures ServerOrder(servers, options).Success? ==>
      forall i :: 0 <= i < |ServerOrder(servers, options).value| ==> ServerOrder(servers, options).value[i] in servers
    ensures MarkedToResume(servers, options).Some? ==>
      ServerOrder(servers, options).Success? && MarkedToResume(servers, options).value in servers
  {
  }

  /** The order holds configured servers only, each once when the
      configuration lists each once, and never the server resumed by the
      continue branch. */
  lemma OrderIsDistinctSubset(servers: seq<ServerConfig>, options: RunOptions)
    requires Distinct(servers)
    requires ServerOrder(servers, options).Success?
    ensures Distinct(ServerOrder(servers, options).value)
    ensures forall s :: s in ServerOrder(servers, options).value ==> s in servers
    ensures MarkedToResume(servers, options).Some? ==>
      MarkedToResume(servers, options).value !in ServerOrder(servers, options).value
  {
  }

  // ---------------------------------------------------------------------
  // The Online/Offline state machine

  /** The call that moves a server to `target`. */
  function CallFor(server: ServerConfig, target: LbState): LbCall {
    match target
    case Offline => SuspendCall(server.name, server.loadBalancerFarm, Suspend)
    case Online => ResumeCall(server.name, server.loadBalancerFarm)
  }

  /** One BringOffline/BringOnline: the calls made, the resulting state, and
      whether it returned normally. */
  datatype Transition = Transition(calls: seq<LbCall>, state: LbState, ok: bool)

  function Transit(hasConfig: bool, server: ServerConfig, current: LbState, target: LbState,
                   refuses: LbCall -> bool): (t: Transition)
    ensures |t.calls| <= 1
    ensures t.calls == [] <==> !hasConfig || current == target
    ensures t.calls != [] ==> t.calls == [CallFor(server, target)]
    ensures t.ok ==> t.state == (if hasConfig then target else current)
    ensures !t.ok ==> t.state == current && t.calls != [] && refuses(t.calls[0])
  {
    if !hasConfig || current == target then Transition([], current, true)
    else if refuses(CallFor(server, target)) then Transition([CallFor(server, target)], current, false)
    else Transition([CallFor(server, target)], target, true)
  }

  /** Idempotence: once a transition has returned normally, repeating it
      makes no call and changes nothing, so two consecutive calls make at
      most one external call. */
  lemma TransitIdempotent(hasConfig: bool, server: ServerConfig, current: LbState, target: LbState,
                          refuses: LbCall -> bool, refuses': LbCall -> bool)
    requires Transit(hasConfig, server, current, target, refuses).ok
    ensures var first := Transit(hasConfig, server, current, target, refuses);
      Transit(hasConfig, server, first.state, target, refuses') == Transition([], first.state, true)
    ensures |Transit(hasConfig, server, current, target, refuses).calls +
             Transit(hasConfig, server, Transit(hasConfig, server, current, target, refuses).state, target, refuses').calls| <= 1
  {
  }

  /** Offline then online with a balancer that accepts both calls: a server
      that was Online is back Online after exactly one suspend and one
      resume, in that order. */
  lemma OfflineThenOnline(server: ServerConfig, refuses: LbCall -> bool)
    requires !refuses(CallFor(server, Offline)) && !refuses(CallFor(server, Online))
    ensures var off := Transit(true, server, Online, Offline, refuses);
      var on := Transit(true, server, off.state, Online, refuses);
      off.state == Offline && on.state == Online && on.ok &&
      off.calls + on.calls == [SuspendCall(server.name, server.loadBalancerFarm, Suspend),
                               ResumeCall(server.name, server.loadBalancerFarm)]
  {
  }

  // ---------------------------------------------------------------------
  // The executor strategy

  datatype ExecutorKind = StickyExecutor | RoundRobinExecutor

  /** The strategy object. Its Sticky and RoundRobin variants are modelled
      as taking a server offline or online through the protected base
      operations, with the balancer they were constructed with. */
  class LoadBalancerExecutor {
    const kind: ExecutorKind
    const loadBalancer: LoadBalancer

    constructor (kind: ExecutorKind, loadBalancer: LoadBalancer)
      ensures this.kind == kind && this.loadBalancer == loadBalancer
    {
      this.kind := kind;
      this.loadBalancer := loadBalancer;
    }

    /** The protected BringOffline: nothing without a load-balancer
        configuration or when already Offline; otherwise one suspend call,
        and the state becomes Offline only if that call returns. */
    method BringOfflineWith(server: ServerConfig, settings: Settings, lb: LoadBalancer) returns (ok: bool)
      modifies server`currentState, lb`calls
      ensures var t := Transit(settings.hasLoadBalancerConfig, server, old(server.currentState), Offline, lb.refuses);
        server.currentState == t.state && ok == t.ok && lb.calls == old(lb.calls) + t.calls
    {
      if !settings.hasLoadBalancerConfig { return true; }
      if server.currentState == Offline { return true; }
      ok := lb.BringOffline(server.name, server.loadBalancerFarm, Suspend);
      if ok {
        server.currentState := Offline;
      }
    }

    /** The protected BringOnline, symmetric to BringOfflineWith. */
    method BringOnlineWith(server: ServerConfig, settings: Settings, lb: LoadBalancer) returns (ok: bool)
      modifies server`currentState, lb`calls
      ensures var t := Transit(settings.hasLoadBalancerConfig, server, old(server.currentState), Online, lb.refuses);
        server.currentState == t.state && ok == t.ok && lb.calls == old(lb.calls) + t.calls
    {
      if !settings.hasLoadBalancerConfig { return true; }
      if server.currentState == Online { return true; }
      ok := lb.BringOnline(server.name, server.loadBalancerFarm);
      if ok {
        server.currentState := Online;
      }
    }

    method BringOffline(server: ServerConfig, settings: Settings) returns (ok: bool)
      modifies server`currentState, loadBalancer`calls
      ensures var t := Transit(settings.hasLoadBalancerConfig, server, old(server.currentState), Offline, loadBalancer.refuses);
        server.currentState == t.state && ok == t.ok && loadBalancer.calls == old(loadBalancer.calls) + t.calls
    {
      ok := BringOfflineWith(server, settings, loadBalancer);
    }

    method BringOnline(server: ServerConfig, settings: Settings) returns (ok: bool)
      modifies server`currentState, loadBalancer`calls
      ensures var t := Transit(settings.hasLoadBalancerConfig, server, old(server.currentState), Online, loadBalancer.refuses);
        server.currentState == t.state && ok == t.ok && loadBalancer.calls == old(loadBalancer.calls) + t.calls
    {
      ok := BringOnlineWith(server, settings, loadBalancer);
    }

    /** The order of a run. In the continue-after-marked branch the marked
        server is first brought online; a refused resume throws. */
    method GetServerExecutionOrder(settings: Settings) returns (order: Result<seq<ServerConfig>, OrderError>)
      modifies settings.servers`currentState, loadBalancer`calls
      ensures MarkedToResume(settings.servers, settings.options).None? ==>
        && order == ServerOrder(settings.servers, settings.options)
        && loadBalancer.calls == old(loadBalancer.calls)
        && forall s :: s in settings.servers ==> s.currentState == old(s.currentState)
      ensures MarkedToResume(settings.servers, settings.options).Some? ==>
        var m := MarkedToResume(settings.servers, settings.options).value;
        var t := Transit(settings.hasLoadBalancerConfig, m, old(m.currentState), Online, loadBalancer.refuses);
        && order == (if t.ok then ServerOrder(settings.servers, settings.options) else Failure(ResumeRefused))
        && m.currentState == t.state
        && loadBalancer.calls == old(loadBalancer.calls) + t.calls
        && forall s :: s in settings.servers && s != m ==> s.currentState == old(s.currentState)
    {
      var servers := settings.servers;
      if settings.options.stopAfterMarkedServer {
        var m := SelectMarked(servers);
        match m {
          case Success(s) => order := Success([s]);
          case Failure(e) => order := Failure(e);
        }
        return;
      }
      if settings.options.continueAfterMarkedServer {
        var m := SelectMarked(servers);
        if m.Failure? {
          return Failure(m.error);
        }
        var ok := BringOnline(m.value, settings);
        if !ok {
          return Failure(ResumeRefused);
        }
        order := Success(if |servers| == 1 then [] else Except(servers, {m.value}));
        return;
      }
      order := Success(servers);
    }
  }
}
