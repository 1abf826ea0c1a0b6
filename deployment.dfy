/** What ExecutionSequenceManager does in one run, as pure functions over
    values: the local phase, the choice of servers, and the rolling
    deployment that takes each server out of rotation, runs the remote
    sequences on it and puts it back. Every step of the run is an Event on
    one timeline, load-balancer calls included. */
module Deployment {
  import opened Outcomes
  import opened LoadBalancing

  /** A registered local sequence; `id` is its registration index. */
  datatype LocalSequence = LocalSequence(name: string, id: nat)

  /** A registered remote sequence; `id` is its registration index. */
  datatype RemoteSequence = RemoteSequence(name: string, id: nat)

  /** One step of a run: a local sequence executed, a remote sequence
      executed on a server, or a call made to the load balancer for a server. */
  datatype Event =
    | LocalRan(local: LocalSequence)
    | RemoteRan(remote: RemoteSequence, server: ServerConfig)
    | Balanced(server: ServerConfig, call: LbCall)

  /** What the run cannot see into: the cancellation signal, and the outcome
      of executing each local sequence and each remote sequence on a server. */
  datatype Env = Env(token: CancellationToken,
                     localOutcome: LocalSequence -> Outcome,
                     remoteOutcome: (RemoteSequence, ServerConfig) -> Outcome)

  /** The events of a phase, how it ended, and the next check point. */
  datatype Progress = Progress(events: seq<Event>, outcome: Outcome, step: nat)

  /** The same for one server, with the server's load-balancer state after. */
  datatype ServerDeploy = ServerDeploy(events: seq<Event>, outcome: Outcome, step: nat, state: LbState)

  /** The same for many servers, with every server's state after. */
  datatype Stage = Stage(events: seq<Event>, outcome: Outcome, step: nat, states: map<ServerConfig, LbState>)

  predicate Covers(states: map<ServerConfig, LbState>, servers: seq<ServerConfig>) {
    forall i :: 0 <= i < |servers| ==> servers[i] in states
  }

  function BalancedEvents(server: ServerConfig, calls: seq<LbCall>): (r: seq<Event>)
    ensures |r| == |calls|
    ensures forall i :: 0 <= i < |r| ==> r[i] == Balanced(server, calls[i])
  {
    seq(|calls|, i requires 0 <= i < |calls| => Balanced(server, calls[i]))
  }

  /** The load-balancer calls of a timeline, in order. */
  function CallsOf(events: seq<Event>): seq<LbCall> {
    if events == [] then []
    else (if events[0].Balanced? then [events[0].call] else []) + CallsOf(events[1..])
  }

  /** How many sequences (local or remote) a timeline executed. */
  function CountRuns(events: seq<Event>): nat {
    if events == [] then 0
    else (if events[0].Balanced? then 0 else 1) + CountRuns(events[1..])
  }

  /** The servers a timeline did anything to. */
  function Touched(events: seq<Event>): set<ServerConfig> {
    if events == [] then {}
    else (if events[0].LocalRan? then {} else {events[0].server}) + Touched(events[1..])
  }

  // ---------------------------------------------------------------------
  // The phases of Execute

  /** The loop shared by the local phase and the remote sequences of one
      server: a check point before each item, then the item runs; the first
      item that does not end Ok ends the loop. */
  function RunEach<T>(items: seq<T>, ran: T -> Event, outcome: T -> Outcome,
                      token: CancellationToken, step: nat): Progress
    decreases |items|
  {
    if items == [] then Progress([], Ok, step)
    else if token.IsCancellationRequested(step) then Progress([], Cancelled, step + 1)
    else
      var o := outcome(items[0]);
      if o != Ok then Progress([ran(items[0])], o, step + 1)
      else
        var rest := RunEach(items[1..], ran, outcome, token, step + 1);
        Progress([ran(items[0])] + rest.events, rest.outcome, rest.step)
  }

  function LocalEvent(l: LocalSequence): Event { LocalRan(l) }

  /** ExecuteLocalOperations. */
  function RunLocals(locals: seq<LocalSequence>, env: Env, step: nat): Progress {
    RunEach(locals, LocalEvent, env.localOutcome, env.token, step)
  }

  function RemoteRanOn(server: ServerConfig): RemoteSequence -> Event {
    (r: RemoteSequence) => RemoteRan(r, server)
  }

  function RemoteOutcomeOn(env: Env, server: ServerConfig): RemoteSequence -> Outcome {
    (r: RemoteSequence) => env.remoteOutcome(r, server)
  }

  /** The remote sequences on one server. */
  function RunRemotes(remotes: seq<RemoteSequence>, server: ServerConfig, env: Env, step: nat): Progress {
    RunEach(remotes, RemoteRanOn(server), RemoteOutcomeOn(env, server), env.token, step)
  }

  /** Every server's current load-balancer state. */
  function StatesOf(servers: seq<ServerConfig>): (m: map<ServerConfig, LbState>)
    reads set s | s in servers
    ensures Covers(m, servers) && m.Keys == set s | s in servers
  {
    map s | s in servers :: s.currentState
  }

  /** One server of the rolling deployment, from state `current`: take it
      offline; unless deployment to it is prevented, run the remote
      sequences on it; then, only if nothing failed and the run does not
      stop after the marked server, bring it back online. */
  function DeployServer(server: ServerConfig, remotes: seq<RemoteSequence>, settings: Settings,
                        refuses: LbCall -> bool, env: Env, current: LbState, step: nat): ServerDeploy
  {
    var off := Transit(settings.hasLoadBalancerConfig, server, current, Offline, refuses);
    var offEvents := BalancedEvents(server, off.calls);
    if !off.ok then ServerDeploy(offEvents, Failed, step, off.state)
    else
      var rem := if server.preventDeployment then Progress([], Ok, step) else RunRemotes(remotes, server, env, step);
      if rem.outcome != Ok then ServerDeploy(offEvents + rem.events, rem.outcome, rem.step, off.state)
      else if settings.options.stopAfterMarkedServer then ServerDeploy(offEvents + rem.events, Ok, rem.step, off.state)
      else
        var on := Transit(settings.hasLoadBalancerConfig, server, off.state, Online, refuses);
        ServerDeploy(offEvents + rem.events + BalancedEvents(server, on.calls),
                     if on.ok then Ok else Failed, rem.step, on.state)
  }

  /** The servers in order; the first one that does not end Ok ends the run. */
  function RunServers(order: seq<ServerConfig>, remotes: seq<RemoteSequence>, settings: Settings,
                      refuses: LbCall -> bool, env: Env, states: map<ServerConfig, LbState>, step: nat): (r: Stage)
    requires Covers(states, order)
    ensures r.states.Keys == states.Keys
    decreases |order|
  {
    if order == [] then Stage([], Ok, step, states)
    else
      var d := DeployServer(order[0], remotes, settings, refuses, env, states[order[0]], step);
      var states' := states[order[0] := d.state];
      if d.outcome != Ok then Stage(d.events, d.outcome, d.step, states')
      else
        var rest := RunServers(order[1..], remotes, settings, refuses, env, states', d.step);
        Stage(d.events + rest.events, rest.outcome, rest.step, rest.states)
  }

  /** A stage with `events` in front of its own. */
  function Prepend(events: seq<Event>, s: Stage): Stage
  {
    Stage(events + s.events, s.outcome, s.step, s.states)
  }

  /** ExecuteRemoteOperations: compute the order (bringing the marked server
      online first in the continue-after-marked case), then roll out. */
  function RemotePhase(remotes: seq<RemoteSequence>, settings: Settings, refuses: LbCall -> bool,
                       env: Env, states: map<ServerConfig, LbState>, step: nat): (r: Stage)
    requires Covers(states, settings.servers)
    ensures r.states.Keys == states.Keys
  {
    match MarkedToResume(settings.servers, settings.options)
    case Some(m) =>
      var t := Transit(settings.hasLoadBalancerConfig, m, states[m], Online, refuses);
      var resumed := BalancedEvents(m, t.calls);
      var states' := states[m := t.state];
      if !t.ok then Stage(resumed, Failed, step, states')
      else
        var rest := RunServers(ServerOrder(settings.servers, settings.options).value, remotes, settings, refuses, env, states', step);
        Stage(resumed + rest.events, rest.outcome, rest.step, rest.states)
    case None =>
      match ServerOrder(settings.servers, settings.options)
      case Failure(_) => Stage([], Failed, step, states)
      case Success(order) => RunServers(order, remotes, settings, refuses, env, states, step)
  }

  /** Execute: the local phase, then, if it ended Ok, the remote phase.
      Check points are numbered from 0. */
  function RunAll(locals: seq<LocalSequence>, remotes: seq<RemoteSequence>, settings: Settings,
                  refuses: LbCall -> bool, env: Env, states: map<ServerConfig, LbState>): (r: Stage)
    requires Covers(states, settings.servers)
    ensures r.states.Keys == states.Keys
  {
    var l := RunLocals(locals, env, 0);
    if l.outcome != Ok then Stage(l.events, l.outcome, l.step, states)
    else
      var rem := RemotePhase(remotes, settings, refuses, env, states, l.step);
      Stage(l.events + rem.events, rem.outcome, rem.step, rem.states)
  }

  // ---------------------------------------------------------------------
  // DryRun

  /** What a dry run lists and how it leaves the servers. */
  datatype Plan = Plan(events: seq<Event>, states: map<ServerConfig, LbState>)

  function DryLocals(locals: seq<LocalSequence>): (r: seq<Event>)
    ensures |r| == |locals|
    ensures forall i :: 0 <= i < |r| ==> r[i] == LocalRan(locals[i])
  {
    seq(|locals|, i requires 0 <= i < |locals| => LocalRan(locals[i]))
  }

  function DryRemotes(remotes: seq<RemoteSequence>, server: ServerConfig): (r: seq<Event>)
    ensures |r| == |remotes|
    ensures forall i :: 0 <= i < |r| ==> r[i] == RemoteRan(remotes[i], server)
  {
    seq(|remotes|, i requires 0 <= i < |remotes| => RemoteRan(remotes[i], server))
  }

  /** Every server in configuration order, through a balancer that accepts
      every call: offline, every remote sequence (prevented or not), online.
      No option and no cancellation is consulted. */
  function DryServers(servers: seq<ServerConfig>, remotes: seq<RemoteSequence>, hasConfig: bool,
                      states: map<ServerConfig, LbState>): (r: Plan)
    requires Covers(states, servers)
    ensures r.states.Keys == states.Keys
    decreases |servers|
  {
    if servers == [] then Plan([], states)
    else
      var s := servers[0];
      var off := Transit(hasConfig, s, states[s], Offline, Accepting);
      var on := Transit(hasConfig, s, off.state, Online, Accepting);
      var rest := DryServers(servers[1..], remotes, hasConfig, states[s := on.state]);
      Plan(BalancedEvents(s, off.calls) + DryRemotes(remotes, s) + BalancedEvents(s, on.calls) + rest.events,
           rest.states)
  }

  function DryRunPlan(locals: seq<LocalSequence>, remotes: seq<RemoteSequence>, servers: seq<ServerConfig>,
                      hasConfig: bool, states: map<ServerConfig, LbState>): (r: Plan)
    requires Covers(states, servers)
    ensures r.states.Keys == states.Keys
  {
    var rest := DryServers(servers, remotes, hasConfig, states);
    Plan(DryLocals(locals) + rest.events, rest.states)
  }
}
