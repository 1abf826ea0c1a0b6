/** What a run of ExecutionSequenceManager guarantees, proved about the
    functions of module Deployment. */
module RolloutProperties {
  import opened Outcomes
  import opened LoadBalancing
  import opened Deployment

  // ---------------------------------------------------------------------
  // Timelines

  lemma {:induction false} CallsOfConcat(a: seq<Event>, b: seq<Event>)
    ensures CallsOf(a + b) == CallsOf(a) + CallsOf(b)
    decreases |a|
  {
    if a != [] {
      assert (a + b)[0] == a[0] && (a + b)[1..] == a[1..] + b;
      CallsOfConcat(a[1..], b);
    } else {
      assert a + b == b;
    }
  }

  lemma {:induction false} CountRunsConcat(a: seq<Event>, b: seq<Event>)
    ensures CountRuns(a + b) == CountRuns(a) + CountRuns(b)
    decreases |a|
  {
    if a != [] {
      assert (a + b)[0] == a[0] && (a + b)[1..] == a[1..] + b;
      CountRunsConcat(a[1..], b);
    } else {
      assert a + b == b;
    }
  }

  lemma {:induction false} TouchedConcat(a: seq<Event>, b: seq<Event>)
    ensures Touched(a + b) == Touched(a) + Touched(b)
    decreases |a|
  {
    if a != [] {
      assert (a + b)[0] == a[0] && (a + b)[1..] == a[1..] + b;
      TouchedConcat(a[1..], b);
    } else {
      assert a + b == b;
    }
  }

  lemma {:induction false} BalancedEventsFacts(server: ServerConfig, calls: seq<LbCall>)
    ensures CallsOf(BalancedEvents(server, calls)) == calls
    ensures CountRuns(BalancedEvents(server, calls)) == 0
    ensures Touched(BalancedEvents(server, calls)) <= {server}
    decreases |calls|
  {
    var e := BalancedEvents(server, calls);
    if calls != [] {
      assert e[1..] == BalancedEvents(server, calls[1..]);
      BalancedEventsFacts(server, calls[1..]);
    }
  }

  /** Where an event sits in the life of one server: taken out of rotation
      (0), sequences run (1), put back (2). */
  function Phase(e: Event): nat {
    match e
    case Balanced(_, SuspendCall(_, _, _)) => 0
    case Balanced(_, ResumeCall(_, _)) => 2
    case _ => 1
  }

  predicate InPhase(events: seq<Event>, p: nat) {
    forall i :: 0 <= i < |events| ==> Phase(events[i]) == p
  }

  /** The check points a timeline from `from` to `to` went through: one
      before each sequence it ran, every one of them passed, and at most one
      more, which found cancellation requested and ended the timeline
      Cancelled. */
  predicate CheckPointsPassed(events: seq<Event>, outcome: Outcome, token: CancellationToken, from: nat, to: nat) {
    && from + CountRuns(events) <= to <= from + CountRuns(events) + 1
    && (outcome == Ok ==> to == from + CountRuns(events))
    && (to == from + CountRuns(events) + 1 ==> outcome == Cancelled && token.IsCancellationRequested(to - 1))
    && forall c :: from <= c < from + CountRuns(events) ==> !token.IsCancellationRequested(c)
  }

  // ---------------------------------------------------------------------
  // The check-then-run loop

  /** The loop runs a prefix of the items in order, every item but the last
      one run ended Ok, and it ends Ok only after running all of them; a
      failure is the last item's. */
  lemma {:induction false} RunEachInOrder<T>(items: seq<T>, ran: T -> Event, outcome: T -> Outcome,
                                             token: CancellationToken, step: nat)
    ensures var r := RunEach(items, ran, outcome, token, step);
      && |r.events| <= |items|
      && (forall i :: 0 <= i < |r.events| ==> r.events[i] == ran(items[i]))
      && (forall i :: 0 <= i < |r.events| - 1 ==> outcome(items[i]) == Ok)
      && (r.outcome == Ok ==> |r.events| == |items|)
      && (r.outcome == Failed ==> |r.events| > 0 && outcome(items[|r.events| - 1]) == Failed)
    decreases |items|
  {
    if items != [] && !token.IsCancellationRequested(step) && outcome(items[0]) == Ok {
      RunEachInOrder(items[1..], ran, outcome, token, step + 1);
      var r := RunEach(items, ran, outcome, token, step);
      var rest := RunEach(items[1..], ran, outcome, token, step + 1);
      assert r.events == [ran(items[0])] + rest.events;
      forall i | 0 < i < |r.events| ensures r.events[i] == ran(items[i]) {
        assert r.events[i] == rest.events[i - 1] && items[1..][i - 1] == items[i];
      }
      forall i | 0 < i < |r.events| - 1 ensures outcome(items[i]) == Ok {
        assert items[1..][i - 1] == items[i];
      }
    }
  }

  /** The loop stops at the first check point that finds the run cancelled:
      one check point per item run, all passed. */
  lemma {:induction false} RunEachCheckPoints<T>(items: seq<T>, ran: T -> Event, outcome: T -> Outcome,
                                                 token: CancellationToken, step: nat)
    requires forall t :: !ran(t).Balanced?
    ensures var r := RunEach(items, ran, outcome, token, step);
      CountRuns(r.events) == |r.events| && CheckPointsPassed(r.events, r.outcome, token, step, r.step)
    decreases |items|
  {
    if items != [] && !token.IsCancellationRequested(step) {
      var r := RunEach(items, ran, outcome, token, step);
      assert CountRuns([ran(items[0])]) == 1;
      if outcome(items[0]) == Ok {
        var rest := RunEach(items[1..], ran, outcome, token, step + 1);
        RunEachCheckPoints(items[1..], ran, outcome, token, step + 1);
        CountRunsConcat([ran(items[0])], rest.events);
      }
    }
  }

  // ---------------------------------------------------------------------
  // One server

  /** The remote sequences of one server, as a timeline: remote runs on
      that server only, one passed check point each, every remote sequence
      when the loop ends Ok. */
  lemma RemoteEvents(remotes: seq<RemoteSequence>, server: ServerConfig, env: Env, step: nat)
    ensures var r := RunRemotes(remotes, server, env, step);
      && |r.events| <= |remotes|
      && (forall i :: 0 <= i < |r.events| ==> r.events[i] == RemoteRan(remotes[i], server))
      && (r.outcome == Ok ==> forall j :: 0 <= j < |remotes| ==> RemoteRan(remotes[j], server) in r.events)
      && InPhase(r.events, 1) && CallsOf(r.events) == [] && Touched(r.events) <= {server}
      && CheckPointsPassed(r.events, r.outcome, env.token, step, r.step)
  {
    var ran := RemoteRanOn(server);
    var outcome := RemoteOutcomeOn(env, server);
    RemoteShape(remotes, server, env, step);
    RunEachInOrder(remotes, ran, outcome, env.token, step);
    RunEachCheckPoints(remotes, ran, outcome, env.token, step);
    var r := RunRemotes(remotes, server, env, step);
    if r.outcome == Ok {
      forall j | 0 <= j < |remotes| ensures RemoteRan(remotes[j], server) in r.events {
        assert r.events[j] == RemoteRan(remotes[j], server);
      }
    }
  }

  /** The shape alone: remote runs on that server, in registration order. */
  lemma RemoteShape(remotes: seq<RemoteSequence>, server: ServerConfig, env: Env, step: nat)
    ensures var r := RunRemotes(remotes, server, env, step);
      && |r.events| <= |remotes|
      && (forall i :: 0 <= i < |r.events| ==> r.events[i] == RemoteRan(remotes[i], server))
      && InPhase(r.events, 1) && CallsOf(r.events) == [] && Touched(r.events) <= {server}
  {
    RunEachInOrder(remotes, RemoteRanOn(server), RemoteOutcomeOn(env, server), env.token, step);
    RemoteTimeline(RunRemotes(remotes, server, env, step).events, server);
  }

  lemma RemoteRunsMakeNoCalls(remotes: seq<RemoteSequence>, server: ServerConfig, env: Env, step: nat)
    ensures CallsOf(RunRemotes(remotes, server, env, step).events) == []
  {
    RemoteEvents(remotes, server, env, step);
  }

  lemma {:induction false} RemoteTimeline(events: seq<Event>, server: ServerConfig)
    requires forall i :: 0 <= i < |events| ==> events[i].RemoteRan? && events[i].server == server
    ensures Touched(events) <= {server} && CallsOf(events) == [] && InPhase(events, 1)
    decreases |events|
  {
    if events != [] {
      RemoteTimeline(events[1..], server);
    }
  }

  /** One server's timeline touches that server only, and runs in three
      phases: taken out of rotation, then its remote sequences, then back
      into rotation. */
  lemma DeployOrder(server: ServerConfig, remotes: seq<RemoteSequence>, settings: Settings,
                    refuses: LbCall -> bool, env: Env, current: LbState, step: nat)
    ensures var d := DeployServer(server, remotes, settings, refuses, env, current, step);
      && Touched(d.events) <= {server}
      && NoLocalRuns(d.events)
      && (forall i, j :: 0 <= i < j < |d.events| ==> Phase(d.events[i]) <= Phase(d.events[j]))
  {
    var off := Transit(settings.hasLoadBalancerConfig, server, current, Offline, refuses);
    var offEvents := BalancedEvents(server, off.calls);
    BalancedEventsFacts(server, off.calls);
    assert InPhase(offEvents, 0) && NoLocalRuns(offEvents);
    if !off.ok {
      assert DeployServer(server, remotes, settings, refuses, env, current, step).events == offEvents + [] + [];
      ThreePhases(offEvents, [], [], server);
    } else {
      var rem := if server.preventDeployment then Progress([], Ok, step) else RunRemotes(remotes, server, env, step);
      RemoteShape(remotes, server, env, step);
      var onEvents := if rem.outcome == Ok && !settings.options.stopAfterMarkedServer
        then BalancedEvents(server, Transit(settings.hasLoadBalancerConfig, server, off.state, Online, refuses).calls)
        else [];
      BalancedEventsFacts(server, Transit(settings.hasLoadBalancerConfig, server, off.state, Online, refuses).calls);
      assert InPhase(onEvents, 2) && NoLocalRuns(onEvents) && NoLocalRuns(rem.events);
      assert DeployServer(server, remotes, settings, refuses, env, current, step).events == offEvents + rem.events + onEvents;
      ThreePhases(offEvents, rem.events, onEvents, server);
    }
  }

  /** Suspend calls, then runs, then resume calls, all about one server. */
  lemma ThreePhases(a: seq<Event>, b: seq<Event>, c: seq<Event>, server: ServerConfig)
    requires InPhase(a, 0) && InPhase(b, 1) && InPhase(c, 2)
    requires NoLocalRuns(a) && NoLocalRuns(b) && NoLocalRuns(c)
    requires Touched(a) <= {server} && Touched(b) <= {server} && Touched(c) <= {server}
    ensures var e := a + b + c;
      && Touched(e) <= {server}
      && NoLocalRuns(e)
      && (forall i, j :: 0 <= i < j < |e| ==> Phase(e[i]) <= Phase(e[j]))
  {
    NoLocalRunsConcat(a, b, c);
    TouchedConcat(a, b);
    TouchedConcat(a + b, c);
    PhasesSorted(a, b, c);
  }


  /** Deployment-prevented servers run no sequence; a server that ends Ok
      ran every remote sequence; the server's check points were all passed. */
  lemma DeployRuns(server: ServerConfig, remotes: seq<RemoteSequence>, settings: Settings,
                   refuses: LbCall -> bool, env: Env, current: LbState, step: nat)
    ensures var d := DeployServer(server, remotes, settings, refuses, env, current, step);
      && (server.preventDeployment ==> CountRuns(d.events) == 0)
      && (d.outcome == Ok && !server.preventDeployment ==>
            forall j :: 0 <= j < |remotes| ==> RemoteRan(remotes[j], server) in d.events)
      && CheckPointsPassed(d.events, d.outcome, env.token, step, d.step)
  {
    var d := DeployServer(server, remotes, settings, refuses, env, current, step);
    var off := Transit(settings.hasLoadBalancerConfig, server, current, Offline, refuses);
    var offEvents := BalancedEvents(server, off.calls);
    BalancedEventsFacts(server, off.calls);
    if off.ok {
      var rem := if server.preventDeployment then Progress([], Ok, step) else RunRemotes(remotes, server, env, step);
      RemoteEvents(remotes, server, env, step);
      var onEvents := if rem.outcome == Ok && !settings.options.stopAfterMarkedServer
        then BalancedEvents(server, Transit(settings.hasLoadBalancerConfig, server, off.state, Online, refuses).calls)
        else [];
      BalancedEventsFacts(server, Transit(settings.hasLoadBalancerConfig, server, off.state, Online, refuses).calls);
      assert d.events == offEvents + rem.events + onEvents;
      CountRunsConcat(offEvents, rem.events);
      CountRunsConcat(offEvents + rem.events, onEvents);
      if d.outcome == Ok && !server.preventDeployment {
        forall j | 0 <= j < |remotes| ensures RemoteRan(remotes[j], server) in d.events {
          assert RemoteRan(remotes[j], server) in rem.events;
        }
      }
    }
  }

  lemma PhasesSorted(a: seq<Event>, b: seq<Event>, c: seq<Event>)
    requires InPhase(a, 0) && InPhase(b, 1) && InPhase(c, 2)
    ensures var e := a + b + c; forall i, j :: 0 <= i < j < |e| ==> Phase(e[i]) <= Phase(e[j])
  {
  }

  /** Whether a server is put back into rotation, and the state it is left
      in: the resume call is made exactly when a load-balancer configuration
      exists, the server was taken offline, its sequences ended Ok (or were
      prevented) and the run does not stop after the marked server. A server
      that ends Ok is left Online, or Offline when the run stops after it; a
      server that fails stays out of rotation, unless taking it out was the
      call that failed. Without a load-balancer configuration no call is
      made and the state is unchanged. */
  lemma DeployState(server: ServerConfig, remotes: seq<RemoteSequence>, settings: Settings,
                    refuses: LbCall -> bool, env: Env, current: LbState, step: nat)
    ensures var d := DeployServer(server, remotes, settings, refuses, env, current, step);
      var hasConfig := settings.hasLoadBalancerConfig;
      var off := Transit(hasConfig, server, current, Offline, refuses);
      && (Balanced(server, CallFor(server, Online)) in d.events <==>
            hasConfig && off.ok && !settings.options.stopAfterMarkedServer &&
            (server.preventDeployment || RunRemotes(remotes, server, env, step).outcome == Ok))
      && (d.outcome == Ok && hasConfig ==> d.state == (if settings.options.stopAfterMarkedServer then Offline else Online))
      && (d.outcome != Ok && hasConfig ==> d.state == Offline || (!off.ok && d.state == current == Online))
      && (!hasConfig ==> CallsOf(d.events) == [] && d.state == current)
  {
    var d := DeployServer(server, remotes, settings, refuses, env, current, step);
    var off := Transit(settings.hasLoadBalancerConfig, server, current, Offline, refuses);
    var offEvents := BalancedEvents(server, off.calls);
    BalancedEventsFacts(server, off.calls);
    if off.ok {
      var rem := if server.preventDeployment then Progress([], Ok, step) else RunRemotes(remotes, server, env, step);
      RemoteEvents(remotes, server, env, step);
      var on := Transit(settings.hasLoadBalancerConfig, server, off.state, Online, refuses);
      var onEvents := if rem.outcome == Ok && !settings.options.stopAfterMarkedServer
        then BalancedEvents(server, on.calls)
        else [];
      BalancedEventsFacts(server, on.calls);
      assert d.events == offEvents + rem.events + onEvents;
      CallsOfConcat(offEvents, rem.events);
      CallsOfConcat(offEvents + rem.events, onEvents);
      var resume := Balanced(server, CallFor(server, Online));
      assert resume !in offEvents;
      assert resume !in rem.events;
      assert resume in d.events <==> resume in onEvents;
    }
  }

  // ---------------------------------------------------------------------
  // The rolling deployment

  /** The rollout touches only servers of the order and changes no other
      server's state; it passes one check point per sequence run; without a
      load-balancer configuration it makes no call and changes no state. */
  lemma {:induction false} RolloutFrame(order: seq<ServerConfig>, remotes: seq<RemoteSequence>, settings: Settings,
                                        refuses: LbCall -> bool, env: Env, states: map<ServerConfig, LbState>, step: nat)
    requires Covers(states, order)
    ensures var r := RunServers(order, remotes, settings, refuses, env, states, step);
      && (forall s :: s in Touched(r.events) ==> s in order)
      && (forall s :: s in states && s !in order ==> r.states[s] == states[s])
      && CheckPointsPassed(r.events, r.outcome, env.token, step, r.step)
      && (!settings.hasLoadBalancerConfig ==> CallsOf(r.events) == [] && r.states == states)
    decreases |order|
  {
    if order != [] {
      var s0 := order[0];
      var d := DeployServer(s0, remotes, settings, refuses, env, states[s0], step);
      DeployOrder(s0, remotes, settings, refuses, env, states[s0], step);
      DeployRuns(s0, remotes, settings, refuses, env, states[s0], step);
      DeployState(s0, remotes, settings, refuses, env, states[s0], step);
      var states' := states[s0 := d.state];
      if d.outcome == Ok {
        assert Covers(states', order[1..]);
        var rest := RunServers(order[1..], remotes, settings, refuses, env, states', d.step);
        RolloutFrame(order[1..], remotes, settings, refuses, env, states', d.step);
        TouchedConcat(d.events, rest.events);
        CountRunsConcat(d.events, rest.events);
        CallsOfConcat(d.events, rest.events);
        forall s | s in Touched(rest.events) ensures s in order {
          assert s in order[1..];
        }
        if !settings.hasLoadBalancerConfig {
          assert states' == states;
        }
      } else if !settings.hasLoadBalancerConfig {
        assert states' == states;
      }
    }
  }

  /** Where a rollout that did not end Ok stopped: at server `k`, having
      touched no server after it and left every later server's state as it
      was; the failed server stays out of rotation, unless taking it out is
      what failed. */
  ghost predicate StoppedAt(order: seq<ServerConfig>, k: nat, states: map<ServerConfig, LbState>, r: Stage,
                            hasConfig: bool, refuses: LbCall -> bool)
    requires k < |order| && Covers(r.states, order)
  {
    && (forall s :: s in Touched(r.events) ==> s in order[..k + 1])
    && (forall s :: s in states && s !in order[..k + 1] ==> s in r.states && r.states[s] == states[s])
    && (hasConfig ==> r.states[order[k]] == Offline ||
                      (refuses(CallFor(order[k], Offline)) && r.states[order[k]] == Online))
  }

  /** The rollout stops at its first server when that server does not end Ok. */
  lemma StoppedAtFirst(order: seq<ServerConfig>, remotes: seq<RemoteSequence>, settings: Settings,
                       refuses: LbCall -> bool, env: Env, states: map<ServerConfig, LbState>, step: nat)
    requires order != [] && Covers(states, order)
    requires DeployServer(order[0], remotes, settings, refuses, env, states[order[0]], step).outcome != Ok
    ensures StoppedAt(order, 0, states, RunServers(order, remotes, settings, refuses, env, states, step),
                      settings.hasLoadBalancerConfig, refuses)
  {
    var s0 := order[0];
    DeployOrder(s0, remotes, settings, refuses, env, states[s0], step);
    DeployState(s0, remotes, settings, refuses, env, states[s0], step);
    assert order[..1] == [s0];
  }

  /** Where the rest of the rollout stops, after a first server that ended
      Ok, the whole rollout stops. */
  lemma StoppedLater(order: seq<ServerConfig>, remotes: seq<RemoteSequence>, settings: Settings,
                     refuses: LbCall -> bool, env: Env, states: map<ServerConfig, LbState>, step: nat, k': nat)
    requires order != [] && Covers(states, order) && k' < |order| - 1
    requires var d := DeployServer(order[0], remotes, settings, refuses, env, states[order[0]], step);
      var states' := states[order[0] := d.state];
      && d.outcome == Ok
      && StoppedAt(order[1..], k', states', RunServers(order[1..], remotes, settings, refuses, env, states', d.step),
                   settings.hasLoadBalancerConfig, refuses)
    ensures StoppedAt(order, k' + 1, states, RunServers(order, remotes, settings, refuses, env, states, step),
                      settings.hasLoadBalancerConfig, refuses)
  {
    var s0 := order[0];
    var d := DeployServer(s0, remotes, settings, refuses, env, states[s0], step);
    DeployOrder(s0, remotes, settings, refuses, env, states[s0], step);
    var states' := states[s0 := d.state];
    var rest := RunServers(order[1..], remotes, settings, refuses, env, states', d.step);
    var r := RunServers(order, remotes, settings, refuses, env, states, step);
    var k := k' + 1;
    assert order[..k + 1] == [s0] + order[1..][..k' + 1];
    assert order[1..][k'] == order[k];
    TouchedConcat(d.events, rest.events);
    forall s | s in states && s !in order[..k + 1] ensures s in r.states && r.states[s] == states[s] {
      assert s != s0 && s !in order[1..][..k' + 1];
    }
  }

  /** What a rollout that stopped at server `k` did before it: the servers
      before `k` all ended Ok, so `k` is the first that did not, and its
      outcome is the rollout's; every remote sequence ran on each of them not
      prevented from deployment; and each of them, unless it is server `k`
      itself, is back in rotation (out of it when the run stops after the
      marked server). */
  ghost predicate FinishedBefore(order: seq<ServerConfig>, k: nat, remotes: seq<RemoteSequence>, settings: Settings,
                                 refuses: LbCall -> bool, env: Env, states: map<ServerConfig, LbState>, step: nat,
                                 r: Stage)
    requires k < |order| && Covers(states, order) && Covers(r.states, order)
  {
    var p := RunServers(order[..k], remotes, settings, refuses, env, states, step);
    && p.outcome == Ok
    && r.outcome == DeployServer(order[k], remotes, settings, refuses, env, p.states[order[k]], p.step).outcome
    && (forall j, x :: 0 <= j < k && 0 <= x < |remotes| && !order[j].preventDeployment ==>
          RemoteRan(remotes[x], order[j]) in r.events)
    && (settings.hasLoadBalancerConfig ==> forall j :: 0 <= j < k && order[j] != order[k] ==>
          r.states[order[j]] == (if settings.options.stopAfterMarkedServer then Offline else Online))
  }

  /** A rollout whose first server does not end Ok finished nothing before it. */
  lemma FinishedBeforeFirst(order: seq<ServerConfig>, remotes: seq<RemoteSequence>, settings: Settings,
                            refuses: LbCall -> bool, env: Env, states: map<ServerConfig, LbState>, step: nat)
    requires order != [] && Covers(states, order)
    requires DeployServer(order[0], remotes, settings, refuses, env, states[order[0]], step).outcome != Ok
    ensures var r := RunServers(order, remotes, settings, refuses, env, states, step);
      Covers(r.states, order) && FinishedBefore(order, 0, remotes, settings, refuses, env, states, step, r)
  {
    assert order[..0] == [];
  }

  /** After a first server that ended Ok, what the rest of the rollout
      finished before it stopped, the whole rollout finished too. */
  lemma FinishedBeforeLater(order: seq<ServerConfig>, remotes: seq<RemoteSequence>, settings: Settings,
                            refuses: LbCall -> bool, env: Env, states: map<ServerConfig, LbState>, step: nat, k': nat)
    requires order != [] && Covers(states, order) && k' < |order| - 1
    requires var d := DeployServer(order[0], remotes, settings, refuses, env, states[order[0]], step);
      var states' := states[order[0] := d.state];
      var rest := RunServers(order[1..], remotes, settings, refuses, env, states', d.step);
      && d.outcome == Ok
      && StoppedAt(order[1..], k', states', rest, settings.hasLoadBalancerConfig, refuses)
      && FinishedBefore(order[1..], k', remotes, settings, refuses, env, states', d.step, rest)
    ensures var r := RunServers(order, remotes, settings, refuses, env, states, step);
      Covers(r.states, order) && FinishedBefore(order, k' + 1, remotes, settings, refuses, env, states, step, r)
  {
    var s0 := order[0];
    var k := k' + 1;
    var d := DeployServer(s0, remotes, settings, refuses, env, states[s0], step);
    DeployRuns(s0, remotes, settings, refuses, env, states[s0], step);
    DeployState(s0, remotes, settings, refuses, env, states[s0], step);
    var states' := states[s0 := d.state];
    var rest := RunServers(order[1..], remotes, settings, refuses, env, states', d.step);
    var r := RunServers(order, remotes, settings, refuses, env, states, step);
    assert r.events == d.events + rest.events && r.states == rest.states;
    // The prefix before server k unfolds the same way.
    assert order[..k][0] == s0 && order[..k][1..] == order[1..][..k'];
    assert order[1..][k'] == order[k];
    var target := if settings.options.stopAfterMarkedServer then Offline else Online;
    forall j, x | 0 <= j < k && 0 <= x < |remotes| && !order[j].preventDeployment
      ensures RemoteRan(remotes[x], order[j]) in r.events
    {
      if j > 0 {
        assert order[j] == order[1..][j - 1];
      }
    }
    if settings.hasLoadBalancerConfig {
      forall j | 0 <= j < k && order[j] != order[k] ensures r.states[order[j]] == target {
        if j > 0 {
          assert order[j] == order[1..][j - 1];
        } else if s0 in order[1..][..k' + 1] {
          var j' :| 0 <= j' < k' + 1 && order[1..][..k' + 1][j'] == s0;
          assert order[1..][j'] == s0;
        }
      }
    }
  }

  /** The first server that fails or is cancelled ends the rollout: every
      server before it ended Ok, ran its remote sequences and is back in
      rotation; it stays out of rotation; nothing after it is touched. */
  lemma {:induction false} RolloutStopsAtFirstFailure(order: seq<ServerConfig>, remotes: seq<RemoteSequence>,
                                                      settings: Settings, refuses: LbCall -> bool, env: Env,
                                                      states: map<ServerConfig, LbState>, step: nat)
    requires Covers(states, order)
    ensures var r := RunServers(order, remotes, settings, refuses, env, states, step);
      r.outcome != Ok ==>
        exists k :: 0 <= k < |order| && Covers(r.states, order)
          && StoppedAt(order, k, states, r, settings.hasLoadBalancerConfig, refuses)
          && FinishedBefore(order, k, remotes, settings, refuses, env, states, step, r)
    decreases |order|
  {
    var r := RunServers(order, remotes, settings, refuses, env, states, step);
    if order != [] && r.outcome != Ok {
      var s0 := order[0];
      var d := DeployServer(s0, remotes, settings, refuses, env, states[s0], step);
      if d.outcome != Ok {
        StoppedAtFirst(order, remotes, settings, refuses, env, states, step);
        FinishedBeforeFirst(order, remotes, settings, refuses, env, states, step);
      } else {
        var states' := states[s0 := d.state];
        assert Covers(states', order[1..]);
        var rest := RunServers(order[1..], remotes, settings, refuses, env, states', d.step);
        RolloutStopsAtFirstFailure(order[1..], remotes, settings, refuses, env, states', d.step);
        var k' :| 0 <= k' < |order[1..]| && Covers(rest.states, order[1..])
          && StoppedAt(order[1..], k', states', rest, settings.hasLoadBalancerConfig, refuses)
          && FinishedBefore(order[1..], k', remotes, settings, refuses, env, states', d.step, rest);
        StoppedLater(order, remotes, settings, refuses, env, states, step, k');
        FinishedBeforeLater(order, remotes, settings, refuses, env, states, step, k');
      }
    }
  }

  /** A rollout that ends Ok ran every remote sequence on every server not
      prevented from deployment, and left every server of the order back in
      rotation (or out of it, when the run stops after the marked server). */
  lemma {:induction false} RolloutCompletes(order: seq<ServerConfig>, remotes: seq<RemoteSequence>,
                                            settings: Settings, refuses: LbCall -> bool, env: Env,
                                            states: map<ServerConfig, LbState>, step: nat)
    requires Covers(states, order)
    ensures var r := RunServers(order, remotes, settings, refuses, env, states, step);
      r.outcome == Ok ==>
        && (settings.hasLoadBalancerConfig ==> forall i :: 0 <= i < |order| ==>
              r.states[order[i]] == (if settings.options.stopAfterMarkedServer then Offline else Online))
        && (forall i, j :: 0 <= i < |order| && 0 <= j < |remotes| && !order[i].preventDeployment ==>
              RemoteRan(remotes[j], order[i]) in r.events)
    decreases |order|
  {
    var r := RunServers(order, remotes, settings, refuses, env, states, step);
    if order != [] && r.outcome == Ok {
      var s0 := order[0];
      var d := DeployServer(s0, remotes, settings, refuses, env, states[s0], step);
      DeployRuns(s0, remotes, settings, refuses, env, states[s0], step);
      DeployState(s0, remotes, settings, refuses, env, states[s0], step);
      var states' := states[s0 := d.state];
      assert Covers(states', order[1..]);
      var rest := RunServers(order[1..], remotes, settings, refuses, env, states', d.step);
      RolloutCompletes(order[1..], remotes, settings, refuses, env, states', d.step);
      RolloutFrame(order[1..], remotes, settings, refuses, env, states', d.step);
      assert r.events == d.events + rest.events;
      forall i | 0 < i < |order| ensures order[i] == order[1..][i - 1] {
      }
    }
  }

  // ---------------------------------------------------------------------
  // A whole run

  predicate NoLocalRuns(events: seq<Event>) {
    forall i :: 0 <= i < |events| ==> !events[i].LocalRan?
  }

  lemma NoLocalRunsConcat(a: seq<Event>, b: seq<Event>, c: seq<Event>)
    requires NoLocalRuns(a) && NoLocalRuns(b) && NoLocalRuns(c)
    ensures NoLocalRuns(a + b + c)
  {
  }

  lemma CheckPointsCompose(a: seq<Event>, b: seq<Event>, outcome: Outcome, token: CancellationToken,
                           from: nat, mid: nat, to: nat)
    requires CheckPointsPassed(a, Ok, token, from, mid) && CheckPointsPassed(b, outcome, token, mid, to)
    ensures CheckPointsPassed(a + b, outcome, token, from, to)
  {
    CountRunsConcat(a, b);
  }

  lemma {:induction false} RolloutRunsNoLocal(order: seq<ServerConfig>, remotes: seq<RemoteSequence>, settings: Settings,
                                              refuses: LbCall -> bool, env: Env, states: map<ServerConfig, LbState>, step: nat)
    requires Covers(states, order)
    ensures NoLocalRuns(RunServers(order, remotes, settings, refuses, env, states, step).events)
    decreases |order|
  {
    if order != [] {
      var s0 := order[0];
      var d := DeployServer(s0, remotes, settings, refuses, env, states[s0], step);
      DeployOrder(s0, remotes, settings, refuses, env, states[s0], step);
      if d.outcome == Ok {
        var states' := states[s0 := d.state];
        assert Covers(states', order[1..]);
        RolloutRunsNoLocal(order[1..], remotes, settings, refuses, env, states', d.step);
      }
    }
  }

  /** What holds of the remote phase whichever way the order is found. */
  ghost predicate RemoteFacts(servers: seq<ServerConfig>, hasConfig: bool, token: CancellationToken,
                              states: map<ServerConfig, LbState>, step: nat, r: Stage)
  {
    && (forall s :: s in Touched(r.events) ==> s in servers)
    && (forall s :: s in states && s !in servers ==> s in r.states && r.states[s] == states[s])
    && NoLocalRuns(r.events)
    && CheckPointsPassed(r.events, r.outcome, token, step, r.step)
    && (!hasConfig ==> CallsOf(r.events) == [] && r.states == states)
  }

  lemma RolloutFacts(order: seq<ServerConfig>, remotes: seq<RemoteSequence>, settings: Settings,
                     refuses: LbCall -> bool, env: Env, states: map<ServerConfig, LbState>, step: nat)
    requires Covers(states, order)
    requires forall i :: 0 <= i < |order| ==> order[i] in settings.servers
    ensures RemoteFacts(settings.servers, settings.hasLoadBalancerConfig, env.token, states, step,
                        RunServers(order, remotes, settings, refuses, env, states, step))
  {
    RolloutFrame(order, remotes, settings, refuses, env, states, step);
    RolloutRunsNoLocal(order, remotes, settings, refuses, env, states, step);
  }

  /** The facts of a remote phase survive putting the calls that resumed a
      configured server in front of it. */
  lemma ResumedFirst(m: ServerConfig, t: Transition, servers: seq<ServerConfig>, hasConfig: bool,
                     token: CancellationToken, states: map<ServerConfig, LbState>, step: nat, rest: Stage)
    requires m in servers && m in states
    requires !hasConfig ==> t.calls == [] && t.state == states[m]
    requires RemoteFacts(servers, hasConfig, token, states[m := t.state], step, rest)
    ensures RemoteFacts(servers, hasConfig, token, states, step,
                        Stage(BalancedEvents(m, t.calls) + rest.events, rest.outcome, rest.step, rest.states))
  {
    var resumed := BalancedEvents(m, t.calls);
    BalancedEventsFacts(m, t.calls);
    assert NoLocalRuns(resumed);
    NoLocalRunsConcat(resumed, rest.events, []);
    assert resumed + rest.events + [] == resumed + rest.events;
    TouchedConcat(resumed, rest.events);
    CallsOfConcat(resumed, rest.events);
    CheckPointsCompose(resumed, rest.events, rest.outcome, token, step, step, rest.step);
    if !hasConfig {
      assert states[m := t.state] == states;
    }
  }

  lemma ResumeThenRollout(m: ServerConfig, remotes: seq<RemoteSequence>, settings: Settings, refuses: LbCall -> bool,
                          env: Env, states: map<ServerConfig, LbState>, step: nat)
    requires Covers(states, settings.servers)
    requires MarkedToResume(settings.servers, settings.options) == Some(m)
    ensures RemoteFacts(settings.servers, settings.hasLoadBalancerConfig, env.token, states, step,
                        RemotePhase(remotes, settings, refuses, env, states, step))
  {
    var t := Transit(settings.hasLoadBalancerConfig, m, states[m], Online, refuses);
    var states' := states[m := t.state];
    OrderHoldsConfiguredServers(settings.servers, settings.options);
    if t.ok {
      var order := ServerOrder(settings.servers, settings.options).value;
      assert Covers(states', order);
      var rest := RunServers(order, remotes, settings, refuses, env, states', step);
      RolloutFacts(order, remotes, settings, refuses, env, states', step);
      ResumedFirst(m, t, settings.servers, settings.hasLoadBalancerConfig, env.token, states, step, rest);
    } else {
      var none := Stage([], Failed, step, states');
      assert RemoteFacts(settings.servers, settings.hasLoadBalancerConfig, env.token, states', step, none);
      ResumedFirst(m, t, settings.servers, settings.hasLoadBalancerConfig, env.token, states, step, none);
      assert BalancedEvents(m, t.calls) + [] == BalancedEvents(m, t.calls);
    }
  }

  /** The remote phase: an order that cannot be computed fails the run
      before any server is touched; otherwise only configured servers are
      touched, no local sequence runs, and without a load-balancer
      configuration no call is made and no state changes. */
  lemma RemotePhaseFrame(remotes: seq<RemoteSequence>, settings: Settings, refuses: LbCall -> bool,
                         env: Env, states: map<ServerConfig, LbState>, step: nat)
    requires Covers(states, settings.servers)
    ensures var r := RemotePhase(remotes, settings, refuses, env, states, step);
      && (ServerOrder(settings.servers, settings.options).Failure? ==> r == Stage([], Failed, step, states))
      && RemoteFacts(settings.servers, settings.hasLoadBalancerConfig, env.token, states, step, r)
  {
    match MarkedToResume(settings.servers, settings.options)
    case Some(m) =>
      ResumeThenRollout(m, remotes, settings, refuses, env, states, step);
    case None =>
      match ServerOrder(settings.servers, settings.options)
      case Failure(_) =>
      case Success(order) =>
        OrderHoldsConfiguredServers(settings.servers, settings.options);
        RolloutFacts(order, remotes, settings, refuses, env, states, step);
  }

  /** Every local sequence runs, in registration order, before anything is
      done to any server; a local phase that does not end Ok ends the run
      with no server touched and no load-balancer call. */
  lemma LocalsBeforeRemotes(locals: seq<LocalSequence>, remotes: seq<RemoteSequence>, settings: Settings,
                            refuses: LbCall -> bool, env: Env, states: map<ServerConfig, LbState>)
    requires Covers(states, settings.servers)
    ensures var r := RunAll(locals, remotes, settings, refuses, env, states);
      var l := RunLocals(locals, env, 0);
      && |l.events| <= |locals| && |l.events| <= |r.events|
      && (forall i :: 0 <= i < |l.events| ==> r.events[i] == LocalRan(locals[i]))
      && (forall i :: |l.events| <= i < |r.events| ==> !r.events[i].LocalRan?)
      && (l.outcome == Ok ==> |l.events| == |locals|)
      && (l.outcome != Ok ==> r == Stage(l.events, l.outcome, l.step, states) && CallsOf(r.events) == [])
  {
    var l := RunLocals(locals, env, 0);
    RunEachInOrder(locals, LocalEvent, env.localOutcome, env.token, 0);
    if l.outcome == Ok {
      var rem := RemotePhase(remotes, settings, refuses, env, states, l.step);
      RemotePhaseFrame(remotes, settings, refuses, env, states, l.step);
      LocalsThenRemotes(locals, l.events, rem.events);
    } else {
      LocalsMakeNoCalls(l.events);
    }
  }

  lemma LocalsThenRemotes(locals: seq<LocalSequence>, a: seq<Event>, b: seq<Event>)
    requires |a| <= |locals| && forall i :: 0 <= i < |a| ==> a[i] == LocalRan(locals[i])
    requires NoLocalRuns(b)
    ensures forall i :: 0 <= i < |a| ==> (a + b)[i] == LocalRan(locals[i])
    ensures forall i :: |a| <= i < |a + b| ==> !(a + b)[i].LocalRan?
  {
    forall i | |a| <= i < |a + b|
      ensures !(a + b)[i].LocalRan?
    {
      assert (a + b)[i] == b[i - |a|];
    }
  }

  lemma LocalRunsMakeNoCalls(locals: seq<LocalSequence>, env: Env, step: nat)
    ensures CallsOf(RunLocals(locals, env, step).events) == []
  {
    RunEachInOrder(locals, LocalEvent, env.localOutcome, env.token, step);
    LocalsMakeNoCalls(RunLocals(locals, env, step).events);
  }

  lemma {:induction false} LocalsMakeNoCalls(events: seq<Event>)
    requires forall i :: 0 <= i < |events| ==> events[i].LocalRan?
    ensures CallsOf(events) == []
    decreases |events|
  {
    if events != [] {
      LocalsMakeNoCalls(events[1..]);
    }
  }

  /** A whole run passes one check point per sequence it runs, and a check
      point that finds cancellation requested ends it Cancelled; so with a
      token cancelled from check point k on, at most k sequences start, and
      a run that reaches check point k ends Cancelled there; a run touches configured servers only,
      and without a load-balancer configuration it makes no call and
      leaves every server's state as it was. */
  lemma RunAllBounds(locals: seq<LocalSequence>, remotes: seq<RemoteSequence>, settings: Settings,
                     refuses: LbCall -> bool, env: Env, states: map<ServerConfig, LbState>, k: nat)
    requires Covers(states, settings.servers)
    ensures var r := RunAll(locals, remotes, settings, refuses, env, states);
      && CheckPointsPassed(r.events, r.outcome, env.token, 0, r.step)
      && (env.token == CancelledFrom(k) ==> CountRuns(r.events) <= k && r.step <= k + 1)
      && (env.token == CancelledFrom(k) && r.step == k + 1 ==> r.outcome == Cancelled)
      && (forall s :: s in Touched(r.events) ==> s in settings.servers)
      && (!settings.hasLoadBalancerConfig ==> CallsOf(r.events) == [] && r.states == states)
  {
    var r := RunAll(locals, remotes, settings, refuses, env, states);
    var l := RunLocals(locals, env, 0);
    RunEachCheckPoints(locals, LocalEvent, env.localOutcome, env.token, 0);
    RunEachInOrder(locals, LocalEvent, env.localOutcome, env.token, 0);
    LocalsMakeNoCalls(l.events);
    assert Touched(l.events) == {} by {
      LocalsTouchNothing(l.events);
    }
    if l.outcome == Ok {
      var rem := RemotePhase(remotes, settings, refuses, env, states, l.step);
      RemotePhaseFrame(remotes, settings, refuses, env, states, l.step);
      CheckPointsCompose(l.events, rem.events, rem.outcome, env.token, 0, l.step, rem.step);
      TouchedConcat(l.events, rem.events);
      CallsOfConcat(l.events, rem.events);
    }
    if env.token == CancelledFrom(k) && CountRuns(r.events) > 0 {
      assert !env.token.IsCancellationRequested(CountRuns(r.events) - 1);
    }
  }

  lemma {:induction false} LocalsTouchNothing(events: seq<Event>)
    requires forall i :: 0 <= i < |events| ==> events[i].LocalRan?
    ensures Touched(events) == {}
    decreases |events|
  {
    if events != [] {
      LocalsTouchNothing(events[1..]);
    }
  }

  // ---------------------------------------------------------------------
  // DryRun against Execute

  lemma {:induction false} RunEachAllOk<T>(items: seq<T>, ran: T -> Event, outcome: T -> Outcome, step: nat)
    requires forall i :: 0 <= i < |items| ==> outcome(items[i]) == Ok
    ensures var r := RunEach(items, ran, outcome, NeverCancelled, step);
      r.outcome == Ok && |r.events| == |items| && r.step == step + |items|
    decreases |items|
  {
    if items != [] {
      RunEachAllOk(items[1..], ran, outcome, step + 1);
    }
  }

  /** When the balancer refuses nothing, no option is set, nothing is
      prevented, fails or is cancelled, one server's deployment is exactly
      its dry run. */
  lemma DeployMatchesDryRun(server: ServerConfig, remotes: seq<RemoteSequence>, settings: Settings,
                            refuses: LbCall -> bool, env: Env, current: LbState, step: nat)
    requires !settings.options.stopAfterMarkedServer && !server.preventDeployment
    requires env.token == NeverCancelled && forall r, s :: env.remoteOutcome(r, s) == Ok
    requires forall c :: !refuses(c)
    ensures var d := DeployServer(server, remotes, settings, refuses, env, current, step);
      var hasConfig := settings.hasLoadBalancerConfig;
      var off := Transit(hasConfig, server, current, Offline, Accepting);
      var on := Transit(hasConfig, server, off.state, Online, Accepting);
      && d.outcome == Ok && d.state == on.state && d.step == step + |remotes|
      && d.events == BalancedEvents(server, off.calls) + DryRemotes(remotes, server) + BalancedEvents(server, on.calls)
  {
    var ran := RemoteRanOn(server);
    var outcome := RemoteOutcomeOn(env, server);
    RunEachAllOk(remotes, ran, outcome, step);
    RemoteEvents(remotes, server, env, step);
    var rem := RunRemotes(remotes, server, env, step);
    assert rem.events == DryRemotes(remotes, server);
  }

  lemma {:induction false} RolloutMatchesDryRun(order: seq<ServerConfig>, remotes: seq<RemoteSequence>, settings: Settings,
                                                refuses: LbCall -> bool, env: Env, states: map<ServerConfig, LbState>, step: nat)
    requires Covers(states, order)
    requires !settings.options.stopAfterMarkedServer
    requires forall i :: 0 <= i < |order| ==> !order[i].preventDeployment
    requires env.token == NeverCancelled && forall r, s :: env.remoteOutcome(r, s) == Ok
    requires forall c :: !refuses(c)
    ensures var r := RunServers(order, remotes, settings, refuses, env, states, step);
      var p := DryServers(order, remotes, settings.hasLoadBalancerConfig, states);
      r.outcome == Ok && r.events == p.events && r.states == p.states
    decreases |order|
  {
    if order != [] {
      var s0 := order[0];
      DeployMatchesDryRun(s0, remotes, settings, refuses, env, states[s0], step);
      var d := DeployServer(s0, remotes, settings, refuses, env, states[s0], step);
      var states' := states[s0 := d.state];
      assert Covers(states', order[1..]);
      RolloutMatchesDryRun(order[1..], remotes, settings, refuses, env, states', d.step);
    }
  }

  /** A dry run lists what a run would do when nothing goes wrong: with no
      option set, no cancellation, no failing sequence, no deployment
      prevented and a balancer that accepts every call, Execute makes
      exactly the dry run's steps, in the same order, and leaves every
      server in the same state. */
  lemma DryRunMatchesExecution(locals: seq<LocalSequence>, remotes: seq<RemoteSequence>, settings: Settings,
                               refuses: LbCall -> bool, env: Env, states: map<ServerConfig, LbState>)
    requires Covers(states, settings.servers)
    requires settings.options == RunOptions(false, false)
    requires forall i :: 0 <= i < |settings.servers| ==> !settings.servers[i].preventDeployment
    requires env.token == NeverCancelled
    requires forall l :: env.localOutcome(l) == Ok
    requires forall r, s :: env.remoteOutcome(r, s) == Ok
    requires forall c :: !refuses(c)
    ensures var r := RunAll(locals, remotes, settings, refuses, env, states);
      var p := DryRunPlan(locals, remotes, settings.servers, settings.hasLoadBalancerConfig, states);
      r.outcome == Ok && r.events == p.events && r.states == p.states
  {
    RunEachAllOk(locals, LocalEvent, env.localOutcome, 0);
    RunEachInOrder(locals, LocalEvent, env.localOutcome, env.token, 0);
    var l := RunLocals(locals, env, 0);
    assert l.events == DryLocals(locals);
    RolloutMatchesDryRun(settings.servers, remotes, settings, refuses, env, states, l.step);
  }
}
