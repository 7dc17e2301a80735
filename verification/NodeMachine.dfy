/** The event loop of `src/node/mod.rs` with the command bookkeeping of `src/node/execute.rs`, over the
    in-place machines. Every method is proved against the operation of the same name in `NodeModel`. */
module NodeMachine {
  import opened Types
  import opened Ordering
  import opened Collections
  import opened AppModel
  import opened TrackerModel
  import opened NodeModel
  import NodeInvariants
  import NodeRuns
  import PeerModel
  import TunnelModel
  import PeerMachine
  import TunnelMachine
  import TrackerMachine

  lemma MoreTunnelIds(turn: nat, cs: multiset<Command>, c: Command)
    ensures TunnelIds(turn, cs + multiset{c})
            == TunnelIds(turn, cs) + if c.DhtLookupPeer? then {QueryId(turn, PeerTarget(c.lookup), cs[c])} else {}
  {
  }

  lemma MoreServiceIds(turn: nat, cs: multiset<Command>, c: Command)
    ensures ServiceIds(turn, cs + multiset{c})
            == ServiceIds(turn, cs) + if c.DhtGetProviders? then {QueryId(turn, ServiceTarget(c.wanted), cs[c])} else {}
  {
  }

  /** The context after the first commands of a transition, before the turn is over. */
  ghost function Partly(ctx: Context, cs: multiset<Command>): Context {
    Execute(ctx, cs).(turn := ctx.turn)
  }

  lemma PartlyNothing(ctx: Context)
    ensures Partly(ctx, multiset{}) == ctx
  {
    assert TunnelIds(ctx.turn, multiset{}) == {} && ServiceIds(ctx.turn, multiset{}) == {};
  }

  lemma PeersAsked(m: map<QueryId, PeerId>, ids: set<QueryId>, turn: nat, p: PeerId, k: nat)
    ensures var one := QueryId(turn, PeerTarget(p), k); var more := ids + {one};
            m + (map id | id in more && id.target.PeerTarget? :: id.target.peer)
            == (m + (map id | id in ids && id.target.PeerTarget? :: id.target.peer))[one := p]
  {
  }

  lemma ServicesAsked(m: map<QueryId, ServiceName>, ids: set<QueryId>, turn: nat, n: ServiceName, k: nat)
    ensures var one := QueryId(turn, ServiceTarget(n), k); var more := ids + {one};
            m + (map id | id in more && id.target.ServiceTarget? :: id.target.service)
            == (m + (map id | id in ids && id.target.ServiceTarget? :: id.target.service))[one := n]
  {
  }

  lemma LookupIssued(ctx: Context, cs: multiset<Command>, p: PeerId)
    ensures var before := Partly(ctx, cs); var c := DhtLookupPeer(p);
            Partly(ctx, cs + multiset{c})
            == before.(tunnelQueries := before.tunnelQueries[QueryId(ctx.turn, PeerTarget(p), cs[c]) := p])
  {
    hide TunnelIds, ServiceIds;
    MoreTunnelIds(ctx.turn, cs, DhtLookupPeer(p));
    MoreServiceIds(ctx.turn, cs, DhtLookupPeer(p));
    PeersAsked(ctx.tunnelQueries, TunnelIds(ctx.turn, cs), ctx.turn, p, cs[DhtLookupPeer(p)]);
  }

  lemma QueryIssued(ctx: Context, cs: multiset<Command>, n: ServiceName)
    ensures var before := Partly(ctx, cs); var c := DhtGetProviders(n);
            Partly(ctx, cs + multiset{c})
            == before.(serviceQueries := before.serviceQueries[QueryId(ctx.turn, ServiceTarget(n), cs[c]) := n])
  {
    hide TunnelIds, ServiceIds;
    MoreTunnelIds(ctx.turn, cs, DhtGetProviders(n));
    MoreServiceIds(ctx.turn, cs, DhtGetProviders(n));
    ServicesAsked(ctx.serviceQueries, ServiceIds(ctx.turn, cs), ctx.turn, n, cs[DhtGetProviders(n)]);
  }

  lemma NothingIssued(ctx: Context, cs: multiset<Command>, c: Command)
    requires !c.DhtLookupPeer? && !c.DhtGetProviders?
    ensures Partly(ctx, cs + multiset{c}) == Partly(ctx, cs)
  {
    hide TunnelIds, ServiceIds;
    MoreTunnelIds(ctx.turn, cs, c);
    MoreServiceIds(ctx.turn, cs, c);
    assert TunnelIds(ctx.turn, cs + multiset{c}) == TunnelIds(ctx.turn, cs);
    assert ServiceIds(ctx.turn, cs + multiset{c}) == ServiceIds(ctx.turn, cs);
  }

  lemma TargetsAreRanked(s: TunnelModel.Tunnel, targets: seq<PeerId>)
    requires forall p :: p in targets <==> p in s.q.pendingByPeer || p in s.q.awaiting
    requires forall i, j | 0 <= i < j < |targets| :: targets[i] < targets[j]
    ensures targets == TargetPeers(s)
  {
    OrdersAreTotal({});
    SortedIsRank(targets, s.q.pendingByPeer.Keys + s.q.awaiting.Keys, ByKey());
  }

  lemma {:induction false} FeedingStops(n: Node, es: seq<Event>, i: nat, now: Time, pick: PeerModel.Pick)
    requires i <= |es| && Stopped(FeedAll(n, es[..i], now, pick))
    ensures FeedAll(n, es, now, pick) == FeedAll(n, es[..i], now, pick)
    decreases |es|
  {
    hide FeedOne;
    if i < |es| {
      var k := |es| - 1;
      assert es[..k][..i] == es[..i];
      FeedingStops(n, es[..k], i, now, pick);
    } else {
      assert es[..i] == es;
    }
  }

  class EventLoop {
    const peer: PeerMachine.PeerState
    const tunnel: TunnelMachine.TunnelState
    const connections: TrackerMachine.ConnectionStateMachine
    const bootstrap: set<PeerId>
    var kadTunnelQueries: map<QueryId, PeerId>
    var kadServiceQueries: map<QueryId, ServiceName>
    var directPeers: set<PeerId>
    var turn: nat
    ghost var log: seq<Record>
    ghost var everReady: bool

    function TheApp(): App reads peer, tunnel { App(peer.View(), tunnel.View()) }

    function TheContext(): Context
      reads this
    {
      Context(bootstrap, kadTunnelQueries, kadServiceQueries, directPeers, turn)
    }

    ghost function View(): Node
      reads this, peer, tunnel, connections
    {
      Node(TheApp(), connections.View(), TheContext(), log, everReady)
    }

    predicate ShuttingDown() reads peer { peer.phase.ShuttingDown? }

    // ----- executing commands -----

    method ExecuteCommands(commands: seq<Command>)
      modifies this`kadTunnelQueries, this`kadServiceQueries, this`turn
      ensures TheContext() == Execute(old(TheContext()), multiset(commands))
    {
      hide Partly, Execute;
      ghost var was := TheContext();
      PartlyNothing(was);
      for i := 0 to |commands|
        invariant TheContext() == Partly(was, multiset(commands[..i]))
        invariant turn == old(turn)
      {
        var issued := multiset(commands[..i]);
        assert commands[..i + 1] == commands[..i] + [commands[i]];
        match commands[i] {
          case DhtLookupPeer(p) =>
            LookupIssued(was, issued, p);
            kadTunnelQueries := kadTunnelQueries[QueryId(turn, PeerTarget(p), issued[commands[i]]) := p];
          case DhtGetProviders(n) =>
            QueryIssued(was, issued, n);
            kadServiceQueries := kadServiceQueries[QueryId(turn, ServiceTarget(n), issued[commands[i]]) := n];
          case _ => NothingIssued(was, issued, commands[i]);
        }
      }
      assert commands[..|commands|] == commands;
      TurnOver(was, multiset(commands));
      turn := turn + 1;
    }

    // ----- one transition of the application state -----

    method AppTransition(event: Event, now: Time, pick: PeerModel.Pick) returns (commands: seq<Command>)
      modifies peer, tunnel
      ensures var o := AppStep(old(TheApp()), AppInput(event, now, pick));
              TheApp() == o.app && multiset(commands) == o.peerCommands + o.tunnelCommands
    {
      hide PeerModel.PeerStep, TunnelModel.Step;
      var oldPhase := peer.phase;
      commands := peer.Transition(event, pick);
      if oldPhase != peer.phase {
        var bridged := tunnel.Transition(PhaseChanged(oldPhase, peer.phase), now);
        commands := commands + bridged;
      }
      var rest := tunnel.Transition(event, now);
      commands := commands + rest;
    }

    method Deliver(event: Event, now: Time, pick: PeerModel.Pick)
      modifies this, peer, tunnel
      ensures View() == Transit(old(View()), event, now, pick)
    {
      hide AppStep, Execute;
      ghost var before := tunnel.View();
      var commands := AppTransition(event, now, pick);
      ExecuteCommands(commands);
      log := log + [Record(before, connections.View(), event, now, pick, tunnel.View(), multiset(commands))];
      everReady := everReady || peer.phase.Ready?;
    }

    // ----- arming hole-punch attempts -----

    method ArmHolePunchForTunnelTargets(now: Time, pick: PeerModel.Pick)
      modifies this, peer, tunnel, connections
      ensures View() == Arm(old(View()), now, pick)
    {
      hide ArmOne, TargetPeers;
      if ShuttingDown() { return; }
      var targets := tunnel.HolepunchTargetPeers();
      TargetsAreRanked(tunnel.View(), targets);
      ghost var was := View();
      for i := 0 to |targets|
        invariant View() == ArmAll(was, targets[..i], now, pick)
      {
        assert targets[..i + 1][..i] == targets[..i];
        ArmPeer(targets[i], now, pick);
      }
      assert targets[..|targets|] == targets;
    }

    method ArmPeer(p: PeerId, now: Time, pick: PeerModel.Pick)
      modifies this, peer, tunnel, connections
      ensures View() == ArmOne(old(View()), p, now, pick)
    {
      hide Transit;
      var attemptId := connections.StartHolePunchAttempt(p, HOLE_PUNCH_TIMEOUT, now);
      if attemptId.Some? {
        Deliver(HolePunchAttemptStarted(p, attemptId.value), now, pick);
      }
    }

    // ----- feeding events -----

    method FeedEvent(event: Event, now: Time, pick: PeerModel.Pick)
      modifies this, peer, tunnel, connections
      ensures View() == FeedOne(old(View()), event, now, pick)
    {
      hide Transit, Arm;
      var scoped := event;
      if event.HolePunchFailed? {
        var p := event.punchFailedPeer;
        if p !in connections.holePunchAttempts { return; }
        scoped := HolePunchAttemptFailed(p, connections.holePunchAttempts[p].attemptId);
      } else if event.HolePunchAttemptFailed? && event.failedPeer in connections.holePunchAttempts
                && connections.holePunchAttempts[event.failedPeer].attemptId != event.failedAttempt {
        return;
      }
      Deliver(scoped, now, pick);
      ArmHolePunchForTunnelTargets(now, pick);
    }

    method FeedEvents(events: seq<Event>, now: Time, pick: PeerModel.Pick)
      requires !ShuttingDown()
      modifies this, peer, tunnel, connections
      ensures View() == FeedAll(old(View()), events, now, pick)
    {
      hide FeedOne;
      ghost var was := View();
      for i := 0 to |events|
        invariant View() == FeedAll(was, events[..i], now, pick)
        invariant !ShuttingDown()
      {
        assert events[..i + 1][..i] == events[..i];
        FeedEvent(events[i], now, pick);
        if ShuttingDown() {
          FeedingStops(was, events, i + 1, now, pick);
          return;
        }
      }
      assert events[..|events|] == events;
    }

    // ----- swarm events -----

    method TranslateSwarmEvent(event: SwarmEvent) returns (events: seq<Event>)
      modifies this`kadTunnelQueries, this`kadServiceQueries
      ensures (TheContext(), events) == Translate(old(TheContext()), event)
    {
      hide SortedProviders;
      events := [];
      match event {
        case NewListenAddr => events := [ListeningOn];
        case ConnEstablished(p, _, relayed, remote) =>
          if p in bootstrap { events := [BootstrapConnected(p, remote)]; }
          events := events + [TunnelPeerConnected(p, relayed)];
        case OutgoingConnError(dialed, _, localPeerId, pendingAbort) =>
          if dialed.Some? && dialed.value !in bootstrap && !localPeerId {
            events := [TunnelDialFailed(dialed.value, pendingAbort)];
          }
        case KadBootstrapResult(ok) => events := [if ok then KademliaBootstrapOk else KademliaBootstrapFailed];
        case KadClosestPeers(id, connectedNow) =>
          if id in kadTunnelQueries {
            events := [DhtPeerLookupComplete(kadTunnelQueries[id], connectedNow)];
            kadTunnelQueries := kadTunnelQueries - {id};
          }
        case KadProviders(id, result) =>
          if id in kadServiceQueries {
            var outcome := TranslateGetProviders(id, result);
            events := [outcome];
          }
        case MdnsFound(found) => events := [MdnsDiscovered(found)];
        case MdnsGone(gone) => events := [MdnsExpired(gone)];
        case IdentifyReceived(p, listen) => events := [PeerIdentified(p, listen)];
        case NatProbed(status) => events := [NatStatusChanged(status)];
        case RelayAccepted(relay) => events := [RelayReservationAccepted(relay)];
        case RelayListenerClosed(relay) => events := [RelayReservationFailed(relay)];
        case DcutrFailed(p) => events := [HolePunchFailed(p)];
        case ExternalConfirmed(a) => events := [ExternalAddrConfirmed(a)];
        case ExternalExpired(a) => events := [ExternalAddrExpired(a)];
        case _ =>
      }
    }

    /** The one outcome of a provider query, which is forgotten. */
    method TranslateGetProviders(id: QueryId, result: ProvidersResult) returns (event: Event)
      requires id in kadServiceQueries
      modifies this`kadServiceQueries
      ensures kadServiceQueries == old(kadServiceQueries) - {id}
      ensures event == ProvidersEvent(old(kadServiceQueries)[id], result)
    {
      var name := kadServiceQueries[id];
      kadServiceQueries := kadServiceQueries - {id};
      event := DhtServiceFailed(name);
      if result.Found? && result.providers != {} {
        OrdersAreTotal(result.connected);
        var r := SortSet(result.providers, ByConnection(result.connected));
        event := DhtServiceResolved(name, seq(|r|, i requires 0 <= i < |r| => (r[i], r[i] in result.connected)));
      }
    }

    /** The tracker and registry updates before any event is fed, and the events they give rise to. */
    method BookkeepSwarmEvent(event: SwarmEvent, now: Time) returns (synthetic: seq<Event>)
      modifies this`directPeers, connections
      ensures (View(), synthetic) == Bookkeep(old(View()), event, now)
    {
      hide Established, Closed, TrackerModel.Dialing, OutgoingError, StartAttempt;
      synthetic := [];
      match event {
        case ConnEstablished(p, c, relayed, _) => synthetic := BookkeepEstablished(event, now);
        case ConnClosed(p, c, numEstablished) =>
          var update := connections.OnConnectionClosed(p, c, numEstablished);
          synthetic := [ConnectionLost(p, ConnectionCount(connections.View(), p))];
          directPeers := directPeers - if update.clearDirectRegistry then {p} else {};
        case SwarmDialing(dialing, c) =>
          if dialing.Some? { var _ := connections.OnDialing(dialing.value, c); }
        case OutgoingConnError(dialed, c, _, _) => var _ := connections.OnOutgoingConnectionError(dialed, c);
        case _ =>
      }
    }

    method BookkeepEstablished(event: SwarmEvent, now: Time) returns (synthetic: seq<Event>)
      requires event.ConnEstablished?
      modifies this`directPeers, connections
      ensures (View(), synthetic) == Bookkeep(old(View()), event, now)
    {
      hide Established, StartAttempt;
      synthetic := [];
      var p := event.peer;
      var update := connections.OnConnectionEstablished(p, event.id, event.relayed);
      var started := None;
      if event.relayed && (p in tunnel.pendingByPeer || p in tunnel.awaitingHolepunch) {
        started := connections.StartHolePunchAttempt(p, HOLE_PUNCH_TIMEOUT, now);
      }
      if started.Some? { synthetic := [HolePunchAttemptStarted(p, started.value)]; }
      directPeers := directPeers + if update.direct then {p} else {};
    }

    method HandleSwarmEvent(event: SwarmEvent, portMapped: bool, now: Time, pick: PeerModel.Pick)
      requires !ShuttingDown()
      modifies this, peer, tunnel, connections
      ensures View() == OnSwarmEvent(old(View()), event, portMapped, now, pick)
    {
      hide OnSwarmEvent, Bookkeep, Translate, Transit, FeedAll;
      ghost var was := View();
      var synthetic := BookkeepSwarmEvent(event, now);
      ghost var kept := View();
      if portMapped { AdoptPortMapping(now, pick); }
      ghost var adopted := View();
      var translated := TranslateSwarmEvent(event);
      EventInStages(was, event, portMapped, now, pick, kept, synthetic, adopted, TheContext(), translated);
      FeedEvents(synthetic + translated, now, pick);
    }

    /** A finished port mapping makes the node publicly reachable. */
    method AdoptPortMapping(now: Time, pick: PeerModel.Pick)
      modifies this, peer, tunnel
      ensures View() == Transit(old(View()), NatStatusChanged(Public), now, pick)
      ensures ShuttingDown() == old(ShuttingDown())
    {
      MappingKeepsRunning(View(), now, pick);
      hide Transit;
      Deliver(NatStatusChanged(Public), now, pick);
    }

    // ----- timeouts -----

    method HandleHolePunchDeadline(now: Time, pick: PeerModel.Pick) returns (ghost order: seq<PeerId>)
      requires !ShuttingDown()
      modifies this, peer, tunnel, connections
      ensures View() == Iterate(old(View()), HolePunchDeadline(order, now, pick))
      ensures NoDuplicates(order) && forall p :: p in order <==> p in TakeDue(old(connections.View()), now).1
    {
      hide TakeDue, FireTimeouts, DueInOrder;
      var due := connections.TakeDueHolePunchTimeouts(now);
      ghost var expected := TakeDue(old(connections.View()), now).1;
      order := FireDue(due, expected, now, pick);
      ListedInOrder(expected, order);
    }

    method FireOne(p: PeerId, attemptId: nat, now: Time, pick: PeerModel.Pick)
      modifies this, peer, tunnel
      ensures View() == if RelayOnly(old(connections.View()), p)
                        then Transit(old(View()), HolePunchAttemptTimeout(p, attemptId), now, pick) else old(View())
    {
      hide Transit;
      if connections.PeerIsRelayOnly(p) {
        Deliver(HolePunchAttemptTimeout(p, attemptId), now, pick);
      }
    }

    method FireDue(due: seq<(PeerId, nat)>, ghost expected: map<PeerId, nat>, now: Time, pick: PeerModel.Pick)
      returns (ghost order: seq<PeerId>)
      requires TrackerMachine.Lists(due, expected)
      modifies this, peer, tunnel
      ensures View() == FireTimeouts(old(View()), expected, order, now, pick)
      ensures NoDuplicates(order) && forall p :: p in order <==> p in expected
    {
      order := seq(|due|, i requires 0 <= i < |due| => due[i].0);
      OrderOfListing(due, expected, order);
      hide NoDuplicates, Transit, FireTimeouts;
      FireStep(View(), expected, order, 0, now, pick);
      ghost var was := View();
      for i := 0 to |due|
        invariant View() == FireTimeouts(was, expected, order[..i], now, pick)
      {
        var (p, attemptId) := due[i];
        FireStep(was, expected, order, i, now, pick);
        assert due[i] in due;
        FireOne(p, attemptId, now, pick);
      }
      assert order[..|due|] == order;
    }

    // ----- the loop -----

    /** One iteration: what `select!` picked, with the order in which expired attempts were visited. */
    method Turn(input: Input) returns (ghost taken: Input)
      requires !ShuttingDown()
      modifies this, peer, tunnel, connections
      ensures View() == Iterate(old(View()), taken)
      ensures taken == input
              || (input.HolePunchDeadline? && taken.HolePunchDeadline? && taken.(order := input.order) == input)
    {
      hide OnSwarmEvent, Transit, FireTimeouts;
      taken := input;
      match input {
        case Swarm(event, portMapped, now, pick) => HandleSwarmEvent(event, portMapped, now, pick);
        case DiscoveryDeadline(now, pick) => Deliver(DiscoveryTimeout, now, pick);
        case HolePunchDeadline(_, now, pick) =>
          ghost var order := HandleHolePunchDeadline(now, pick);
          taken := HolePunchDeadline(order, now, pick);
        case ShutdownSignal(now, pick) => Deliver(ShutdownRequested, now, pick);
      }
    }

    /** The loop, left as soon as the node shuts down. */
    method Run(inputs: seq<Input>) returns (ghost taken: seq<Input>)
      modifies this, peer, tunnel, connections
      ensures View() == NodeAfter(old(View()), taken) && |taken| <= |inputs|
      ensures |taken| == |inputs| || ShuttingDown()
    {
      hide Iterate;
      taken := [];
      ghost var was := View();
      var i := 0;
      while i < |inputs| && !ShuttingDown()
        invariant 0 <= i <= |inputs| && |taken| == i
        invariant View() == NodeAfter(was, taken)
      {
        ghost var one := Turn(inputs[i]);
        assert (taken + [one])[..|taken|] == taken;
        taken := taken + [one];
        i := i + 1;
      }
    }

    method Configure(c: TunnelModel.Config)
      requires tunnel.View() == TunnelModel.EMPTY
      modifies tunnel
      ensures tunnel.View() == TunnelModel.Configured(c)
    {
      for i := 0 to |c.peerTunnels|
        invariant tunnel.View() == TunnelModel.Configured(TunnelModel.Config(c.peerTunnels[..i], []))
      {
        assert c.peerTunnels[..i + 1][..i] == c.peerTunnels[..i];
        tunnel.AddPeerTunnel(c.peerTunnels[i].0, c.peerTunnels[i].1);
      }
      assert c.peerTunnels[..|c.peerTunnels|] == c.peerTunnels;
      for i := 0 to |c.serviceTunnels|
        invariant tunnel.View() == TunnelModel.Configured(c.(serviceTunnels := c.serviceTunnels[..i]))
      {
        assert c.serviceTunnels[..i + 1][..i] == c.serviceTunnels[..i];
        tunnel.AddServiceTunnel(c.serviceTunnels[i].0, c.serviceTunnels[i].1);
      }
      assert c.serviceTunnels[..|c.serviceTunnels|] == c.serviceTunnels;
    }

    constructor (bootstrapPeers: set<PeerId>)
      ensures View() == Blank(bootstrapPeers)
      ensures fresh(peer) && fresh(tunnel) && fresh(connections)
    {
      var p := new PeerMachine.PeerState();
      p.bootstrapPeers := bootstrapPeers;
      peer := p;
      tunnel := new TunnelMachine.TunnelState();
      connections := new TrackerMachine.ConnectionStateMachine();
      bootstrap := bootstrapPeers;
      kadTunnelQueries, kadServiceQueries, directPeers, turn := map[], map[], {}, 0;
      log, everReady := [], false;
    }

    /** What `run` does between building the state and entering the loop. */
    method Start(l: Launch)
      requires View() == Blank(l.bootstrap)
      modifies this, peer, tunnel
      ensures View() == Started(l)
    {
      hide Transit;
      Configure(l.tunnels);
      assert View() == Fresh(l);
      Deliver(if l.hasBootstrap then NatStatusChanged(Private) else NoBootstrapPeers, l.now, l.pick);
    }
  }

  /** A whole run of the node: it is a run of the model, so everything proved of those holds of it. */
  method RunNode(l: Launch, inputs: seq<Input>) returns (node: EventLoop, ghost taken: seq<Input>)
    ensures fresh(node)
    ensures node.View() == NodeAfter(Started(l), taken) && NodeInvariants.Inv(node.View())
    ensures |taken| == |inputs| || Stopped(node.View())
  {
    hide Started, NodeAfter, NodeInvariants.Inv;
    node := new EventLoop(l.bootstrap);
    node.Start(l);
    taken := node.Run(inputs);
    NodeRuns.RunsKeepInv(l, taken);
  }

  ghost function Blank(bootstrapPeers: set<PeerId>): Node {
    Node(App(PeerModel.EMPTY.(bootstrapPeers := bootstrapPeers), TunnelModel.EMPTY),
         TrackerModel.EMPTY, Context(bootstrapPeers, map[], map[], {}, 0), [], false)
  }

  lemma EventInStages(n: Node, event: SwarmEvent, portMapped: bool, now: Time, pick: PeerModel.Pick,
                      kept: Node, synthetic: seq<Event>, adopted: Node, ctx: Context, translated: seq<Event>)
    requires (kept, synthetic) == Bookkeep(n, event, now)
    requires adopted == if portMapped then Transit(kept, NatStatusChanged(Public), now, pick) else kept
    requires (ctx, translated) == Translate(adopted.ctx, event)
    ensures OnSwarmEvent(n, event, portMapped, now, pick)
            == FeedAll(adopted.(ctx := ctx), synthetic + translated, now, pick)
  {
    hide Bookkeep, Translate, Transit, FeedAll;
  }

  lemma FireStep(n: Node, due: map<PeerId, nat>, order: seq<PeerId>, i: nat, now: Time, pick: PeerModel.Pick)
    requires i <= |order|
    ensures i == 0 ==> FireTimeouts(n, due, order[..i], now, pick) == n
    ensures i < |order| ==>
              var m, p := FireTimeouts(n, due, order[..i], now, pick), order[i];
              FireTimeouts(n, due, order[..i + 1], now, pick)
              == if p in due && RelayOnly(m.tracker, p) then Transit(m, HolePunchAttemptTimeout(p, due[p]), now, pick)
                  else m
  {
    hide Transit;
    if i < |order| { assert order[..i + 1][..i] == order[..i]; }
  }

  lemma TurnOver(ctx: Context, cs: multiset<Command>)
    ensures Partly(ctx, cs).(turn := ctx.turn + 1) == Execute(ctx, cs)
    ensures Partly(ctx, cs).turn == ctx.turn
  {
  }

  lemma MappingKeepsRunning(n: Node, now: Time, pick: PeerModel.Pick)
    ensures Transit(n, NatStatusChanged(Public), now, pick).app.peer.phase == n.app.peer.phase
  {
    hide TunnelModel.Step, Execute, PeerModel.MaybeRequestRelay;
  }

  lemma ListedInOrder(due: map<PeerId, nat>, order: seq<PeerId>)
    requires NoDuplicates(order) && forall p :: p in order <==> p in due
    ensures DueInOrder(due, order) == order
  {
    OrdersAreTotal({});
    ListingEnumerates(due.Keys, order, ByKey());
  }

  lemma OrderOfListing(due: seq<(PeerId, nat)>, m: map<PeerId, nat>, order: seq<PeerId>)
    requires TrackerMachine.Lists(due, m) && |order| == |due| && forall i | 0 <= i < |due| :: order[i] == due[i].0
    ensures NoDuplicates(order) && forall p :: p in order <==> p in m
  {
    forall i, j | 0 <= i < j < |order| ensures order[i] != order[j] {
      assert due[i] in due && due[j] in due;
    }
    forall p ensures p in order <==> p in m {
      if p in m {
        assert (p, m[p]) in due;
        var i :| 0 <= i < |due| && due[i] == (p, m[p]);
        assert order[i] == p;
      }
      if p in order {
        var i :| 0 <= i < |order| && order[i] == p;
        assert due[i] in due;
      }
    }
  }
}
