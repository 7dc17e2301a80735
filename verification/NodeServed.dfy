/** Whether a wait behind a relay can end. It can at every loop head of a run, if and only if no input
    made tunnels wait behind the relay of a peer whose attempt was spent. */
module NodeServed {
  import opened Types
  import opened Collections
  import opened TrackerModel
  import opened NodeModel
  import opened NodeInvariants
  import opened NodeRuns
  import opened NodeArming
  import opened NodeSpent
  import opened AppModel
  import PeerModel
  import TunnelAnswers
  import TM = TunnelModel

  // ----- the condition, before the iteration -----

  /** The events that make tunnels wait for a direct path to `p`. */
  predicate Queues(s: TM.Tunnel, e: Event, p: PeerId) {
    match e
    case DhtPeerLookupComplete(q, connected) => q == p && connected && p in s.q.pendingByPeer && p in s.relayed
    case DhtServiceResolved(name, providers) =>
      name in s.q.pendingByService && providers != [] && providers[0] == (p, true) && p in s.relayed
    case TunnelPeerConnected(q, relayed) => q == p && relayed && p in s.q.pendingByPeer
    case _ => false
  }

  lemma ResolveAwaits(s: TM.Tunnel, name: ServiceName, providers: seq<(PeerId, bool)>, p: PeerId)
    ensures p in TM.ResolveService(s, name, providers).state.q.awaiting
            <==> p in s.q.awaiting || Queues(s, DhtServiceResolved(name, providers), p)
  {
    hide TM.Spawns, TM.StoreCandidates, Dedup, TM.SpecsFor;
    if name in s.q.pendingByService && providers != [] {
      FirstStaysFirst(providers);
    }
  }

  lemma FirstStaysFirst(providers: seq<(PeerId, bool)>)
    requires providers != []
    ensures var peers := Dedup(TM.PeersOf(providers)); peers != [] && peers[0] == providers[0].0
  {
    TunnelAnswers.FirstOfDedup(TM.PeersOf(providers));
  }

  lemma DialFailedAwaits(s: TM.Tunnel, q: PeerId, pendingAbort: bool, now: Time)
    ensures TM.DialFailed(s, q, pendingAbort, now).state.q.awaiting == s.q.awaiting
  {
    hide TM.RedialCommand, TM.Lookups, TM.Queries, TM.RerouteAll;
    RerouteAwaits(TM.Reroute(TM.TakePending(s.q, q), {}, {}), Get(s.q.pendingByPeer, q), q);
  }

  lemma {:induction false} RerouteAwaits(r: TM.Reroute, specs: seq<Spec>, failed: PeerId)
    ensures TM.RerouteAll(r, specs, failed).q.awaiting == r.q.awaiting
  {
    if specs != [] { RerouteAwaits(r, specs[..|specs| - 1], failed); }
  }

  lemma ConnectedAwaits(s: TM.Tunnel, q: PeerId, relayed: bool, p: PeerId)
    requires relayed || q != p
    ensures p in TM.PeerConnected(s, q, relayed).state.q.awaiting
            <==> p in s.q.awaiting || Queues(s, TunnelPeerConnected(q, relayed), p)
  {
    hide TM.Spawns, TM.ClearRetry;
  }

  lemma LostAwaits(s: TM.Tunnel, q: PeerId, now: Time, p: PeerId)
    requires q != p
    ensures p in TM.AllConnectionsLost(s, q, now).state.q.awaiting <==> p in s.q.awaiting
  {
    hide TM.RedialCommand, TM.ClearRetry, TM.SetPhase;
  }

  lemma LookupAwaits(s: TM.Tunnel, q: PeerId, connected: bool, now: Time, p: PeerId)
    ensures p in TM.Step(s, DhtPeerLookupComplete(q, connected), now).state.q.awaiting
            <==> p in s.q.awaiting || Queues(s, DhtPeerLookupComplete(q, connected), p)
  {
    hide TM.Spawns;
  }

  /** Exactly which events start a wait, among those that end none. */
  lemma StepAwaits(s: TM.Tunnel, e: Event, now: Time, p: PeerId)
    requires Still(e, p) && !e.HolePunchAttemptFailed? && !e.HolePunchAttemptTimeout?
    ensures p in TM.Step(s, e, now).state.q.awaiting <==> p in s.q.awaiting || Queues(s, e, p)
  {
    hide TM.ResolveService, TM.DialFailed, TM.PeerConnected, TM.AllConnectionsLost, TM.RouteConnected, TM.BookAfter,
         TM.RefreshSession, TM.BeginAttempt;
    match e
    case DhtServiceResolved(name, providers) => ResolveAwaits(s, name, providers, p);
    case TunnelDialFailed(q, pendingAbort) => DialFailedAwaits(s, q, pendingAbort, now);
    case TunnelPeerConnected(q, relayed) => ConnectedAwaits(s, q, relayed, p);
    case ConnectionLost(q, _) => if q != p { LostAwaits(s, q, now, p); }
    case DhtPeerLookupComplete(q, connected) => hide TM.Step; LookupAwaits(s, q, connected, now, p);
    case _ =>
  }

  lemma FeedAwaits(n: Node, e: Event, now: Time, pick: PeerModel.Pick, p: PeerId)
    requires Still(e, p) && !e.HolePunchAttemptFailed? && !e.HolePunchAttemptTimeout?
    ensures var m := Feed(n, e, now, pick);
            && (p in m.app.tunnel.q.awaiting <==> p in n.app.tunnel.q.awaiting || Queues(n.app.tunnel, e, p))
            && m.tracker.relayed == n.tracker.relayed && m.tracker.direct == n.tracker.direct
  {
    hide Transit, ArmAll, TargetPeers, TM.Step, Queues, Still;
    var t := Transit(n, e, now, pick);
    assert !e.PhaseChanged? by { StillIsNoBridge(e, p); }
    TransitTunnel(n, e, now, pick);
    StepAwaits(n.app.tunnel, e, now, p);
    ArmAllArms(t, TargetPeers(t.app.tunnel), now, pick);
  }

  lemma StillIsNoBridge(e: Event, p: PeerId)
    requires Still(e, p)
    ensures !e.PhaseChanged?
  {
  }

  /** The inputs that make tunnels wait behind the relay of a peer: it gets a relayed connection while
      tunnels want it, its lookup completes, or a service resolves to it. */
  predicate QueuesBehind(n: Node, i: Input, p: PeerId) {
    i.Swarm? && match i.event
      case ConnEstablished(q, _, relayed, _) =>
        q == p && relayed && p !in n.tracker.direct && HasIntent(n.app.tunnel, p)
      case KadClosestPeers(id, connected) =>
        connected && id in n.ctx.tunnelQueries && n.ctx.tunnelQueries[id] == p && RelayOnly(n.tracker, p)
        && p in n.app.tunnel.q.pendingByPeer
      case KadProviders(id, result) =>
        id in n.ctx.serviceQueries && n.ctx.serviceQueries[id] in n.app.tunnel.q.pendingByService
            && RelayOnly(n.tracker, p)
        && result.Found? && result.providers != {}
           && SortedProviders(result.providers, result.connected)[0] == (p, true)
      case _ => false
  }

  lemma MapKeepsQueries(n: Node, portMapped: bool, now: Time, pick: PeerModel.Pick)
    ensures var m := if portMapped then Transit(n, NatStatusChanged(Public), now, pick) else n;
            m.ctx.tunnelQueries == n.ctx.tunnelQueries && m.ctx.serviceQueries == n.ctx.serviceQueries
  {
    hide AppStep, Execute;
    PublicAsksNothing(n.app, now, pick);
    NothingToExecute(n.ctx);
  }

  lemma PublicAsksNothing(a: App, now: Time, pick: PeerModel.Pick)
    ensures var o := AppStep(a, AppInput(NatStatusChanged(Public), now, pick));
            o.peerCommands + o.tunnelCommands == multiset{}
  {
    hide PeerModel.RelayChoice, TM.Step;
    QuietStepCommands(a.tunnel, now);
  }

  lemma NothingToExecute(ctx: Context)
    ensures Execute(ctx, multiset{}) == ctx.(turn := ctx.turn + 1)
  {
    var none: multiset<Command> := multiset{};
    assert TunnelIds(ctx.turn, none) == {} && ServiceIds(ctx.turn, none) == {};
  }

  lemma QuietStepCommands(s: TM.Tunnel, now: Time)
    ensures TM.Step(s, NatStatusChanged(Public), now) == TM.Outcome(s, multiset{})
  {
  }

  lemma TranslatedQueues(n: Node, ctx: Context, i: Input, p: PeerId)
    requires i.Swarm? && !AboutConnections(i.event) && RelayOnly(n.tracker, p) && p in n.app.tunnel.relayed
    requires ctx.tunnelQueries == n.ctx.tunnelQueries && ctx.serviceQueries == n.ctx.serviceQueries
    ensures var es := Translate(ctx, i.event).1;
            QueuesBehind(n, i, p) <==> es != [] && Queues(n.app.tunnel, es[0], p)
  {
    hide SortedProviders;
    if i.event.KadProviders? && i.event.result.Found? {
      ProvidersListed(i.event.result.providers, i.event.result.connected);
    }
  }

  lemma ProvidersListed(providers: set<PeerId>, connected: set<PeerId>)
    ensures SortedProviders(providers, connected) != [] <==> providers != {}
  {
    OrdersAreTotal(connected);
  }

  lemma FailureAwaits(n: Node, q: PeerId, id: nat, now: Time, pick: PeerModel.Pick, p: PeerId)
    ensures var m := Feed(n, HolePunchAttemptFailed(q, id), now, pick);
            && (p in m.app.tunnel.q.awaiting ==> p in n.app.tunnel.q.awaiting)
            && m.tracker.relayed == n.tracker.relayed && m.tracker.direct == n.tracker.direct
  {
    hide Transit, ArmAll, TargetPeers, TM.Step, TM.RetryAttempt;
    var t := Transit(n, HolePunchAttemptFailed(q, id), now, pick);
    TransitTunnel(n, HolePunchAttemptFailed(q, id), now, pick);
    FailureIsRetry(n.app.tunnel, q, id, now);
    RetryOutcome(n.app.tunnel, q, id);
    ArmAllArms(t, TargetPeers(t.app.tunnel), now, pick);
  }

  lemma PlainFeedWaits(n: Node, es: seq<Event>, now: Time, pick: PeerModel.Pick, p: PeerId)
    requires |es| <= 1
             && (es != [] ==> Still(es[0], p) && !es[0].HolePunchAttemptFailed? && !es[0].HolePunchAttemptTimeout?)
    requires !Stopped(n) && !Waits(n, p)
    ensures Waits(FeedAll(n, es, now, pick), p)
            <==> RelayOnly(n.tracker, p) && es != [] && Queues(n.app.tunnel, es[0], p)
  {
    hide Feed, Still;
    if es == [] {
      FeedSingle(n, ListeningOn, now, pick);
    } else {
      assert es == [es[0]];
      FeedSingle(n, es[0], now, pick);
      if es[0].HolePunchFailed? {
        if es[0].punchFailedPeer in n.tracker.attempts {
          FailureAwaits(n, es[0].punchFailedPeer, n.tracker.attempts[es[0].punchFailedPeer].attemptId, now, pick, p);
        }
      } else {
        FeedAwaits(n, es[0], now, pick, p);
      }
    }
  }

  lemma NoTimeouts(ctx: Context, ev: SwarmEvent)
    ensures forall e | e in Translate(ctx, ev).1 :: !e.HolePunchAttemptTimeout?
  {
    hide SortedProviders;
  }

  lemma PlainWaits(n: Node, i: Input, p: PeerId)
    requires Inv(n) && !Stopped(n) && i.Swarm? && !AboutConnections(i.event) && !Waits(n, p)
    ensures Waits(OnSwarmEvent(n, i.event, i.portMapped, i.now, i.pick), p) <==> QueuesBehind(n, i, p)
  {
    assert RelayKnown(n, p);
    hide Inv, Bookkeep, Transit, Translate, FeedAll, Same, Still, QueuesBehind, Queues;
    DialsSame(n, i.event, i.now, p);
    var (n1, synthetic) := Bookkeep(n, i.event, i.now);
    assert n1.ctx == n.ctx by { DialsKeepContext(n, i.event, i.now); }
    MapSame(n1, i.portMapped, i.now, i.pick, p);
    MapKeepsQueries(n1, i.portMapped, i.now, i.pick);
    RunningAfterMap(n1, i.portMapped, i.now, i.pick);
    var n2 := if i.portMapped then Transit(n1, NatStatusChanged(Public), i.now, i.pick) else n1;
    PlainEvents(n2.ctx, i.event, p);
    NoTimeouts(n2.ctx, i.event);
    var (ctx, es) := Translate(n2.ctx, i.event);
    assert synthetic + es == es;
    PlainFeedWaits(n2.(ctx := ctx), es, i.now, i.pick, p);
    if RelayOnly(n.tracker, p) {
      TranslatedQueues(n, n2.ctx, i, p);
    } else {
      RelayBehind(n, i, p);
    }
  }

  lemma DialsKeepContext(n: Node, ev: SwarmEvent, now: Time)
    requires !AboutConnections(ev)
    ensures Bookkeep(n, ev, now).0.ctx == n.ctx
  {
    hide TrackerModel.Dialing, OutgoingError;
  }

  lemma RelayBehind(n: Node, i: Input, p: PeerId)
    requires i.Swarm? && !AboutConnections(i.event)
    ensures QueuesBehind(n, i, p) ==> RelayOnly(n.tracker, p)
  {
    hide SortedProviders;
  }

  lemma {:induction false} FeedAllAwaits(n: Node, es: seq<Event>, now: Time, pick: PeerModel.Pick, p: PeerId)
    requires !Stopped(n) && forall e | e in es :: Still(e, p) && AlwaysFed(e) && Unqueued(e, p)
    ensures var m := FeedAll(n, es, now, pick);
            (p in m.app.tunnel.q.awaiting <==> p in n.app.tunnel.q.awaiting) && !Stopped(m)
            && (p in m.app.tunnel.q.pendingByPeer <==> p in n.app.tunnel.q.pendingByPeer)
  {
    hide Feed, Still;
    if es != [] {
      var m, e := FeedAll(n, es[..|es| - 1], now, pick), es[|es| - 1];
      FeedAllAwaits(n, es[..|es| - 1], now, pick, p);
      assert e in es;
      UnqueuedFeed(m, e, now, pick, p);
    }
  }

  /** The reports of a connection of another peer, and the ones that say nothing about queues. */
  predicate Unqueued(e: Event, p: PeerId) {
    e.BootstrapConnected? || e.HolePunchAttemptStarted? || (e.ConnectionLost? && (e.lost != p || e.remaining > 0))
    || (e.TunnelPeerConnected? && e.connectedPeer != p)
  }

  lemma UnqueuedFeed(n: Node, e: Event, now: Time, pick: PeerModel.Pick, p: PeerId)
    requires Unqueued(e, p) && !Stopped(n)
    ensures var m := Feed(n, e, now, pick);
            (p in m.app.tunnel.q.awaiting <==> p in n.app.tunnel.q.awaiting) && !Stopped(m)
            && (p in m.app.tunnel.q.pendingByPeer <==> p in n.app.tunnel.q.pendingByPeer)
  {
    hide Transit, ArmAll, TargetPeers, TM.Step;
    var t := Transit(n, e, now, pick);
    TransitTunnel(n, e, now, pick);
    UnqueuedStep(n.app.tunnel, e, now, p);
    ArmAllArms(t, TargetPeers(t.app.tunnel), now, pick);
    FeedRuns(n, e, now, pick);
  }

  lemma UnqueuedStep(s: TM.Tunnel, e: Event, now: Time, p: PeerId)
    requires Unqueued(e, p)
    ensures var t := TM.Step(s, e, now).state;
            (p in t.q.awaiting <==> p in s.q.awaiting) && (p in t.q.pendingByPeer <==> p in s.q.pendingByPeer)
  {
    hide TM.Spawns, TM.ClearRetry, TM.SetPhase, TM.RedialCommand, TM.BeginAttempt;
  }

  lemma ClosedRelay(n: Node, ev: SwarmEvent, now: Time, p: PeerId)
    requires Agreeing(n.tracker) && ev.ConnClosed? && p in n.tracker.attempts
    ensures var (m, es) := Bookkeep(n, ev, now);
            && m.app == n.app && (RelayOnly(m.tracker, p) ==> RelayOnly(n.tracker, p))
            && es == [ConnectionLost(ev.peer, ConnectionCount(m.tracker, ev.peer))]
            && (ev.peer == p && ConnectionCount(m.tracker, p) == 0 ==> !RelayOnly(m.tracker, p))
  {
    assert p !in n.tracker.direct;
    hide Closed, ConnectionCount, Agreeing;
    ClosedAgrees(n.tracker, ev.peer, ev.id, ev.numEstablished);
    ClosedElsewhere(n.tracker, ev.peer, ev.id, ev.numEstablished);
    EmptyMeansGone(Bookkeep(n, ev, now).0.tracker, p);
  }

  lemma ClosedWaitsNot(n: Node, i: Input, p: PeerId)
    requires Inv(n) && !Stopped(n) && i.Swarm? && i.event.ConnClosed? && p in n.tracker.attempts && !Waits(n, p)
    ensures !Waits(OnSwarmEvent(n, i.event, i.portMapped, i.now, i.pick), p)
  {
    InvIsConsistent(n);
    hide Inv, Transit, FeedAll, Bookkeep, ConnectionCount, Agreeing, Accounted, Still, Spent;
    ClosedRelay(n, i.event, i.now, p);
    var (n1, synthetic) := Bookkeep(n, i.event, i.now);
    MapSame(n1, i.portMapped, i.now, i.pick, p);
    RunningAfterMap(n1, i.portMapped, i.now, i.pick);
    var n2 := if i.portMapped then Transit(n1, NatStatusChanged(Public), i.now, i.pick) else n1;
    assert Translate(n2.ctx, i.event) == (n2.ctx, []);
    var e := synthetic[0];
    assert synthetic + [] == [e];
    assert n2.(ctx := n2.ctx) == n2;
    LossWaitsNot(n2, e, i.now, i.pick, p);
  }

  lemma LossWaitsNot(n: Node, e: Event, now: Time, pick: PeerModel.Pick, p: PeerId)
    requires e.ConnectionLost? && !Stopped(n) && !Waits(n, p)
    requires e.lost == p && e.remaining == 0 ==> !RelayOnly(n.tracker, p)
    ensures !Waits(FeedAll(n, [e], now, pick), p)
  {
    hide FeedAll, Still;
    FeedAllConnections(n, [e], now, pick, p);
    if RelayOnly(n.tracker, p) {
      LossIsStill(e.lost, e.remaining, p);
      FeedAllAwaits(n, [e], now, pick, p);
    }
  }

  lemma LossIsStill(q: PeerId, count: nat, p: PeerId)
    requires q != p || count > 0
    ensures Still(ConnectionLost(q, count), p)
  {
  }

  lemma SpentRefusesStart(n: Node, ev: SwarmEvent, now: Time, p: PeerId)
    requires ev.ConnEstablished? && ev.peer == p && ev.relayed && p in n.tracker.attempts && p !in n.tracker.direct
    ensures var (m, es) := Bookkeep(n, ev, now);
            es == [] && m.app == n.app && p in m.tracker.relayed && p !in m.tracker.direct
  {
    hide WithoutDialsTo;
  }

  /** What is fed when `p` gets a relayed connection. */
  lemma RelayedWaits(n: Node, es: seq<Event>, now: Time, pick: PeerModel.Pick, p: PeerId)
    requires !Stopped(n) && es != [] && es[|es| - 1] == TunnelPeerConnected(p, true)
    requires forall k | 0 <= k < |es| - 1 :: es[k].BootstrapConnected?
    requires RelayOnly(n.tracker, p)
    ensures Waits(FeedAll(n, es, now, pick), p) <==> HasIntent(n.app.tunnel, p)
  {
    hide Feed;
    var front := es[..|es| - 1];
    forall e | e in front ensures Still(e, p) && AlwaysFed(e) && Unqueued(e, p) {}
    FeedAllAwaits(n, front, now, pick, p);
    FeedAllConnections(n, front, now, pick, p);
    FeedAwaits(FeedAll(n, front, now, pick), TunnelPeerConnected(p, true), now, pick, p);
  }

  lemma ReportsOfOthers(ctx: Context, ev: SwarmEvent, synthetic: seq<Event>, p: PeerId)
    requires ev.ConnEstablished? && ev.peer != p
    requires forall e | e in synthetic :: e.HolePunchAttemptStarted? && e.startedPeer == ev.peer
    ensures forall e | e in synthetic + Translate(ctx, ev).1 :: Still(e, p) && AlwaysFed(e) && Unqueued(e, p)
  {
  }

  lemma OthersTracked(n: Node, ev: SwarmEvent, now: Time, p: PeerId)
    requires ev.ConnEstablished? && (ev.peer != p || !ev.relayed)
    ensures var (m, es) := Bookkeep(n, ev, now);
            && m.app == n.app
            && (ev.peer != p ==> (RelayOnly(m.tracker, p) <==> RelayOnly(n.tracker, p)))
            && (ev.peer == p ==> p in m.tracker.direct)
            && forall e | e in es :: e.HolePunchAttemptStarted? && e.startedPeer == ev.peer
  {
    hide Established, StartAttempt;
    EstablishedElsewhere(n.tracker, ev.peer, ev.id, ev.relayed);
    EstablishedFacts(n.tracker, ev.peer, ev.id, ev.relayed, p);
    StartFacts(Established(n.tracker, ev.peer, ev.id, ev.relayed).0, ev.peer, now, p);
  }

  /** A relayed connection of `p` itself, whose attempt keeps a new one from starting. */
  lemma OwnRelayWaits(n: Node, i: Input, p: PeerId)
    requires !Stopped(n) && i.Swarm? && i.event.ConnEstablished? && i.event.peer == p && i.event.relayed
    requires p in n.tracker.attempts && p !in n.tracker.direct
    ensures Waits(OnSwarmEvent(n, i.event, i.portMapped, i.now, i.pick), p) <==> HasIntent(n.app.tunnel, p)
  {
    hide Transit, FeedAll, Bookkeep, Still, Same;
    var ev := i.event;
    SpentRefusesStart(n, ev, i.now, p);
    var (n1, synthetic) := Bookkeep(n, ev, i.now);
    MapSame(n1, i.portMapped, i.now, i.pick, p);
    RunningAfterMap(n1, i.portMapped, i.now, i.pick);
    var n2 := if i.portMapped then Transit(n1, NatStatusChanged(Public), i.now, i.pick) else n1;
    var (ctx, es) := Translate(n2.ctx, ev);
    assert synthetic + es == es;
    RelayedWaits(n2.(ctx := ctx), es, i.now, i.pick, p);
  }

  /** Any other new connection starts no wait for `p`. */
  lemma OtherConnectionWaitsNot(n: Node, i: Input, p: PeerId)
    requires !Stopped(n) && i.Swarm? && i.event.ConnEstablished? && (i.event.peer != p || !i.event.relayed)
    requires !Waits(n, p)
    ensures !Waits(OnSwarmEvent(n, i.event, i.portMapped, i.now, i.pick), p)
  {
    hide Transit, FeedAll, Bookkeep, Translate, Still, Same;
    var ev := i.event;
    OthersTracked(n, ev, i.now, p);
    var (n1, synthetic) := Bookkeep(n, ev, i.now);
    MapSame(n1, i.portMapped, i.now, i.pick, p);
    RunningAfterMap(n1, i.portMapped, i.now, i.pick);
    var n2 := if i.portMapped then Transit(n1, NatStatusChanged(Public), i.now, i.pick) else n1;
    var (ctx, es) := Translate(n2.ctx, ev);
    FeedAllConnections(n2.(ctx := ctx), synthetic + es, i.now, i.pick, p);
    if ev.peer != p {
      ReportsOfOthers(n2.ctx, ev, synthetic, p);
      FeedAllAwaits(n2.(ctx := ctx), synthetic + es, i.now, i.pick, p);
    }
  }

  lemma EstablishedWaitsIff(n: Node, i: Input, p: PeerId)
    requires Inv(n) && !Stopped(n) && i.Swarm? && i.event.ConnEstablished? && Spent(n, p) && !Waits(n, p)
    ensures Waits(OnSwarmEvent(n, i.event, i.portMapped, i.now, i.pick), p) <==> QueuesBehind(n, i, p)
  {
    InvIsConsistent(n);
    assert p in n.tracker.attempts && p !in n.tracker.direct;
    hide Inv, OnSwarmEvent, Spent, Waits;
    if i.event.peer == p && i.event.relayed { OwnRelayWaits(n, i, p); } else { OtherConnectionWaitsNot(n, i, p); }
  }

  lemma SweepWaitsNot(n: Node, order: seq<PeerId>, now: Time, pick: PeerModel.Pick, p: PeerId)
    requires Agreeing(n.tracker) && IdsAgree(n, p) && Spent(n, p) && !Waits(n, p)
    ensures var (t, due) := TakeDue(n.tracker, now);
            !Waits(FireTimeouts(n.(tracker := t), due, DueInOrder(due, order), now, pick), p)
  {
    hide Agreeing, TakeDue, FireTimeouts, DueInOrder, Spent;
    SweepFacts(n, now, p);
    var (t, due) := TakeDue(n.tracker, now);
    TimeoutsSame(n.(tracker := t), due, DueInOrder(due, order), now, pick, p);
  }

  lemma TimerWaits(n: Node, e: Event, now: Time, pick: PeerModel.Pick, p: PeerId)
    requires e.DiscoveryTimeout? || e.ShutdownRequested?
    ensures Waits(Transit(n, e, now, pick), p) <==> Waits(n, p)
  {
    hide Transit, TM.Step;
    TransitTunnel(n, e, now, pick);
    QuietQueues(n.app.tunnel, e, now);
  }

  /** With its attempt spent, `p` gets a wait exactly by the inputs that queue behind its relay. */
  lemma IterateWaitsIff(n: Node, i: Input, p: PeerId)
    requires Inv(n) && !Stopped(n) && Spent(n, p) && !Waits(n, p)
    ensures Waits(Iterate(n, i), p) <==> QueuesBehind(n, i, p)
  {
    InvIsConsistent(n);
    assert IdsAgree(n, p);
    if i.Swarm? {
      hide OnSwarmEvent, Inv, Spent, Waits, IdsAgree;
      if i.event.ConnEstablished? {
        EstablishedWaitsIff(n, i, p);
      } else if i.event.ConnClosed? {
        SpentHasAttempt(n, p);
        ClosedWaitsNot(n, i, p);
      } else {
        PlainWaits(n, i, p);
      }
    } else {
      hide Inv, Transit, FireTimeouts, TakeDue, Agreeing, Accounted, IdsAgree, Spent, Waits, QueuesBehind;
      assert !QueuesBehind(n, i, p) by { TimersQueueNothing(n, i, p); }
      match i
      case DiscoveryDeadline(now, pick) => TimerWaits(n, DiscoveryTimeout, now, pick, p);
      case HolePunchDeadline(order, now, pick) => SweepWaitsNot(n, order, now, pick, p);
      case ShutdownSignal(now, pick) => TimerWaits(n, ShutdownRequested, now, pick, p);
    }
  }

  lemma SpentHasAttempt(n: Node, p: PeerId)
    requires Spent(n, p)
    ensures p in n.tracker.attempts
  {
  }

  lemma TimersQueueNothing(n: Node, i: Input, p: PeerId)
    requires !i.Swarm?
    ensures !QueuesBehind(n, i, p)
  {
  }

  // ----- swarm events do not stop the node -----

  lemma {:induction false} FeedAllRuns(n: Node, es: seq<Event>, now: Time, pick: PeerModel.Pick)
    requires !Stopped(n) && forall e | e in es :: !e.ShutdownRequested? && !e.PhaseChanged?
    ensures !Stopped(FeedAll(n, es, now, pick))
  {
    hide Feed;
    if es != [] {
      var m, e := FeedAll(n, es[..|es| - 1], now, pick), es[|es| - 1];
      FeedAllRuns(n, es[..|es| - 1], now, pick);
      assert e in es;
      var f := Scoped(m.tracker, e);
      if f.Some? { FeedRuns(m, f.value, now, pick); }
    }
  }

  lemma NoShutdowns(n: Node, ctx: Context, ev: SwarmEvent, now: Time)
    ensures forall e | e in Bookkeep(n, ev, now).1 + Translate(ctx, ev).1 :: !e.ShutdownRequested? && !e.PhaseChanged?
  {
    hide SortedProviders, Established, Closed, TrackerModel.Dialing, OutgoingError, StartAttempt;
  }

  lemma SwarmRuns(n: Node, ev: SwarmEvent, portMapped: bool, now: Time, pick: PeerModel.Pick)
    requires !Stopped(n)
    ensures !Stopped(OnSwarmEvent(n, ev, portMapped, now, pick))
  {
    hide Bookkeep, Translate, Transit, FeedAll;
    var (n1, synthetic) := Bookkeep(n, ev, now);
    BookkeepRuns(n, ev, now);
    RunningAfterMap(n1, portMapped, now, pick);
    var n2 := if portMapped then Transit(n1, NatStatusChanged(Public), now, pick) else n1;
    NoShutdowns(n, n2.ctx, ev, now);
    var (ctx, translated) := Translate(n2.ctx, ev);
    FeedAllRuns(n2.(ctx := ctx), synthetic + translated, now, pick);
  }

  // ----- whole runs -----

  /** The input makes tunnels wait behind the relay of `p` although the attempt of `p` is spent. */
  predicate Orphans(n: Node, i: Input, p: PeerId) { !Stopped(n) && Spent(n, p) && QueuesBehind(n, i, p) }

  lemma IterateServed(n: Node, i: Input, p: PeerId)
    requires Inv(n) && Armed(n) && Served(n, p)
    ensures Served(Iterate(n, i), p) <==> !Orphans(n, i, p)
  {
    if !Stopped(n) {
      IterateExplained(n, i, p);
      IterateArms(n, i);
      var m := Iterate(n, i);
      hide Explained, Armed, Served, QueuesOnSpent, Iterate, Inv, Waits, QueuesBehind, Spent;
      ServedStep(n, m, p);
      if Spent(n, p) {
        SpentIsNotWaited(n, p);
        IterateWaitsIff(n, i, p);
        if QueuesBehind(n, i, p) { QueuingRuns(n, i, p); }
      }
    }
  }

  lemma SpentIsNotWaited(n: Node, p: PeerId)
    requires Spent(n, p) && Served(n, p) && !Stopped(n)
    ensures !Waits(n, p)
  {
  }

  lemma QueuingRuns(n: Node, i: Input, p: PeerId)
    ensures QueuesBehind(n, i, p) && !Stopped(n) ==> !Stopped(Iterate(n, i))
  {
    hide OnSwarmEvent;
    if i.Swarm? && !Stopped(n) { SwarmRuns(n, i.event, i.portMapped, i.now, i.pick); }
  }

  /** Over every run of the node: at every loop head each wait behind the relay of `p` has a punching
      session under a deadline or a redial due, if and only if no input of the run made tunnels wait
      there while the attempt of `p` was spent. */
  lemma {:induction false} WaitsAreServed(l: Launch, run: seq<Input>, p: PeerId)
    ensures (forall k: nat | k <= |run| :: Served(NodeAfter(Started(l), run[..k]), p))
            <==> forall k: nat | k < |run| :: !Orphans(NodeAfter(Started(l), run[..k]), run[k], p)
  {
    hide NodeAfter, Started, Served, Orphans;
    forall k: nat | k < |run| && Served(NodeAfter(Started(l), run[..k]), p)
      ensures Served(NodeAfter(Started(l), run[..k + 1]), p) <==> !Orphans(NodeAfter(Started(l), run[..k]), run[k], p) {
      OneMore(l, run, k, p);
    }
    if forall k: nat | k < |run| :: !Orphans(NodeAfter(Started(l), run[..k]), run[k], p) {
      forall k: nat | k <= |run| ensures Served(NodeAfter(Started(l), run[..k]), p) { ServedSoFar(l, run, k, p); }
    }
    if forall k: nat | k <= |run| :: Served(NodeAfter(Started(l), run[..k]), p) {
      forall k: nat | k < |run| ensures !Orphans(NodeAfter(Started(l), run[..k]), run[k], p) {
        assert Served(NodeAfter(Started(l), run[..k]), p) && Served(NodeAfter(Started(l), run[..k + 1]), p);
      }
    }
  }

  lemma OneMore(l: Launch, run: seq<Input>, k: nat, p: PeerId)
    requires k < |run|
    ensures Served(NodeAfter(Started(l), run[..k]), p) ==>
              (Served(NodeAfter(Started(l), run[..k + 1]), p) <==> !Orphans(NodeAfter(Started(l), run[..k]), run[k], p))
  {
    hide Started, Served, Orphans, Armed, Inv, Iterate;
    RunsKeepInv(l, run[..k]);
    RunsStayArmed(l, run[..k]);
    if Served(NodeAfter(Started(l), run[..k]), p) { IterateServed(NodeAfter(Started(l), run[..k]), run[k], p); }
    assert run[..k + 1][..k] == run[..k];
  }

  lemma {:induction false} ServedSoFar(l: Launch, run: seq<Input>, k: nat, p: PeerId)
    requires k <= |run|
    requires forall j: nat | j < |run| :: !Orphans(NodeAfter(Started(l), run[..j]), run[j], p)
    ensures Served(NodeAfter(Started(l), run[..k]), p)
    decreases k
  {
    hide Started, Served, Orphans;
    if k == 0 {
      StartServed(l, p);
    } else {
      ServedSoFar(l, run, k - 1, p);
      OneMore(l, run, k - 1, p);
    }
  }

  lemma StartServed(l: Launch, p: PeerId)
    ensures Served(Started(l), p)
  {
    hide Transit;
    TransitTracker(Fresh(l), if l.hasBootstrap then NatStatusChanged(Private) else NoBootstrapPeers, l.now, l.pick);
  }
}
