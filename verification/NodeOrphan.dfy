/** A run of the node that leaves a tunnel waiting behind a relay with nothing more to come: the tunnel
    is rerouted to a provider that is reached through a relay, the provider's attempt expires while its
    lookup is still under way, and only then the lookup completes. */
module NodeOrphan {
  import opened Types
  import opened Collections
  import opened AppModel
  import opened TrackerModel
  import opened NodeModel
  import opened NodeTransit
  import opened NodeInvariants
  import opened NodeRuns
  import opened NodeArming
  import opened NodeSpent
  import opened NodeServed
  import NodeLookups
  import PeerModel
  import TM = TunnelModel

  const FAILING: PeerId := 0
  const RELAYED: PeerId := 1
  const PICK := PeerModel.Pick([], [])
  const NO_RETRY := TM.Retry(map[], {}, map[])

  /** One service tunnel, no bootstrap peers. */
  function OneService(x: Spec): Launch { Launch(TM.Config([], [(x.service, x.bind)]), false, {}, 0, PICK) }

  function Waiting(x: Spec): TM.Queues { TM.Queues(map[], map[x.service := [x.bind]], map[], map[]) }

  function Resolved(x: Spec): TM.Queues { TM.Queues(map[FAILING := [x]], map[], map[x.service := [RELAYED]], map[]) }

  function Rerouted(x: Spec): TM.Queues { TM.Queues(map[RELAYED := [x]], map[], map[], map[]) }

  function Connected(c: ConnectionId): Tracker { TrackerModel.EMPTY.(relayed := map[RELAYED := {c}]) }

  /** A running node in a given tracker state, with given queues and no retry state. */
  predicate At(n: Node, t: Tracker, q: TM.Queues, relayed: set<PeerId>) {
    !Stopped(n) && n.ctx.bootstrap == {} && n.tracker == t && n.app.tunnel.q == q && n.app.tunnel.relayed == relayed
    && n.app.tunnel.retry == NO_RETRY
  }

  // ----- small steps -----

  lemma {:induction false} NothingToArm(n: Node, ps: seq<PeerId>, now: Time, pick: PeerModel.Pick)
    requires forall p | p in ps :: !RelayOnly(n.tracker, p)
    ensures ArmAll(n, ps, now, pick) == n
  {
    hide Transit;
    if ps != [] { NothingToArm(n, ps[..|ps| - 1], now, pick); }
  }

  lemma TransitRuns(n: Node, e: Event, now: Time, pick: PeerModel.Pick)
    requires !Stopped(n) && !e.ShutdownRequested? && !e.PhaseChanged?
    ensures var m := Transit(n, e, now, pick); !Stopped(m) && m.ctx.bootstrap == n.ctx.bootstrap
  {
    hide AppStep, PeerModel.PeerStep;
    PhaseOfStep(n.app, AppInput(e, now, pick));
    PhaseMoves(n.app.peer, e, pick);
  }

  /** Feeding an event when no peer that tunnels wait for is reached only through a relay. */
  lemma FeedQuietly(n: Node, e: Event, now: Time, pick: PeerModel.Pick)
    requires !Stopped(n) && !e.ShutdownRequested? && !e.PhaseChanged? && AlwaysFed(e)
    requires forall p | HasIntent(TM.Step(n.app.tunnel, e, now).state, p) :: !RelayOnly(n.tracker, p)
    ensures var m := FeedAll(n, [e], now, pick);
            && m.app.tunnel == TM.Step(n.app.tunnel, e, now).state && m.tracker == n.tracker
            && !Stopped(m) && m.ctx.bootstrap == n.ctx.bootstrap
  {
    hide Transit, TM.Step, TargetPeers, ArmAll;
    var t := Transit(n, e, now, pick);
    TransitTunnel(n, e, now, pick);
    TransitRuns(n, e, now, pick);
    forall p | p in TargetPeers(t.app.tunnel) ensures !RelayOnly(t.tracker, p) { TargetsAreIntents(t.app.tunnel, p); }
    NothingToArm(t, TargetPeers(t.app.tunnel), now, pick);
    FeedSingle(n, e, now, pick);
  }

  // ----- the run -----

  lemma Begin(x: Spec)
    ensures At(Started(OneService(x)), TrackerModel.EMPTY, Waiting(x), {})
    ensures QueryOut(Started(OneService(x)).ctx.serviceQueries, x.service)
  {
    var l := OneService(x);
    BeginFresh(x);
    StartedInv(l);
    hide Transit, Fresh, Base;
    var e := NoBootstrapPeers;
    TransitTunnel(Fresh(l), e, 0, PICK);
    QuietStart(Fresh(l).app.tunnel);
    assert CoveredBut(Started(l), ListeningOn);
  }

  lemma QuietStart(s: TM.Tunnel)
    ensures TM.Step(s, NoBootstrapPeers, 0) == TM.Outcome(s, multiset{})
  {
  }

  lemma BeginFresh(x: Spec)
    ensures var n := Fresh(OneService(x)); var m := Transit(n, NoBootstrapPeers, 0, PICK);
            && At(n, TrackerModel.EMPTY, Waiting(x), {})
            && m.everReady && !Stopped(m) && m.ctx.bootstrap == {}
  {
    hide TM.Step, Execute, AppStep, PeerModel.PeerStep;
    var c := OneService(x).tunnels;
    assert c.(serviceTunnels := c.serviceTunnels[..0]) == TM.Config([], []);
    assert TM.ConfiguredQueues(TM.Config([], [])) == TM.EMPTY.q;
    assert TM.ConfiguredQueues(c) == TM.AddServiceTunnel(TM.EMPTY.q, x.service, x.bind);
    assert [] + [x.bind] == [x.bind];
    TransitRuns(Fresh(OneService(x)), NoBootstrapPeers, 0, PICK);
    PhaseOfStep(Fresh(OneService(x)).app, AppInput(NoBootstrapPeers, 0, PICK));
    StandaloneIsReady(Fresh(OneService(x)).app.peer);
  }

  lemma StandaloneIsReady(s: PeerModel.Peer)
    ensures s.phase.Joining? ==> PeerModel.PeerStep(s, NoBootstrapPeers, PICK).state.phase.Ready?
  {
  }

  lemma TwoProviders()
    ensures SortedProviders({FAILING, RELAYED}, {}) == [(FAILING, false), (RELAYED, false)]
  {
    ProvidersAreRanked({FAILING, RELAYED}, {});
    var r := SortedProviders({FAILING, RELAYED}, {});
    assert |r| == |{FAILING, RELAYED}| == 2;
    hide SortedProviders;
    forall k | 0 <= k < 2 ensures r[k] == (FAILING, false) || r[k] == (RELAYED, false) { assert (r[k].0, r[k].1) in r; }
    assert r[0].1 == r[1].1;
  }

  lemma ResolveTwo(s: TM.Tunnel, x: Spec)
    requires s.q == Waiting(x)
    ensures TM.ResolveService(s, x.service, [(FAILING, false), (RELAYED, false)]).state == s.(q := Resolved(x))
  {
    var providers := [(FAILING, false), (RELAYED, false)];
    assert TM.PeersOf(providers) == [FAILING, RELAYED];
    DedupDistinct([FAILING, RELAYED]);
    DedupDistinct([RELAYED]);
    assert [FAILING, RELAYED][1..] == [RELAYED];
    assert TM.SpecsFor(x.service, [x.bind]) == [x];
    assert [] + [x] == [x];
  }

  function First(id: QueryId): Input { Swarm(KadProviders(id, Found({FAILING, RELAYED}, {})), false, 0, PICK) }

  lemma AfterFirst(n: Node, x: Spec, id: QueryId)
    requires At(n, TrackerModel.EMPTY, Waiting(x), {}) && id in n.ctx.serviceQueries
             && n.ctx.serviceQueries[id] == x.service
    ensures At(Iterate(n, First(id)), TrackerModel.EMPTY, Resolved(x), {})
  {
    TwoProviders();
    hide SortedProviders, TM.ResolveService, FeedAll;
    var providers := [(FAILING, false), (RELAYED, false)];
    var e := DhtServiceResolved(x.service, providers);
    var m := n.(ctx := n.ctx.(serviceQueries := n.ctx.serviceQueries - {id}));
    assert [] + [e] == [e];
    assert Iterate(n, First(id)) == FeedAll(m, [e], 0, PICK);
    ResolveTwo(m.app.tunnel, x);
    ResolveIsStep(m.app.tunnel, x.service, providers);
    FeedQuietly(m, e, 0, PICK);
  }

  lemma ResolveIsStep(s: TM.Tunnel, name: ServiceName, providers: seq<(PeerId, bool)>)
    ensures TM.Step(s, DhtServiceResolved(name, providers), 0) == TM.ResolveService(s, name, providers)
  {
    hide TM.ResolveService;
  }

  function Second(c: ConnectionId, a: Multiaddr): Input { Swarm(ConnEstablished(RELAYED, c, true, a), false, 0, PICK) }

  lemma AfterSecond(n: Node, x: Spec, c: ConnectionId, a: Multiaddr)
    requires At(n, TrackerModel.EMPTY, Resolved(x), {})
    ensures At(Iterate(n, Second(c, a)), Connected(c), Resolved(x), {RELAYED})
  {
    hide FeedAll, TM.PeerConnected;
    var e := TunnelPeerConnected(RELAYED, true);
    assert {} + {c} == {c};
    var m := n.(tracker := Connected(c));
    assert n.ctx.directPeers + {} == n.ctx.directPeers;
    assert Established(n.tracker, RELAYED, c, true).0 == Connected(c) by { FirstConnection(c); }
    assert [] + ([] + [e]) == [e];
    assert Iterate(n, Second(c, a)) == FeedAll(m, [e], 0, PICK);
    ConnectedRelay(m.app.tunnel, x);
    FeedQuietly(m, e, 0, PICK);
  }

  lemma FirstConnection(c: ConnectionId)
    ensures Established(TrackerModel.EMPTY, RELAYED, c, true).0 == Connected(c)
  {
    assert Ids(map[], RELAYED) + {c} == {c};
  }

  lemma ConnectedRelay(s: TM.Tunnel, x: Spec)
    requires s.q == Resolved(x) && s.relayed == {}
    ensures TM.Step(s, TunnelPeerConnected(RELAYED, true), 0).state == s.(relayed := {RELAYED})
  {
    assert {} + {RELAYED} == {RELAYED};
  }

  function Third(c: ConnectionId): Input { Swarm(OutgoingConnError(Some(FAILING), c, false, false), false, 0, PICK) }

  lemma RerouteToRelayed(s: TM.Tunnel, x: Spec)
    requires s.q == Resolved(x) && s.retry == NO_RETRY
    ensures var o := TM.Step(s, TunnelDialFailed(FAILING, false), 0);
            o.state == s.(q := Rerouted(x)) && DhtLookupPeer(RELAYED) in o.commands
  {
    var cs := map[x.service := [RELAYED]];
    assert TM.SkipPeer([RELAYED], FAILING) == [RELAYED];
    assert TM.NextFallback(cs, x.service, FAILING) == (map[], Some(RELAYED)) by {
      assert [RELAYED][1..] == [];
      assert cs - {x.service} == map[];
    }
    var r0 := TM.Reroute(s.q.(pendingByPeer := s.q.pendingByPeer - {FAILING}), {}, {});
    assert s.q.pendingByPeer - {FAILING} == map[];
    assert [x][..0] == [];
    assert TM.RerouteAll(r0, [], FAILING) == r0;
    assert TM.RerouteAll(r0, [x], FAILING) == TM.RerouteOne(r0, x, FAILING);
    assert [] + [x] == [x];
    assert TM.RerouteOne(r0, x, FAILING).q == Rerouted(x) && TM.RerouteOne(r0, x, FAILING).lookups == {RELAYED};
  }

  lemma OneTarget(s: TM.Tunnel, x: Spec)
    requires s.q == Rerouted(x)
    ensures TargetPeers(s) == [RELAYED]
  {
    OrdersAreTotal({});
    TargetsAreIntents(s, RELAYED);
    var r := TargetPeers(s);
    assert s.q.pendingByPeer.Keys + s.q.awaiting.Keys == {RELAYED};
    assert |r| == 1 && r[0] in r;
  }

  /** The relayed provider has an attempt, its lookup is under way, and the tunnel waits for that. */
  predicate LookingUp(n: Node, x: Spec, c: ConnectionId, id: QueryId, expired: bool) {
    && !Stopped(n) && n.app.tunnel.q == Rerouted(x)
    && RELAYED !in n.app.tunnel.retry.pendingRedial
    && n.tracker.relayed == map[RELAYED := {c}] && n.tracker.direct == map[] && RELAYED in n.tracker.attempts
    && n.tracker.deadlines == (if expired then map[] else map[RELAYED := Deadline(1, HOLE_PUNCH_TIMEOUT)])
    && id in n.ctx.tunnelQueries && n.ctx.tunnelQueries[id] == RELAYED
  }

  lemma StartedKeeps(s: TM.Tunnel, id: nat)
    ensures var t := TM.Step(s, HolePunchAttemptStarted(RELAYED, id), 0).state;
            t.q == s.q && t.retry.pendingRedial == s.retry.pendingRedial
  {
  }

  /** The failed dial sends the tunnel to the relayed provider and asks for its lookup. */
  lemma DialFailureReroutes(n: Node, x: Spec, c: ConnectionId)
    requires At(n, Connected(c), Resolved(x), {RELAYED})
    ensures var t := Transit(n, TunnelDialFailed(FAILING, false), 0, PICK);
            var id := QueryId(n.ctx.turn, PeerTarget(RELAYED), 0);
            && !Stopped(t) && t.tracker == Connected(c) && t.app.tunnel.q == Rerouted(x)
               && t.app.tunnel.retry == NO_RETRY
            && id in t.ctx.tunnelQueries && t.ctx.tunnelQueries[id] == RELAYED
  {
    hide Transit, TM.Step, AppStep;
    var e := TunnelDialFailed(FAILING, false);
    RerouteToRelayed(n.app.tunnel, x);
    TransitTunnel(n, e, 0, PICK);
    TransitRuns(n, e, 0, PICK);
    NodeLookups.TransitAsks(n, e, 0, PICK, RELAYED);
  }

  /** Arming then starts the attempt of the relayed provider. */
  lemma ArmingStarts(t: Node, x: Spec, c: ConnectionId, id: QueryId)
    requires !Stopped(t) && t.tracker == Connected(c) && t.app.tunnel.q == Rerouted(x) && t.app.tunnel.retry == NO_RETRY
    requires IdsOld(t.ctx) && id in t.ctx.tunnelQueries && t.ctx.tunnelQueries[id] == RELAYED
    ensures LookingUp(ArmOne(t, RELAYED, 0, PICK), x, c, id, false)
  {
    hide Transit, TM.Step, AppStep, StartAttempt;
    AttemptForRelayed(c);
    var u := t.(tracker := StartAttempt(t.tracker, RELAYED, HOLE_PUNCH_TIMEOUT, 0).0);
    TransitTunnel(u, HolePunchAttemptStarted(RELAYED, 1), 0, PICK);
    TransitRuns(u, HolePunchAttemptStarted(RELAYED, 1), 0, PICK);
    StartedKeeps(u.app.tunnel, 1);
    NodeLookups.TransitOut(u, HolePunchAttemptStarted(RELAYED, 1), 0, PICK, id, RELAYED);
  }

  lemma AfterThird(n: Node, x: Spec, c: ConnectionId, c': ConnectionId)
    requires At(n, Connected(c), Resolved(x), {RELAYED}) && IdsOld(n.ctx)
    ensures LookingUp(Iterate(n, Third(c')), x, c, QueryId(n.ctx.turn, PeerTarget(RELAYED), 0), false)
  {
    hide Transit, TargetPeers, ArmOne, LookingUp;
    var e := TunnelDialFailed(FAILING, false);
    var id := QueryId(n.ctx.turn, PeerTarget(RELAYED), 0);
    var t := Transit(n, e, 0, PICK);
    DialFailureReroutes(n, x, c);
    TransitIdsOld(n, e, 0, PICK);
    OneTarget(t.app.tunnel, x);
    ArmingStarts(t, x, c, id);
    ArmJustOne(t, RELAYED, 0, PICK);
    ThirdIsFeed(n, c, c', e);
    hide Iterate;
    FeedSingle(n, e, 0, PICK);
  }

  lemma ArmJustOne(n: Node, p: PeerId, now: Time, pick: PeerModel.Pick)
    ensures ArmAll(n, [p], now, pick) == ArmOne(n, p, now, pick)
  {
    hide ArmOne;
    assert [p][..0] == [];
    assert ArmAll(n, [], now, pick) == n;
  }

  lemma TransitIdsOld(n: Node, e: Event, now: Time, pick: PeerModel.Pick)
    requires IdsOld(n.ctx)
    ensures IdsOld(Transit(n, e, now, pick).ctx)
  {
    hide AppStep, Execute;
    var o := AppStep(n.app, AppInput(e, now, pick));
    ExecuteIsOld(n.ctx, o.peerCommands + o.tunnelCommands);
  }

  lemma AttemptForRelayed(c: ConnectionId)
    ensures StartAttempt(Connected(c), RELAYED, HOLE_PUNCH_TIMEOUT, 0)
            == (Connected(c).(attempts := map[RELAYED := Stats(1, 0, 0)], attemptSeq := map[RELAYED := 1],
                              deadlines := map[RELAYED := Deadline(1, HOLE_PUNCH_TIMEOUT)]), Some(1))
  {
  }

  lemma ThirdIsFeed(n: Node, c: ConnectionId, c': ConnectionId, e: Event)
    requires At(n, Connected(c), n.app.tunnel.q, {RELAYED}) && e == TunnelDialFailed(FAILING, false)
    ensures Iterate(n, Third(c')) == FeedAll(n, [e], 0, PICK)
  {
    hide FeedAll;
    assert n.tracker.pendingDials - {c'} == n.tracker.pendingDials;
    assert [] + [e] == [e];
  }

  const FOURTH := HolePunchDeadline([], HOLE_PUNCH_TIMEOUT, PICK)

  lemma AfterFourth(n: Node, x: Spec, c: ConnectionId, id: QueryId)
    requires LookingUp(n, x, c, id, false) && IdsOld(n.ctx)
    ensures LookingUp(Iterate(n, FOURTH), x, c, id, true)
  {
    hide Transit, TM.Step, AppStep, DueInOrder;
    var (t, due) := TakeDue(n.tracker, HOLE_PUNCH_TIMEOUT);
    assert due == map[RELAYED := 1];
    var m := n.(tracker := t);
    OneDue();
    var e := HolePunchAttemptTimeout(RELAYED, 1);
    TransitTunnel(m, e, HOLE_PUNCH_TIMEOUT, PICK);
    TransitRuns(m, e, HOLE_PUNCH_TIMEOUT, PICK);
    NodeLookups.TransitOut(m, e, HOLE_PUNCH_TIMEOUT, PICK, id, RELAYED);
    TimeoutIgnored(m.app.tunnel, x);
    assert [RELAYED][..0] == [];
    assert FireTimeouts(m, due, [], HOLE_PUNCH_TIMEOUT, PICK) == m;
    assert FireTimeouts(m, due, [RELAYED], HOLE_PUNCH_TIMEOUT, PICK) == Transit(m, e, HOLE_PUNCH_TIMEOUT, PICK);
  }

  lemma OneDue()
    ensures DueInOrder(map[RELAYED := 1], []) == [RELAYED]
  {
    OrdersAreTotal({});
    var r := DueInOrder(map[RELAYED := 1], []);
    assert map[RELAYED := 1].Keys - (set x | x in []) == {RELAYED};
    assert |r| == 1 && r[0] in r;
  }

  lemma TimeoutIgnored(s: TM.Tunnel, x: Spec)
    requires s.q == Rerouted(x)
    ensures TM.Step(s, HolePunchAttemptTimeout(RELAYED, 1), HOLE_PUNCH_TIMEOUT).state == s
  {
  }

  function Fifth(id: QueryId): Input { Swarm(KadClosestPeers(id, true), false, HOLE_PUNCH_TIMEOUT, PICK) }

  lemma FifthOrphans(n: Node, x: Spec, c: ConnectionId, id: QueryId)
    requires LookingUp(n, x, c, id, true)
    ensures Orphans(n, Fifth(id), RELAYED) && Served(n, RELAYED)
  {
  }

  /** Whatever the service, the bind address and the connection ids: five inputs after the start the
      tunnel waits behind the relay, and neither a session under a deadline nor a redial will end it. */
  lemma SomeWaitIsNotServed(x: Spec, c: ConnectionId, c': ConnectionId, a: Multiaddr)
    ensures exists run: seq<Input> :: |run| == 5 && !Served(NodeAfter(Started(OneService(x)), run), RELAYED)
  {
    hide Started, Iterate, At, LookingUp, Inv, Orphans, Served, Armed, QueryOut;
    var l := OneService(x);
    var n0 := Started(l);
    Begin(x);
    var id := ProviderQuery(n0.ctx, x.service);
    var run1 := [First(id)];
    AfterFirst(n0, x, id);
    Extend1(n0, [], First(id));
    var run2 := run1 + [Second(c, a)];
    AfterSecond(NodeAfter(n0, run1), x, c, a);
    Extend1(n0, run1, Second(c, a));
    var n2 := NodeAfter(n0, run2);
    RunsKeepInv(l, run2);
    InvIdsOld(n2);
    var look := QueryId(n2.ctx.turn, PeerTarget(RELAYED), 0);
    var run3 := run2 + [Third(c')];
    AfterThird(n2, x, c, c');
    Extend1(n0, run2, Third(c'));
    RunsKeepInv(l, run3);
    InvIdsOld(NodeAfter(n0, run3));
    var run4 := run3 + [FOURTH];
    AfterFourth(NodeAfter(n0, run3), x, c, look);
    Extend1(n0, run3, FOURTH);
    var n4 := NodeAfter(n0, run4);
    FifthOrphans(n4, x, c, look);
    RunsKeepInv(l, run4);
    RunsStayArmed(l, run4);
    IterateServed(n4, Fifth(look), RELAYED);
    Extend1(n0, run4, Fifth(look));
    assert |run4 + [Fifth(look)]| == 5;
  }

  lemma Extend1(n0: Node, run: seq<Input>, i: Input)
    ensures NodeAfter(n0, run + [i]) == Iterate(NodeAfter(n0, run), i)
    ensures run == [] ==> NodeAfter(n0, [i]) == Iterate(n0, i)
  {
    hide Iterate;
    assert (run + [i])[..|run|] == run;
    if run == [] { assert run + [i] == [i]; }
  }

  lemma ProviderQuery(ctx: Context, name: ServiceName) returns (id: QueryId)
    requires QueryOut(ctx.serviceQueries, name)
    ensures id in ctx.serviceQueries && ctx.serviceQueries[id] == name
  {
    id :| id in ctx.serviceQueries && ctx.serviceQueries[id] == name;
  }
}
