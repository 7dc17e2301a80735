/** No requested tunnel is lost or spawned twice, over every run of the tunnel machine. */
module TunnelConservation {
  import opened Types
  import opened Collections
  import opened TunnelModel

  function SpecOf(c: Command): multiset<Spec> {
    if c.SpawnTunnel? then multiset{c.spec} else multiset{}
  }

  /** The tunnels that a multiset of commands spawns. */
  ghost function SpawnedSpecs(cs: multiset<Command>): multiset<Spec> { Sum(cs, SpecOf) }

  function ServiceSpecs(m: map<ServiceName, seq<ServiceAddr>>): map<ServiceName, seq<Spec>> {
    map n | n in m :: SpecsFor(n, m[n])
  }

  /** The tunnels that still wait in one of the three queues. */
  ghost function QueuedSpecs(q: Queues): multiset<Spec> {
    Total(q.pendingByPeer) + Total(ServiceSpecs(q.pendingByService)) + Total(q.awaiting)
  }

  function PeerRequests(ts: seq<(PeerId, Spec)>): seq<Spec> {
    seq(|ts|, i requires 0 <= i < |ts| => ts[i].1)
  }

  function ServiceRequests(ts: seq<(ServiceName, ServiceAddr)>): seq<Spec> {
    seq(|ts|, i requires 0 <= i < |ts| => Spec(ts[i].0, ts[i].1))
  }

  /** The tunnels that were asked for. */
  function Requested(c: Config): multiset<Spec> {
    multiset(PeerRequests(c.peerTunnels)) + multiset(ServiceRequests(c.serviceTunnels))
  }

  /** The tunnels spawned so far. */
  ghost function SpawnedBy(s0: Tunnel, run: seq<Input>): multiset<Spec> {
    if run == [] then multiset{} else
      var n := |run| - 1;
      SpawnedBy(s0, run[..n]) + SpawnedSpecs(Step(StateAfter(s0, run[..n]), run[n].event, run[n].now).commands)
  }

  // ----- commands -----

  lemma NoSpawns(cs: multiset<Command>)
    requires forall c | c in cs :: !c.SpawnTunnel?
    ensures SpawnedSpecs(cs) == multiset{}
  {
    SumNothing(cs, SpecOf);
  }

  lemma SpawnsSnoc(p: PeerId, specs: seq<Spec>, last: Spec)
    ensures Spawns(p, specs + [last]) == Spawns(p, specs) + multiset{SpawnTunnel(p, last)}
  {
    assert SpawnSeq(p, specs + [last]) == SpawnSeq(p, specs) + [SpawnTunnel(p, last)];
  }

  lemma {:induction false} SpawnsCarry(p: PeerId, specs: seq<Spec>)
    ensures SpawnedSpecs(Spawns(p, specs)) == multiset(specs)
  {
    if specs == [] {
      assert SpawnSeq(p, specs) == [];
    } else {
      hide Spawns, Sum;
      var n := |specs| - 1;
      var last := SpawnTunnel(p, specs[n]);
      SpawnsCarry(p, specs[..n]);
      assert specs == specs[..n] + [specs[n]];
      SpawnsSnoc(p, specs[..n], specs[n]);
      SumPlus(Spawns(p, specs[..n]), multiset{last}, SpecOf);
      SumOne(last, SpecOf);
    }
  }

  lemma LookupsSpawnNothing(ps: set<PeerId>, ns: set<ServiceName>)
    ensures SpawnedSpecs(Lookups(ps) + Queries(ns)) == multiset{}
  {
    NoSpawns(Lookups(ps) + Queries(ns));
  }

  // ----- queues -----

  lemma SpecsForExtend(n: ServiceName, a: seq<ServiceAddr>, b: seq<ServiceAddr>)
    ensures SpecsFor(n, a + b) == SpecsFor(n, a) + SpecsFor(n, b)
  {
  }

  lemma ServiceTotalExtend(m: map<ServiceName, seq<ServiceAddr>>, n: ServiceName, binds: seq<ServiceAddr>)
    ensures Total(ServiceSpecs(Extend(m, n, binds))) == Total(ServiceSpecs(m)) + multiset(SpecsFor(n, binds))
  {
    SpecsForExtend(n, Get(m, n), binds);
    assert Get(ServiceSpecs(m), n) == SpecsFor(n, Get(m, n));
    assert ServiceSpecs(Extend(m, n, binds)) == Extend(ServiceSpecs(m), n, SpecsFor(n, binds));
    TotalExtend(ServiceSpecs(m), n, SpecsFor(n, binds));
  }

  lemma ServiceTotalRemove(m: map<ServiceName, seq<ServiceAddr>>, n: ServiceName)
    requires n in m
    ensures Total(ServiceSpecs(m)) == multiset(SpecsFor(n, m[n])) + Total(ServiceSpecs(m - {n}))
  {
    TotalRemove(ServiceSpecs(m), n);
    assert ServiceSpecs(m) - {n} == ServiceSpecs(m - {n});
  }

  lemma RerouteOneConserves(r: Reroute, spec: Spec, failed: PeerId)
    ensures QueuedSpecs(RerouteOne(r, spec, failed).q) == QueuedSpecs(r.q) + multiset{spec}
  {
    hide Total, ServiceSpecs;
    var next := NextFallback(r.q.candidates, spec.service, failed).1;
    if next.Some? {
      TotalExtend(r.q.pendingByPeer, next.value, [spec]);
    } else {
      ServiceTotalExtend(r.q.pendingByService, spec.service, [spec.bind]);
      assert SpecsFor(spec.service, [spec.bind]) == [spec];
    }
  }

  lemma {:induction false} RerouteConserves(r: Reroute, specs: seq<Spec>, failed: PeerId)
    ensures QueuedSpecs(RerouteAll(r, specs, failed).q) == QueuedSpecs(r.q) + multiset(specs)
  {
    hide QueuedSpecs, RerouteOne;
    if specs != [] {
      var n := |specs| - 1;
      RerouteConserves(r, specs[..n], failed);
      RerouteOneConserves(RerouteAll(r, specs[..n], failed), specs[n], failed);
      assert specs == specs[..n] + [specs[n]];
    }
  }

  lemma TakePendingConserves(q: Queues, p: PeerId)
    ensures QueuedSpecs(q) == QueuedSpecs(TakePending(q, p)) + multiset(Get(q.pendingByPeer, p))
  {
    hide Total, ServiceSpecs;
    TotalRemove(q.pendingByPeer, p);
  }

  lemma QueueForDirectConserves(q: Queues, p: PeerId, specs: seq<Spec>)
    ensures QueuedSpecs(QueueForDirect(q, p, specs)) == QueuedSpecs(q) + multiset(specs)
  {
    hide Total, ServiceSpecs;
    TotalExtend(q.awaiting, p, specs);
  }

  lemma RouteConserves(s: Tunnel, q: Queues, p: PeerId, specs: seq<Spec>)
    ensures var o := RouteConnected(s, q, p, specs);
            QueuedSpecs(o.state.q) + SpawnedSpecs(o.commands) == QueuedSpecs(q) + multiset(specs)
  {
    hide QueuedSpecs, Spawns, Sum;
    QueueForDirectConserves(q, p, specs);
    SpawnsCarry(p, specs);
    NoSpawns(multiset{});
  }

  // ----- transitions -----

  ghost predicate Conserves(q: Queues, o: Outcome) {
    QueuedSpecs(o.state.q) + SpawnedSpecs(o.commands) == QueuedSpecs(q)
  }

  lemma ResolveConserves(s: Tunnel, n: ServiceName, providers: seq<(PeerId, bool)>)
    ensures Conserves(s.q, ResolveService(s, n, providers))
  {
    hide Total, Sum, Dedup, ServiceSpecs, RouteConnected;
    if n !in s.q.pendingByService || providers == [] {
      NoSpawns(ResolveService(s, n, providers).commands);
    } else {
      var peers := Dedup(PeersOf(providers));
      var specs := SpecsFor(n, s.q.pendingByService[n]);
      assert PeersOf(providers)[0] in peers;
      var q := s.q.(pendingByService := s.q.pendingByService - {n},
                    candidates := StoreCandidates(s.q.candidates, n, peers[1..]));
      ServiceTotalRemove(s.q.pendingByService, n);
      assert QueuedSpecs(s.q) == QueuedSpecs(q) + multiset(specs);
      RouteConserves(s, q, peers[0], specs);
      TotalExtend(q.pendingByPeer, peers[0], specs);
      NoSpawns(multiset{DhtLookupPeer(peers[0])});
    }
  }

  lemma RetryConserves(s: Tunnel, p: PeerId, id: nat)
    ensures Conserves(s.q, RetryAttempt(s, p, id))
  {
    hide Total, Sum, ServiceSpecs, Spawns;
    NoSpawns(multiset{});
    NoSpawns(multiset{DisconnectPeer(p)});
    TotalRemove(s.q.awaiting, p);
    if p in s.q.awaiting {
      SpawnsCarry(p, s.q.awaiting[p]);
    }
  }

  lemma DialFailedConserves(s: Tunnel, p: PeerId, pendingAbort: bool, now: Time)
    ensures Conserves(s.q, DialFailed(s, p, pendingAbort, now))
  {
    hide QueuedSpecs, Sum, RerouteAll, Lookups, Queries, PrioritizedRedial;
    var o := DialFailed(s, p, pendingAbort, now);
    var r := RerouteFailed(s.q, p);
    RerouteConserves(Reroute(TakePending(s.q, p), {}, {}), Get(s.q.pendingByPeer, p), p);
    TakePendingConserves(s.q, p);
    LookupsSpawnNothing(r.lookups, r.refresh);
    if o.state.q == s.q && o.commands != Lookups(r.lookups) + Queries(r.refresh) {
      NoSpawns(o.commands);
    }
  }

  lemma ConnectedConserves(s: Tunnel, p: PeerId, relayed: bool)
    ensures Conserves(s.q, PeerConnected(s, p, relayed))
  {
    hide Total, Sum, ServiceSpecs, Spawns;
    if relayed {
      NoSpawns(multiset{});
      TakePendingConserves(s.q, p);
      QueueForDirectConserves(TakePending(s.q, p), p, Get(s.q.pendingByPeer, p));
    } else {
      TotalRemove(s.q.pendingByPeer, p);
      TotalRemove(s.q.awaiting, p);
      SpawnsCarry(p, Get(s.q.pendingByPeer, p) + Get(s.q.awaiting, p));
    }
  }

  lemma LostConserves(s: Tunnel, p: PeerId, now: Time)
    ensures Conserves(s.q, AllConnectionsLost(s, p, now))
  {
    hide Total, Sum, ServiceSpecs, PrioritizedRedial;
    NoSpawns(AllConnectionsLost(s, p, now).commands);
    if p in s.q.awaiting {
      TotalRemove(s.q.awaiting, p);
      TotalExtend(s.q.pendingByPeer, p, s.q.awaiting[p]);
    }
  }

  lemma LookupConserves(s: Tunnel, p: PeerId, connected: bool, now: Time)
    ensures Conserves(s.q, Step(s, DhtPeerLookupComplete(p, connected), now))
  {
    hide QueuedSpecs, Sum, RouteConnected;
    NoSpawns(multiset{});
    NoSpawns(multiset{DialPeer(p)});
    TakePendingConserves(s.q, p);
    RouteConserves(s, TakePending(s.q, p), p, Get(s.q.pendingByPeer, p));
  }

  /** The events whose transition neither queues nor spawns. */
  predicate Quiet(e: Event) {
    !(e.DhtPeerLookupComplete? || e.DhtServiceResolved? || e.TunnelDialFailed? || e.TunnelPeerConnected?
      || e.HolePunchAttemptFailed? || e.HolePunchAttemptTimeout? || e.ConnectionLost?)
  }

  lemma QuietStep(s: Tunnel, e: Event, now: Time)
    requires Quiet(e)
    ensures var o := Step(s, e, now); o.state.q == s.q && forall c | c in o.commands :: !c.SpawnTunnel?
  {
    hide ResolveService, DialFailed, PeerConnected, RetryAttempt, AllConnectionsLost, RouteConnected, BookAfter,
         RefreshSession, BeginAttempt;
  }

  lemma StepConserves(s: Tunnel, e: Event, now: Time)
    ensures Conserves(s.q, Step(s, e, now))
  {
    hide Conserves, ResolveService, DialFailed, PeerConnected, RetryAttempt, AllConnectionsLost, RouteConnected,
         InitialLookups;
    match e
    case DhtPeerLookupComplete(p, connected) => LookupConserves(s, p, connected, now);
    case DhtServiceResolved(n, providers) => ResolveConserves(s, n, providers);
    case TunnelDialFailed(p, pendingAbort) => DialFailedConserves(s, p, pendingAbort, now);
    case TunnelPeerConnected(p, relayed) => ConnectedConserves(s, p, relayed);
    case HolePunchAttemptFailed(p, id) => RetryConserves(s, p, id);
    case HolePunchAttemptTimeout(p, id) => RetryConserves(s, p, id);
    case ConnectionLost(p, remaining) => LostConserves(s, p, now); QuietConserves(s.q, Outcome(s, multiset{}));
    case _ => hide Step; QuietStep(s, e, now); QuietConserves(s.q, Step(s, e, now));
  }

  lemma QuietConserves(q: Queues, o: Outcome)
    requires o.state.q == q && forall c | c in o.commands :: !c.SpawnTunnel?
    ensures Conserves(q, o)
  {
    NoSpawns(o.commands);
  }

  // ----- runs -----

  lemma {:induction false} ConfiguredHoldsRequests(c: Config)
    ensures QueuedSpecs(ConfiguredQueues(c)) == Requested(c)
    decreases |c.peerTunnels| + |c.serviceTunnels|
  {
    hide Total;
    var m, n := |c.peerTunnels|, |c.serviceTunnels|;
    if n > 0 {
      var c' := c.(serviceTunnels := c.serviceTunnels[..n - 1]);
      var (name, bind) := c.serviceTunnels[n - 1];
      ConfiguredHoldsRequests(c');
      ServiceTotalExtend(ConfiguredQueues(c').pendingByService, name, [bind]);
      assert SpecsFor(name, [bind]) == [Spec(name, bind)];
      RequestedService(c);
    } else if m > 0 {
      var c' := c.(peerTunnels := c.peerTunnels[..m - 1]);
      ConfiguredHoldsRequests(c');
      TotalExtend(ConfiguredQueues(c').pendingByPeer, c.peerTunnels[m - 1].0, [c.peerTunnels[m - 1].1]);
      RequestedPeer(c);
    } else {
      EmptyTotals();
    }
  }

  lemma EmptyTotals()
    ensures QueuedSpecs(EMPTY.q) == multiset{}
  {
    assert ServiceSpecs(map[]) == map[];
  }

  lemma RequestedService(c: Config)
    requires |c.serviceTunnels| > 0
    ensures var n := |c.serviceTunnels| - 1;
            Requested(c) == Requested(c.(serviceTunnels := c.serviceTunnels[..n]))
                            + multiset{Spec(c.serviceTunnels[n].0, c.serviceTunnels[n].1)}
  {
    var ts := c.serviceTunnels;
    assert ServiceRequests(ts) == ServiceRequests(ts[..|ts| - 1]) + [ServiceRequests(ts)[|ts| - 1]];
  }

  lemma RequestedPeer(c: Config)
    requires |c.peerTunnels| > 0
    ensures var n := |c.peerTunnels| - 1;
            Requested(c) == Requested(c.(peerTunnels := c.peerTunnels[..n])) + multiset{c.peerTunnels[n].1}
  {
    var ts := c.peerTunnels;
    assert PeerRequests(ts) == PeerRequests(ts[..|ts| - 1]) + [PeerRequests(ts)[|ts| - 1]];
  }

  /** Over every run: what still waits plus what has been spawned is exactly what was asked for. */
  lemma {:induction false} RunsConserve(c: Config, run: seq<Input>)
    ensures QueuedSpecs(StateAfter(Configured(c), run).q) + SpawnedBy(Configured(c), run) == Requested(c)
  {
    hide QueuedSpecs, SpawnedSpecs, Step;
    if run == [] {
      ConfiguredHoldsRequests(c);
    } else {
      var n := |run| - 1;
      RunsConserve(c, run[..n]);
      StepConserves(StateAfter(Configured(c), run[..n]), run[n].event, run[n].now);
    }
  }
}
