/** A tunnel is only spawned to a peer that was configured for it or that the DHT listed as a
    provider of its service, over every run of the tunnel machine. */
module TunnelProvenance {
  import opened Types
  import opened Collections
  import opened TunnelModel

  /** What the machine has been told: configured pairs and listed providers. */
  datatype Known = Known(configured: set<(PeerId, Spec)>, listed: set<(PeerId, ServiceName)>)

  predicate MayServe(k: Known, p: PeerId, x: Spec) {
    (p, x) in k.configured || (p, x.service) in k.listed
  }

  predicate AllMayServe(k: Known, p: PeerId, xs: seq<Spec>) {
    forall x | x in xs :: MayServe(k, p, x)
  }

  predicate PeerSourced(q: Queues, k: Known, p: PeerId) {
    AllMayServe(k, p, Get(q.pendingByPeer, p)) && AllMayServe(k, p, Get(q.awaiting, p))
  }

  predicate ServiceSourced(q: Queues, k: Known, n: ServiceName) {
    forall p | p in Get(q.candidates, n) :: (p, n) in k.listed
  }

  ghost predicate Sourced(q: Queues, k: Known) {
    (forall p :: PeerSourced(q, k, p)) && (forall n :: ServiceSourced(q, k, n))
  }

  ghost predicate SpawnsSourced(cs: multiset<Command>, k: Known) {
    forall p, x | SpawnTunnel(p, x) in cs :: MayServe(k, p, x)
  }

  function Learn(k: Known, e: Event): Known {
    if e.DhtServiceResolved? then k.(listed := k.listed + (set p | p in PeersOf(e.providers) :: (p, e.resolved)))
    else k
  }

  function Told(c: Config, run: seq<Input>): Known {
    if run == [] then Known(set t | t in c.peerTunnels, {})
    else Learn(Told(c, run[..|run| - 1]), run[|run| - 1].event)
  }

  lemma SpawnsOf(p: PeerId, specs: seq<Spec>, k: Known)
    requires AllMayServe(k, p, specs)
    ensures SpawnsSourced(Spawns(p, specs), k)
  {
    forall p', x | SpawnTunnel(p', x) in Spawns(p, specs) ensures MayServe(k, p', x) {
      assert SpawnTunnel(p', x) in SpawnSeq(p, specs);
      var i :| 0 <= i < |specs| && SpawnSeq(p, specs)[i] == SpawnTunnel(p', x);
      assert x == specs[i] && x in specs;
    }
  }

  lemma KnowMore(q: Queues, k: Known, k': Known)
    requires Sourced(q, k) && k.configured <= k'.configured && k.listed <= k'.listed
    ensures Sourced(q, k')
  {
    forall p ensures PeerSourced(q, k', p) { assert PeerSourced(q, k, p); }
    forall n ensures ServiceSourced(q, k', n) { assert ServiceSourced(q, k, n); }
  }

  // ----- queues -----

  lemma SkipMembers(ps: seq<PeerId>, x: PeerId)
    ensures forall p | p in SkipPeer(ps, x) :: p in ps
  {
  }

  lemma {:induction false} RerouteOneSourced(r: Reroute, spec: Spec, failed: PeerId, k: Known)
    requires Sourced(r.q, k)
    ensures Sourced(RerouteOne(r, spec, failed).q, k)
  {
    var q' := RerouteOne(r, spec, failed).q;
    var n := spec.service;
    var left := SkipPeer(Get(r.q.candidates, n), failed);
    SkipMembers(Get(r.q.candidates, n), failed);
    assert ServiceSourced(r.q, k, n);
    forall m ensures ServiceSourced(q', k, m) {
      assert ServiceSourced(r.q, k, m);
      if m == n {
        assert forall p | p in Get(q'.candidates, n) :: p in left;
      }
    }
    forall p ensures PeerSourced(q', k, p) {
      assert PeerSourced(r.q, k, p);
      if left != [] && p == left[0] {
        assert (p, n) in k.listed;
      }
    }
  }

  lemma {:induction false} RerouteSourced(r: Reroute, specs: seq<Spec>, failed: PeerId, k: Known)
    requires Sourced(r.q, k)
    ensures Sourced(RerouteAll(r, specs, failed).q, k)
  {
    hide Sourced, RerouteOne;
    if specs != [] {
      var n := |specs| - 1;
      RerouteSourced(r, specs[..n], failed, k);
      RerouteOneSourced(RerouteAll(r, specs[..n], failed), specs[n], failed, k);
    }
  }

  lemma TakeSourced(q: Queues, p: PeerId, k: Known)
    requires Sourced(q, k)
    ensures Sourced(TakePending(q, p), k) && AllMayServe(k, p, Get(q.pendingByPeer, p))
  {
    assert PeerSourced(q, k, p);
    forall p' ensures PeerSourced(TakePending(q, p), k, p') { assert PeerSourced(q, k, p'); }
    forall n ensures ServiceSourced(TakePending(q, p), k, n) { assert ServiceSourced(q, k, n); }
  }

  lemma DropAwaitingSourced(q: Queues, p: PeerId, k: Known)
    requires Sourced(q, k)
    ensures Sourced(q.(awaiting := q.awaiting - {p}), k) && AllMayServe(k, p, Get(q.awaiting, p))
  {
    var q' := q.(awaiting := q.awaiting - {p});
    assert PeerSourced(q, k, p);
    forall p' ensures PeerSourced(q', k, p') { assert PeerSourced(q, k, p'); }
    forall n ensures ServiceSourced(q', k, n) { assert ServiceSourced(q, k, n); }
  }

  lemma QueueSourced(q: Queues, p: PeerId, specs: seq<Spec>, k: Known)
    requires Sourced(q, k) && AllMayServe(k, p, specs)
    ensures Sourced(QueueForDirect(q, p, specs), k)
    ensures Sourced(q.(pendingByPeer := Extend(q.pendingByPeer, p, specs)), k)
  {
    var a, b := QueueForDirect(q, p, specs), q.(pendingByPeer := Extend(q.pendingByPeer, p, specs));
    forall p' ensures PeerSourced(a, k, p') && PeerSourced(b, k, p') { assert PeerSourced(q, k, p'); }
    forall n ensures ServiceSourced(a, k, n) && ServiceSourced(b, k, n) { assert ServiceSourced(q, k, n); }
  }

  // ----- transitions -----

  ghost predicate OutcomeSourced(o: Outcome, k: Known) {
    Sourced(o.state.q, k) && SpawnsSourced(o.commands, k)
  }

  lemma RouteSourced(s: Tunnel, q: Queues, p: PeerId, specs: seq<Spec>, k: Known)
    requires Sourced(q, k) && AllMayServe(k, p, specs)
    ensures OutcomeSourced(RouteConnected(s, q, p, specs), k)
  {
    hide Sourced, AllMayServe, Spawns;
    QueueSourced(q, p, specs, k);
    SpawnsOf(p, specs, k);
  }

  lemma ResolveSourced(s: Tunnel, n: ServiceName, providers: seq<(PeerId, bool)>, k: Known)
    requires Sourced(s.q, k) && n in s.q.pendingByService && providers != []
    requires forall p | p in PeersOf(providers) :: (p, n) in k.listed
    ensures OutcomeSourced(ResolveService(s, n, providers), k)
  {
    hide RouteConnected, Dedup;
    var peers := Dedup(PeersOf(providers));
    var specs := SpecsFor(n, s.q.pendingByService[n]);
    assert PeersOf(providers)[0] in peers;
    var q := s.q.(pendingByService := s.q.pendingByService - {n},
                  candidates := StoreCandidates(s.q.candidates, n, peers[1..]));
    forall p ensures PeerSourced(q, k, p) { assert PeerSourced(s.q, k, p); }
    forall m ensures ServiceSourced(q, k, m) {
      assert ServiceSourced(s.q, k, m);
      assert forall p | p in peers[1..] :: p in peers;
    }
    assert AllMayServe(k, peers[0], specs);
    hide Sourced, AllMayServe;
    RouteSourced(s, q, peers[0], specs, k);
    QueueSourced(q, peers[0], specs, k);
  }

  lemma ConnectedSourced(s: Tunnel, p: PeerId, relayed: bool, k: Known)
    requires Sourced(s.q, k)
    ensures OutcomeSourced(PeerConnected(s, p, relayed), k)
  {
    hide Sourced, Spawns;
    TakeSourced(s.q, p, k);
    QueueSourced(TakePending(s.q, p), p, Get(s.q.pendingByPeer, p), k);
    DropAwaitingSourced(s.q, p, k);
    TakeSourced(s.q.(awaiting := s.q.awaiting - {p}), p, k);
    SpawnsOf(p, Get(s.q.pendingByPeer, p) + Get(s.q.awaiting, p), k);
  }

  lemma RetrySourced(s: Tunnel, p: PeerId, id: nat, k: Known)
    requires Sourced(s.q, k)
    ensures OutcomeSourced(RetryAttempt(s, p, id), k)
  {
    hide Sourced, Spawns, AllMayServe;
    DropAwaitingSourced(s.q, p, k);
    SpawnsOf(p, Get(s.q.awaiting, p), k);
  }

  lemma LostSourced(s: Tunnel, p: PeerId, now: Time, k: Known)
    requires Sourced(s.q, k)
    ensures OutcomeSourced(AllConnectionsLost(s, p, now), k)
  {
    hide Sourced, AllMayServe, PrioritizedRedial;
    DropAwaitingSourced(s.q, p, k);
    QueueSourced(s.q.(awaiting := s.q.awaiting - {p}), p, Get(s.q.awaiting, p), k);
  }

  lemma DialFailedSourced(s: Tunnel, p: PeerId, pendingAbort: bool, now: Time, k: Known)
    requires Sourced(s.q, k)
    ensures OutcomeSourced(DialFailed(s, p, pendingAbort, now), k)
  {
    hide Sourced, PrioritizedRedial, RerouteAll;
    TakeSourced(s.q, p, k);
    RerouteSourced(Reroute(TakePending(s.q, p), {}, {}), Get(s.q.pendingByPeer, p), p, k);
  }

  lemma StepSourced(s: Tunnel, e: Event, now: Time, k: Known)
    requires Sourced(s.q, k)
    ensures OutcomeSourced(Step(s, e, now), Learn(k, e))
  {
    hide Sourced, ResolveService, DialFailed, PeerConnected, RetryAttempt, AllConnectionsLost, RouteConnected,
         BookAfter, RefreshSession, BeginAttempt;
    match e
    case DhtPeerLookupComplete(p, connected) =>
      TakeSourced(s.q, p, k);
      RouteSourced(s, TakePending(s.q, p), p, Get(s.q.pendingByPeer, p), k);
    case DhtServiceResolved(n, providers) =>
      KnowMore(s.q, k, Learn(k, e));
      if n in s.q.pendingByService && providers != [] {
        ResolveSourced(s, n, providers, Learn(k, e));
      } else {
        ResolveIdle(s, n, providers);
      }
    case TunnelDialFailed(p, pendingAbort) => DialFailedSourced(s, p, pendingAbort, now, k);
    case TunnelPeerConnected(p, relayed) => ConnectedSourced(s, p, relayed, k);
    case HolePunchAttemptFailed(p, id) => RetrySourced(s, p, id, k);
    case HolePunchAttemptTimeout(p, id) => RetrySourced(s, p, id, k);
    case ConnectionLost(p, remaining) => LostSourced(s, p, now, k);
    case _ =>
  }

  lemma ResolveIdle(s: Tunnel, n: ServiceName, providers: seq<(PeerId, bool)>)
    requires n !in s.q.pendingByService || providers == []
    ensures var o := ResolveService(s, n, providers); o.state == s && forall c | c in o.commands :: c.DhtGetProviders?
  {
  }

  // ----- runs -----

  lemma {:induction false} ConfiguredSourced(c: Config)
    ensures Sourced(ConfiguredQueues(c), Told(c, []))
    decreases |c.peerTunnels| + |c.serviceTunnels|
  {
    var m, n := |c.peerTunnels|, |c.serviceTunnels|;
    var q, k := ConfiguredQueues(c), Told(c, []);
    if n > 0 {
      var c' := c.(serviceTunnels := c.serviceTunnels[..n - 1]);
      ConfiguredSourced(c');
      assert Told(c', []) == k;
      forall p ensures PeerSourced(q, k, p) { assert PeerSourced(ConfiguredQueues(c'), k, p); }
      forall x ensures ServiceSourced(q, k, x) { assert ServiceSourced(ConfiguredQueues(c'), k, x); }
    } else if m > 0 {
      var c' := c.(peerTunnels := c.peerTunnels[..m - 1]);
      ConfiguredSourced(c');
      KnowMore(ConfiguredQueues(c'), Told(c', []), k);
      var (p, x) := c.peerTunnels[m - 1];
      assert c.peerTunnels[m - 1] in k.configured && (p, x) == c.peerTunnels[m - 1];
      QueueSourced(ConfiguredQueues(c'), p, [x], k);
    }
  }

  lemma {:induction false} RunsSourced(c: Config, run: seq<Input>)
    ensures Sourced(StateAfter(Configured(c), run).q, Told(c, run))
  {
    hide Sourced, Step;
    if run == [] {
      ConfiguredSourced(c);
    } else {
      var n := |run| - 1;
      RunsSourced(c, run[..n]);
      StepSourced(StateAfter(Configured(c), run[..n]), run[n].event, run[n].now, Told(c, run[..n]));
    }
  }

  lemma {:induction false} ListedEarlier(c: Config, run: seq<Input>, p: PeerId, n: ServiceName)
    requires (p, n) in Told(c, run).listed
    ensures exists i :: 0 <= i < |run| && run[i].event.DhtServiceResolved? && run[i].event.resolved == n
                        && p in PeersOf(run[i].event.providers)
  {
    var last := |run| - 1;
    if (p, n) in Told(c, run[..last]).listed {
      ListedEarlier(c, run[..last], p, n);
      var i :| 0 <= i < last && run[..last][i].event.DhtServiceResolved? && run[..last][i].event.resolved == n
               && p in PeersOf(run[..last][i].event.providers);
      assert run[i] == run[..last][i];
    } else {
      assert run[last].event.DhtServiceResolved?;
    }
  }

  lemma {:induction false} ConfiguredNeverGrows(c: Config, run: seq<Input>)
    ensures Told(c, run).configured == set t | t in c.peerTunnels
  {
    if run != [] { ConfiguredNeverGrows(c, run[..|run| - 1]); }
  }

  /** Over every run: the last transition spawns a tunnel to `p` only if the pair was configured or
      an event of the run listed `p` as a provider of the service. */
  lemma SpawnHasSource(c: Config, run: seq<Input>, p: PeerId, x: Spec)
    requires run != []
    ensures var last := |run| - 1;
            SpawnTunnel(p, x) in Step(StateAfter(Configured(c), run[..last]), run[last].event,
                run[last].now).commands ==>
              (p, x) in c.peerTunnels
              || exists i :: 0 <= i < |run| && run[i].event.DhtServiceResolved? && run[i].event.resolved == x.service
                             && p in PeersOf(run[i].event.providers)
  {
    hide Step, Sourced;
    var last := |run| - 1;
    if SpawnTunnel(p, x) !in Step(StateAfter(Configured(c), run[..last]), run[last].event, run[last].now).commands {
        return; }
    RunsSourced(c, run[..last]);
    StepSourced(StateAfter(Configured(c), run[..last]), run[last].event, run[last].now, Told(c, run[..last]));
    assert MayServe(Told(c, run), p, x);
    if (p, x.service) in Told(c, run).listed {
      ListedEarlier(c, run, p, x.service);
    } else {
      ConfiguredNeverGrows(c, run);
    }
  }
}
