/** What one transition of the application state does to the node: the facts about the tunnel
    machine that the node-wide invariants rest on. */
module NodeTransit {
  import opened Types
  import opened Collections
  import opened AppModel
  import opened TunnelInvariants
  import PeerModel
  import TM = TunnelModel

  // ----- the tunnel machine inside the application -----

  /** Commands that change connections, dial or hand out tunnels. */
  predicate Decisive(c: Command) { c.SpawnTunnel? || c.DisconnectPeer? || c.DialPeer? || c.DialPeerWithAddrs? }

  lemma {:induction false} AnnouncedIsHarmless(p: PeerId, known: set<Multiaddr>, listed: seq<Multiaddr>)
    ensures forall c | c in PeerModel.Announced(p, known, listed) :: c.KademliaAddAddress?
  {
    hide PeerModel.StoreAll;
    if listed != [] { AnnouncedIsHarmless(p, known, listed[..|listed| - 1]); }
  }

  lemma PeerIsHarmless(s: PeerModel.Peer, e: Event, pick: PeerModel.Pick)
    ensures forall c | c in PeerModel.PeerStep(s, e, pick).commands :: !Decisive(c)
  {
    hide PeerModel.Announced, PeerModel.StoreAll, PeerModel.Discover, PeerModel.Expire, PeerModel.RelayChoice;
    if e.PeerIdentified? {
      AnnouncedIsHarmless(e.identified, PeerModel.AddrsOf(s.knownPeers, e.identified), e.listenAddrs);
    }
  }

  lemma LookupsAreHarmless(q: TM.Queues)
    ensures forall c | c in TM.InitialLookups(q) :: !Decisive(c)
  {
  }

  /** The tunnel machine inside the application makes exactly the step of the event; the bridge only
      adds commands, and no decisive ones. */
  lemma TunnelInsideApp(a: App, i: AppInput)
    requires !i.event.PhaseChanged?
    ensures var o := AppStep(a, i); var t := TM.Step(a.tunnel, i.event, i.now);
            && o.app.tunnel == t.state
            && t.commands <= o.peerCommands + o.tunnelCommands
            && forall c | Decisive(c) :: (o.peerCommands + o.tunnelCommands)[c] == t.commands[c]
  {
    hide TM.Step, PeerModel.PeerStep, TM.InitialLookups;
    PeerIsHarmless(a.peer, i.event, i.pick);
    LookupsAreHarmless(a.tunnel.q);
    BridgeOutcome(a.tunnel, a.peer.phase, PeerModel.PeerStep(a.peer, i.event, i.pick).state.phase, i.now);
  }

  // ----- sessions and relayed peers -----

  /** Where the session of `q` comes from. */
  predicate SessionFrom(before: TM.Retry, after: TM.Retry, e: Event, q: PeerId) {
    q in after.sessions ==>
      if e.HolePunchAttemptStarted? && e.startedPeer == q then after.sessions[q].attemptId == e.startedAttempt
      else q in before.sessions && after.sessions[q].attemptId == before.sessions[q].attemptId
  }

  lemma SimpleSession(s: TM.Tunnel, e: Event, now: Time, q: PeerId)
    requires !e.DhtServiceResolved? && !e.TunnelDialFailed? && !e.HolePunchAttemptFailed? && !e.HolePunchAttemptTimeout?
             && !e.ConnectionLost? && !e.DhtPeerLookupComplete?
    ensures SessionFrom(s.retry, TM.Step(s, e, now).state.retry, e, q)
  {
    hide TM.Spawns, TM.InitialLookups, TM.BookAfter, TM.RetryAttempt, TM.AllConnectionsLost, TM.DialFailed,
         TM.ResolveService, TM.RouteConnected;
  }

  lemma RetrySession(s: TM.Tunnel, p: PeerId, id: nat, q: PeerId)
    ensures var r := TM.RetryAttempt(s, p, id).state.retry;
            q in r.sessions ==> q in s.retry.sessions && r.sessions[q].attemptId == s.retry.sessions[q].attemptId
  {
    hide TM.Spawns;
  }

  lemma LostSession(s: TM.Tunnel, p: PeerId, now: Time, q: PeerId)
    ensures var r := TM.AllConnectionsLost(s, p, now).state.retry;
            q in r.sessions ==> q in s.retry.sessions && r.sessions[q].attemptId == s.retry.sessions[q].attemptId
  {
    hide TM.RedialCommand;
  }

  lemma DialFailedSession(s: TM.Tunnel, p: PeerId, pendingAbort: bool, now: Time, q: PeerId)
    ensures var r := TM.DialFailed(s, p, pendingAbort, now).state.retry;
            q in r.sessions ==> q in s.retry.sessions && r.sessions[q].attemptId == s.retry.sessions[q].attemptId
  {
    hide TM.RedialCommand, TM.RerouteAll, TM.Lookups, TM.Queries;
  }

  lemma RoutingSession(s: TM.Tunnel, e: Event, now: Time)
    requires e.DhtServiceResolved? || e.DhtPeerLookupComplete?
    ensures TM.Step(s, e, now).state.retry == s.retry
  {
    hide TM.Spawns, Dedup, TM.StoreCandidates;
  }

  lemma StepSession(s: TM.Tunnel, e: Event, now: Time, q: PeerId)
    ensures SessionFrom(s.retry, TM.Step(s, e, now).state.retry, e, q)
  {
    hide TM.RetryAttempt, TM.AllConnectionsLost, TM.DialFailed;
    match e
    case HolePunchAttemptFailed(p, id) => RetrySession(s, p, id, q);
    case HolePunchAttemptTimeout(p, id) => RetrySession(s, p, id, q);
    case ConnectionLost(p, _) => LostSession(s, p, now, q);
    case TunnelDialFailed(p, pendingAbort) => DialFailedSession(s, p, pendingAbort, now, q);
    case DhtServiceResolved(_, _) => hide TM.Step; RoutingSession(s, e, now);
    case DhtPeerLookupComplete(_, _) => hide TM.Step; RoutingSession(s, e, now);
    case _ => hide TM.Step; SimpleSession(s, e, now, q);
  }

  /** Whether the tunnel machine believes `q` relayed after an event. */
  lemma StepRelayed(s: TM.Tunnel, e: Event, now: Time, q: PeerId)
    ensures q in TM.Step(s, e, now).state.relayed <==>
            if e.TunnelPeerConnected? && e.connectedPeer == q then e.relayed
            else if e.ConnectionLost? && e.lost == q && e.remaining == 0 then false
            else q in s.relayed
  {
    hide TM.Spawns, TM.InitialLookups, TM.BookAfter, TM.RefreshSession, TM.RedialCommand, TM.RerouteFailed,
         TM.StoreCandidates, TM.ClearRetry, TM.SetPhase, TM.ScheduleRetry, TM.Lookups, TM.Queries, Dedup,
         TM.BeginAttempt, TM.QueueForDirect;
  }

  // ----- disconnects and retries -----

  /** How one transition moves the retry counter of `p`: up by the disconnects it orders, or back to
      nothing when the retry state is cleared. */
  predicate CountsDisconnects(before: TM.Retry, o: TM.Outcome, p: PeerId) {
    TM.RetriesOf(o.state.retry, p) == if p in before.attempts && p !in o.state.retry.attempts then 0
                                      else TM.RetriesOf(before, p) + o.commands[DisconnectPeer(p)]
  }

  lemma NoDisconnects(p: PeerId, specs: seq<Spec>, q: PeerId)
    ensures DisconnectPeer(q) !in TM.Spawns(p, specs)
  {
  }

  lemma RetryDisconnects(s: TM.Tunnel, q: PeerId, id: nat, p: PeerId)
    requires ChainAt(s, p)
    ensures CountsDisconnects(s.retry, TM.RetryAttempt(s, q, id), p)
  {
    hide TM.Spawns;
    NoDisconnects(q, Get(s.q.awaiting, q), p);
  }

  lemma LostDisconnects(s: TM.Tunnel, q: PeerId, now: Time, p: PeerId)
    ensures CountsDisconnects(s.retry, TM.AllConnectionsLost(s, q, now), p)
  {
    hide TM.RedialCommand;
  }

  lemma ConnectedDisconnects(s: TM.Tunnel, q: PeerId, relayed: bool, p: PeerId)
    ensures CountsDisconnects(s.retry, TM.PeerConnected(s, q, relayed), p)
  {
    hide TM.Spawns;
    NoDisconnects(q, Get(s.q.pendingByPeer, q) + Get(s.q.awaiting, q), p);
  }

  lemma DialFailedDisconnects(s: TM.Tunnel, q: PeerId, pendingAbort: bool, now: Time, p: PeerId)
    ensures CountsDisconnects(s.retry, TM.DialFailed(s, q, pendingAbort, now), p)
  {
    hide TM.RedialCommand, TM.RerouteAll;
  }

  lemma OthersDisconnect(s: TM.Tunnel, e: Event, now: Time, p: PeerId)
    requires !e.TunnelDialFailed? && !e.HolePunchAttemptFailed? && !e.HolePunchAttemptTimeout?
             && !e.ConnectionLost? && !e.TunnelPeerConnected?
    ensures CountsDisconnects(s.retry, TM.Step(s, e, now), p)
  {
    hide TM.BookAfter, TM.ResolveService, TM.RouteConnected, TM.AllConnectionsLost, TM.DialFailed, TM.RetryAttempt,
         TM.PeerConnected;
    if e.DhtServiceResolved? {
      ResolveDisconnects(s, e.resolved, e.providers, p);
    } else if e.DhtPeerLookupComplete? {
      RouteDisconnects(s, TM.TakePending(s.q, e.target), e.target, Get(s.q.pendingByPeer, e.target), p);
    }
  }

  lemma RouteDisconnects(s: TM.Tunnel, q: TM.Queues, to: PeerId, specs: seq<Spec>, p: PeerId)
    ensures var o := TM.RouteConnected(s, q, to, specs); o.state.retry == s.retry && DisconnectPeer(p) !in o.commands
  {
    hide TM.Spawns;
    NoDisconnects(to, specs, p);
  }

  lemma ResolveDisconnects(s: TM.Tunnel, n: ServiceName, providers: seq<(PeerId, bool)>, p: PeerId)
    ensures var o := TM.ResolveService(s, n, providers); o.state.retry == s.retry && DisconnectPeer(p) !in o.commands
  {
    hide TM.RouteConnected, Dedup;
    if n in s.q.pendingByService && providers != [] {
      var peers := Dedup(TM.PeersOf(providers));
      assert TM.PeersOf(providers)[0] in peers;
      RouteDisconnects(s, s.q.(pendingByService := s.q.pendingByService - {n},
                               candidates := TM.StoreCandidates(s.q.candidates, n, peers[1..])),
                       peers[0], TM.SpecsFor(n, s.q.pendingByService[n]), p);
    }
  }

  lemma StepDisconnects(s: TM.Tunnel, e: Event, now: Time, p: PeerId)
    requires ChainAt(s, p)
    ensures CountsDisconnects(s.retry, TM.Step(s, e, now), p)
  {
    hide TM.RetryAttempt, TM.AllConnectionsLost, TM.DialFailed, TM.PeerConnected, CountsDisconnects;
    match e
    case HolePunchAttemptFailed(q, id) => RetryDisconnects(s, q, id, p);
    case HolePunchAttemptTimeout(q, id) => RetryDisconnects(s, q, id, p);
    case ConnectionLost(q, _) => LostDisconnects(s, q, now, p); StandStill(s, p);
    case TunnelPeerConnected(q, relayed) => ConnectedDisconnects(s, q, relayed, p);
    case TunnelDialFailed(q, pendingAbort) => DialFailedDisconnects(s, q, pendingAbort, now, p);
    case _ => hide TM.Step; OthersDisconnect(s, e, now, p);
  }

  lemma StandStill(s: TM.Tunnel, p: PeerId)
    ensures CountsDisconnects(s.retry, TM.Outcome(s, multiset{}), p)
  {
  }

  // ----- why a tunnel is spawned -----

  /** The only reasons for which a transition spawns a tunnel to `p`. */
  predicate SpawnReason(s: TM.Tunnel, e: Event, p: PeerId) {
    || (e.TunnelPeerConnected? && e.connectedPeer == p && !e.relayed)
    || ((e.HolePunchAttemptFailed? || e.HolePunchAttemptTimeout?)
        && TM.RetriesOf(s.retry, p) >= TM.MAX_RELAY_RECONNECT_RETRIES)
    || ((e.DhtPeerLookupComplete? || e.DhtServiceResolved?) && p !in s.relayed)
  }

  lemma SpawnsGoTo(q: PeerId, specs: seq<Spec>, p: PeerId, x: Spec)
    requires SpawnTunnel(p, x) in TM.Spawns(q, specs)
    ensures p == q
  {
  }

  lemma RouteReason(s: TM.Tunnel, q: TM.Queues, to: PeerId, specs: seq<Spec>, p: PeerId, x: Spec)
    requires SpawnTunnel(p, x) in TM.RouteConnected(s, q, to, specs).commands
    ensures p == to && p !in s.relayed
  {
  }

  lemma ResolveReason(s: TM.Tunnel, n: ServiceName, providers: seq<(PeerId, bool)>, p: PeerId, x: Spec)
    requires SpawnTunnel(p, x) in TM.ResolveService(s, n, providers).commands
    ensures p !in s.relayed
  {
    hide TM.RouteConnected, Dedup;
    var peers := Dedup(TM.PeersOf(providers));
    assert TM.PeersOf(providers)[0] in peers;
    RouteReason(s, s.q.(pendingByService := s.q.pendingByService - {n},
                        candidates := TM.StoreCandidates(s.q.candidates, n, peers[1..])),
                peers[0], TM.SpecsFor(n, s.q.pendingByService[n]), p, x);
  }

  lemma RetryReason(s: TM.Tunnel, q: PeerId, id: nat, p: PeerId, x: Spec)
    requires SpawnTunnel(p, x) in TM.RetryAttempt(s, q, id).commands
    ensures TM.RetriesOf(s.retry, p) >= TM.MAX_RELAY_RECONNECT_RETRIES
  {
    hide TM.Spawns;
    if TM.RetriesOf(s.retry, q) >= TM.MAX_RELAY_RECONNECT_RETRIES { SpawnsGoTo(q, s.q.awaiting[q], p, x); }
  }

  lemma StepSpawnReason(s: TM.Tunnel, e: Event, now: Time, p: PeerId, x: Spec)
    requires SpawnTunnel(p, x) in TM.Step(s, e, now).commands
    ensures SpawnReason(s, e, p)
  {
    hide TM.Spawns, TM.RetryAttempt, TM.ResolveService, TM.RouteConnected, TM.RedialCommand, TM.RerouteFailed;
    match e
    case TunnelPeerConnected(q, relayed) =>
      SpawnsGoTo(q, Get(s.q.pendingByPeer, q) + Get(s.q.awaiting, q), p, x);
    case HolePunchAttemptFailed(q, id) => RetryReason(s, q, id, p, x);
    case HolePunchAttemptTimeout(q, id) => RetryReason(s, q, id, p, x);
    case DhtServiceResolved(n, providers) => ResolveReason(s, n, providers, p, x);
    case DhtPeerLookupComplete(q, _) => RouteReason(s, TM.TakePending(s.q, q), q, s.q.pendingByPeer[q], p, x);
    case _ =>
  }

  // ----- provider queries -----

  /** The service an event answers a provider query for. */
  predicate Concerns(e: Event, n: ServiceName) {
    (e.DhtServiceResolved? && e.resolved == n && e.providers != []) || (e.DhtServiceFailed? && e.failedService == n)
  }

  /** A service that waits after a transition waited before, unless the transition queries it. */
  predicate StillAsked(s: TM.Tunnel, e: Event, o: TM.Outcome, n: ServiceName) {
    n in o.state.q.pendingByService ==>
      DhtGetProviders(n) in o.commands || (n in s.q.pendingByService && !Concerns(e, n))
  }

  lemma {:induction false} RerouteAsks(r: TM.Reroute, specs: seq<Spec>, failed: PeerId, n: ServiceName)
    ensures var r' := TM.RerouteAll(r, specs, failed);
            n in r'.q.pendingByService ==> n in r.q.pendingByService || n in r'.refresh
    ensures r.refresh <= TM.RerouteAll(r, specs, failed).refresh
  {
    hide TM.NextFallback;
    if specs != [] { RerouteAsks(r, specs[..|specs| - 1], failed, n); }
  }

  lemma DialFailedAsks(s: TM.Tunnel, p: PeerId, pendingAbort: bool, now: Time, n: ServiceName)
    ensures var o := TM.DialFailed(s, p, pendingAbort, now);
            n in o.state.q.pendingByService ==> DhtGetProviders(n) in o.commands || n in s.q.pendingByService
  {
    hide TM.RedialCommand, TM.RerouteAll;
    RerouteAsks(TM.Reroute(TM.TakePending(s.q, p), {}, {}), Get(s.q.pendingByPeer, p), p, n);
    QueryMember(TM.RerouteFailed(s.q, p).refresh, n);
  }

  lemma QueryMember(ns: set<ServiceName>, n: ServiceName)
    ensures n in ns ==> DhtGetProviders(n) in TM.Queries(ns)
  {
  }

  lemma ResolveAsks(s: TM.Tunnel, m: ServiceName, providers: seq<(PeerId, bool)>, n: ServiceName)
    ensures var o := TM.ResolveService(s, m, providers);
            n in o.state.q.pendingByService ==>
              DhtGetProviders(n) in o.commands || (n in s.q.pendingByService && !(n == m && providers != []))
  {
    hide Dedup, TM.Spawns, TM.StoreCandidates;
  }

  lemma StepAsks(s: TM.Tunnel, e: Event, now: Time, n: ServiceName)
    ensures StillAsked(s, e, TM.Step(s, e, now), n)
  {
    hide TM.DialFailed, TM.ResolveService, TM.Spawns, TM.Lookups, TM.Queries, TM.BookAfter, TM.RefreshSession,
         TM.RedialCommand, TM.ClearRetry, TM.SetPhase, TM.ScheduleRetry;
    match e
    case TunnelDialFailed(p, pendingAbort) => DialFailedAsks(s, p, pendingAbort, now, n);
    case DhtServiceResolved(m, providers) => ResolveAsks(s, m, providers, n);
    case _ =>
  }
}
