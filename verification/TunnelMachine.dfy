/** The tunnel machine as `src/state/tunnel.rs` has it: one struct of hash maps updated in place.
    Every method is proved against the operation of the same name in `TunnelModel`. Commands are a
    list; where the source emits them while it iterates a hash map, only their multiset is fixed. */
module TunnelMachine {
  import opened Types
  import opened Ordering
  import opened Collections
  import opened TunnelModel
  import TunnelAnswers

  /** Two maps of lists, the lists of common keys appended. */
  function Merge<K, V>(m: map<K, seq<V>>, extra: map<K, seq<V>>): map<K, seq<V>> {
    map k | k in m.Keys + extra.Keys :: Get(m, k) + Get(extra, k)
  }

  lemma MergedAt<K, V>(m: map<K, seq<V>>, extra: map<K, seq<V>>, k: K)
    ensures Get(Merge(m, extra), k) == Get(m, k) + Get(extra, k)
    ensures k in Merge(m, extra) <==> k in m || k in extra
  {
  }

  lemma ExtendAt<K, V>(m: map<K, seq<V>>, k: K, xs: seq<V>)
    ensures forall j :: Get(Extend(m, k, xs), j) == if j == k then Get(m, k) + xs else Get(m, j)
    ensures forall j :: j in Extend(m, k, xs) <==> j in m || j == k
  {
  }

  lemma SameMap<K, V>(a: map<K, seq<V>>, b: map<K, seq<V>>)
    requires forall k :: Get(a, k) == Get(b, k) && (k in a <==> k in b)
    ensures a == b
  {
    forall k | k in a ensures k in b && a[k] == b[k] {
      assert Get(a, k) == Get(b, k);
    }
  }

  lemma MergeExtend<K, V>(m: map<K, seq<V>>, extra: map<K, seq<V>>, k: K, x: V)
    ensures Extend(Merge(m, extra), k, [x]) == Merge(m, Extend(extra, k, [x]))
  {
    hide Merge, Extend, Get;
    MergedAt(m, extra, k);
    ExtendAt(Merge(m, extra), k, [x]);
    ExtendAt(extra, k, [x]);
    assert Get(m, k) + Get(extra, k) + [x] == Get(m, k) + (Get(extra, k) + [x]);
    var a, b := Extend(Merge(m, extra), k, [x]), Merge(m, Extend(extra, k, [x]));
    forall j ensures Get(a, j) == Get(b, j) && (j in a <==> j in b) {
      MergedAt(m, extra, j);
      MergedAt(m, Extend(extra, k, [x]), j);
    }
    SameMap(a, b);
  }

  lemma MergeNothing<K, V>(m: map<K, seq<V>>)
    ensures Merge(m, map[]) == m
  {
    forall k | k in m ensures Get(m, k) + [] == m[k] {}
  }

  lemma MergeMore<K, V>(m: map<K, seq<V>>, extra: map<K, seq<V>>, some: set<K>, k: K)
    requires k in extra && k !in some
    ensures Extend(Merge(m, Only(extra, some)), k, extra[k]) == Merge(m, Only(extra, some + {k}))
  {
    var a, b := Extend(Merge(m, Only(extra, some)), k, extra[k]), Merge(m, Only(extra, some + {k}));
    assert a.Keys == b.Keys;
    assert Get(m, k) + [] == Get(m, k);
  }

  function Only<K, V>(m: map<K, V>, some: set<K>): map<K, V> { map k | k in m && k in some :: m[k] }

  class TunnelState {
    var pendingByPeer: map<PeerId, seq<Spec>>
    var pendingByService: map<ServiceName, seq<ServiceAddr>>
    var serviceProviderCandidates: map<ServiceName, seq<PeerId>>
    var awaitingHolepunch: map<PeerId, seq<Spec>>
    var relayedPeers: set<PeerId>
    var holepunchRetryAttempts: map<PeerId, nat>
    var pendingRetryRedial: set<PeerId>
    var holepunchSessions: map<PeerId, Session>
    var addressOracle: map<PeerId, Oracle>
    var addressLastSeen: map<PeerId, map<Multiaddr, Time>>

    function TheQueues(): Queues
      reads this
    {
      Queues(pendingByPeer, pendingByService, serviceProviderCandidates, awaitingHolepunch)
    }

    function TheRetry(): Retry reads this { Retry(holepunchRetryAttempts, pendingRetryRedial, holepunchSessions) }

    function TheBook(): Book reads this { Book(addressOracle, addressLastSeen) }

    function View(): Tunnel reads this { Tunnel(TheQueues(), relayedPeers, TheRetry(), TheBook()) }

    constructor ()
      ensures View() == EMPTY
    {
      pendingByPeer, pendingByService, serviceProviderCandidates, awaitingHolepunch := map[], map[], map[], map[];
      relayedPeers, pendingRetryRedial := {}, {};
      holepunchRetryAttempts, holepunchSessions, addressOracle, addressLastSeen := map[], map[], map[], map[];
    }

    // ----- configuration and queries -----

    method AddPeerTunnel(peer: PeerId, spec: Spec)
      modifies this`pendingByPeer
      ensures TheQueues() == TunnelModel.AddPeerTunnel(old(TheQueues()), peer, spec)
    {
      pendingByPeer := Extend(pendingByPeer, peer, [spec]);
    }

    method AddServiceTunnel(service: ServiceName, bind: ServiceAddr)
      modifies this`pendingByService
      ensures TheQueues() == TunnelModel.AddServiceTunnel(old(TheQueues()), service, bind)
    {
      pendingByService := Extend(pendingByService, service, [bind]);
    }

    /** The peers some tunnel waits for, each once, in the order of their printed form. */
    method HolepunchTargetPeers() returns (peers: seq<PeerId>)
      ensures forall p :: p in peers <==> p in pendingByPeer || p in awaitingHolepunch
      ensures forall i, j | 0 <= i < j < |peers| :: peers[i] < peers[j]
    {
      peers := SortSet(pendingByPeer.Keys + awaitingHolepunch.Keys, (a: PeerId, b: PeerId) => a < b);
    }

    // ----- provider fallback -----

    method StoreProviderCandidates(service: ServiceName, providers: seq<PeerId>)
      modifies this`serviceProviderCandidates
      ensures serviceProviderCandidates == StoreCandidates(old(serviceProviderCandidates), service, providers)
    {
      var deduped := DedupLoop(providers);
      if deduped == [] {
        serviceProviderCandidates := serviceProviderCandidates - {service};
      } else {
        serviceProviderCandidates := serviceProviderCandidates[service := deduped];
      }
    }

    method NextFallbackProvider(service: ServiceName, exclude: PeerId) returns (next: Option<PeerId>)
      modifies this`serviceProviderCandidates
      ensures (serviceProviderCandidates, next) == NextFallback(old(serviceProviderCandidates), service, exclude)
    {
      if service !in serviceProviderCandidates {
        assert serviceProviderCandidates - {service} == serviceProviderCandidates;
        return None;
      }
      var providers := serviceProviderCandidates[service];
      ghost var listed := providers;
      while providers != []
        invariant SkipPeer(providers, exclude) == SkipPeer(listed, exclude)
      {
        var candidate := providers[0];
        ghost var was := providers;
        providers := providers[1..];
        if candidate != exclude {
          assert SkipPeer(was, exclude) == was;
          serviceProviderCandidates := if providers == [] then serviceProviderCandidates - {service}
                                       else serviceProviderCandidates[service := providers];
          return Some(candidate);
        }
      }
      serviceProviderCandidates := serviceProviderCandidates - {service};
      next := None;
    }

    method RerouteSpecsAfterDialFailure(peer: PeerId) returns (commands: seq<Command>)
      modifies this`pendingByPeer, this`pendingByService, this`serviceProviderCandidates
      ensures var r := RerouteFailed(old(TheQueues()), peer);
              TheQueues() == r.q && multiset(commands) == Lookups(r.lookups) + Queries(r.refresh)
    {
      commands := [];
      if peer !in pendingByPeer {
        assert pendingByPeer - {peer} == pendingByPeer;
        return;
      }
      var specs := pendingByPeer[peer];
      pendingByPeer := pendingByPeer - {peer};
      var reassign, refresh := CollectReroutes(specs, peer);
      ghost var r := RerouteFailed(old(TheQueues()), peer);
      var lookups := MergeReassigned(reassign);
      var queries := QueriesFor(refresh);
      commands := lookups + queries;
    }

    /** The first loop of the reroute: a fallback for every spec, or back to a provider query. */
    method CollectReroutes(specs: seq<Spec>, failed: PeerId)
      returns (reassign: map<PeerId, seq<Spec>>, refresh: set<ServiceName>)
      modifies this`pendingByService, this`serviceProviderCandidates
      ensures var r := RerouteAll(Reroute(old(TheQueues()), {}, {}), specs, failed);
              && TheQueues() == r.q.(pendingByPeer := pendingByPeer)
              && Merge(pendingByPeer, reassign) == r.q.pendingByPeer
              && reassign.Keys == r.lookups && refresh == r.refresh
    {
      hide Merge, NextFallback;
      reassign, refresh := map[], {};
      ghost var start := Reroute(TheQueues(), {}, {});
      MergeNothing(pendingByPeer);
      for i := 0 to |specs|
        invariant var r := RerouteAll(start, specs[..i], failed);
                  && TheQueues() == r.q.(pendingByPeer := pendingByPeer)
                  && Merge(pendingByPeer, reassign) == r.q.pendingByPeer
                  && reassign.Keys == r.lookups && refresh == r.refresh
      {
        var spec := specs[i];
        assert specs[..i + 1][..i] == specs[..i];
        var next := NextFallbackProvider(spec.service, failed);
        if next.Some? {
          MergeExtend(pendingByPeer, reassign, next.value, spec);
          reassign := Extend(reassign, next.value, [spec]);
        } else {
          pendingByService := Extend(pendingByService, spec.service, [spec.bind]);
          refresh := refresh + {spec.service};
        }
      }
      assert specs[..|specs|] == specs;
    }

    /** The second loop of the reroute: one lookup per reassigned peer. */
    method MergeReassigned(reassign: map<PeerId, seq<Spec>>) returns (commands: seq<Command>)
      modifies this`pendingByPeer
      ensures pendingByPeer == Merge(old(pendingByPeer), reassign)
      ensures multiset(commands) == Lookups(reassign.Keys)
    {
      hide Merge, Extend, Lookups;
      ghost var was := pendingByPeer;
      commands := [];
      var unvisited := reassign.Keys;
      MergeNothing(was);
      NoLookups();
      assert reassign.Keys - unvisited == {};
      while unvisited != {}
        invariant unvisited <= reassign.Keys
        invariant pendingByPeer == Merge(was, Only(reassign, reassign.Keys - unvisited))
        invariant multiset(commands) == Lookups(reassign.Keys - unvisited)
        decreases |unvisited|
      {
        var p :| p in unvisited;
        var visited := reassign.Keys - unvisited;
        MergeMore(was, reassign, visited, p);
        unvisited := unvisited - {p};
        assert reassign.Keys - unvisited == visited + {p};
        pendingByPeer := Extend(pendingByPeer, p, reassign[p]);
        commands := commands + [DhtLookupPeer(p)];
        LookupsGrow(visited, p);
      }
      assert reassign.Keys - {} == reassign.Keys;
      assert Only(reassign, reassign.Keys) == reassign;
    }

    static method QueriesFor(services: set<ServiceName>) returns (commands: seq<Command>)
      ensures multiset(commands) == Queries(services)
    {
      commands := [];
      var unvisited := services;
      while unvisited != {}
        invariant unvisited <= services
        invariant multiset(commands) == Queries(services - unvisited)
        decreases |unvisited|
      {
        var n :| n in unvisited;
        QueriesGrow(services - unvisited, n);
        unvisited := unvisited - {n};
        assert services - unvisited == (services - (unvisited + {n})) + {n};
        commands := commands + [DhtGetProviders(n)];
      }
    }

    static method LookupsFor(peers: set<PeerId>) returns (commands: seq<Command>)
      ensures multiset(commands) == Lookups(peers)
    {
      commands := [];
      var unvisited := peers;
      while unvisited != {}
        invariant unvisited <= peers
        invariant multiset(commands) == Lookups(peers - unvisited)
        decreases |unvisited|
      {
        var p :| p in unvisited;
        LookupsGrow(peers - unvisited, p);
        unvisited := unvisited - {p};
        assert peers - unvisited == (peers - (unvisited + {p})) + {p};
        commands := commands + [DhtLookupPeer(p)];
      }
    }

    method InitiateLookups() returns (commands: seq<Command>)
      ensures multiset(commands) == InitialLookups(TheQueues())
    {
      var lookups := LookupsFor(pendingByPeer.Keys);
      var queries := QueriesFor(pendingByService.Keys);
      commands := lookups + queries;
    }

    // ----- routing -----

    static method SpawnAll(peer: PeerId, specs: seq<Spec>) returns (commands: seq<Command>)
      ensures commands == SpawnSeq(peer, specs)
    {
      commands := [];
      for i := 0 to |specs|
        invariant commands == SpawnSeq(peer, specs[..i])
      {
        commands := commands + [SpawnTunnel(peer, specs[i])];
      }
    }

    method RouteConnectedPeer(peer: PeerId, specs: seq<Spec>) returns (commands: seq<Command>)
      modifies this`awaitingHolepunch
      ensures commands == if peer in relayedPeers then [] else SpawnSeq(peer, specs)
      ensures TheQueues() == if peer in relayedPeers then TunnelModel.QueueForDirect(old(TheQueues()), peer, specs)
                             else old(TheQueues())
    {
      if peer in relayedPeers {
        QueueForDirect(peer, specs);
        commands := [];
      } else {
        commands := SpawnAll(peer, specs);
      }
    }

    method QueueForDirect(peer: PeerId, specs: seq<Spec>)
      modifies this`awaitingHolepunch
      ensures TheQueues() == TunnelModel.QueueForDirect(old(TheQueues()), peer, specs)
    {
      awaitingHolepunch := Extend(awaitingHolepunch, peer, specs);
    }

    method ResolveService(service: ServiceName, providers: seq<(PeerId, bool)>) returns (commands: seq<Command>)
      modifies this`pendingByPeer, this`pendingByService, this`serviceProviderCandidates, this`awaitingHolepunch
      ensures Outcome(View(), multiset(commands)) == TunnelModel.ResolveService(old(View()), service, providers)
    {
      hide Dedup, SpawnSeq, Extend, StoreCandidates, SpecsFor;
      commands := [];
      if service !in pendingByService {
        return;
      }
      var binds := pendingByService[service];
      ghost var was := pendingByService;
      pendingByService := pendingByService - {service};
      if providers == [] {
        pendingByService := pendingByService[service := binds];
        assert pendingByService == was;
        return [DhtGetProviders(service)];
      }
      var deduped := DedupProviderCandidates(providers);
      var (provider, connected) := deduped[0];
      StoreProviderCandidates(service, PeersOf(deduped[1..]));
      assert PeersOf(deduped[1..]) == PeersOf(deduped)[1..];
      assert PeersOf(deduped)[0] == provider;
      var specs := SpecsFor(service, binds);
      if connected {
        commands := RouteConnectedPeer(provider, specs);
      } else {
        pendingByPeer := Extend(pendingByPeer, provider, specs);
        commands := [DhtLookupPeer(provider)];
      }
    }

    static method DedupProviderCandidates(providers: seq<(PeerId, bool)>) returns (deduped: seq<(PeerId, bool)>)
      ensures PeersOf(deduped) == Dedup(PeersOf(providers))
      ensures providers != [] ==> deduped != [] && deduped[0] == providers[0]
      ensures forall x | x in deduped :: FirstOfPeer(providers, x)
    {
      hide PeersOf, Dedup, FirstOfPeer;
      var seen: set<PeerId> := {};
      deduped := [];
      NoProviders();
      assert providers[..0] == [];
      for i := 0 to |providers|
        invariant PeersOf(deduped) == Dedup(PeersOf(providers[..i]))
        invariant forall p :: p in seen <==> p in PeersOf(deduped)
        invariant if i == 0 then seen == {} && deduped == [] else deduped != [] && deduped[0] == providers[0]
        invariant forall x | x in deduped :: FirstOfPeer(providers[..i], x)
      {
        KeepsFirst(providers, i, deduped);
        DedupMore(providers, i, deduped);
        if providers[i].0 !in seen {
          seen := seen + {providers[i].0};
          deduped := deduped + [providers[i]];
        }
      }
      assert providers[..|providers|] == providers;
    }

    // ----- addresses -----

    method RecordAddressCandidates(peer: PeerId, listen: seq<Multiaddr>, now: Time)
      modifies this`addressLastSeen
      ensures TheBook() == Recorded(old(TheBook()), peer, listen, now)
    {
      var lastSeen := if peer in addressLastSeen then addressLastSeen[peer] else map[];
      lastSeen := InsertEligible(lastSeen, listen, now);
      lastSeen := RetainFresh(lastSeen, now);
      addressLastSeen := if lastSeen == map[] then addressLastSeen - {peer} else addressLastSeen[peer := lastSeen];
    }

    static method InsertEligible(seen: map<Multiaddr, Time>, listen: seq<Multiaddr>, now: Time)
      returns (lastSeen: map<Multiaddr, Time>)
      ensures lastSeen == SeenAfter(seen, listen, now)
    {
      hide Eligible;
      lastSeen := seen;
      for i := 0 to |listen|
        invariant lastSeen == SeenAfter(seen, listen[..i], now)
      {
        assert listen[..i + 1] == listen[..i] + [listen[i]];
        if Eligible(listen[i]) {
          lastSeen := lastSeen[listen[i] := now];
        }
      }
      assert listen[..|listen|] == listen;
    }

    static method RetainFresh(lastSeen: map<Multiaddr, Time>, now: Time) returns (kept: map<Multiaddr, Time>)
      ensures kept == map a | a in lastSeen && Fresh(lastSeen[a], now) :: lastSeen[a]
    {
      kept := lastSeen;
      var unvisited := lastSeen.Keys;
      while unvisited != {}
        invariant unvisited <= lastSeen.Keys
        invariant kept == map a | a in lastSeen && (a in unvisited || Fresh(lastSeen[a], now)) :: lastSeen[a]
        decreases |unvisited|
      {
        var a :| a in unvisited;
        unvisited := unvisited - {a};
        if !Fresh(lastSeen[a], now) {
          kept := kept - {a};
        }
      }
    }

    method FreshCandidates(peer: PeerId, now: Time, cls: AddrClass) returns (addrs: seq<Multiaddr>)
      ensures addrs == TunnelModel.FreshCandidates(Seen(TheBook(), peer), now, cls)
    {
      if peer !in addressLastSeen {
        assert FreshSet(map[], now, cls) == {};
        return [];
      }
      var lastSeen := addressLastSeen[peer];
      MoreRecentIsTotal(lastSeen);
      var ranked := SortSet(FreshSet(lastSeen, now, cls), MoreRecent(lastSeen));
      addrs := Truncate(ranked, Limit(cls));
    }

    method PrioritizedRedialAddrs(peer: PeerId, session: Session, now: Time) returns (addrs: seq<Multiaddr>)
      ensures addrs == PrioritizedRedial(TheBook(), peer, session, now)
    {
      var oracle := if peer in addressOracle then addressOracle[peer] else Oracle([], []);
      var freshDirect := FreshCandidates(peer, now, Direct);
      var freshRelay := FreshCandidates(peer, now, Relay);
      addrs := session.directSnapshot + oracle.direct + freshDirect + session.relayRedial + oracle.relay + freshRelay;
      addrs := DedupLoop(addrs);
      addrs := Truncate(addrs, MAX_REDIAL_ADDRESSES);
    }

    method UpdateAddressOracle(peer: PeerId, listen: seq<Multiaddr>, now: Time)
      modifies this`addressLastSeen, this`addressOracle, this`holepunchSessions
      ensures View() == Identified(old(View()), peer, listen, now)
    {
      hide Recorded, TunnelModel.FreshCandidates, Refreshed;
      RecordAddressCandidates(peer, listen, now);
      var relayAddrs := FreshCandidates(peer, now, Relay);
      var directAddrs := FreshCandidates(peer, now, Direct);
      if peer in holepunchSessions {
        var session := holepunchSessions[peer];
        RefreshSnapshots(peer, session, relayAddrs, directAddrs);
      }
      addressOracle := addressOracle[peer := Oracle(relayAddrs, directAddrs)];
    }

    method RefreshSnapshots(peer: PeerId, session: Session, relayAddrs: seq<Multiaddr>, directAddrs: seq<Multiaddr>)
      modifies this`holepunchSessions
      ensures holepunchSessions == old(holepunchSessions)[peer := Refreshed(session, Oracle(relayAddrs, directAddrs))]
    {
      var updated := session;
      var backfilledRelay := session.relayRedial == [] && relayAddrs != [];
      var backfilledDirect := session.directSnapshot == [] && directAddrs != [];
      var refreshedRelay := session.relayRedial != [] && relayAddrs != [] && session.relayRedial != relayAddrs;
      var refreshedDirect := session.directSnapshot != [] && directAddrs != [] && session.directSnapshot != directAddrs;
      if backfilledRelay || refreshedRelay {
        updated := updated.(relayRedial := relayAddrs);
      }
      if backfilledDirect || refreshedDirect {
        updated := updated.(directSnapshot := directAddrs);
      }
      if backfilledRelay || backfilledDirect || refreshedRelay || refreshedDirect {
        updated := updated.(retryDispatched := false);
      }
      holepunchSessions := holepunchSessions[peer := updated];
    }

    // ----- hole-punch attempts -----

    method BeginHolepunchAttempt(peer: PeerId, attemptId: nat)
      modifies this`holepunchSessions
      ensures TheRetry() == BeginAttempt(old(TheRetry()), peer, attemptId, OracleOf(TheBook(), peer))
    {
      var oracle := if peer in addressOracle then addressOracle[peer] else Oracle([], []);
      holepunchSessions := holepunchSessions[peer := Session(attemptId, Punching, oracle.relay, oracle.direct, false)];
    }

    method ClearRetryState(peer: PeerId)
      modifies this`holepunchRetryAttempts, this`pendingRetryRedial, this`holepunchSessions
      ensures TheRetry() == ClearRetry(old(TheRetry()), peer)
    {
      holepunchRetryAttempts := holepunchRetryAttempts - {peer};
      pendingRetryRedial := pendingRetryRedial - {peer};
      holepunchSessions := holepunchSessions - {peer};
    }

    method ScheduleHolepunchRetry(peer: PeerId) returns (attempts: nat)
      modifies this`holepunchRetryAttempts, this`pendingRetryRedial
      ensures TheRetry() == ScheduleRetry(old(TheRetry()), peer)
      ensures attempts == SaturatingSucc(RetriesOf(old(TheRetry()), peer), U32_MAX)
    {
      attempts := if peer in holepunchRetryAttempts then holepunchRetryAttempts[peer] else 0;
      attempts := SaturatingSucc(attempts, U32_MAX);
      holepunchRetryAttempts := holepunchRetryAttempts[peer := attempts];
      pendingRetryRedial := pendingRetryRedial + {peer};
    }

    method SetSessionPhase(peer: PeerId, phase: PunchPhase)
      modifies this`holepunchSessions
      ensures TheRetry() == SetPhase(old(TheRetry()), peer, phase)
    {
      if peer in holepunchSessions {
        holepunchSessions := holepunchSessions[peer := holepunchSessions[peer].(phase := phase)];
      }
    }

    method RetryHolepunchAttempt(peer: PeerId, attemptId: nat) returns (commands: seq<Command>)
      modifies this`awaitingHolepunch, this`holepunchRetryAttempts, this`pendingRetryRedial, this`holepunchSessions
      ensures Outcome(View(), multiset(commands)) == RetryAttempt(old(View()), peer, attemptId)
    {
      commands := [];
      if peer !in holepunchSessions { return; }
      var session := holepunchSessions[peer];
      if session.attemptId != attemptId { return; }
      if !session.phase.Punching? { return; }
      if peer !in awaitingHolepunch { return; }
      var retriesSoFar := if peer in holepunchRetryAttempts then holepunchRetryAttempts[peer] else 0;
      if retriesSoFar >= MAX_RELAY_RECONNECT_RETRIES {
        commands := SpawnAll(peer, awaitingHolepunch[peer]);
        awaitingHolepunch := awaitingHolepunch - {peer};
        ClearRetryState(peer);
        return;
      }
      var _ := ScheduleHolepunchRetry(peer);
      SetSessionPhase(peer, WaitingDisconnect);
      commands := [DisconnectPeer(peer)];
    }

    method Redial(peer: PeerId, session: Session, now: Time) returns (command: Command)
      ensures command == RedialCommand(TheBook(), peer, session, now)
    {
      var addrs := PrioritizedRedialAddrs(peer, session, now);
      command := if addrs == [] then DialPeer(peer) else DialPeerWithAddrs(peer, addrs, session.attemptId);
    }

    // ----- one transition -----

    method OnDialFailed(peer: PeerId, pendingAbort: bool, now: Time) returns (commands: seq<Command>)
      modifies this
      ensures Outcome(View(), multiset(commands)) == DialFailed(old(View()), peer, pendingAbort, now)
    {
      hide RerouteFailed, RedialCommand, Lookups, Queries;
      commands := [];
      var awaitingDirect := peer in awaitingHolepunch;
      var pendingTunnel := peer in pendingByPeer;
      if !awaitingDirect && !pendingTunnel { return; }
      if awaitingDirect && pendingAbort { return; }
      if awaitingDirect && peer in holepunchSessions {
        var session := holepunchSessions[peer];
        if session.phase.WaitingDisconnect? { return; }
        if session.retryDispatched { return; }
        holepunchSessions := holepunchSessions[peer := session.(retryDispatched := true)];
        var command := Redial(peer, session, now);
        commands := [command];
      } else if pendingTunnel {
        commands := RerouteSpecsAfterDialFailure(peer);
      }
    }

    method OnPeerConnected(peer: PeerId, relayed: bool) returns (commands: seq<Command>)
      modifies this
      ensures Outcome(View(), multiset(commands)) == PeerConnected(old(View()), peer, relayed)
    {
      hide SpawnSeq, Extend;
      commands := [];
      var pending := Get(pendingByPeer, peer);
      if relayed {
        relayedPeers := relayedPeers + {peer};
        if peer in pendingByPeer {
          pendingByPeer := pendingByPeer - {peer};
          QueueForDirect(peer, pending);
        }
      } else {
        relayedPeers := relayedPeers - {peer};
        ClearRetryState(peer);
        var waiting := Get(awaitingHolepunch, peer);
        pendingByPeer := pendingByPeer - {peer};
        awaitingHolepunch := awaitingHolepunch - {peer};
        commands := SpawnAll(peer, pending + waiting);
      }
    }

    /** The redial of a retry, from the session as it was before its phase moves on. */
    method RedialForRetry(peer: PeerId, now: Time) returns (command: Command)
      modifies this`pendingRetryRedial, this`holepunchSessions
      ensures TheRetry() == (var r := old(TheRetry());
              SetPhase(r.(pendingRedial := r.pendingRedial - {peer}), peer, WaitingRedial))
      ensures command == var r := old(TheRetry());
                         if peer in r.sessions then RedialCommand(TheBook(), peer, r.sessions[peer], now)
                             else DialPeer(peer)
    {
      hide RedialCommand, SetPhase;
      pendingRetryRedial := pendingRetryRedial - {peer};
      command := DialPeer(peer);
      if peer in holepunchSessions {
        command := Redial(peer, holepunchSessions[peer], now);
      }
      SetSessionPhase(peer, WaitingRedial);
    }

    method OnAllConnectionsLost(peer: PeerId, now: Time) returns (commands: seq<Command>)
      modifies this
      ensures Outcome(View(), multiset(commands)) == AllConnectionsLost(old(View()), peer, now)
    {
      hide RedialCommand, Extend, SetPhase, ClearRetry;
      commands := [];
      relayedPeers := relayedPeers - {peer};
      if peer in pendingRetryRedial {
        var command := RedialForRetry(peer, now);
        commands := [command];
      } else if peer in awaitingHolepunch {
        var waiting := awaitingHolepunch[peer];
        awaitingHolepunch := awaitingHolepunch - {peer};
        ClearRetryState(peer);
        pendingByPeer := Extend(pendingByPeer, peer, waiting);
        commands := [DialPeer(peer)];
      } else {
        ClearRetryState(peer);
      }
    }

    method OnLookupComplete(peer: PeerId, connected: bool, ghost now: Time) returns (commands: seq<Command>)
      modifies this`pendingByPeer, this`awaitingHolepunch
      ensures Outcome(View(), multiset(commands)) == Step(old(View()), DhtPeerLookupComplete(peer, connected), now)
    {
      commands := [];
      if peer in pendingByPeer {
        if connected {
          var specs := pendingByPeer[peer];
          pendingByPeer := pendingByPeer - {peer};
          commands := RouteConnectedPeer(peer, specs);
        } else {
          commands := [DialPeer(peer)];
        }
      }
    }

    method OnPhaseChanged(before: Phase, phase: Phase, ghost now: Time) returns (commands: seq<Command>)
      ensures Outcome(View(), multiset(commands)) == Step(View(), PhaseChanged(before, phase), now)
      ensures phase.Ready? ==> commands != [] && commands[0] == PublishServices
    {
      hide InitialLookups;
      commands := [];
      if phase.Ready? {
        var lookups := InitiateLookups();
        commands := [PublishServices] + lookups;
      }
    }

    method OnServiceFailed(service: ServiceName, ghost now: Time) returns (commands: seq<Command>)
      ensures Outcome(View(), multiset(commands)) == Step(View(), DhtServiceFailed(service), now)
    {
      commands := if service in pendingByService then [DhtGetProviders(service)] else [];
    }

    method OnAttempt(event: Event, ghost now: Time) returns (commands: seq<Command>)
      requires event.HolePunchAttemptStarted? || event.HolePunchAttemptFailed? || event.HolePunchAttemptTimeout?
      modifies this`awaitingHolepunch, this`holepunchRetryAttempts, this`pendingRetryRedial, this`holepunchSessions
      ensures Outcome(View(), multiset(commands)) == Step(old(View()), event, now)
    {
      hide RetryAttempt, BeginAttempt, OracleOf;
      commands := [];
      match event {
        case HolePunchAttemptStarted(peer, attemptId) => BeginHolepunchAttempt(peer, attemptId);
        case HolePunchAttemptFailed(peer, attemptId) => commands := RetryHolepunchAttempt(peer, attemptId);
        case HolePunchAttemptTimeout(peer, attemptId) => commands := RetryHolepunchAttempt(peer, attemptId);
      }
    }

    method OnConnections(event: Event, now: Time) returns (commands: seq<Command>)
      requires event.TunnelDialFailed? || event.TunnelPeerConnected? || (event.ConnectionLost? && event.remaining == 0)
      modifies this
      ensures Outcome(View(), multiset(commands)) == Step(old(View()), event, now)
    {
      hide DialFailed, PeerConnected, AllConnectionsLost;
      match event {
        case TunnelDialFailed(peer, pendingAbort) => commands := OnDialFailed(peer, pendingAbort, now);
        case TunnelPeerConnected(peer, relayed) => commands := OnPeerConnected(peer, relayed);
        case ConnectionLost(peer, remaining) => commands := OnAllConnectionsLost(peer, now);
      }
    }

    method OnDiscovery(event: Event, now: Time) returns (commands: seq<Command>)
      requires event.DhtPeerLookupComplete? || event.DhtServiceResolved? || event.PeerIdentified?
      modifies this
      ensures Outcome(View(), multiset(commands)) == Step(old(View()), event, now)
    {
      hide TunnelModel.ResolveService, Identified, RouteConnected;
      commands := [];
      match event {
        case DhtPeerLookupComplete(peer, connected) => commands := OnLookupComplete(peer, connected, now);
        case DhtServiceResolved(service, providers) => commands := ResolveService(service, providers);
        case PeerIdentified(peer, listen) => UpdateAddressOracle(peer, listen, now);
      }
    }

    /** `MealyMachine::transition` */
    method Transition(event: Event, now: Time) returns (commands: seq<Command>)
      modifies this
      ensures Outcome(View(), multiset(commands)) == Step(old(View()), event, now)
    {
      TunnelAnswers.SilentEvents(View(), event, now);
      hide Step;
      commands := [];
      match event {
        case PhaseChanged(before, phase) => commands := OnPhaseChanged(before, phase, now);
        case RelayReservationAccepted(_) => commands := [PublishServices];
        case DhtPeerLookupComplete(_, _) => commands := OnDiscovery(event, now);
        case DhtServiceResolved(_, _) => commands := OnDiscovery(event, now);
        case DhtServiceFailed(service) => commands := OnServiceFailed(service, now);
        case TunnelDialFailed(_, _) => commands := OnConnections(event, now);
        case PeerIdentified(_, _) => commands := OnDiscovery(event, now);
        case TunnelPeerConnected(_, _) => commands := OnConnections(event, now);
        case HolePunchAttemptStarted(_, _) => commands := OnAttempt(event, now);
        case HolePunchAttemptFailed(_, _) => commands := OnAttempt(event, now);
        case HolePunchAttemptTimeout(_, _) => commands := OnAttempt(event, now);
        case ConnectionLost(peer, remaining) =>
          if remaining == 0 {
            commands := OnConnections(event, now);
          } else {
            TunnelAnswers.LossWithRemaining(View(), peer, remaining, now);
          }
        case _ =>
      }
    }
  }

  /** `x` is the first entry of its peer in the list. */
  predicate FirstOfPeer(providers: seq<(PeerId, bool)>, x: (PeerId, bool)) {
    exists j :: 0 <= j < |providers| && providers[j] == x && forall k | 0 <= k < j :: providers[k].0 != x.0
  }

  lemma NoProviders()
    ensures PeersOf([]) == [] && Dedup(PeersOf([])) == []
  {
  }

  lemma DedupMore(providers: seq<(PeerId, bool)>, i: nat, deduped: seq<(PeerId, bool)>)
    requires i < |providers| && PeersOf(deduped) == Dedup(PeersOf(providers[..i]))
    ensures var more := deduped + [providers[i]];
            && Dedup(PeersOf(providers[..i + 1]))
               == PeersOf(if providers[i].0 in PeersOf(deduped) then deduped else more)
            && forall p :: p in PeersOf(more) <==> p in PeersOf(deduped) || p == providers[i].0
  {
    hide Dedup;
    DedupStep(PeersOf(providers[..i]), providers[i].0);
    assert PeersOf(providers[..i + 1]) == PeersOf(providers[..i]) + [providers[i].0];
    assert PeersOf(deduped + [providers[i]]) == PeersOf(deduped) + [providers[i].0];
  }

  lemma KeepsFirst(providers: seq<(PeerId, bool)>, i: nat, deduped: seq<(PeerId, bool)>)
    requires i < |providers| && forall x | x in deduped :: FirstOfPeer(providers[..i], x)
    requires PeersOf(deduped) == Dedup(PeersOf(providers[..i]))
    ensures forall x | x in deduped :: FirstOfPeer(providers[..i + 1], x)
    ensures providers[i].0 !in PeersOf(deduped) ==> FirstOfPeer(providers[..i + 1], providers[i])
  {
    forall x | x in deduped ensures FirstOfPeer(providers[..i + 1], x) {
      var j :| 0 <= j < i && providers[..i][j] == x && forall k | 0 <= k < j :: providers[..i][k].0 != x.0;
      assert providers[..i + 1][j] == x && forall k | 0 <= k < j :: providers[..i + 1][k] == providers[..i][k];
    }
    if providers[i].0 !in PeersOf(deduped) {
      var peers, all := PeersOf(providers[..i]), providers[..i + 1];
      forall k | 0 <= k < i ensures peers[k] in PeersOf(deduped) { assert peers[k] in peers; }
      assert forall k | 0 <= k < i :: all[k].0 == peers[k];
      assert all[i] == providers[i] && forall k | 0 <= k < i :: all[k].0 != providers[i].0;
    }
  }

  lemma NoLookups()
    ensures Lookups({}) == multiset{}
  {
  }

  lemma LookupsGrow(ps: set<PeerId>, p: PeerId)
    requires p !in ps
    ensures Lookups(ps + {p}) == Lookups(ps) + multiset{DhtLookupPeer(p)}
  {
    assert (set q | q in ps + {p} :: DhtLookupPeer(q)) == (set q | q in ps :: DhtLookupPeer(q)) + {DhtLookupPeer(p)};
  }

  lemma QueriesGrow(ns: set<ServiceName>, n: ServiceName)
    requires n !in ns
    ensures Queries(ns + {n}) == Queries(ns) + multiset{DhtGetProviders(n)}
  {
    assert (set k | k in ns + {n} :: DhtGetProviders(k))
        == (set k | k in ns :: DhtGetProviders(k)) + {DhtGetProviders(n)};
  }
}
