/** What the tunnel machine answers to each event, seen at one peer: what it then holds about that peer,
    which commands it gives, and that it leaves every other peer alone. */
module TunnelAnswers {
  import opened Types
  import opened Collections
  import opened TunnelModel
  import opened TunnelRedials

  function At<K, V>(m: map<K, V>, k: K): Option<V> { if k in m then Some(m[k]) else None }

  function List<T>(o: Option<seq<T>>): seq<T> { if o.Some? then o.value else [] }

  /** Everything the machine holds about one peer. */
  datatype View = View(
    pending: Option<seq<Spec>>,
    awaiting: Option<seq<Spec>>,
    relayed: bool,
    retries: Option<nat>,
    redial: bool,
    session: Option<Session>,
    oracle: Option<Oracle>,
    seen: Option<map<Multiaddr, Time>>)

  function Of(s: Tunnel, p: PeerId): View {
    View(At(s.q.pendingByPeer, p), At(s.q.awaiting, p), p in s.relayed, At(s.retry.attempts, p),
        p in s.retry.pendingRedial,
         At(s.retry.sessions, p), At(s.book.oracles, p), At(s.book.lastSeen, p))
  }

  /** Nothing but what is held about `p` differs. */
  ghost predicate OnlyAt(s: Tunnel, t: Tunnel, p: PeerId) {
    (forall q | q != p :: Of(t, q) == Of(s, q))
    && t.q.pendingByService == s.q.pendingByService && t.q.candidates == s.q.candidates
  }

  /** The commands spawn exactly the tunnels `specs` to `p` and do nothing else. */
  ghost predicate SpawnsExactly(cs: multiset<Command>, p: PeerId, specs: seq<Spec>) {
    (forall c | c in cs :: c.SpawnTunnel? && c.to == p) && forall x :: cs[SpawnTunnel(p, x)] == multiset(specs)[x]
  }

  lemma {:induction false} SpawnsAreExact(p: PeerId, specs: seq<Spec>)
    ensures SpawnsExactly(Spawns(p, specs), p, specs)
  {
    if specs == [] {
      assert SpawnSeq(p, specs) == [];
    } else {
      var n := |specs| - 1;
      SpawnsAreExact(p, specs[..n]);
      assert specs == specs[..n] + [specs[n]];
      assert SpawnSeq(p, specs) == SpawnSeq(p, specs[..n]) + [SpawnTunnel(p, specs[n])];
    }
  }

  // ----- configuration -----

  /** The tunnels configured for peer `p`, in order. */
  function ForPeer(ts: seq<(PeerId, Spec)>, p: PeerId): seq<Spec> {
    if ts == [] then [] else
      var n := |ts| - 1;
      ForPeer(ts[..n], p) + if ts[n].0 == p then [ts[n].1] else []
  }

  /** The addresses configured for service `name`, in order. */
  function ForService(ts: seq<(ServiceName, ServiceAddr)>, name: ServiceName): seq<ServiceAddr> {
    if ts == [] then [] else
      var n := |ts| - 1;
      ForService(ts[..n], name) + if ts[n].0 == name then [ts[n].1] else []
  }

  /** A configured machine holds the tunnels of each peer and of each service in the order they were asked
      for, and nothing else. */
  lemma {:induction false} ConfiguredInOrder(c: Config, p: PeerId, name: ServiceName)
    ensures var s := Configured(c);
            && Get(s.q.pendingByPeer, p) == ForPeer(c.peerTunnels, p)
            && Get(s.q.pendingByService, name) == ForService(c.serviceTunnels, name)
            && (p in s.q.pendingByPeer <==> ForPeer(c.peerTunnels, p) != [])
            && (name in s.q.pendingByService <==> ForService(c.serviceTunnels, name) != [])
            && s.q.awaiting == map[] && s.q.candidates == map[] && s.relayed == {} && s.retry == EMPTY.retry
            && s.book == EMPTY.book
    decreases |c.peerTunnels| + |c.serviceTunnels|
  {
    var m, n := |c.peerTunnels|, |c.serviceTunnels|;
    if n > 0 {
      ConfiguredInOrder(c.(serviceTunnels := c.serviceTunnels[..n - 1]), p, name);
    } else if m > 0 {
      ConfiguredInOrder(c.(peerTunnels := c.peerTunnels[..m - 1]), p, name);
    }
  }

  lemma SpecsInOrder(name: ServiceName, binds: seq<ServiceAddr>)
    ensures |SpecsFor(name, binds)| == |binds|
    ensures forall i | 0 <= i < |binds| :: SpecsFor(name, binds)[i] == Spec(name, binds[i])
  {
  }

  // ----- connections -----

  /** A direct connection ends every wait for the peer: all its tunnels are spawned, in whichever queue
      they were, and nothing is remembered of its attempts. */
  lemma DirectConnectionSettles(s: Tunnel, p: PeerId, now: Time)
    ensures var o := Step(s, TunnelPeerConnected(p, false), now); var v := Of(s, p);
            && OnlyAt(s, o.state, p)
            && Of(o.state, p) == View(None, None, false, None, false, None, v.oracle, v.seen)
            && SpawnsExactly(o.commands, p, List(v.pending) + List(v.awaiting))
  {
    hide Spawns, SpawnsExactly;
    SpawnsAreExact(p, Get(s.q.pendingByPeer, p) + Get(s.q.awaiting, p));
  }

  /** A relayed connection makes the peer's tunnels wait for a direct one. */
  lemma RelayedConnectionQueues(s: Tunnel, p: PeerId, now: Time)
    ensures var o := Step(s, TunnelPeerConnected(p, true), now); var v := Of(s, p);
            && OnlyAt(s, o.state, p) && o.commands == multiset{}
            && Of(o.state, p) == v.(relayed := true, pending := None,
                                    awaiting := if v.pending.Some? then Some(List(v.awaiting) + v.pending.value)
                                                else v.awaiting)
  {
  }

  /** Losing the last connection: with a redial due, or with tunnels waiting, the peer is dialed exactly
      once; the tunnels of a wait without a redial go back to be connected. */
  lemma LossAnswers(s: Tunnel, p: PeerId, now: Time)
    ensures var o := Step(s, ConnectionLost(p, 0), now); var v := Of(s, p);
            && OnlyAt(s, o.state, p)
            && DialCount(o.commands, p) == |o.commands| == (if v.redial || v.awaiting.Some? then 1 else 0)
            && Of(o.state, p)
               == if v.redial then
                    v.(relayed := false, redial := false,
                       session := if v.session.Some? then Some(v.session.value.(phase := WaitingRedial)) else None)
                  else
                    View(if v.awaiting.Some? then Some(List(v.pending) + v.awaiting.value) else v.pending, None, false,
                         None, false, None, v.oracle, v.seen)
  {
    hide RedialCommand, DialCount;
    if p in s.retry.pendingRedial {
      if p in s.retry.sessions { RedialIsOneDial(s.book, p, s.retry.sessions[p], now, p); } else { OneDial(p); }
    } else if p in s.q.awaiting {
      OneDial(p);
    } else {
      NoDials(multiset{}, p);
    }
  }

  lemma OneDial(p: PeerId)
    ensures DialCount(multiset{DialPeer(p)}, p) == 1
  {
    SumOne(DialPeer(p), DialOf(p));
  }

  lemma LossWithRemaining(s: Tunnel, p: PeerId, remaining: nat, now: Time)
    ensures remaining > 0 ==> Step(s, ConnectionLost(p, remaining), now) == Outcome(s, multiset{})
  {
  }

  // ----- lookups -----

  /** A lookup that ends: the tunnels of a peer that is not connected are left waiting and the peer is
      dialed; those of a connected peer are spawned, or wait for a direct path if it is relayed. */
  lemma LookupAnswers(s: Tunnel, p: PeerId, connected: bool, now: Time)
    ensures var o := Step(s, DhtPeerLookupComplete(p, connected), now); var v := Of(s, p);
            && OnlyAt(s, o.state, p)
            && if v.pending.None? then o == Outcome(s, multiset{})
               else if !connected then o == Outcome(s, multiset{DialPeer(p)})
               else if v.relayed then
                 o.commands == multiset{}
                 && Of(o.state, p) == v.(pending := None, awaiting := Some(List(v.awaiting) + v.pending.value))
               else Of(o.state, p) == v.(pending := None) && SpawnsExactly(o.commands, p, v.pending.value)
  {
    hide Spawns, SpawnsExactly, RouteConnected;
    if p in s.q.pendingByPeer { RouteAnswers(s, TakePending(s.q, p), p, s.q.pendingByPeer[p]); }
  }

  lemma RouteAnswers(s: Tunnel, q: Queues, p: PeerId, specs: seq<Spec>)
    ensures var o := RouteConnected(s, q, p, specs);
            if p in s.relayed
                then o == Outcome(s.(q := q.(awaiting := q.awaiting[p := Get(q.awaiting, p) + specs])), multiset{})
            else o.state == s.(q := q) && SpawnsExactly(o.commands, p, specs)
  {
    hide Spawns, SpawnsExactly;
    SpawnsAreExact(p, specs);
  }

  // ----- hole-punch attempts -----

  /** A new attempt: a punching session from what is known of the peer's addresses, with its redial unspent. */
  lemma StartAnswers(s: Tunnel, p: PeerId, id: nat, now: Time)
    ensures var o := Step(s, HolePunchAttemptStarted(p, id), now); var v := Of(s, p);
            var known := if v.oracle.Some? then v.oracle.value else Oracle([], []);
            && OnlyAt(s, o.state, p) && o.commands == multiset{}
            && Of(o.state, p) == v.(session := Some(Session(id, Punching, known.relay, known.direct, false)))
  {
  }

  /** When a failure or timeout of attempt `id` counts: it is the attempt of the session, which is still
      punching, and tunnels wait. */
  predicate Counts(v: View, id: nat) {
    v.session.Some? && v.session.value.attemptId == id && v.session.value.phase == Punching && v.awaiting.Some?
  }

  /** The first three failures of a wait each order one disconnect and make a redial due; the fourth
      spawns the waiting tunnels over the relay. Whatever does not count changes nothing. */
  lemma AttemptOverAnswers(s: Tunnel, p: PeerId, id: nat, e: Event, now: Time)
    requires e == HolePunchAttemptFailed(p, id) || e == HolePunchAttemptTimeout(p, id)
    ensures var o := Step(s, e, now); var v := Of(s, p);
            var failures := if v.retries.Some? then v.retries.value else 0;
            && OnlyAt(s, o.state, p)
            && if !Counts(v, id) then o == Outcome(s, multiset{})
               else if failures < 3 then
                 && o.commands == multiset{DisconnectPeer(p)}
                 && Of(o.state, p) == v.(retries := Some(failures + 1), redial := true,
                                         session := Some(v.session.value.(phase := WaitingDisconnect)))
               else
                 && SpawnsExactly(o.commands, p, v.awaiting.value)
                 && Of(o.state, p) == v.(awaiting := None, retries := None, redial := false, session := None)
  {
    hide RetryAttempt, Of, OnlyAt, SpawnsExactly;
    RetryAnswers(s, p, id);
  }

  lemma RetryAnswers(s: Tunnel, p: PeerId, id: nat)
    ensures var o := RetryAttempt(s, p, id); var v := Of(s, p);
            var failures := if v.retries.Some? then v.retries.value else 0;
            && OnlyAt(s, o.state, p)
            && if !Counts(v, id) then o == Outcome(s, multiset{})
               else if failures < 3 then
                 && o.commands == multiset{DisconnectPeer(p)}
                 && Of(o.state, p) == v.(retries := Some(failures + 1), redial := true,
                                         session := Some(v.session.value.(phase := WaitingDisconnect)))
               else
                 && SpawnsExactly(o.commands, p, v.awaiting.value)
                 && Of(o.state, p) == v.(awaiting := None, retries := None, redial := false, session := None)
  {
    hide RetryAttempt, SpawnsExactly, OnlyAt;
    CurrentCounts(s, p, id);
    if !Counts(Of(s, p), id) {
      NothingRetried(s, p, id);
    } else if RetriesOf(s.retry, p) < 3 {
      RetrySchedules(s, p, id);
    } else {
      RetryFallsBack(s, p, id);
    }
  }

  lemma CurrentCounts(s: Tunnel, p: PeerId, id: nat)
    ensures Current(s, p, id) <==> Counts(Of(s, p), id)
  {
  }

  lemma NothingRetried(s: Tunnel, p: PeerId, id: nat)
    requires !Current(s, p, id)
    ensures RetryAttempt(s, p, id) == Outcome(s, multiset{}) && OnlyAt(s, s, p)
  {
  }

  lemma RetrySchedules(s: Tunnel, p: PeerId, id: nat)
    requires Current(s, p, id) && RetriesOf(s.retry, p) < 3
    ensures var o := RetryAttempt(s, p, id); var v := Of(s, p);
            && OnlyAt(s, o.state, p) && o.commands == multiset{DisconnectPeer(p)}
            && Of(o.state, p) == v.(retries := Some(RetriesOf(s.retry, p) + 1), redial := true,
                                    session := Some(v.session.value.(phase := WaitingDisconnect)))
  {
  }

  lemma RetryFallsBack(s: Tunnel, p: PeerId, id: nat)
    requires Current(s, p, id) && RetriesOf(s.retry, p) >= 3
    ensures var o := RetryAttempt(s, p, id); var v := Of(s, p);
            && OnlyAt(s, o.state, p) && SpawnsExactly(o.commands, p, s.q.awaiting[p])
            && Of(o.state, p) == v.(awaiting := None, retries := None, redial := false, session := None)
  {
    hide Spawns, SpawnsExactly;
    SpawnsAreExact(p, s.q.awaiting[p]);
  }

  // ----- dial failures -----

  /** When a failed dial must be answered with a redial: tunnels wait for a direct path, the dial was not
      aborted, and the session, which is not about to disconnect, has its redial unspent. */
  predicate MustRedial(v: View, pendingAbort: bool) {
    v.awaiting.Some? && !pendingAbort && v.session.Some? && v.session.value.phase != WaitingDisconnect
    && !v.session.value.retryDispatched
  }

  /** When a failed dial sends the peer's tunnels to other providers. */
  predicate MustReroute(v: View, pendingAbort: bool) {
    v.pending.Some? && (v.awaiting.Some? ==> !pendingAbort && v.session.None?)
  }

  /** A failed dial is redialed exactly once, spending the session's redial, or rerouted, or ignored. */
  lemma DialFailureAnswers(s: Tunnel, p: PeerId, pendingAbort: bool, now: Time)
    ensures var o := Step(s, TunnelDialFailed(p, pendingAbort), now); var v := Of(s, p);
            && (MustRedial(v, pendingAbort) ==>
                  && OnlyAt(s, o.state, p) && DialCount(o.commands, p) == |o.commands| == 1
                  && Of(o.state, p) == v.(session := Some(v.session.value.(retryDispatched := true))))
            && (!MustRedial(v, pendingAbort) && !MustReroute(v, pendingAbort) ==> o == Outcome(s, multiset{}))
            && (MustReroute(v, pendingAbort) ==> Of(o.state, p) == v.(pending := Of(o.state, p).pending)
                                                 && DialCount(o.commands, p) == 0)
  {
    hide RedialCommand, DialCount, RerouteAll, Lookups, Queries;
    if MustRedial(Of(s, p), pendingAbort) {
      RedialIsOneDial(s.book, p, s.retry.sessions[p], now, p);
    } else if MustReroute(Of(s, p), pendingAbort) {
      var r0 := Reroute(TakePending(s.q, p), {}, {});
      RerouteKeepsWaits(r0, s.q.pendingByPeer[p], p);
      var r := RerouteAll(r0, s.q.pendingByPeer[p], p);
      LookupsDialNobody(r.lookups, r.refresh, p);
    }
  }

  lemma {:induction false} RerouteKeepsWaits(r: Reroute, specs: seq<Spec>, failed: PeerId)
    ensures RerouteAll(r, specs, failed).q.awaiting == r.q.awaiting
  {
    if specs != [] { RerouteKeepsWaits(r, specs[..|specs| - 1], failed); }
  }

  lemma LookupsDialNobody(ps: set<PeerId>, ns: set<ServiceName>, p: PeerId)
    ensures DialCount(Lookups(ps) + Queries(ns), p) == 0
  {
    NoDials(Lookups(ps) + Queries(ns), p);
  }

  // ----- services and phases -----

  lemma ServiceFailureAsksAgain(s: Tunnel, n: ServiceName, now: Time)
    ensures Step(s, DhtServiceFailed(n), now)
            == Outcome(s, if n in s.q.pendingByService then multiset{DhtGetProviders(n)} else multiset{})
  {
  }

  /** A resolution sends the tunnels that wait for the service to the first provider: spawned if it is
      connected directly, waiting if it is relayed, and otherwise queued with one lookup of it. The other
      providers, each once and in order, become the fallbacks. */
  lemma ResolutionAnswers(s: Tunnel, n: ServiceName, providers: seq<(PeerId, bool)>, now: Time)
    ensures var o := Step(s, DhtServiceResolved(n, providers), now);
            if n !in s.q.pendingByService then o == Outcome(s, multiset{})
            else if providers == [] then o == Outcome(s, multiset{DhtGetProviders(n)})
            else
              var (p, connected) := providers[0];
              var v, w := Of(s, p), Of(o.state, p);
              var specs := SpecsFor(n, s.q.pendingByService[n]);
              && (forall q | q != p :: Of(o.state, q) == Of(s, q))
              && o.state.q.pendingByService == s.q.pendingByService - {n}
              && (forall m | m != n :: Get(o.state.q.candidates, m) == Get(s.q.candidates, m))
              && [p] + Get(o.state.q.candidates, n) == Dedup(PeersOf(providers))
              && (if !connected
                 then w == v.(pending := Some(List(v.pending) + specs)) && o.commands == multiset{DhtLookupPeer(p)}
                  else if v.relayed then w == v.(awaiting := Some(List(v.awaiting) + specs)) && o.commands == multiset{}
                  else w == v && SpawnsExactly(o.commands, p, specs))
  {
    hide SpawnsExactly, Dedup, SpecsFor, RouteConnected, StoreCandidates;
    if n in s.q.pendingByService && providers != [] {
      FirstOfPeers(providers);
      var peers, specs := Dedup(PeersOf(providers)), SpecsFor(n, s.q.pendingByService[n]);
      var cs := StoreCandidates(s.q.candidates, n, peers[1..]);
      StoredFallbacks(s.q.candidates, n, peers[1..]);
      assert [peers[0]] + peers[1..] == peers;
      RouteAnswers(s, s.q.(pendingByService := s.q.pendingByService - {n}, candidates := cs), peers[0], specs);
    }
  }

  lemma StoredFallbacks(cs: map<ServiceName, seq<PeerId>>, n: ServiceName, ps: seq<PeerId>)
    ensures forall m | m != n :: Get(StoreCandidates(cs, n, ps), m) == Get(cs, m)
    ensures Get(StoreCandidates(cs, n, ps), n) == Dedup(ps)
  {
    hide Dedup;
  }

  lemma FirstOfPeers(providers: seq<(PeerId, bool)>)
    requires providers != []
    ensures var peers := Dedup(PeersOf(providers));
            peers != [] && peers[0] == providers[0].0 && Dedup(peers[1..]) == peers[1..]
  {
    FirstOfDedup(PeersOf(providers));
    var rest := Dedup(PeersOf(providers))[1..];
    assert NoDuplicates(rest);
    DedupDistinct(rest);
  }

  lemma {:induction false} FirstOfDedup<T(!new)>(xs: seq<T>)
    requires xs != []
    ensures Dedup(xs) != [] && Dedup(xs)[0] == xs[0]
  {
    if |xs| > 1 {
      var n := |xs| - 1;
      FirstOfDedup(xs[..n]);
      DedupStep(xs[..n], xs[n]);
      assert xs == xs[..n] + [xs[n]];
    }
  }

  /** Entering Ready publishes once and asks once for everything that waits for a peer or a provider. */
  lemma ReadyAnswers(s: Tunnel, before: Phase, now: Time)
    ensures var o := Step(s, PhaseChanged(before, Ready), now);
            && o.state == s && o.commands[PublishServices] == 1
            && (forall p :: o.commands[DhtLookupPeer(p)] == if p in s.q.pendingByPeer then 1 else 0)
            && (forall n :: o.commands[DhtGetProviders(n)] == if n in s.q.pendingByService then 1 else 0)
            && forall c | c in o.commands :: c.PublishServices? || c.DhtLookupPeer? || c.DhtGetProviders?
  {
    hide InitialLookups;
    InitialCounts(s.q);
  }

  lemma InitialCounts(q: Queues)
    ensures var cs := InitialLookups(q);
            && (forall p :: cs[DhtLookupPeer(p)] == if p in q.pendingByPeer then 1 else 0)
            && (forall n :: cs[DhtGetProviders(n)] == if n in q.pendingByService then 1 else 0)
            && forall c | c in cs :: c.DhtLookupPeer? || c.DhtGetProviders?
  {
    var ps, ns := q.pendingByPeer.Keys, q.pendingByService.Keys;
    var lookups := set p | p in ps :: DhtLookupPeer(p);
    var queries := set n | n in ns :: DhtGetProviders(n);
    assert InitialLookups(q) == multiset(lookups) + multiset(queries);
    forall p ensures DhtLookupPeer(p) !in queries && (DhtLookupPeer(p) in lookups <==> p in ps) {}
    forall n ensures DhtGetProviders(n) !in lookups && (DhtGetProviders(n) in queries <==> n in ns) {}
  }

  /** The events this machine does not act on. */
  lemma SilentEvents(s: Tunnel, e: Event, now: Time)
    ensures e.ListeningOn? || e.BootstrapConnected? || e.ShutdownRequested? || e.KademliaBootstrapOk?
            || e.KademliaBootstrapFailed? || e.MdnsDiscovered? || e.MdnsExpired? || e.NatStatusChanged?
            || e.DiscoveryTimeout? || e.RelayReservationFailed? || e.NoBootstrapPeers? || e.ExternalAddrConfirmed?
            || e.ExternalAddrExpired? || e.HolePunchFailed? || (e.PhaseChanged? && !e.newPhase.Ready?) ==>
              Step(s, e, now) == Outcome(s, multiset{})
    ensures e.RelayReservationAccepted? ==> Step(s, e, now) == Outcome(s, multiset{PublishServices})
  {
  }
}
