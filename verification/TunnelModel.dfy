/** What `src/state/tunnel.rs` computes, on values: the state of the tunnel machine and one
    transition. The commands of a transition are a multiset, because the source emits some of
    them while iterating hash maps, whose order is arbitrary. */
module TunnelModel {
  import opened Types
  import opened Ordering
  import opened Collections

  const ADDRESS_CANDIDATE_TTL: Time := 45_000_000_000
  const MAX_DIRECT_CANDIDATES: nat := 8
  const MAX_RELAY_CANDIDATES: nat := 4
  const MAX_REDIAL_ADDRESSES: nat := 12
  const MAX_RELAY_RECONNECT_RETRIES: nat := 3

  datatype PunchPhase = Punching | WaitingDisconnect | WaitingRedial

  datatype Session = Session(attemptId: nat, phase: PunchPhase, relayRedial: seq<Multiaddr>,
                             directSnapshot: seq<Multiaddr>, retryDispatched: bool)

  datatype Oracle = Oracle(relay: seq<Multiaddr>, direct: seq<Multiaddr>)

  /** The queues a requested tunnel waits in, and the provider fallbacks. */
  datatype Queues = Queues(
    pendingByPeer: map<PeerId, seq<Spec>>,
    pendingByService: map<ServiceName, seq<ServiceAddr>>,
    candidates: map<ServiceName, seq<PeerId>>,
    awaiting: map<PeerId, seq<Spec>>)

  /** What is remembered about hole-punch attempts and relay reconnects. */
  datatype Retry = Retry(
    attempts: map<PeerId, nat>,
    pendingRedial: set<PeerId>,
    sessions: map<PeerId, Session>)

  /** What is remembered about addresses. */
  datatype Book = Book(
    oracles: map<PeerId, Oracle>,
    lastSeen: map<PeerId, map<Multiaddr, Time>>)

  datatype Tunnel = Tunnel(q: Queues, relayed: set<PeerId>, retry: Retry, book: Book)

  const EMPTY := Tunnel(Queues(map[], map[], map[], map[]), {}, Retry(map[], {}, map[]), Book(map[], map[]))

  datatype Outcome = Outcome(state: Tunnel, commands: multiset<Command>)

  // ----- configuration -----

  function AddPeerTunnel(q: Queues, p: PeerId, spec: Spec): Queues {
    q.(pendingByPeer := Extend(q.pendingByPeer, p, [spec]))
  }

  function AddServiceTunnel(q: Queues, n: ServiceName, bind: ServiceAddr): Queues {
    q.(pendingByService := Extend(q.pendingByService, n, [bind]))
  }

  // ----- commands -----

  function SpawnSeq(p: PeerId, specs: seq<Spec>): seq<Command> {
    seq(|specs|, i requires 0 <= i < |specs| => SpawnTunnel(p, specs[i]))
  }

  function Spawns(p: PeerId, specs: seq<Spec>): multiset<Command> { multiset(SpawnSeq(p, specs)) }

  function Lookups(ps: set<PeerId>): multiset<Command> { multiset(set p | p in ps :: DhtLookupPeer(p)) }

  function Queries(ns: set<ServiceName>): multiset<Command> { multiset(set n | n in ns :: DhtGetProviders(n)) }

  // ----- provider fallback -----

  function StoreCandidates(cs: map<ServiceName, seq<PeerId>>, n: ServiceName, ps: seq<PeerId>)
    : map<ServiceName, seq<PeerId>>
  {
    if Dedup(ps) == [] then cs - {n} else cs[n := Dedup(ps)]
  }

  /** What is left of a candidate list once its leading occurrences of `x` are popped. */
  function SkipPeer(ps: seq<PeerId>, x: PeerId): (r: seq<PeerId>)
    ensures |r| <= |ps| && (r != [] ==> r[0] != x)
  {
    if ps != [] && ps[0] == x then SkipPeer(ps[1..], x) else ps
  }

  function NextFallback(cs: map<ServiceName, seq<PeerId>>, n: ServiceName, exclude: PeerId)
    : (map<ServiceName, seq<PeerId>>, Option<PeerId>)
  {
    var left := SkipPeer(Get(cs, n), exclude);
    if left == [] then (cs - {n}, None)
    else (if left[1..] == [] then cs - {n} else cs[n := left[1..]], Some(left[0]))
  }

  datatype Reroute = Reroute(q: Queues, lookups: set<PeerId>, refresh: set<ServiceName>)

  function RerouteOne(r: Reroute, spec: Spec, failed: PeerId): Reroute {
    var (cs, next) := NextFallback(r.q.candidates, spec.service, failed);
    match next
    case Some(p) =>
      Reroute(r.q.(candidates := cs, pendingByPeer := Extend(r.q.pendingByPeer, p, [spec])), r.lookups + {p}, r.refresh)
    case None =>
      Reroute(r.q.(candidates := cs, pendingByService := Extend(r.q.pendingByService, spec.service, [spec.bind])),
              r.lookups, r.refresh + {spec.service})
  }

  function RerouteAll(r: Reroute, specs: seq<Spec>, failed: PeerId): Reroute {
    if specs == [] then r
    else RerouteOne(RerouteAll(r, specs[..|specs| - 1], failed), specs[|specs| - 1], failed)
  }

  /** The failed peer's tunnels, moved to fallback providers or back to a provider query. */
  function RerouteFailed(q: Queues, failed: PeerId): Reroute {
    RerouteAll(Reroute(q.(pendingByPeer := q.pendingByPeer - {failed}), {}, {}), Get(q.pendingByPeer, failed), failed)
  }

  // ----- routing -----

  function InitialLookups(q: Queues): multiset<Command> {
    Lookups(q.pendingByPeer.Keys) + Queries(q.pendingByService.Keys)
  }

  function TakePending(q: Queues, p: PeerId): Queues { q.(pendingByPeer := q.pendingByPeer - {p}) }

  function QueueForDirect(q: Queues, p: PeerId, specs: seq<Spec>): Queues {
    q.(awaiting := Extend(q.awaiting, p, specs))
  }

  function RouteConnected(s: Tunnel, q: Queues, p: PeerId, specs: seq<Spec>): Outcome {
    if p in s.relayed then Outcome(s.(q := QueueForDirect(q, p, specs)), multiset{})
    else Outcome(s.(q := q), Spawns(p, specs))
  }

  function SpecsFor(n: ServiceName, binds: seq<ServiceAddr>): seq<Spec> {
    seq(|binds|, i requires 0 <= i < |binds| => Spec(n, binds[i]))
  }

  function PeersOf(providers: seq<(PeerId, bool)>): seq<PeerId> {
    seq(|providers|, i requires 0 <= i < |providers| => providers[i].0)
  }

  function ResolveService(s: Tunnel, n: ServiceName, providers: seq<(PeerId, bool)>): Outcome {
    if n !in s.q.pendingByService then Outcome(s, multiset{})
    else if providers == [] then Outcome(s, multiset{DhtGetProviders(n)})
    else
      var peers := Dedup(PeersOf(providers));
      var specs := SpecsFor(n, s.q.pendingByService[n]);
      var q := s.q.(pendingByService := s.q.pendingByService - {n},
                    candidates := StoreCandidates(s.q.candidates, n, peers[1..]));
      if providers[0].1 then RouteConnected(s, q, peers[0], specs)
      else Outcome(s.(q := q.(pendingByPeer := Extend(q.pendingByPeer, peers[0], specs))),
          multiset{DhtLookupPeer(peers[0])})
  }

  // ----- address oracle -----

  datatype AddrClass = Relay | Direct

  predicate InClass(a: Multiaddr, cls: AddrClass) {
    if cls.Relay? then HasCircuit(a) else IsDirectCandidate(a)
  }

  function Limit(cls: AddrClass): nat {
    if cls.Relay? then MAX_RELAY_CANDIDATES else MAX_DIRECT_CANDIDATES
  }

  predicate Fresh(seenAt: Time, now: Time) {
    (if now < seenAt then 0 else now - seenAt) <= ADDRESS_CANDIDATE_TTL
  }

  function SeenAt(seen: map<Multiaddr, Time>, a: Multiaddr): Time { if a in seen then seen[a] else 0 }

  /** The ranking order of candidates: most recently seen first, then by printed form. */
  function MoreRecent(seen: map<Multiaddr, Time>): (Multiaddr, Multiaddr) -> bool {
    (a, b) => SeenAt(seen, a) > SeenAt(seen, b) || (SeenAt(seen, a) == SeenAt(seen, b) && TextLess(a, b))
  }

  lemma MoreRecentIsTotal(seen: map<Multiaddr, Time>)
    ensures StrictTotal(MoreRecent(seen))
  {
    forall a: Multiaddr, b: Multiaddr ensures a == b || MoreRecent(seen)(a, b) || MoreRecent(seen)(b, a) {
      if a.text == b.text && FlagRank(a) == FlagRank(b) { FlagRankInjective(a, b); }
    }
  }

  function FreshSet(seen: map<Multiaddr, Time>, now: Time, cls: AddrClass): set<Multiaddr> {
    set a | a in seen && Fresh(seen[a], now) && InClass(a, cls)
  }

  function Ranked(seen: map<Multiaddr, Time>, now: Time, cls: AddrClass): seq<Multiaddr> {
    MoreRecentIsTotal(seen);
    Rank(FreshSet(seen, now, cls), MoreRecent(seen))
  }

  function Truncate<T>(xs: seq<T>, n: nat): seq<T> { if |xs| <= n then xs else xs[..n] }

  function Seen(b: Book, p: PeerId): map<Multiaddr, Time> { if p in b.lastSeen then b.lastSeen[p] else map[] }

  function FreshCandidates(seen: map<Multiaddr, Time>, now: Time, cls: AddrClass): seq<Multiaddr> {
    Truncate(Ranked(seen, now, cls), Limit(cls))
  }

  function CandidatesAt(seen: map<Multiaddr, Time>, now: Time): Oracle {
    Oracle(FreshCandidates(seen, now, Relay), FreshCandidates(seen, now, Direct))
  }

  predicate Eligible(a: Multiaddr) { HasCircuit(a) || IsDirectCandidate(a) }

  function SeenAfter(seen: map<Multiaddr, Time>, listen: seq<Multiaddr>, now: Time): map<Multiaddr, Time> {
    seen + (map a | a in listen && Eligible(a) :: now)
  }

  function SeenKept(seen: map<Multiaddr, Time>, listen: seq<Multiaddr>, now: Time): map<Multiaddr, Time> {
    var all := SeenAfter(seen, listen, now);
    map a | a in all && Fresh(all[a], now) :: all[a]
  }

  function Recorded(b: Book, p: PeerId, listen: seq<Multiaddr>, now: Time): Book {
    var kept := SeenKept(Seen(b, p), listen, now);
    b.(lastSeen := if kept == map[] then b.lastSeen - {p} else b.lastSeen[p := kept])
  }

  function OracleOf(b: Book, p: PeerId): Oracle { if p in b.oracles then b.oracles[p] else Oracle([], []) }

  function Refreshed(session: Session, o: Oracle): Session {
    var newRelay := o.relay != [] && session.relayRedial != o.relay;
    var newDirect := o.direct != [] && session.directSnapshot != o.direct;
    session.(relayRedial := if newRelay then o.relay else session.relayRedial,
             directSnapshot := if newDirect then o.direct else session.directSnapshot,
             retryDispatched := session.retryDispatched && !newRelay && !newDirect)
  }

  function BookAfter(b: Book, p: PeerId, listen: seq<Multiaddr>, now: Time): Book {
    var b1 := Recorded(b, p, listen, now);
    b1.(oracles := b1.oracles[p := CandidatesAt(Seen(b1, p), now)])
  }

  function RefreshSession(r: Retry, p: PeerId, o: Oracle): Retry {
    if p in r.sessions then r.(sessions := r.sessions[p := Refreshed(r.sessions[p], o)]) else r
  }

  function Identified(s: Tunnel, p: PeerId, listen: seq<Multiaddr>, now: Time): Tunnel {
    var b := BookAfter(s.book, p, listen, now);
    s.(book := b, retry := RefreshSession(s.retry, p, OracleOf(b, p)))
  }

  function PrioritizedRedial(b: Book, p: PeerId, session: Session, now: Time): seq<Multiaddr> {
    var o := OracleOf(b, p);
    var recent := CandidatesAt(Seen(b, p), now);
    Truncate(Dedup(session.directSnapshot + o.direct + recent.direct + session.relayRedial + o.relay + recent.relay),
             MAX_REDIAL_ADDRESSES)
  }

  /** The redial command: prioritized addresses if there are any, otherwise the bare peer. */
  function RedialCommand(b: Book, p: PeerId, session: Session, now: Time): (c: Command)
    ensures (c.DialPeer? && c.dial == p) || (c.DialPeerWithAddrs? && c.dialWith == p)
  {
    var addrs := PrioritizedRedial(b, p, session, now);
    if addrs == [] then DialPeer(p) else DialPeerWithAddrs(p, addrs, session.attemptId)
  }

  // ----- hole-punch attempts -----

  function BeginAttempt(r: Retry, p: PeerId, id: nat, o: Oracle): Retry {
    r.(sessions := r.sessions[p := Session(id, Punching, o.relay, o.direct, false)])
  }

  function ClearRetry(r: Retry, p: PeerId): Retry {
    Retry(r.attempts - {p}, r.pendingRedial - {p}, r.sessions - {p})
  }

  function RetriesOf(r: Retry, p: PeerId): nat { if p in r.attempts then r.attempts[p] else 0 }

  function ScheduleRetry(r: Retry, p: PeerId): Retry {
    r.(attempts := r.attempts[p := SaturatingSucc(RetriesOf(r, p), U32_MAX)], pendingRedial := r.pendingRedial + {p})
  }

  function SetPhase(r: Retry, p: PeerId, phase: PunchPhase): Retry {
    if p in r.sessions then r.(sessions := r.sessions[p := r.sessions[p].(phase := phase)]) else r
  }

  /** A failure or timeout of attempt `id` that the machine acts on. */
  predicate Current(s: Tunnel, p: PeerId, id: nat) {
    p in s.retry.sessions && s.retry.sessions[p].attemptId == id && s.retry.sessions[p].phase.Punching?
        && p in s.q.awaiting
  }

  function RetryAttempt(s: Tunnel, p: PeerId, id: nat): Outcome {
    if !Current(s, p, id) then Outcome(s, multiset{})
    else if RetriesOf(s.retry, p) >= MAX_RELAY_RECONNECT_RETRIES then
      Outcome(s.(q := s.q.(awaiting := s.q.awaiting - {p}), retry := ClearRetry(s.retry, p)),
          Spawns(p, s.q.awaiting[p]))
    else
      Outcome(s.(retry := SetPhase(ScheduleRetry(s.retry, p), p, WaitingDisconnect)), multiset{DisconnectPeer(p)})
  }

  /** A failed dial during an attempt that is answered with a prioritized redial. */
  predicate RedialsOnFailure(s: Tunnel, p: PeerId, pendingAbort: bool) {
    p in s.q.awaiting && !pendingAbort && p in s.retry.sessions
    && !s.retry.sessions[p].phase.WaitingDisconnect? && !s.retry.sessions[p].retryDispatched
  }

  function MarkDispatched(r: Retry, p: PeerId): Retry
    requires p in r.sessions
  {
    r.(sessions := r.sessions[p := r.sessions[p].(retryDispatched := true)])
  }

  function DialFailed(s: Tunnel, p: PeerId, pendingAbort: bool, now: Time): Outcome {
    if p !in s.q.awaiting && p !in s.q.pendingByPeer then Outcome(s, multiset{})
    else if p in s.q.awaiting && pendingAbort then Outcome(s, multiset{})
    else if p in s.q.awaiting && p in s.retry.sessions then
      if RedialsOnFailure(s, p, pendingAbort)
      then Outcome(s.(retry := MarkDispatched(s.retry, p)),
          multiset{RedialCommand(s.book, p, s.retry.sessions[p], now)})
      else Outcome(s, multiset{})
    else if p in s.q.pendingByPeer then
      var r := RerouteFailed(s.q, p);
      Outcome(s.(q := r.q), Lookups(r.lookups) + Queries(r.refresh))
    else Outcome(s, multiset{})
  }

  function PeerConnected(s: Tunnel, p: PeerId, relayed: bool): Outcome {
    if relayed then
      Outcome(s.(relayed := s.relayed + {p},
                 q := if p in s.q.pendingByPeer
                      then QueueForDirect(TakePending(s.q, p), p, s.q.pendingByPeer[p]) else s.q), multiset{})
    else
      Outcome(s.(relayed := s.relayed - {p}, retry := ClearRetry(s.retry, p),
                 q := s.q.(pendingByPeer := s.q.pendingByPeer - {p}, awaiting := s.q.awaiting - {p})),
              Spawns(p, Get(s.q.pendingByPeer, p) + Get(s.q.awaiting, p)))
  }

  function AllConnectionsLost(s: Tunnel, p: PeerId, now: Time): Outcome {
    var s0 := s.(relayed := s.relayed - {p});
    if p in s.retry.pendingRedial then
      Outcome(s0.(retry := SetPhase(s.retry.(pendingRedial := s.retry.pendingRedial - {p}), p, WaitingRedial)),
              multiset{if p in s.retry.sessions then RedialCommand(s.book, p, s.retry.sessions[p], now)
                  else DialPeer(p)})
    else if p in s.q.awaiting then
      Outcome(s0.(retry := ClearRetry(s.retry, p),
                  q := s.q.(awaiting := s.q.awaiting - {p},
                            pendingByPeer := Extend(s.q.pendingByPeer, p, s.q.awaiting[p]))), multiset{DialPeer(p)})
    else Outcome(s0.(retry := ClearRetry(s.retry, p)), multiset{})
  }

  // ----- one transition -----

  function Step(s: Tunnel, e: Event, now: Time): Outcome {
    match e
    case PhaseChanged(_, phase) =>
      if phase.Ready? then Outcome(s, multiset{PublishServices} + InitialLookups(s.q)) else Outcome(s, multiset{})
    case RelayReservationAccepted(_) => Outcome(s, multiset{PublishServices})
    case DhtPeerLookupComplete(p, connected) =>
      if p !in s.q.pendingByPeer then Outcome(s, multiset{})
      else if connected then RouteConnected(s, TakePending(s.q, p), p, s.q.pendingByPeer[p])
      else Outcome(s, multiset{DialPeer(p)})
    case DhtServiceResolved(n, providers) => ResolveService(s, n, providers)
    case DhtServiceFailed(n) =>
        Outcome(s, if n in s.q.pendingByService then multiset{DhtGetProviders(n)} else multiset{})
    case TunnelDialFailed(p, pendingAbort) => DialFailed(s, p, pendingAbort, now)
    case PeerIdentified(p, listen) => Outcome(Identified(s, p, listen, now), multiset{})
    case TunnelPeerConnected(p, relayed) => PeerConnected(s, p, relayed)
    case HolePunchAttemptStarted(p, id) =>
        Outcome(s.(retry := BeginAttempt(s.retry, p, id, OracleOf(s.book, p))), multiset{})
    case HolePunchAttemptFailed(p, id) => RetryAttempt(s, p, id)
    case HolePunchAttemptTimeout(p, id) => RetryAttempt(s, p, id)
    case ConnectionLost(p, remaining) => if remaining == 0 then AllConnectionsLost(s, p, now)
        else Outcome(s, multiset{})
    case _ => Outcome(s, multiset{})
  }

  // ----- runs -----

  datatype Input = Input(event: Event, now: Time)

  function StateAfter(s0: Tunnel, run: seq<Input>): Tunnel {
    if run == [] then s0
    else Step(StateAfter(s0, run[..|run| - 1]), run[|run| - 1].event, run[|run| - 1].now).state
  }

  predicate Monotone(run: seq<Input>) {
    forall i, j | 0 <= i < j < |run| :: run[i].now <= run[j].now
  }

  /** A machine as `run` configures it before the first event. */
  datatype Config = Config(peerTunnels: seq<(PeerId, Spec)>, serviceTunnels: seq<(ServiceName, ServiceAddr)>)

  function ConfiguredQueues(c: Config): Queues
    decreases |c.peerTunnels| + |c.serviceTunnels|
  {
    var m, n := |c.peerTunnels|, |c.serviceTunnels|;
    if n > 0 then
      AddServiceTunnel(ConfiguredQueues(c.(serviceTunnels := c.serviceTunnels[..n - 1])),
                       c.serviceTunnels[n - 1].0, c.serviceTunnels[n - 1].1)
    else if m > 0 then
      AddPeerTunnel(ConfiguredQueues(c.(peerTunnels := c.peerTunnels[..m - 1])), c.peerTunnels[m - 1].0,
          c.peerTunnels[m - 1].1)
    else EMPTY.q
  }

  function Configured(c: Config): Tunnel { EMPTY.(q := ConfiguredQueues(c)) }
}
