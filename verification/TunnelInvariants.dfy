/** What every transition of the tunnel machine keeps about retries and about addresses. */
module TunnelInvariants {
  import opened Types
  import opened Ordering
  import opened Collections
  import opened TunnelModel

  // ----- the retry-state chain -----

  predicate ChainAt(s: Tunnel, p: PeerId) {
    var r := s.retry;
    && (p in r.pendingRedial ==> p in r.attempts)
    && (p in r.attempts ==> p in r.sessions && p in s.q.awaiting && 1 <= r.attempts[p] <= MAX_RELAY_RECONNECT_RETRIES)
    && (p in r.sessions && r.sessions[p].phase.WaitingDisconnect? ==> p in r.pendingRedial)
    && (p in r.sessions && r.sessions[p].phase.WaitingRedial? ==> p !in r.pendingRedial)
  }

  ghost predicate RetryChain(s: Tunnel) {
    forall p :: ChainAt(s, p)
  }

  lemma RerouteKeepsAwaiting(r: Reroute, specs: seq<Spec>, failed: PeerId)
    ensures RerouteAll(r, specs, failed).q.awaiting == r.q.awaiting
  {
  }

  lemma RetryKeepsChain(s: Tunnel, q: PeerId, id: nat, p: PeerId)
    requires ChainAt(s, p)
    ensures ChainAt(RetryAttempt(s, q, id).state, p)
  {
    hide Spawns;
  }

  lemma ConnectedKeepsChain(s: Tunnel, q: PeerId, relayed: bool, p: PeerId)
    requires ChainAt(s, p)
    ensures ChainAt(PeerConnected(s, q, relayed).state, p)
  {
    hide Spawns;
  }

  lemma LostKeepsChain(s: Tunnel, q: PeerId, now: Time, p: PeerId)
    requires ChainAt(s, p)
    ensures ChainAt(AllConnectionsLost(s, q, now).state, p)
  {
    hide RedialCommand;
  }

  lemma DialFailedKeepsChain(s: Tunnel, q: PeerId, pendingAbort: bool, now: Time, p: PeerId)
    requires ChainAt(s, p)
    ensures ChainAt(DialFailed(s, q, pendingAbort, now).state, p)
  {
    hide RedialCommand, RerouteAll, Queries, Lookups;
    RerouteKeepsAwaiting(Reroute(TakePending(s.q, q), {}, {}), Get(s.q.pendingByPeer, q), q);
  }

  lemma StepKeepsChainAt(s: Tunnel, e: Event, now: Time, p: PeerId)
    requires ChainAt(s, p)
    ensures ChainAt(Step(s, e, now).state, p)
  {
    hide RetryAttempt, PeerConnected, AllConnectionsLost, DialFailed, Spawns, Queries, Lookups, Dedup, BookAfter;
    match e
    case HolePunchAttemptFailed(q, id) => RetryKeepsChain(s, q, id, p);
    case HolePunchAttemptTimeout(q, id) => RetryKeepsChain(s, q, id, p);
    case TunnelPeerConnected(q, relayed) => ConnectedKeepsChain(s, q, relayed, p);
    case ConnectionLost(q, _) => LostKeepsChain(s, q, now, p);
    case TunnelDialFailed(q, pendingAbort) => DialFailedKeepsChain(s, q, pendingAbort, now, p);
    case _ =>
  }

  /** In every run: a peer to be redialed has a bounded retry counter, a peer with a counter has a
      session and waiting tunnels, and the session's phase says whether the redial is still due. */
  lemma {:induction false} RunsKeepRetryChain(c: Config, run: seq<Input>)
    ensures RetryChain(StateAfter(Configured(c), run))
  {
    if run != [] {
      var n := |run| - 1;
      RunsKeepRetryChain(c, run[..n]);
      var s := StateAfter(Configured(c), run[..n]);
      forall p ensures ChainAt(StateAfter(Configured(c), run), p) {
        StepKeepsChainAt(s, run[n].event, run[n].now, p);
      }
    }
  }

  /** The redial after a lost relay always has a session: the branch without one is dead, and the
      command is made from that session. */
  lemma RedialHasSession(c: Config, run: seq<Input>, p: PeerId, now: Time)
    ensures var s := StateAfter(Configured(c), run); var r := s.retry;
            p in r.pendingRedial ==>
              && p in r.sessions && p in s.q.awaiting
              && var o := Step(s, ConnectionLost(p, 0), now);
              && o.state.retry.sessions == r.sessions[p := r.sessions[p].(phase := WaitingRedial)]
              && o.commands == multiset{RedialCommand(s.book, p, r.sessions[p], now)}
              && o.state.q == s.q
  {
    RunsKeepRetryChain(c, run);
    assert ChainAt(StateAfter(Configured(c), run), p);
  }

  // ----- addresses -----

  ghost predicate ListOf(xs: seq<Multiaddr>, cls: AddrClass) {
    |xs| <= Limit(cls) && NoDuplicates(xs) && forall a | a in xs :: InClass(a, cls)
  }

  ghost predicate Agrees(session: Session, o: Oracle) {
    && ListOf(session.relayRedial, Relay) && ListOf(session.directSnapshot, Direct)
    && (o.relay != [] ==> session.relayRedial == o.relay)
    && (o.direct != [] ==> session.directSnapshot == o.direct)
  }

  /** The oracle of a peer was computed, at some moment not after `clock`, from what is still recorded. */
  ghost predicate Explained(o: Oracle, seen: map<Multiaddr, Time>, clock: Time) {
    exists t: Time :: t <= clock && o == CandidatesAt(seen, t)
  }

  ghost predicate AddressesAt(s: Tunnel, p: PeerId, clock: Time) {
    && (p in s.book.oracles ==> Explained(s.book.oracles[p], Seen(s.book, p), clock))
    && (p in s.book.lastSeen ==> p in s.book.oracles)
    && (p in s.retry.sessions ==> Agrees(s.retry.sessions[p], OracleOf(s.book, p)))
  }

  ghost predicate AddressInv(s: Tunnel, clock: Time) {
    forall p :: AddressesAt(s, p, clock)
  }

  lemma CandidatesAreLists(seen: map<Multiaddr, Time>, now: Time)
    ensures ListOf(CandidatesAt(seen, now).relay, Relay) && ListOf(CandidatesAt(seen, now).direct, Direct)
  {
    RankedIsList(seen, now, Relay);
    RankedIsList(seen, now, Direct);
  }

  lemma RankedIsList(seen: map<Multiaddr, Time>, now: Time, cls: AddrClass)
    ensures ListOf(FreshCandidates(seen, now, cls), cls)
  {
    MoreRecentIsTotal(seen);
    var lt := MoreRecent(seen);
    var r := Rank(FreshSet(seen, now, cls), lt);
    forall i, j | 0 <= i < j < |r| ensures r[i] != r[j] {
      Asymmetric(lt, r[i], r[j]);
    }
    forall a | a in FreshCandidates(seen, now, cls) ensures InClass(a, cls) {
      assert a in r;
    }
  }

  /** The candidates of a class are within the lifetime and listed by recency, and an address within
      the lifetime is left out only when the limit is reached by addresses that all rank before it. */
  lemma CandidatesAreBest(seen: map<Multiaddr, Time>, now: Time, cls: AddrClass)
    ensures var xs := FreshCandidates(seen, now, cls);
            && (forall a | a in xs :: Candidate(seen, now, cls, a))
            && (forall i, j | 0 <= i < j < |xs| :: RanksBefore(seen, xs[i], xs[j]))
            && (forall b | Candidate(seen, now, cls, b) && b !in xs ::
                  |xs| == (if cls.Relay? then 4 else 8) && forall a | a in xs :: RanksBefore(seen, a, b))
  {
    MoreRecentIsTotal(seen);
    CandidatesAreFresh(seen, now, cls);
    RanksByRecency(seen);
    hide MoreRecent, Rank, StrictTotal, FreshSet, Candidate, RanksBefore;
    var r, xs := Ranked(seen, now, cls), FreshCandidates(seen, now, cls);
    forall a | a in xs ensures a in FreshSet(seen, now, cls) { assert a in r; }
    forall b | b in FreshSet(seen, now, cls) && b !in xs
      ensures |xs| == Limit(cls) && forall a | a in xs :: MoreRecent(seen)(a, b)
    {
      assert b in r;
      var j :| 0 <= j < |r| && r[j] == b;
      assert forall i | 0 <= i < |xs| :: xs[i] == r[i] && xs[i] in xs;
    }
  }

  /** An address of the class that was seen at most 45 seconds ago. */
  predicate Candidate(seen: map<Multiaddr, Time>, now: Time, cls: AddrClass, a: Multiaddr) {
    a in seen && now <= seen[a] + 45_000_000_000
    && if cls.Relay? then a.circuit else !a.circuit && a.udpQuic && a.hasPublicIp
  }

  /** Seen later, or at the same time and first by printed form. */
  predicate RanksBefore(seen: map<Multiaddr, Time>, a: Multiaddr, b: Multiaddr) {
    a in seen && b in seen && (seen[a] > seen[b] || (seen[a] == seen[b] && TextLess(a, b)))
  }

  lemma CandidatesAreFresh(seen: map<Multiaddr, Time>, now: Time, cls: AddrClass)
    ensures forall a :: a in FreshSet(seen, now, cls) <==> Candidate(seen, now, cls, a)
    ensures FreshSet(seen, now, cls) <= seen.Keys
  {
  }

  lemma RanksByRecency(seen: map<Multiaddr, Time>)
    ensures forall a, b | a in seen && b in seen :: MoreRecent(seen)(a, b) <==> RanksBefore(seen, a, b)
  {
  }

  /** What expires is older than everything that stays. */
  lemma OldestExpire(seen: map<Multiaddr, Time>, t: Time, now: Time, cls: AddrClass)
    requires t <= now
    ensures InitialSegment(FreshSet(seen, now, cls), FreshSet(seen, t, cls), MoreRecent(seen))
  {
    forall a, b | a in FreshSet(seen, t, cls) && b in FreshSet(seen, now, cls) && MoreRecent(seen)(a, b)
      ensures a in FreshSet(seen, now, cls)
    {
      assert SeenAt(seen, a) >= SeenAt(seen, b);
    }
  }

  /** As time passes the ranking only loses its tail. */
  lemma ExpiryCutsTail(seen: map<Multiaddr, Time>, t: Time, now: Time, cls: AddrClass)
    requires t <= now
    ensures FreshCandidates(seen, now, cls) <= FreshCandidates(seen, t, cls)
  {
    MoreRecentIsTotal(seen);
    OldestExpire(seen, t, now, cls);
    InitialSegmentIsPrefix(FreshSet(seen, now, cls), FreshSet(seen, t, cls), MoreRecent(seen));
    assert Ranked(seen, now, cls) <= Ranked(seen, t, cls);
    hide Ranked, Truncate;
    TruncatedPrefix(Ranked(seen, now, cls), Ranked(seen, t, cls), Limit(cls));
  }

  lemma TruncatedPrefix<T>(small: seq<T>, big: seq<T>, n: nat)
    requires small <= big
    ensures Truncate(small, n) <= Truncate(big, n)
  {
  }

  lemma LaterClock(s: Tunnel, p: PeerId, clock: Time, now: Time)
    requires AddressesAt(s, p, clock) && clock <= now
    ensures AddressesAt(s, p, now)
  {
  }

  lemma IdentifyKeepsAddresses(s: Tunnel, q: PeerId, listen: seq<Multiaddr>, now: Time, p: PeerId)
    requires AddressesAt(s, p, now)
    ensures AddressesAt(Identified(s, q, listen, now), p, now)
  {
    hide CandidatesAt, ListOf, SeenKept;
    var s' := Identified(s, q, listen, now);
    if p == q {
      var seen := Seen(s'.book, p);
      assert s'.book.oracles[p] == CandidatesAt(seen, now);
      CandidatesAreLists(seen, now);
    } else {
      assert Seen(s'.book, p) == Seen(s.book, p);
    }
  }

  lemma BeginKeepsAddresses(s: Tunnel, q: PeerId, id: nat, clock: Time, p: PeerId)
    requires AddressesAt(s, p, clock)
    ensures AddressesAt(s.(retry := BeginAttempt(s.retry, q, id, OracleOf(s.book, q))), p, clock)
  {
    hide CandidatesAt;
    if p == q && p in s.book.oracles {
      var t: Time :| t <= clock && s.book.oracles[p] == CandidatesAt(Seen(s.book, p), t);
      CandidatesAreLists(Seen(s.book, p), t);
    }
  }

  /** A session survives with the addresses it had. */
  predicate AddressesCopied(before: Retry, after: Retry, p: PeerId) {
    p in after.sessions ==>
      && p in before.sessions
      && after.sessions[p].relayRedial == before.sessions[p].relayRedial
      && after.sessions[p].directSnapshot == before.sessions[p].directSnapshot
  }

  lemma CopiesOnClear(r: Retry, q: PeerId, p: PeerId)
    ensures AddressesCopied(r, ClearRetry(r, q), p)
  {
  }

  lemma CopiesOnRetry(s: Tunnel, q: PeerId, id: nat, p: PeerId)
    ensures AddressesCopied(s.retry, RetryAttempt(s, q, id).state.retry, p)
  {
    hide Spawns;
  }

  lemma CopiesOnLost(s: Tunnel, q: PeerId, now: Time, p: PeerId)
    ensures AddressesCopied(s.retry, AllConnectionsLost(s, q, now).state.retry, p)
  {
    hide RedialCommand;
  }

  lemma CopiesOnDialFailed(s: Tunnel, q: PeerId, pendingAbort: bool, now: Time, p: PeerId)
    ensures AddressesCopied(s.retry, DialFailed(s, q, pendingAbort, now).state.retry, p)
  {
    hide RedialCommand, RerouteFailed, Queries, Lookups;
  }

  lemma OthersCopyAddresses(s: Tunnel, e: Event, now: Time, p: PeerId)
    requires !e.PeerIdentified? && !e.HolePunchAttemptStarted?
    ensures AddressesCopied(s.retry, Step(s, e, now).state.retry, p)
  {
    hide RetryAttempt, AllConnectionsLost, DialFailed, ClearRetry, Spawns, Queries, Lookups, Dedup;
    match e
    case HolePunchAttemptFailed(q, id) => CopiesOnRetry(s, q, id, p);
    case HolePunchAttemptTimeout(q, id) => CopiesOnRetry(s, q, id, p);
    case TunnelPeerConnected(q, relayed) => CopiesOnClear(s.retry, q, p);
    case ConnectionLost(q, _) => CopiesOnLost(s, q, now, p);
    case TunnelDialFailed(q, pendingAbort) => CopiesOnDialFailed(s, q, pendingAbort, now, p);
    case _ =>
  }

  lemma OthersKeepBook(s: Tunnel, e: Event, now: Time)
    requires !e.PeerIdentified?
    ensures Step(s, e, now).state.book == s.book
  {
    hide RedialCommand, RerouteFailed, Spawns, Queries, Lookups, Dedup, ClearRetry, SetPhase, ScheduleRetry;
  }

  lemma StepKeepsAddresses(s: Tunnel, e: Event, now: Time, clock: Time, p: PeerId)
    requires AddressesAt(s, p, clock) && clock <= now
    ensures AddressesAt(Step(s, e, now).state, p, now)
  {
    hide BookAfter, BeginAttempt, Explained, ListOf;
    LaterClock(s, p, clock, now);
    if e.PeerIdentified? {
      IdentifyKeepsAddresses(s, e.identified, e.listenAddrs, now, p);
    } else if e.HolePunchAttemptStarted? {
      BeginKeepsAddresses(s, e.startedPeer, e.startedAttempt, now, p);
    } else {
      hide Step;
      OthersCopyAddresses(s, e, now, p);
      OthersKeepBook(s, e, now);
    }
  }

  function LastNow(run: seq<Input>): Time { if run == [] then 0 else run[|run| - 1].now }

  lemma {:induction false} RunsKeepAddresses(c: Config, run: seq<Input>)
    requires Monotone(run)
    ensures AddressInv(StateAfter(Configured(c), run), LastNow(run))
  {
    if run != [] {
      var n := |run| - 1;
      RunsKeepAddresses(c, run[..n]);
      var s := StateAfter(Configured(c), run[..n]);
      forall p ensures AddressesAt(StateAfter(Configured(c), run), p, run[n].now) {
        StepKeepsAddresses(s, run[n].event, run[n].now, LastNow(run[..n]), p);
      }
    }
  }

  lemma PrefixElements<T>(a: seq<T>, b: seq<T>)
    requires a <= b
    ensures forall x | x in a :: x in b
  {
    forall x | x in a ensures x in b {
      var i :| 0 <= i < |a| && a[i] == x;
      assert b[i] == x;
    }
  }

  /** Lists whose later parts only repeat earlier ones collapse to the two snapshots. */
  lemma SixListsCollapse(d: seq<Multiaddr>, d1: seq<Multiaddr>, d2: seq<Multiaddr>,
                         r: seq<Multiaddr>, r1: seq<Multiaddr>, r2: seq<Multiaddr>)
    requires ListOf(d, Direct) && ListOf(r, Relay)
    requires (forall a | a in d1 :: a in d) && (forall a | a in d2 :: a in d)
    requires (forall a | a in r1 :: a in r) && (forall a | a in r2 :: a in r)
    ensures Dedup(d + d1 + d2 + r + r1 + r2) == d + r
  {
    hide Dedup;
    var tail := d1 + d2;
    var rest := r1 + r2;
    DirectBeforeRelay(d, r);
    Regroup(d, d1, d2, r, r1, r2);
    DedupTwice(d + tail, r + rest);
    DedupKnown(d, tail);
    DedupDistinct(d);
    DedupKnown(d + r, rest);
    DedupDistinct(d + r);
  }

  lemma Regroup<T>(a: seq<T>, a1: seq<T>, a2: seq<T>, b: seq<T>, b1: seq<T>, b2: seq<T>)
    ensures a + a1 + a2 + b + b1 + b2 == (a + (a1 + a2)) + (b + (b1 + b2))
    ensures (a + b) + (b1 + b2) == a + (b + (b1 + b2))
  {
  }

  lemma DirectBeforeRelay(d: seq<Multiaddr>, r: seq<Multiaddr>)
    requires ListOf(d, Direct) && ListOf(r, Relay)
    ensures NoDuplicates(d + r)
  {
    forall i, j | 0 <= i < j < |d + r| ensures (d + r)[i] != (d + r)[j] {
      if i < |d| && |d| <= j {
        assert InClass(d[i], Direct) && InClass(r[j - |d|], Relay);
      }
    }
  }

  lemma RedialFromInvariant(s: Tunnel, p: PeerId, clock: Time, now: Time)
    requires AddressesAt(s, p, clock) && clock <= now && p in s.retry.sessions
    ensures var session := s.retry.sessions[p];
            PrioritizedRedial(s.book, p, session, now) == session.directSnapshot + session.relayRedial
  {
    hide FreshCandidates, Dedup;
    var session, o, seen := s.retry.sessions[p], OracleOf(s.book, p), Seen(s.book, p);
    if p in s.book.oracles {
      var t: Time :| t <= clock && o == CandidatesAt(seen, t);
      ExpiryCutsTail(seen, t, now, Direct);
      ExpiryCutsTail(seen, t, now, Relay);
      PrefixElements(FreshCandidates(seen, now, Direct), o.direct);
      PrefixElements(FreshCandidates(seen, now, Relay), o.relay);
    } else {
      NothingSeen(now);
    }
    SixListsCollapse(session.directSnapshot, o.direct, CandidatesAt(seen, now).direct,
                     session.relayRedial, o.relay, CandidatesAt(seen, now).relay);
  }

  lemma NothingSeen(now: Time)
    ensures CandidatesAt(map[], now) == Oracle([], [])
  {
  }

  /** In every run with a monotone clock, the prioritized redial list of a session, made of six
      lists, deduplicated and cut to twelve, is its direct snapshot followed by its relay list:
      nothing is cut off and every direct address precedes every relay address. */
  lemma RedialIsSnapshots(c: Config, run: seq<Input>, p: PeerId, now: Time)
    requires Monotone(run) && LastNow(run) <= now
    ensures var s := StateAfter(Configured(c), run);
            p in s.retry.sessions ==>
              var session := s.retry.sessions[p];
              && PrioritizedRedial(s.book, p, session, now) == session.directSnapshot + session.relayRedial
              && ListOf(session.directSnapshot, Direct) && ListOf(session.relayRedial, Relay)
  {
    RunsKeepAddresses(c, run);
    var s := StateAfter(Configured(c), run);
    assert AddressesAt(s, p, LastNow(run));
    if p in s.retry.sessions {
      RedialFromInvariant(s, p, LastNow(run), now);
    }
  }
}
