/** What the tunnel machine knows of a peer's addresses is a function of the identify exchanges so far. */
module TunnelAddresses {
  import opened Types
  import opened Collections
  import opened TunnelModel
  import opened TunnelInvariants
  import opened TunnelAnswers
  import TunnelRedials

  /** Worth redialing: relay addresses, and direct ones that are public QUIC addresses. */
  predicate Usable(a: Multiaddr) { a.circuit || (a.udpQuic && a.hasPublicIp) }

  /** Within its lifetime of 45 seconds. */
  predicate Alive(seenAt: Time, now: Time) { now <= seenAt + 45_000_000_000 }

  function SeenOf(v: View): map<Multiaddr, Time> { if v.seen.Some? then v.seen.value else map[] }

  /** What an identify exchange records: the usable listed addresses as seen now, the others still alive
      as they were. */
  ghost predicate RecordsListing(before: map<Multiaddr, Time>, after: map<Multiaddr, Time>, listen: seq<Multiaddr>,
      now: Time) {
    forall a ::
      && (a in after <==> (a in listen && Usable(a)) || (a in before && Alive(before[a], now)))
      && (a in after ==> after[a] == if a in listen && Usable(a) then now else before[a])
  }

  /** What it does to the session of a running attempt: each nonempty list of candidates replaces the
      snapshot of its kind, and the redial is allowed again exactly if a snapshot changed. */
  predicate RefreshesSession(before: Session, after: Session, o: Oracle) {
    && after.attemptId == before.attemptId && after.phase == before.phase
    && after.relayRedial == (if o.relay == [] then before.relayRedial else o.relay)
    && after.directSnapshot == (if o.direct == [] then before.directSnapshot else o.direct)
    && (after.retryDispatched <==>
          before.retryDispatched && after.relayRedial == before.relayRedial
          && after.directSnapshot == before.directSnapshot)
  }

  lemma KeptRecords(seen: map<Multiaddr, Time>, listen: seq<Multiaddr>, now: Time)
    ensures RecordsListing(seen, SeenKept(seen, listen, now), listen, now)
  {
  }

  lemma IdentifyAnswers(s: Tunnel, p: PeerId, listen: seq<Multiaddr>, now: Time)
    ensures var o := Step(s, PeerIdentified(p, listen), now); var v, w := Of(s, p), Of(o.state, p);
            && OnlyAt(s, o.state, p) && o.commands == multiset{}
            && RecordsListing(SeenOf(v), SeenOf(w), listen, now)
            && w.oracle == Some(CandidatesAt(SeenOf(w), now))
            && w == v.(seen := w.seen, oracle := w.oracle, session := w.session)
            && (v.session.None? ==> w.session.None?)
            && (v.session.Some? ==>
               w.session.Some? && RefreshesSession(v.session.value, w.session.value, w.oracle.value))
  {
    hide CandidatesAt, SeenKept, RecordsListing;
    KeptRecords(Seen(s.book, p), listen, now);
  }

  /** After an identify exchange that changes a snapshot the session may redial again; after one that
      changes none its redial is as it was. */
  lemma FresherAddressesRearm(s: Tunnel, p: PeerId, listen: seq<Multiaddr>, now: Time)
    requires p in s.retry.sessions
    ensures var t := Step(s, PeerIdentified(p, listen), now).state;
            && p in t.retry.sessions
            && var u, w := s.retry.sessions[p], t.retry.sessions[p];
            if u.relayRedial != w.relayRedial || u.directSnapshot != w.directSnapshot
            then TunnelRedials.Armed(t.retry, p) == 1
            else TunnelRedials.Armed(t.retry, p) == TunnelRedials.Armed(s.retry, p)
  {
    hide Step, CandidatesAt, RecordsListing;
    IdentifyAnswers(s, p, listen, now);
  }

  // ----- over runs -----

  function LastListed(run: seq<Input>, p: PeerId, a: Multiaddr): Option<Time> {
    if run == [] then None
    else
      var i := run[|run| - 1];
      if i.event.PeerIdentified? && i.event.identified == p && a in i.event.listenAddrs && Usable(a) then Some(i.now)
      else LastListed(run[..|run| - 1], p, a)
  }

  function LastIdentified(run: seq<Input>, p: PeerId): Option<Time> {
    if run == [] then None
    else
      var i := run[|run| - 1];
      if i.event.PeerIdentified? && i.event.identified == p then Some(i.now) else LastIdentified(run[..|run| - 1], p)
  }

  lemma {:induction false} ListedWhenIdentified(run: seq<Input>, p: PeerId, a: Multiaddr)
    requires Monotone(run)
    ensures LastListed(run, p, a).Some? ==>
              && LastIdentified(run, p).Some?
              && LastListed(run, p, a).value <= LastIdentified(run, p).value <= LastNow(run)
    ensures LastIdentified(run, p).Some? ==> LastIdentified(run, p).value <= LastNow(run)
  {
    if run != [] {
      var n := |run| - 1;
      ListedWhenIdentified(run[..n], p, a);
    }
  }

  /** Whether `a` is still recorded for `p`, and since when. */
  predicate RecordedAt(v: View, run: seq<Input>, p: PeerId, a: Multiaddr) {
    var listed, identified := LastListed(run, p, a), LastIdentified(run, p);
    && (a in SeenOf(v) <==> listed.Some? && identified.Some? && Alive(listed.value, identified.value))
    && (a in SeenOf(v) ==> Some(SeenOf(v)[a]) == listed)
  }

  lemma BookIsKept(s: Tunnel, e: Event, now: Time, p: PeerId)
    requires !(e.PeerIdentified? && e.identified == p)
    ensures Of(Step(s, e, now).state, p).seen == Of(s, p).seen && Of(Step(s, e, now).state, p).oracle == Of(s, p).oracle
  {
    hide Step;
    if e.PeerIdentified? {
      IdentifyAnswers(s, e.identified, e.listenAddrs, now);
    } else {
      OthersKeepBook(s, e, now);
    }
  }

  /** Over every run with a monotone clock: an address is recorded for a peer if and only if it was listed
      no more than 45 seconds before the peer's last identify exchange, with the time of its last listing,
      and the oracle is what ranks best among the recorded addresses at that exchange. */
  lemma {:induction false} AddressesFollowIdentifies(c: Config, run: seq<Input>, p: PeerId, a: Multiaddr)
    requires Monotone(run)
    ensures var v := Of(StateAfter(Configured(c), run), p); var identified := LastIdentified(run, p);
            && RecordedAt(v, run, p, a)
            && v.oracle == if identified.None? then None else Some(CandidatesAt(SeenOf(v), identified.value))
  {
    hide Step, CandidatesAt;
    if run != [] {
      var n := |run| - 1;
      var s, i := StateAfter(Configured(c), run[..n]), run[n];
      AddressesFollowIdentifies(c, run[..n], p, a);
      if i.event.PeerIdentified? && i.event.identified == p {
        IdentifyAnswers(s, p, i.event.listenAddrs, i.now);
        ListedWhenIdentified(run[..n], p, a);
      } else {
        BookIsKept(s, i.event, i.now, p);
      }
    }
  }
}
