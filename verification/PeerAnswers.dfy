/** What the membership machine answers to each event, and what its fields say about the events so far:
    in particular exactly when the node becomes ready. */
module PeerAnswers {
  import opened Types
  import opened PeerModel
  import opened AppModel

  // ----- phases -----

  /** The phase after an event, told from the state before it. */
  predicate TurnsReady(s: Peer, e: Event) {
    match e
    case KademliaBootstrapOk => s.externalAddrs != {}
    case ExternalAddrConfirmed(_) => s.kadBootstrapped
    case DiscoveryTimeout => s.kadBootstrapped && s.knownPeers != map[]
    case NoBootstrapPeers => true
    case _ => false
  }

  /** A ready node joins again when the last peer it knows is lost, if it has bootstrap peers. */
  predicate Regresses(s: Peer, e: Event) {
    e.ConnectionLost? && e.remaining == 0 && (forall p | p in s.knownPeers :: p == e.lost) && s.bootstrapPeers != {}
  }

  lemma NobodyElse(known: map<PeerId, set<Multiaddr>>, p: PeerId)
    ensures known - {p} == map[] <==> forall q | q in known :: q == p
  {
    if known - {p} == map[] {
      forall q | q in known ensures q == p {
        assert q != p ==> q in known - {p};
      }
    }
  }

  /** Exactly which events change the phase, in which states. */
  lemma PhaseIsExact(s: Peer, e: Event, pick: Pick)
    ensures PeerStep(s, e, pick).state.phase
            == if e.ShutdownRequested? then ShuttingDown
               else if s.phase.Joining? && TurnsReady(s, e) then Ready
               else if s.phase.Ready? && Regresses(s, e) then Joining
               else s.phase
  {
    hide Announced, StoreAll, Discover, DiscoverCommands, Expire, MaybeRequestRelay;
    if e.ConnectionLost? { NobodyElse(s.knownPeers, e.lost); }
  }

  /** After a successful bootstrap or a confirmed address, a joining node is ready if and only if both its
      bootstrap stands and it has an external address. */
  lemma ReadyNeedsBoth(s: Peer, e: Event, pick: Pick)
    requires s.phase.Joining? && (e.KademliaBootstrapOk? || e.ExternalAddrConfirmed?)
    ensures var t := PeerStep(s, e, pick).state; t.phase.Ready? <==> t.kadBootstrapped && t.externalAddrs != {}
  {
  }

  // ----- the other fields -----

  lemma FlagsAreExact(s: Peer, e: Event, pick: Pick)
    ensures var t := PeerStep(s, e, pick).state;
            && t.natStatus == (if e.NatStatusChanged? then e.status else s.natStatus)
            && t.kadBootstrapped
               == (e.KademliaBootstrapOk? || (s.kadBootstrapped && !(s.phase.Ready? && Regresses(s, e))))
            && t.relayReserved
               == (e.RelayReservationAccepted?
                   || (s.relayReserved && !e.RelayReservationFailed? && !(e.NatStatusChanged? && e.status.Public?)
                       && !(e.ConnectionLost? && e.remaining == 0 && e.lost in s.bootstrapPeers)))
            && t.bootstrapPeers
               == (if e.BootstrapConnected? then s.bootstrapPeers + {e.bootstrap} else s.bootstrapPeers)
            && (forall a :: a in t.externalAddrs <==>
                  (e.ExternalAddrConfirmed? && a == e.confirmed)
                  || (a in s.externalAddrs && !(e.ExternalAddrExpired? && a == e.expiredAddr)))
  {
    hide Announced, StoreAll, Discover, DiscoverCommands, Expire, MaybeRequestRelay;
    if e.ConnectionLost? { NobodyElse(s.knownPeers, e.lost); }
  }

  /** What is stored about peers changes only by bootstrap connections, discovery, identification and the
      loss of a peer. */
  lemma KnownPeersAreExact(s: Peer, e: Event, pick: Pick)
    ensures var t := PeerStep(s, e, pick).state;
            match e
            case BootstrapConnected(p, a) =>
              (forall q | q != p :: AddrsOf(t.knownPeers, q) == AddrsOf(s.knownPeers, q))
              && (forall b :: b in AddrsOf(t.knownPeers, p) <==> b in AddrsOf(s.knownPeers, p) || b == a)
              && t.knownPeers.Keys == s.knownPeers.Keys + {p}
            case ConnectionLost(p, remaining) =>
              t.knownPeers == if remaining == 0 then s.knownPeers - {p} else s.knownPeers
            case PeerIdentified(p, _) =>
              (forall q | q != p :: AddrsOf(t.knownPeers, q) == AddrsOf(s.knownPeers, q))
              && t.knownPeers.Keys == s.knownPeers.Keys + {p}
            case MdnsDiscovered(found) => t.knownPeers == Discover(s.knownPeers, found)
            case MdnsExpired(gone) => t.knownPeers == Expire(s.knownPeers, gone)
            case _ => t.knownPeers == s.knownPeers
  {
    hide Announced, StoreAll, Discover, DiscoverCommands, Expire, MaybeRequestRelay;
  }

  // ----- commands -----

  lemma {:induction false} AnnouncesListed(p: PeerId, known: set<Multiaddr>, listed: seq<Multiaddr>, c: Command)
    ensures c in Announced(p, known, listed) ==>
              c.KademliaAddAddress? && c.addedPeer == p && c.addedAddr in listed && c.addedAddr.hasPublicIp
  {
    hide StoreAll;
    if listed != [] {
      var n := |listed| - 1;
      AnnouncesListed(p, known, listed[..n], c);
      assert listed == listed[..n] + [listed[n]];
    }
  }

  lemma {:induction false} AnnouncesNew(p: PeerId, known: set<Multiaddr>, listed: seq<Multiaddr>, a: Multiaddr)
    requires a.hasPublicIp && a in listed && a !in known
    ensures KademliaAddAddress(p, a) in Announced(p, known, listed)
  {
    var n := |listed| - 1;
    assert listed == listed[..n] + [listed[n]];
    if a in listed[..n] {
      AnnouncesNew(p, known, listed[..n], a);
    } else {
      OnlyListedIsStored(known, listed[..n], a);
    }
  }

  lemma {:induction false} OnlyListedIsStored(known: set<Multiaddr>, listed: seq<Multiaddr>, a: Multiaddr)
    requires a !in known && a !in listed
    ensures a !in StoreAll(known, listed)
  {
    if listed != [] {
      var n := |listed| - 1;
      assert listed == listed[..n] + [listed[n]];
      OnlyListedIsStored(known, listed[..n], a);
    }
  }

  lemma {:induction false} AnnouncesNotStored(p: PeerId, known: set<Multiaddr>, listed: seq<Multiaddr>, a: Multiaddr)
    requires a in known && forall b | b in listed && b != a :: b.publicIp != a.publicIp
    ensures KademliaAddAddress(p, a) !in Announced(p, known, listed) && a in StoreAll(known, listed)
  {
    if listed != [] {
      var n := |listed| - 1;
      assert listed == listed[..n] + [listed[n]];
      AnnouncesNotStored(p, known, listed[..n], a);
    }
  }

  /** Of the addresses an identify exchange lists, the public ones that were not stored are handed to
      Kademlia, those that were stored and not displaced are not, and nothing else is. */
  lemma IdentifyAnnounces(s: Peer, p: PeerId, listed: seq<Multiaddr>, pick: Pick, q: PeerId, a: Multiaddr)
    ensures var cs := PeerStep(s, PeerIdentified(p, listed), pick).commands; var known := AddrsOf(s.knownPeers, p);
            && (KademliaAddAddress(q, a) in cs ==> q == p && a in listed && a.hasPublicIp)
            && (a in listed && a.hasPublicIp && a !in known ==> KademliaAddAddress(p, a) in cs)
            && (a in known && (forall b | b in listed && b != a :: b.publicIp != a.publicIp) ==>
                  KademliaAddAddress(p, a) !in cs)
  {
    hide Announced, StoreAll, RelayChoice;
    var known := AddrsOf(s.knownPeers, p);
    AnnouncesListed(p, known, listed, KademliaAddAddress(q, a));
    if a in listed && a.hasPublicIp && a !in known { AnnouncesNew(p, known, listed, a); }
    if a in known && forall b | b in listed && b != a :: b.publicIp != a.publicIp {
      AnnouncesNotStored(p, known, listed, a);
    }
  }

  predicate Quiet(e: Event) {
    !(e.BootstrapConnected? || e.ConnectionLost? || e.ShutdownRequested? || e.MdnsDiscovered? || e.PeerIdentified?
      || e.NatStatusChanged? || e.RelayReservationFailed?)
  }

  /** The commands that are not about relay reservations. */
  lemma CommandsAreExact(s: Peer, e: Event, pick: Pick)
    ensures var cs := PeerStep(s, e, pick).commands;
            && (e.BootstrapConnected? ==>
                  cs == multiset{KademliaAddAddress(e.bootstrap, e.addr)}
                        + if s.phase.ShuttingDown? then multiset{} else multiset{KademliaBootstrap})
            && (e.ConnectionLost? ==>
               cs == if s.phase.Ready? && Regresses(s, e) then multiset{KademliaBootstrap} else multiset{})
            && (e.ShutdownRequested? ==> cs == multiset{Shutdown})
            && (e.MdnsDiscovered? ==> cs == DiscoverCommands(e.discovered))
            && (Quiet(e) ==> cs == multiset{})
  {
    hide Announced, StoreAll, Discover, DiscoverCommands, Expire, MaybeRequestRelay;
    if e.ConnectionLost? { NobodyElse(s.knownPeers, e.lost); }
  }

  /** When a reservation is asked for: after every change of reachability, every lost reservation and every
      identification of a bootstrap peer, by what is then stored, and at no other time. */
  lemma RequestsAreTried(s: Peer, e: Event, pick: Pick)
    ensures var o := PeerStep(s, e, pick);
            && (e.NatStatusChanged? || e.RelayReservationFailed? ==> o.commands == MaybeRequestRelay(o.state, pick))
            && (e.PeerIdentified? && e.identified in s.bootstrapPeers ==>
               MaybeRequestRelay(o.state, pick) <= o.commands)
            && forall c | c in o.commands && c.RequestRelayReservation? ::
                 e.NatStatusChanged? || e.RelayReservationFailed?
                     || (e.PeerIdentified? && e.identified in s.bootstrapPeers)
  {
    hide StoreAll, Announced, Discover, Expire, MaybeRequestRelay;
    if e.PeerIdentified? {
      var known := AddrsOf(s.knownPeers, e.identified);
      forall c | c in Announced(e.identified, known, e.listenAddrs) ensures c.KademliaAddAddress? {
        AnnouncesListed(e.identified, known, e.listenAddrs, c);
      }
    }
  }

  lemma {:induction false} DiscoveryAnnounces(found: seq<(PeerId, Multiaddr)>, p: PeerId, a: Multiaddr)
    ensures DiscoverCommands(found)[KademliaAddAddress(p, a)] == multiset(found)[(p, a)]
    ensures forall c | c in DiscoverCommands(found) :: c.KademliaAddAddress?
  {
    if found != [] {
      var n := |found| - 1;
      DiscoveryAnnounces(found[..n], p, a);
      assert found == found[..n] + [found[n]];
      DiscoverMore(found[..n], found[n]);
    }
  }

  lemma DiscoverMore(found: seq<(PeerId, Multiaddr)>, x: (PeerId, Multiaddr))
    ensures DiscoverCommands(found + [x]) == DiscoverCommands(found) + multiset{KademliaAddAddress(x.0, x.1)}
  {
    var all, some := found + [x], found;
    assert seq(|all|, i requires 0 <= i < |all| => KademliaAddAddress(all[i].0, all[i].1))
        == seq(|some|, i requires 0 <= i < |some| => KademliaAddAddress(some[i].0, some[i].1))
           + [KademliaAddAddress(x.0, x.1)];
  }

  // ----- over runs -----

  function LastNat(run: seq<AppInput>): NatStatus {
    if run == [] then Unknown
    else if run[|run| - 1].event.NatStatusChanged? then run[|run| - 1].event.status
    else LastNat(run[..|run| - 1])
  }

  /** Whether the last word about external address `a` was its confirmation. */
  predicate Confirmed(run: seq<AppInput>, a: Multiaddr) {
    run != [] &&
    var e := run[|run| - 1].event;
    if e.ExternalAddrConfirmed? && e.confirmed == a then true
    else if e.ExternalAddrExpired? && e.expiredAddr == a then false
    else Confirmed(run[..|run| - 1], a)
  }

  /** Whether the node's bootstrap stands: it succeeded since the node last lost everybody. */
  predicate Bootstrapped(a0: App, run: seq<AppInput>) {
    run != [] &&
    var n := |run| - 1;
    if run[n].event.KademliaBootstrapOk? then true
    else Bootstrapped(a0, run[..n])
         && !(AppAfter(a0, run[..n]).peer.phase.Ready? && AppAfter(a0, run).peer.phase.Joining?)
  }

  ghost predicate TellsHistory(a0: App, run: seq<AppInput>) {
    var s := AppAfter(a0, run).peer;
    && s.natStatus == LastNat(run)
    && (forall a :: a in s.externalAddrs <==> Confirmed(run, a))
    && (s.kadBootstrapped <==> Bootstrapped(a0, run))
    && (forall p :: p in s.bootstrapPeers <==>
          p in a0.peer.bootstrapPeers || ConnectedAsBootstrap(run, p))
  }

  predicate ConnectedAsBootstrap(run: seq<AppInput>, p: PeerId) {
    exists i :: 0 <= i < |run| && run[i].event.BootstrapConnected? && run[i].event.bootstrap == p
  }

  /** Over every run, reachability, external addresses, bootstrap peers and the bootstrap itself are
      functions of the events. */
  lemma {:induction false} FieldsTellHistory(a0: App, run: seq<AppInput>)
    requires a0.peer == EMPTY.(bootstrapPeers := a0.peer.bootstrapPeers)
    ensures TellsHistory(a0, run)
  {
    hide PeerStep, AppStep;
    if run != [] {
      var n := |run| - 1;
      var s, i := AppAfter(a0, run[..n]).peer, run[n];
      FieldsTellHistory(a0, run[..n]);
      PhaseOfStep(AppAfter(a0, run[..n]), i);
      FlagsAreExact(s, i.event, i.pick);
      PhaseIsExact(s, i.event, i.pick);
      forall p ensures ConnectedAsBootstrap(run, p)
                       <==> ConnectedAsBootstrap(run[..n], p)
                            || (i.event.BootstrapConnected? && i.event.bootstrap == p) {
        assert forall k | 0 <= k < n :: run[k] == run[..n][k];
      }
    }
  }

  /** The events that make a joining node ready, told from the history of events. */
  ghost predicate MakesReady(a0: App, run: seq<AppInput>, e: Event) {
    match e
    case KademliaBootstrapOk => exists a :: Confirmed(run, a)
    case ExternalAddrConfirmed(_) => Bootstrapped(a0, run)
    case DiscoveryTimeout => Bootstrapped(a0, run) && AppAfter(a0, run).peer.knownPeers != map[]
    case NoBootstrapPeers => true
    case _ => false
  }

  lemma HistoryEntersReady(a0: App, run: seq<AppInput>, e: Event)
    requires TellsHistory(a0, run)
    ensures MakesReady(a0, run, e) <==> TurnsReady(AppAfter(a0, run).peer, e)
  {
    var s := AppAfter(a0, run).peer;
    if a :| a in s.externalAddrs { assert Confirmed(run, a); }
    if a :| Confirmed(run, a) { assert a in s.externalAddrs; }
  }

  /** Over every run: a joining node becomes ready exactly when its bootstrap succeeds while it has a
      confirmed address, an address is confirmed while its bootstrap stands, the discovery time is over
      while its bootstrap stands and it knows a peer, or it learns that it has no bootstrap peers. */
  lemma ReadyExactlyWhen(a0: App, run: seq<AppInput>, i: AppInput)
    requires a0.peer == EMPTY.(bootstrapPeers := a0.peer.bootstrapPeers)
    ensures AppAfter(a0, run).peer.phase.Joining? ==>
              (AppAfter(a0, run + [i]).peer.phase.Ready? <==> MakesReady(a0, run, i.event))
  {
    hide PeerStep, AppStep, MakesReady, TellsHistory;
    FieldsTellHistory(a0, run);
    HistoryEntersReady(a0, run, i.event);
    assert (run + [i])[..|run|] == run && (run + [i])[|run|] == i;
    PhaseOfStep(AppAfter(a0, run), i);
    PhaseIsExact(AppAfter(a0, run).peer, i.event, i.pick);
  }
}
