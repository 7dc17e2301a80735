/** What `src/state/peer.rs` computes, on values: the membership half of the application state. */
module PeerModel {
  import opened Types
  import opened Ordering

  datatype Peer = Peer(
    phase: Phase,
    natStatus: NatStatus,
    relayReserved: bool,
    knownPeers: map<PeerId, set<Multiaddr>>,
    bootstrapPeers: set<PeerId>,
    kadBootstrapped: bool,
    externalAddrs: set<Multiaddr>)

  const EMPTY := Peer(Joining, Unknown, false, map[], {}, false, {})

  datatype PeerOutcome = PeerOutcome(state: Peer, commands: multiset<Command>)

  /** The orders in which hash iteration visits the known peers and the addresses of one peer. */
  datatype Pick = Pick(peers: seq<PeerId>, addrs: seq<Multiaddr>)

  function AddrsOf(m: map<PeerId, set<Multiaddr>>, p: PeerId): set<Multiaddr> { if p in m then m[p] else {} }

  lemma OrdersAreTotal()
    ensures StrictTotal(ByKey()) && StrictTotal(ByText())
  {
    forall a: Multiaddr, b: Multiaddr ensures a == b || TextLess(a, b) || TextLess(b, a) {
      if a.text == b.text && FlagRank(a) == FlagRank(b) { FlagRankInjective(a, b); }
    }
  }

  function PeersInOrder(s: Peer, pick: Pick): seq<PeerId> {
    OrdersAreTotal();
    Listing(s.knownPeers.Keys, pick.peers, ByKey())
  }

  function AddrsInOrder(addrs: set<Multiaddr>, pick: Pick): seq<Multiaddr> {
    OrdersAreTotal();
    Listing(addrs, pick.addrs, ByText())
  }

  /** `Iterator::find` */
  function Find<T>(xs: seq<T>, f: T -> bool): (found: Option<T>)
    ensures found.None? ==> forall x | x in xs :: !f(x)
    ensures found.Some? ==> found.value in xs && f(found.value)
  {
    if xs == [] then None else if f(xs[0]) then Some(xs[0]) else Find(xs[1..], f)
  }

  /** A public address, else one that is not a loopback address, else any. */
  function PreferPublicAddr(addrs: seq<Multiaddr>): Option<Multiaddr> {
    match Find(addrs, (a: Multiaddr) => a.hasPublicIp)
    case Some(a) => Some(a)
    case None =>
      match Find(addrs, (a: Multiaddr) => !a.loopback)
      case Some(a) => Some(a)
      case None => if addrs == [] then None else Some(addrs[0])
  }

  /** Only the first known bootstrap peer that iteration meets is considered. */
  function RelayChoice(s: Peer, pick: Pick): Option<(PeerId, Multiaddr)> {
    match Find(PeersInOrder(s, pick), (p: PeerId) => p in s.bootstrapPeers)
    case None => None
    case Some(p) =>
      match PreferPublicAddr(AddrsInOrder(AddrsOf(s.knownPeers, p), pick))
      case None => None
      case Some(a) => Some((p, a))
  }

  function MaybeRequestRelay(s: Peer, pick: Pick): multiset<Command> {
    if s.natStatus.Private? && !s.relayReserved && RelayChoice(s, pick).Some?
    then multiset{RequestRelayReservation(RelayChoice(s, pick).value.0, RelayChoice(s, pick).value.1)} else multiset{}
  }

  function MaybeReady(s: Peer): Peer {
    if s.phase.Joining? && s.kadBootstrapped && s.externalAddrs != {} then s.(phase := Ready) else s
  }

  // ----- stored addresses -----

  /** Drops the other addresses of the same public IP. */
  function DropStale(known: set<Multiaddr>, a: Multiaddr): set<Multiaddr> {
    if a.publicIp.None? then known else set k | k in known && (k == a || k.publicIp != a.publicIp)
  }

  function StoreAll(known: set<Multiaddr>, listed: seq<Multiaddr>): set<Multiaddr> {
    if listed == [] then known else
      var n := |listed| - 1;
      DropStale(StoreAll(known, listed[..n]), listed[n]) + {listed[n]}
  }

  /** One `KademliaAddAddress` for every public address that was not stored yet. */
  function Announced(p: PeerId, known: set<Multiaddr>, listed: seq<Multiaddr>): multiset<Command> {
    if listed == [] then multiset{} else
      var n := |listed| - 1;
      Announced(p, known, listed[..n])
      + if listed[n].hasPublicIp && listed[n] !in DropStale(StoreAll(known, listed[..n]), listed[n])
        then multiset{KademliaAddAddress(p, listed[n])} else multiset{}
  }

  function Discover(m: map<PeerId, set<Multiaddr>>, found: seq<(PeerId, Multiaddr)>): map<PeerId, set<Multiaddr>> {
    if found == [] then m else
      var n := |found| - 1;
      var m' := Discover(m, found[..n]);
      m'[found[n].0 := AddrsOf(m', found[n].0) + {found[n].1}]
  }

  function DiscoverCommands(found: seq<(PeerId, Multiaddr)>): multiset<Command> {
    multiset(seq(|found|, i requires 0 <= i < |found| => KademliaAddAddress(found[i].0, found[i].1)))
  }

  function Expire(m: map<PeerId, set<Multiaddr>>, gone: seq<(PeerId, Multiaddr)>): map<PeerId, set<Multiaddr>> {
    if gone == [] then m else
      var n := |gone| - 1;
      var m' := Expire(m, gone[..n]);
      var (p, a) := gone[n];
      if p !in m' then m'
      else if m'[p] - {a} == {} then m' - {p}
      else m'[p := m'[p] - {a}]
  }

  // ----- one transition -----

  function AllLost(s: Peer, p: PeerId): PeerOutcome {
    var s1 := s.(knownPeers := s.knownPeers - {p}, relayReserved := s.relayReserved && p !in s.bootstrapPeers);
    if s.phase.Ready? && s1.knownPeers == map[] && s.bootstrapPeers != {}
    then PeerOutcome(s1.(phase := Joining, kadBootstrapped := false), multiset{KademliaBootstrap})
    else PeerOutcome(s1, multiset{})
  }

  function PeerStep(s: Peer, e: Event, pick: Pick): PeerOutcome {
    match e
    case BootstrapConnected(p, a) =>
      PeerOutcome(s.(bootstrapPeers := s.bootstrapPeers + {p},
                     knownPeers := s.knownPeers[p := AddrsOf(s.knownPeers, p) + {a}]),
                  multiset{KademliaAddAddress(p, a)}
                  + if s.phase.ShuttingDown? then multiset{} else multiset{KademliaBootstrap})
    case KademliaBootstrapOk => PeerOutcome(MaybeReady(s.(kadBootstrapped := true)), multiset{})
    case NatStatusChanged(status) =>
      var s1 := s.(natStatus := status, relayReserved := s.relayReserved && !status.Public?);
      PeerOutcome(s1, MaybeRequestRelay(s1, pick))
    case DiscoveryTimeout =>
      PeerOutcome(if s.phase.Joining? && s.kadBootstrapped && s.knownPeers != map[] then s.(phase := Ready) else s,
                  multiset{})
    case MdnsDiscovered(found) => PeerOutcome(s.(knownPeers := Discover(s.knownPeers, found)), DiscoverCommands(found))
    case MdnsExpired(gone) => PeerOutcome(s.(knownPeers := Expire(s.knownPeers, gone)), multiset{})
    case PeerIdentified(p, listed) =>
      var known := AddrsOf(s.knownPeers, p);
      var s1 := s.(knownPeers := s.knownPeers[p := StoreAll(known, listed)]);
      PeerOutcome(s1, Announced(p, known, listed)
                      + if p in s.bootstrapPeers then MaybeRequestRelay(s1, pick) else multiset{})
    case RelayReservationAccepted(_) => PeerOutcome(s.(relayReserved := true), multiset{})
    case RelayReservationFailed(_) =>
      var s1 := s.(relayReserved := false);
      PeerOutcome(s1, MaybeRequestRelay(s1, pick))
    case NoBootstrapPeers => PeerOutcome(if s.phase.Joining? then s.(phase := Ready) else s, multiset{})
    case ExternalAddrConfirmed(a) => PeerOutcome(MaybeReady(s.(externalAddrs := s.externalAddrs + {a})), multiset{})
    case ExternalAddrExpired(a) => PeerOutcome(s.(externalAddrs := s.externalAddrs - {a}), multiset{})
    case ShutdownRequested => PeerOutcome(s.(phase := ShuttingDown), multiset{Shutdown})
    case ConnectionLost(p, remaining) => if remaining == 0 then AllLost(s, p) else PeerOutcome(s, multiset{})
    case _ => PeerOutcome(s, multiset{})
  }

  // ----- discovery on the local network -----

  /** Exactly the discovered pairs are added. */
  lemma {:induction false} DiscoveredExactly(m: map<PeerId, set<Multiaddr>>, found: seq<(PeerId, Multiaddr)>, p: PeerId,
                                             a: Multiaddr)
    ensures a in AddrsOf(Discover(m, found), p) <==> a in AddrsOf(m, p) || (p, a) in found
  {
    if found != [] {
      var n := |found| - 1;
      DiscoveredExactly(m, found[..n], p, a);
      assert found == found[..n] + [found[n]];
    }
  }

  /** Exactly the expired pairs are removed, and a peer disappears once nothing is stored for it. */
  lemma {:induction false} ExpiredExactly(m: map<PeerId, set<Multiaddr>>, gone: seq<(PeerId, Multiaddr)>, p: PeerId,
                                          a: Multiaddr)
    ensures a in AddrsOf(Expire(m, gone), p) <==> a in AddrsOf(m, p) && (p, a) !in gone
    ensures p in Expire(m, gone) ==> p in m && (Expire(m, gone)[p] == m[p] || Expire(m, gone)[p] != {})
    ensures p in m && p !in Expire(m, gone) ==> exists g :: g in gone && g.0 == p
  {
    if gone != [] {
      var n := |gone| - 1;
      ExpiredExactly(m, gone[..n], p, a);
      assert gone == gone[..n] + [gone[n]];
      var stored := AddrsOf(Expire(m, gone[..n]), p);
      assert a in stored && (p, a) != gone[n] ==> gone[n].0 != p || a in stored - {gone[n].1};
    }
  }

  // ----- relay requests -----

  /** What the preference means, whatever the order: nothing only from nothing, a public address if
      there is one, and a loopback address only if there is nothing else. */
  lemma PreferenceIsKept(addrs: set<Multiaddr>, pick: Pick)
    ensures var choice := PreferPublicAddr(AddrsInOrder(addrs, pick));
            && (choice.None? <==> addrs == {})
            && (choice.Some? ==>
                  var a := choice.value;
                  && a in addrs
                  && ((exists b :: b in addrs && b.hasPublicIp) ==> a.hasPublicIp)
                  && (!a.hasPublicIp && a.loopback ==> forall b | b in addrs :: b.loopback))
  {
    OrdersAreTotal();
    ListingEnumerates(addrs, pick.addrs, ByText());
    hide Listing, StrictTotal;
    var xs := AddrsInOrder(addrs, pick);
    assert xs != [] ==> xs[0] in xs;
  }

  /** `p` is the known bootstrap peer that the iteration meets first. */
  ghost predicate MetFirst(s: Peer, pick: Pick, p: PeerId) {
    exists i :: 0 <= i < |PeersInOrder(s, pick)| && PeersInOrder(s, pick)[i] == p && p in s.bootstrapPeers
                && forall j | 0 <= j < i :: PeersInOrder(s, pick)[j] !in s.bootstrapPeers
  }

  lemma {:induction false} FindIsFirst<T(!new)>(xs: seq<T>, f: T -> bool) returns (i: nat)
    requires Find(xs, f).Some?
    ensures i < |xs| && xs[i] == Find(xs, f).value && forall j | 0 <= j < i :: !f(xs[j])
  {
    if f(xs[0]) {
      i := 0;
    } else {
      i := FindIsFirst(xs[1..], f);
      assert forall j | 0 < j < i + 1 :: xs[j] == xs[1..][j - 1];
      i := i + 1;
    }
  }

  /** A reservation is requested exactly when the node is private and has none, and the bootstrap
      peer met first has an address stored; it is requested there, at a preferred address. */
  lemma RelayRequestExact(s: Peer, pick: Pick)
    ensures MaybeRequestRelay(s, pick) != multiset{}
            <==> s.natStatus.Private? && !s.relayReserved
                 && exists p :: MetFirst(s, pick, p) && AddrsOf(s.knownPeers, p) != {}
    ensures forall c | c in MaybeRequestRelay(s, pick) ::
              && c.RequestRelayReservation? && MetFirst(s, pick, c.relayPeer)
              && var stored := AddrsOf(s.knownPeers, c.relayPeer);
              && c.relayAddr in stored
              && ((exists b :: b in stored && b.hasPublicIp) ==> c.relayAddr.hasPublicIp)
              && (!c.relayAddr.hasPublicIp && c.relayAddr.loopback ==> forall b | b in stored :: b.loopback)
  {
    hide PeersInOrder, AddrsInOrder, PreferPublicAddr, Find;
    var xs := PeersInOrder(s, pick);
    var f := (p: PeerId) => p in s.bootstrapPeers;
    if Find(xs, f).Some? {
      var i := FindIsFirst(xs, f);
      assert MetFirst(s, pick, xs[i]);
      PreferenceIsKept(AddrsOf(s.knownPeers, xs[i]), pick);
      forall p | MetFirst(s, pick, p) ensures p == xs[i] { MetFirstIsOne(s, pick, p, xs[i]); }
    } else {
      NothingFound(xs, f);
    }
  }

  lemma {:induction false} NothingFound<T(!new)>(xs: seq<T>, f: T -> bool)
    requires Find(xs, f).None?
    ensures forall i | 0 <= i < |xs| :: !f(xs[i])
  {
    if xs != [] {
      NothingFound(xs[1..], f);
      assert forall i | 0 < i < |xs| :: xs[i] == xs[1..][i - 1];
    }
  }

  lemma MetFirstIsOne(s: Peer, pick: Pick, p: PeerId, q: PeerId)
    requires MetFirst(s, pick, p) && MetFirst(s, pick, q)
    ensures p == q
  {
  }

  /** The known bootstrap peers. */
  predicate KnownBootstrap(s: Peer, p: PeerId) { p in s.knownPeers && p in s.bootstrapPeers }

  /** Any of the known bootstrap peers may be the one met first. */
  lemma AnyoneMayBeFirst(s: Peer, p: PeerId)
    requires KnownBootstrap(s, p)
    ensures MetFirst(s, Pick([p], []), p)
  {
    OrdersAreTotal();
    var xs := PeersInOrder(s, Pick([p], []));
    assert [p][..0] == [];
    assert Named([p], s.knownPeers.Keys) == [p];
    assert xs[0] == p;
  }

  lemma SomeoneIsFirst(s: Peer, pick: Pick)
    requires exists p :: KnownBootstrap(s, p)
    ensures exists p :: MetFirst(s, pick, p) && KnownBootstrap(s, p)
  {
    OrdersAreTotal();
    ListingEnumerates(s.knownPeers.Keys, pick.peers, ByKey());
    hide Listing, Find;
    var xs := PeersInOrder(s, pick);
    var f := (p: PeerId) => p in s.bootstrapPeers;
    var p :| KnownBootstrap(s, p);
    assert p in xs;
    if Find(xs, f).None? {
      NothingFound(xs, f);
    } else {
      var i := FindIsFirst(xs, f);
      assert MetFirst(s, pick, xs[i]) && xs[i] in xs;
    }
  }

  /** A private node without a reservation is sure to request one, whatever the iteration order, if and
      only if it knows a bootstrap peer and every bootstrap peer it knows has an address stored. */
  lemma RequestIsSure(s: Peer)
    requires s.natStatus.Private? && !s.relayReserved
    ensures (forall pick :: MaybeRequestRelay(s, pick) != multiset{})
            <==> (exists p :: KnownBootstrap(s, p)) && forall p | KnownBootstrap(s, p) :: AddrsOf(s.knownPeers, p) != {}
  {
    hide MaybeRequestRelay, MetFirst;
    forall pick ensures MaybeRequestRelay(s, pick) != multiset{}
                        <==> exists p :: MetFirst(s, pick, p) && AddrsOf(s.knownPeers, p) != {} {
      RelayRequestExact(s, pick);
    }
    if forall pick :: MaybeRequestRelay(s, pick) != multiset{} {
      assert MaybeRequestRelay(s, Pick([], [])) != multiset{};
      var q :| MetFirst(s, Pick([], []), q) && AddrsOf(s.knownPeers, q) != {};
      assert KnownBootstrap(s, q) by { FirstIsKnown(s, Pick([], []), q); }
      forall p | KnownBootstrap(s, p) ensures AddrsOf(s.knownPeers, p) != {} {
        AnyoneMayBeFirst(s, p);
        assert MaybeRequestRelay(s, Pick([p], [])) != multiset{};
        var r :| MetFirst(s, Pick([p], []), r) && AddrsOf(s.knownPeers, r) != {};
        MetFirstIsOne(s, Pick([p], []), p, r);
      }
    }
    if exists p :: KnownBootstrap(s, p) {
      if forall p | KnownBootstrap(s, p) :: AddrsOf(s.knownPeers, p) != {} {
        forall pick ensures MaybeRequestRelay(s, pick) != multiset{} {
          SomeoneIsFirst(s, pick);
          var p :| MetFirst(s, pick, p) && KnownBootstrap(s, p);
        }
      }
    }
  }

  lemma FirstIsKnown(s: Peer, pick: Pick, p: PeerId)
    requires MetFirst(s, pick, p)
    ensures KnownBootstrap(s, p)
  {
    OrdersAreTotal();
    ListingEnumerates(s.knownPeers.Keys, pick.peers, ByKey());
    hide Listing;
    assert p in PeersInOrder(s, pick);
  }

  /** An input for which the request is missed although an address of a bootstrap peer is stored: of
      two bootstrap peers one is identified without addresses, and iteration meets it first. The other
      order requests the reservation. */
  lemma RequestIsMissed(empty: PeerId, other: PeerId, a: Multiaddr)
    requires empty != other
    ensures var s0 := EMPTY.(bootstrapPeers := {empty, other});
            var s1 := PeerStep(s0, BootstrapConnected(other, a), Pick([], [])).state;
            var s2 := PeerStep(s1, PeerIdentified(empty, []), Pick([], [])).state;
            && AddrsOf(s2.knownPeers, other) == {a}
            && PeerStep(s2, NatStatusChanged(Private), Pick([empty, other], [])).commands == multiset{}
            && PeerStep(s2, NatStatusChanged(Private), Pick([other, empty], [])).commands
               == multiset{RequestRelayReservation(other, a)}
  {
    var s0 := EMPTY.(bootstrapPeers := {empty, other});
    var s1 := PeerStep(s0, BootstrapConnected(other, a), Pick([], [])).state;
    var s2 := PeerStep(s1, PeerIdentified(empty, []), Pick([], [])).state;
    var s := s2.(natStatus := Private);
    TwoKnown(empty, other, a);
    hide RelayChoice, PeerStep;
    EmptyHasNoChoice(s, empty, other);
    OnlyChoice(s, other, empty, a);
    PrivateRequests(s2, Pick([empty, other], []));
    PrivateRequests(s2, Pick([other, empty], []));
  }

  lemma TwoKnown(empty: PeerId, other: PeerId, a: Multiaddr)
    requires empty != other
    ensures var s0 := EMPTY.(bootstrapPeers := {empty, other});
            var s1 := PeerStep(s0, BootstrapConnected(other, a), Pick([], [])).state;
            var s2 := PeerStep(s1, PeerIdentified(empty, []), Pick([], [])).state;
            && s2.knownPeers == map[other := {a}, empty := {}] && s2.bootstrapPeers == {empty, other}
            && !s2.relayReserved
  {
    hide MaybeRequestRelay, Announced;
    var s0 := EMPTY.(bootstrapPeers := {empty, other});
    var s1 := PeerStep(s0, BootstrapConnected(other, a), Pick([], [])).state;
    assert s0.knownPeers == map[] && AddrsOf(s0.knownPeers, other) == {};
    assert {} + {a} == {a};
    assert s1.knownPeers == s0.knownPeers[other := AddrsOf(s0.knownPeers, other) + {a}];
    assert s1.knownPeers == map[other := {a}];
    assert StoreAll({}, []) == {};
  }

  lemma PrivateRequests(s: Peer, pick: Pick)
    ensures PeerStep(s, NatStatusChanged(Private), pick).commands
            == MaybeRequestRelay(s.(natStatus := Private), pick)
  {
    hide RelayChoice;
  }

  lemma FirstOfTwo(s: Peer, p: PeerId, q: PeerId)
    requires p != q && s.knownPeers.Keys == {p, q} && p in s.bootstrapPeers
    ensures Find(PeersInOrder(s, Pick([p, q], [])), (x: PeerId) => x in s.bootstrapPeers) == Some(p)
  {
    OrdersAreTotal();
    ListingEnumerates(s.knownPeers.Keys, [p, q], ByKey());
    assert Enumerates([p, q], s.knownPeers.Keys);
  }

  lemma EmptyHasNoChoice(s: Peer, p: PeerId, q: PeerId)
    requires p != q && s.knownPeers.Keys == {p, q} && p in s.bootstrapPeers && s.knownPeers[p] == {}
    ensures RelayChoice(s, Pick([p, q], [])) == None
  {
    hide PreferPublicAddr, PeersInOrder, AddrsInOrder, Find;
    FirstOfTwo(s, p, q);
    PreferenceIsKept({}, Pick([p, q], []));
  }

  lemma OnlyChoice(s: Peer, p: PeerId, q: PeerId, a: Multiaddr)
    requires p != q && s.knownPeers.Keys == {p, q} && p in s.bootstrapPeers && s.knownPeers[p] == {a}
    ensures RelayChoice(s, Pick([p, q], [])) == Some((p, a))
  {
    hide PreferPublicAddr, PeersInOrder, AddrsInOrder, Find;
    FirstOfTwo(s, p, q);
    PreferenceIsKept({a}, Pick([p, q], []));
  }

  // ----- what an identify exchange leaves stored -----

  /** The last listed address with public IP `ip`. */
  function LastWith(listed: seq<Multiaddr>, ip: nat): Option<Multiaddr> {
    if listed == [] then None
    else if listed[|listed| - 1].publicIp == Some(ip) then Some(listed[|listed| - 1])
    else LastWith(listed[..|listed| - 1], ip)
  }

  /** An address without public IP is stored iff it was stored or listed; for a public IP that the
      list mentions, exactly the last listed address is stored; for any other public IP, exactly
      what was stored before. */
  lemma {:induction false} StoredExactly(known: set<Multiaddr>, listed: seq<Multiaddr>, a: Multiaddr)
    ensures a in StoreAll(known, listed) <==>
            match a.publicIp
            case None => a in known || a in listed
            case Some(ip) => if LastWith(listed, ip) == None then a in known else LastWith(listed, ip) == Some(a)
  {
    if listed != [] {
      var n := |listed| - 1;
      StoredExactly(known, listed[..n], a);
      assert listed == listed[..n] + [listed[n]];
    }
  }

  lemma {:induction false} LastWithIsListed(listed: seq<Multiaddr>, ip: nat)
    ensures LastWith(listed, ip) == None <==> forall a | a in listed :: a.publicIp != Some(ip)
    ensures LastWith(listed, ip).Some? ==>
            LastWith(listed, ip).value in listed && LastWith(listed, ip).value.publicIp == Some(ip)
  {
    if listed != [] {
      var n := |listed| - 1;
      LastWithIsListed(listed[..n], ip);
      assert listed == listed[..n] + [listed[n]];
    }
  }

  /** After an identify exchange, a listed public IP has exactly one stored address, the last one
      listed with it, while stored addresses of other or no public IP survive. */
  lemma OneAddressPerListedIp(s: Peer, p: PeerId, listed: seq<Multiaddr>, pick: Pick, ip: nat)
    ensures var before := AddrsOf(s.knownPeers, p);
            var after := AddrsOf(PeerStep(s, PeerIdentified(p, listed), pick).state.knownPeers, p);
            && ((exists a :: a in listed && a.publicIp == Some(ip)) ==>
                  LastWith(listed, ip).Some?
                  && forall a :: a in after && a.publicIp == Some(ip) <==> a == LastWith(listed, ip).value)
            && (forall a | a in before
               && (a.publicIp.None? || LastWith(listed, a.publicIp.value) == None) :: a in after)
            && (forall a | a in after :: a in before || a in listed)
  {
    hide Announced, MaybeRequestRelay, StoreAll, LastWith;
    var before := AddrsOf(s.knownPeers, p);
    assert AddrsOf(PeerStep(s, PeerIdentified(p, listed), pick).state.knownPeers, p) == StoreAll(before, listed);
    LastWithIsListed(listed, ip);
    forall a ensures a in StoreAll(before, listed) <==>
                     match a.publicIp
                     case None => a in before || a in listed
                     case Some(i) => if LastWith(listed, i) == None then a in before
                         else LastWith(listed, i) == Some(a) {
      StoredExactly(before, listed, a);
    }
    forall i: nat ensures LastWith(listed, i).Some? ==> LastWith(listed, i).value in listed {
      LastWithIsListed(listed, i);
    }
  }
}
