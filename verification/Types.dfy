/** The values shared by every machine of the node: identifiers, addresses, events and commands. */
module Types {

  datatype Option<+T> = None | Some(value: T)

  const U32_MAX: nat := 0xFFFF_FFFF
  const U64_MAX: nat := 0xFFFF_FFFF_FFFF_FFFF

  /** Rust's `saturating_add(1)` on an unsigned integer whose largest value is `max`. */
  function SaturatingSucc(x: nat, max: nat): (y: nat)
    ensures x < max ==> y == x + 1
    ensures x >= max ==> y == x
  {
    if x < max then x + 1 else x
  }

  /** Nanoseconds on the monotonic clock. */
  type Time = nat

  /** A peer is identified with the rank of its printed form, which is what peers are sorted by. */
  newtype PeerId = n: int | 0 <= n

  newtype ConnectionId = n: int | 0 <= n

  datatype ServiceName = ServiceName(text: string)

  datatype HostAddr = V4(ip4: nat) | V6(ip6: nat) | Domain(name: string)

  newtype u16 = n: int | 0 <= n < 0x1_0000

  datatype ServiceAddr = ServiceAddr(host: HostAddr, port: u16)

  /** One requested tunnel: the service to reach and the local address to listen on. */
  datatype Spec = Spec(service: ServiceName, bind: ServiceAddr)

  /** A multiaddress, kept abstract: `text` is the rank of its printed form, the other
      fields are what the source's address predicates answer about it. */
  datatype Multiaddr = Multiaddr(text: nat, circuit: bool, udpQuic: bool, hasPublicIp: bool,
                                 publicIp: Option<nat>, loopback: bool)

  predicate HasCircuit(a: Multiaddr) { a.circuit }

  predicate IsDirectCandidate(a: Multiaddr) { !a.circuit && a.udpQuic && a.hasPublicIp }

  /** The flags of an address as one number: a tie-breaker that makes the text order total on all records. */
  function FlagRank(a: Multiaddr): nat {
    (if a.circuit then 1 else 0) + (if a.udpQuic then 2 else 0) + (if a.hasPublicIp then 4 else 0)
    + (if a.loopback then 8 else 0) + (if a.publicIp.Some? then 16 + 16 * a.publicIp.value else 0)
  }

  predicate TextLess(a: Multiaddr, b: Multiaddr) {
    a.text < b.text || (a.text == b.text && FlagRank(a) < FlagRank(b))
  }

  lemma FlagRankInjective(a: Multiaddr, b: Multiaddr)
    requires a.text == b.text && FlagRank(a) == FlagRank(b)
    ensures a == b
  {
  }

  /** Peers by their printed form. */
  function ByKey(): (PeerId, PeerId) -> bool { (a: PeerId, b: PeerId) => a < b }

  /** Addresses by their printed form. */
  function ByText(): (Multiaddr, Multiaddr) -> bool { (a: Multiaddr, b: Multiaddr) => TextLess(a, b) }

  datatype Phase = Joining | Ready | ShuttingDown

  datatype NatStatus = Unknown | Public | Private

  datatype Event =
    | ListeningOn
    | BootstrapConnected(bootstrap: PeerId, addr: Multiaddr)
    | ShutdownRequested
    | KademliaBootstrapOk
    | KademliaBootstrapFailed
    | MdnsDiscovered(discovered: seq<(PeerId, Multiaddr)>)
    | MdnsExpired(expired: seq<(PeerId, Multiaddr)>)
    | PeerIdentified(identified: PeerId, listenAddrs: seq<Multiaddr>)
    | NatStatusChanged(status: NatStatus)
    | DiscoveryTimeout
    | RelayReservationAccepted(acceptedBy: PeerId)
    | RelayReservationFailed(failedBy: PeerId)
    | ConnectionLost(lost: PeerId, remaining: nat)
    | NoBootstrapPeers
    | ExternalAddrConfirmed(confirmed: Multiaddr)
    | ExternalAddrExpired(expiredAddr: Multiaddr)
    | DhtPeerLookupComplete(target: PeerId, connected: bool)
    | DhtServiceResolved(resolved: ServiceName, providers: seq<(PeerId, bool)>)
    | DhtServiceFailed(failedService: ServiceName)
    | TunnelDialFailed(dialed: PeerId, pendingAbort: bool)
    | TunnelPeerConnected(connectedPeer: PeerId, relayed: bool)
    | HolePunchAttemptStarted(startedPeer: PeerId, startedAttempt: nat)
    | HolePunchFailed(punchFailedPeer: PeerId)
    | HolePunchAttemptFailed(failedPeer: PeerId, failedAttempt: nat)
    | HolePunchAttemptTimeout(timedOutPeer: PeerId, timedOutAttempt: nat)
    | PhaseChanged(oldPhase: Phase, newPhase: Phase)

  datatype Command =
    | KademliaBootstrap
    | KademliaAddAddress(addedPeer: PeerId, addedAddr: Multiaddr)
    | RequestRelayReservation(relayPeer: PeerId, relayAddr: Multiaddr)
    | Shutdown
    | PublishServices
    | DhtLookupPeer(lookup: PeerId)
    | DhtGetProviders(wanted: ServiceName)
    | DialPeer(dial: PeerId)
    | DialPeerWithAddrs(dialWith: PeerId, addrs: seq<Multiaddr>, attemptId: nat)
    | DisconnectPeer(disconnect: PeerId)
    | SpawnTunnel(to: PeerId, spec: Spec)
}
