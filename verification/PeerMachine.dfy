/** The membership machine as `src/state/peer.rs` has it, updated in place. Every method is proved
    against the operation of the same name in `PeerModel`. */
module PeerMachine {
  import opened Types
  import opened PeerModel

  lemma SnocCommands(found: seq<(PeerId, Multiaddr)>, x: (PeerId, Multiaddr))
    ensures DiscoverCommands(found + [x]) == DiscoverCommands(found) + multiset{KademliaAddAddress(x.0, x.1)}
  {
    var f := (xs: seq<(PeerId, Multiaddr)>) =>
        seq(|xs|, i requires 0 <= i < |xs| => KademliaAddAddress(xs[i].0, xs[i].1));
    assert f(found + [x]) == f(found) + [KademliaAddAddress(x.0, x.1)];
  }

  class PeerState {
    var phase: Phase
    var natStatus: NatStatus
    var relayReserved: bool
    var knownPeers: map<PeerId, set<Multiaddr>>
    var bootstrapPeers: set<PeerId>
    var kadBootstrapped: bool
    var externalAddrs: set<Multiaddr>

    function View(): Peer
      reads this
    {
      Peer(phase, natStatus, relayReserved, knownPeers, bootstrapPeers, kadBootstrapped, externalAddrs)
    }

    constructor ()
      ensures View() == EMPTY
    {
      phase, natStatus, relayReserved := Joining, Unknown, false;
      knownPeers, bootstrapPeers, kadBootstrapped, externalAddrs := map[], {}, false, {};
    }

    /** `Iterator::find` over a listing. */
    static method FindFirst<T>(xs: seq<T>, f: T -> bool) returns (found: Option<T>)
      ensures found == Find(xs, f)
    {
      var i := 0;
      while i < |xs| && !f(xs[i])
        invariant 0 <= i <= |xs|
        invariant Find(xs, f) == Find(xs[i..], f)
      {
        assert xs[i..][1..] == xs[i + 1..];
        i := i + 1;
      }
      found := if i < |xs| then Some(xs[i]) else None;
    }

    /** The three searches of `prefer_public_addr`, over the addresses in iteration order. */
    static method PreferPublicAddr(addrs: seq<Multiaddr>) returns (choice: Option<Multiaddr>)
      ensures choice == PeerModel.PreferPublicAddr(addrs)
    {
      choice := FindFirst(addrs, (a: Multiaddr) => a.hasPublicIp);
      if choice.None? { choice := FindFirst(addrs, (a: Multiaddr) => !a.loopback); }
      if choice.None? && addrs != [] { choice := Some(addrs[0]); }
    }

    /** Asks for a relay reservation at the first known bootstrap peer; `pick` says in which order the
        hash map and the hash set are iterated. */
    method MaybeRequestRelay(pick: Pick) returns (commands: seq<Command>)
      ensures multiset(commands) == PeerModel.MaybeRequestRelay(View(), pick)
    {
      hide Find, PeersInOrder, AddrsInOrder, PeerModel.PreferPublicAddr;
      commands := [];
      if !natStatus.Private? || relayReserved { return; }
      var bootstraps := bootstrapPeers;
      var p := FindFirst(PeersInOrder(View(), pick), (p: PeerId) => p in bootstraps);
      if p.Some? {
        var a := PreferPublicAddr(AddrsInOrder(AddrsOf(knownPeers, p.value), pick));
        if a.Some? { commands := [RequestRelayReservation(p.value, a.value)]; }
      }
    }

    method MaybeBecomeReady()
      modifies this`phase
      ensures View() == MaybeReady(old(View()))
    {
      if phase.Joining? && kadBootstrapped && externalAddrs != {} {
        phase := Ready;
      }
    }

    /** Drops the other stored addresses of the public IP of `addr`. */
    static method ReplaceStalePublicAddrForIp(entry: set<Multiaddr>, addr: Multiaddr) returns (kept: set<Multiaddr>)
      ensures kept == DropStale(entry, addr)
    {
      kept := entry;
      if addr.publicIp.None? { return; }
      var unvisited := entry;
      while unvisited != {}
        invariant unvisited <= entry
        invariant kept == set k | k in entry && (k in unvisited || k == addr || k.publicIp != addr.publicIp)
        decreases |unvisited|
      {
        var known :| known in unvisited;
        unvisited := unvisited - {known};
        if known != addr && known.publicIp == addr.publicIp {
          kept := kept - {known};
        }
      }
    }

    method OnDiscovered(found: seq<(PeerId, Multiaddr)>) returns (commands: seq<Command>)
      modifies this`knownPeers
      ensures knownPeers == Discover(old(knownPeers), found)
      ensures multiset(commands) == DiscoverCommands(found)
    {
      commands := [];
      ghost var was := knownPeers;
      for i := 0 to |found|
        invariant knownPeers == Discover(was, found[..i])
        invariant multiset(commands) == DiscoverCommands(found[..i])
      {
        var (peer, addr) := found[i];
        assert found[..i + 1] == found[..i] + [found[i]];
        SnocCommands(found[..i], found[i]);
        knownPeers := knownPeers[peer := AddrsOf(knownPeers, peer) + {addr}];
        commands := commands + [KademliaAddAddress(peer, addr)];
      }
      assert found[..|found|] == found;
    }

    method OnExpired(gone: seq<(PeerId, Multiaddr)>)
      modifies this`knownPeers
      ensures knownPeers == Expire(old(knownPeers), gone)
    {
      ghost var was := knownPeers;
      for i := 0 to |gone|
        invariant knownPeers == Expire(was, gone[..i])
      {
        var (peer, addr) := gone[i];
        assert gone[..i + 1][..i] == gone[..i];
        if peer in knownPeers {
          var left := knownPeers[peer] - {addr};
          knownPeers := if left == {} then knownPeers - {peer} else knownPeers[peer := left];
        }
      }
      assert gone[..|gone|] == gone;
    }

    method StoreListed(peer: PeerId, listed: seq<Multiaddr>) returns (commands: seq<Command>)
      modifies this`knownPeers
      ensures knownPeers == old(knownPeers)[peer := StoreAll(AddrsOf(old(knownPeers), peer), listed)]
      ensures multiset(commands) == Announced(peer, AddrsOf(old(knownPeers), peer), listed)
    {
      commands := [];
      var entry := AddrsOf(knownPeers, peer);
      ghost var was := entry;
      for i := 0 to |listed|
        invariant knownPeers == old(knownPeers) && entry == StoreAll(was, listed[..i])
        invariant multiset(commands) == Announced(peer, was, listed[..i])
      {
        var addr := listed[i];
        assert listed[..i + 1][..i] == listed[..i];
        entry := ReplaceStalePublicAddrForIp(entry, addr);
        if addr !in entry && addr.hasPublicIp {
          commands := commands + [KademliaAddAddress(peer, addr)];
        }
        entry := entry + {addr};
      }
      assert listed[..|listed|] == listed;
      knownPeers := knownPeers[peer := entry];
    }

    method OnAllLost(peer: PeerId) returns (commands: seq<Command>)
      modifies this
      ensures PeerOutcome(View(), multiset(commands)) == AllLost(old(View()), peer)
    {
      commands := [];
      knownPeers := knownPeers - {peer};
      if peer in bootstrapPeers { relayReserved := false; }
      if phase.Ready? && knownPeers == map[] && bootstrapPeers != {} {
        phase, kadBootstrapped := Joining, false;
        commands := [KademliaBootstrap];
      }
    }

    method OnIdentified(peer: PeerId, listed: seq<Multiaddr>, pick: Pick) returns (commands: seq<Command>)
      modifies this`knownPeers
      ensures PeerOutcome(View(), multiset(commands)) == PeerStep(old(View()), PeerIdentified(peer, listed), pick)
    {
      hide PeerModel.MaybeRequestRelay, Announced, StoreAll;
      commands := StoreListed(peer, listed);
      if peer in bootstrapPeers {
        var request := MaybeRequestRelay(pick);
        commands := commands + request;
      }
    }

    method OnNatStatus(status: NatStatus, pick: Pick) returns (commands: seq<Command>)
      modifies this`natStatus, this`relayReserved
      ensures PeerOutcome(View(), multiset(commands)) == PeerStep(old(View()), NatStatusChanged(status), pick)
    {
      commands := [];
      natStatus := status;
      if status.Private? && !relayReserved {
        commands := MaybeRequestRelay(pick);
      } else if status.Public? && relayReserved {
        relayReserved := false;
      }
    }

    method OnBootstrapConnected(peer: PeerId, addr: Multiaddr, ghost pick: Pick) returns (commands: seq<Command>)
      modifies this`bootstrapPeers, this`knownPeers
      ensures PeerOutcome(View(), multiset(commands)) == PeerStep(old(View()), BootstrapConnected(peer, addr), pick)
    {
      bootstrapPeers := bootstrapPeers + {peer};
      knownPeers := knownPeers[peer := AddrsOf(knownPeers, peer) + {addr}];
      commands := [KademliaAddAddress(peer, addr)];
      if !phase.ShuttingDown? { commands := commands + [KademliaBootstrap]; }
    }

    /** The arms that can make the node ready. */
    method OnReadiness(event: Event, ghost pick: Pick)
      requires event.KademliaBootstrapOk? || event.DiscoveryTimeout? || event.NoBootstrapPeers?
               || event.ExternalAddrConfirmed?
      modifies this
      ensures PeerOutcome(View(), multiset{}) == PeerStep(old(View()), event, pick)
    {
      match event {
        case KademliaBootstrapOk =>
          kadBootstrapped := true;
          MaybeBecomeReady();
        case DiscoveryTimeout =>
          if phase.Joining? && kadBootstrapped && knownPeers != map[] { phase := Ready; }
        case NoBootstrapPeers => if phase.Joining? { phase := Ready; }
        case ExternalAddrConfirmed(addr) =>
          externalAddrs := externalAddrs + {addr};
          MaybeBecomeReady();
      }
    }

    /** The arms about the peers that are known. */
    method OnMembership(event: Event, pick: Pick) returns (commands: seq<Command>)
      requires event.BootstrapConnected? || event.MdnsDiscovered? || event.MdnsExpired? || event.PeerIdentified?
      modifies this
      ensures PeerOutcome(View(), multiset(commands)) == PeerStep(old(View()), event, pick)
    {
      commands := [];
      if event.BootstrapConnected? {
        hide PeerStep;
        commands := OnBootstrapConnected(event.bootstrap, event.addr, pick);
      } else if event.PeerIdentified? {
        hide PeerStep;
        commands := OnIdentified(event.identified, event.listenAddrs, pick);
      } else if event.MdnsDiscovered? {
        hide Discover, DiscoverCommands;
        commands := OnDiscovered(event.discovered);
      } else {
        hide Expire;
        OnExpired(event.expired);
      }
    }

    /** The arms about relay reservations and reachability. */
    method OnRelay(event: Event, pick: Pick) returns (commands: seq<Command>)
      requires event.NatStatusChanged? || event.RelayReservationAccepted? || event.RelayReservationFailed?
      modifies this
      ensures PeerOutcome(View(), multiset(commands)) == PeerStep(old(View()), event, pick)
    {
      hide PeerModel.MaybeRequestRelay;
      commands := [];
      if event.NatStatusChanged? {
        hide PeerStep;
        commands := OnNatStatus(event.status, pick);
      } else {
        relayReserved := event.RelayReservationAccepted?;
        if !relayReserved { commands := MaybeRequestRelay(pick); }
      }
    }

    /** The arms about losing what was there. */
    method OnLoss(event: Event, ghost pick: Pick) returns (commands: seq<Command>)
      requires event.ExternalAddrExpired? || event.ShutdownRequested? || event.ConnectionLost?
      modifies this
      ensures PeerOutcome(View(), multiset(commands)) == PeerStep(old(View()), event, pick)
    {
      hide AllLost;
      commands := [];
      match event {
        case ExternalAddrExpired(addr) => externalAddrs := externalAddrs - {addr};
        case ShutdownRequested =>
          phase := ShuttingDown;
          commands := [Shutdown];
        case ConnectionLost(peer, remaining) => if remaining == 0 { commands := OnAllLost(peer); }
      }
    }

    /** `MealyMachine::transition` */
    method Transition(event: Event, pick: Pick) returns (commands: seq<Command>)
      modifies this
      ensures PeerOutcome(View(), multiset(commands)) == PeerStep(old(View()), event, pick)
    {
      NothingMoves(View(), event, pick);
      hide PeerStep;
      commands := [];
      match event {
        case BootstrapConnected(_, _) => commands := OnMembership(event, pick);
        case MdnsDiscovered(_) => commands := OnMembership(event, pick);
        case MdnsExpired(_) => commands := OnMembership(event, pick);
        case PeerIdentified(_, _) => commands := OnMembership(event, pick);
        case NatStatusChanged(_) => commands := OnRelay(event, pick);
        case RelayReservationAccepted(_) => commands := OnRelay(event, pick);
        case RelayReservationFailed(_) => commands := OnRelay(event, pick);
        case KademliaBootstrapOk => OnReadiness(event, pick);
        case DiscoveryTimeout => OnReadiness(event, pick);
        case NoBootstrapPeers => OnReadiness(event, pick);
        case ExternalAddrConfirmed(_) => OnReadiness(event, pick);
        case ExternalAddrExpired(_) => commands := OnLoss(event, pick);
        case ShutdownRequested => commands := OnLoss(event, pick);
        case ConnectionLost(_, _) => commands := OnLoss(event, pick);
        case _ =>
      }
    }
  }

  /** The events this machine does not handle. */
  lemma NothingMoves(s: Peer, e: Event, pick: Pick)
    ensures e.ListeningOn? || e.KademliaBootstrapFailed? || e.HolePunchFailed? || e.HolePunchAttemptStarted?
            || e.HolePunchAttemptFailed? || e.HolePunchAttemptTimeout? || e.DhtPeerLookupComplete?
                || e.DhtServiceResolved?
            || e.DhtServiceFailed? || e.TunnelDialFailed? || e.TunnelPeerConnected? || e.PhaseChanged? ==>
              PeerStep(s, e, pick) == PeerOutcome(s, multiset{})
  {
  }
}
