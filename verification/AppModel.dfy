/** What `src/state/app.rs` computes: the two machines side by side, bridged by phase changes. */
module AppModel {
  import opened Types
  import opened Collections
  import PeerModel
  import TunnelModel

  datatype App = App(peer: PeerModel.Peer, tunnel: TunnelModel.Tunnel)

  /** Every command of the peer machine precedes every command of the tunnel machine. */
  datatype AppOutcome = AppOutcome(app: App, peerCommands: multiset<Command>, tunnelCommands: multiset<Command>)

  datatype AppInput = AppInput(event: Event, now: Time, pick: PeerModel.Pick)

  function Bridge(before: Phase, after: Phase): Option<Event> {
    if before == after then None else Some(PhaseChanged(before, after))
  }

  function AppStep(a: App, i: AppInput): AppOutcome {
    var o := PeerModel.PeerStep(a.peer, i.event, i.pick);
    match Bridge(a.peer.phase, o.state.phase)
    case None =>
      var t := TunnelModel.Step(a.tunnel, i.event, i.now);
      AppOutcome(App(o.state, t.state), o.commands, t.commands)
    case Some(bridge) =>
      var t1 := TunnelModel.Step(a.tunnel, bridge, i.now);
      var t2 := TunnelModel.Step(t1.state, i.event, i.now);
      AppOutcome(App(o.state, t2.state), o.commands, t1.commands + t2.commands)
  }

  function AppAfter(a0: App, run: seq<AppInput>): App {
    if run == [] then a0 else AppStep(AppAfter(a0, run[..|run| - 1]), run[|run| - 1]).app
  }

  predicate NotInjected(run: seq<AppInput>) {
    forall i | 0 <= i < |run| :: !run[i].event.PhaseChanged?
  }

  // ----- the bridge -----

  /** The events that can change the phase of the peer machine. */
  predicate MovesPhase(e: Event) {
    e.KademliaBootstrapOk? || e.DiscoveryTimeout? || e.NoBootstrapPeers? || e.ExternalAddrConfirmed?
    || e.ShutdownRequested? || (e.ConnectionLost? && e.remaining == 0)
  }

  lemma PhaseMoves(s: PeerModel.Peer, e: Event, pick: PeerModel.Pick)
    ensures var after := PeerModel.PeerStep(s, e, pick).state.phase;
            && (after != s.phase ==> MovesPhase(e))
            && (after.Ready? && !s.phase.Ready? ==> !e.ConnectionLost? && s.phase.Joining?)
            && (s.phase.ShuttingDown? ==> after.ShuttingDown?)
            && (after.ShuttingDown? && !s.phase.ShuttingDown? ==> e.ShutdownRequested?)
  {
    hide PeerModel.StoreAll, PeerModel.Announced, PeerModel.MaybeRequestRelay, PeerModel.Discover, PeerModel.Expire,
         PeerModel.DiscoverCommands;
  }

  lemma OnlyLossMovesTunnel(t: TunnelModel.Tunnel, e: Event, now: Time)
    requires MovesPhase(e) && !e.ConnectionLost?
    ensures TunnelModel.Step(t, e, now) == TunnelModel.Outcome(t, multiset{})
  {
  }

  lemma BridgeOutcome(t: TunnelModel.Tunnel, before: Phase, after: Phase, now: Time)
    ensures TunnelModel.Step(t, PhaseChanged(before, after), now)
            == TunnelModel.Outcome(t, if after.Ready? then multiset{PublishServices} + TunnelModel.InitialLookups(t.q)
                                      else multiset{})
  {
  }

  /** Delivering the bridge event before its trigger, as the source does, or after it gives the same
      tunnel state and the same commands. */
  lemma BridgeOrderIrrelevant(a: App, i: AppInput)
    ensures var after := PeerModel.PeerStep(a.peer, i.event, i.pick).state.phase;
            after != a.peer.phase ==>
              var bridge := PhaseChanged(a.peer.phase, after);
              var t1 := TunnelModel.Step(a.tunnel, i.event, i.now);
              var t2 := TunnelModel.Step(t1.state, bridge, i.now);
              && AppStep(a, i).app.tunnel == t2.state
              && AppStep(a, i).tunnelCommands == t1.commands + t2.commands
  {
    hide TunnelModel.Step, PeerModel.PeerStep, TunnelModel.InitialLookups;
    var after := PeerModel.PeerStep(a.peer, i.event, i.pick).state.phase;
    PhaseMoves(a.peer, i.event, i.pick);
    if after != a.peer.phase {
      BridgeOutcome(a.tunnel, a.peer.phase, after, i.now);
      BridgeOutcome(TunnelModel.Step(a.tunnel, i.event, i.now).state, a.peer.phase, after, i.now);
      if !i.event.ConnectionLost? {
        OnlyLossMovesTunnel(a.tunnel, i.event, i.now);
      }
    }
  }

  /** What one event makes the application do: what it makes each machine do, and, when the node becomes
      ready, publishing and asking for everything that waits. */
  lemma AppAnswers(a: App, i: AppInput)
    ensures var o, p, t := AppStep(a, i), PeerModel.PeerStep(a.peer, i.event, i.pick),
            TunnelModel.Step(a.tunnel, i.event, i.now);
            && o.app == App(p.state, t.state) && o.peerCommands == p.commands
            && o.tunnelCommands
               == t.commands + if p.state.phase.Ready? && !a.peer.phase.Ready?
                               then multiset{PublishServices} + TunnelModel.InitialLookups(t.state.q) else multiset{}
  {
    hide TunnelModel.Step, PeerModel.PeerStep, TunnelModel.InitialLookups;
    var after := PeerModel.PeerStep(a.peer, i.event, i.pick).state.phase;
    PhaseMoves(a.peer, i.event, i.pick);
    BridgeOutcome(a.tunnel, a.peer.phase, after, i.now);
    if after != a.peer.phase && !i.event.ConnectionLost? { OnlyLossMovesTunnel(a.tunnel, i.event, i.now); }
  }

  // ----- publications -----

  function PublishCount(cs: multiset<Command>): nat { cs[PublishServices] }

  function EntersReady(a: App, i: AppInput): nat {
    if !a.peer.phase.Ready? && AppStep(a, i).app.peer.phase.Ready? then 1 else 0
  }

  function Accepts(e: Event): nat { if e.RelayReservationAccepted? then 1 else 0 }

  function Published(a0: App, run: seq<AppInput>): nat {
    if run == [] then 0 else
      var n := |run| - 1;
      var o := AppStep(AppAfter(a0, run[..n]), run[n]);
      Published(a0, run[..n]) + PublishCount(o.peerCommands + o.tunnelCommands)
  }

  function ReadyEntries(a0: App, run: seq<AppInput>): nat {
    if run == [] then 0 else
      var n := |run| - 1;
      ReadyEntries(a0, run[..n]) + EntersReady(AppAfter(a0, run[..n]), run[n])
  }

  function Acceptances(run: seq<AppInput>): nat {
    if run == [] then 0 else Acceptances(run[..|run| - 1]) + Accepts(run[|run| - 1].event)
  }

  lemma {:induction false} AnnouncedPublishesNothing(p: PeerId, known: set<Multiaddr>, listed: seq<Multiaddr>)
    ensures PublishServices !in PeerModel.Announced(p, known, listed)
  {
    hide PeerModel.StoreAll;
    if listed != [] { AnnouncedPublishesNothing(p, known, listed[..|listed| - 1]); }
  }

  lemma PeerPublishesNothing(s: PeerModel.Peer, e: Event, pick: PeerModel.Pick)
    ensures PublishCount(PeerModel.PeerStep(s, e, pick).commands) == 0
  {
    hide PeerModel.Announced, PeerModel.StoreAll, PeerModel.Discover, PeerModel.Expire, PeerModel.RelayChoice;
    if e.PeerIdentified? {
      AnnouncedPublishesNothing(e.identified, PeerModel.AddrsOf(s.knownPeers, e.identified), e.listenAddrs);
    }
  }

  lemma RoutePublishesNothing(s: TunnelModel.Tunnel, q: TunnelModel.Queues, p: PeerId, specs: seq<Spec>)
    ensures PublishServices !in TunnelModel.RouteConnected(s, q, p, specs).commands
    ensures PublishServices !in TunnelModel.Spawns(p, specs)
  {
  }

  lemma LookupsPublishNothing(ps: set<PeerId>, ns: set<ServiceName>)
    ensures PublishServices !in TunnelModel.Lookups(ps) + TunnelModel.Queries(ns)
  {
  }

  lemma TunnelPublishes(t: TunnelModel.Tunnel, e: Event, now: Time)
    requires !e.PhaseChanged?
    ensures PublishCount(TunnelModel.Step(t, e, now).commands) == Accepts(e)
  {
    hide TunnelModel.RouteConnected, TunnelModel.Spawns, TunnelModel.Lookups, TunnelModel.Queries,
         TunnelModel.RedialCommand, TunnelModel.RerouteAll, TunnelModel.ClearRetry, TunnelModel.SetPhase,
         TunnelModel.BookAfter, Dedup;
    match e
    case DhtPeerLookupComplete(p, _) =>
      RoutePublishesNothing(t, TunnelModel.TakePending(t.q, p), p, Get(t.q.pendingByPeer, p));
    case DhtServiceResolved(n, providers) => ResolvePublishesNothing(t, n, providers);
    case TunnelDialFailed(p, _) =>
      var r := TunnelModel.RerouteFailed(t.q, p);
      LookupsPublishNothing(r.lookups, r.refresh);
    case TunnelPeerConnected(p, _) =>
      RoutePublishesNothing(t, t.q, p, Get(t.q.pendingByPeer, p) + Get(t.q.awaiting, p));
    case HolePunchAttemptFailed(p, _) => RoutePublishesNothing(t, t.q, p, Get(t.q.awaiting, p));
    case HolePunchAttemptTimeout(p, _) => RoutePublishesNothing(t, t.q, p, Get(t.q.awaiting, p));
    case _ =>
  }

  lemma ResolvePublishesNothing(s: TunnelModel.Tunnel, n: ServiceName, providers: seq<(PeerId, bool)>)
    ensures PublishServices !in TunnelModel.ResolveService(s, n, providers).commands
  {
    hide TunnelModel.RouteConnected;
    if n in s.q.pendingByService && providers != [] {
      var peers := Dedup(TunnelModel.PeersOf(providers));
      assert TunnelModel.PeersOf(providers)[0] in peers;
      RoutePublishesNothing(s, s.q.(pendingByService := s.q.pendingByService - {n},
                                    candidates := TunnelModel.StoreCandidates(s.q.candidates, n, peers[1..])),
                            peers[0], TunnelModel.SpecsFor(n, s.q.pendingByService[n]));
    }
  }

  lemma StepPublishes(a: App, i: AppInput)
    requires !i.event.PhaseChanged?
    ensures var o := AppStep(a, i);
            PublishCount(o.peerCommands + o.tunnelCommands) == EntersReady(a, i) + Accepts(i.event)
  {
    hide TunnelModel.Step, PeerModel.PeerStep, TunnelModel.InitialLookups;
    var after := PeerModel.PeerStep(a.peer, i.event, i.pick).state.phase;
    PeerPublishesNothing(a.peer, i.event, i.pick);
    TunnelPublishes(a.tunnel, i.event, i.now);
    BridgeOutcome(a.tunnel, a.peer.phase, after, i.now);
    InitialPublishesNothing(a.tunnel.q);
  }

  lemma InitialPublishesNothing(q: TunnelModel.Queues)
    ensures PublishServices !in TunnelModel.InitialLookups(q)
  {
    LookupsPublishNothing(q.pendingByPeer.Keys, q.pendingByService.Keys);
  }

  /** Over every run, the services are published once per entry into Ready and once per accepted
      relay reservation. */
  lemma {:induction false} PublicationsCount(a0: App, run: seq<AppInput>)
    requires NotInjected(run)
    ensures Published(a0, run) == ReadyEntries(a0, run) + Acceptances(run)
  {
    hide AppStep, EntersReady, Accepts;
    if run != [] {
      var n := |run| - 1;
      PublicationsCount(a0, run[..n]);
      StepPublishes(AppAfter(a0, run[..n]), run[n]);
    }
  }

  // ----- phases -----

  lemma PhaseOfStep(a: App, i: AppInput)
    ensures AppStep(a, i).app.peer == PeerModel.PeerStep(a.peer, i.event, i.pick).state
  {
    hide TunnelModel.Step, PeerModel.PeerStep;
  }

  /** A node that is shutting down stays so, whatever arrives. */
  lemma {:induction false} ShutdownAbsorbs(a0: App, run: seq<AppInput>, k: nat)
    requires k <= |run|
    ensures AppAfter(a0, run[..k]).peer.phase.ShuttingDown? ==> AppAfter(a0, run).peer.phase.ShuttingDown?
    decreases |run|
  {
    hide AppStep, PeerModel.PeerStep;
    if k < |run| {
      var n := |run| - 1;
      assert run[..n][..k] == run[..k];
      ShutdownAbsorbs(a0, run[..n], k);
      PhaseOfStep(AppAfter(a0, run[..n]), run[n]);
      PhaseMoves(AppAfter(a0, run[..n]).peer, run[n].event, run[n].pick);
    } else {
      assert run[..k] == run;
    }
  }

  lemma ReadyNeedsBootstrap(s: PeerModel.Peer, e: Event, pick: PeerModel.Pick)
    requires !e.NoBootstrapPeers? && (s.phase.Ready? ==> s.kadBootstrapped)
    ensures var s' := PeerModel.PeerStep(s, e, pick).state; s'.phase.Ready? ==> s'.kadBootstrapped
  {
    hide PeerModel.StoreAll, PeerModel.Announced, PeerModel.MaybeRequestRelay, PeerModel.Discover, PeerModel.Expire,
         PeerModel.DiscoverCommands;
  }

  /** A node that was given bootstrap peers is Ready only while its Kademlia bootstrap stands. */
  lemma {:induction false} ReadyMeansBootstrapped(a0: App, run: seq<AppInput>)
    requires a0.peer.phase.Joining?
    requires forall i | 0 <= i < |run| :: !run[i].event.NoBootstrapPeers?
    ensures var s := AppAfter(a0, run).peer; s.phase.Ready? ==> s.kadBootstrapped
  {
    hide AppStep, PeerModel.PeerStep;
    if run != [] {
      var n := |run| - 1;
      ReadyMeansBootstrapped(a0, run[..n]);
      PhaseOfStep(AppAfter(a0, run[..n]), run[n]);
      ReadyNeedsBootstrap(AppAfter(a0, run[..n]).peer, run[n].event, run[n].pick);
    }
  }
}
