/** One iteration of the event loop of `src/node/mod.rs`: the connection tracker, the application
    state, the outstanding Kademlia queries and the registry of direct peers, driven by the swarm.
    The swarm is the environment: its events, timers and hash iteration orders are inputs. */
module NodeModel {
  import opened Types
  import opened Ordering
  import opened AppModel
  import opened TrackerModel
  import PeerModel
  import TunnelModel

  const HOLE_PUNCH_TIMEOUT: Time := 30_000_000_000

  datatype Target = PeerTarget(peer: PeerId) | ServiceTarget(service: ServiceName)

  /** A Kademlia query id. The source only needs ids to be fresh, so an id is named after the
      transition that asked for it, what was asked, and which copy of the command it is. */
  datatype QueryId = QueryId(turn: nat, target: Target, copy: nat)

  datatype Context = Context(
    bootstrap: set<PeerId>,
    tunnelQueries: map<QueryId, PeerId>,
    serviceQueries: map<QueryId, ServiceName>,
    directPeers: set<PeerId>,
    turn: nat)

  /** One transition of the application state, as the history of a run remembers it. */
  datatype Record = Record(before: TunnelModel.Tunnel, tracker: Tracker, event: Event, now: Time, pick: PeerModel.Pick,
                           after: TunnelModel.Tunnel, commands: multiset<Command>)

  datatype Node = Node(app: App, tracker: Tracker, ctx: Context, log: seq<Record>, everReady: bool)

  // ----- executing commands -----

  function TunnelIds(turn: nat, cs: multiset<Command>): set<QueryId> {
    set c, k: nat | c in cs && c.DhtLookupPeer? && 0 <= k < cs[c] :: QueryId(turn, PeerTarget(c.lookup), k)
  }

  function ServiceIds(turn: nat, cs: multiset<Command>): set<QueryId> {
    set c, k: nat | c in cs && c.DhtGetProviders? && 0 <= k < cs[c] :: QueryId(turn, ServiceTarget(c.wanted), k)
  }

  function Execute(ctx: Context, cs: multiset<Command>): Context {
    ctx.(tunnelQueries := ctx.tunnelQueries
        + (map id | id in TunnelIds(ctx.turn, cs) && id.target.PeerTarget? :: id.target.peer),
         serviceQueries := ctx.serviceQueries
                           + (map id | id in ServiceIds(ctx.turn, cs) && id.target.ServiceTarget? :: id.target.service),
         turn := ctx.turn + 1)
  }

  function Transit(n: Node, e: Event, now: Time, pick: PeerModel.Pick): Node {
    var o := AppStep(n.app, AppInput(e, now, pick));
    Node(o.app, n.tracker, Execute(n.ctx, o.peerCommands + o.tunnelCommands),
         n.log + [Record(n.app.tunnel, n.tracker, e, now, pick, o.app.tunnel, o.peerCommands + o.tunnelCommands)],
         n.everReady || o.app.peer.phase.Ready?)
  }

  predicate Stopped(n: Node) { n.app.peer.phase.ShuttingDown? }

  // ----- arming hole-punch attempts -----

  predicate HasIntent(s: TunnelModel.Tunnel, p: PeerId) { p in s.q.pendingByPeer || p in s.q.awaiting }

  /** The peers some tunnel waits for, sorted by their printed form. */
  function TargetPeers(s: TunnelModel.Tunnel): seq<PeerId> {
    Rank(s.q.pendingByPeer.Keys + s.q.awaiting.Keys, ByKey())
  }

  function ArmOne(n: Node, p: PeerId, now: Time, pick: PeerModel.Pick): Node {
    var (t, id) := StartAttempt(n.tracker, p, HOLE_PUNCH_TIMEOUT, now);
    if id.None? then n else Transit(n.(tracker := t), HolePunchAttemptStarted(p, id.value), now, pick)
  }

  function ArmAll(n: Node, ps: seq<PeerId>, now: Time, pick: PeerModel.Pick): Node {
    if ps == [] then n else ArmOne(ArmAll(n, ps[..|ps| - 1], now, pick), ps[|ps| - 1], now, pick)
  }

  function Arm(n: Node, now: Time, pick: PeerModel.Pick): Node {
    if Stopped(n) then n else ArmAll(n, TargetPeers(n.app.tunnel), now, pick)
  }

  // ----- feeding events -----

  function Feed(n: Node, e: Event, now: Time, pick: PeerModel.Pick): Node {
    Arm(Transit(n, e, now, pick), now, pick)
  }

  /** The event as the application sees it: a raw hole-punch failure becomes a failure of the
      active attempt, and is skipped when there is none. */
  function Scoped(t: Tracker, e: Event): Option<Event> {
    if e.HolePunchFailed? then
      if e.punchFailedPeer in t.attempts
      then Some(HolePunchAttemptFailed(e.punchFailedPeer, t.attempts[e.punchFailedPeer].attemptId)) else None
    else if e.HolePunchAttemptFailed? && e.failedPeer in t.attempts
            && t.attempts[e.failedPeer].attemptId != e.failedAttempt then None
    else Some(e)
  }

  function FeedOne(n: Node, e: Event, now: Time, pick: PeerModel.Pick): Node {
    var scoped := Scoped(n.tracker, e);
    if scoped.None? then n else Feed(n, scoped.value, now, pick)
  }

  /** All events of one iteration, cut short when the node starts shutting down. */
  function FeedAll(n: Node, es: seq<Event>, now: Time, pick: PeerModel.Pick): Node {
    if es == [] then n else
      var m := FeedAll(n, es[..|es| - 1], now, pick);
      if Stopped(m) then m else FeedOne(m, es[|es| - 1], now, pick)
  }

  // ----- swarm events -----

  datatype ProvidersResult = Found(providers: set<PeerId>, connected: set<PeerId>) | Finished | Failed

  datatype SwarmEvent =
    | NewListenAddr
    | ConnEstablished(peer: PeerId, id: ConnectionId, relayed: bool, remote: Multiaddr)
    | ConnClosed(peer: PeerId, id: ConnectionId, numEstablished: nat)
    | SwarmDialing(dialing: Option<PeerId>, id: ConnectionId)
    | OutgoingConnError(dialed: Option<PeerId>, id: ConnectionId, localPeerId: bool, pendingAbort: bool)
    | KadBootstrapResult(ok: bool)
    | KadClosestPeers(query: QueryId, connectedNow: bool)
    | KadProviders(query: QueryId, result: ProvidersResult)
    | MdnsFound(found: seq<(PeerId, Multiaddr)>)
    | MdnsGone(gone: seq<(PeerId, Multiaddr)>)
    | IdentifyReceived(peer: PeerId, listenAddrs: seq<Multiaddr>)
    | NatProbed(status: NatStatus)
    | RelayAccepted(relay: PeerId)
    | RelayListenerClosed(relay: PeerId)
    | DcutrFailed(peer: PeerId)
    | ExternalConfirmed(addr: Multiaddr)
    | ExternalExpired(addr: Multiaddr)
    | OtherSwarmEvent

  /** Connected providers first, then by printed form. */
  function ByConnection(connected: set<PeerId>): (PeerId, PeerId) -> bool {
    (a: PeerId, b: PeerId) => (a in connected && b !in connected) || ((a in connected <==> b in connected) && a < b)
  }

  lemma OrdersAreTotal(connected: set<PeerId>)
    ensures StrictTotal(ByKey()) && StrictTotal(ByConnection(connected))
  {
  }

  function SortedProviders(providers: set<PeerId>, connected: set<PeerId>): seq<(PeerId, bool)> {
    OrdersAreTotal(connected);
    var r := Rank(providers, ByConnection(connected));
    seq(|r|, i requires 0 <= i < |r| => (r[i], r[i] in connected))
  }

  /** The providers of an outcome: each once with its connection flag, connected ones first, and by
      printed form among equals. */
  lemma ProvidersAreRanked(providers: set<PeerId>, connected: set<PeerId>)
    ensures var r := SortedProviders(providers, connected);
            && (forall p, c :: (p, c) in r <==> p in providers && (c <==> p in connected))
            && (forall i, j | 0 <= i < j < |r| :: r[i].1 == r[j].1 ==> r[i].0 < r[j].0)
            && (forall i, j | 0 <= i < j < |r| :: r[j].1 ==> r[i].1)
  {
    OrdersAreTotal(connected);
    var ranked := Rank(providers, ByConnection(connected));
    forall p | p in providers ensures (p, p in connected) in SortedProviders(providers, connected) {
      assert p in ranked;
      var i :| 0 <= i < |ranked| && ranked[i] == p;
      assert SortedProviders(providers, connected)[i] == (p, p in connected);
    }
    assert forall i, j | 0 <= i < j < |ranked| :: ByConnection(connected)(ranked[i], ranked[j]);
  }

  function ProvidersEvent(name: ServiceName, result: ProvidersResult): Event {
    if result.Found? && result.providers != {}
        then DhtServiceResolved(name, SortedProviders(result.providers, result.connected))
    else DhtServiceFailed(name)
  }

  /** The domain events of a swarm event; answered queries are forgotten. */
  function Translate(ctx: Context, ev: SwarmEvent): (Context, seq<Event>) {
    match ev
    case NewListenAddr => (ctx, [ListeningOn])
    case ConnEstablished(p, _, relayed, remote) =>
      (ctx, (if p in ctx.bootstrap then [BootstrapConnected(p, remote)] else []) + [TunnelPeerConnected(p, relayed)])
    case OutgoingConnError(dialed, _, localPeerId, pendingAbort) =>
      (ctx, if dialed.Some? && dialed.value !in ctx.bootstrap && !localPeerId
            then [TunnelDialFailed(dialed.value, pendingAbort)] else [])
    case KadBootstrapResult(ok) => (ctx, [if ok then KademliaBootstrapOk else KademliaBootstrapFailed])
    case KadClosestPeers(id, connectedNow) =>
      if id in ctx.tunnelQueries
      then (ctx.(tunnelQueries := ctx.tunnelQueries - {id}),
          [DhtPeerLookupComplete(ctx.tunnelQueries[id], connectedNow)])
      else (ctx, [])
    case KadProviders(id, result) =>
      if id in ctx.serviceQueries
      then (ctx.(serviceQueries := ctx.serviceQueries - {id}), [ProvidersEvent(ctx.serviceQueries[id], result)])
      else (ctx, [])
    case MdnsFound(found) => (ctx, [MdnsDiscovered(found)])
    case MdnsGone(gone) => (ctx, [MdnsExpired(gone)])
    case IdentifyReceived(p, listen) => (ctx, [PeerIdentified(p, listen)])
    case NatProbed(status) => (ctx, [NatStatusChanged(status)])
    case RelayAccepted(relay) => (ctx, [RelayReservationAccepted(relay)])
    case RelayListenerClosed(relay) => (ctx, [RelayReservationFailed(relay)])
    case DcutrFailed(p) => (ctx, [HolePunchFailed(p)])
    case ExternalConfirmed(a) => (ctx, [ExternalAddrConfirmed(a)])
    case ExternalExpired(a) => (ctx, [ExternalAddrExpired(a)])
    case _ => (ctx, [])
  }

  /** What the loop does to the tracker and the registry before any event is fed, and the events it
      synthesizes meanwhile. */
  function Bookkeep(n: Node, ev: SwarmEvent, now: Time): (Node, seq<Event>) {
    match ev
    case ConnEstablished(p, c, relayed, _) =>
      var (t1, u) := Established(n.tracker, p, c, relayed);
      var (t2, id) := if relayed && HasIntent(n.app.tunnel, p) then StartAttempt(t1, p, HOLE_PUNCH_TIMEOUT, now)
          else (t1, None);
      (n.(tracker := t2, ctx := n.ctx.(directPeers := n.ctx.directPeers + (if u.direct then {p} else {}))),
       if id.Some? then [HolePunchAttemptStarted(p, id.value)] else [])
    case ConnClosed(p, c, numEstablished) =>
      var (t1, u) := Closed(n.tracker, p, c, numEstablished);
      (n.(tracker := t1, ctx := n.ctx.(directPeers := n.ctx.directPeers - (if u.clearDirectRegistry then {p} else {}))),
       [ConnectionLost(p, ConnectionCount(t1, p))])
    case SwarmDialing(dialing, c) =>
      (if dialing.Some? then n.(tracker := TrackerModel.Dialing(n.tracker, dialing.value, c).0) else n, [])
    case OutgoingConnError(dialed, c, _, _) => (n.(tracker := OutgoingError(n.tracker, dialed, c).0), [])
    case _ => (n, [])
  }

  function OnSwarmEvent(n: Node, ev: SwarmEvent, portMapped: bool, now: Time, pick: PeerModel.Pick): Node {
    var (n1, synthetic) := Bookkeep(n, ev, now);
    var n2 := if portMapped then Transit(n1, NatStatusChanged(Public), now, pick) else n1;
    var (ctx, translated) := Translate(n2.ctx, ev);
    FeedAll(n2.(ctx := ctx), synthetic + translated, now, pick)
  }

  /** The peers of expired attempts, in the order the hash map yields them. */
  function DueInOrder(due: map<PeerId, nat>, order: seq<PeerId>): seq<PeerId> {
    OrdersAreTotal({});
    Listing(due.Keys, order, ByKey())
  }

  function FireTimeouts(n: Node, due: map<PeerId, nat>, order: seq<PeerId>, now: Time, pick: PeerModel.Pick): Node {
    if order == [] then n else
      var m := FireTimeouts(n, due, order[..|order| - 1], now, pick);
      var p := order[|order| - 1];
      if p in due && RelayOnly(m.tracker, p) then Transit(m, HolePunchAttemptTimeout(p, due[p]), now, pick) else m
  }

  datatype Input =
    | Swarm(event: SwarmEvent, portMapped: bool, now: Time, pick: PeerModel.Pick)
    | DiscoveryDeadline(now: Time, pick: PeerModel.Pick)
    | HolePunchDeadline(order: seq<PeerId>, now: Time, pick: PeerModel.Pick)
    | ShutdownSignal(now: Time, pick: PeerModel.Pick)

  /** One iteration of the loop; a stopped node has left it. */
  function Iterate(n: Node, i: Input): Node {
    if Stopped(n) then n else
      match i
      case Swarm(ev, portMapped, now, pick) => OnSwarmEvent(n, ev, portMapped, now, pick)
      case DiscoveryDeadline(now, pick) => Transit(n, DiscoveryTimeout, now, pick)
      case HolePunchDeadline(order, now, pick) =>
        var (t, due) := TakeDue(n.tracker, now);
        FireTimeouts(n.(tracker := t), due, DueInOrder(due, order), now, pick)
      case ShutdownSignal(now, pick) => Transit(n, ShutdownRequested, now, pick)
  }

  /** How a node is started: its tunnels, whether it was given bootstrap addresses, and the peer
      ids those addresses name. */
  datatype Launch = Launch(tunnels: TunnelModel.Config, hasBootstrap: bool, bootstrap: set<PeerId>, now: Time,
      pick: PeerModel.Pick)

  function Fresh(l: Launch): Node {
    Node(App(PeerModel.EMPTY.(bootstrapPeers := l.bootstrap), TunnelModel.Configured(l.tunnels)),
         TrackerModel.EMPTY, Context(l.bootstrap, map[], map[], {}, 0), [], false)
  }

  /** The node when it enters the loop. */
  function Started(l: Launch): Node {
    Transit(Fresh(l), if l.hasBootstrap then NatStatusChanged(Private) else NoBootstrapPeers, l.now, l.pick)
  }

  function NodeAfter(n0: Node, run: seq<Input>): Node {
    if run == [] then n0 else Iterate(NodeAfter(n0, run[..|run| - 1]), run[|run| - 1])
  }
}
