/** The tracker against the connections that really exist: over every run in which the swarm uses
    fresh connection ids and closes only what is open, what is tracked is what is open. */
module NodeConnections {
  import opened Types
  import opened AppModel
  import opened TrackerModel
  import opened NodeModel
  import opened NodeInvariants
  import opened NodeRuns
  import PeerModel

  datatype Connection = Connection(peer: PeerId, relayed: bool)

  /** The swarm's side: what is open, which ids were ever used, which relayed ids the tracker has
      handed out for closing. */
  datatype World = World(open: map<ConnectionId, Connection>, used: set<ConnectionId>, handed: set<ConnectionId>)

  const NO_CONNECTIONS := World(map[], {}, {})

  /** The relayed connections that a new connection makes the tracker hand out. */
  function HandedBy(t: Tracker, ev: SwarmEvent): set<ConnectionId> {
    if ev.ConnEstablished? then Established(t, ev.peer, ev.id, ev.relayed).1.toClose else {}
  }

  function WorldStep(w: World, n: Node, i: Input): World {
    if Stopped(n) || !i.Swarm? then w
    else match i.event
      case ConnEstablished(p, c, relayed, _) =>
        World(w.open[c := Connection(p, relayed)], w.used + {c}, w.handed + HandedBy(n.tracker, i.event))
      case ConnClosed(p, c, _) => w.(open := w.open - {c})
      case _ => w
  }

  predicate Lawful(w: World, i: Input) {
    i.Swarm? ==>
      && (i.event.ConnEstablished? ==> i.event.id !in w.used)
      && (i.event.ConnClosed? ==> i.event.id in w.open && w.open[i.event.id].peer == i.event.peer)
  }

  function WorldAfter(n0: Node, run: seq<Input>): World {
    if run == [] then NO_CONNECTIONS
    else WorldStep(WorldAfter(n0, run[..|run| - 1]), NodeAfter(n0, run[..|run| - 1]), run[|run| - 1])
  }

  ghost predicate LawfulRun(n0: Node, run: seq<Input>) {
    forall k: nat | k < |run| :: Lawful(WorldAfter(n0, run[..k]), run[k])
  }

  predicate TracksPeer(t: Tracker, w: World, p: PeerId, c: ConnectionId) {
    && (c in Ids(t.direct, p) <==> c in w.open && w.open[c] == Connection(p, false))
    && (c in Ids(t.relayed, p) <==> c in w.open && w.open[c] == Connection(p, true) && c !in w.handed)
  }

  ghost predicate Tracks(t: Tracker, w: World) {
    && (forall p, c :: TracksPeer(t, w, p, c))
    && w.open.Keys <= w.used && w.handed <= w.used
  }

  lemma EstablishedTracks(t: Tracker, w: World, p: PeerId, c: ConnectionId, relayed: bool)
    requires Tracks(t, w) && c !in w.used
    ensures var (t', u) := Established(t, p, c, relayed);
            Tracks(t', World(w.open[c := Connection(p, relayed)], w.used + {c}, w.handed + u.toClose))
                && u.toClose !! w.handed
  {
    var (t', u) := Established(t, p, c, relayed);
    var w' := World(w.open[c := Connection(p, relayed)], w.used + {c}, w.handed + u.toClose);
    forall d | d in u.toClose ensures d in w.open && w.open[d] == Connection(p, true) && d !in w.handed {
      assert TracksPeer(t, w, p, d);
    }
    forall q, d ensures TracksPeer(t', w', q, d) {
      assert TracksPeer(t, w, q, d) && TracksPeer(t, w, p, d);
    }
  }

  lemma ClosedIds(t: Tracker, p: PeerId, c: ConnectionId, num: nat)
    ensures var t' := Closed(t, p, c, num).0;
            forall q :: Ids(t'.relayed, q) == (if q == p then Ids(t.relayed, q) - {c} else Ids(t.relayed, q))
                        && Ids(t'.direct, q) == (if q == p then Ids(t.direct, q) - {c} else Ids(t.direct, q))
  {
  }

  lemma ClosedTracks(t: Tracker, w: World, p: PeerId, c: ConnectionId, num: nat)
    requires Tracks(t, w) && c in w.open && w.open[c].peer == p
    ensures Tracks(Closed(t, p, c, num).0, w.(open := w.open - {c}))
  {
    hide WithoutId, Ids;
    var t', w' := Closed(t, p, c, num).0, w.(open := w.open - {c});
    ClosedIds(t, p, c, num);
    forall q, d ensures TracksPeer(t', w', q, d) {
      assert TracksPeer(t, w, q, d) && TracksPeer(t, w, q, c);
    }
  }

  // ----- only the bookkeeping of connection events changes connections -----

  predicate SameConnections(t: Tracker, t': Tracker) { t'.relayed == t.relayed && t'.direct == t.direct }

  lemma {:induction false} ArmAllSame(n: Node, ps: seq<PeerId>, now: Time, pick: PeerModel.Pick)
    ensures SameConnections(n.tracker, ArmAll(n, ps, now, pick).tracker)
  {
    hide AppStep, Execute;
    if ps != [] { ArmAllSame(n, ps[..|ps| - 1], now, pick); }
  }

  lemma {:induction false} FeedAllSame(n: Node, es: seq<Event>, now: Time, pick: PeerModel.Pick)
    ensures SameConnections(n.tracker, FeedAll(n, es, now, pick).tracker)
  {
    hide AppStep, Execute, ArmAll, TargetPeers;
    if es != [] {
      var m := FeedAll(n, es[..|es| - 1], now, pick);
      FeedAllSame(n, es[..|es| - 1], now, pick);
      var f := Scoped(m.tracker, es[|es| - 1]);
      if f.Some? {
        var t := Transit(m, f.value, now, pick);
        ArmAllSame(t, TargetPeers(t.app.tunnel), now, pick);
      }
    }
  }

  lemma {:induction false} TimeoutsSame(n: Node, due: map<PeerId, nat>, order: seq<PeerId>, now: Time,
                                        pick: PeerModel.Pick)
    ensures FireTimeouts(n, due, order, now, pick).tracker == n.tracker
  {
    hide AppStep, Execute;
    if order != [] { TimeoutsSame(n, due, order[..|order| - 1], now, pick); }
  }

  /** The tracker's connections after an iteration are what the bookkeeping of its event leaves. */
  function Booked(t: Tracker, i: Input): Tracker {
    if !i.Swarm? then t else match i.event
      case ConnEstablished(p, c, relayed, _) => Established(t, p, c, relayed).0
      case ConnClosed(p, c, num) => Closed(t, p, c, num).0
      case _ => t
  }

  lemma SwarmBooks(n: Node, ev: SwarmEvent, portMapped: bool, now: Time, pick: PeerModel.Pick)
    ensures SameConnections(Booked(n.tracker, Swarm(ev, portMapped, now, pick)),
            OnSwarmEvent(n, ev, portMapped, now, pick).tracker)
  {
    hide AppStep, Execute, FeedAll, Closed, Established, ProvidersEvent;
    var (n1, synthetic) := Bookkeep(n, ev, now);
    var n2 := if portMapped then Transit(n1, NatStatusChanged(Public), now, pick) else n1;
    var (ctx, translated) := Translate(n2.ctx, ev);
    FeedAllSame(n2.(ctx := ctx), synthetic + translated, now, pick);
  }

  lemma IterateBooks(n: Node, i: Input)
    requires !Stopped(n)
    ensures SameConnections(Booked(n.tracker, i), Iterate(n, i).tracker)
  {
    hide OnSwarmEvent, AppStep, Execute, FireTimeouts, Booked;
    match i
    case Swarm(ev, portMapped, now, pick) => SwarmBooks(n, ev, portMapped, now, pick);
    case HolePunchDeadline(order, now, pick) =>
      var (t, due) := TakeDue(n.tracker, now);
      TimeoutsSame(n.(tracker := t), due, DueInOrder(due, order), now, pick);
      Untouched(n.tracker, i);
    case DiscoveryDeadline(_, _) => Untouched(n.tracker, i);
    case ShutdownSignal(_, _) => Untouched(n.tracker, i);
  }

  lemma Untouched(t: Tracker, i: Input)
    requires !i.Swarm?
    ensures Booked(t, i) == t
  {
  }

  lemma SameTracks(t: Tracker, t': Tracker, w: World)
    requires Tracks(t, w) && SameConnections(t, t')
    ensures Tracks(t', w)
  {
    forall p, c ensures TracksPeer(t', w, p, c) { assert TracksPeer(t, w, p, c); }
  }

  lemma StepTracks(n: Node, w: World, i: Input)
    requires Tracks(n.tracker, w) && Lawful(w, i)
    ensures Tracks(Iterate(n, i).tracker, WorldStep(w, n, i))
    ensures !Stopped(n) && i.Swarm? ==> HandedBy(n.tracker, i.event) !! w.handed
  {
    hide Tracks, Iterate, Closed, Established;
    if !Stopped(n) {
      IterateBooks(n, i);
      if i.Swarm? && i.event.ConnEstablished? {
        EstablishedTracks(n.tracker, w, i.event.peer, i.event.id, i.event.relayed);
      } else if i.Swarm? && i.event.ConnClosed? {
        ClosedTracks(n.tracker, w, i.event.peer, i.event.id, i.event.numEstablished);
      }
      SameTracks(Booked(n.tracker, i), Iterate(n, i).tracker, WorldStep(w, n, i));
    } else {
      StoppedStays(n, i);
    }
  }

  lemma StoppedStays(n: Node, i: Input)
    requires Stopped(n)
    ensures Iterate(n, i) == n
  {
    hide OnSwarmEvent, Transit, FireTimeouts, TakeDue;
  }

  lemma StartTracks(l: Launch)
    ensures Tracks(Started(l).tracker, NO_CONNECTIONS)
  {
    hide AppStep, Execute;
  }

  /** At every loop head of a lawful run: the direct connections tracked for a peer are its open
      direct ones, the relayed connections tracked are its open relayed ones not yet handed out for
      closing, and the registry of direct peers is the set of peers with an open direct one. */
  lemma {:induction false} RunsTrack(l: Launch, run: seq<Input>)
    requires LawfulRun(Started(l), run)
    ensures Tracks(NodeAfter(Started(l), run).tracker, WorldAfter(Started(l), run))
  {
    hide Tracks, Iterate, Started, WorldStep, Lawful;
    if run == [] {
      StartTracks(l);
    } else {
      var last := |run| - 1;
      forall k: nat | k < last ensures Lawful(WorldAfter(Started(l), run[..last][..k]), run[..last][k]) {
        assert run[..last][..k] == run[..k];
        assert Lawful(WorldAfter(Started(l), run[..k]), run[k]);
      }
      RunsTrack(l, run[..last]);
      StepTracks(NodeAfter(Started(l), run[..last]), WorldAfter(Started(l), run[..last]), run[last]);
    }
  }

  lemma RegistryIsReality(l: Launch, run: seq<Input>, p: PeerId)
    requires LawfulRun(Started(l), run)
    ensures p in NodeAfter(Started(l), run).ctx.directPeers
            <==> exists c | c in WorldAfter(Started(l), run).open ::
                WorldAfter(Started(l), run).open[c] == Connection(p, false)
  {
    hide Iterate, Started, WorldStep, Lawful, Base, CoveredBut;
    RunsTrack(l, run);
    RunsKeepInv(l, run);
    var n, w := NodeAfter(Started(l), run), WorldAfter(Started(l), run);
    InvRegistry(n);
    InvIsConsistent(n);
    if p in n.tracker.direct {
      var c :| c in n.tracker.direct[p];
      assert TracksPeer(n.tracker, w, p, c);
    } else {
      forall c | c in w.open ensures w.open[c] != Connection(p, false) { assert TracksPeer(n.tracker, w, p, c); }
    }
  }

  /** No relayed connection is handed out for closing twice in a lawful run. */
  lemma HandedOutOnce(l: Launch, run: seq<Input>)
    requires run != [] && LawfulRun(Started(l), run)
    ensures var last := |run| - 1; var n := NodeAfter(Started(l), run[..last]);
            !Stopped(n) && run[last].Swarm? ==>
              HandedBy(n.tracker, run[last].event) !! WorldAfter(Started(l), run[..last]).handed
  {
    hide Tracks, Iterate, Started, WorldStep, Lawful;
    var last := |run| - 1;
    forall k: nat | k < last ensures Lawful(WorldAfter(Started(l), run[..last][..k]), run[..last][k]) {
      assert run[..last][..k] == run[..k];
      assert Lawful(WorldAfter(Started(l), run[..k]), run[k]);
    }
    RunsTrack(l, run[..last]);
    assert Lawful(WorldAfter(Started(l), run[..last]), run[last]);
    StepTracks(NodeAfter(Started(l), run[..last]), WorldAfter(Started(l), run[..last]), run[last]);
  }
}
