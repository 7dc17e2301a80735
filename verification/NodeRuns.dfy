/** The loop of the node: every iteration keeps the invariant, and what that means for whole runs. */
module NodeRuns {
  import opened Types
  import opened AppModel
  import opened TrackerModel
  import opened NodeModel
  import opened NodeTransit
  import opened NodeInvariants
  import opened TunnelInvariants
  import PeerModel
  import TM = TunnelModel

  // ----- the start -----

  lemma FreshInv(l: Launch)
    ensures InvBut(Fresh(l), if l.hasBootstrap then NatStatusChanged(Private) else NoBootstrapPeers)
  {
  }

  lemma StartedInv(l: Launch)
    ensures Inv(Started(l))
  {
    hide Base, Transit, CoveredBut;
    var e := if l.hasBootstrap then NatStatusChanged(Private) else NoBootstrapPeers;
    FreshInv(l);
    QuietInv(Fresh(l), e, l.now, l.pick);
  }

  /** A transition that is not followed by arming. */
  lemma QuietInv(n: Node, e: Event, now: Time, pick: PeerModel.Pick)
    requires InvBut(n, e) && Plain(e) && !e.HolePunchFailed?
    ensures Inv(Transit(n, e, now, pick))
  {
    hide Transit, QueryOut;
    PlainIsOk(n, e);
    TransitBase(n, e, now, pick);
    TransitCover(n, e, now, pick);
    forall p ensures IdsAgree(Transit(n, e, now, pick), p) { assert IdsAgree(n, p); TransitIds(n, e, now, pick, p); }
    forall p ensures RelayKnown(Transit(n, e, now, pick), p) {
      assert RelayKnown(n, p);
      TransitRelay(n, e, now, pick, p);
    }
  }

  lemma CoverPlain(n: Node, e: Event)
    requires CoveredBut(n, ListeningOn)
    ensures CoveredBut(n, e)
  {
  }

  // ----- timers -----

  lemma TimeoutInv(n: Node, p: PeerId, id: nat, now: Time, pick: PeerModel.Pick)
    requires Inv(n) && p in n.tracker.attempts && n.tracker.attempts[p].attemptId == id
    ensures var m := Transit(n, HolePunchAttemptTimeout(p, id), now, pick); Inv(m) && m.tracker == n.tracker
  {
    hide Transit, QueryOut, Base;
    var e := HolePunchAttemptTimeout(p, id);
    assert IdsAgree(n, p);
    CoverPlain(n, e);
    BaseParts(n);
    hide CoveredBut, IdsOld, Consistent;
    TransitBase(n, e, now, pick);
    TransitCover(n, e, now, pick);
    TransitTunnel(n, e, now, pick);
    forall q ensures IdsAgree(Transit(n, e, now, pick), q) { assert IdsAgree(n, q); TransitIds(n, e, now, pick, q); }
    forall q ensures RelayKnown(Transit(n, e, now, pick), q) {
      assert RelayKnown(n, q);
      TransitRelay(n, e, now, pick, q);
    }
  }

  lemma {:induction false} TimeoutsInv(n: Node, due: map<PeerId, nat>, order: seq<PeerId>, now: Time,
                                       pick: PeerModel.Pick)
    requires Inv(n) && forall p | p in due :: p in n.tracker.attempts && n.tracker.attempts[p].attemptId == due[p]
    ensures var m := FireTimeouts(n, due, order, now, pick); Inv(m) && m.tracker == n.tracker
  {
    hide Inv, Transit;
    if order != [] {
      var m := FireTimeouts(n, due, order[..|order| - 1], now, pick);
      var p := order[|order| - 1];
      TimeoutsInv(n, due, order[..|order| - 1], now, pick);
      if p in due { TimeoutInv(m, p, due[p], now, pick); }
    }
  }

  lemma TakeDueInv(n: Node, now: Time)
    requires Inv(n)
    ensures var (t, due) := TakeDue(n.tracker, now);
            Inv(n.(tracker := t)) && forall p | p in due :: p in t.attempts && t.attempts[p].attemptId == due[p]
  {
    var (t, due) := TakeDue(n.tracker, now);
    AccountedShrinks(n.tracker, t);
    SwapTracker(n, t);
  }

  /** A tracker change that leaves connections and attempt ids alone keeps the invariant. */
  lemma SwapTracker(n: Node, t: Tracker)
    requires Inv(n) && Consistent(t) && t.relayed == n.tracker.relayed && t.direct == n.tracker.direct
    requires forall p | p in t.attempts ::
               p in n.tracker.attempts && n.tracker.attempts[p].attemptId == t.attempts[p].attemptId
    ensures Inv(n.(tracker := t))
  {
    hide Consistent, HistoryOk, IdsOld, ChainAt, Disconnects, CoveredBut;
    var m := n.(tracker := t);
    SameButTracker(n, m);
    SameCover(n, m, ListeningOn);
    forall p ensures IdsAgree(m, p) { assert IdsAgree(n, p); }
    forall p ensures RelayKnown(m, p) { assert RelayKnown(n, p); }
    forall p ensures RetryOk(m, p) { assert RetryOk(n, p); }
  }

  // ----- swarm events that are not about connections -----

  /** What the bookkeeping of dials leaves alone. */
  predicate SameAttempts(t: Tracker, t': Tracker) {
    && t'.relayed == t.relayed && t'.direct == t.direct
    && forall p | p in t'.attempts :: p in t.attempts && t.attempts[p].attemptId == t'.attempts[p].attemptId
  }

  lemma DialingKeepsAttempts(t: Tracker, p: PeerId, c: ConnectionId)
    ensures SameAttempts(t, TrackerModel.Dialing(t, p, c).0)
  {
  }

  lemma ErrorKeepsAttempts(t: Tracker, dialed: Option<PeerId>, c: ConnectionId)
    ensures SameAttempts(t, OutgoingError(t, dialed, c).0)
  {
  }

  lemma DialingInv(n: Node, p: PeerId, c: ConnectionId)
    requires Inv(n)
    ensures Inv(n.(tracker := TrackerModel.Dialing(n.tracker, p, c).0))
  {
    hide Inv, Agreeing, Accounted, TrackerModel.Dialing, OutgoingError;
    InvIsConsistent(n);
    DialingAgrees(n.tracker, p, c);
    DialingAccounted(n.tracker, p, c);
    DialingKeepsAttempts(n.tracker, p, c);
    SwapTracker(n, TrackerModel.Dialing(n.tracker, p, c).0);
  }

  lemma ErrorInv(n: Node, dialed: Option<PeerId>, c: ConnectionId)
    requires Inv(n)
    ensures Inv(n.(tracker := OutgoingError(n.tracker, dialed, c).0))
  {
    hide Inv, Agreeing, Accounted, TrackerModel.Dialing, OutgoingError;
    InvIsConsistent(n);
    ErrorAgrees(n.tracker, dialed, c);
    ErrorAccounted(n.tracker, dialed, c);
    ErrorKeepsAttempts(n.tracker, dialed, c);
    SwapTracker(n, OutgoingError(n.tracker, dialed, c).0);
  }

  lemma InvIsConsistent(n: Node)
    requires Inv(n)
    ensures Consistent(n.tracker)
  {
  }

  predicate AboutConnections(ev: SwarmEvent) { ev.ConnEstablished? || ev.ConnClosed? }

  /** Translation forgets at most the query it answers. */
  lemma TranslatedPlain(n: Node, ev: SwarmEvent)
    requires Inv(n) && !AboutConnections(ev)
    ensures var (ctx, es) := Translate(n.ctx, ev); var m := n.(ctx := ctx);
            && |es| <= 1
            && (es == [] ==> Inv(m))
            && (es != [] ==> Plain(es[0]) && InvBut(m, es[0]))
  {
    hide Consistent, HistoryOk, ChainAt, Disconnects, NodeModel.SortedProviders;
    var (ctx, es) := Translate(n.ctx, ev);
    var m := n.(ctx := ctx);
    forall p ensures RetryOk(m, p) && IdsAgree(m, p) && RelayKnown(m, p) {
      assert RetryOk(n, p) && IdsAgree(n, p) && RelayKnown(n, p);
    }
    forall name | n.everReady && name in n.app.tunnel.q.pendingByService
      ensures QueryOut(ctx.serviceQueries, name) || (es != [] && Concerns(es[0], name))
    {
      var id :| id in n.ctx.serviceQueries && n.ctx.serviceQueries[id] == name;
      if id !in ctx.serviceQueries { AnswersConcern(name, ev.result); }
      else { assert ctx.serviceQueries[id] == name; }
    }
  }

  lemma AnswersConcern(name: ServiceName, result: ProvidersResult)
    ensures Concerns(ProvidersEvent(name, result), name)
  {
  }

  lemma FeedSingle(n: Node, e: Event, now: Time, pick: PeerModel.Pick)
    ensures FeedAll(n, [e], now, pick) == if Stopped(n) then n else FeedOne(n, e, now, pick)
    ensures FeedAll(n, [], now, pick) == n
  {
    hide FeedOne;
    assert [e][..0] == [];
    assert FeedAll(n, [], now, pick) == n;
  }

  lemma MappedInv(n: Node, portMapped: bool, now: Time, pick: PeerModel.Pick)
    requires Inv(n)
    ensures Inv(if portMapped then Transit(n, NatStatusChanged(Public), now, pick) else n)
  {
    hide Transit, Base;
    if portMapped {
      CoverPlain(n, NatStatusChanged(Public));
      QuietInv(n, NatStatusChanged(Public), now, pick);
    }
  }

  lemma RunningAfterMap(n: Node, portMapped: bool, now: Time, pick: PeerModel.Pick)
    requires !Stopped(n)
    ensures !Stopped(if portMapped then Transit(n, NatStatusChanged(Public), now, pick) else n)
  {
    hide AppStep, Execute, PeerModel.PeerStep;
    PhaseOfStep(n.app, AppInput(NatStatusChanged(Public), now, pick));
    PhaseMoves(n.app.peer, NatStatusChanged(Public), pick);
  }

  lemma PlainSwarmInv(n: Node, ev: SwarmEvent, portMapped: bool, now: Time, pick: PeerModel.Pick)
    requires Inv(n) && !Stopped(n) && !AboutConnections(ev)
    ensures Inv(OnSwarmEvent(n, ev, portMapped, now, pick))
  {
    hide Inv, InvBut, Transit, Translate, FeedOne, TrackerModel.Dialing, OutgoingError, FeedAll;
    match ev {
      case SwarmDialing(dialing, c) => if dialing.Some? { DialingInv(n, dialing.value, c); }
      case OutgoingConnError(dialed, c, _, _) => ErrorInv(n, dialed, c);
      case _ =>
    }
    var n1 := Bookkeep(n, ev, now).0;
    assert Bookkeep(n, ev, now).1 == [] && Inv(n1);
    MappedInv(n1, portMapped, now, pick);
    var n2 := if portMapped then Transit(n1, NatStatusChanged(Public), now, pick) else n1;
    RunningAfterMap(n1, portMapped, now, pick);
    TranslatedPlain(n2, ev);
    var (ctx, es) := Translate(n2.ctx, ev);
    var m := n2.(ctx := ctx);
    assert [] + es == es;
    if es == [] {
      FeedSingle(m, ListeningOn, now, pick);
    } else {
      assert es == [es[0]];
      FeedSingle(m, es[0], now, pick);
      PlainKeeps(m, es[0], now, pick);
    }
  }

  // ----- connections that come and go -----

  /** Bookkeeping touches only the tracker and the registry of direct peers. */
  lemma NewConnections(n: Node, m: Node)
    requires Inv(n) && m == n.(tracker := m.tracker, ctx := n.ctx.(directPeers := m.ctx.directPeers))
    requires Consistent(m.tracker) && m.ctx.directPeers == m.tracker.direct.Keys
    ensures Base(m) && CoveredBut(m, ListeningOn)
  {
    hide HistoryOk, ChainAt, Disconnects, QueryOut, Consistent;
    forall q ensures RetryOk(m, q) { assert RetryOk(n, q); }
  }

  lemma EmptyMeansGone(t: Tracker, p: PeerId)
    requires Agreeing(t)
    ensures ConnectionCount(t, p) == 0 <==> p !in t.relayed && p !in t.direct
  {
  }

  /** A port mapping found meanwhile changes neither tracker nor tunnels. */
  lemma MappedKeeps(n: Node, portMapped: bool, now: Time, pick: PeerModel.Pick)
    requires Base(n) && CoveredBut(n, ListeningOn) && !Stopped(n)
    ensures var m := if portMapped then Transit(n, NatStatusChanged(Public), now, pick) else n;
            Base(m) && CoveredBut(m, ListeningOn) && !Stopped(m) && m.tracker == n.tracker
                && m.app.tunnel == n.app.tunnel
  {
    hide Transit, Base;
    if portMapped {
      var e := NatStatusChanged(Public);
      CoverPlain(n, e);
      TransitBase(n, e, now, pick);
      RunningAfterMap(n, portMapped, now, pick);
      assert IdsOld(n.ctx) && (n.app.peer.phase.Ready? ==> n.everReady) by { BaseParts(n); }
      hide CoveredBut;
      TransitCover(n, e, now, pick);
      TransitTunnel(n, e, now, pick);
    }
  }

  lemma BaseParts(n: Node)
    requires Base(n)
    ensures IdsOld(n.ctx) && (n.app.peer.phase.Ready? ==> n.everReady) && Consistent(n.tracker)
  {
  }

  /** The state between the bookkeeping of a connection of `p` and the event that reports it. */
  ghost predicate Waiting(n: Node, p: PeerId) {
    && Base(n) && CoveredBut(n, ListeningOn) && !Stopped(n)
    && (forall q :: IdsAgree(n, q))
    && (forall q | q != p :: RelayKnown(n, q))
  }

  lemma FeedRuns(n: Node, e: Event, now: Time, pick: PeerModel.Pick)
    requires !Stopped(n) && !e.ShutdownRequested? && !e.PhaseChanged?
    ensures !Stopped(Feed(n, e, now, pick))
  {
    hide AppStep, Execute, PeerModel.PeerStep, TargetPeers;
    PhaseOfStep(n.app, AppInput(e, now, pick));
    PhaseMoves(n.app.peer, e, pick);
    ArmRuns(Transit(n, e, now, pick), TargetPeers(Transit(n, e, now, pick).app.tunnel), now, pick);
  }

  lemma {:induction false} ArmRuns(n: Node, ps: seq<PeerId>, now: Time, pick: PeerModel.Pick)
    requires !Stopped(n)
    ensures !Stopped(ArmAll(n, ps, now, pick))
  {
    hide AppStep, Execute, PeerModel.PeerStep, StartAttempt;
    if ps != [] {
      var m, p := ArmAll(n, ps[..|ps| - 1], now, pick), ps[|ps| - 1];
      ArmRuns(n, ps[..|ps| - 1], now, pick);
      var (t, id) := StartAttempt(m.tracker, p, HOLE_PUNCH_TIMEOUT, now);
      if id.Some? {
        PhaseOfStep(m.app, AppInput(HolePunchAttemptStarted(p, id.value), now, pick));
        PhaseMoves(m.app.peer, HolePunchAttemptStarted(p, id.value), pick);
      }
    }
  }

  /** An event about `p` that says nothing about its connections. */
  predicate Neutral(e: Event) { e.BootstrapConnected? || e.HolePunchAttemptStarted? }

  lemma NeutralFeed(n: Node, p: PeerId, e: Event, now: Time, pick: PeerModel.Pick)
    requires Base(n) && CoveredBut(n, ListeningOn) && !Stopped(n) && Neutral(e) && StartOk(n, e)
    requires (forall q :: IdsAgree(n, q) || Starts(e, q)) && (forall q | q != p :: RelayKnown(n, q))
    ensures var m := Feed(n, e, now, pick);
            Waiting(m, p) && m.tracker.relayed == n.tracker.relayed && m.tracker.direct == n.tracker.direct
  {
    hide Base, Feed, IdsAgree, RelayKnown, StartOk, Starts;
    CoverPlain(n, e);
    hide CoveredBut;
    FeedRuns(n, e, now, pick);
    FeedKeeps(n, e, now, pick);
    FeedConnections(n, e, now, pick);
    forall q ensures IdsAgree(Feed(n, e, now, pick), q) { FeedIds(n, e, now, pick, q); }
    forall q | q != p ensures RelayKnown(Feed(n, e, now, pick), q) { FeedRelay(n, e, now, pick, q); }
  }

  lemma FeedConnections(n: Node, e: Event, now: Time, pick: PeerModel.Pick)
    requires Base(n) && EventOk(n, e) && CoveredBut(n, e)
    ensures var m := Feed(n, e, now, pick);
            m.tracker.relayed == n.tracker.relayed && m.tracker.direct == n.tracker.direct
  {
    hide Base, Feed, EventOk, CoveredBut, Transit;
    NotBridge(n, e);
    FeedKeeps(n, e, now, pick);
    TransitTunnel(n, e, now, pick);
  }

  /** Reporting the connection settles the node. */
  lemma ReportFeed(n: Node, p: PeerId, e: Event, now: Time, pick: PeerModel.Pick)
    requires Waiting(n, p)
    requires e.TunnelPeerConnected? || e.ConnectionLost?
    requires EventOk(n, e) && (RelayKnown(n, p) || Informs(n, e, p)) && forall q :: !Misinforms(n, e, q)
    ensures Inv(Feed(n, e, now, pick))
  {
    hide Base, Feed, IdsAgree, RelayKnown, EventOk, Informs, Misinforms;
    CoverPlain(n, e);
    hide CoveredBut;
    FeedKeeps(n, e, now, pick);
    forall q ensures IdsAgree(Feed(n, e, now, pick), q) { assert IdsAgree(n, q); FeedIds(n, e, now, pick, q); }
    forall q ensures RelayKnown(Feed(n, e, now, pick), q) { FeedRelay(n, e, now, pick, q); }
  }

  // ----- a closed connection -----

  /** What one operation on `p` can change about the other peers: nothing. */
  ghost predicate Elsewhere(t: Tracker, t': Tracker, p: PeerId) {
    && (forall q | q != p :: (q in t'.relayed <==> q in t.relayed) && (q in t'.direct <==> q in t.direct))
    && (forall q | q in t'.attempts && q != p :: q in t.attempts && t'.attempts[q].attemptId == t.attempts[q].attemptId)
  }

  lemma ClosedElsewhere(t: Tracker, p: PeerId, c: ConnectionId, num: nat)
    ensures var (t', u) := Closed(t, p, c, num);
            && Elsewhere(t, t', p)
            && (p in t'.attempts ==> p in t.attempts && t'.attempts[p] == t.attempts[p])
            && (p in t'.relayed ==> p in t.relayed) && (p in t'.direct ==> p in t.direct)
            && t'.direct.Keys == t.direct.Keys - (if u.clearDirectRegistry then {p} else {})
  {
  }

  lemma ClosedWaits(n: Node, p: PeerId, c: ConnectionId, num: nat)
    requires Inv(n) && !Stopped(n)
    ensures var n1 := Bookkeep(n, ConnClosed(p, c, num), 0).0;
            && Waiting(n1, p)
            && (RelayKnown(n1, p) || ConnectionCount(n1.tracker, p) == 0)
            && (ConnectionCount(n1.tracker, p) == 0 ==> p !in n1.tracker.relayed)
  {
    hide Agreeing, Accounted, Base, CoveredBut, Closed, ConnectionCount;
    InvIsConsistent(n);
    var t := Closed(n.tracker, p, c, num).0;
    ClosedKeeps(n.tracker, p, c, num);
    ClosedElsewhere(n.tracker, p, c, num);
    var n1 := Bookkeep(n, ConnClosed(p, c, num), 0).0;
    assert n.ctx.directPeers == n.tracker.direct.Keys by { InvRegistry(n); }
    NewConnections(n, n1);
    EmptyMeansGone(t, p);
    forall q ensures IdsAgree(n1, q) { assert IdsAgree(n, q); }
    forall q ensures RelayKnown(n1, q) || (q == p && ConnectionCount(t, p) == 0) { assert RelayKnown(n, q); }
  }

  lemma InvRegistry(n: Node)
    requires Inv(n)
    ensures n.ctx.directPeers == n.tracker.direct.Keys
  {
  }

  lemma ClosedInv(n: Node, p: PeerId, c: ConnectionId, num: nat, portMapped: bool, now: Time, pick: PeerModel.Pick)
    requires Inv(n) && !Stopped(n)
    ensures Inv(OnSwarmEvent(n, ConnClosed(p, c, num), portMapped, now, pick))
  {
    hide Base, CoveredBut, Transit, Closed, FeedAll, Feed;
    ClosedWaits(n, p, c, num);
    var n1 := Bookkeep(n, ConnClosed(p, c, num), now).0;
    assert n1 == Bookkeep(n, ConnClosed(p, c, num), 0).0;
    MappedKeeps(n1, portMapped, now, pick);
    var n2 := if portMapped then Transit(n1, NatStatusChanged(Public), now, pick) else n1;
    forall q ensures (IdsAgree(n1, q) ==> IdsAgree(n2, q)) && (RelayKnown(n1, q) ==> RelayKnown(n2, q)) {}
    var e := ConnectionLost(p, ConnectionCount(n1.tracker, p));
    hide Inv;
    ReportFeed(n2, p, e, now, pick);
    FeedSingle(n2, e, now, pick);
    assert [e] + [] == [e];
    assert n2.(ctx := n2.ctx) == n2;
  }

  // ----- a new connection -----

  lemma EstablishedWaits(n: Node, p: PeerId, c: ConnectionId, relayed: bool, remote: Multiaddr, now: Time)
    requires Inv(n) && !Stopped(n)
    ensures var (n1, es) := Bookkeep(n, ConnEstablished(p, c, relayed, remote), now);
            && Base(n1) && CoveredBut(n1, ListeningOn) && !Stopped(n1)
            && n1.app == n.app && |es| <= 1
            && (es == [] ==> forall q :: IdsAgree(n1, q))
            && (es != [] ==> Neutral(es[0]) && es[0].HolePunchAttemptStarted? && StartOk(n1, es[0])
                             && forall q :: IdsAgree(n1, q) || Starts(es[0], q))
            && (forall q | q != p :: RelayKnown(n1, q))
            && (p in n1.tracker.relayed <==> relayed)
  {
    hide Agreeing, Accounted, Base, CoveredBut, Established, StartAttempt;
    InvIsConsistent(n);
    var t1 := Established(n.tracker, p, c, relayed).0;
    EstablishedKeeps(n.tracker, p, c, relayed);
    StartKeeps(t1, p, HOLE_PUNCH_TIMEOUT, now);
    EstablishedElsewhere(n.tracker, p, c, relayed);
    StartElsewhere(t1, p, HOLE_PUNCH_TIMEOUT, now);
    InvRegistry(n);
    var (n1, es) := Bookkeep(n, ConnEstablished(p, c, relayed, remote), now);
    assert n1.ctx.directPeers == n1.tracker.direct.Keys;
    NewConnections(n, n1);
    forall q ensures IdsAgree(n1, q) || (es != [] && Starts(es[0], q)) { assert IdsAgree(n, q); }
    forall q | q != p ensures RelayKnown(n1, q) { assert RelayKnown(n, q); }
  }

  lemma EstablishedElsewhere(t: Tracker, p: PeerId, c: ConnectionId, relayed: bool)
    ensures var (t', u) := Established(t, p, c, relayed);
            && Elsewhere(t, t', p)
            && (p in t'.attempts ==> p in t.attempts && t'.attempts[p] == t.attempts[p])
            && (p in t'.relayed <==> relayed)
            && t'.direct.Keys == t.direct.Keys + (if u.direct then {p} else {})
  {
  }

  lemma StartElsewhere(t: Tracker, p: PeerId, timeout: Time, now: Time)
    ensures var (t', id) := StartAttempt(t, p, timeout, now);
            && t'.relayed == t.relayed && t'.direct == t.direct
            && (forall q | q != p ::
                  (q in t'.attempts <==> q in t.attempts) && (q in t'.attempts ==> t'.attempts[q] == t.attempts[q]))
            && (if id.None? then t' == t else p in t'.attempts && t'.attempts[p].attemptId == id.value)
  {
  }

  lemma FeedTwo(n: Node, a: Event, b: Event, now: Time, pick: PeerModel.Pick)
    ensures FeedAll(n, [a, b], now, pick) == var m := FeedAll(n, [a], now, pick);
            if Stopped(m) then m else FeedOne(m, b, now, pick)
  {
    hide FeedOne;
    assert [a, b][..1] == [a];
  }

  lemma FeedThree(n: Node, a: Event, b: Event, c: Event, now: Time, pick: PeerModel.Pick)
    ensures FeedAll(n, [a, b, c], now, pick)
            == var m := FeedAll(n, [a, b], now, pick); if Stopped(m) then m else FeedOne(m, c, now, pick)
  {
    hide FeedOne;
    assert [a, b, c][..2] == [a, b];
  }

  lemma ReportIsOk(n: Node, p: PeerId, relayed: bool)
    requires p in n.tracker.relayed <==> relayed
    ensures var e := TunnelPeerConnected(p, relayed);
            EventOk(n, e) && Informs(n, e, p) && forall q :: !Misinforms(n, e, q)
  {
  }

  lemma EstablishedInv(n: Node, p: PeerId, c: ConnectionId, relayed: bool, remote: Multiaddr, portMapped: bool,
                       now: Time, pick: PeerModel.Pick)
    requires Inv(n) && !Stopped(n)
    ensures Inv(OnSwarmEvent(n, ConnEstablished(p, c, relayed, remote), portMapped, now, pick))
  {
    hide Base, CoveredBut, Transit, Bookkeep, FeedAll, Feed, Inv;
    var ev := ConnEstablished(p, c, relayed, remote);
    EstablishedWaits(n, p, c, relayed, remote, now);
    var (n1, es) := Bookkeep(n, ev, now);
    MappedKeeps(n1, portMapped, now, pick);
    var n2 := if portMapped then Transit(n1, NatStatusChanged(Public), now, pick) else n1;
    forall q ensures (IdsAgree(n1, q) ==> IdsAgree(n2, q)) && (RelayKnown(n1, q) ==> RelayKnown(n2, q)) {}
    assert n2.(ctx := n2.ctx) == n2;
    hide IdsAgree, RelayKnown, StartOk, Starts;
    var b, r := BootstrapConnected(p, remote), TunnelPeerConnected(p, relayed);
    var m := n2;
    if es != [] {
      assert es == [es[0]];
      assert StartOk(n2, es[0]) by { SameStart(n1, n2, es[0]); }
      NeutralFeed(n2, p, es[0], now, pick);
      FeedSingle(n2, es[0], now, pick);
      m := Feed(n2, es[0], now, pick);
    }
    assert Waiting(m, p) && (p in m.tracker.relayed <==> relayed);
    if p in n2.ctx.bootstrap {
      var m' := m;
      assert StartOk(m, b) by { SameStart(m, m, b); }
      NeutralFeed(m, p, b, now, pick);
      m := Feed(m, b, now, pick);
      if es != [] { FeedTwo(n2, es[0], b, now, pick); FeedThree(n2, es[0], b, r, now, pick); }
      else { FeedSingle(n2, b, now, pick); FeedTwo(n2, b, r, now, pick); }
    } else {
      if es != [] { FeedTwo(n2, es[0], r, now, pick); } else { FeedSingle(n2, r, now, pick); }
    }
    ReportIsOk(m, p, relayed);
    ReportFeed(m, p, r, now, pick);
    Listed(es, b, r, p in n2.ctx.bootstrap);
  }

  lemma SameStart(n: Node, m: Node, e: Event)
    requires m.tracker == n.tracker
    ensures StartOk(n, e) ==> StartOk(m, e)
    ensures !e.HolePunchAttemptStarted? ==> StartOk(m, e)
  {
  }

  lemma Listed(es: seq<Event>, b: Event, r: Event, both: bool)
    requires |es| <= 1
    ensures es + ((if both then [b] else []) + [r])
            == if es == [] then (if both then [b, r] else [r]) else (if both then [es[0], b, r] else [es[0], r])
  {
  }

  // ----- the loop -----

  lemma IterateKeeps(n: Node, i: Input)
    requires Inv(n)
    ensures Inv(Iterate(n, i))
  {
    hide Inv, OnSwarmEvent, Transit, FireTimeouts, TakeDue;
    if !Stopped(n) {
      match i
      case Swarm(ev, portMapped, now, pick) =>
        if ev.ConnEstablished? {
          EstablishedInv(n, ev.peer, ev.id, ev.relayed, ev.remote, portMapped, now, pick);
        } else if ev.ConnClosed? {
          ClosedInv(n, ev.peer, ev.id, ev.numEstablished, portMapped, now, pick);
        } else {
          PlainSwarmInv(n, ev, portMapped, now, pick);
        }
      case DiscoveryDeadline(now, pick) => TimerInv(n, DiscoveryTimeout, now, pick);
      case HolePunchDeadline(order, now, pick) =>
        TakeDueInv(n, now);
        var (t, due) := TakeDue(n.tracker, now);
        TimeoutsInv(n.(tracker := t), due, DueInOrder(due, order), now, pick);
      case ShutdownSignal(now, pick) => TimerInv(n, ShutdownRequested, now, pick);
    }
  }

  lemma TimerInv(n: Node, e: Event, now: Time, pick: PeerModel.Pick)
    requires Inv(n) && (e.DiscoveryTimeout? || e.ShutdownRequested?)
    ensures Inv(Transit(n, e, now, pick))
  {
    hide Transit, Base;
    CoverPlain(n, e);
    QuietInv(n, e, now, pick);
  }

  lemma {:induction false} RunsKeepInv(l: Launch, run: seq<Input>)
    ensures Inv(NodeAfter(Started(l), run))
  {
    hide Inv, Iterate, Started;
    if run == [] {
      StartedInv(l);
    } else {
      RunsKeepInv(l, run[..|run| - 1]);
      IterateKeeps(NodeAfter(Started(l), run[..|run| - 1]), run[|run| - 1]);
    }
  }

  // ----- what it means for runs -----

  /** In every run, each attempt failure or timeout that reaches the tunnel machine carries the id of
      the session it meets: the stale branch never fires. */
  lemma NoStaleAttempts(l: Launch, run: seq<Input>, k: nat)
    requires k < |NodeAfter(Started(l), run).log|
    ensures AttemptCurrent(NodeAfter(Started(l), run).log[k])
  {
    hide Iterate, Started, AttemptCurrent, Disconnects;
    RunsKeepInv(l, run);
    var log := NodeAfter(Started(l), run).log;
    assert SpawnJustified(log, k) && AttemptCurrent(log[k]);
  }

  /** In every run, a tunnel is spawned to a peer that the tracker sees as relay-only only after
      exactly three disconnects of it since its retry state was last cleared. */
  lemma RelaySpawnAfterThreeDisconnects(l: Launch, run: seq<Input>, k: nat, p: PeerId, x: Spec)
    requires k < |NodeAfter(Started(l), run).log|
    requires var r := NodeAfter(Started(l), run).log[k]; SpawnTunnel(p, x) in r.commands && RelayOnly(r.tracker, p)
    ensures Disconnects(NodeAfter(Started(l), run).log[..k], p) == TM.MAX_RELAY_RECONNECT_RETRIES
  {
    hide Iterate, Started, AttemptCurrent, Disconnects;
    RunsKeepInv(l, run);
    var log := NodeAfter(Started(l), run).log;
    assert SpawnJustified(log, k);
  }

  /** At every loop head both machines agree on who is relayed, the registry of direct peers is the
      tracker's, and a peer with an attempt and a session has one attempt id. */
  lemma MachinesAgree(l: Launch, run: seq<Input>, p: PeerId)
    ensures var n := NodeAfter(Started(l), run);
            && (p in n.tracker.relayed ==> p in n.app.tunnel.relayed)
            && (p in n.app.tunnel.relayed ==> p in n.tracker.relayed || p in n.tracker.direct)
            && (p in n.ctx.directPeers <==> p in n.tracker.direct)
            && (p in n.tracker.attempts && p in n.app.tunnel.retry.sessions ==>
                  n.tracker.attempts[p].attemptId == n.app.tunnel.retry.sessions[p].attemptId)
  {
    hide Iterate, Started, HistoryOk, Consistent, RetryOk;
    RunsKeepInv(l, run);
    var n := NodeAfter(Started(l), run);
    assert IdsAgree(n, p) && RelayKnown(n, p);
  }

  /** Once the node has been Ready, every service that still waits has a provider query out, at
      every loop head. */
  lemma NoServiceStranded(l: Launch, run: seq<Input>, j: nat, name: ServiceName)
    requires j <= |run|
    ensures var n := NodeAfter(Started(l), run);
            NodeAfter(Started(l), run[..j]).app.peer.phase.Ready? && name in n.app.tunnel.q.pendingByService ==>
              exists id | id in n.ctx.serviceQueries :: n.ctx.serviceQueries[id] == name
  {
    hide Iterate, Started, HistoryOk, Consistent, RetryOk;
    RunsKeepInv(l, run);
    ReadyRemembered(l, run, j);
    var n := NodeAfter(Started(l), run);
    if n.everReady && name in n.app.tunnel.q.pendingByService { assert QueryOut(n.ctx.serviceQueries, name); }
  }

  lemma {:induction false} ReadyRemembered(l: Launch, run: seq<Input>, j: nat)
    requires j <= |run|
    ensures NodeAfter(Started(l), run[..j]).app.peer.phase.Ready? ==> NodeAfter(Started(l), run).everReady
    decreases |run|
  {
    hide Iterate, Started, Inv;
    if j == |run| {
      assert run[..j] == run;
      RunsKeepInv(l, run);
      InvRemembers(NodeAfter(Started(l), run));
    } else {
      assert run[..|run| - 1][..j] == run[..j];
      ReadyRemembered(l, run[..|run| - 1], j);
      IterateRemembers(NodeAfter(Started(l), run[..|run| - 1]), run[|run| - 1]);
    }
  }

  lemma InvRemembers(n: Node)
    requires Inv(n)
    ensures n.app.peer.phase.Ready? ==> n.everReady
  {
  }

  /** `everReady` and the turn counter never go back. */
  ghost predicate Later(n: Node, m: Node) {
    (n.everReady ==> m.everReady) && n.ctx.turn <= m.ctx.turn
    && (forall id: QueryId | id in m.ctx.serviceQueries :: id in n.ctx.serviceQueries || n.ctx.turn <= id.turn)
  }

  lemma TransitLater(n: Node, e: Event, now: Time, pick: PeerModel.Pick)
    ensures Later(n, Transit(n, e, now, pick))
  {
    hide AppStep;
  }

  lemma {:induction false} ArmLater(n: Node, ps: seq<PeerId>, now: Time, pick: PeerModel.Pick)
    ensures Later(n, ArmAll(n, ps, now, pick))
  {
    hide Transit, StartAttempt;
    if ps != [] {
      var m, p := ArmAll(n, ps[..|ps| - 1], now, pick), ps[|ps| - 1];
      ArmLater(n, ps[..|ps| - 1], now, pick);
      var (t, id) := StartAttempt(m.tracker, p, HOLE_PUNCH_TIMEOUT, now);
      if id.Some? { TransitLater(m.(tracker := t), HolePunchAttemptStarted(p, id.value), now, pick); }
    }
  }

  lemma FeedLater(n: Node, e: Event, now: Time, pick: PeerModel.Pick)
    ensures Later(n, FeedOne(n, e, now, pick))
  {
    hide Transit, ArmAll, TargetPeers;
    var f := Scoped(n.tracker, e);
    if f.Some? {
      TransitLater(n, f.value, now, pick);
      ArmLater(Transit(n, f.value, now, pick), TargetPeers(Transit(n, f.value, now, pick).app.tunnel), now, pick);
    }
  }

  lemma {:induction false} FeedAllLater(n: Node, es: seq<Event>, now: Time, pick: PeerModel.Pick)
    ensures Later(n, FeedAll(n, es, now, pick))
  {
    hide FeedOne;
    if es != [] {
      FeedAllLater(n, es[..|es| - 1], now, pick);
      FeedLater(FeedAll(n, es[..|es| - 1], now, pick), es[|es| - 1], now, pick);
    }
  }

  lemma {:induction false} TimeoutsLater(n: Node, due: map<PeerId, nat>, order: seq<PeerId>, now: Time,
                                         pick: PeerModel.Pick)
    ensures Later(n, FireTimeouts(n, due, order, now, pick))
  {
    hide Transit;
    if order != [] {
      var m, p := FireTimeouts(n, due, order[..|order| - 1], now, pick), order[|order| - 1];
      TimeoutsLater(n, due, order[..|order| - 1], now, pick);
      if p in due { TransitLater(m, HolePunchAttemptTimeout(p, due[p]), now, pick); }
    }
  }

  lemma SwarmLater(n: Node, ev: SwarmEvent, portMapped: bool, now: Time, pick: PeerModel.Pick)
    ensures Later(n, OnSwarmEvent(n, ev, portMapped, now, pick))
    ensures ev.KadProviders? && ev.query.turn < n.ctx.turn ==>
              ev.query !in OnSwarmEvent(n, ev, portMapped, now, pick).ctx.serviceQueries
  {
    hide Transit, FeedAll, ProvidersEvent;
    var (n1, synthetic) := Bookkeep(n, ev, now);
    assert Later(n, n1) by { BookkeepLater(n, ev, now); }
    hide Bookkeep;
    TransitLater(n1, NatStatusChanged(Public), now, pick);
    var n2 := if portMapped then Transit(n1, NatStatusChanged(Public), now, pick) else n1;
    var (ctx, translated) := Translate(n2.ctx, ev);
    FeedAllLater(n2.(ctx := ctx), synthetic + translated, now, pick);
  }

  lemma BookkeepLater(n: Node, ev: SwarmEvent, now: Time)
    ensures Later(n, Bookkeep(n, ev, now).0)
  {
    hide Established, Closed, StartAttempt, TrackerModel.Dialing, OutgoingError;
  }

  lemma IterateLater(n: Node, i: Input)
    ensures Later(n, Iterate(n, i))
  {
    hide OnSwarmEvent, Transit, FireTimeouts, TakeDue;
    match i
    case Swarm(ev, portMapped, now, pick) => SwarmLater(n, ev, portMapped, now, pick);
    case DiscoveryDeadline(now, pick) => TransitLater(n, DiscoveryTimeout, now, pick);
    case HolePunchDeadline(order, now, pick) =>
      var (t, due) := TakeDue(n.tracker, now);
      TimeoutsLater(n.(tracker := t), due, DueInOrder(due, order), now, pick);
    case ShutdownSignal(now, pick) => TransitLater(n, ShutdownRequested, now, pick);
  }

  lemma IterateRemembers(n: Node, i: Input)
    ensures n.everReady ==> Iterate(n, i).everReady
  {
    hide Iterate;
    IterateLater(n, i);
  }

  /** A query id that is neither outstanding nor to be handed out again. */
  predicate Gone(n: Node, id: QueryId) { id !in n.ctx.serviceQueries && id.turn < n.ctx.turn }

  lemma AnsweredNow(n: Node, i: Input)
    requires Inv(n) && !Stopped(n) && i.Swarm? && i.event.KadProviders? && i.event.query in n.ctx.serviceQueries
    ensures Gone(Iterate(n, i), i.event.query)
  {
    hide OnSwarmEvent;
    InvIdsOld(n);
    hide Inv;
    SwarmLater(n, i.event, i.portMapped, i.now, i.pick);
  }

  lemma GoneStays(n: Node, i: Input, id: QueryId)
    ensures Gone(n, id) ==> Gone(Iterate(n, i), id)
  {
    hide Iterate;
    IterateLater(n, i);
  }

  lemma {:induction false} GoneForGood(l: Launch, run: seq<Input>, j: nat, id: QueryId)
    requires j <= |run|
    ensures Gone(NodeAfter(Started(l), run[..j]), id) ==> Gone(NodeAfter(Started(l), run), id)
    decreases |run|
  {
    hide Iterate, Started, Gone;
    if j == |run| {
      assert run[..j] == run;
    } else {
      var last := |run| - 1;
      assert run[..last][..j] == run[..j];
      GoneForGood(l, run[..last], j, id);
      GoneStays(NodeAfter(Started(l), run[..last]), run[last], id);
    }
  }

  /** A provider query that has been answered is never outstanding again: each query id yields at
      most one outcome. */
  lemma AnsweredOnce(l: Launch, run: seq<Input>, j: nat, id: QueryId)
    requires j < |run| && run[j].Swarm? && run[j].event.KadProviders? && run[j].event.query == id
    ensures var asked := NodeAfter(Started(l), run[..j]);
            id in asked.ctx.serviceQueries && !Stopped(asked) ==> Gone(NodeAfter(Started(l), run), id)
  {
    hide Iterate, Started, Gone, Inv;
    var asked := NodeAfter(Started(l), run[..j]);
    RunsKeepInv(l, run[..j]);
    assert run[..j + 1][..j] == run[..j];
    if id in asked.ctx.serviceQueries && !Stopped(asked) { AnsweredNow(asked, run[j]); }
    GoneForGood(l, run, j + 1, id);
  }

  lemma InvIdsOld(n: Node)
    requires Inv(n)
    ensures IdsOld(n.ctx)
  {
  }
}
