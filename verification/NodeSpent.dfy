/** Whether the hole-punch attempt of a peer is still going to be decided, by a punching session under a
    deadline or by a redial that is due, and what one iteration of the node can change about it. */
module NodeSpent {
  import opened Types
  import opened Ordering
  import opened TrackerModel
  import opened NodeModel
  import opened NodeTransit
  import opened NodeInvariants
  import opened NodeRuns
  import opened NodeArming
  import PeerModel
  import TM = TunnelModel

  /** Tunnels wait for a direct path to `p`, which is reached only through a relay. */
  predicate Waits(n: Node, p: PeerId) { RelayOnly(n.tracker, p) && p in n.app.tunnel.q.awaiting }

  /** The attempt of `p` is going to be decided: it is punching under a deadline, or a redial is due. */
  predicate Live(n: Node, p: PeerId) {
    p in n.app.tunnel.retry.pendingRedial || (p in n.tracker.deadlines && PunchingAt(n.app.tunnel, p))
  }

  /** `p` has an attempt of which nothing more will come. */
  predicate Spent(n: Node, p: PeerId) { p in n.tracker.attempts && !Live(n, p) }

  predicate Served(n: Node, p: PeerId) { Stopped(n) || (Waits(n, p) ==> Live(n, p)) }

  // ----- what one event does to the retry state of `p` -----

  function SessionAt(s: TM.Tunnel, p: PeerId): Option<(nat, TM.PunchPhase)> {
    if p in s.retry.sessions then Some((s.retry.sessions[p].attemptId, s.retry.sessions[p].phase)) else None
  }

  predicate PunchingAt(s: TM.Tunnel, p: PeerId) { p in s.retry.sessions && s.retry.sessions[p].phase.Punching? }

  predicate SameRetry(s: TM.Tunnel, t: TM.Tunnel, p: PeerId) {
    SessionAt(s, p) == SessionAt(t, p) && (p in s.retry.pendingRedial <==> p in t.retry.pendingRedial)
  }

  /** The events that leave the retry state of `p` alone. */
  predicate Still(e: Event, p: PeerId) {
    && !e.PhaseChanged?
    && !(e.HolePunchAttemptStarted? && e.startedPeer == p)
    && !(e.HolePunchAttemptFailed? && e.failedPeer == p)
    && !(e.HolePunchAttemptTimeout? && e.timedOutPeer == p)
    && !(e.ConnectionLost? && e.lost == p && e.remaining == 0)
    && !(e.TunnelPeerConnected? && e.connectedPeer == p && !e.relayed)
  }

  lemma RetryStill(s: TM.Tunnel, q: PeerId, id: nat, p: PeerId)
    requires q != p
    ensures SameRetry(s, TM.RetryAttempt(s, q, id).state, p)
  {
    hide TM.Spawns;
  }

  lemma LostStill(s: TM.Tunnel, q: PeerId, now: Time, p: PeerId)
    requires q != p
    ensures SameRetry(s, TM.AllConnectionsLost(s, q, now).state, p)
  {
    hide TM.RedialCommand;
  }

  lemma DialFailedStill(s: TM.Tunnel, q: PeerId, pendingAbort: bool, now: Time, p: PeerId)
    ensures SameRetry(s, TM.DialFailed(s, q, pendingAbort, now).state, p)
  {
    hide TM.RedialCommand, TM.RerouteFailed, TM.Lookups, TM.Queries;
  }

  lemma ConnectedStill(s: TM.Tunnel, q: PeerId, relayed: bool, p: PeerId)
    requires relayed || q != p
    ensures SameRetry(s, TM.PeerConnected(s, q, relayed).state, p)
  {
    hide TM.Spawns;
  }

  lemma IdentifiedStill(s: TM.Tunnel, q: PeerId, listen: seq<Multiaddr>, now: Time, p: PeerId)
    ensures SameRetry(s, TM.Identified(s, q, listen, now), p)
  {
    hide TM.BookAfter;
  }

  lemma StepStill(s: TM.Tunnel, e: Event, now: Time, p: PeerId)
    requires Still(e, p)
    ensures SameRetry(s, TM.Step(s, e, now).state, p)
  {
    hide TM.RetryAttempt, TM.AllConnectionsLost, TM.DialFailed, TM.PeerConnected, TM.Identified, TM.ResolveService,
         TM.RouteConnected, SameRetry;
    SameAsItself(s, p);
    match e
    case HolePunchAttemptFailed(q, id) => RetryStill(s, q, id, p);
    case HolePunchAttemptTimeout(q, id) => RetryStill(s, q, id, p);
    case ConnectionLost(q, _) => if q != p { LostStill(s, q, now, p); }
    case TunnelDialFailed(q, pendingAbort) => DialFailedStill(s, q, pendingAbort, now, p);
    case TunnelPeerConnected(q, relayed) => ConnectedStill(s, q, relayed, p);
    case PeerIdentified(q, listen) => IdentifiedStill(s, q, listen, now, p);
    case HolePunchAttemptStarted(q, id) => StartedStill(s, q, id, p);
    case DhtServiceResolved(_, _) =>
      hide TM.Step;
      RoutingSession(s, e, now);
      SameRetryState(s, TM.Step(s, e, now).state, p);
    case DhtPeerLookupComplete(_, _) =>
      hide TM.Step;
      RoutingSession(s, e, now);
      SameRetryState(s, TM.Step(s, e, now).state, p);
    case _ =>
  }

  lemma SameAsItself(s: TM.Tunnel, p: PeerId)
    ensures SameRetry(s, s, p)
  {
  }

  lemma SameRetryState(s: TM.Tunnel, t: TM.Tunnel, p: PeerId)
    requires t.retry == s.retry
    ensures SameRetry(s, t, p)
  {
  }

  lemma StartedStill(s: TM.Tunnel, q: PeerId, id: nat, p: PeerId)
    requires q != p
    ensures SameRetry(s, TM.Step(s, HolePunchAttemptStarted(q, id), 0).state, p)
  {
  }

  lemma StartedPunches(s: TM.Tunnel, p: PeerId, id: nat, now: Time)
    ensures PunchingAt(TM.Step(s, HolePunchAttemptStarted(p, id), now).state, p)
  {
  }

  /** A reported failure or timeout is ignored, makes a redial due, or ends the wait. */
  lemma RetryOutcome(s: TM.Tunnel, p: PeerId, id: nat)
    ensures var t := TM.RetryAttempt(s, p, id).state;
            && (t == s || p in t.retry.pendingRedial || p !in t.q.awaiting)
            && (TM.Current(s, p, id) ==> p in t.retry.pendingRedial || p !in t.q.awaiting)
            && (p in s.retry.pendingRedial && p in t.q.awaiting ==> p in t.retry.pendingRedial)
            && t.relayed == s.relayed && forall q | q in t.q.awaiting :: q in s.q.awaiting
  {
    hide TM.Spawns;
  }

  lemma FailureIsRetry(s: TM.Tunnel, p: PeerId, id: nat, now: Time)
    ensures TM.Step(s, HolePunchAttemptFailed(p, id), now) == TM.RetryAttempt(s, p, id)
    ensures TM.Step(s, HolePunchAttemptTimeout(p, id), now) == TM.RetryAttempt(s, p, id)
  {
    hide TM.RetryAttempt;
  }

  // ----- the node, one step at a time -----

  /** Whether the attempt of `p` is spent, before and after. */
  predicate Same(n: Node, m: Node, p: PeerId) { Spent(n, p) == Spent(m, p) }

  lemma SameTracking(n: Node, m: Node, p: PeerId)
    requires SameRetry(n.app.tunnel, m.app.tunnel, p)
    requires (p in n.tracker.attempts <==> p in m.tracker.attempts)
             && (p in n.tracker.deadlines <==> p in m.tracker.deadlines)
    ensures Same(n, m, p)
  {
  }

  lemma TransitSame(n: Node, e: Event, now: Time, pick: PeerModel.Pick, p: PeerId)
    requires Still(e, p)
    ensures var m := Transit(n, e, now, pick); Same(n, m, p) && m.tracker == n.tracker
    ensures SameRetry(n.app.tunnel, Transit(n, e, now, pick).app.tunnel, p)
  {
    hide Transit, TM.Step, SameRetry;
    TransitTunnel(n, e, now, pick);
    StepStill(n.app.tunnel, e, now, p);
    SameTracking(n, Transit(n, e, now, pick), p);
  }

  lemma StartFacts(t: Tracker, q: PeerId, now: Time, p: PeerId)
    ensures var (t', id) := StartAttempt(t, q, HOLE_PUNCH_TIMEOUT, now);
            && (q != p || id.None? ==>
                  (p in t.attempts <==> p in t'.attempts) && (p in t.deadlines <==> p in t'.deadlines))
            && (q == p && id.Some? ==> p !in t.attempts && p in t'.attempts && p in t'.deadlines)
            && (id.None? ==> t' == t)
            && t'.relayed == t.relayed && t'.direct == t.direct
  {
  }

  lemma ArmOneSame(n: Node, q: PeerId, now: Time, pick: PeerModel.Pick, p: PeerId)
    ensures Same(n, ArmOne(n, q, now, pick), p)
  {
    hide Transit, TM.Step, StartAttempt;
    StartFacts(n.tracker, q, now, p);
    var (t, id) := StartAttempt(n.tracker, q, HOLE_PUNCH_TIMEOUT, now);
    if id.Some? {
      var m := n.(tracker := t);
      if q == p {
        TransitTunnel(m, HolePunchAttemptStarted(q, id.value), now, pick);
        StartedPunches(m.app.tunnel, q, id.value, now);
      } else {
        SameTracking(n, m, p);
        TransitSame(m, HolePunchAttemptStarted(q, id.value), now, pick, p);
      }
    }
  }

  lemma {:induction false} ArmAllSame(n: Node, ps: seq<PeerId>, now: Time, pick: PeerModel.Pick, p: PeerId)
    ensures Same(n, ArmAll(n, ps, now, pick), p)
  {
    hide ArmOne, Spent;
    if ps != [] {
      ArmAllSame(n, ps[..|ps| - 1], now, pick, p);
      ArmOneSame(ArmAll(n, ps[..|ps| - 1], now, pick), ps[|ps| - 1], now, pick, p);
    }
  }

  /** Feeding arms after the transition, which moves neither tunnels nor connections. */
  lemma FeedArmed(n: Node, e: Event, now: Time, pick: PeerModel.Pick, p: PeerId)
    ensures var t, m := Transit(n, e, now, pick), Feed(n, e, now, pick);
            && Same(t, m, p) && (Waits(t, p) <==> Waits(m, p))
            && m.tracker.relayed == n.tracker.relayed && m.tracker.direct == n.tracker.direct
  {
    hide Transit, ArmAll, TargetPeers, Spent;
    var t := Transit(n, e, now, pick);
    assert t.tracker == n.tracker by { TransitTracker(n, e, now, pick); }
    ArmAllSame(t, TargetPeers(t.app.tunnel), now, pick, p);
    ArmAllArms(t, TargetPeers(t.app.tunnel), now, pick);
  }

  lemma TransitTracker(n: Node, e: Event, now: Time, pick: PeerModel.Pick)
    ensures Transit(n, e, now, pick).tracker == n.tracker
  {
  }

  lemma FeedSame(n: Node, e: Event, now: Time, pick: PeerModel.Pick, p: PeerId)
    requires Still(e, p)
    ensures Same(n, Feed(n, e, now, pick), p)
  {
    hide Transit, Feed, Spent;
    TransitSame(n, e, now, pick, p);
    FeedArmed(n, e, now, pick, p);
  }

  lemma {:induction false} FeedAllSame(n: Node, es: seq<Event>, now: Time, pick: PeerModel.Pick, p: PeerId)
    requires forall e | e in es :: Still(e, p) && AlwaysFed(e)
    ensures Same(n, FeedAll(n, es, now, pick), p)
  {
    hide Feed, Spent, Still;
    if es != [] {
      var m, e := FeedAll(n, es[..|es| - 1], now, pick), es[|es| - 1];
      FeedAllSame(n, es[..|es| - 1], now, pick, p);
      assert e in es;
      FeedSame(m, e, now, pick, p);
    }
  }

  lemma {:induction false} FeedAllConnections(n: Node, es: seq<Event>, now: Time, pick: PeerModel.Pick, p: PeerId)
    ensures var m := FeedAll(n, es, now, pick);
            m.tracker.relayed == n.tracker.relayed && m.tracker.direct == n.tracker.direct
  {
    hide Feed;
    if es != [] {
      var m, e := FeedAll(n, es[..|es| - 1], now, pick), es[|es| - 1];
      FeedAllConnections(n, es[..|es| - 1], now, pick, p);
      var f := Scoped(m.tracker, e);
      if f.Some? { FeedArmed(m, f.value, now, pick, p); }
    }
  }

  /** Events that follow the start of an attempt of `p` leave it live. */
  lemma {:induction false} StartThenFeed(n: Node, id: nat, es: seq<Event>, now: Time, pick: PeerModel.Pick, p: PeerId)
    requires !Stopped(n) && p in n.tracker.deadlines
    requires forall e | e in es :: Still(e, p) && AlwaysFed(e)
    ensures !Spent(FeedAll(n, [HolePunchAttemptStarted(p, id)] + es, now, pick), p)
    decreases |es|
  {
    hide Feed, Transit, Still;
    var start := HolePunchAttemptStarted(p, id);
    if es == [] {
      FeedSingle(n, start, now, pick);
      assert [start] + es == [start];
      TransitTracker(n, start, now, pick);
      StartIsLive(n, p, id, now, pick);
      FeedArmed(n, start, now, pick, p);
    } else {
      var k := |es| - 1;
      var all := [start] + es;
      assert all[..|all| - 1] == [start] + es[..k] && all[|all| - 1] == es[k];
      StartThenFeed(n, id, es[..k], now, pick, p);
      assert es[k] in es;
      FeedSame(FeedAll(n, [start] + es[..k], now, pick), es[k], now, pick, p);
    }
  }

  lemma StartIsLive(n: Node, p: PeerId, id: nat, now: Time, pick: PeerModel.Pick)
    requires p in n.tracker.deadlines
    ensures !Spent(Transit(n, HolePunchAttemptStarted(p, id), now, pick), p)
  {
    hide Transit, TM.Step;
    TransitTunnel(n, HolePunchAttemptStarted(p, id), now, pick);
    StartedPunches(n.app.tunnel, p, id, now);
  }

  // ----- one iteration -----

  /** How an iteration can change whether a wait is served: it leaves the attempt of `p` as spent or
      live as it was, or leaves `p` without only a relay, or starts no wait and spends no live attempt
      that is waited for. */
  predicate Explained(n: Node, m: Node, p: PeerId) {
    || Same(n, m, p)
    || !RelayOnly(m.tracker, p)
    || ((Waits(m, p) ==> Waits(n, p)) && (Waits(m, p) && !Spent(n, p) ==> !Spent(m, p)))
  }

  lemma MapSame(n: Node, portMapped: bool, now: Time, pick: PeerModel.Pick, p: PeerId)
    ensures var m := if portMapped then Transit(n, NatStatusChanged(Public), now, pick) else n;
            Same(n, m, p) && m.tracker == n.tracker && m.app.tunnel == n.app.tunnel
  {
    hide Transit, TM.Step;
    if portMapped {
      TransitSame(n, NatStatusChanged(Public), now, pick, p);
      TransitTunnel(n, NatStatusChanged(Public), now, pick);
      QuietQueues(n.app.tunnel, NatStatusChanged(Public), now);
    }
  }

  lemma DialsSame(n: Node, ev: SwarmEvent, now: Time, p: PeerId)
    requires !AboutConnections(ev)
    ensures var (m, es) := Bookkeep(n, ev, now);
            && es == [] && Same(n, m, p) && m.app == n.app
            && m.tracker.relayed == n.tracker.relayed && m.tracker.direct == n.tracker.direct
  {
  }

  lemma PlainEvents(ctx: Context, ev: SwarmEvent, p: PeerId)
    requires !AboutConnections(ev)
    ensures var es := Translate(ctx, ev).1;
            |es| <= 1 && (es != [] ==> Still(es[0], p) && !es[0].HolePunchAttemptFailed?)
  {
    hide SortedProviders;
  }

  /** A failed attempt of `p` that is fed. */
  lemma FailureExplained(n: Node, id: nat, now: Time, pick: PeerModel.Pick, p: PeerId)
    ensures Explained(n, Feed(n, HolePunchAttemptFailed(p, id), now, pick), p)
  {
    hide Transit, Feed, TM.Step, TM.RetryAttempt;
    var e := HolePunchAttemptFailed(p, id);
    TransitTunnel(n, e, now, pick);
    FailureIsRetry(n.app.tunnel, p, id, now);
    RetryOutcome(n.app.tunnel, p, id);
    FeedArmed(n, e, now, pick, p);
  }

  /** The events of an iteration that is not about connections. */
  lemma PlainFeed(n: Node, es: seq<Event>, now: Time, pick: PeerModel.Pick, p: PeerId)
    requires |es| <= 1 && (es != [] ==> Still(es[0], p) && !es[0].HolePunchAttemptFailed?)
    ensures Explained(n, FeedAll(n, es, now, pick), p)
  {
    hide Feed, Spent, Still;
    if es == [] {
      FeedSingle(n, ListeningOn, now, pick);
    } else {
      assert es == [es[0]];
      FeedSingle(n, es[0], now, pick);
      var f := Scoped(n.tracker, es[0]);
      if es[0].HolePunchFailed? && es[0].punchFailedPeer == p {
        if f.Some? { FailureExplained(n, n.tracker.attempts[p].attemptId, now, pick, p); }
      } else {
        ScopedStill(n.tracker, es[0], p);
        if f.Some? { FeedSame(n, f.value, now, pick, p); }
      }
    }
  }

  lemma ExplainedFrom(n: Node, n': Node, m: Node, p: PeerId)
    requires Explained(n', m, p) && Same(n, n', p) && n'.app.tunnel == n.app.tunnel
    requires n'.tracker.relayed == n.tracker.relayed && n'.tracker.direct == n.tracker.direct
    ensures Explained(n, m, p)
  {
    hide Spent;
  }

  lemma PlainExplained(n: Node, ev: SwarmEvent, portMapped: bool, now: Time, pick: PeerModel.Pick, p: PeerId)
    requires !AboutConnections(ev)
    ensures Explained(n, OnSwarmEvent(n, ev, portMapped, now, pick), p)
  {
    hide Bookkeep, Transit, Translate, FeedAll, Spent, Explained;
    DialsSame(n, ev, now, p);
    var (n1, synthetic) := Bookkeep(n, ev, now);
    MapSame(n1, portMapped, now, pick, p);
    var n2 := if portMapped then Transit(n1, NatStatusChanged(Public), now, pick) else n1;
    PlainEvents(n2.ctx, ev, p);
    var (ctx, es) := Translate(n2.ctx, ev);
    var n3 := n2.(ctx := ctx);
    ContextSame(n2, ctx, p);
    assert synthetic + es == es;
    PlainFeed(n3, es, now, pick, p);
    ExplainedFrom(n, n3, FeedAll(n3, es, now, pick), p);
  }

  lemma ContextSame(n: Node, ctx: Context, p: PeerId)
    ensures Same(n, n.(ctx := ctx), p)
  {
  }

  lemma ScopedStill(t: Tracker, e: Event, p: PeerId)
    requires Still(e, p) && !e.HolePunchAttemptFailed? && !(e.HolePunchFailed? && e.punchFailedPeer == p)
    ensures Scoped(t, e).Some? ==> Still(Scoped(t, e).value, p)
  {
  }

  // ----- connections -----

  lemma ClosedFacts(t: Tracker, q: PeerId, c: ConnectionId, num: nat, p: PeerId)
    ensures var t' := Closed(t, q, c, num).0;
            q != p || ConnectionCount(t', p) > 0 ==>
              (p in t.attempts <==> p in t'.attempts) && (p in t.deadlines <==> p in t'.deadlines)
  {
    hide WithoutDialsTo, WithoutId;
    var t0 := t.(pendingDials := t.pendingDials - {c}, relayed := WithoutId(t.relayed, q, c),
        direct := WithoutId(t.direct, q, c));
    assert Closed(t, q, c, num).0 == if Closed(t, q, c, num).1.fullyDisconnected then Complete(t0, q) else t0;
  }

  lemma ClosedExplained(n: Node, q: PeerId, c: ConnectionId, num: nat, portMapped: bool, now: Time,
                        pick: PeerModel.Pick, p: PeerId)
    requires Agreeing(n.tracker)
    ensures Explained(n, OnSwarmEvent(n, ConnClosed(q, c, num), portMapped, now, pick), p)
  {
    hide Transit, FeedAll, Spent, Closed, ConnectionCount, Agreeing;
    ClosedFacts(n.tracker, q, c, num, p);
    var (n1, synthetic) := Bookkeep(n, ConnClosed(q, c, num), now);
    var count := ConnectionCount(n1.tracker, q);
    MapSame(n1, portMapped, now, pick, p);
    var n2 := if portMapped then Transit(n1, NatStatusChanged(Public), now, pick) else n1;
    var n3 := n2.(ctx := n2.ctx);
    assert synthetic + [] == [ConnectionLost(q, count)];
    if q == p && count == 0 {
      ClosedAgrees(n.tracker, q, c, num);
      EmptyMeansGone(n1.tracker, p);
      FeedAllConnections(n3, [ConnectionLost(q, count)], now, pick, p);
    } else {
      SameAsItself(n.app.tunnel, p);
      SameTracking(n, n1, p);
      FeedAllSame(n3, [ConnectionLost(q, count)], now, pick, p);
    }
  }

  lemma EstablishedFacts(t: Tracker, q: PeerId, c: ConnectionId, relayed: bool, p: PeerId)
    ensures var t' := Established(t, q, c, relayed).0;
            && (q != p || relayed ==>
                  (p in t.attempts <==> p in t'.attempts) && (p in t.deadlines <==> p in t'.deadlines))
            && (q == p && !relayed ==> p in t'.direct)
  {
    hide WithoutDialsTo, Ids;
  }

  lemma ReportEvents(ctx: Context, ev: SwarmEvent, p: PeerId)
    requires ev.ConnEstablished?
    ensures var es := Translate(ctx, ev).1;
            forall e | e in es :: AlwaysFed(e) && (ev.peer != p || ev.relayed ==> Still(e, p))
  {
  }

  lemma EstablishedExplained(n: Node, ev: SwarmEvent, portMapped: bool, now: Time, pick: PeerModel.Pick, p: PeerId)
    requires ev.ConnEstablished? && !Stopped(n)
    ensures Explained(n, OnSwarmEvent(n, ev, portMapped, now, pick), p)
  {
    hide Transit, FeedAll, Translate, Spent, Established, StartAttempt, Still;
    var t1 := Established(n.tracker, ev.peer, ev.id, ev.relayed).0;
    EstablishedFacts(n.tracker, ev.peer, ev.id, ev.relayed, p);
    StartFacts(t1, ev.peer, now, p);
    var (n1, synthetic) := Bookkeep(n, ev, now);
    MapSame(n1, portMapped, now, pick, p);
    RunningAfterMap(n1, portMapped, now, pick);
    var n2 := if portMapped then Transit(n1, NatStatusChanged(Public), now, pick) else n1;
    ReportEvents(n2.ctx, ev, p);
    var (ctx, es) := Translate(n2.ctx, ev);
    var n3 := n2.(ctx := ctx);
    ContextSame(n2, ctx, p);
    if ev.peer == p && !ev.relayed {
      FeedAllConnections(n3, synthetic + es, now, pick, p);
    } else if ev.peer == p && synthetic != [] {
      assert p !in n.tracker.attempts;
      StartThenFeed(n3, synthetic[0].startedAttempt, es, now, pick, p);
      assert synthetic == [HolePunchAttemptStarted(p, synthetic[0].startedAttempt)];
      NoAttemptIsNotSpent(n, p);
    } else {
      BookkeepSame(n, ev, now, p);
      StartStill(synthetic, p);
      FeedAllSame(n3, synthetic + es, now, pick, p);
    }
  }

  lemma BookkeepSame(n: Node, ev: SwarmEvent, now: Time, p: PeerId)
    requires ev.ConnEstablished?
    ensures var (m, es) := Bookkeep(n, ev, now);
            ev.peer != p || (ev.relayed && es == []) ==> Same(n, m, p) && m.app == n.app
  {
    hide Established, StartAttempt, Spent;
    var t1 := Established(n.tracker, ev.peer, ev.id, ev.relayed).0;
    EstablishedFacts(n.tracker, ev.peer, ev.id, ev.relayed, p);
    StartFacts(t1, ev.peer, now, p);
    var (m, es) := Bookkeep(n, ev, now);
    if ev.peer != p || (ev.relayed && es == []) {
      SameAsItself(n.app.tunnel, p);
      assert (p in n.tracker.attempts <==> p in t1.attempts) && (p in n.tracker.deadlines <==> p in t1.deadlines);
      assert m.tracker == t1 || m.tracker == StartAttempt(t1, ev.peer, HOLE_PUNCH_TIMEOUT, now).0;
      assert ev.peer == p ==> m.tracker == t1;
      assert p in n.tracker.attempts <==> p in m.tracker.attempts;
      assert p in n.tracker.deadlines <==> p in m.tracker.deadlines;
      SameTracking(n, m, p);
    }
  }

  lemma NoAttemptIsNotSpent(n: Node, p: PeerId)
    requires p !in n.tracker.attempts
    ensures !Spent(n, p)
  {
  }

  lemma StartStill(es: seq<Event>, p: PeerId)
    requires forall e | e in es :: e.HolePunchAttemptStarted? && e.startedPeer != p
    ensures forall e | e in es :: Still(e, p) && AlwaysFed(e)
  {
  }

  // ----- timers -----

  /** While expired attempts are reported: before its turn `p` is as it was, after its turn a wait for
      it has a redial due. */
  predicate Reported(n: Node, m: Node, p: PeerId, done: bool) {
    && m.tracker == n.tracker
    && (p in m.app.tunnel.q.awaiting ==> p in n.app.tunnel.q.awaiting)
    && (if done then Waits(m, p) ==> p in m.app.tunnel.retry.pendingRedial
        else SameRetry(n.app.tunnel, m.app.tunnel, p))
  }

  /** `p` was to be decided by the attempt that expired. */
  predicate Expiring(n: Node, due: map<PeerId, nat>, p: PeerId) {
    p in due && (p in n.app.tunnel.retry.pendingRedial || SessionAt(n.app.tunnel, p) == Some((due[p], TM.Punching)))
  }

  lemma ReportStep(n: Node, m: Node, due: map<PeerId, nat>, q: PeerId, done: bool, now: Time, pick: PeerModel.Pick,
                   p: PeerId)
    requires Expiring(n, due, p) && Reported(n, m, p, done) && q in due
    ensures Reported(n, Transit(m, HolePunchAttemptTimeout(q, due[q]), now, pick), p, done || q == p)
  {
    hide Transit, TM.Step, TM.RetryAttempt, SameRetry, SessionAt;
    TransitTunnel(m, HolePunchAttemptTimeout(q, due[q]), now, pick);
    FailureIsRetry(m.app.tunnel, q, due[q], now);
    RetryOutcome(m.app.tunnel, q, due[q]);
    if q == p {
      ExpiringIsCurrent(n, m, due, p, done);
    } else {
      RetryStill(m.app.tunnel, q, due[q], p);
      SameRetryTwice(n.app.tunnel, m.app.tunnel, TM.RetryAttempt(m.app.tunnel, q, due[q]).state, p);
    }
  }

  lemma ExpiringIsCurrent(n: Node, m: Node, due: map<PeerId, nat>, p: PeerId, done: bool)
    requires Expiring(n, due, p) && Reported(n, m, p, done)
    ensures Waits(m, p) ==> p in m.app.tunnel.retry.pendingRedial || TM.Current(m.app.tunnel, p, due[p])
  {
  }

  lemma SameRetryTwice(a: TM.Tunnel, b: TM.Tunnel, c: TM.Tunnel, p: PeerId)
    requires SameRetry(b, c, p)
    ensures SameRetry(a, b, p) ==> SameRetry(a, c, p)
    ensures p in b.retry.pendingRedial ==> p in c.retry.pendingRedial
  {
  }

  lemma {:induction false} TimeoutsReport(n: Node, due: map<PeerId, nat>, order: seq<PeerId>, now: Time,
                                          pick: PeerModel.Pick, p: PeerId)
    requires Expiring(n, due, p)
    ensures Reported(n, FireTimeouts(n, due, order, now, pick), p, p in order)
  {
    hide Transit, Expiring, Reported;
    if order == [] {
      NothingReported(n, p);
    } else {
      var k := |order| - 1;
      var m, q := FireTimeouts(n, due, order[..k], now, pick), order[k];
      TimeoutsReport(n, due, order[..k], now, pick, p);
      assert order == order[..k] + [q];
      if q in due && RelayOnly(m.tracker, q) {
        ReportStep(n, m, due, q, p in order[..k], now, pick, p);
      } else {
        UnreportedPeer(n, m, due, q, p, p in order[..k]);
      }
    }
  }

  lemma NothingReported(n: Node, p: PeerId)
    ensures Reported(n, n, p, false)
  {
  }

  lemma UnreportedPeer(n: Node, m: Node, due: map<PeerId, nat>, q: PeerId, p: PeerId, done: bool)
    requires Reported(n, m, p, done) && Expiring(n, due, p) && (q !in due || !RelayOnly(m.tracker, q))
    ensures Reported(n, m, p, done || q == p)
  {
  }

  lemma {:induction false} TimeoutsSame(n: Node, due: map<PeerId, nat>, order: seq<PeerId>, now: Time,
                                        pick: PeerModel.Pick, p: PeerId)
    requires p !in due || Spent(n, p)
    ensures var m := FireTimeouts(n, due, order, now, pick);
            && m.tracker == n.tracker && (p in m.app.tunnel.q.awaiting ==> p in n.app.tunnel.q.awaiting)
            && (p !in due ==> Same(n, m, p))
  {
    hide Transit, Spent, TM.Step, TM.RetryAttempt;
    if order != [] {
      var m, q := FireTimeouts(n, due, order[..|order| - 1], now, pick), order[|order| - 1];
      TimeoutsSame(n, due, order[..|order| - 1], now, pick, p);
      if q in due {
        TransitTunnel(m, HolePunchAttemptTimeout(q, due[q]), now, pick);
        FailureIsRetry(m.app.tunnel, q, due[q], now);
        RetryOutcome(m.app.tunnel, q, due[q]);
        if q != p { TransitSame(m, HolePunchAttemptTimeout(q, due[q]), now, pick, p); }
      }
    }
  }

  lemma SweepFacts(n: Node, now: Time, p: PeerId)
    requires Agreeing(n.tracker) && IdsAgree(n, p)
    ensures var (t, due) := TakeDue(n.tracker, now); var m := n.(tracker := t);
            && t.relayed == n.tracker.relayed && t.direct == n.tracker.direct && t.attempts == n.tracker.attempts
            && (p !in due ==> Same(n, m, p))
            && (p in due && !Spent(n, p) ==> Expiring(m, due, p))
            && (p in due ==> p in n.tracker.attempts)
            && (Spent(n, p) ==> Spent(m, p))
  {
  }

  lemma SweepExplained(n: Node, order: seq<PeerId>, now: Time, pick: PeerModel.Pick, p: PeerId)
    requires Agreeing(n.tracker) && IdsAgree(n, p)
    ensures var (t, due) := TakeDue(n.tracker, now);
            Explained(n, FireTimeouts(n.(tracker := t), due, DueInOrder(due, order), now, pick), p)
  {
    hide Agreeing, TakeDue, FireTimeouts, DueInOrder, Spent, Expiring;
    SweepFacts(n, now, p);
    var (t, due) := TakeDue(n.tracker, now);
    var n1 := n.(tracker := t);
    if p !in due || Spent(n, p) {
      TimeoutsSame(n1, due, DueInOrder(due, order), now, pick, p);
    } else {
      TimeoutsReport(n1, due, DueInOrder(due, order), now, pick, p);
      OrderedDue(due, order, p);
      var m := FireTimeouts(n1, due, DueInOrder(due, order), now, pick);
      if Waits(m, p) { RedialIsLive(m, p); }
    }
  }

  lemma RedialIsLive(n: Node, p: PeerId)
    requires p in n.app.tunnel.retry.pendingRedial
    ensures !Spent(n, p)
  {
  }

  lemma OrderedDue(due: map<PeerId, nat>, order: seq<PeerId>, p: PeerId)
    requires p in due
    ensures p in DueInOrder(due, order)
  {
    OrdersAreTotal({});
    ListingEnumerates(due.Keys, order, ByKey());
  }

  // ----- the loop -----

  lemma IterateExplained(n: Node, i: Input, p: PeerId)
    requires Inv(n) && !Stopped(n)
    ensures Explained(n, Iterate(n, i), p)
  {
    InvIsConsistent(n);
    assert IdsAgree(n, p);
    hide Inv, Explained, OnSwarmEvent, Transit, FireTimeouts, TakeDue, Agreeing, Accounted, IdsAgree, Still;
    match i
    case Swarm(ev, portMapped, now, pick) =>
      if ev.ConnEstablished? {
        EstablishedExplained(n, ev, portMapped, now, pick, p);
      } else if ev.ConnClosed? {
        ClosedExplained(n, ev.peer, ev.id, ev.numEstablished, portMapped, now, pick, p);
      } else {
        PlainExplained(n, ev, portMapped, now, pick, p);
      }
    case DiscoveryDeadline(now, pick) => TimerExplained(n, DiscoveryTimeout, now, pick, p);
    case HolePunchDeadline(order, now, pick) => SweepExplained(n, order, now, pick, p);
    case ShutdownSignal(now, pick) => TimerExplained(n, ShutdownRequested, now, pick, p);
  }

  lemma TimerExplained(n: Node, e: Event, now: Time, pick: PeerModel.Pick, p: PeerId)
    requires e.DiscoveryTimeout? || e.ShutdownRequested?
    ensures Explained(n, Transit(n, e, now, pick), p)
  {
    hide Transit, Spent;
    TransitSame(n, e, now, pick, p);
  }

  /** The iteration from `n` to `m` leaves tunnels waiting behind the relay of `p` although it found the
      attempt of `p` spent. */
  predicate QueuesOnSpent(n: Node, m: Node, p: PeerId) { !Stopped(m) && Spent(n, p) && Waits(m, p) }

  lemma ServedStep(n: Node, m: Node, p: PeerId)
    requires Explained(n, m, p) && Armed(n) && Armed(m) && Served(n, p) && !Stopped(n)
    ensures Served(m, p) <==> !QueuesOnSpent(n, m, p)
  {
    assert Stopped(m) || Punching(m, p);
    assert Punching(n, p);
  }
}
