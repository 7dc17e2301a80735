/** What reaches the application and the tracker: every input of the loop is delivered, as which events and
    operations, in which order, and nothing else is. */
module NodeDelivery {
  import opened Types
  import opened AppModel
  import opened TrackerModel
  import opened NodeModel
  import opened NodeRuns
  import opened NodeArming
  import opened NodeServed
  import PeerModel
  import NodeHistory
  import NodeSpent
  import TrackerHistory
  import TM = TunnelModel

  // ----- events -----

  /** The events of a log, apart from the starts of hole-punch attempts. */
  function Heard(log: seq<Record>): seq<Event> {
    if log == [] then [] else
      var n := |log| - 1;
      if log[n].event.HolePunchAttemptStarted? then Heard(log[..n]) else Heard(log[..n]) + [log[n].event]
  }

  /** A raw hole-punch failure is heard as the failure of the active attempt of its peer, if there is one. */
  function Failure(t: Tracker, p: PeerId): seq<Event> {
    if p in t.attempts then [HolePunchAttemptFailed(p, t.attempts[p].attemptId)] else []
  }

  /** The outcome of a provider query, if it is outstanding. */
  function ProviderOutcome(n: Node, id: QueryId, result: ProvidersResult): seq<Event> {
    if id !in n.ctx.serviceQueries then []
    else if result.Found? && result.providers != {}
    then [DhtServiceResolved(n.ctx.serviceQueries[id], SortedProviders(result.providers, result.connected))]
    else [DhtServiceFailed(n.ctx.serviceQueries[id])]
  }

  function LookupOutcome(n: Node, id: QueryId, connected: bool): seq<Event> {
    if id in n.ctx.tunnelQueries then [DhtPeerLookupComplete(n.ctx.tunnelQueries[id], connected)] else []
  }

  /** How many connections of `p` are tracked once `c` is closed. */
  function Remaining(t: Tracker, p: PeerId, c: ConnectionId): nat {
    |Ids(t.relayed, p) - {c}| + |Ids(t.direct, p) - {c}|
  }

  /** What the application hears of a swarm event. */
  function HearsOf(n: Node, ev: SwarmEvent): seq<Event> {
    match ev
    case NewListenAddr => [ListeningOn]
    case ConnEstablished(p, _, relayed, remote) =>
      if p in n.ctx.bootstrap then [BootstrapConnected(p, remote), TunnelPeerConnected(p, relayed)]
      else [TunnelPeerConnected(p, relayed)]
    case ConnClosed(p, c, _) => [ConnectionLost(p, Remaining(n.tracker, p, c))]
    case SwarmDialing(_, _) => []
    case OutgoingConnError(dialed, _, localPeerId, pendingAbort) =>
      if dialed == None || localPeerId || dialed.value in n.ctx.bootstrap then []
      else [TunnelDialFailed(dialed.value, pendingAbort)]
    case KadBootstrapResult(ok) => [if ok then KademliaBootstrapOk else KademliaBootstrapFailed]
    case KadClosestPeers(id, connected) => LookupOutcome(n, id, connected)
    case KadProviders(id, result) => ProviderOutcome(n, id, result)
    case MdnsFound(found) => [MdnsDiscovered(found)]
    case MdnsGone(gone) => [MdnsExpired(gone)]
    case IdentifyReceived(p, listen) => [PeerIdentified(p, listen)]
    case NatProbed(status) => [NatStatusChanged(status)]
    case RelayAccepted(relay) => [RelayReservationAccepted(relay)]
    case RelayListenerClosed(relay) => [RelayReservationFailed(relay)]
    case DcutrFailed(p) => Failure(n.tracker, p)
    case ExternalConfirmed(a) => [ExternalAddrConfirmed(a)]
    case ExternalExpired(a) => [ExternalAddrExpired(a)]
    case OtherSwarmEvent => []
  }

  lemma TransitHeard(n: Node, e: Event, now: Time, pick: PeerModel.Pick)
    ensures var m := Transit(n, e, now, pick);
            Heard(m.log) == if e.HolePunchAttemptStarted? then Heard(n.log) else Heard(n.log) + [e]
  {
    hide AppStep, Execute;
    var m := Transit(n, e, now, pick);
    assert m.log[..|n.log|] == n.log;
  }

  lemma {:induction false} ArmHeard(n: Node, ps: seq<PeerId>, now: Time, pick: PeerModel.Pick)
    ensures Heard(ArmAll(n, ps, now, pick).log) == Heard(n.log)
  {
    hide Transit, StartAttempt, Heard;
    if ps != [] {
      var m, p := ArmAll(n, ps[..|ps| - 1], now, pick), ps[|ps| - 1];
      ArmHeard(n, ps[..|ps| - 1], now, pick);
      var (t, id) := StartAttempt(m.tracker, p, HOLE_PUNCH_TIMEOUT, now);
      if id.Some? { TransitHeard(m.(tracker := t), HolePunchAttemptStarted(p, id.value), now, pick); }
    }
  }

  lemma FeedHeard(n: Node, e: Event, now: Time, pick: PeerModel.Pick)
    ensures Heard(Feed(n, e, now, pick).log)
            == if e.HolePunchAttemptStarted? then Heard(n.log) else Heard(n.log) + [e]
  {
    hide Transit, ArmAll, TargetPeers, Heard;
    var t := Transit(n, e, now, pick);
    TransitHeard(n, e, now, pick);
    ArmHeard(t, TargetPeers(t.app.tunnel), now, pick);
  }

  /** Events that are heard as they are. */
  predicate Ordinary(e: Event) {
    AlwaysFed(e) && !e.ShutdownRequested? && !e.PhaseChanged? && !e.HolePunchAttemptStarted?
  }

  lemma {:induction false} FeedAllHeard(n: Node, es: seq<Event>, now: Time, pick: PeerModel.Pick)
    requires !Stopped(n)
    requires forall e | e in es :: Ordinary(e)
    ensures Heard(FeedAll(n, es, now, pick).log) == Heard(n.log) + es
  {
    hide Feed, Heard;
    if es != [] {
      var k := |es| - 1;
      FeedAllHeard(n, es[..k], now, pick);
      FeedAllRuns(n, es[..k], now, pick);
      assert es[k] in es && es == es[..k] + [es[k]];
      FeedHeard(FeedAll(n, es[..k], now, pick), es[k], now, pick);
    }
  }

  lemma StartThenHeard(n: Node, start: Event, es: seq<Event>, now: Time, pick: PeerModel.Pick)
    requires !Stopped(n) && start.HolePunchAttemptStarted?
    requires forall e | e in es :: Ordinary(e)
    ensures Heard(FeedAll(n, [start] + es, now, pick).log) == Heard(n.log) + es
    decreases |es|
  {
    hide Feed, Heard;
    var all := [start] + es;
    if es == [] {
      assert all == [start];
      FeedSingle(n, start, now, pick);
      FeedHeard(n, start, now, pick);
    } else {
      var k := |es| - 1;
      assert all[..|all| - 1] == [start] + es[..k] && all[|all| - 1] == es[k];
      StartThenHeard(n, start, es[..k], now, pick);
      FeedAllRuns(n, [start] + es[..k], now, pick);
      assert es[k] in es && es == es[..k] + [es[k]];
      FeedHeard(FeedAll(n, [start] + es[..k], now, pick), es[k], now, pick);
    }
  }

  lemma FailureHeard(n: Node, p: PeerId, now: Time, pick: PeerModel.Pick)
    requires !Stopped(n)
    ensures Heard(FeedAll(n, [HolePunchFailed(p)], now, pick).log) == Heard(n.log) + Failure(n.tracker, p)
  {
    hide Feed, Heard;
    FeedSingle(n, HolePunchFailed(p), now, pick);
    if p in n.tracker.attempts { FeedHeard(n, HolePunchAttemptFailed(p, n.tracker.attempts[p].attemptId), now, pick); }
  }

  lemma EventsOf(n: Node, ctx: Context, ev: SwarmEvent, now: Time)
    requires ctx.bootstrap == n.ctx.bootstrap && ctx.tunnelQueries == n.ctx.tunnelQueries
    requires ctx.serviceQueries == n.ctx.serviceQueries && Agreeing(n.tracker)
    ensures var synthetic, translated := Bookkeep(n, ev, now).1, Translate(ctx, ev).1;
            && (!ev.DcutrFailed? && !ev.ConnEstablished? ==> synthetic + translated == HearsOf(n, ev))
            && (ev.ConnEstablished? ==> translated == HearsOf(n, ev))
            && (ev.DcutrFailed? ==> synthetic == [] && translated == [HolePunchFailed(ev.peer)])
  {
    hide SortedProviders, Established, Closed, StartAttempt, TrackerModel.Dialing, OutgoingError, Agreeing,
         ConnectionCount, Remaining;
    if ev.ConnClosed? {
      ClosedCount(n.tracker, ev.peer, ev.id, ev.numEstablished);
    } else {
      hide Bookkeep;
      FewSynthetic(n, ev, now);
    }
  }

  lemma FewSynthetic(n: Node, ev: SwarmEvent, now: Time)
    ensures var es := Bookkeep(n, ev, now).1;
            (!ev.ConnEstablished? && !ev.ConnClosed? ==> es == [])
            && (ev.ConnEstablished? ==> |es| <= 1 && (es != [] ==> es[0].HolePunchAttemptStarted?))
  {
    hide Established, Closed, StartAttempt, TrackerModel.Dialing, OutgoingError;
  }

  lemma ClosedCount(t: Tracker, p: PeerId, c: ConnectionId, num: nat)
    requires Agreeing(t)
    ensures ConnectionCount(Closed(t, p, c, num).0, p) == Remaining(t, p, c)
  {
    hide Closed;
    TrackerHistory.ClosedAnswers(t, p, c, num);
    var t' := Closed(t, p, c, num).0;
    assert TrackerHistory.Of(t', p).relayed == Ids(t'.relayed, p)
        && TrackerHistory.Of(t', p).direct == Ids(t'.direct, p);
  }

  lemma OrdinaryEvents(n: Node, ev: SwarmEvent)
    ensures forall e | e in HearsOf(n, ev) ::
              ev.DcutrFailed? || Ordinary(e)
  {
    hide SortedProviders;
  }

  lemma MapHeard(n: Node, portMapped: bool, now: Time, pick: PeerModel.Pick)
    ensures var m := if portMapped then Transit(n, NatStatusChanged(Public), now, pick) else n;
            && Heard(m.log) == Heard(n.log) + (if portMapped then [NatStatusChanged(Public)] else [])
            && m.ctx.bootstrap == n.ctx.bootstrap && m.tracker == n.tracker
  {
    if portMapped { TransitHeard(n, NatStatusChanged(Public), now, pick); }
    hide AppStep, Heard;
  }

  /** A swarm event reaches the application as exactly what it means, after the news of a finished port
      mapping. */
  lemma SwarmHeard(n: Node, ev: SwarmEvent, portMapped: bool, now: Time, pick: PeerModel.Pick)
    requires !Stopped(n) && Agreeing(n.tracker)
    ensures Heard(OnSwarmEvent(n, ev, portMapped, now, pick).log)
            == Heard(n.log) + (if portMapped then [NatStatusChanged(Public)] else []) + HearsOf(n, ev)
  {
    BookkeepRuns(n, ev, now);
    BookkeepLog(n, ev, now);
    hide Bookkeep, Translate, Transit, FeedAll, Heard, HearsOf, Agreeing;
    var (n1, synthetic) := Bookkeep(n, ev, now);
    MapHeard(n1, portMapped, now, pick);
    MapKeepsQueries(n1, portMapped, now, pick);
    RunningAfterMap(n1, portMapped, now, pick);
    var n2 := if portMapped then Transit(n1, NatStatusChanged(Public), now, pick) else n1;
    var (ctx, es) := Translate(n2.ctx, ev);
    var n3 := n2.(ctx := ctx);
    EventsOf(n, n2.ctx, ev, now);
    FewSynthetic(n, ev, now);
    OrdinaryEvents(n, ev);
    if ev.DcutrFailed? {
      assert synthetic + es == [HolePunchFailed(ev.peer)];
      assert n1.tracker == n.tracker by { FailureKeepsTracker(n, ev, now); }
      FailureHeard(n3, ev.peer, now, pick);
      assert HearsOf(n, ev) == Failure(n.tracker, ev.peer) by { HearsFailure(n, ev.peer); }
    } else if synthetic != [] && ev.ConnEstablished? {
      assert synthetic == [synthetic[0]];
      StartThenHeard(n3, synthetic[0], es, now, pick);
    } else {
      assert ev.ConnEstablished? ==> synthetic + es == es;
      FeedAllHeard(n3, synthetic + es, now, pick);
    }
  }

  lemma HearsFailure(n: Node, p: PeerId)
    ensures HearsOf(n, DcutrFailed(p)) == Failure(n.tracker, p)
  {
  }

  lemma FailureKeepsTracker(n: Node, ev: SwarmEvent, now: Time)
    ensures ev.DcutrFailed? ==> Bookkeep(n, ev, now).0 == n
  {
  }

  lemma BookkeepLog(n: Node, ev: SwarmEvent, now: Time)
    ensures var m := Bookkeep(n, ev, now).0;
            m.log == n.log && m.ctx.bootstrap == n.ctx.bootstrap && m.ctx.tunnelQueries == n.ctx.tunnelQueries
            && m.ctx.serviceQueries == n.ctx.serviceQueries
  {
    hide Established, Closed, StartAttempt, TrackerModel.Dialing, OutgoingError;
  }

  // ----- timers -----

  /** The timeouts that are reported: of the expired attempts whose peers are still reached only through a
      relay, in the order they are visited. */
  function Reported(t: Tracker, due: map<PeerId, nat>, order: seq<PeerId>): seq<Event> {
    if order == [] then [] else
      var n := |order| - 1;
      Reported(t, due, order[..n])
      + if order[n] in due && order[n] in t.relayed && order[n] !in t.direct
        then [HolePunchAttemptTimeout(order[n], due[order[n]])] else []
  }

  lemma {:induction false} TimeoutsHeard(n: Node, due: map<PeerId, nat>, order: seq<PeerId>, now: Time,
                                         pick: PeerModel.Pick)
    ensures var m := FireTimeouts(n, due, order, now, pick);
            Heard(m.log) == Heard(n.log) + Reported(n.tracker, due, order) && m.tracker == n.tracker
  {
    hide Transit, Heard;
    if order != [] {
      var m, p := FireTimeouts(n, due, order[..|order| - 1], now, pick), order[|order| - 1];
      TimeoutsHeard(n, due, order[..|order| - 1], now, pick);
      if p in due {
        TransitHeard(m, HolePunchAttemptTimeout(p, due[p]), now, pick);
        NodeSpent.TransitTracker(m, HolePunchAttemptTimeout(p, due[p]), now, pick);
      }
    }
  }

  /** What the application hears in one iteration. */
  function Hears(n: Node, i: Input): seq<Event> {
    if Stopped(n) then []
    else match i
      case Swarm(ev, portMapped, _, _) => (if portMapped then [NatStatusChanged(Public)] else []) + HearsOf(n, ev)
      case DiscoveryDeadline(_, _) => [DiscoveryTimeout]
      case HolePunchDeadline(order, now, _) =>
        var due := TakeDue(n.tracker, now).1;
        Reported(n.tracker, due, DueInOrder(due, order))
      case ShutdownSignal(_, _) => [ShutdownRequested]
  }

  function HeardOver(n0: Node, run: seq<Input>): seq<Event> {
    if run == [] then [] else HeardOver(n0, run[..|run| - 1]) + Hears(NodeAfter(n0, run[..|run| - 1]), run[|run| - 1])
  }

  lemma IterateHeard(n: Node, i: Input)
    requires Agreeing(n.tracker)
    ensures Heard(Iterate(n, i).log) == Heard(n.log) + Hears(n, i)
  {
    hide OnSwarmEvent, Transit, FireTimeouts, Heard, TakeDue, DueInOrder, HearsOf, Agreeing, Reported;
    if !Stopped(n) {
      match i
      case Swarm(ev, portMapped, now, pick) =>
        SwarmHeard(n, ev, portMapped, now, pick);
        var news := if portMapped then [NatStatusChanged(Public)] else [];
        assert Heard(n.log) + news + HearsOf(n, ev) == Heard(n.log) + (news + HearsOf(n, ev));
      case DiscoveryDeadline(now, pick) => TransitHeard(n, DiscoveryTimeout, now, pick);
      case HolePunchDeadline(order, now, pick) =>
        var (t, due) := TakeDue(n.tracker, now);
        TimeoutsHeard(n.(tracker := t), due, DueInOrder(due, order), now, pick);
        SweepKeepsConnections(n.tracker, now, due, DueInOrder(due, order));
      case ShutdownSignal(now, pick) => TransitHeard(n, ShutdownRequested, now, pick);
    }
  }

  lemma {:induction false} SweepKeepsConnections(t: Tracker, now: Time, due: map<PeerId, nat>, order: seq<PeerId>)
    ensures Reported(TakeDue(t, now).0, due, order) == Reported(t, due, order)
  {
    if order != [] { SweepKeepsConnections(t, now, due, order[..|order| - 1]); }
  }

  /** Over every run of the node, the application hears, after its first event and apart from the starts of
      attempts, exactly what the inputs mean, in order. */
  lemma {:induction false} EverythingIsHeard(l: Launch, run: seq<Input>)
    ensures Heard(NodeAfter(Started(l), run).log)
            == [if l.hasBootstrap then NatStatusChanged(Private) else NoBootstrapPeers] + HeardOver(Started(l), run)
  {
    hide Iterate, Heard, Hears, Fresh, Transit;
    if run == [] {
      var e := if l.hasBootstrap then NatStatusChanged(Private) else NoBootstrapPeers;
      TransitHeard(Fresh(l), e, l.now, l.pick);
      assert Heard(Fresh(l).log) == [] by { FreshHeard(l); }
    } else {
      var n := |run| - 1;
      EverythingIsHeard(l, run[..n]);
      RunsKeepInv(l, run[..n]);
      assert Agreeing(NodeAfter(Started(l), run[..n]).tracker) by { InvIsConsistent(NodeAfter(Started(l), run[..n])); }
      IterateHeard(NodeAfter(Started(l), run[..n]), run[n]);
    }
  }

  lemma FreshHeard(l: Launch)
    ensures Heard(Fresh(l).log) == []
  {
  }

  /** A failure of an attempt that is no longer the active one of its peer is not delivered. */
  lemma StaleFailureIsSkipped(n: Node, p: PeerId, id: nat, now: Time, pick: PeerModel.Pick)
    requires p in n.tracker.attempts && n.tracker.attempts[p].attemptId != id
    ensures FeedOne(n, HolePunchAttemptFailed(p, id), now, pick) == n
  {
    hide Feed;
  }

  // ----- starts of attempts -----

  /** A relayed connection of a peer that tunnels want, and that has neither a direct connection nor an
      attempt, starts one at once: its start is the first thing heard of the connection. */
  lemma RelayedConnectionStarts(n: Node, ev: SwarmEvent, now: Time)
    requires Agreeing(n.tracker) && ev.ConnEstablished?
    ensures var es := Bookkeep(n, ev, now).1; var p := ev.peer;
            var wanted := p in n.app.tunnel.q.pendingByPeer || p in n.app.tunnel.q.awaiting;
            if ev.relayed && wanted && p !in n.tracker.direct && p !in n.tracker.attempts
            then exists id :: es == [HolePunchAttemptStarted(p, id)]
            else es == []
  {
    hide Established, StartAttempt, Agreeing;
    var t := Established(n.tracker, ev.peer, ev.id, ev.relayed).0;
    EstablishedAgrees(n.tracker, ev.peer, ev.id, ev.relayed);
    TrackerHistory.EstablishedAnswers(n.tracker, ev.peer, ev.id, ev.relayed);
    TrackerHistory.StartAnswers(t, ev.peer, HOLE_PUNCH_TIMEOUT, now);
    DirectSets(n.tracker, ev.peer);
    TrackerHistory.SameAttempt(n.tracker, t, ev.peer);
    var (t', id) := StartAttempt(t, ev.peer, HOLE_PUNCH_TIMEOUT, now);
    if id.Some? { assert [HolePunchAttemptStarted(ev.peer, id.value)] == [HolePunchAttemptStarted(ev.peer, id.value)]; }
  }

  lemma {:induction false} FeedAllFront(n: Node, e: Event, es: seq<Event>, now: Time, pick: PeerModel.Pick)
    requires !Stopped(n)
    ensures FeedAll(n, [e] + es, now, pick) == FeedAll(FeedOne(n, e, now, pick), es, now, pick)
    decreases |es|
  {
    hide FeedOne;
    var all := [e] + es;
    if es == [] {
      assert all == [e];
      FeedSingle(n, e, now, pick);
      FeedNothing(FeedOne(n, e, now, pick), now, pick);
    } else {
      var k := |es| - 1;
      assert all[..|all| - 1] == [e] + es[..k] && all[|all| - 1] == es[k];
      FeedAllFront(n, e, es[..k], now, pick);
    }
  }

  lemma FeedNothing(n: Node, now: Time, pick: PeerModel.Pick)
    ensures FeedAll(n, [], now, pick) == n
  {
  }

  /** The log only grows. */
  predicate Grown(log: seq<Record>, n: Node) { log <= n.log }

  lemma GrowsKept(log: seq<Record>)
    ensures NodeHistory.Kept(n => Grown(log, n))
  {
    hide AppStep, Execute;
  }

  /** The start of an attempt at a new relayed connection is the first thing the log holds of it. */
  lemma StartIsLoggedFirst(n: Node, ev: SwarmEvent, now: Time, pick: PeerModel.Pick)
    requires !Stopped(n) && ev.ConnEstablished?
    ensures var es, m := Bookkeep(n, ev, now).1, OnSwarmEvent(n, ev, false, now, pick);
            es != [] ==> |m.log| > |n.log| && m.log[|n.log|].event == es[0] && es[0].HolePunchAttemptStarted?
  {
    FewSynthetic(n, ev, now);
    BookkeepRuns(n, ev, now);
    BookkeepLog(n, ev, now);
    hide Bookkeep, Translate, Transit, FeedAll, FeedOne;
    var (n1, synthetic) := Bookkeep(n, ev, now);
    var (ctx, es) := Translate(n1.ctx, ev);
    if synthetic != [] {
      var n2 := n1.(ctx := ctx);
      assert synthetic == [synthetic[0]];
      FeedAllFront(n2, synthetic[0], es, now, pick);
      StartLogged(n2, synthetic[0], now, pick);
      var f := FeedOne(n2, synthetic[0], now, pick);
      OrdinaryTranslation(n1.ctx, ev);
      GrowsKept(f.log);
      hide NodeHistory.Kept;
      NodeHistory.FeedAllKept(k => Grown(f.log, k), f, es, now, pick);
    }
  }

  lemma OrdinaryTranslation(ctx: Context, ev: SwarmEvent)
    requires ev.ConnEstablished?
    ensures forall e | e in Translate(ctx, ev).1 :: !e.PhaseChanged?
  {
  }

  lemma StartLogged(n: Node, e: Event, now: Time, pick: PeerModel.Pick)
    requires e.HolePunchAttemptStarted?
    ensures var m := FeedOne(n, e, now, pick); |m.log| > |n.log| && m.log[|n.log|].event == e
  {
    hide AppStep, Execute, TargetPeers;
    var t := Transit(n, e, now, pick);
    GrowsKept(t.log);
    hide NodeHistory.Kept;
    NodeHistory.ArmKept(k => Grown(t.log, k), t, TargetPeers(t.app.tunnel), now, pick);
  }

  lemma DirectSets(t: Tracker, p: PeerId)
    requires Agreeing(t)
    ensures p in t.direct <==> TrackerHistory.Of(t, p).direct != {}
  {
  }

  // ----- operations of the tracker -----

  /** What an input does to the tracker, apart from starting attempts. */
  function Does(n: Node, i: Input): seq<Op> {
    if Stopped(n) then []
    else match i
      case Swarm(ev, _, _, _) =>
        (match ev
         case ConnEstablished(p, c, relayed, _) => [OpEstablished(p, c, relayed)]
         case ConnClosed(p, c, num) => [OpClosed(p, c, num)]
         case SwarmDialing(dialing, c) => if dialing.Some? then [OpDialing(dialing.value, c)] else []
         case OutgoingConnError(dialed, c, _, _) => [OpError(dialed, c)]
         case _ => [])
      case HolePunchDeadline(_, now, _) => [OpTakeDue(now)]
      case _ => []
  }

  function DoneOver(n0: Node, run: seq<Input>): seq<Op> {
    if run == [] then [] else DoneOver(n0, run[..|run| - 1]) + Does(NodeAfter(n0, run[..|run| - 1]), run[|run| - 1])
  }

  function WithoutStarts(ops: seq<Op>): seq<Op> {
    if ops == [] then [] else
      var n := |ops| - 1;
      if ops[n].OpStart? then WithoutStarts(ops[..n]) else WithoutStarts(ops[..n]) + [ops[n]]
  }

  /** The tracker is the result of `ops`, whose attempts are given half a minute, and which without the
      starts are `done`. */
  ghost predicate Drives(ops: seq<Op>, t: Tracker, done: seq<Op>) {
    && After(ops) == t && WithoutStarts(ops) == done
    && forall k | 0 <= k < |ops| && ops[k].OpStart? :: ops[k].timeout == 30_000_000_000
  }

  ghost predicate Driven(t: Tracker, done: seq<Op>) { exists ops :: Drives(ops, t, done) }

  lemma DoOne(ops: seq<Op>, t: Tracker, done: seq<Op>, op: Op)
    requires Drives(ops, t, done) && (op.OpStart? ==> op.timeout == 30_000_000_000)
    ensures Drives(ops + [op], Apply(t, op), if op.OpStart? then done else done + [op])
  {
    hide Apply;
    assert (ops + [op])[..|ops|] == ops;
  }

  lemma {:induction false} ArmDrives(n: Node, ps: seq<PeerId>, now: Time, pick: PeerModel.Pick, ops: seq<Op>,
                                     done: seq<Op>)
    returns (more: seq<Op>)
    requires Drives(ops, n.tracker, done)
    ensures Drives(more, ArmAll(n, ps, now, pick).tracker, done)
  {
    hide Transit, StartAttempt, Drives;
    if ps == [] {
      more := ops;
    } else {
      var m, p := ArmAll(n, ps[..|ps| - 1], now, pick), ps[|ps| - 1];
      var some := ArmDrives(n, ps[..|ps| - 1], now, pick, ops, done);
      var (t, id) := StartAttempt(m.tracker, p, HOLE_PUNCH_TIMEOUT, now);
      if id.Some? {
        DoOne(some, m.tracker, done, OpStart(p, HOLE_PUNCH_TIMEOUT, now));
        NodeSpent.TransitTracker(m.(tracker := t), HolePunchAttemptStarted(p, id.value), now, pick);
        more := some + [OpStart(p, HOLE_PUNCH_TIMEOUT, now)];
      } else {
        more := some;
      }
    }
  }

  lemma {:induction false} FeedAllDrives(n: Node, es: seq<Event>, now: Time, pick: PeerModel.Pick, ops: seq<Op>,
                                         done: seq<Op>)
    returns (more: seq<Op>)
    requires Drives(ops, n.tracker, done)
    ensures Drives(more, FeedAll(n, es, now, pick).tracker, done)
  {
    hide Transit, Drives, ArmAll, TargetPeers;
    if es == [] {
      more := ops;
    } else {
      var m, e := FeedAll(n, es[..|es| - 1], now, pick), es[|es| - 1];
      more := FeedAllDrives(n, es[..|es| - 1], now, pick, ops, done);
      var f := Scoped(m.tracker, e);
      if !Stopped(m) && f.Some? {
        NodeSpent.TransitTracker(m, f.value, now, pick);
        var t := Transit(m, f.value, now, pick);
        if !Stopped(t) { more := ArmDrives(t, TargetPeers(t.app.tunnel), now, pick, more, done); }
      }
    }
  }

  lemma BookkeepDrives(n: Node, i: Input, ops: seq<Op>, done: seq<Op>) returns (more: seq<Op>)
    requires i.Swarm? && !Stopped(n) && Drives(ops, n.tracker, done)
    ensures Drives(more, Bookkeep(n, i.event, i.now).0.tracker, done + Does(n, i))
  {
    hide Established, Closed, StartAttempt, TrackerModel.Dialing, OutgoingError, Drives;
    assert done + [] == done;
    more := ops;
    match i.event {
      case ConnEstablished(p, c, relayed, _) =>
        DoOne(ops, n.tracker, done, OpEstablished(p, c, relayed));
        more := ops + [OpEstablished(p, c, relayed)];
        var t := Established(n.tracker, p, c, relayed).0;
        if relayed && HasIntent(n.app.tunnel, p) {
          DoOne(more, t, done + [OpEstablished(p, c, relayed)], OpStart(p, HOLE_PUNCH_TIMEOUT, i.now));
          more := more + [OpStart(p, HOLE_PUNCH_TIMEOUT, i.now)];
        }
      case ConnClosed(p, c, num) =>
        DoOne(ops, n.tracker, done, OpClosed(p, c, num));
        more := ops + [OpClosed(p, c, num)];
      case SwarmDialing(dialing, c) =>
        if dialing.Some? {
          DoOne(ops, n.tracker, done, OpDialing(dialing.value, c));
          more := ops + [OpDialing(dialing.value, c)];
        }
      case OutgoingConnError(dialed, c, _, _) =>
        DoOne(ops, n.tracker, done, OpError(dialed, c));
        more := ops + [OpError(dialed, c)];
      case _ =>
    }
  }

  lemma IterateDrives(n: Node, i: Input, ops: seq<Op>, done: seq<Op>) returns (more: seq<Op>)
    requires Drives(ops, n.tracker, done)
    ensures Drives(more, Iterate(n, i).tracker, done + Does(n, i))
  {
    hide Transit, Drives, FeedAll, Bookkeep, Translate, FireTimeouts, TakeDue, DueInOrder;
    assert done + [] == done;
    more := ops;
    if !Stopped(n) {
      match i {
        case Swarm(ev, portMapped, now, pick) =>
          hide Does;
          var some := BookkeepDrives(n, i, ops, done);
          var (n1, synthetic) := Bookkeep(n, ev, now);
          NodeSpent.TransitTracker(n1, NatStatusChanged(Public), now, pick);
          var n2 := if portMapped then Transit(n1, NatStatusChanged(Public), now, pick) else n1;
          var (ctx, es) := Translate(n2.ctx, ev);
          more := FeedAllDrives(n2.(ctx := ctx), synthetic + es, now, pick, some, done + Does(n, i));
        case HolePunchDeadline(order, now, pick) =>
          DoOne(ops, n.tracker, done, OpTakeDue(now));
          var (t, due) := TakeDue(n.tracker, now);
          TimeoutsHeard(n.(tracker := t), due, DueInOrder(due, order), now, pick);
          more := ops + [OpTakeDue(now)];
        case DiscoveryDeadline(now, pick) => NodeSpent.TransitTracker(n, DiscoveryTimeout, now, pick);
        case ShutdownSignal(now, pick) => NodeSpent.TransitTracker(n, ShutdownRequested, now, pick);
      }
    }
  }

  /** Every run of the node is, for its tracker, a run of operations: those of the inputs, in order, and
      starts of attempts of half a minute. So whatever holds over runs of the tracker holds of the node's. */
  lemma {:induction false} TrackerIsRun(l: Launch, run: seq<Input>)
    ensures Driven(NodeAfter(Started(l), run).tracker, DoneOver(Started(l), run))
  {
    hide Iterate, Drives, Does, Started;
    if run == [] {
      StartDrives(l);
    } else {
      var n := |run| - 1;
      TrackerIsRun(l, run[..n]);
      var ops :| Drives(ops, NodeAfter(Started(l), run[..n]).tracker, DoneOver(Started(l), run[..n]));
      var more := IterateDrives(NodeAfter(Started(l), run[..n]), run[n], ops, DoneOver(Started(l), run[..n]));
    }
  }

  lemma StartDrives(l: Launch)
    ensures Drives([], Started(l).tracker, [])
  {
    hide Transit;
    var e := if l.hasBootstrap then NatStatusChanged(Private) else NoBootstrapPeers;
    NodeSpent.TransitTracker(Fresh(l), e, l.now, l.pick);
  }
}
