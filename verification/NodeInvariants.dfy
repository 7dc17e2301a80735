/** What every iteration of the event loop keeps: the connection tracker and the tunnel machine,
    each with its own attempt ids and its own idea of who is relayed, never disagree where it
    matters. */
module NodeInvariants {
  import opened Types
  import opened AppModel
  import opened TrackerModel
  import opened NodeModel
  import opened NodeTransit
  import opened TunnelInvariants
  import PeerModel
  import TM = TunnelModel

  // ----- history -----

  /** The disconnects of `p` ordered since its retry state was last cleared. */
  function Disconnects(log: seq<Record>, p: PeerId): nat {
    if log == [] then 0 else
      var r := log[|log| - 1];
      if p in r.before.retry.attempts && p !in r.after.retry.attempts then 0
      else Disconnects(log[..|log| - 1], p) + r.commands[DisconnectPeer(p)]
  }

  /** A tunnel spawned to a peer that the tracker sees as relay-only comes after exactly three
      disconnects of that peer. */
  ghost predicate SpawnJustified(log: seq<Record>, k: nat)
    requires k < |log|
  {
    forall p, x | SpawnTunnel(p, x) in log[k].commands && RelayOnly(log[k].tracker, p) :: Disconnects(log[..k], p) == 3
  }

  /** A failure or timeout that reaches the tunnel machine is about the attempt of its session. */
  predicate AttemptCurrent(r: Record) {
    && (r.event.HolePunchAttemptFailed? && r.event.failedPeer in r.before.retry.sessions ==>
          r.before.retry.sessions[r.event.failedPeer].attemptId == r.event.failedAttempt)
    && (r.event.HolePunchAttemptTimeout? && r.event.timedOutPeer in r.before.retry.sessions ==>
          r.before.retry.sessions[r.event.timedOutPeer].attemptId == r.event.timedOutAttempt)
  }

  ghost predicate HistoryOk(log: seq<Record>) {
    forall k: nat | k < |log| :: SpawnJustified(log, k) && AttemptCurrent(log[k])
  }

  // ----- invariants at a loop head -----

  predicate IdsAgree(n: Node, p: PeerId) {
    p in n.tracker.attempts && p in n.app.tunnel.retry.sessions ==>
      n.app.tunnel.retry.sessions[p].attemptId == n.tracker.attempts[p].attemptId
  }

  predicate RelayKnown(n: Node, p: PeerId) {
    && (p in n.tracker.relayed ==> p in n.app.tunnel.relayed)
    && (p in n.app.tunnel.relayed ==> p in n.tracker.relayed || p in n.tracker.direct)
  }

  predicate RetryOk(n: Node, p: PeerId) {
    ChainAt(n.app.tunnel, p) && Disconnects(n.log, p) == TM.RetriesOf(n.app.tunnel.retry, p)
  }

  predicate QueryOut(queries: map<QueryId, ServiceName>, name: ServiceName) {
    exists id | id in queries :: queries[id] == name
  }

  /** Every waiting service has a provider query out, except those `e` is the answer for. */
  ghost predicate CoveredBut(n: Node, e: Event) {
    n.everReady ==>
      forall name | name in n.app.tunnel.q.pendingByService :: QueryOut(n.ctx.serviceQueries, name) || Concerns(e, name)
  }

  predicate IdsOld(ctx: Context) {
    (forall id | id in ctx.serviceQueries :: id.turn < ctx.turn)
        && (forall id | id in ctx.tunnelQueries :: id.turn < ctx.turn)
  }

  ghost predicate Base(n: Node) {
    && Consistent(n.tracker)
    && (forall p :: RetryOk(n, p))
    && HistoryOk(n.log)
    && IdsOld(n.ctx)
    && (n.app.peer.phase.Ready? ==> n.everReady)
    && n.ctx.directPeers == n.tracker.direct.Keys
  }

  ghost predicate Inv(n: Node) {
    Base(n) && (forall p :: IdsAgree(n, p)) && (forall p :: RelayKnown(n, p)) && CoveredBut(n, ListeningOn)
  }

  // ----- one transition -----

  /** What an event promises about the tracker when it is fed. */
  ghost predicate EventOk(n: Node, e: Event) {
    match e
    case HolePunchAttemptFailed(p, id) => p in n.tracker.attempts && n.tracker.attempts[p].attemptId == id
        && IdsAgree(n, p)
    case HolePunchAttemptTimeout(p, id) => p in n.tracker.attempts && n.tracker.attempts[p].attemptId == id
        && IdsAgree(n, p)
    case DhtPeerLookupComplete(_, _) => forall q :: RelayKnown(n, q)
    case DhtServiceResolved(_, _) => forall q :: RelayKnown(n, q)
    case TunnelPeerConnected(p, relayed) => p in n.tracker.relayed <==> relayed
    case PhaseChanged(_, _) => false
    case _ => true
  }

  lemma TransitTunnel(n: Node, e: Event, now: Time, pick: PeerModel.Pick)
    requires !e.PhaseChanged?
    ensures var n' := Transit(n, e, now, pick); var t := TM.Step(n.app.tunnel, e, now);
            && n'.app.tunnel == t.state && n'.tracker == n.tracker && n'.ctx.directPeers == n.ctx.directPeers
            && |n'.log| == |n.log| + 1 && n'.log[..|n.log|] == n.log
            && var r := n'.log[|n.log|];
            && r.before == n.app.tunnel && r.after == t.state && r.event == e && r.now == now && r.tracker == n.tracker
            && t.commands <= r.commands
            && forall c | Decisive(c) :: r.commands[c] == t.commands[c]
  {
    hide AppStep, TM.Step, TunnelIds, ServiceIds;
    TunnelInsideApp(n.app, AppInput(e, now, pick));
  }

  lemma TransitRetry(n: Node, e: Event, now: Time, pick: PeerModel.Pick, p: PeerId)
    requires RetryOk(n, p) && !e.PhaseChanged?
    ensures RetryOk(Transit(n, e, now, pick), p)
  {
    hide Transit, TM.Step, ChainAt;
    TransitTunnel(n, e, now, pick);
    StepKeepsChainAt(n.app.tunnel, e, now, p);
    StepDisconnects(n.app.tunnel, e, now, p);
  }

  lemma TransitHistory(n: Node, e: Event, now: Time, pick: PeerModel.Pick)
    requires HistoryOk(n.log) && (forall p :: RetryOk(n, p)) && EventOk(n, e)
    ensures HistoryOk(Transit(n, e, now, pick).log)
  {
    hide Transit, TM.Step, Disconnects, ChainAt;
    TransitTunnel(n, e, now, pick);
    var log' := Transit(n, e, now, pick).log;
    forall k: nat | k < |log'| ensures SpawnJustified(log', k) && AttemptCurrent(log'[k]) {
      if k < |n.log| {
        assert SpawnJustified(n.log, k) && AttemptCurrent(n.log[k]);
        assert log'[..k] == n.log[..k] && log'[k] == n.log[k];
      } else {
        forall p, x | SpawnTunnel(p, x) in log'[k].commands && RelayOnly(log'[k].tracker, p)
          ensures Disconnects(log'[..k], p) == 3
        {
          assert Decisive(SpawnTunnel(p, x));
          assert SpawnTunnel(p, x) in TM.Step(n.app.tunnel, e, now).commands;
          ReasonIsRetries(n, e, now, p, x);
        }
      }
    }
  }

  lemma ReasonIsRetries(n: Node, e: Event, now: Time, p: PeerId, x: Spec)
    requires EventOk(n, e) && RetryOk(n, p) && RelayOnly(n.tracker, p)
    requires SpawnTunnel(p, x) in TM.Step(n.app.tunnel, e, now).commands
    ensures Disconnects(n.log, p) == 3
  {
    hide TM.Step, Disconnects;
    StepSpawnReason(n.app.tunnel, e, now, p, x);
    assert e.DhtPeerLookupComplete? || e.DhtServiceResolved? ==> RelayKnown(n, p);
  }

  lemma ExecuteIsOld(ctx: Context, cs: multiset<Command>)
    requires IdsOld(ctx)
    ensures IdsOld(Execute(ctx, cs))
  {
  }

  lemma ExecuteKeepsQueries(ctx: Context, cs: multiset<Command>, name: ServiceName)
    requires IdsOld(ctx)
    ensures QueryOut(ctx.serviceQueries, name) || DhtGetProviders(name) in cs ==>
            QueryOut(Execute(ctx, cs).serviceQueries, name)
  {
    var ctx' := Execute(ctx, cs);
    if DhtGetProviders(name) in cs {
      var id := QueryId(ctx.turn, ServiceTarget(name), 0);
      assert id in ServiceIds(ctx.turn, cs);
      assert id in ctx'.serviceQueries && ctx'.serviceQueries[id] == name;
    } else if QueryOut(ctx.serviceQueries, name) {
      var id :| id in ctx.serviceQueries && ctx.serviceQueries[id] == name;
      assert id !in ServiceIds(ctx.turn, cs);
      assert id in ctx'.serviceQueries && ctx'.serviceQueries[id] == name;
    }
  }

  lemma TransitBase(n: Node, e: Event, now: Time, pick: PeerModel.Pick)
    requires Base(n) && EventOk(n, e)
    ensures Base(Transit(n, e, now, pick))
  {
    hide EventOk, RetryOk, HistoryOk, IdsOld, Consistent, AppStep, Execute;
    var n' := Transit(n, e, now, pick);
    NotBridge(n, e);
    TransitTunnel(n, e, now, pick);
    TransitHistory(n, e, now, pick);
    forall p ensures RetryOk(n', p) { TransitRetry(n, e, now, pick, p); }
    var o := AppStep(n.app, AppInput(e, now, pick));
    ExecuteIsOld(n.ctx, o.peerCommands + o.tunnelCommands);
  }

  lemma NotBridge(n: Node, e: Event)
    requires EventOk(n, e)
    ensures !e.PhaseChanged?
  {
  }

  /** An attempt start names the tracker's attempt. */
  predicate StartOk(n: Node, e: Event) {
    e.HolePunchAttemptStarted? ==>
      e.startedPeer in n.tracker.attempts && n.tracker.attempts[e.startedPeer].attemptId == e.startedAttempt
  }

  predicate Starts(e: Event, p: PeerId) { e.HolePunchAttemptStarted? && e.startedPeer == p }

  lemma TransitIds(n: Node, e: Event, now: Time, pick: PeerModel.Pick, p: PeerId)
    requires !e.PhaseChanged? && StartOk(n, e) && (IdsAgree(n, p) || Starts(e, p))
    ensures IdsAgree(Transit(n, e, now, pick), p)
  {
    hide Transit, TM.Step;
    TransitTunnel(n, e, now, pick);
    StepSession(n.app.tunnel, e, now, p);
  }

  /** The event that tells the tunnel machine how `p` is connected now. */
  predicate Informs(n: Node, e: Event, p: PeerId) {
    || (e.TunnelPeerConnected? && e.connectedPeer == p && (p in n.tracker.relayed <==> e.relayed))
    || (e.ConnectionLost? && e.lost == p && e.remaining == 0 && p !in n.tracker.relayed)
  }

  predicate Misinforms(n: Node, e: Event, p: PeerId) {
    ((e.TunnelPeerConnected? && e.connectedPeer == p) || (e.ConnectionLost? && e.lost == p && e.remaining == 0))
    && !Informs(n, e, p)
  }

  lemma TransitRelay(n: Node, e: Event, now: Time, pick: PeerModel.Pick, p: PeerId)
    requires !e.PhaseChanged? && (RelayKnown(n, p) || Informs(n, e, p)) && !Misinforms(n, e, p)
    ensures RelayKnown(Transit(n, e, now, pick), p)
  {
    hide Transit, TM.Step;
    TransitTunnel(n, e, now, pick);
    StepRelayed(n.app.tunnel, e, now, p);
  }

  lemma ReadyQueriesAll(n: Node, e: Event, now: Time, pick: PeerModel.Pick, name: ServiceName)
    requires !n.app.peer.phase.Ready? && !e.PhaseChanged?
    ensures var o := AppStep(n.app, AppInput(e, now, pick));
            o.app.peer.phase.Ready? && name in o.app.tunnel.q.pendingByService ==>
                DhtGetProviders(name) in o.tunnelCommands
  {
    hide TM.Step, PeerModel.PeerStep, TM.InitialLookups;
    var after := PeerModel.PeerStep(n.app.peer, e, pick).state.phase;
    PhaseMoves(n.app.peer, e, pick);
    BridgeOutcome(n.app.tunnel, n.app.peer.phase, after, now);
    if after.Ready? {
      OnlyLossMovesTunnel(n.app.tunnel, e, now);
      InitialQueries(n.app.tunnel.q, name);
    }
  }

  lemma InitialQueries(q: TM.Queues, name: ServiceName)
    ensures name in q.pendingByService ==> DhtGetProviders(name) in TM.InitialLookups(q)
  {
  }

  lemma TransitCover(n: Node, e: Event, now: Time, pick: PeerModel.Pick)
    requires CoveredBut(n, e) && IdsOld(n.ctx) && !e.PhaseChanged? && (n.app.peer.phase.Ready? ==> n.everReady)
    ensures CoveredBut(Transit(n, e, now, pick), ListeningOn)
  {
    hide AppStep, TM.Step, Execute, QueryOut, IdsOld;
    var n' := Transit(n, e, now, pick);
    var o := AppStep(n.app, AppInput(e, now, pick));
    TunnelInsideApp(n.app, AppInput(e, now, pick));
    if n'.everReady {
      forall name | name in n'.app.tunnel.q.pendingByService ensures QueryOut(n'.ctx.serviceQueries, name) {
        ExecuteKeepsQueries(n.ctx, o.peerCommands + o.tunnelCommands, name);
        StepAsks(n.app.tunnel, e, now, name);
        if !n.everReady {
          ReadyQueriesAll(n, e, now, pick, name);
        }
      }
    }
  }

  // ----- arming -----

  /** What arming leaves alone. */
  ghost predicate ArmFrame(n: Node, m: Node) {
    && m.tracker.relayed == n.tracker.relayed && m.tracker.direct == n.tracker.direct
    && m.app.tunnel.relayed == n.app.tunnel.relayed
    && (forall p | p in n.tracker.attempts ::
          p in m.tracker.attempts && m.tracker.attempts[p].attemptId == n.tracker.attempts[p].attemptId)
    && (forall p | IdsAgree(n, p) :: IdsAgree(m, p))
  }

  lemma ArmOneKeeps(n: Node, p: PeerId, now: Time, pick: PeerModel.Pick)
    requires Base(n) && CoveredBut(n, ListeningOn)
    ensures var m := ArmOne(n, p, now, pick); Base(m) && CoveredBut(m, ListeningOn) && ArmFrame(n, m)
  {
    hide Transit, TM.Step, HistoryOk, IdsOld, Consistent, RetryOk, CoveredBut, EventOk;
    var (t, id) := StartAttempt(n.tracker, p, HOLE_PUNCH_TIMEOUT, now);
    if id.Some? {
      var n1 := n.(tracker := t);
      var e := HolePunchAttemptStarted(p, id.value);
      StartKeeps(n.tracker, p, HOLE_PUNCH_TIMEOUT, now);
      SameButTracker(n, n1);
      StartIsOk(n1, p, id.value);
      TransitBase(n1, e, now, pick);
      SameCover(n, n1, e);
      TransitTunnel(n1, e, now, pick);
      assert IdsOld(n1.ctx);
      TransitCover(n1, e, now, pick);
      var m := ArmOne(n, p, now, pick);
      forall q | IdsAgree(n, q) ensures IdsAgree(m, q) {
        TransitIds(n1, e, now, pick, q);
      }
      forall q ensures q in m.app.tunnel.relayed <==> q in n.app.tunnel.relayed {
        StepRelayed(n.app.tunnel, e, now, q);
      }
    }
  }

  lemma StartIsOk(n: Node, p: PeerId, id: nat)
    ensures EventOk(n, HolePunchAttemptStarted(p, id))
  {
  }

  lemma SameButTracker(n: Node, m: Node)
    requires m == n.(tracker := m.tracker)
    ensures forall p | RetryOk(n, p) :: RetryOk(m, p)
  {
    hide Disconnects, ChainAt;
  }

  lemma SameCover(n: Node, m: Node, e: Event)
    requires m == n.(tracker := m.tracker) && CoveredBut(n, ListeningOn)
    ensures CoveredBut(m, e)
  {
  }

  lemma {:induction false} ArmAllKeeps(n: Node, ps: seq<PeerId>, now: Time, pick: PeerModel.Pick)
    requires Base(n) && CoveredBut(n, ListeningOn)
    ensures var m := ArmAll(n, ps, now, pick); Base(m) && CoveredBut(m, ListeningOn) && ArmFrame(n, m)
  {
    hide Base, ArmOne, CoveredBut, IdsAgree;
    if ps != [] {
      ArmAllKeeps(n, ps[..|ps| - 1], now, pick);
      ArmOneKeeps(ArmAll(n, ps[..|ps| - 1], now, pick), ps[|ps| - 1], now, pick);
    }
  }

  lemma ArmKeeps(n: Node, now: Time, pick: PeerModel.Pick)
    requires Base(n) && CoveredBut(n, ListeningOn)
    ensures var m := Arm(n, now, pick); Base(m) && CoveredBut(m, ListeningOn) && ArmFrame(n, m)
  {
    hide Base, ArmAll, CoveredBut, IdsAgree, TargetPeers;
    if !Stopped(n) { ArmAllKeeps(n, TargetPeers(n.app.tunnel), now, pick); }
  }

  // ----- feeding one event -----

  lemma FeedKeeps(n: Node, e: Event, now: Time, pick: PeerModel.Pick)
    requires Base(n) && EventOk(n, e) && CoveredBut(n, e)
    ensures var m := Feed(n, e, now, pick);
            Base(m) && CoveredBut(m, ListeningOn) && ArmFrame(Transit(n, e, now, pick), m)
  {
    hide EventOk, Transit, Arm, ArmFrame, RetryOk, HistoryOk, Consistent, CoveredBut;
    NotBridge(n, e);
    TransitBase(n, e, now, pick);
    TransitCover(n, e, now, pick);
    ArmKeeps(Transit(n, e, now, pick), now, pick);
  }

  lemma FeedIds(n: Node, e: Event, now: Time, pick: PeerModel.Pick, p: PeerId)
    requires Base(n) && EventOk(n, e) && CoveredBut(n, e) && StartOk(n, e) && (IdsAgree(n, p) || Starts(e, p))
    ensures IdsAgree(Feed(n, e, now, pick), p)
  {
    hide EventOk, Transit, Arm, Base, CoveredBut, StartOk, IdsAgree;
    NotBridge(n, e);
    FeedKeeps(n, e, now, pick);
    TransitIds(n, e, now, pick, p);
  }

  lemma FeedRelay(n: Node, e: Event, now: Time, pick: PeerModel.Pick, p: PeerId)
    requires Base(n) && EventOk(n, e) && CoveredBut(n, e)
    requires (RelayKnown(n, p) || Informs(n, e, p)) && !Misinforms(n, e, p)
    ensures RelayKnown(Feed(n, e, now, pick), p)
  {
    hide EventOk, Transit, Arm, Base, CoveredBut, Informs, Misinforms, IdsAgree;
    NotBridge(n, e);
    FeedKeeps(n, e, now, pick);
    TransitRelay(n, e, now, pick, p);
  }

  /** Feeding an event that is not about connections. */
  predicate Plain(e: Event) {
    !(e.HolePunchAttemptStarted? || e.TunnelPeerConnected? || e.ConnectionLost? || e.HolePunchAttemptFailed?
      || e.HolePunchAttemptTimeout? || e.PhaseChanged?)
  }

  ghost predicate InvBut(n: Node, e: Event) {
    Base(n) && (forall p :: IdsAgree(n, p)) && (forall p :: RelayKnown(n, p)) && CoveredBut(n, e)
  }

  lemma PlainIsOk(n: Node, e: Event)
    requires Plain(e) && InvBut(n, e) && Scoped(n.tracker, e).Some?
    ensures var f := Scoped(n.tracker, e).value; EventOk(n, f) && StartOk(n, f) && CoveredBut(n, f)
    ensures forall p :: !Misinforms(n, Scoped(n.tracker, e).value, p)
  {
    hide Base, QueryOut;
    if e.HolePunchFailed? { assert IdsAgree(n, e.punchFailedPeer); }
  }

  lemma PlainKeeps(n: Node, e: Event, now: Time, pick: PeerModel.Pick)
    requires Plain(e) && InvBut(n, e)
    ensures Inv(FeedOne(n, e, now, pick))
  {
    hide Base, Feed, QueryOut, EventOk, StartOk, Misinforms;
    var scoped := Scoped(n.tracker, e);
    if scoped.Some? {
      var f := scoped.value;
      PlainIsOk(n, e);
      hide CoveredBut;
      FeedKeeps(n, f, now, pick);
      forall p ensures IdsAgree(Feed(n, f, now, pick), p) { assert IdsAgree(n, p); FeedIds(n, f, now, pick, p); }
      forall p ensures RelayKnown(Feed(n, f, now, pick), p) { assert RelayKnown(n, p); FeedRelay(n, f, now, pick, p); }
    }
  }
}
