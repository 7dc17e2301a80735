/** While the node runs, no tunnel waits behind a relay without a hole-punch attempt. */
module NodeArming {
  import opened Types
  import opened AppModel
  import opened TrackerModel
  import opened NodeModel
  import opened NodeInvariants
  import PeerModel
  import TM = TunnelModel

  predicate Punching(n: Node, p: PeerId) {
    HasIntent(n.app.tunnel, p) && RelayOnly(n.tracker, p) ==> p in n.tracker.attempts
  }

  /** Every relay-only peer that a tunnel waits for has an active attempt. */
  ghost predicate Armed(n: Node) { Stopped(n) || forall p :: Punching(n, p) }

  // ----- arming -----

  /** What arming changes: attempts are added, connections and queues stay. */
  ghost predicate OnlyArms(n: Node, m: Node) {
    && m.tracker.relayed == n.tracker.relayed && m.tracker.direct == n.tracker.direct
    && n.tracker.attempts.Keys <= m.tracker.attempts.Keys && m.app.tunnel.q == n.app.tunnel.q
  }

  lemma StartedKeepsQueues(s: TM.Tunnel, p: PeerId, id: nat, now: Time)
    ensures TM.Step(s, HolePunchAttemptStarted(p, id), now).state.q == s.q
  {
  }

  lemma ArmOneArms(n: Node, p: PeerId, now: Time, pick: PeerModel.Pick)
    ensures var m := ArmOne(n, p, now, pick); OnlyArms(n, m) && (RelayOnly(n.tracker, p) ==> p in m.tracker.attempts)
  {
    hide Transit, TM.Step;
    var (t, id) := StartAttempt(n.tracker, p, HOLE_PUNCH_TIMEOUT, now);
    if id.Some? {
      TransitTunnel(n.(tracker := t), HolePunchAttemptStarted(p, id.value), now, pick);
      StartedKeepsQueues(n.app.tunnel, p, id.value, now);
    }
  }

  lemma {:induction false} ArmAllArms(n: Node, ps: seq<PeerId>, now: Time, pick: PeerModel.Pick)
    ensures var m := ArmAll(n, ps, now, pick);
            OnlyArms(n, m) && forall p | p in ps && RelayOnly(n.tracker, p) :: p in m.tracker.attempts
  {
    hide ArmOne;
    if ps != [] {
      var k := |ps| - 1;
      ArmAllArms(n, ps[..k], now, pick);
      ArmOneArms(ArmAll(n, ps[..k], now, pick), ps[k], now, pick);
      assert ps == ps[..k] + [ps[k]];
    }
  }

  lemma TargetsAreIntents(s: TM.Tunnel, p: PeerId)
    ensures p in TargetPeers(s) <==> HasIntent(s, p)
  {
    OrdersAreTotal({});
  }

  lemma FeedArms(n: Node, e: Event, now: Time, pick: PeerModel.Pick)
    ensures Armed(Feed(n, e, now, pick))
  {
    hide Transit, TargetPeers, ArmAll;
    var t := Transit(n, e, now, pick);
    if !Stopped(t) {
      var m := ArmAll(t, TargetPeers(t.app.tunnel), now, pick);
      ArmAllArms(t, TargetPeers(t.app.tunnel), now, pick);
      forall p ensures Punching(m, p) { TargetsAreIntents(t.app.tunnel, p); }
    }
  }

  // ----- events -----

  /** Events that are fed whatever the tracker holds. */
  predicate AlwaysFed(e: Event) { !e.HolePunchFailed? && !e.HolePunchAttemptFailed? }

  lemma {:induction false} FeedAllArms(n: Node, es: seq<Event>, now: Time, pick: PeerModel.Pick)
    requires Armed(n) || (es != [] && AlwaysFed(es[|es| - 1]))
    ensures Armed(FeedAll(n, es, now, pick))
  {
    hide Armed, Feed;
    if es != [] {
      var m, e := FeedAll(n, es[..|es| - 1], now, pick), es[|es| - 1];
      if Armed(n) { FeedAllArms(n, es[..|es| - 1], now, pick); }
      StoppedIsArmed(m);
      var f := Scoped(m.tracker, e);
      if f.Some? { FeedArms(m, f.value, now, pick); }
    }
  }

  lemma StoppedIsArmed(n: Node)
    ensures Stopped(n) ==> Armed(n)
  {
  }

  /** A step of the application that moves no tunnel to another peer. */
  lemma FewerIntents(n: Node, m: Node)
    requires Armed(n) && !Stopped(n)
    requires m.tracker.relayed == n.tracker.relayed && m.tracker.direct == n.tracker.direct
    requires n.tracker.attempts.Keys <= m.tracker.attempts.Keys
    requires forall p | HasIntent(m.app.tunnel, p) :: HasIntent(n.app.tunnel, p)
    ensures Armed(m)
  {
    forall p ensures Punching(m, p) { assert Punching(n, p); }
  }

  lemma QuietQueues(s: TM.Tunnel, e: Event, now: Time)
    requires e.NatStatusChanged? || e.DiscoveryTimeout? || e.ShutdownRequested?
    ensures TM.Step(s, e, now).state == s
  {
  }

  lemma QuietTransitArms(n: Node, e: Event, now: Time, pick: PeerModel.Pick)
    requires Armed(n) && !Stopped(n) && (e.NatStatusChanged? || e.DiscoveryTimeout? || e.ShutdownRequested?)
    ensures Armed(Transit(n, e, now, pick))
  {
    hide Transit, TM.Step, Armed;
    TransitTunnel(n, e, now, pick);
    QuietQueues(n.app.tunnel, e, now);
    FewerIntents(n, Transit(n, e, now, pick));
  }

  lemma TimeoutIntents(s: TM.Tunnel, p: PeerId, id: nat, now: Time, q: PeerId)
    ensures HasIntent(TM.Step(s, HolePunchAttemptTimeout(p, id), now).state, q) ==> HasIntent(s, q)
  {
    hide TM.Spawns;
  }

  lemma TimeoutRuns(n: Node, p: PeerId, id: nat, now: Time, pick: PeerModel.Pick)
    requires !Stopped(n)
    ensures !Stopped(Transit(n, HolePunchAttemptTimeout(p, id), now, pick))
  {
    hide AppStep, Execute, PeerModel.PeerStep;
    PhaseOfStep(n.app, AppInput(HolePunchAttemptTimeout(p, id), now, pick));
    PhaseMoves(n.app.peer, HolePunchAttemptTimeout(p, id), pick);
  }

  lemma {:induction false} TimeoutsArm(n: Node, due: map<PeerId, nat>, order: seq<PeerId>, now: Time,
                                       pick: PeerModel.Pick)
    requires Armed(n) && !Stopped(n)
    ensures var m := FireTimeouts(n, due, order, now, pick); Armed(m) && !Stopped(m)
  {
    hide Armed, Transit, TM.Step;
    if order != [] {
      var m, p := FireTimeouts(n, due, order[..|order| - 1], now, pick), order[|order| - 1];
      TimeoutsArm(n, due, order[..|order| - 1], now, pick);
      if p in due {
        TimeoutRuns(m, p, due[p], now, pick);
        TransitTunnel(m, HolePunchAttemptTimeout(p, due[p]), now, pick);
        forall q ensures HasIntent(TM.Step(m.app.tunnel, HolePunchAttemptTimeout(p, due[p]), now).state, q)
                         ==> HasIntent(m.app.tunnel, q) {
          TimeoutIntents(m.app.tunnel, p, due[p], now, q);
        }
        FewerIntents(m, Transit(m, HolePunchAttemptTimeout(p, due[p]), now, pick));
      }
    }
  }

  // ----- swarm events -----

  predicate MovesConnections(ev: SwarmEvent) { ev.ConnEstablished? || ev.ConnClosed? }

  lemma ReportsLast(n: Node, ev: SwarmEvent, ctx: Context, now: Time)
    requires MovesConnections(ev)
    ensures var es := Bookkeep(n, ev, now).1 + Translate(ctx, ev).1; es != [] && AlwaysFed(es[|es| - 1])
  {
    hide Established, Closed, StartAttempt;
  }

  lemma BookkeepKeepsArmed(n: Node, ev: SwarmEvent, now: Time)
    requires Armed(n) && !Stopped(n) && !MovesConnections(ev)
    ensures Armed(Bookkeep(n, ev, now).0) && Bookkeep(n, ev, now).1 == []
  {
    hide Armed;
    FewerIntents(n, Bookkeep(n, ev, now).0);
  }

  lemma BookkeepRuns(n: Node, ev: SwarmEvent, now: Time)
    ensures Bookkeep(n, ev, now).0.app == n.app
  {
    hide Established, Closed, StartAttempt, TrackerModel.Dialing, OutgoingError;
  }

  lemma SwarmArms(n: Node, ev: SwarmEvent, portMapped: bool, now: Time, pick: PeerModel.Pick)
    requires Armed(n) && !Stopped(n)
    ensures Armed(OnSwarmEvent(n, ev, portMapped, now, pick))
  {
    hide Armed, Bookkeep, Transit, Translate, FeedAll;
    var (n1, synthetic) := Bookkeep(n, ev, now);
    BookkeepRuns(n, ev, now);
    var n2 := if portMapped then Transit(n1, NatStatusChanged(Public), now, pick) else n1;
    var (ctx, translated) := Translate(n2.ctx, ev);
    var m := n2.(ctx := ctx);
    if MovesConnections(ev) {
      ReportsLast(n, ev, n2.ctx, now);
    } else {
      BookkeepKeepsArmed(n, ev, now);
      if portMapped { QuietTransitArms(n1, NatStatusChanged(Public), now, pick); }
      SameArmed(n2, m);
    }
    FeedAllArms(m, synthetic + translated, now, pick);
  }

  lemma SameArmed(n: Node, m: Node)
    requires Armed(n) && m.app == n.app && m.tracker == n.tracker
    ensures Armed(m)
  {
    if !Stopped(n) { forall p ensures Punching(m, p) { assert Punching(n, p); } }
  }

  // ----- whole runs -----

  lemma IterateArms(n: Node, i: Input)
    requires Armed(n)
    ensures Armed(Iterate(n, i))
  {
    hide Armed, OnSwarmEvent, Transit, FireTimeouts;
    if !Stopped(n) {
      match i
      case Swarm(ev, portMapped, now, pick) => SwarmArms(n, ev, portMapped, now, pick);
      case DiscoveryDeadline(now, pick) => QuietTransitArms(n, DiscoveryTimeout, now, pick);
      case HolePunchDeadline(order, now, pick) =>
        var (t, due) := TakeDue(n.tracker, now);
        FewerIntents(n, n.(tracker := t));
        TimeoutsArm(n.(tracker := t), due, DueInOrder(due, order), now, pick);
      case ShutdownSignal(now, pick) => QuietTransitArms(n, ShutdownRequested, now, pick);
    }
  }

  lemma StartedArmed(l: Launch)
    ensures Armed(Started(l))
  {
    hide AppStep, Execute;
  }

  lemma {:induction false} RunsStayArmed(l: Launch, run: seq<Input>)
    ensures Armed(NodeAfter(Started(l), run))
  {
    hide Armed, Iterate, Started;
    if run == [] {
      StartedArmed(l);
    } else {
      RunsStayArmed(l, run[..|run| - 1]);
      IterateArms(NodeAfter(Started(l), run[..|run| - 1]), run[|run| - 1]);
    }
  }

  /** At every loop head of a running node, each peer that a tunnel waits for and that is reached only
      through a relay has an active hole-punch attempt. */
  lemma NoTargetUnpunched(l: Launch, run: seq<Input>, p: PeerId)
    ensures var n := NodeAfter(Started(l), run);
            !Stopped(n) && (p in n.app.tunnel.q.pendingByPeer || p in n.app.tunnel.q.awaiting)
                && RelayOnly(n.tracker, p) ==>
              p in n.tracker.attempts
  {
    hide Iterate, Started;
    RunsStayArmed(l, run);
    assert Stopped(NodeAfter(Started(l), run)) || Punching(NodeAfter(Started(l), run), p);
  }
}
