/** The log of a node as a run of the application, and what the answers of the machines mean for it. */
module NodeHistory {
  import opened Types
  import opened AppModel
  import opened NodeModel
  import opened NodeTransit
  import opened NodeTunnels
  import opened TunnelDials
  import PeerModel
  import PeerAnswers
  import TrackerModel
  import TunnelAnswers
  import TunnelRedials
  import TM = TunnelModel

  // ----- what every transition keeps -----

  /** A property of the application and the log that every transition keeps. */
  ghost predicate Kept(P: Node -> bool) {
    && (forall n: Node, e: Event, now: Time, pick: PeerModel.Pick | P(n) && !e.PhaseChanged? ::
          P(Transit(n, e, now, pick)))
    && (forall n: Node, m: Node | P(n) && m.app == n.app && m.log == n.log :: P(m))
  }

  lemma TransitKept(P: Node -> bool, n: Node, e: Event, now: Time, pick: PeerModel.Pick)
    requires Kept(P) && P(n) && !e.PhaseChanged?
    ensures P(Transit(n, e, now, pick))
  {
    hide Transit;
  }

  lemma SameKept(P: Node -> bool, n: Node, m: Node)
    requires Kept(P) && P(n) && m.app == n.app && m.log == n.log
    ensures P(m)
  {
    hide Transit;
  }

  lemma {:induction false} ArmKept(P: Node -> bool, n: Node, ps: seq<PeerId>, now: Time, pick: PeerModel.Pick)
    requires Kept(P) && P(n)
    ensures P(ArmAll(n, ps, now, pick))
  {
    hide Transit, Kept, TrackerModel.StartAttempt;
    if ps != [] {
      var m, p := ArmAll(n, ps[..|ps| - 1], now, pick), ps[|ps| - 1];
      ArmKept(P, n, ps[..|ps| - 1], now, pick);
      var (t, id) := TrackerModel.StartAttempt(m.tracker, p, HOLE_PUNCH_TIMEOUT, now);
      SameKept(P, m, m.(tracker := t));
      if id.Some? { TransitKept(P, m.(tracker := t), HolePunchAttemptStarted(p, id.value), now, pick); }
    }
  }

  lemma {:induction false} FeedAllKept(P: Node -> bool, n: Node, es: seq<Event>, now: Time, pick: PeerModel.Pick)
    requires Kept(P) && P(n) && forall e | e in es :: !e.PhaseChanged?
    ensures P(FeedAll(n, es, now, pick))
  {
    hide Transit, Kept, ArmAll, TargetPeers;
    if es != [] {
      var m, e := FeedAll(n, es[..|es| - 1], now, pick), es[|es| - 1];
      FeedAllKept(P, n, es[..|es| - 1], now, pick);
      assert e in es;
      var f := Scoped(m.tracker, e);
      if !Stopped(m) && f.Some? {
        TransitKept(P, m, f.value, now, pick);
        var t := Transit(m, f.value, now, pick);
        ArmKept(P, t, TargetPeers(t.app.tunnel), now, pick);
      }
    }
  }

  lemma {:induction false} TimeoutsKept(P: Node -> bool, n: Node, due: map<PeerId, nat>, order: seq<PeerId>, now: Time,
                                        pick: PeerModel.Pick)
    requires Kept(P) && P(n)
    ensures P(FireTimeouts(n, due, order, now, pick))
  {
    hide Transit, Kept;
    if order != [] {
      var m, p := FireTimeouts(n, due, order[..|order| - 1], now, pick), order[|order| - 1];
      TimeoutsKept(P, n, due, order[..|order| - 1], now, pick);
      if p in due { TransitKept(P, m, HolePunchAttemptTimeout(p, due[p]), now, pick); }
    }
  }

  lemma BookkeepKept(P: Node -> bool, n: Node, ev: SwarmEvent, now: Time)
    requires Kept(P) && P(n)
    ensures P(Bookkeep(n, ev, now).0) && forall e | e in Bookkeep(n, ev, now).1 :: !e.PhaseChanged?
  {
    hide Kept, TrackerModel.Established, TrackerModel.Closed, TrackerModel.StartAttempt, TrackerModel.Dialing,
         TrackerModel.OutgoingError;
    SameKept(P, n, Bookkeep(n, ev, now).0);
  }

  lemma IterateKept(P: Node -> bool, n: Node, i: Input)
    requires Kept(P) && P(n)
    ensures P(Iterate(n, i))
  {
    hide Transit, Kept, FeedAll, Bookkeep, Translate, FireTimeouts, TrackerModel.TakeDue, DueInOrder;
    match i
    case Swarm(ev, portMapped, now, pick) =>
      BookkeepKept(P, n, ev, now);
      var (n1, synthetic) := Bookkeep(n, ev, now);
      TransitKept(P, n1, NatStatusChanged(Public), now, pick);
      var n2 := if portMapped then Transit(n1, NatStatusChanged(Public), now, pick) else n1;
      NoBridges(n2.ctx, ev);
      var (ctx, es) := Translate(n2.ctx, ev);
      SameKept(P, n2, n2.(ctx := ctx));
      FeedAllKept(P, n2.(ctx := ctx), synthetic + es, now, pick);
    case DiscoveryDeadline(now, pick) => TransitKept(P, n, DiscoveryTimeout, now, pick);
    case HolePunchDeadline(order, now, pick) =>
      var (t, due) := TrackerModel.TakeDue(n.tracker, now);
      SameKept(P, n, n.(tracker := t));
      TimeoutsKept(P, n.(tracker := t), due, DueInOrder(due, order), now, pick);
    case ShutdownSignal(now, pick) => TransitKept(P, n, ShutdownRequested, now, pick);
  }

  /** What holds of a fresh node and is kept by every transition holds at every loop head. */
  lemma {:induction false} RunsKeep(P: Node -> bool, l: Launch, run: seq<Input>)
    requires Kept(P) && P(Fresh(l))
    ensures P(NodeAfter(Started(l), run))
  {
    hide Transit, Kept, Iterate, Fresh;
    if run == [] {
      TransitKept(P, Fresh(l), if l.hasBootstrap then NatStatusChanged(Private) else NoBootstrapPeers, l.now, l.pick);
    } else {
      RunsKeep(P, l, run[..|run| - 1]);
      IterateKept(P, NodeAfter(Started(l), run[..|run| - 1]), run[|run| - 1]);
    }
  }

  // ----- the log as a run of the application -----

  function AppInputs(log: seq<Record>): seq<AppInput> {
    seq(|log|, i requires 0 <= i < |log| => AppInput(log[i].event, log[i].now, log[i].pick))
  }

  ghost predicate AppRun(a0: App, n: Node) {
    n.app == AppAfter(a0, AppInputs(n.log)) && NotInjected(AppInputs(n.log))
    && forall k: nat | k < |n.log| :: CommandsFit(a0, n.log, k)
  }

  /** Entry `k` of the log holds all the commands of its step. */
  ghost predicate CommandsFit(a0: App, log: seq<Record>, k: nat)
    requires k < |log|
  {
    var o := AppStep(AppAfter(a0, AppInputs(log[..k])), AppInput(log[k].event, log[k].now, log[k].pick));
    log[k].commands == o.peerCommands + o.tunnelCommands
  }

  lemma CommandsStay(a0: App, log: seq<Record>, more: seq<Record>)
    requires |more| == |log| + 1 && more[..|log|] == log && forall k: nat | k < |log| :: CommandsFit(a0, log, k)
    ensures forall k: nat | k < |log| :: CommandsFit(a0, more, k)
  {
    hide AppStep, AppAfter, AppInputs;
    forall k: nat | k < |log| ensures CommandsFit(a0, more, k) {
      assert CommandsFit(a0, log, k);
      assert more[..k] == log[..k] && more[k] == log[k];
    }
  }

  lemma TransitAppRun(a0: App, n: Node, e: Event, now: Time, pick: PeerModel.Pick)
    requires AppRun(a0, n) && !e.PhaseChanged?
    ensures AppRun(a0, Transit(n, e, now, pick))
  {
    hide AppStep, Execute;
    var m := Transit(n, e, now, pick);
    assert AppInputs(m.log) == AppInputs(n.log) + [AppInput(e, now, pick)];
    assert AppInputs(m.log)[..|m.log| - 1] == AppInputs(n.log);
    assert m.log[..|n.log|] == n.log;
    assert CommandsFit(a0, m.log, |n.log|);
    CommandsStay(a0, n.log, m.log);
  }

  lemma AppRunKept(a0: App)
    ensures Kept(n => AppRun(a0, n))
  {
    hide Transit;
    forall n: Node, e: Event, now: Time, pick: PeerModel.Pick | AppRun(a0, n) && !e.PhaseChanged?
      ensures AppRun(a0, Transit(n, e, now, pick)) {
      TransitAppRun(a0, n, e, now, pick);
    }
  }

  /** Every run of the node is, in its log, a run of the application. */
  lemma LogIsAppRun(l: Launch, run: seq<Input>)
    ensures AppRun(Fresh(l).app, NodeAfter(Started(l), run))
  {
    AppRunKept(Fresh(l).app);
    assert AppInputs([]) == [];
    assert AppRun(Fresh(l).app, Fresh(l)) by { FreshRuns(l); }
    hide AppRun, Kept, Fresh, Iterate, Started;
    RunsKeep(n => AppRun(Fresh(l).app, n), l, run);
  }

  lemma FreshRuns(l: Launch)
    ensures AppRun(Fresh(l).app, Fresh(l))
  {
    assert AppInputs([]) == [];
  }

  /** In every run of the node, services are published once for each entry into ready and once for each
      accepted reservation, and the fields of the membership machine tell the events of the log. */
  lemma NodePublishes(l: Launch, run: seq<Input>)
    ensures var log := AppInputs(NodeAfter(Started(l), run).log); var a0 := Fresh(l).app;
            && Published(a0, log) == ReadyEntries(a0, log) + Acceptances(log)
            && PeerAnswers.TellsHistory(a0, log) && NodeAfter(Started(l), run).app == AppAfter(a0, log)
  {
    LogIsAppRun(l, run);
    var log := AppInputs(NodeAfter(Started(l), run).log);
    PublicationsCount(Fresh(l).app, log);
    PeerAnswers.FieldsTellHistory(Fresh(l).app, log);
    hide Published, ReadyEntries, Acceptances, PeerAnswers.TellsHistory;
  }

  /** In every run of the node its bootstrap peers are those it was started with and those it has connected
      to as such since. */
  lemma BootstrapPeersKnown(l: Launch, run: seq<Input>, p: PeerId)
    ensures var n := NodeAfter(Started(l), run);
            p in n.app.peer.bootstrapPeers
            <==> p in l.bootstrap || PeerAnswers.ConnectedAsBootstrap(AppInputs(n.log), p)
  {
    NodePublishes(l, run);
    hide NodeAfter, Started, AppAfter, Published, ReadyEntries, Acceptances, PeerAnswers.Confirmed,
         PeerAnswers.Bootstrapped, PeerAnswers.LastNat;
  }

  // ----- the answers in the log -----

  /** In every run of the node, an event that reports a direct connection leaves no tunnel of the peer
      waiting: each one that was queued for it is spawned there and then. */
  lemma DirectConnectionsSettle(l: Launch, run: seq<Input>, k: nat, p: PeerId, x: Spec)
    requires k < |NodeAfter(Started(l), run).log|
    ensures var r := NodeAfter(Started(l), run).log[k];
            r.event == TunnelPeerConnected(p, false) ==>
              && p !in r.after.q.pendingByPeer && p !in r.after.q.awaiting
              && var v := TunnelAnswers.Of(r.before, p);
              r.commands[SpawnTunnel(p, x)]
                  == multiset(TunnelAnswers.List(v.pending) + TunnelAnswers.List(v.awaiting))[x]
  {
    hide NodeAfter, Started, TM.Step, TM.StateAfter, TM.Monotone;
    LogIsRun(l, run, k);
    var r := NodeAfter(Started(l), run).log[k];
    assert Decisive(SpawnTunnel(p, x));
    TunnelAnswers.DirectConnectionSettles(r.before, p, r.now);
    assert TunnelAnswers.Of(r.after, p).pending == TunnelAnswers.At(r.after.q.pendingByPeer, p);
    assert TunnelAnswers.Of(r.after, p).awaiting == TunnelAnswers.At(r.after.q.awaiting, p);
  }

  /** The dial failures of `p` in the log that must be redialed. */
  function OwedInLog(log: seq<Record>, p: PeerId): nat {
    if log == [] then 0 else OwedInLog(log[..|log| - 1], p) + OwedBy(log[|log| - 1].before, log[|log| - 1].event, p)
  }

  lemma {:induction false} OwedIsLogged(c: TM.Config, log: seq<Record>, p: PeerId)
    requires forall k: nat | k < |log| :: RecordFits(c, log, k)
    ensures OwedInLog(log, p) == OwedOver(TM.Configured(c), Inputs(log), p)
  {
    hide TM.Step, TM.StateAfter, OwedBy;
    if log != [] {
      var n := |log| - 1;
      FitsBefore(c, log, log[..n]);
      OwedIsLogged(c, log[..n], p);
      assert RecordFits(c, log, n);
      assert Inputs(log)[..n] == Inputs(log[..n]);
    }
  }

  /** In every run of the node, the dials to a peer in answer to its dial failures are exactly as many as
      the failures that must be redialed. */
  lemma RedialsAreOwedInLog(l: Launch, run: seq<Input>, p: PeerId)
    ensures var log := NodeAfter(Started(l), run).log; LoggedRedials(log, p) == OwedInLog(log, p)
  {
    hide NodeAfter, Started, RecordFits, TM.StateAfter, LoggedRedials, OwedInLog;
    RunsRecord(l, run, false);
    var log := NodeAfter(Started(l), run).log;
    RedialsAreLogged(l.tunnels, log, p);
    OwedIsLogged(l.tunnels, log, p);
    RedialsAreOwed(l.tunnels, Inputs(log), p);
  }

  /** In every run of the node, losing the last connection under a wait or with a redial due is answered
      with exactly one dial, and a lookup that ends without a connection with a dial of the bare peer. */
  lemma WaitsAreDialed(l: Launch, run: seq<Input>, k: nat, p: PeerId)
    requires k < |NodeAfter(Started(l), run).log|
    ensures var r := NodeAfter(Started(l), run).log[k];
            && (r.event == ConnectionLost(p, 0) && (p in r.before.q.awaiting || p in r.before.retry.pendingRedial) ==>
                  TunnelRedials.DialCount(r.commands, p) == 1)
            && (r.event == DhtPeerLookupComplete(p, false) && p in r.before.q.pendingByPeer ==>
                  r.commands[DialPeer(p)] == 1)
  {
    hide NodeAfter, Started, TM.Step, TM.StateAfter, TM.Monotone, TunnelRedials.DialCount;
    LogIsRun(l, run, k);
    var log := NodeAfter(Started(l), run).log;
    var r := log[k];
    TunnelAnswers.LossAnswers(r.before, p, r.now);
    TunnelAnswers.LookupAnswers(r.before, p, false, r.now);
    SameDials(StepAt(l.tunnels, log, k).commands, r.commands, p);
    assert Decisive(DialPeer(p));
  }

  lemma SameDials(some: multiset<Command>, all: multiset<Command>, p: PeerId)
    requires some <= all && forall d | Decisive(d) :: all[d] == some[d]
    ensures TunnelRedials.DialCount(all, p) == TunnelRedials.DialCount(some, p)
  {
    SameSum(some, all, TunnelRedials.DialOf(p));
  }
}
