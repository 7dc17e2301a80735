/** The log of a node is a run of the tunnel machine, so what the tunnel machine guarantees over its own
    runs holds over whole runs of the node: nothing is lost or spawned twice, every spawn has a source,
    dials and fallbacks are bounded, and every redial with addresses is made of exactly the two lists of
    its session. */
module NodeTunnels {
  import opened Types
  import opened Collections
  import opened NodeModel
  import opened NodeTransit
  import opened NodeInvariants
  import opened TunnelInvariants
  import opened TunnelConservation
  import TunnelProvenance
  import TunnelFallback
  import TunnelRedials
  import PeerModel
  import TrackerModel
  import TM = TunnelModel

  /** A redial with addresses carries the attempt of its peer's session, and the direct snapshot of
      that session followed by its relay addresses. */
  predicate ExactRedial(s: TM.Tunnel, c: Command) {
    c.DialPeerWithAddrs? ==>
      && c.dialWith in s.retry.sessions
      && var session := s.retry.sessions[c.dialWith];
      && c.attemptId == session.attemptId && c.addrs == session.directSnapshot + session.relayRedial
  }

  // ----- redials -----

  lemma RedialIsExact(s: TM.Tunnel, p: PeerId, clock: Time, now: Time)
    requires AddressInv(s, clock) && clock <= now && p in s.retry.sessions
    ensures ExactRedial(s, TM.RedialCommand(s.book, p, s.retry.sessions[p], now))
  {
    assert AddressesAt(s, p, clock);
    hide AddressesAt, TM.PrioritizedRedial;
    RedialFromInvariant(s, p, clock, now);
  }

  lemma LostRedials(s: TM.Tunnel, p: PeerId, clock: Time, now: Time)
    requires AddressInv(s, clock) && clock <= now
    ensures forall d | d in TM.AllConnectionsLost(s, p, now).commands :: ExactRedial(s, d)
  {
    hide TM.RedialCommand, AddressInv;
    if p in s.retry.sessions { RedialIsExact(s, p, clock, now); }
  }

  lemma DialFailedRedials(s: TM.Tunnel, p: PeerId, pendingAbort: bool, clock: Time, now: Time)
    requires AddressInv(s, clock) && clock <= now
    ensures forall d | d in TM.DialFailed(s, p, pendingAbort, now).commands :: ExactRedial(s, d)
  {
    hide TM.RedialCommand, AddressInv, TM.RerouteFailed;
    if p in s.retry.sessions { RedialIsExact(s, p, clock, now); }
  }

  ghost predicate NoRedial(cs: multiset<Command>) { forall d | d in cs :: !d.DialPeerWithAddrs? }

  lemma RoutingDoesNotRedial(s: TM.Tunnel, q: TM.Queues, p: PeerId, specs: seq<Spec>)
    ensures NoRedial(TM.RouteConnected(s, q, p, specs).commands) && NoRedial(TM.Spawns(p, specs))
  {
  }

  lemma ResolvingDoesNotRedial(s: TM.Tunnel, name: ServiceName, providers: seq<(PeerId, bool)>)
    ensures NoRedial(TM.ResolveService(s, name, providers).commands)
  {
    hide TM.RouteConnected, Dedup, TM.StoreCandidates;
    if name in s.q.pendingByService && providers != [] {
      var peers := Dedup(TM.PeersOf(providers));
      assert TM.PeersOf(providers)[0] in peers;
      var q := s.q.(pendingByService := s.q.pendingByService - {name},
                    candidates := TM.StoreCandidates(s.q.candidates, name, peers[1..]));
      RoutingDoesNotRedial(s, q, peers[0], TM.SpecsFor(name, s.q.pendingByService[name]));
    }
  }

  lemma RetryingDoesNotRedial(s: TM.Tunnel, p: PeerId, id: nat)
    ensures NoRedial(TM.RetryAttempt(s, p, id).commands)
  {
    hide TM.Spawns, TM.ClearRetry, TM.ScheduleRetry, TM.SetPhase;
    RoutingDoesNotRedial(s, s.q, p, Get(s.q.awaiting, p));
  }

  lemma ConnectingDoesNotRedial(s: TM.Tunnel, p: PeerId, relayed: bool)
    ensures NoRedial(TM.PeerConnected(s, p, relayed).commands)
  {
    hide TM.Spawns, TM.ClearRetry;
    RoutingDoesNotRedial(s, s.q, p, Get(s.q.pendingByPeer, p) + Get(s.q.awaiting, p));
  }

  lemma OthersDoNotRedial(s: TM.Tunnel, e: Event, now: Time)
    requires !e.TunnelDialFailed? && !(e.ConnectionLost? && e.remaining == 0)
    ensures NoRedial(TM.Step(s, e, now).commands)
  {
    hide TM.RouteConnected, TM.ResolveService, TM.RetryAttempt, TM.PeerConnected, TM.Identified, TM.BeginAttempt;
    match e
    case DhtPeerLookupComplete(p, _) => RoutingDoesNotRedial(s, TM.TakePending(s.q, p), p, Get(s.q.pendingByPeer, p));
    case DhtServiceResolved(name, providers) => ResolvingDoesNotRedial(s, name, providers);
    case HolePunchAttemptFailed(p, id) => RetryingDoesNotRedial(s, p, id);
    case HolePunchAttemptTimeout(p, id) => RetryingDoesNotRedial(s, p, id);
    case TunnelPeerConnected(p, relayed) => ConnectingDoesNotRedial(s, p, relayed);
    case _ =>
  }

  lemma StepRedials(s: TM.Tunnel, e: Event, clock: Time, now: Time)
    requires AddressInv(s, clock) && clock <= now
    ensures forall d | d in TM.Step(s, e, now).commands :: ExactRedial(s, d)
  {
    hide TM.DialFailed, TM.AllConnectionsLost, AddressInv;
    if e.TunnelDialFailed? {
      DialFailedRedials(s, e.dialed, e.pendingAbort, clock, now);
    } else if e.ConnectionLost? && e.remaining == 0 {
      LostRedials(s, e.lost, clock, now);
    } else {
      hide TM.Step;
      OthersDoNotRedial(s, e, now);
    }
  }

  // ----- the log as a run of the tunnel machine -----

  function Inputs(log: seq<Record>): seq<TM.Input> {
    seq(|log|, i requires 0 <= i < |log| => TM.Input(log[i].event, log[i].now))
  }

  /** What the tunnel machine does at entry `k` of the log. */
  function StepAt(c: TM.Config, log: seq<Record>, k: nat): TM.Outcome
    requires k < |log|
  {
    TM.Step(TM.StateAfter(TM.Configured(c), Inputs(log[..k])), log[k].event, log[k].now)
  }

  /** Entry `k` records that step: its state, and its commands as far as they dial, disconnect or spawn. */
  ghost predicate RecordFits(c: TM.Config, log: seq<Record>, k: nat)
    requires k < |log|
  {
    && log[k].before == TM.StateAfter(TM.Configured(c), Inputs(log[..k])) && log[k].after == StepAt(c, log, k).state
    && StepAt(c, log, k).commands <= log[k].commands
    && forall d | Decisive(d) :: log[k].commands[d] == StepAt(c, log, k).commands[d]
  }

  /** The log is a run that ends in the present state and, if `timed`, no entry is later than `clock`
      or than its successors. */
  ghost predicate Recorded(n: Node, c: TM.Config, timed: bool, clock: Time) {
    && n.app.tunnel == TM.StateAfter(TM.Configured(c), Inputs(n.log))
    && (forall k: nat | k < |n.log| :: RecordFits(c, n.log, k))
    && (timed ==> TM.Monotone(Inputs(n.log)) && LastNow(Inputs(n.log)) <= clock)
  }

  lemma RecordsStay(c: TM.Config, log: seq<Record>, more: seq<Record>)
    requires |more| == |log| + 1 && more[..|log|] == log
    requires forall k: nat | k < |log| :: RecordFits(c, log, k)
    ensures forall k: nat | k < |log| :: RecordFits(c, more, k)
  {
    hide TM.Step, TM.StateAfter, Inputs;
    forall k: nat | k < |log| ensures RecordFits(c, more, k) {
      assert RecordFits(c, log, k);
      assert log[..k] == more[..k] && log[k] == more[k];
    }
  }

  lemma TransitRuns(n: Node, e: Event, now: Time, pick: PeerModel.Pick, c: TM.Config, timed: bool, clock: Time)
    requires Recorded(n, c, timed, clock) && !e.PhaseChanged?
    ensures var m := Transit(n, e, now, pick);
            && Inputs(m.log) == Inputs(n.log) + [TM.Input(e, now)]
            && m.app.tunnel == TM.StateAfter(TM.Configured(c), Inputs(m.log))
            && RecordFits(c, m.log, |n.log|)
  {
    hide Transit, TM.Step, TM.Monotone;
    var m := Transit(n, e, now, pick);
    TransitTunnel(n, e, now, pick);
    assert m.log == n.log + [m.log[|n.log|]];
    assert Inputs(m.log) == Inputs(n.log) + [TM.Input(e, now)];
    assert Inputs(m.log)[..|m.log| - 1] == Inputs(n.log);
  }

  lemma TransitRecords(n: Node, e: Event, now: Time, pick: PeerModel.Pick, c: TM.Config, timed: bool, clock: Time)
    requires Recorded(n, c, timed, clock) && (timed ==> clock <= now) && !e.PhaseChanged?
    ensures Recorded(Transit(n, e, now, pick), c, timed, now)
  {
    TransitRuns(n, e, now, pick, c, timed, clock);
    hide Transit, TM.StateAfter, RecordFits;
    TransitTunnel(n, e, now, pick);
    hide TM.Step;
    RecordsStay(c, n.log, Transit(n, e, now, pick).log);
    if timed { LaterInput(Inputs(n.log), TM.Input(e, now)); }
  }

  lemma LaterInput(run: seq<TM.Input>, i: TM.Input)
    requires TM.Monotone(run) && LastNow(run) <= i.now
    ensures TM.Monotone(run + [i])
  {
  }

  // ----- whole runs -----

  lemma SameTunnels(n: Node, m: Node, c: TM.Config, timed: bool, clock: Time)
    requires Recorded(n, c, timed, clock) && m.app.tunnel == n.app.tunnel && m.log == n.log
    ensures Recorded(m, c, timed, clock)
  {
    hide RecordFits, TM.StateAfter, Inputs;
  }

  lemma LaterRecords(n: Node, c: TM.Config, timed: bool, clock: Time, now: Time)
    requires Recorded(n, c, timed, clock) && (timed ==> clock <= now)
    ensures Recorded(n, c, timed, now)
  {
    hide RecordFits, TM.StateAfter, Inputs;
  }

  lemma {:induction false} ArmRecords(n: Node, ps: seq<PeerId>, now: Time, pick: PeerModel.Pick, c: TM.Config,
                                      timed: bool)
    requires Recorded(n, c, timed, now)
    ensures Recorded(ArmAll(n, ps, now, pick), c, timed, now)
  {
    hide Recorded, Transit, TrackerModel.StartAttempt;
    if ps != [] {
      var m, p := ArmAll(n, ps[..|ps| - 1], now, pick), ps[|ps| - 1];
      ArmRecords(n, ps[..|ps| - 1], now, pick, c, timed);
      var (t, id) := TrackerModel.StartAttempt(m.tracker, p, HOLE_PUNCH_TIMEOUT, now);
      SameTunnels(m, m.(tracker := t), c, timed, now);
      if id.Some? {
        TransitRecords(m.(tracker := t), HolePunchAttemptStarted(p, id.value), now, pick, c, timed, now);
      }
    }
  }

  lemma FeedRecords(n: Node, e: Event, now: Time, pick: PeerModel.Pick, c: TM.Config, timed: bool)
    requires Recorded(n, c, timed, now) && !e.PhaseChanged?
    ensures Recorded(FeedOne(n, e, now, pick), c, timed, now)
  {
    hide Recorded, Transit, ArmAll, TargetPeers;
    var f := Scoped(n.tracker, e);
    if f.Some? {
      TransitRecords(n, f.value, now, pick, c, timed, now);
      var m := Transit(n, f.value, now, pick);
      ArmRecords(m, TargetPeers(m.app.tunnel), now, pick, c, timed);
    }
  }

  lemma {:induction false} FeedAllRecords(n: Node, es: seq<Event>, now: Time, pick: PeerModel.Pick, c: TM.Config,
                                          timed: bool)
    requires Recorded(n, c, timed, now) && forall e | e in es :: !e.PhaseChanged?
    ensures Recorded(FeedAll(n, es, now, pick), c, timed, now)
  {
    hide Recorded, FeedOne;
    if es != [] {
      FeedAllRecords(n, es[..|es| - 1], now, pick, c, timed);
      FeedRecords(FeedAll(n, es[..|es| - 1], now, pick), es[|es| - 1], now, pick, c, timed);
    }
  }

  lemma {:induction false} TimeoutsRecord(n: Node, due: map<PeerId, nat>, order: seq<PeerId>, now: Time,
                                          pick: PeerModel.Pick, c: TM.Config, timed: bool)
    requires Recorded(n, c, timed, now)
    ensures Recorded(FireTimeouts(n, due, order, now, pick), c, timed, now)
  {
    hide Recorded, Transit;
    if order != [] {
      var m, p := FireTimeouts(n, due, order[..|order| - 1], now, pick), order[|order| - 1];
      TimeoutsRecord(n, due, order[..|order| - 1], now, pick, c, timed);
      if p in due { TransitRecords(m, HolePunchAttemptTimeout(p, due[p]), now, pick, c, timed, now); }
    }
  }

  lemma NoBridges(ctx: Context, ev: SwarmEvent)
    ensures forall e | e in Translate(ctx, ev).1 :: !e.PhaseChanged?
  {
    hide SortedProviders;
  }

  lemma BookkeepRecords(n: Node, ev: SwarmEvent, now: Time, c: TM.Config, timed: bool)
    requires Recorded(n, c, timed, now)
    ensures Recorded(Bookkeep(n, ev, now).0, c, timed, now)
            && forall e | e in Bookkeep(n, ev, now).1 :: !e.PhaseChanged?
  {
    hide Recorded, TrackerModel.Established, TrackerModel.Closed, TrackerModel.StartAttempt, TrackerModel.Dialing,
         TrackerModel.OutgoingError;
    SameTunnels(n, Bookkeep(n, ev, now).0, c, timed, now);
  }

  lemma SwarmRecords(n: Node, ev: SwarmEvent, portMapped: bool, now: Time, pick: PeerModel.Pick, c: TM.Config,
                     timed: bool)
    requires Recorded(n, c, timed, now)
    ensures Recorded(OnSwarmEvent(n, ev, portMapped, now, pick), c, timed, now)
  {
    hide Recorded, Transit, FeedAll, Bookkeep, Translate;
    BookkeepRecords(n, ev, now, c, timed);
    var (n1, synthetic) := Bookkeep(n, ev, now);
    TransitRecords(n1, NatStatusChanged(Public), now, pick, c, timed, now);
    var n2 := if portMapped then Transit(n1, NatStatusChanged(Public), now, pick) else n1;
    NoBridges(n2.ctx, ev);
    var (ctx, translated) := Translate(n2.ctx, ev);
    SameTunnels(n2, n2.(ctx := ctx), c, timed, now);
    FeedAllRecords(n2.(ctx := ctx), synthetic + translated, now, pick, c, timed);
  }

  lemma IterateRecords(n: Node, i: NodeModel.Input, c: TM.Config, timed: bool, clock: Time)
    requires Recorded(n, c, timed, clock) && (timed ==> clock <= i.now)
    ensures Recorded(Iterate(n, i), c, timed, i.now)
  {
    hide Recorded, OnSwarmEvent, Transit, FireTimeouts, TrackerModel.TakeDue;
    LaterRecords(n, c, timed, clock, i.now);
    match i
    case Swarm(ev, portMapped, now, pick) => SwarmRecords(n, ev, portMapped, now, pick, c, timed);
    case DiscoveryDeadline(now, pick) => TransitRecords(n, DiscoveryTimeout, now, pick, c, timed, now);
    case HolePunchDeadline(order, now, pick) =>
      var (t, due) := TrackerModel.TakeDue(n.tracker, now);
      SameTunnels(n, n.(tracker := t), c, timed, now);
      TimeoutsRecord(n.(tracker := t), due, DueInOrder(due, order), now, pick, c, timed);
    case ShutdownSignal(now, pick) => TransitRecords(n, ShutdownRequested, now, pick, c, timed, now);
  }

  predicate ClockRuns(l: Launch, run: seq<NodeModel.Input>) {
    (forall i | 0 <= i < |run| :: l.now <= run[i].now) && forall i, j | 0 <= i < j < |run| :: run[i].now <= run[j].now
  }

  function Clock(l: Launch, run: seq<NodeModel.Input>): Time { if run == [] then l.now else run[|run| - 1].now }

  lemma FreshRecorded(l: Launch, timed: bool)
    ensures Recorded(Fresh(l), l.tunnels, timed, 0)
  {
    assert Inputs([]) == [];
  }

  lemma {:induction false} RunsRecord(l: Launch, run: seq<NodeModel.Input>, timed: bool)
    requires timed ==> ClockRuns(l, run)
    ensures Recorded(NodeAfter(Started(l), run), l.tunnels, timed, Clock(l, run))
  {
    hide Recorded, Iterate, Fresh, Transit;
    if run == [] {
      FreshRecorded(l, timed);
      var e := if l.hasBootstrap then NatStatusChanged(Private) else NoBootstrapPeers;
      TransitRecords(Fresh(l), e, l.now, l.pick, l.tunnels, timed, 0);
    } else {
      var n := |run| - 1;
      RunsRecord(l, run[..n], timed);
      IterateRecords(NodeAfter(Started(l), run[..n]), run[n], l.tunnels, timed, Clock(l, run[..n]));
    }
  }

  /** Every run of the node is, in its log, a run of the tunnel machine: each entry starts in the state
      the earlier ones lead to and records its step, and the last ends in the present state. */
  lemma LogIsRun(l: Launch, run: seq<NodeModel.Input>, k: nat)
    ensures var n := NodeAfter(Started(l), run);
            && n.app.tunnel == TM.StateAfter(TM.Configured(l.tunnels), Inputs(n.log))
            && (k < |n.log| ==> RecordFits(l.tunnels, n.log, k))
            && (ClockRuns(l, run) ==> TM.Monotone(Inputs(n.log)))
  {
    hide NodeAfter, Started, RecordFits, TM.StateAfter;
    RunsRecord(l, run, false);
    if ClockRuns(l, run) { RunsRecord(l, run, true); }
  }

  // ----- conservation -----

  /** The tunnels that a logged history spawned. */
  ghost function LoggedSpawns(log: seq<Record>): multiset<Spec> {
    if log == [] then multiset{} else LoggedSpawns(log[..|log| - 1]) + SpawnedSpecs(log[|log| - 1].commands)
  }

  /** What a sum says of the decisive commands is the same for the log and the machine. */
  lemma SameSum<X>(some: multiset<Command>, all: multiset<Command>, f: Command -> multiset<X>)
    requires some <= all && (forall d | Decisive(d) :: all[d] == some[d])
    requires forall d | !Decisive(d) :: f(d) == multiset{}
    ensures Sum(all, f) == Sum(some, f)
  {
    hide Sum;
    var rest := all - some;
    assert all == some + rest;
    SumPlus(some, rest, f);
    SumNothing(rest, f);
  }

  lemma {:induction false} SpawnsAreLogged(c: TM.Config, log: seq<Record>)
    requires forall k: nat | k < |log| :: RecordFits(c, log, k)
    ensures LoggedSpawns(log) == SpawnedBy(TM.Configured(c), Inputs(log))
  {
    hide TM.Step, TM.StateAfter, Sum;
    if log != [] {
      var n := |log| - 1;
      FitsBefore(c, log, log[..n]);
      SpawnsAreLogged(c, log[..n]);
      assert RecordFits(c, log, n);
      SameSum(StepAt(c, log, n).commands, log[n].commands, SpecOf);
      assert Inputs(log)[..n] == Inputs(log[..n]);
    }
  }

  lemma FitsBefore(c: TM.Config, log: seq<Record>, front: seq<Record>)
    requires log != [] && front == log[..|log| - 1] && forall k: nat | k < |log| :: RecordFits(c, log, k)
    ensures forall k: nat | k < |front| :: RecordFits(c, front, k)
  {
    hide TM.Step, TM.StateAfter, Inputs;
    forall k: nat | k < |front| ensures RecordFits(c, front, k) {
      assert RecordFits(c, log, k);
      assert front[..k] == log[..k];
    }
  }

  /** In every run of the node, the tunnels still queued and the tunnels spawned so far are together
      exactly the configured ones. */
  lemma NoTunnelLost(l: Launch, run: seq<NodeModel.Input>)
    ensures var n := NodeAfter(Started(l), run);
            QueuedSpecs(n.app.tunnel.q) + LoggedSpawns(n.log) == Requested(l.tunnels)
  {
    hide NodeAfter, Started, QueuedSpecs, LoggedSpawns, RecordFits, TM.StateAfter;
    RunsRecord(l, run, false);
    var log := NodeAfter(Started(l), run).log;
    SpawnsAreLogged(l.tunnels, log);
    RunsConserve(l.tunnels, Inputs(log));
  }

  // ----- provenance -----

  /** In every run of the node, a tunnel is spawned to `p` only if it was configured for `p` or an
      event up to then listed `p` as a provider of its service. */
  lemma NoForeignSpawn(l: Launch, run: seq<NodeModel.Input>, k: nat, p: PeerId, x: Spec)
    requires k < |NodeAfter(Started(l), run).log|
    ensures var log := NodeAfter(Started(l), run).log;
            SpawnTunnel(p, x) in log[k].commands ==>
              (p, x) in l.tunnels.peerTunnels
              || exists i :: 0 <= i <= k && log[i].event.DhtServiceResolved? && log[i].event.resolved == x.service
                             && p in TM.PeersOf(log[i].event.providers)
  {
    hide NodeAfter, Started, TM.Step, TM.StateAfter, TM.Monotone;
    RunsRecord(l, run, false);
    var log := NodeAfter(Started(l), run).log;
    assert RecordFits(l.tunnels, log, k) && Decisive(SpawnTunnel(p, x));
    var run' := Inputs(log[..k + 1]);
    assert run'[..k] == Inputs(log[..k]);
    TunnelProvenance.SpawnHasSource(l.tunnels, run', p, x);
    if SpawnTunnel(p, x) in log[k].commands && (p, x) !in l.tunnels.peerTunnels {
      var i :| 0 <= i < |run'| && run'[i].event.DhtServiceResolved? && run'[i].event.resolved == x.service
               && p in TM.PeersOf(run'[i].event.providers);
      assert run'[i].event == log[i].event;
    }
  }

  // ----- redials -----

  /** In every run of the node with a monotone clock, each redial with addresses carries the attempt
      id of the session it is made for, that session's direct snapshot and then its relay addresses. */
  lemma RedialsAreExact(l: Launch, run: seq<NodeModel.Input>, k: nat, d: Command)
    requires ClockRuns(l, run) && k < |NodeAfter(Started(l), run).log|
    ensures var log := NodeAfter(Started(l), run).log; d in log[k].commands ==> ExactRedial(log[k].before, d)
  {
    hide NodeAfter, Started, TM.Step, TM.StateAfter, ExactRedial, AddressInv;
    RunsRecord(l, run, true);
    var log := NodeAfter(Started(l), run).log;
    assert RecordFits(l.tunnels, log, k);
    var earlier := Inputs(log[..k]);
    assert earlier == Inputs(log)[..k];
    RunsKeepAddresses(l.tunnels, earlier);
    assert LastNow(earlier) <= log[k].now by {
      if k > 0 { assert Inputs(log)[k - 1].now <= Inputs(log)[k].now; }
    }
    StepRedials(log[k].before, log[k].event, LastNow(earlier), log[k].now);
    if d in log[k].commands {
      if d.DialPeerWithAddrs? { assert Decisive(d); } else { OnlyRedials(log[k].before, d); }
    }
  }

  lemma OnlyRedials(s: TM.Tunnel, d: Command)
    requires !d.DialPeerWithAddrs?
    ensures ExactRedial(s, d)
  {
  }

  /** The dials to `p` that the log holds in answer to dial failures. */
  ghost function LoggedRedials(log: seq<Record>, p: PeerId): nat {
    if log == [] then 0 else
      var r := log[|log| - 1];
      LoggedRedials(log[..|log| - 1], p)
      + if r.event.TunnelDialFailed? then TunnelRedials.DialCount(r.commands, p) else 0
  }

  /** The attempt starts and identify exchanges of `p` that the log holds. */
  function LoggedAllowance(log: seq<Record>, p: PeerId): nat {
    if log == [] then 0
    else LoggedAllowance(log[..|log| - 1], p) + TunnelRedials.Allowance(log[|log| - 1].event, p)
  }

  lemma {:induction false} RedialsAreLogged(c: TM.Config, log: seq<Record>, p: PeerId)
    requires forall k: nat | k < |log| :: RecordFits(c, log, k)
    ensures LoggedRedials(log, p) == TunnelRedials.FailureDialsOver(TM.Configured(c), Inputs(log), p)
    ensures LoggedAllowance(log, p) == TunnelRedials.AllowanceOver(Inputs(log), p)
  {
    hide TM.Step, TM.StateAfter, Sum, TunnelRedials.Allowance;
    if log != [] {
      var n := |log| - 1;
      FitsBefore(c, log, log[..n]);
      RedialsAreLogged(c, log[..n], p);
      assert RecordFits(c, log, n);
      SameSum(StepAt(c, log, n).commands, log[n].commands, TunnelRedials.DialOf(p));
      assert Inputs(log)[..n] == Inputs(log[..n]);
    }
  }

  /** In every run of the node, the dials to a peer in answer to its dial failures number at most its
      attempt starts plus its identify exchanges. */
  lemma RedialsStayBounded(l: Launch, run: seq<NodeModel.Input>, p: PeerId)
    ensures var log := NodeAfter(Started(l), run).log; LoggedRedials(log, p) <= LoggedAllowance(log, p)
  {
    hide NodeAfter, Started, RecordFits, TM.StateAfter, LoggedRedials, LoggedAllowance;
    RunsRecord(l, run, false);
    var log := NodeAfter(Started(l), run).log;
    RedialsAreLogged(l.tunnels, log, p);
    TunnelRedials.RedialsAreBounded(l.tunnels, Inputs(log), p);
  }

  // ----- fallbacks -----

  /** The moves of tunnels of service `name` to fallback providers that the log holds. */
  function LoggedMoves(log: seq<Record>, name: ServiceName): nat {
    if log == [] then 0 else
      var r := log[|log| - 1];
      LoggedMoves(log[..|log| - 1], name) + TunnelFallback.MovesIn(r.before, r.event, name)
  }

  /** The distinct providers, beyond the first, of the resolutions of `name` that the log holds. */
  function LoggedSpares(log: seq<Record>, name: ServiceName): nat {
    if log == [] then 0 else
      var r := log[|log| - 1];
      LoggedSpares(log[..|log| - 1], name) + TunnelFallback.SparesIn(r.before, r.event, name)
  }

  lemma {:induction false} FallbacksAreLogged(c: TM.Config, log: seq<Record>, name: ServiceName)
    requires forall k: nat | k < |log| :: RecordFits(c, log, k)
    ensures LoggedMoves(log, name) == TunnelFallback.MovesOver(TM.Configured(c), Inputs(log), name)
    ensures LoggedSpares(log, name) == TunnelFallback.SparesOver(TM.Configured(c), Inputs(log), name)
  {
    hide TM.Step, TM.StateAfter, TunnelFallback.MovesIn, TunnelFallback.SparesIn;
    if log != [] {
      var n := |log| - 1;
      FitsBefore(c, log, log[..n]);
      FallbacksAreLogged(c, log[..n], name);
      assert RecordFits(c, log, n);
      assert Inputs(log)[..n] == Inputs(log[..n]);
    }
  }

  /** In every run of the node, moves of a service's tunnels to fallback providers never exceed the
      providers, beyond the first of each list, that its handled resolutions brought. */
  lemma FallbackStaysBounded(l: Launch, run: seq<NodeModel.Input>, name: ServiceName)
    ensures var log := NodeAfter(Started(l), run).log; LoggedMoves(log, name) <= LoggedSpares(log, name)
  {
    hide NodeAfter, Started, RecordFits, TM.StateAfter, LoggedMoves, LoggedSpares;
    RunsRecord(l, run, false);
    var log := NodeAfter(Started(l), run).log;
    FallbacksAreLogged(l.tunnels, log, name);
    TunnelFallback.FallbackIsBounded(l.tunnels, Inputs(log), name);
  }
}
