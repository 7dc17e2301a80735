/** The lookups of the node: each is remembered until it is answered, and once the node has been Ready no
    peer that tunnels wait to be connected to is left without a lookup or a dial. */
module NodeLookups {
  import opened Types
  import opened AppModel
  import opened NodeModel
  import opened NodeTransit
  import opened NodeInvariants
  import opened TunnelDials
  import NodeRuns
  import NodeArming
  import PeerModel
  import TrackerModel
  import TunnelAnswers
  import TM = TunnelModel

  /** The query that entry `k` of the log asks about peer `p`. */
  function LookupId(k: nat, p: PeerId): QueryId { QueryId(k, PeerTarget(p), 0) }

  predicate Out(ctx: Context, id: QueryId, p: PeerId) { id in ctx.tunnelQueries && ctx.tunnelQueries[id] == p }

  ghost predicate LookupOut(ctx: Context, p: PeerId) { exists id :: Out(ctx, id, p) }

  /** `p` has been dialed since the last moment at which no tunnel waited to be connected to it. */
  predicate DialedSince(log: seq<Record>, p: PeerId) {
    log != [] && var r := log[|log| - 1];
    p in r.after.q.pendingByPeer && (DialPeer(p) in r.commands || DialedSince(log[..|log| - 1], p))
  }

  predicate Answers(e: Event, p: PeerId) { e.DhtPeerLookupComplete? && e.target == p }

  ghost predicate PeerAsked(n: Node, p: PeerId) { LookupOut(n.ctx, p) || DialedSince(n.log, p) }

  /** Every lookup the log asked for is outstanding or answered. */
  ghost predicate Remembered(n: Node, answered: set<QueryId>) {
    forall k: nat, p | k < |n.log| && DhtLookupPeer(p) in n.log[k].commands ::
      Out(n.ctx, LookupId(k, p), p) || LookupId(k, p) in answered
  }

  /** Every peer with tunnels to connect is asked for, except that `e` is the answer of its lookup. */
  ghost predicate PeersAsked(n: Node, e: Event) {
    n.everReady ==> forall p | p in n.app.tunnel.q.pendingByPeer :: PeerAsked(n, p) || Answers(e, p)
  }

  ghost predicate Sound(n: Node) {
    IdsOld(n.ctx) && n.ctx.turn == |n.log| && (n.app.peer.phase.Ready? ==> n.everReady)
  }

  ghost predicate Tended(n: Node, e: Event, answered: set<QueryId>) {
    Sound(n) && Remembered(n, answered) && PeersAsked(n, e)
  }

  // ----- one transition -----

  lemma TransitOut(n: Node, e: Event, now: Time, pick: PeerModel.Pick, id: QueryId, p: PeerId)
    requires IdsOld(n.ctx) && Out(n.ctx, id, p)
    ensures Out(Transit(n, e, now, pick).ctx, id, p)
  {
    hide AppStep;
    var o := AppStep(n.app, AppInput(e, now, pick));
    assert id !in TunnelIds(n.ctx.turn, o.peerCommands + o.tunnelCommands);
  }

  /** A lookup that the transition commands is outstanding after it. */
  lemma TransitAsks(n: Node, e: Event, now: Time, pick: PeerModel.Pick, p: PeerId)
    ensures var m := Transit(n, e, now, pick);
            DhtLookupPeer(p) in m.log[|n.log|].commands ==> Out(m.ctx, LookupId(n.ctx.turn, p), p)
  {
    hide AppStep;
    var o := AppStep(n.app, AppInput(e, now, pick));
    var cs := o.peerCommands + o.tunnelCommands;
    assert DhtLookupPeer(p) in cs ==> LookupId(n.ctx.turn, p) in TunnelIds(n.ctx.turn, cs);
  }

  lemma TransitSound(n: Node, e: Event, now: Time, pick: PeerModel.Pick)
    requires Sound(n)
    ensures Sound(Transit(n, e, now, pick))
  {
    hide AppStep, Execute, IdsOld;
    var o := AppStep(n.app, AppInput(e, now, pick));
    ExecuteIsOld(n.ctx, o.peerCommands + o.tunnelCommands);
    TurnsPass(n.ctx, o.peerCommands + o.tunnelCommands);
  }

  lemma TurnsPass(ctx: Context, cs: multiset<Command>)
    ensures Execute(ctx, cs).turn == ctx.turn + 1
  {
  }

  lemma TransitRemembers(n: Node, e: Event, now: Time, pick: PeerModel.Pick, answered: set<QueryId>)
    requires Sound(n) && Remembered(n, answered) && !e.PhaseChanged?
    ensures Remembered(Transit(n, e, now, pick), answered)
  {
    hide Transit, Out, TM.Step;
    var m := Transit(n, e, now, pick);
    TransitTunnel(n, e, now, pick);
    forall k: nat, p | k < |m.log| && DhtLookupPeer(p) in m.log[k].commands
      ensures Out(m.ctx, LookupId(k, p), p) || LookupId(k, p) in answered {
      if k == |n.log| {
        TransitAsks(n, e, now, pick, p);
      } else {
        assert m.log[k] == n.log[k];
        if Out(n.ctx, LookupId(k, p), p) { TransitOut(n, e, now, pick, LookupId(k, p), p); }
      }
    }
  }

  /** Entering Ready asks for every peer. */
  lemma ReadyLooksUpAll(n: Node, e: Event, now: Time, pick: PeerModel.Pick, p: PeerId)
    requires !n.app.peer.phase.Ready? && !e.PhaseChanged?
    ensures var o := AppStep(n.app, AppInput(e, now, pick));
            o.app.peer.phase.Ready? && p in o.app.tunnel.q.pendingByPeer ==> DhtLookupPeer(p) in o.tunnelCommands
  {
    hide TM.Step, PeerModel.PeerStep, TM.InitialLookups;
    var after := PeerModel.PeerStep(n.app.peer, e, pick).state.phase;
    PhaseMoves(n.app.peer, e, pick);
    BridgeOutcome(n.app.tunnel, n.app.peer.phase, after, now);
    if after.Ready? {
      OnlyLossMovesTunnel(n.app.tunnel, e, now);
      TunnelAnswers.InitialCounts(n.app.tunnel.q);
    }
  }

  lemma EntryLooksUp(n: Node, e: Event, now: Time, pick: PeerModel.Pick, p: PeerId)
    requires Sound(n) && !e.PhaseChanged? && !n.everReady
    ensures var m := Transit(n, e, now, pick);
            m.everReady && p in m.app.tunnel.q.pendingByPeer ==> DhtLookupPeer(p) in m.log[|n.log|].commands
  {
    ReadyLooksUpAll(n, e, now, pick, p);
    hide AppStep, Execute;
  }

  lemma TransitPeer(n: Node, e: Event, now: Time, pick: PeerModel.Pick, p: PeerId)
    requires Sound(n) && PeersAsked(n, e) && !e.PhaseChanged?
    ensures var m := Transit(n, e, now, pick);
            m.everReady && p in m.app.tunnel.q.pendingByPeer ==> PeerAsked(m, p)
  {
    hide Transit, TM.Step, Asks, Out, LookupOut, DialedSince, Answers, IdsOld;
    var m := Transit(n, e, now, pick);
    TransitTunnel(n, e, now, pick);
    TransitAsks(n, e, now, pick, p);
    LookupFound(m.ctx, LookupId(n.ctx.turn, p), p);
    var r := m.log[|n.log|];
    assert m.log == n.log + [r];
    if m.everReady && p in m.app.tunnel.q.pendingByPeer {
      DialedNow(n.log, r, p);
      if !n.everReady {
        EntryLooksUp(n, e, now, pick, p);
      } else {
        PendingIsAsked(n.app.tunnel, e, now, p);
        AskedIn(TM.Step(n.app.tunnel, e, now).commands, r.commands, p);
        UnchangedKey(n.app.tunnel, m.app.tunnel, p);
        KeptLookup(n, e, now, pick, p);
        if Answers(e, p) { AnswerDials(n.app.tunnel, e, now, p); }
      }
    }
  }

  lemma LookupFound(ctx: Context, id: QueryId, p: PeerId)
    ensures Out(ctx, id, p) ==> LookupOut(ctx, p)
  {
  }

  lemma DialedNow(log: seq<Record>, r: Record, p: PeerId)
    requires p in r.after.q.pendingByPeer
    ensures DialPeer(p) in r.commands || DialedSince(log, p) ==> DialedSince(log + [r], p)
  {
    assert (log + [r])[..|log|] == log;
  }

  lemma AskedIn(some: multiset<Command>, all: multiset<Command>, p: PeerId)
    requires some <= all
    ensures Asks(some, p) ==> DhtLookupPeer(p) in all || DialPeer(p) in all
  {
  }

  lemma UnchangedKey(s: TM.Tunnel, t: TM.Tunnel, p: PeerId)
    ensures TunnelAnswers.At(s.q.pendingByPeer, p) == TunnelAnswers.At(t.q.pendingByPeer, p) ==>
              (p in s.q.pendingByPeer <==> p in t.q.pendingByPeer)
  {
  }

  lemma KeptLookup(n: Node, e: Event, now: Time, pick: PeerModel.Pick, p: PeerId)
    requires IdsOld(n.ctx)
    ensures LookupOut(n.ctx, p) ==> LookupOut(Transit(n, e, now, pick).ctx, p)
  {
    hide Transit, Out, IdsOld;
    if LookupOut(n.ctx, p) {
      var id :| Out(n.ctx, id, p);
      TransitOut(n, e, now, pick, id, p);
    }
  }

  /** A lookup that ends without connecting the peer dials it. */
  lemma AnswerDials(s: TM.Tunnel, e: Event, now: Time, p: PeerId)
    requires Answers(e, p)
    ensures var o := TM.Step(s, e, now); p in o.state.q.pendingByPeer ==> DialPeer(p) in o.commands
  {
    hide TM.Spawns;
  }

  lemma TransitTends(n: Node, e: Event, now: Time, pick: PeerModel.Pick, answered: set<QueryId>)
    requires Tended(n, e, answered) && !e.PhaseChanged?
    ensures Tended(Transit(n, e, now, pick), ListeningOn, answered)
  {
    hide Transit, Sound, Remembered, PeerAsked;
    TransitSound(n, e, now, pick);
    TransitRemembers(n, e, now, pick, answered);
    var m := Transit(n, e, now, pick);
    forall p | m.everReady && p in m.app.tunnel.q.pendingByPeer ensures PeerAsked(m, p) {
      TransitPeer(n, e, now, pick, p);
    }
  }

  // ----- one iteration -----

  /** Nothing but the tracker and the registry differs. */
  predicate SameLookups(n: Node, m: Node) {
    m.app == n.app && m.log == n.log && m.everReady == n.everReady && m.ctx.turn == n.ctx.turn
    && m.ctx.tunnelQueries == n.ctx.tunnelQueries && m.ctx.serviceQueries == n.ctx.serviceQueries
  }

  lemma SameTended(n: Node, m: Node, e: Event, answered: set<QueryId>)
    requires Tended(n, e, answered) && SameLookups(n, m)
    ensures Tended(m, e, answered)
  {
    hide DialedSince;
    assert forall id, p :: Out(n.ctx, id, p) <==> Out(m.ctx, id, p);
    assert forall p :: LookupOut(n.ctx, p) <==> LookupOut(m.ctx, p);
  }

  lemma Untold(n: Node, e: Event, answered: set<QueryId>)
    requires Tended(n, ListeningOn, answered)
    ensures Tended(n, e, answered)
  {
    hide Sound, Remembered, PeerAsked;
  }

  lemma {:induction false} ArmTends(n: Node, ps: seq<PeerId>, now: Time, pick: PeerModel.Pick, answered: set<QueryId>)
    requires Tended(n, ListeningOn, answered)
    ensures Tended(ArmAll(n, ps, now, pick), ListeningOn, answered)
  {
    hide Tended, Transit, TrackerModel.StartAttempt;
    if ps != [] {
      var m, p := ArmAll(n, ps[..|ps| - 1], now, pick), ps[|ps| - 1];
      ArmTends(n, ps[..|ps| - 1], now, pick, answered);
      var (t, id) := TrackerModel.StartAttempt(m.tracker, p, HOLE_PUNCH_TIMEOUT, now);
      if id.Some? {
        var e := HolePunchAttemptStarted(p, id.value);
        SameTended(m, m.(tracker := t), ListeningOn, answered);
        Untold(m.(tracker := t), e, answered);
        TransitTends(m.(tracker := t), e, now, pick, answered);
      }
    }
  }

  lemma FeedTends(n: Node, e: Event, now: Time, pick: PeerModel.Pick, answered: set<QueryId>)
    requires Tended(n, e, answered) && !e.PhaseChanged?
    ensures Tended(Feed(n, e, now, pick), ListeningOn, answered)
  {
    hide Tended, Transit, ArmAll, TargetPeers;
    TransitTends(n, e, now, pick, answered);
    var m := Transit(n, e, now, pick);
    ArmTends(m, TargetPeers(m.app.tunnel), now, pick, answered);
  }

  lemma {:induction false} FeedAllTends(n: Node, es: seq<Event>, now: Time, pick: PeerModel.Pick,
                                        answered: set<QueryId>)
    requires Tended(n, ListeningOn, answered) && forall e | e in es :: !e.PhaseChanged?
    ensures Tended(FeedAll(n, es, now, pick), ListeningOn, answered)
  {
    hide Tended, Feed;
    if es != [] {
      var m, e := FeedAll(n, es[..|es| - 1], now, pick), es[|es| - 1];
      FeedAllTends(n, es[..|es| - 1], now, pick, answered);
      assert e in es;
      var f := Scoped(m.tracker, e);
      if f.Some? {
        Untold(m, f.value, answered);
        FeedTends(m, f.value, now, pick, answered);
      }
    }
  }

  lemma {:induction false} TimeoutsTend(n: Node, due: map<PeerId, nat>, order: seq<PeerId>, now: Time,
                                        pick: PeerModel.Pick, answered: set<QueryId>)
    requires Tended(n, ListeningOn, answered)
    ensures Tended(FireTimeouts(n, due, order, now, pick), ListeningOn, answered)
  {
    hide Tended, Transit;
    if order != [] {
      var m, p := FireTimeouts(n, due, order[..|order| - 1], now, pick), order[|order| - 1];
      TimeoutsTend(n, due, order[..|order| - 1], now, pick, answered);
      if p in due {
        var e := HolePunchAttemptTimeout(p, due[p]);
        Untold(m, e, answered);
        TransitTends(m, e, now, pick, answered);
      }
    }
  }

  /** What an input answers. */
  function Answered(i: Input): set<QueryId> {
    if i.Swarm? && i.event.KadClosestPeers? then {i.event.query} else {}
  }

  lemma MoreAnswered(n: Node, e: Event, answered: set<QueryId>, more: set<QueryId>)
    requires Tended(n, e, answered) && answered <= more
    ensures Tended(n, e, more)
  {
    hide Sound, PeersAsked, Out;
  }

  lemma BookkeepTends(n: Node, ev: SwarmEvent, now: Time, answered: set<QueryId>)
    requires Tended(n, ListeningOn, answered)
    ensures Tended(Bookkeep(n, ev, now).0, ListeningOn, answered)
    ensures forall e | e in Bookkeep(n, ev, now).1 :: !e.PhaseChanged?
  {
    hide Tended, TrackerModel.Established, TrackerModel.Closed, TrackerModel.StartAttempt, TrackerModel.Dialing,
         TrackerModel.OutgoingError;
    SameTended(n, Bookkeep(n, ev, now).0, ListeningOn, answered);
  }

  lemma MapTends(n: Node, portMapped: bool, now: Time, pick: PeerModel.Pick, answered: set<QueryId>)
    requires Tended(n, ListeningOn, answered)
    ensures Tended(if portMapped then Transit(n, NatStatusChanged(Public), now, pick) else n, ListeningOn, answered)
  {
    hide Tended, Transit;
    Untold(n, NatStatusChanged(Public), answered);
    TransitTends(n, NatStatusChanged(Public), now, pick, answered);
  }

  /** The answer of a lookup is forgotten as a query and handed over as an event. */
  lemma AnswerTended(n: Node, id: QueryId, connected: bool, answered: set<QueryId>)
    requires Tended(n, ListeningOn, answered) && id in n.ctx.tunnelQueries && id in answered
    ensures var p := n.ctx.tunnelQueries[id];
            Tended(n.(ctx := n.ctx.(tunnelQueries := n.ctx.tunnelQueries - {id})), DhtPeerLookupComplete(p, connected),
                answered)
  {
    hide DialedSince;
    var m := n.(ctx := n.ctx.(tunnelQueries := n.ctx.tunnelQueries - {id}));
    forall q | LookupOut(n.ctx, q) ensures LookupOut(m.ctx, q) || q == n.ctx.tunnelQueries[id] {
      var i :| Out(n.ctx, i, q);
      assert i != id ==> Out(m.ctx, i, q);
    }
    assert forall i, q | i != id :: Out(n.ctx, i, q) ==> Out(m.ctx, i, q);
  }

  lemma OtherQueriesStay(ctx: Context, ev: SwarmEvent)
    ensures !ev.KadClosestPeers? ==> Translate(ctx, ev).0.tunnelQueries == ctx.tunnelQueries
    ensures var ctx' := Translate(ctx, ev).0;
            ctx'.turn == ctx.turn && ctx'.serviceQueries.Keys <= ctx.serviceQueries.Keys
            && ctx'.tunnelQueries.Keys <= ctx.tunnelQueries.Keys
    ensures forall e | e in Translate(ctx, ev).1 :: !e.PhaseChanged?
  {
    hide SortedProviders;
  }

  lemma FewerQueries(n: Node, ctx: Context, answered: set<QueryId>)
    requires Tended(n, ListeningOn, answered) && ctx.tunnelQueries == n.ctx.tunnelQueries && ctx.turn == n.ctx.turn
    requires ctx.serviceQueries.Keys <= n.ctx.serviceQueries.Keys
    ensures Tended(n.(ctx := ctx), ListeningOn, answered)
  {
    hide DialedSince;
    var m := n.(ctx := ctx);
    assert forall id, p :: Out(n.ctx, id, p) <==> Out(m.ctx, id, p);
    assert forall p :: LookupOut(n.ctx, p) <==> LookupOut(m.ctx, p);
  }

  lemma AnswerFeeds(n: Node, id: QueryId, connected: bool, now: Time, pick: PeerModel.Pick, answered: set<QueryId>)
    requires Tended(n, ListeningOn, answered) && id in answered && !Stopped(n)
    ensures var (ctx, es) := Translate(n.ctx, KadClosestPeers(id, connected));
            Tended(FeedAll(n.(ctx := ctx), es, now, pick), ListeningOn, answered)
  {
    hide Tended, Feed;
    var (ctx, es) := Translate(n.ctx, KadClosestPeers(id, connected));
    var m := n.(ctx := ctx);
    if id in n.ctx.tunnelQueries {
      AnswerTended(n, id, connected, answered);
      var e := DhtPeerLookupComplete(n.ctx.tunnelQueries[id], connected);
      FeedTends(m, e, now, pick, answered);
      NodeRuns.FeedSingle(m, e, now, pick);
    } else {
      assert m == n;
      NodeRuns.FeedSingle(m, ListeningOn, now, pick);
    }
  }

  lemma SwarmTends(n: Node, i: Input, answered: set<QueryId>)
    requires Tended(n, ListeningOn, answered) && i.Swarm? && !Stopped(n)
    ensures Tended(OnSwarmEvent(n, i.event, i.portMapped, i.now, i.pick), ListeningOn, answered + Answered(i))
  {
    hide Tended, Bookkeep, Transit, Translate, FeedAll;
    var more := answered + Answered(i);
    MoreAnswered(n, ListeningOn, answered, more);
    BookkeepTends(n, i.event, i.now, more);
    var (n1, synthetic) := Bookkeep(n, i.event, i.now);
    MapTends(n1, i.portMapped, i.now, i.pick, more);
    NodeArming.BookkeepRuns(n, i.event, i.now);
    NodeRuns.RunningAfterMap(n1, i.portMapped, i.now, i.pick);
    var n2 := if i.portMapped then Transit(n1, NatStatusChanged(Public), i.now, i.pick) else n1;
    OtherQueriesStay(n2.ctx, i.event);
    var (ctx, es) := Translate(n2.ctx, i.event);
    if i.event.KadClosestPeers? {
      NoSynthetic(n, i.event, i.now);
      assert synthetic + es == es;
      AnswerFeeds(n2, i.event.query, i.event.connectedNow, i.now, i.pick, more);
    } else {
      FewerQueries(n2, ctx, more);
      FeedAllTends(n2.(ctx := ctx), synthetic + es, i.now, i.pick, more);
    }
  }

  lemma NoSynthetic(n: Node, ev: SwarmEvent, now: Time)
    ensures ev.KadClosestPeers? ==> Bookkeep(n, ev, now).1 == []
  {
  }

  // ----- whole runs -----

  lemma IterateTends(n: Node, i: Input, answered: set<QueryId>)
    requires Tended(n, ListeningOn, answered)
    ensures Tended(Iterate(n, i), ListeningOn, answered + Answered(i))
  {
    hide Tended, OnSwarmEvent, Transit, FireTimeouts, TrackerModel.TakeDue;
    if Stopped(n) {
      MoreAnswered(n, ListeningOn, answered, answered + Answered(i));
    } else if i.Swarm? {
      SwarmTends(n, i, answered);
    } else {
      assert answered + Answered(i) == answered;
      match i
      case DiscoveryDeadline(now, pick) =>
        Untold(n, DiscoveryTimeout, answered);
        TransitTends(n, DiscoveryTimeout, now, pick, answered);
      case HolePunchDeadline(order, now, pick) =>
        var (t, due) := TrackerModel.TakeDue(n.tracker, now);
        SameTended(n, n.(tracker := t), ListeningOn, answered);
        TimeoutsTend(n.(tracker := t), due, DueInOrder(due, order), now, pick, answered);
      case ShutdownSignal(now, pick) =>
        Untold(n, ShutdownRequested, answered);
        TransitTends(n, ShutdownRequested, now, pick, answered);
    }
  }

  function AnsweredBy(run: seq<Input>): set<QueryId> {
    if run == [] then {} else AnsweredBy(run[..|run| - 1]) + Answered(run[|run| - 1])
  }

  lemma FreshTended(l: Launch, e: Event)
    ensures Tended(Fresh(l), e, {})
  {
  }

  lemma {:induction false} RunsTend(l: Launch, run: seq<Input>)
    ensures Tended(NodeAfter(Started(l), run), ListeningOn, AnsweredBy(run))
  {
    hide Tended, Iterate, Fresh, Transit;
    if run == [] {
      var e := if l.hasBootstrap then NatStatusChanged(Private) else NoBootstrapPeers;
      FreshTended(l, e);
      TransitTends(Fresh(l), e, l.now, l.pick, {});
    } else {
      var n := |run| - 1;
      RunsTend(l, run[..n]);
      IterateTends(NodeAfter(Started(l), run[..n]), run[n], AnsweredBy(run[..n]));
    }
  }

  lemma {:induction false} AnsweredInRun(run: seq<Input>, id: QueryId)
    ensures id in AnsweredBy(run) <==> exists j :: 0 <= j < |run| && id in Answered(run[j])
  {
    if run != [] {
      var n := |run| - 1;
      AnsweredInRun(run[..n], id);
      if id in AnsweredBy(run[..n]) {
        var j :| 0 <= j < n && id in Answered(run[..n][j]);
        assert run[j] == run[..n][j];
      }
      if j :| 0 <= j < |run| && id in Answered(run[j]) {
        if j < n { assert run[..n][j] == run[j]; }
      }
    }
  }

  /** In every run of the node, a lookup that was commanded is outstanding, for the peer it is about,
      until an input of the run answers it. */
  lemma LookupsStayOut(l: Launch, run: seq<Input>, k: nat, p: PeerId)
    ensures var n := NodeAfter(Started(l), run);
            k < |n.log| && DhtLookupPeer(p) in n.log[k].commands ==>
              Out(n.ctx, LookupId(k, p), p) || exists j :: 0 <= j < |run| && LookupId(k, p) in Answered(run[j])
  {
    hide NodeAfter, Started, Out, PeersAsked, Sound;
    RunsTend(l, run);
    AnsweredInRun(run, LookupId(k, p));
  }

  /** Once the node has been Ready, at every loop head: each peer that tunnels wait to be connected to has
      a lookup outstanding, or has been dialed since tunnels wait for it. */
  lemma NoPeerStranded(l: Launch, run: seq<Input>, j: nat, p: PeerId)
    requires j <= |run|
    ensures var n := NodeAfter(Started(l), run);
            NodeAfter(Started(l), run[..j]).app.peer.phase.Ready? && p in n.app.tunnel.q.pendingByPeer ==>
              LookupOut(n.ctx, p) || DialedSince(n.log, p)
  {
    hide NodeAfter, Started, Remembered, Sound, LookupOut, DialedSince;
    RunsTend(l, run);
    NodeRuns.ReadyRemembered(l, run, j);
  }
}
