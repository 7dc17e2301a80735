/** What the connection tracker answers to each operation, seen at one peer, and what its attempts and
    pending dials say about the operations so far. */
module TrackerHistory {
  import opened Types
  import opened TrackerModel

  function At<K, V>(m: map<K, V>, k: K): Option<V> { if k in m then Some(m[k]) else None }

  /** What the tracker holds about one peer, apart from pending dials. */
  datatype Track = Track(relayed: set<ConnectionId>, direct: set<ConnectionId>, deadline: Option<Deadline>,
                         attempt: Option<Stats>, lastId: nat)

  function Of(t: Tracker, p: PeerId): Track {
    Track(Ids(t.relayed, p), Ids(t.direct, p), At(t.deadlines, p), At(t.attempts, p), AttemptSeq(t, p))
  }

  ghost predicate OnlyAt(t: Tracker, t': Tracker, p: PeerId) { forall q | q != p :: Of(t', q) == Of(t, q) }

  /** Connected, and only through relays. */
  predicate OnlyRelayed(v: Track) { v.relayed != {} && v.direct == {} }

  lemma RelayOnlySets(t: Tracker, p: PeerId)
    requires Agreeing(t)
    ensures RelayOnly(t, p) <==> OnlyRelayed(Of(t, p))
  {
  }

  // ----- the operations -----

  lemma EstablishedAnswers(t: Tracker, p: PeerId, c: ConnectionId, relayed: bool)
    requires Agreeing(t)
    ensures var (t', u) := Established(t, p, c, relayed); var v := Of(t, p);
            && OnlyAt(t, t', p)
            && Of(t', p) == (if relayed then v.(relayed := v.relayed + {c})
                             else Track({}, v.direct + {c}, None, None, v.lastId))
            && u.direct == !relayed
            && u.completed == (if relayed then None else v.attempt)
            && u.toClose == (if relayed then {} else v.relayed)
  {
    hide WithoutDialsTo;
  }

  lemma StartAnswers(t: Tracker, p: PeerId, timeout: Time, now: Time)
    requires Agreeing(t)
    ensures var (t', id) := StartAttempt(t, p, timeout, now); var v := Of(t, p);
            && t'.pendingDials == t.pendingDials
            && (id.Some? <==> OnlyRelayed(v) && v.attempt.None?)
            && (id.None? ==> t' == t)
            && (id.Some? ==>
                  && OnlyAt(t, t', p) && id.value == (if v.lastId < U64_MAX then v.lastId + 1 else v.lastId)
                  && Of(t', p) == v.(deadline := Some(Deadline(id.value, now + timeout)), lastId := id.value,
                                     attempt := Some(Stats(id.value, 0, 0))))
  {
    RelayOnlySets(t, p);
  }

  /** Whether closing `c` leaves `p` without any connection, for the swarm and for the tracker. */
  predicate LastClose(v: Track, c: ConnectionId, numEstablished: nat) {
    numEstablished == 0 && v.relayed <= {c} && v.direct <= {c}
  }

  lemma WithoutIdSets(m: map<PeerId, set<ConnectionId>>, p: PeerId, c: ConnectionId)
    ensures forall q :: Ids(WithoutId(m, p, c), q) == if q == p then Ids(m, p) - {c} else Ids(m, q)
    ensures (forall q | q in m :: m[q] != {}) ==> (p in WithoutId(m, p, c) <==> Ids(m, p) - {c} != {})
  {
  }

  lemma ClosedAnswers(t: Tracker, p: PeerId, c: ConnectionId, numEstablished: nat)
    requires Agreeing(t)
    ensures var (t', u) := Closed(t, p, c, numEstablished); var v := Of(t, p);
            && OnlyAt(t, t', p)
            && Of(t', p) == (var w := v.(relayed := v.relayed - {c}, direct := v.direct - {c});
                             if LastClose(v, c, numEstablished) then w.(deadline := None, attempt := None) else w)
            && u.fullyDisconnected == LastClose(v, c, numEstablished)
            && u.clearDirectRegistry == ((v.direct != {} && v.direct <= {c}) || LastClose(v, c, numEstablished))
  {
    hide WithoutId, WithoutDialsTo;
    WithoutIdSets(t.relayed, p, c);
    WithoutIdSets(t.direct, p, c);
    assert Ids(t.relayed, p) - {c} == {} <==> Ids(t.relayed, p) <= {c};
    assert Ids(t.direct, p) - {c} == {} <==> Ids(t.direct, p) <= {c};
  }

  lemma DialingAnswers(t: Tracker, p: PeerId, c: ConnectionId)
    requires Agreeing(t)
    ensures var (t', u) := Dialing(t, p, c); var v := Of(t, p);
            && OnlyAt(t, t', p)
            && if OnlyRelayed(v) && v.attempt.Some? then
                 var s := v.attempt.value;
                 var started := if s.dialsStarted < U32_MAX then s.dialsStarted + 1 else s.dialsStarted;
                 && Of(t', p) == v.(attempt := Some(s.(dialsStarted := started)))
                 && u == Tracked(s.attemptId, started)
               else t' == t && u == if OnlyRelayed(v) then RelayOnlyWithoutActiveAttempt else Ignored
  {
    RelayOnlySets(t, p);
  }

  lemma ErrorAnswers(t: Tracker, dialed: Option<PeerId>, c: ConnectionId)
    requires Agreeing(t)
    ensures var (t', u) := OutgoingError(t, dialed, c);
            if c in t.pendingDials then
              var p := t.pendingDials[c].peer; var v := Of(t, p);
              && OnlyAt(t, t', p)
              && if OnlyRelayed(v) then
                   v.attempt.Some?
                   && var s := v.attempt.value;
                      var failed := if s.dialsFailed < U32_MAX then s.dialsFailed + 1 else s.dialsFailed;
                   && Of(t', p) == v.(attempt := Some(s.(dialsFailed := failed)))
                   && u == FailureTracked(p, s.attemptId, s.dialsStarted, failed)
                 else Of(t', p) == v && u == FailureIgnored
            else
              && t' == t
              && u == if dialed.Some? && OnlyRelayed(Of(t, dialed.value)) then RelayOnlyUntracked(dialed.value)
                 else FailureIgnored
  {
    if dialed.Some? { RelayOnlySets(t, dialed.value); }
    if c in t.pendingDials {
      RelayOnlySets(t, t.pendingDials[c].peer);
    } else {
      assert t.pendingDials - {c} == t.pendingDials;
    }
  }

  lemma SweepAnswers(t: Tracker, now: Time, p: PeerId)
    ensures var (t', due) := TakeDue(t, now); var v := Of(t, p);
            && t'.pendingDials == t.pendingDials
            && (p in due <==> v.deadline.Some? && v.deadline.value.at <= now)
            && (p in due ==> due[p] == v.deadline.value.attemptId)
            && Of(t', p) == v.(deadline := if p in due then None else v.deadline)
  {
  }

  // ----- the end of an attempt -----

  /** The operations that end the attempt of `p`: a direct connection, and the loss of the last connection. */
  predicate Ends(t: Tracker, op: Op, p: PeerId) {
    (op.OpEstablished? && op.peer == p && !op.relayed)
    || (op.OpClosed? && op.peer == p && LastClose(Of(t, p), op.id, op.numEstablished))
  }

  lemma AliveStep(t: Tracker, op: Op, p: PeerId, id: nat)
    requires Agreeing(t) && Alive(t, p, id)
    ensures Alive(Apply(t, op), p, id) <==> !Ends(t, op, p)
  {
    hide Established, StartAttempt, Closed, Dialing, OutgoingError, TakeDue;
    assert Of(t, p).attempt.Some?;
    match op
    case OpEstablished(q, c, relayed) => EstablishedAnswers(t, q, c, relayed); SameAttempt(t, Apply(t, op), p);
    case OpStart(q, timeout, now) => StartAnswers(t, q, timeout, now); SameAttempt(t, Apply(t, op), p);
    case OpClosed(q, c, n) => ClosedAnswers(t, q, c, n); SameAttempt(t, Apply(t, op), p);
    case OpDialing(q, c) => DialingAnswers(t, q, c); SameAttempt(t, Apply(t, op), p);
    case OpError(dialed, c) => ErrorAnswers(t, dialed, c); SameAttempt(t, Apply(t, op), p);
    case OpTakeDue(now) => SweepAnswers(t, now, p); SameAttempt(t, Apply(t, op), p);
  }

  lemma SameAttempt(t: Tracker, t': Tracker, p: PeerId)
    ensures Of(t', p).attempt == At(t'.attempts, p) && Of(t, p).attempt == At(t.attempts, p)
  {
  }

  ghost predicate EndsIn(before: seq<Op>, mid: seq<Op>, p: PeerId) {
    exists k :: 0 <= k < |mid| && Ends(After(before + mid[..k]), mid[k], p)
  }

  lemma EndsSnoc(before: seq<Op>, mid: seq<Op>, p: PeerId)
    requires mid != []
    ensures var n := |mid| - 1;
            EndsIn(before, mid, p) <==> EndsIn(before, mid[..n], p) || Ends(After(before + mid[..n]), mid[n], p)
  {
    hide After, Ends;
    var n := |mid| - 1;
    forall k | 0 <= k < n ensures mid[..n][..k] == mid[..k] && mid[..n][k] == mid[k] {}
    if EndsIn(before, mid[..n], p) {
      var k :| 0 <= k < n && Ends(After(before + mid[..n][..k]), mid[..n][k], p);
      assert Ends(After(before + mid[..k]), mid[k], p);
    }
    if EndsIn(before, mid, p) {
      var k :| 0 <= k < |mid| && Ends(After(before + mid[..k]), mid[k], p);
      if k < n { assert Ends(After(before + mid[..n][..k]), mid[..n][k], p); }
    }
  }

  /** Over every run, an attempt lasts exactly until a direct connection to its peer or the loss of the
      last one. */
  lemma {:induction false} AttemptLasts(before: seq<Op>, mid: seq<Op>, p: PeerId, id: nat)
    requires Alive(After(before), p, id) && id < U64_MAX
    ensures Alive(After(before + mid), p, id) <==> !EndsIn(before, mid, p)
    ensures id <= AttemptSeq(After(before + mid), p)
  {
    hide Apply, Ends, Accounted, EndsIn;
    if mid == [] {
      assert before + mid == before;
      RunsConsistent(before);
      NoEnd(before, p);
    } else {
      var n := |mid| - 1;
      AttemptLasts(before, mid[..n], p, id);
      EndsSnoc(before, mid, p);
      assert before + mid == before + mid[..n] + [mid[n]];
      assert (before + mid)[..|before + mid| - 1] == before + mid[..n];
      LastStep(After(before + mid[..n]), mid[n], p, id, before + mid[..n]);
    }
  }

  lemma NoEnd(before: seq<Op>, p: PeerId)
    ensures !EndsIn(before, [], p)
  {
  }

  lemma LastStep(t: Tracker, op: Op, p: PeerId, id: nat, ops: seq<Op>)
    requires t == After(ops) && id < U64_MAX && id <= AttemptSeq(t, p)
    ensures Alive(Apply(t, op), p, id) <==> Alive(t, p, id) && !Ends(t, op, p)
    ensures id <= AttemptSeq(Apply(t, op), p)
  {
    hide Apply, Ends, After;
    RunsConsistent(ops);
    SeqStep(t, op, p);
    if Alive(t, p, id) { AliveStep(t, op, p, id); } else { DeadStaysDead(t, op, p, id); }
  }

  lemma DeadStaysDead(t: Tracker, op: Op, p: PeerId, id: nat)
    requires Agreeing(t) && !Alive(t, p, id) && id <= AttemptSeq(t, p) && id < U64_MAX
    ensures !Alive(Apply(t, op), p, id)
  {
    hide WithoutDialsTo, WithoutId;
  }

  // ----- pending dials -----

  /** The operation starts a dial that is charged to the attempt of its peer. */
  predicate TracksDial(t: Tracker, op: Op, c: ConnectionId) {
    op.OpDialing? && op.id == c && OnlyRelayed(Of(t, op.peer)) && Of(t, op.peer).attempt.Some?
  }

  /** The outcome of a dial: it connected, its connection closed, or it failed. */
  predicate Settles(op: Op, c: ConnectionId) { (op.OpEstablished? || op.OpClosed? || op.OpError?) && op.id == c }

  /** A dial is pending after an operation exactly if the operation starts it, or it was pending and neither
      is it settled nor its attempt ended. */
  lemma PendingStep(t: Tracker, op: Op, c: ConnectionId)
    requires Agreeing(t)
    ensures var t' := Apply(t, op);
            if TracksDial(t, op, c)
                then At(t'.pendingDials, c) == Some(PendingDial(op.peer, t.attempts[op.peer].attemptId))
            else if c in t.pendingDials && !Settles(op, c) && !Ends(t, op, t.pendingDials[c].peer)
            then At(t'.pendingDials, c) == Some(t.pendingDials[c])
            else c !in t'.pendingDials
  {
    match op
    case OpEstablished(q, d, relayed) => hide Ids;
    case OpStart(q, timeout, now) =>
    case OpClosed(q, d, n) =>
      hide Apply, Closed;
      ClosedPending(t, q, d, n, c);
      assert Apply(t, op) == Closed(t, q, d, n).0 by { AppliesClosed(t, q, d, n); }
    case OpDialing(q, d) => RelayOnlySets(t, q);
    case OpError(dialed, d) =>
    case OpTakeDue(now) =>
  }

  lemma AppliesClosed(t: Tracker, p: PeerId, c: ConnectionId, n: nat)
    ensures Apply(t, OpClosed(p, c, n)) == Closed(t, p, c, n).0
  {
  }

  lemma ClosedPending(t: Tracker, p: PeerId, d: ConnectionId, n: nat, c: ConnectionId)
    requires Agreeing(t)
    ensures var t' := Closed(t, p, d, n).0;
            if c in t.pendingDials && c != d && !(t.pendingDials[c].peer == p && LastClose(Of(t, p), d, n))
            then At(t'.pendingDials, c) == Some(t.pendingDials[c]) else c !in t'.pendingDials
  {
    hide WithoutId;
    WithoutIdSets(t.relayed, p, d);
    WithoutIdSets(t.direct, p, d);
    assert Ids(t.relayed, p) - {d} == {} <==> Ids(t.relayed, p) <= {d};
    assert Ids(t.direct, p) - {d} == {} <==> Ids(t.direct, p) <= {d};
  }

  /** Operation `k` started dial `c`, and nothing since has settled it, restarted it or ended its attempt. */
  ghost predicate Standing(ops: seq<Op>, k: nat, c: ConnectionId) {
    k < |ops| && ops[k].OpDialing? && TracksDial(After(ops[..k]), ops[k], c)
    && forall j | k < j < |ops| ::
         !Settles(ops[j], c) && !TracksDial(After(ops[..j]), ops[j], c) && !Ends(After(ops[..j]), ops[j], ops[k].peer)
  }

  lemma StandingBefore(ops: seq<Op>, k: nat, c: ConnectionId)
    requires ops != []
    ensures var n := |ops| - 1;
            k < n ==>
              (Standing(ops, k, c) <==>
                 ops[k].OpDialing? && Standing(ops[..n], k, c) && !Settles(ops[n], c)
                     && !TracksDial(After(ops[..n]), ops[n], c)
                 && !Ends(After(ops[..n]), ops[n], ops[k].peer))
  {
    hide After, Settles, TracksDial, Ends;
    var n := |ops| - 1;
    if k < n {
      assert ops[..n][..k] == ops[..k];
      forall j | k < j < n ensures ops[..n][..j] == ops[..j] && ops[..n][j] == ops[j] {}
    }
  }

  ghost predicate StandsFor(ops: seq<Op>, k: nat, c: ConnectionId, p: PeerId) {
    Standing(ops, k, c) && ops[k].peer == p
  }

  predicate PendingFor(t: Tracker, c: ConnectionId, p: PeerId) { c in t.pendingDials && t.pendingDials[c].peer == p }

  /** Over every run, a dial is pending for a peer if and only if some operation started it for that peer and
      it has neither been settled nor restarted, nor has the attempt of the peer ended since. */
  lemma {:induction false} PendingExactly(ops: seq<Op>, c: ConnectionId, p: PeerId)
    ensures PendingFor(After(ops), c, p) <==> exists k: nat :: StandsFor(ops, k, c, p)
  {
    hide Apply, Standing, TracksDial, Settles, Ends;
    if ops == [] {
      forall k: nat ensures !StandsFor(ops, k, c, p) { NothingStands(k, c); }
    } else {
      var n := |ops| - 1;
      PendingExactly(ops[..n], c, p);
      RunsConsistent(ops[..n]);
      PendingStep(After(ops[..n]), ops[n], c);
      LastStands(ops, c);
      if PendingFor(After(ops), c, p) {
        if TracksDial(After(ops[..n]), ops[n], c) {
          assert StandsFor(ops, n, c, p);
        } else {
          var k: nat :| StandsFor(ops[..n], k, c, p);
          StandsWithin(ops[..n], k, c);
          StandingBefore(ops, k, c);
          assert StandsFor(ops, k, c, p);
        }
      }
      if k: nat :| StandsFor(ops, k, c, p) {
        StandsWithin(ops, k, c);
        StandingBefore(ops, k, c);
        if k < n { assert StandsFor(ops[..n], k, c, p); }
      }
    }
  }

  lemma NothingStands(k: nat, c: ConnectionId)
    ensures !Standing([], k, c)
  {
  }

  lemma StandsWithin(ops: seq<Op>, k: nat, c: ConnectionId)
    ensures Standing(ops, k, c) ==> k < |ops| && ops[k].OpDialing?
  {
  }

  lemma LastStands(ops: seq<Op>, c: ConnectionId)
    requires ops != []
    ensures Standing(ops, |ops| - 1, c) <==> TracksDial(After(ops[..|ops| - 1]), ops[|ops| - 1], c)
    ensures TracksDial(After(ops[..|ops| - 1]), ops[|ops| - 1], c) ==> ops[|ops| - 1].OpDialing?
  {
  }

  // ----- dial counts -----

  /** Whether the operation starts a dial of the attempt of `p`. */
  function Starts(t: Tracker, op: Op, p: PeerId): nat {
    if op.OpDialing? && op.peer == p && OnlyRelayed(Of(t, p)) then 1 else 0
  }

  /** Whether the operation is the failure of a pending dial of `p`. */
  function Fails(t: Tracker, op: Op, p: PeerId): nat {
    if op.OpError? && op.id in t.pendingDials && t.pendingDials[op.id].peer == p && OnlyRelayed(Of(t, p)) then 1 else 0
  }

  function StartsOver(before: seq<Op>, mid: seq<Op>, p: PeerId): nat {
    if mid == [] then 0 else
      var n := |mid| - 1;
      StartsOver(before, mid[..n], p) + Starts(After(before + mid[..n]), mid[n], p)
  }

  function FailsOver(before: seq<Op>, mid: seq<Op>, p: PeerId): nat {
    if mid == [] then 0 else
      var n := |mid| - 1;
      FailsOver(before, mid[..n], p) + Fails(After(before + mid[..n]), mid[n], p)
  }

  function Min(a: nat, b: nat): nat { if a < b then a else b }

  predicate Counted(t: Tracker, p: PeerId, id: nat, started: nat, failed: nat) {
    Alive(t, p, id) ==>
      t.attempts[p].dialsStarted == Min(started, U32_MAX) && t.attempts[p].dialsFailed == Min(failed, U32_MAX)
  }

  lemma CountedStep(t: Tracker, op: Op, p: PeerId, id: nat, started: nat, failed: nat)
    requires Agreeing(t) && id < U64_MAX && id <= AttemptSeq(t, p) && Counted(t, p, id, started, failed)
    ensures Counted(Apply(t, op), p, id, started + Starts(t, op, p), failed + Fails(t, op, p))
  {
    hide Established, StartAttempt, Closed, Dialing, OutgoingError, TakeDue;
    if Alive(t, p, id) {
      match op
      case OpEstablished(q, c, relayed) => EstablishedAnswers(t, q, c, relayed); SameAttempt(t, Apply(t, op), p);
      case OpStart(q, timeout, now) => StartAnswers(t, q, timeout, now); SameAttempt(t, Apply(t, op), p);
      case OpClosed(q, c, n) => ClosedAnswers(t, q, c, n); SameAttempt(t, Apply(t, op), p);
      case OpDialing(q, c) => DialingAnswers(t, q, c); SameAttempt(t, Apply(t, op), p);
      case OpError(dialed, c) => ErrorAnswers(t, dialed, c); SameAttempt(t, Apply(t, op), p);
      case OpTakeDue(now) => SweepAnswers(t, now, p); SameAttempt(t, Apply(t, op), p);
    } else {
      hide Apply;
      DeadStaysDead(t, op, p, id);
    }
  }

  lemma {:induction false} CountedThrough(before: seq<Op>, mid: seq<Op>, p: PeerId, id: nat)
    requires id < U64_MAX && id <= AttemptSeq(After(before), p) && Counted(After(before), p, id, 0, 0)
    ensures Counted(After(before + mid), p, id, StartsOver(before, mid, p), FailsOver(before, mid, p))
    ensures id <= AttemptSeq(After(before + mid), p)
  {
    hide Apply, Starts, Fails, Counted;
    if mid == [] {
      assert before + mid == before;
    } else {
      var n := |mid| - 1;
      CountedThrough(before, mid[..n], p, id);
      assert before + mid == before + mid[..n] + [mid[n]];
      assert (before + mid)[..|before + mid| - 1] == before + mid[..n];
      RunsConsistent(before + mid[..n]);
      var t := After(before + mid[..n]);
      CountedStep(t, mid[n], p, id, StartsOver(before, mid[..n], p), FailsOver(before, mid[..n], p));
      SeqStep(t, mid[n], p);
    }
  }

  /** Over every run, the counters of an attempt are the dials to its peer since it started and their
      failures, as far as 32 bits go. */
  lemma CountsAreExact(pre: seq<Op>, p: PeerId, timeout: Time, now: Time, mid: seq<Op>)
    ensures var start := OpStart(p, timeout, now); var id := StartedId(After(pre), start, p);
            var t := After(pre + [start] + mid);
            id.Some? && id.value < U64_MAX && Alive(t, p, id.value) ==>
              && t.attempts[p].dialsStarted == Min(StartsOver(pre + [start], mid, p), U32_MAX)
              && t.attempts[p].dialsFailed == Min(FailsOver(pre + [start], mid, p), U32_MAX)
  {
    var start := OpStart(p, timeout, now);
    var id := StartedId(After(pre), start, p);
    assert (pre + [start])[..|pre|] == pre;
    RunsConsistent(pre);
    hide StartsOver, FailsOver;
    if id.Some? && id.value < U64_MAX {
      StartAnswers(After(pre), p, timeout, now);
      CountedThrough(pre + [start], mid, p, id.value);
    }
  }
}
