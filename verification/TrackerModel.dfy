/** What `src/node/connection_state.rs` computes, on values: the state of the connection
    tracker, each of its operations, and what every run of operations keeps. */
module TrackerModel {
  import opened Types

  datatype Stats = Stats(attemptId: nat, dialsStarted: nat, dialsFailed: nat)

  datatype Deadline = Deadline(attemptId: nat, at: Time)

  datatype PendingDial = PendingDial(peer: PeerId, attemptId: nat)

  datatype Tracker = Tracker(
    relayed: map<PeerId, set<ConnectionId>>,
    direct: map<PeerId, set<ConnectionId>>,
    deadlines: map<PeerId, Deadline>,
    attempts: map<PeerId, Stats>,
    attemptSeq: map<PeerId, nat>,
    pendingDials: map<ConnectionId, PendingDial>)

  const EMPTY := Tracker(map[], map[], map[], map[], map[], map[])

  datatype DialingUpdate = Tracked(attemptId: nat, attempt: nat) | RelayOnlyWithoutActiveAttempt | Ignored

  datatype OutgoingErrorUpdate =
    | FailureTracked(peer: PeerId, attemptId: nat, attempt: nat, failures: nat)
    | StaleTracked(peer: PeerId, expected: nat, received: nat)
    | RelayOnlyUntracked(peer: PeerId)
    | FailureIgnored

  datatype EstablishedUpdate = EstablishedUpdate(completed: Option<Stats>, toClose: set<ConnectionId>, direct: bool)

  datatype ClosedUpdate = ClosedUpdate(clearDirectRegistry: bool, fullyDisconnected: bool)

  function Ids(m: map<PeerId, set<ConnectionId>>, p: PeerId): set<ConnectionId> {
    if p in m then m[p] else {}
  }

  predicate RelayOnly(t: Tracker, p: PeerId) { p in t.relayed && p !in t.direct }

  function ConnectionCount(t: Tracker, p: PeerId): nat { |Ids(t.relayed, p)| + |Ids(t.direct, p)| }

  function AttemptSeq(t: Tracker, p: PeerId): nat { if p in t.attemptSeq then t.attemptSeq[p] else 0 }

  // ----- operations -----

  function WithoutDialsTo(pending: map<ConnectionId, PendingDial>, p: PeerId): map<ConnectionId, PendingDial> {
    map c | c in pending && pending[c].peer != p :: pending[c]
  }

  function Complete(t: Tracker, p: PeerId): Tracker {
    t.(attempts := t.attempts - {p}, deadlines := t.deadlines - {p}, pendingDials := WithoutDialsTo(t.pendingDials, p))
  }

  function Established(t: Tracker, p: PeerId, c: ConnectionId, relayed: bool): (Tracker, EstablishedUpdate) {
    var t0 := t.(pendingDials := t.pendingDials - {c});
    if relayed then
      (t0.(relayed := t.relayed[p := Ids(t.relayed, p) + {c}]), EstablishedUpdate(None, {}, false))
    else
      (Complete(t0.(direct := t.direct[p := Ids(t.direct, p) + {c}], relayed := t.relayed - {p}), p),
       EstablishedUpdate(if p in t.attempts then Some(t.attempts[p]) else None, Ids(t.relayed, p), true))
  }

  function StartAttempt(t: Tracker, p: PeerId, timeout: Time, now: Time): (Tracker, Option<nat>) {
    if !RelayOnly(t, p) || p in t.attempts then (t, None)
    else
      var id := SaturatingSucc(AttemptSeq(t, p), U64_MAX);
      (t.(attemptSeq := t.attemptSeq[p := id],
          attempts := t.attempts[p := Stats(id, 0, 0)],
          deadlines := t.deadlines[p := Deadline(id, now + timeout)]), Some(id))
  }

  function WithoutId(m: map<PeerId, set<ConnectionId>>, p: PeerId, c: ConnectionId): map<PeerId, set<ConnectionId>> {
    if p !in m then m
    else if m[p] - {c} == {} then m - {p}
    else m[p := m[p] - {c}]
  }

  function Closed(t: Tracker, p: PeerId, c: ConnectionId, numEstablished: nat): (Tracker, ClosedUpdate) {
    var t0 := t.(pendingDials := t.pendingDials - {c},
                 relayed := WithoutId(t.relayed, p, c), direct := WithoutId(t.direct, p, c));
    var gone := numEstablished == 0 && p !in t0.relayed && p !in t0.direct;
    (if gone then Complete(t0, p) else t0,
     ClosedUpdate((p in t.direct && p !in t0.direct) || gone, gone))
  }

  function Dialing(t: Tracker, p: PeerId, c: ConnectionId): (Tracker, DialingUpdate) {
    if !RelayOnly(t, p) then (t, Ignored)
    else if p !in t.attempts then (t, RelayOnlyWithoutActiveAttempt)
    else
      var stats := t.attempts[p].(dialsStarted := SaturatingSucc(t.attempts[p].dialsStarted, U32_MAX));
      (t.(attempts := t.attempts[p := stats], pendingDials := t.pendingDials[c := PendingDial(p, stats.attemptId)]),
       Tracked(stats.attemptId, stats.dialsStarted))
  }

  function OutgoingError(t: Tracker, dialed: Option<PeerId>, c: ConnectionId): (Tracker, OutgoingErrorUpdate) {
    var t0 := t.(pendingDials := t.pendingDials - {c});
    if c in t.pendingDials then
      var d := t.pendingDials[c];
      if !RelayOnly(t, d.peer) then (t0, FailureIgnored)
      else if d.peer !in t.attempts then (t0, RelayOnlyUntracked(d.peer))
      else if t.attempts[d.peer].attemptId != d.attemptId then
        (t0, StaleTracked(d.peer, t.attempts[d.peer].attemptId, d.attemptId))
      else
        var s := t.attempts[d.peer];
        var failed := SaturatingSucc(s.dialsFailed, U32_MAX);
        (t0.(attempts := t.attempts[d.peer := s.(dialsFailed := failed)]),
         FailureTracked(d.peer, d.attemptId, s.dialsStarted, failed))
    else if dialed.Some? && RelayOnly(t, dialed.value) then (t0, RelayOnlyUntracked(dialed.value))
    else (t0, FailureIgnored)
  }

  function DueDeadlines(t: Tracker, now: Time): map<PeerId, nat> {
    map p | p in t.deadlines && t.deadlines[p].at <= now :: t.deadlines[p].attemptId
  }

  function TakeDue(t: Tracker, now: Time): (Tracker, map<PeerId, nat>) {
    var due := DueDeadlines(t, now);
    (t.(deadlines := t.deadlines - due.Keys), due)
  }

  // ----- invariant -----

  function DialsTo(t: Tracker, p: PeerId): set<ConnectionId> {
    set c | c in t.pendingDials && t.pendingDials[c].peer == p
  }

  /** Until the `u32` counter saturates, every started dial of an attempt is counted at most once
      as failed or still pending. */
  ghost predicate DialsAccounted(t: Tracker, p: PeerId)
    requires p in t.attempts
  {
    var s := t.attempts[p];
    s.dialsFailed <= s.dialsStarted <= U32_MAX
    && (s.dialsStarted < U32_MAX ==> s.dialsFailed + |DialsTo(t, p)| <= s.dialsStarted)
  }

  ghost predicate Agreeing(t: Tracker) {
    && (forall p | p in t.relayed :: t.relayed[p] != {})
    && (forall p | p in t.direct :: t.direct[p] != {})
    && (forall p | p in t.attempts ::
          p !in t.direct && p in t.attemptSeq && t.attempts[p].attemptId == t.attemptSeq[p])
    && (forall p | p in t.attemptSeq :: 1 <= t.attemptSeq[p] <= U64_MAX)
    && (forall p | p in t.deadlines ::
          p in t.attempts && t.deadlines[p].attemptId == t.attempts[p].attemptId)
    && (forall c | c in t.pendingDials :: var d := t.pendingDials[c];
          d.peer in t.attempts && t.attempts[d.peer].attemptId == d.attemptId)
  }

  ghost predicate Accounted(t: Tracker) {
    forall p | p in t.attempts :: DialsAccounted(t, p)
  }

  /** What the six maps agree on in every reachable state. */
  ghost predicate Consistent(t: Tracker) {
    Agreeing(t) && Accounted(t)
  }

  // ----- runs -----

  datatype Op =
    | OpEstablished(peer: PeerId, id: ConnectionId, relayed: bool)
    | OpStart(peer: PeerId, timeout: Time, now: Time)
    | OpClosed(peer: PeerId, id: ConnectionId, numEstablished: nat)
    | OpDialing(peer: PeerId, id: ConnectionId)
    | OpError(dialed: Option<PeerId>, id: ConnectionId)
    | OpTakeDue(now: Time)

  function Apply(t: Tracker, op: Op): Tracker {
    match op
    case OpEstablished(p, c, relayed) => Established(t, p, c, relayed).0
    case OpStart(p, timeout, now) => StartAttempt(t, p, timeout, now).0
    case OpClosed(p, c, n) => Closed(t, p, c, n).0
    case OpDialing(p, c) => Dialing(t, p, c).0
    case OpError(dialed, c) => OutgoingError(t, dialed, c).0
    case OpTakeDue(now) => TakeDue(t, now).0
  }

  function After(ops: seq<Op>): Tracker {
    if ops == [] then EMPTY else Apply(After(ops[..|ops| - 1]), ops[|ops| - 1])
  }

  lemma Smaller<T>(a: set<T>, b: set<T>)
    requires a <= b
    ensures |a| <= |b|
  {
    assert b == a + (b - a);
  }

  /** Dropping attempts and pending dials keeps the dial counts. */
  lemma AccountedShrinks(t: Tracker, t': Tracker)
    requires Accounted(t)
    requires forall p | p in t'.attempts :: p in t.attempts && t'.attempts[p] == t.attempts[p]
    requires forall c | c in t'.pendingDials :: c in t.pendingDials && t'.pendingDials[c] == t.pendingDials[c]
    ensures Accounted(t')
  {
    forall p | p in t'.attempts ensures DialsAccounted(t', p) {
      assert DialsAccounted(t, p);
      assert DialsTo(t', p) <= DialsTo(t, p);
      Smaller(DialsTo(t', p), DialsTo(t, p));
    }
  }

  lemma DialsElsewhere(m: map<ConnectionId, PendingDial>, p: PeerId)
    ensures forall d | d in WithoutDialsTo(m, p) :: d in m && m[d].peer != p && WithoutDialsTo(m, p)[d] == m[d]
  {
  }

  lemma DirectAgrees(t: Tracker, p: PeerId, ids: set<ConnectionId>)
    requires Agreeing(t) && ids != {}
    ensures Agreeing(Complete(t.(direct := t.direct[p := ids], relayed := t.relayed - {p}), p))
  {
    hide WithoutDialsTo;
    DialsElsewhere(t.pendingDials, p);
  }

  lemma EstablishedAgrees(t: Tracker, p: PeerId, c: ConnectionId, relayed: bool)
    requires Agreeing(t)
    ensures Agreeing(Established(t, p, c, relayed).0)
  {
    hide Ids, Complete;
    var t0 := t.(pendingDials := t.pendingDials - {c});
    if relayed {
      assert c in Ids(t.relayed, p) + {c};
    } else {
      assert c in Ids(t.direct, p) + {c};
      assert Agreeing(t0);
      DirectAgrees(t0, p, Ids(t.direct, p) + {c});
    }
  }

  lemma WithoutIdShrinks(m: map<PeerId, set<ConnectionId>>, p: PeerId, c: ConnectionId)
    requires forall q | q in m :: m[q] != {}
    ensures forall q | q in WithoutId(m, p, c) :: q in m && WithoutId(m, p, c)[q] != {}
  {
  }

  lemma CompleteAgrees(t: Tracker, p: PeerId)
    requires Agreeing(t)
    ensures Agreeing(Complete(t, p))
  {
  }

  lemma ClosedAgrees(t: Tracker, p: PeerId, c: ConnectionId, n: nat)
    requires Agreeing(t)
    ensures Agreeing(Closed(t, p, c, n).0)
  {
    hide WithoutId, Complete;
    WithoutIdShrinks(t.relayed, p, c);
    WithoutIdShrinks(t.direct, p, c);
    var t0 := t.(pendingDials := t.pendingDials - {c},
                 relayed := WithoutId(t.relayed, p, c), direct := WithoutId(t.direct, p, c));
    assert Agreeing(t0);
    CompleteAgrees(t0, p);
  }

  lemma StartKeeps(t: Tracker, p: PeerId, timeout: Time, now: Time)
    requires Consistent(t)
    ensures Consistent(StartAttempt(t, p, timeout, now).0)
  {
    var t' := StartAttempt(t, p, timeout, now).0;
    assert Agreeing(t');
    forall q | q in t'.attempts ensures DialsAccounted(t', q) {
      assert DialsTo(t', q) == DialsTo(t, q);
      if q in t.attempts {
        assert DialsAccounted(t, q);
      } else {
        assert DialsTo(t, q) == {};
      }
    }
  }

  lemma DialingAgrees(t: Tracker, p: PeerId, c: ConnectionId)
    requires Agreeing(t)
    ensures Agreeing(Dialing(t, p, c).0)
  {
  }

  lemma DialingAccounted(t: Tracker, p: PeerId, c: ConnectionId)
    requires Accounted(t)
    ensures Accounted(Dialing(t, p, c).0)
  {
    var t' := Dialing(t, p, c).0;
    if t' != t {
      forall q | q in t'.attempts ensures DialsAccounted(t', q) {
        assert DialsAccounted(t, q);
        if q == p {
          assert DialsTo(t', q) == DialsTo(t, q) + {c};
        } else {
          assert DialsTo(t', q) <= DialsTo(t, q);
          Smaller(DialsTo(t', q), DialsTo(t, q));
        }
      }
    }
  }

  lemma ForgottenDialAgrees(t: Tracker, c: ConnectionId)
    requires Agreeing(t)
    ensures Agreeing(t.(pendingDials := t.pendingDials - {c}))
  {
  }

  lemma CountedFailureAgrees(t: Tracker, p: PeerId, failed: nat)
    requires Agreeing(t) && p in t.attempts
    ensures Agreeing(t.(attempts := t.attempts[p := t.attempts[p].(dialsFailed := failed)]))
  {
  }

  lemma ErrorAgrees(t: Tracker, dialed: Option<PeerId>, c: ConnectionId)
    requires Agreeing(t)
    ensures Agreeing(OutgoingError(t, dialed, c).0)
  {
    hide Agreeing;
    ForgottenDialAgrees(t, c);
    var (t', u) := OutgoingError(t, dialed, c);
    if u.FailureTracked? {
      CountedFailureAgrees(t.(pendingDials := t.pendingDials - {c}), u.peer, t'.attempts[u.peer].dialsFailed);
    }
  }

  lemma ErrorAccounted(t: Tracker, dialed: Option<PeerId>, c: ConnectionId)
    requires Accounted(t)
    ensures Accounted(OutgoingError(t, dialed, c).0)
  {
    var (t', u) := OutgoingError(t, dialed, c);
    if u.FailureTracked? {
      forall q | q in t'.attempts ensures DialsAccounted(t', q) {
        assert DialsAccounted(t, q);
        if q == u.peer {
          assert DialsTo(t, q) == DialsTo(t', q) + {c};
        } else {
          assert DialsTo(t, q) == DialsTo(t', q);
        }
      }
    } else {
      AccountedShrinks(t, t');
    }
  }

  lemma EstablishedKeeps(t: Tracker, p: PeerId, c: ConnectionId, relayed: bool)
    requires Consistent(t)
    ensures Consistent(Established(t, p, c, relayed).0)
  {
    hide Agreeing, Accounted;
    EstablishedAgrees(t, p, c, relayed);
    AccountedShrinks(t, Established(t, p, c, relayed).0);
  }

  lemma ClosedKeeps(t: Tracker, p: PeerId, c: ConnectionId, n: nat)
    requires Consistent(t)
    ensures Consistent(Closed(t, p, c, n).0)
  {
    hide Agreeing, Accounted;
    ClosedAgrees(t, p, c, n);
    AccountedShrinks(t, Closed(t, p, c, n).0);
  }

  lemma TakeDueKeeps(t: Tracker, now: Time)
    requires Consistent(t)
    ensures Consistent(TakeDue(t, now).0)
  {
    AccountedShrinks(t, TakeDue(t, now).0);
  }

  lemma ApplyKeeps(t: Tracker, op: Op)
    requires Consistent(t)
    ensures Consistent(Apply(t, op))
  {
    hide Agreeing, Accounted, Established, StartAttempt, Closed, Dialing, OutgoingError, TakeDue;
    match op
    case OpEstablished(p, c, relayed) => EstablishedKeeps(t, p, c, relayed);
    case OpStart(p, timeout, now) => StartKeeps(t, p, timeout, now);
    case OpClosed(p, c, n) => ClosedKeeps(t, p, c, n);
    case OpDialing(p, c) =>
      DialingAgrees(t, p, c);
      DialingAccounted(t, p, c);
    case OpError(dialed, c) =>
      ErrorAgrees(t, dialed, c);
      ErrorAccounted(t, dialed, c);
    case OpTakeDue(now) => TakeDueKeeps(t, now);
  }

  /** Attempts, deadlines, pending dials and dial counts agree after every run of operations. */
  lemma {:induction false} RunsConsistent(ops: seq<Op>)
    ensures Consistent(After(ops))
  {
    if ops != [] {
      RunsConsistent(ops[..|ops| - 1]);
      ApplyKeeps(After(ops[..|ops| - 1]), ops[|ops| - 1]);
    }
  }

  /** After any run, a failed dial that is tracked is charged to the active attempt of its peer:
      the stale branch and the tracked-without-attempt branch are dead. */
  lemma TrackedFailuresAreCurrent(ops: seq<Op>, dialed: Option<PeerId>, c: ConnectionId)
    ensures var t := After(ops); var u := OutgoingError(t, dialed, c).1;
            && !u.StaleTracked?
            && (c in t.pendingDials ==>
                  var d := t.pendingDials[c];
                  if RelayOnly(t, d.peer)
                  then u.FailureTracked? && u.peer == d.peer && u.attemptId == t.attempts[d.peer].attemptId
                  else u.FailureIgnored?)
  {
    RunsConsistent(ops);
  }

  // ----- each attempt times out at most once -----

  /** Whether `op` reports a timeout of attempt `id` of peer `p`. */
  function Reports(t: Tracker, op: Op, p: PeerId, id: nat): nat {
    if op.OpTakeDue? && p in DueDeadlines(t, op.now) && DueDeadlines(t, op.now)[p] == id then 1 else 0
  }

  /** The timeouts of attempt `id` of peer `p` that a run reported. */
  function TimeoutReports(ops: seq<Op>, p: PeerId, id: nat): nat {
    if ops == [] then 0 else
      var n := |ops| - 1;
      TimeoutReports(ops[..n], p, id) + Reports(After(ops[..n]), ops[n], p, id)
  }

  /** 0 while the attempt can still time out, 1 once it cannot any more. */
  function Settled(t: Tracker, p: PeerId, id: nat): nat {
    if id > AttemptSeq(t, p) || (p in t.deadlines && t.deadlines[p].attemptId == id) then 0 else 1
  }

  lemma SettledStep(t: Tracker, op: Op, p: PeerId, id: nat)
    requires Agreeing(t) && id < U64_MAX
    ensures Settled(t, p, id) + Reports(t, op, p, id) <= Settled(Apply(t, op), p, id)
  {
  }

  lemma {:induction false} ReportsWithinSettled(ops: seq<Op>, p: PeerId, id: nat)
    requires id < U64_MAX
    ensures TimeoutReports(ops, p, id) <= Settled(After(ops), p, id)
  {
    if ops != [] {
      var n := |ops| - 1;
      ReportsWithinSettled(ops[..n], p, id);
      RunsConsistent(ops[..n]);
      SettledStep(After(ops[..n]), ops[n], p, id);
    }
  }

  /** Below the saturation of the id counter no attempt is reported as timed out twice. */
  lemma AttemptTimesOutOnce(ops: seq<Op>, p: PeerId, id: nat)
    requires id < U64_MAX
    ensures TimeoutReports(ops, p, id) <= 1
  {
    ReportsWithinSettled(ops, p, id);
  }

  // ----- each attempt times out exactly when it is swept in time -----

  /** The attempt id of peer `p` that an operation starts, if it starts one. */
  function StartedId(t: Tracker, op: Op, p: PeerId): Option<nat> {
    if op.OpStart? && op.peer == p then StartAttempt(t, p, op.timeout, op.now).1 else None
  }

  lemma SeqStep(t: Tracker, op: Op, p: PeerId)
    ensures AttemptSeq(t, p) <= AttemptSeq(Apply(t, op), p)
    ensures StartedId(t, op, p).Some? ==> StartedId(t, op, p) == Some(AttemptSeq(Apply(t, op), p))
  {
  }

  lemma {:induction false} SeqGrows(ops: seq<Op>, i: nat, p: PeerId)
    requires i <= |ops|
    ensures AttemptSeq(After(ops[..i]), p) <= AttemptSeq(After(ops), p) <= U64_MAX
    decreases |ops|
  {
    hide Apply, Accounted;
    RunsConsistent(ops);
    if i == |ops| {
      assert ops[..i] == ops;
    } else {
      var n := |ops| - 1;
      assert ops[..n][..i] == ops[..i];
      SeqGrows(ops[..n], i, p);
      SeqStep(After(ops[..n]), ops[n], p);
    }
  }

  /** Over every run, of two attempts of a peer the later has the larger id, unless the ids have
      reached the largest value: below it no id is used twice. */
  lemma AttemptIdsIncrease(ops: seq<Op>, i: nat, j: nat, p: PeerId)
    requires i < j < |ops|
    requires StartedId(After(ops[..i]), ops[i], p).Some? && StartedId(After(ops[..j]), ops[j], p).Some?
    ensures var first, second := StartedId(After(ops[..i]), ops[i], p).value,
            StartedId(After(ops[..j]), ops[j], p).value;
            if first < U64_MAX then first < second else first == second == U64_MAX
  {
    hide Apply;
    assert ops[..i + 1][..i] == ops[..i] && ops[..j][..i + 1] == ops[..i + 1];
    RunsConsistent(ops[..i + 1]);
    SeqStep(After(ops[..i]), ops[i], p);
    SeqGrows(ops[..j], i + 1, p);
    SeqGrows(ops[..j], j, p);
  }

  /** Attempt `id` of peer `p` is still going on. */
  predicate Alive(t: Tracker, p: PeerId, id: nat) { p in t.attempts && t.attempts[p].attemptId == id }

  /** A sweep at or after the moment `due` that meets the attempt alive. */
  predicate Sweeps(t: Tracker, op: Op, p: PeerId, id: nat, due: Time) {
    op.OpTakeDue? && due <= op.now && Alive(t, p, id)
  }

  ghost predicate Swept(before: seq<Op>, mid: seq<Op>, p: PeerId, id: nat, due: Time) {
    exists k :: 0 <= k < |mid| && Sweeps(After(before + mid[..k]), mid[k], p, id, due)
  }

  /** While an attempt goes on, its deadline stands exactly until a sweep takes it. */
  predicate Follows(t: Tracker, p: PeerId, id: nat, due: Time, swept: bool) {
    && id <= AttemptSeq(t, p)
    && (Alive(t, p, id) ==>
       if swept then p !in t.deadlines else p in t.deadlines && t.deadlines[p] == Deadline(id, due))
  }

  lemma FollowsStep(t: Tracker, op: Op, p: PeerId, id: nat, due: Time, swept: bool)
    requires Agreeing(t) && id < U64_MAX && Follows(t, p, id, due, swept)
    ensures Follows(Apply(t, op), p, id, due, swept || Sweeps(t, op, p, id, due))
    ensures Reports(t, op, p, id) == if !swept && Sweeps(t, op, p, id, due) then 1 else 0
  {
    if op.OpTakeDue? {
      FollowsSweep(t, op.now, p, id, due, swept);
    } else {
      hide Agreeing, Apply;
      FollowsOther(t, op, p, id, due, swept);
    }
  }

  lemma FollowsSweep(t: Tracker, now: Time, p: PeerId, id: nat, due: Time, swept: bool)
    requires Agreeing(t) && id < U64_MAX && Follows(t, p, id, due, swept)
    ensures Follows(TakeDue(t, now).0, p, id, due, swept || Sweeps(t, OpTakeDue(now), p, id, due))
    ensures Reports(t, OpTakeDue(now), p, id) == if !swept && Sweeps(t, OpTakeDue(now), p, id, due) then 1 else 0
  {
  }

  lemma FollowsOther(t: Tracker, op: Op, p: PeerId, id: nat, due: Time, swept: bool)
    requires Agreeing(t) && id < U64_MAX && Follows(t, p, id, due, swept) && !op.OpTakeDue?
    ensures Follows(Apply(t, op), p, id, due, swept)
  {
    hide WithoutDialsTo, WithoutId, Ids;
    CurrentSeq(t, p);
    hide Agreeing;
  }

  lemma CurrentSeq(t: Tracker, p: PeerId)
    requires Agreeing(t)
    ensures p in t.attempts ==> t.attempts[p].attemptId == AttemptSeq(t, p)
    ensures p in t.deadlines ==> p in t.attempts && t.deadlines[p].attemptId == AttemptSeq(t, p)
  {
  }

  lemma SweptSnoc(before: seq<Op>, mid: seq<Op>, p: PeerId, id: nat, due: Time)
    requires mid != []
    ensures var n := |mid| - 1;
            Swept(before, mid, p, id, due)
            <==> Swept(before, mid[..n], p, id, due) || Sweeps(After(before + mid[..n]), mid[n], p, id, due)
  {
    var n := |mid| - 1;
    hide After, Sweeps;
    forall k: nat | k < n ensures mid[..n][..k] == mid[..k] && mid[..n][k] == mid[k] {}
    if Swept(before, mid[..n], p, id, due) {
      var k :| 0 <= k < n && Sweeps(After(before + mid[..n][..k]), mid[..n][k], p, id, due);
      assert Sweeps(After(before + mid[..k]), mid[k], p, id, due);
    }
    if Swept(before, mid, p, id, due) {
      var k :| 0 <= k < |mid| && Sweeps(After(before + mid[..k]), mid[k], p, id, due);
      if k < n { assert Sweeps(After(before + mid[..n][..k]), mid[..n][k], p, id, due); }
    }
  }

  lemma {:induction false} FollowsThrough(before: seq<Op>, mid: seq<Op>, p: PeerId, id: nat, due: Time)
    requires id < U64_MAX && Follows(After(before), p, id, due, false) && TimeoutReports(before, p, id) == 0
    ensures Follows(After(before + mid), p, id, due, Swept(before, mid, p, id, due))
    ensures TimeoutReports(before + mid, p, id) == if Swept(before, mid, p, id, due) then 1 else 0
  {
    hide Apply, Follows, Sweeps, Reports, Swept;
    if mid == [] {
      assert before + mid == before;
      assert !Swept(before, mid, p, id, due) by { NothingSwept(before, p, id, due); }
    } else {
      var n := |mid| - 1;
      FollowsThrough(before, mid[..n], p, id, due);
      SweptSnoc(before, mid, p, id, due);
      assert before + mid == before + mid[..n] + [mid[n]];
      assert (before + mid)[..|before + mid| - 1] == before + mid[..n];
      RunsConsistent(before + mid[..n]);
      FollowsStep(After(before + mid[..n]), mid[n], p, id, due, Swept(before, mid[..n], p, id, due));
    }
  }

  lemma NothingSwept(before: seq<Op>, p: PeerId, id: nat, due: Time)
    ensures !Swept(before, [], p, id, due)
  {
  }

  lemma StartFollows(pre: seq<Op>, p: PeerId, timeout: Time, now: Time)
    ensures var start := OpStart(p, timeout, now); var id := StartedId(After(pre), start, p);
            id.Some? ==> Follows(After(pre + [start]), p, id.value, now + timeout, false)
                         && (id.value < U64_MAX ==> TimeoutReports(pre + [start], p, id.value) == 0)
  {
    var start := OpStart(p, timeout, now);
    var id := StartedId(After(pre), start, p);
    assert (pre + [start])[..|pre|] == pre;
    RunsConsistent(pre);
    if id.Some? && id.value < U64_MAX { ReportsWithinSettled(pre, p, id.value); }
  }

  /** Over every run, an attempt is reported as timed out exactly once if some sweep at or after its
      deadline meets it alive, and never otherwise (below the saturation of the id counter). */
  lemma TimesOutIffSwept(pre: seq<Op>, p: PeerId, timeout: Time, now: Time, mid: seq<Op>)
    ensures var start := OpStart(p, timeout, now); var id := StartedId(After(pre), start, p);
            id.Some? && id.value < U64_MAX ==>
              TimeoutReports(pre + [start] + mid, p, id.value)
              == if Swept(pre + [start], mid, p, id.value, now + timeout) then 1 else 0
  {
    hide Follows, Swept, TimeoutReports, StartedId;
    StartFollows(pre, p, timeout, now);
    var start := OpStart(p, timeout, now);
    var id := StartedId(After(pre), start, p);
    if id.Some? && id.value < U64_MAX { FollowsThrough(pre + [start], mid, p, id.value, now + timeout); }
  }

  /** Whatever happened since an attempt started, as long as it is alive and no sweep came at or after
      its deadline, the next sweep reports it, under its id, if and only if its time is up. */
  lemma AttemptEndsOnTime(pre: seq<Op>, p: PeerId, timeout: Time, now: Time, mid: seq<Op>, later: Time)
    ensures var start := OpStart(p, timeout, now); var id := StartedId(After(pre), start, p);
            var t := After(pre + [start] + mid); var due := TakeDue(t, later).1;
            id.Some? && id.value < U64_MAX && Alive(t, p, id.value)
            && (forall k | 0 <= k < |mid| && mid[k].OpTakeDue? :: mid[k].now < now + timeout) ==>
              (p in due <==> now + timeout <= later) && (p in due ==> due[p] == id.value)
  {
    hide TimeoutReports, StartedId, After;
    StartFollows(pre, p, timeout, now);
    var start := OpStart(p, timeout, now);
    var id := StartedId(After(pre), start, p);
    if id.Some? && id.value < U64_MAX { FollowsThrough(pre + [start], mid, p, id.value, now + timeout); }
  }

  /** What a sweep of the deadlines reports and leaves: exactly the deadlines that have passed,
      each with the id of the peer's active attempt. */
  lemma SweepIsExact(ops: seq<Op>, now: Time)
    ensures var t := After(ops); var (t', due) := TakeDue(t, now);
            && (forall p :: p in due <==> p in t.deadlines && t.deadlines[p].at <= now)
            && (forall p | p in due :: p in t'.attempts && due[p] == t'.attempts[p].attemptId && p !in t'.deadlines)
            && (forall p :: p in t'.deadlines <==> p in t.deadlines && t.deadlines[p].at > now)
            && (forall p | p in t'.deadlines :: t'.deadlines[p] == t.deadlines[p])
  {
    RunsConsistent(ops);
  }
}
