/** The connection tracker as `src/node/connection_state.rs` has it: six hash maps updated in place.
    Every method is proved against the operation of the same name in `TrackerModel`. */
module TrackerMachine {
  import opened Types
  import opened Collections
  import opened TrackerModel

  class ConnectionStateMachine {
    var relayedConnections: map<PeerId, set<ConnectionId>>
    var directConnections: map<PeerId, set<ConnectionId>>
    var holePunchDeadlines: map<PeerId, Deadline>
    var holePunchAttempts: map<PeerId, Stats>
    var holePunchAttemptSeq: map<PeerId, nat>
    var pendingHolePunchDials: map<ConnectionId, PendingDial>

    function View(): Tracker
      reads this
    {
      Tracker(relayedConnections, directConnections, holePunchDeadlines, holePunchAttempts, holePunchAttemptSeq,
              pendingHolePunchDials)
    }

    constructor ()
      ensures View() == EMPTY
    {
      relayedConnections, directConnections, holePunchDeadlines := map[], map[], map[];
      holePunchAttempts, holePunchAttemptSeq, pendingHolePunchDials := map[], map[], map[];
    }

    predicate HasRelayedConnection(peer: PeerId) reads this { peer in relayedConnections }

    predicate HasDirectConnection(peer: PeerId) reads this { peer in directConnections }

    predicate PeerIsRelayOnly(peer: PeerId)
      reads this
    {
      HasRelayedConnection(peer) && !HasDirectConnection(peer)
    }

    method OnConnectionEstablished(peer: PeerId, id: ConnectionId, relayed: bool) returns (update: EstablishedUpdate)
      modifies this
      ensures (View(), update) == Established(old(View()), peer, id, relayed)
    {
      pendingHolePunchDials := pendingHolePunchDials - {id};
      if relayed {
        relayedConnections := relayedConnections[peer := Ids(relayedConnections, peer) + {id}];
        update := EstablishedUpdate(None, {}, false);
      } else {
        directConnections := directConnections[peer := Ids(directConnections, peer) + {id}];
        var completed := CompleteHolePunchAttempt(peer);
        var toClose := Ids(relayedConnections, peer);
        relayedConnections := relayedConnections - {peer};
        update := EstablishedUpdate(completed, toClose, true);
        ghost var was := old(View());
        assert WithoutDialsTo(was.pendingDials - {id}, peer) == pendingHolePunchDials;
      }
    }

    method StartHolePunchAttempt(peer: PeerId, timeout: Time, now: Time) returns (started: Option<nat>)
      modifies this
      ensures (View(), started) == StartAttempt(old(View()), peer, timeout, now)
    {
      if !PeerIsRelayOnly(peer) || peer in holePunchAttempts {
        return None;
      }
      var attemptId := NextHolePunchAttemptId(peer);
      holePunchAttempts := holePunchAttempts[peer := Stats(attemptId, 0, 0)];
      holePunchDeadlines := holePunchDeadlines[peer := Deadline(attemptId, now + timeout)];
      started := Some(attemptId);
    }

    method NextHolePunchAttemptId(peer: PeerId) returns (id: nat)
      modifies this`holePunchAttemptSeq
      ensures id == SaturatingSucc(AttemptSeq(old(View()), peer), U64_MAX)
      ensures holePunchAttemptSeq == old(holePunchAttemptSeq)[peer := id]
    {
      var current := if peer in holePunchAttemptSeq then holePunchAttemptSeq[peer] else 0;
      id := SaturatingSucc(current, U64_MAX);
      holePunchAttemptSeq := holePunchAttemptSeq[peer := id];
    }

    method OnConnectionClosed(peer: PeerId, id: ConnectionId, numEstablished: nat) returns (update: ClosedUpdate)
      modifies this
      ensures (View(), update) == Closed(old(View()), peer, id, numEstablished)
    {
      pendingHolePunchDials := pendingHolePunchDials - {id};
      var relayedExhausted, directExhausted;
      relayedConnections, relayedExhausted := RemoveConnectionId(relayedConnections, peer, id);
      directConnections, directExhausted := RemoveConnectionId(directConnections, peer, id);
      var alive := HasRelayedConnection(peer) || HasDirectConnection(peer);
      var fullyDisconnected := numEstablished == 0 && !alive;
      if fullyDisconnected {
        var _ := CompleteHolePunchAttempt(peer);
        assert relayedConnections - {peer} == relayedConnections && directConnections - {peer} == directConnections;
        relayedConnections := relayedConnections - {peer};
        directConnections := directConnections - {peer};
      }
      update := ClosedUpdate(directExhausted || fullyDisconnected, fullyDisconnected);
    }

    static method RemoveConnectionId(byPeer: map<PeerId, set<ConnectionId>>, peer: PeerId, id: ConnectionId)
      returns (left: map<PeerId, set<ConnectionId>>, exhausted: bool)
      ensures left == WithoutId(byPeer, peer, id)
      ensures exhausted <==> peer in byPeer && peer !in left
    {
      if peer !in byPeer {
        return byPeer, false;
      }
      left := byPeer[peer := byPeer[peer] - {id}];
      exhausted := left[peer] == {};
      if exhausted {
        left := left - {peer};
      }
    }

    method OnDialing(peer: PeerId, id: ConnectionId) returns (update: DialingUpdate)
      modifies this
      ensures (View(), update) == Dialing(old(View()), peer, id)
    {
      if !PeerIsRelayOnly(peer) {
        return Ignored;
      }
      if peer !in holePunchAttempts {
        return RelayOnlyWithoutActiveAttempt;
      }
      var stats := holePunchAttempts[peer];
      stats := stats.(dialsStarted := SaturatingSucc(stats.dialsStarted, U32_MAX));
      holePunchAttempts := holePunchAttempts[peer := stats];
      pendingHolePunchDials := pendingHolePunchDials[id := PendingDial(peer, stats.attemptId)];
      update := Tracked(stats.attemptId, stats.dialsStarted);
    }

    method OnOutgoingConnectionError(dialed: Option<PeerId>, id: ConnectionId) returns (update: OutgoingErrorUpdate)
      modifies this
      ensures (View(), update) == OutgoingError(old(View()), dialed, id)
    {
      if id in pendingHolePunchDials {
        var tracked := pendingHolePunchDials[id];
        if !PeerIsRelayOnly(tracked.peer) {
          update := FailureIgnored;
        } else if tracked.peer !in holePunchAttempts {
          update := RelayOnlyUntracked(tracked.peer);
        } else {
          var stats := holePunchAttempts[tracked.peer];
          if stats.attemptId == tracked.attemptId {
            stats := stats.(dialsFailed := SaturatingSucc(stats.dialsFailed, U32_MAX));
            holePunchAttempts := holePunchAttempts[tracked.peer := stats];
            update := FailureTracked(tracked.peer, tracked.attemptId, stats.dialsStarted, stats.dialsFailed);
          } else {
            update := StaleTracked(tracked.peer, stats.attemptId, tracked.attemptId);
          }
        }
      } else if dialed.Some? && PeerIsRelayOnly(dialed.value) {
        update := RelayOnlyUntracked(dialed.value);
      } else {
        update := FailureIgnored;
      }
      pendingHolePunchDials := pendingHolePunchDials - {id};
    }

    method CompleteHolePunchAttempt(peer: PeerId) returns (completed: Option<Stats>)
      modifies this
      ensures View() == Complete(old(View()), peer)
      ensures completed == if peer in old(holePunchAttempts) then Some(old(holePunchAttempts)[peer]) else None
    {
      completed := if peer in holePunchAttempts then Some(holePunchAttempts[peer]) else None;
      holePunchAttempts := holePunchAttempts - {peer};
      holePunchDeadlines := holePunchDeadlines - {peer};
      RemovePendingHolePunchDialsForPeer(peer);
    }

    /** `retain`: visits every pending dial once and drops those to `peer`. */
    method RemovePendingHolePunchDialsForPeer(peer: PeerId)
      modifies this`pendingHolePunchDials
      ensures pendingHolePunchDials == WithoutDialsTo(old(pendingHolePunchDials), peer)
    {
      ghost var was := pendingHolePunchDials;
      var unvisited := pendingHolePunchDials.Keys;
      while unvisited != {}
        invariant unvisited <= was.Keys
        invariant pendingHolePunchDials == map c | c in was && (c in unvisited || was[c].peer != peer) :: was[c]
        decreases |unvisited|
      {
        var c :| c in unvisited;
        unvisited := unvisited - {c};
        if pendingHolePunchDials[c].peer == peer {
          pendingHolePunchDials := pendingHolePunchDials - {c};
        }
      }
    }

    /** The earliest deadline, which the event loop sleeps until. */
    method NextHolePunchDeadline() returns (next: Option<Time>)
      ensures next.None? <==> holePunchDeadlines == map[]
      ensures next.Some? ==> exists p :: p in holePunchDeadlines && holePunchDeadlines[p].at == next.value
      ensures next.Some? ==> forall p | p in holePunchDeadlines :: next.value <= holePunchDeadlines[p].at
    {
      next := None;
      var unvisited := holePunchDeadlines.Keys;
      while unvisited != {}
        invariant unvisited <= holePunchDeadlines.Keys
        invariant next.None? <==> unvisited == holePunchDeadlines.Keys
        invariant next.Some? ==> exists p :: p in holePunchDeadlines && holePunchDeadlines[p].at == next.value
        invariant next.Some? ==>
                  forall p | p in holePunchDeadlines && p !in unvisited :: next.value <= holePunchDeadlines[p].at
        decreases |unvisited|
      {
        var p :| p in unvisited;
        unvisited := unvisited - {p};
        if next.None? || holePunchDeadlines[p].at < next.value {
          next := Some(holePunchDeadlines[p].at);
        }
      }
    }

    /** The expired attempts, each peer once, in whatever order the map yields them. */
    method TakeDueHolePunchTimeouts(now: Time) returns (due: seq<(PeerId, nat)>)
      modifies this`holePunchDeadlines
      ensures View() == TakeDue(old(View()), now).0
      ensures Lists(due, TakeDue(old(View()), now).1)
    {
      due := CollectDue(now);
      ghost var before := holePunchDeadlines;
      for i := 0 to |due|
        invariant holePunchDeadlines == before - set k | 0 <= k < i :: due[k].0
      {
        holePunchDeadlines := holePunchDeadlines - {due[i].0};
      }
      ListedKeys(due, TakeDue(old(View()), now).1);
    }

    method CollectDue(now: Time) returns (due: seq<(PeerId, nat)>)
      ensures Lists(due, DueDeadlines(View(), now))
    {
      ghost var expected := DueDeadlines(View(), now);
      due := [];
      var unvisited := holePunchDeadlines.Keys;
      while unvisited != {}
        invariant unvisited <= holePunchDeadlines.Keys
        invariant Lists(due, expected - unvisited)
        decreases |unvisited|
      {
        var p :| p in unvisited;
        var entry := holePunchDeadlines[p];
        if entry.at <= now {
          ListsMore(due, expected - unvisited, p, entry.attemptId);
          due := due + [(p, entry.attemptId)];
          assert expected - (unvisited - {p}) == (expected - unvisited)[p := entry.attemptId];
        } else {
          assert expected - (unvisited - {p}) == expected - unvisited;
        }
        unvisited := unvisited - {p};
      }
      assert expected - {} == expected;
    }
  }

  /** `entries` lists the entries of `m`, each once. */
  ghost predicate Lists<K(!new), V(!new)>(entries: seq<(K, V)>, m: map<K, V>) {
    && NoDuplicates(entries)
    && (forall e | e in entries :: e.0 in m && m[e.0] == e.1)
    && (forall k | k in m :: (k, m[k]) in entries)
  }

  lemma ListsMore<K(!new), V(!new)>(entries: seq<(K, V)>, m: map<K, V>, k: K, v: V)
    requires Lists(entries, m) && k !in m
    ensures Lists(entries + [(k, v)], m[k := v])
  {
    var more := entries + [(k, v)];
    assert more[|entries|] == (k, v);
    assert forall e | e in entries :: e in more;
  }

  lemma ListedKeys<K(!new), V(!new)>(entries: seq<(K, V)>, m: map<K, V>)
    requires Lists(entries, m)
    ensures (set i | 0 <= i < |entries| :: entries[i].0) == m.Keys
  {
    forall k | k in m ensures exists i :: 0 <= i < |entries| && entries[i].0 == k {
      assert (k, m[k]) in entries;
    }
    forall i | 0 <= i < |entries| ensures entries[i].0 in m {
      assert entries[i] in entries;
    }
  }
}
