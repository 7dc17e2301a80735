/** Every dial the tunnel machine owes is made: redials of running attempts, redials after a reconnect,
    and a lookup or dial for every peer that gets tunnels to connect. */
module TunnelDials {
  import opened Types
  import opened Collections
  import opened TunnelModel
  import opened TunnelInvariants
  import opened TunnelRedials
  import opened TunnelFallback
  import opened TunnelAnswers
  import opened TunnelAddresses

  // ----- the redial itself -----

  /** The redial a session calls for: its direct addresses, then its relay addresses, under its attempt
      id, or the bare peer if it has none. */
  function RedialOf(p: PeerId, session: Session): Command {
    var addrs := session.directSnapshot + session.relayRedial;
    if addrs == [] then DialPeer(p) else DialPeerWithAddrs(p, addrs, session.attemptId)
  }

  lemma RedialFromSession(s: Tunnel, p: PeerId, clock: Time, now: Time)
    requires AddressInv(s, clock) && clock <= now && p in s.retry.sessions
    ensures RedialCommand(s.book, p, s.retry.sessions[p], now) == RedialOf(p, s.retry.sessions[p])
  {
    assert AddressesAt(s, p, clock);
    hide AddressesAt, PrioritizedRedial;
    RedialFromInvariant(s, p, clock, now);
  }

  lemma FailureRedial(s: Tunnel, p: PeerId, pendingAbort: bool, clock: Time, now: Time)
    requires AddressInv(s, clock) && clock <= now && MustRedial(Of(s, p), pendingAbort)
    ensures Step(s, TunnelDialFailed(p, pendingAbort), now).commands == multiset{RedialOf(p, s.retry.sessions[p])}
  {
    RedialFromSession(s, p, clock, now);
    hide RedialCommand, RedialOf, AddressInv;
  }

  lemma LossRedial(s: Tunnel, p: PeerId, clock: Time, now: Time)
    requires AddressInv(s, clock) && clock <= now && p in s.retry.pendingRedial && p in s.retry.sessions
    ensures Step(s, ConnectionLost(p, 0), now).commands == multiset{RedialOf(p, s.retry.sessions[p])}
  {
    RedialFromSession(s, p, clock, now);
    hide RedialCommand, RedialOf, AddressInv;
  }

  /** After every run with a monotone clock: a dial failure that calls for a redial, and the loss of the
      last connection with a redial due, are answered with exactly the redial of the session, and a loss
      under a wait without one with a dial of the peer. */
  lemma RedialsAreMade(c: Config, run: seq<Input>, p: PeerId, pendingAbort: bool, now: Time)
    requires Monotone(run) && LastNow(run) <= now
    ensures var s := StateAfter(Configured(c), run); var v := Of(s, p);
            && (MustRedial(v, pendingAbort) ==>
                  Step(s, TunnelDialFailed(p, pendingAbort), now).commands == multiset{RedialOf(p, v.session.value)})
            && (v.redial ==>
                  v.session.Some?
                      && Step(s, ConnectionLost(p, 0), now).commands == multiset{RedialOf(p, v.session.value)})
            && (!v.redial && v.awaiting.Some? ==> Step(s, ConnectionLost(p, 0), now).commands == multiset{DialPeer(p)})
  {
    var s := StateAfter(Configured(c), run);
    RunsKeepAddresses(c, run);
    RedialHasSession(c, run, p, now);
    hide Step, AddressInv, RedialOf;
    if MustRedial(Of(s, p), pendingAbort) { FailureRedial(s, p, pendingAbort, LastNow(run), now); }
    if p in s.retry.pendingRedial { LossRedial(s, p, LastNow(run), now); } else { LossDial(s, p, now); }
  }

  lemma LossDial(s: Tunnel, p: PeerId, now: Time)
    requires p !in s.retry.pendingRedial
    ensures p in s.q.awaiting ==> Step(s, ConnectionLost(p, 0), now).commands == multiset{DialPeer(p)}
  {
  }

  // ----- counting redials -----

  /** Whether an input is a dial failure of `p` that must be redialed. */
  function OwedBy(s: Tunnel, e: Event, p: PeerId): nat {
    if e.TunnelDialFailed? && e.dialed == p && MustRedial(Of(s, p), e.pendingAbort) then 1 else 0
  }

  function OwedOver(s0: Tunnel, run: seq<Input>, p: PeerId): nat {
    if run == [] then 0 else
      var n := |run| - 1;
      OwedOver(s0, run[..n], p) + OwedBy(StateAfter(s0, run[..n]), run[n].event, p)
  }

  /** A dial failure is answered with a dial exactly if it spends the redial of the session, and then
      with one. */
  lemma FailureSpendsItsRedial(s: Tunnel, e: Event, now: Time, p: PeerId)
    ensures FailureDials(s, e, now, p) == OwedBy(s, e, p)
    ensures e.TunnelDialFailed? ==>
            FailureDials(s, e, now, p) + Armed(Step(s, e, now).state.retry, p) == Armed(s.retry, p)
  {
    hide Step, DialCount, RedialCommand;
    if e.TunnelDialFailed? {
      DialFailureAnswers(s, e.dialed, e.pendingAbort, now);
      if e.dialed == p {
        FlagFollows(s, p, e.pendingAbort, now);
      } else {
        OthersFailure(s, e.dialed, e.pendingAbort, now, p);
      }
    }
  }

  lemma FlagFollows(s: Tunnel, p: PeerId, pendingAbort: bool, now: Time)
    ensures var o := Step(s, TunnelDialFailed(p, pendingAbort), now);
            Armed(o.state.retry, p) + (if MustRedial(Of(s, p), pendingAbort) then 1 else 0) == Armed(s.retry, p)
            && (!MustRedial(Of(s, p), pendingAbort) ==> DialCount(o.commands, p) == 0)
  {
    hide Step, DialCount;
    DialFailureAnswers(s, p, pendingAbort, now);
    if !MustRedial(Of(s, p), pendingAbort) { NoDials(multiset{}, p); }
  }

  lemma OthersFailure(s: Tunnel, q: PeerId, pendingAbort: bool, now: Time, p: PeerId)
    requires q != p
    ensures var o := Step(s, TunnelDialFailed(q, pendingAbort), now);
            DialCount(o.commands, p) == 0 && Armed(o.state.retry, p) == Armed(s.retry, p)
  {
    hide DialCount, RedialCommand, RerouteFailed, Lookups, Queries;
    if RedialsOnFailure(s, q, pendingAbort) {
      RedialIsOneDial(s.book, q, s.retry.sessions[q], now, p);
    } else {
      var r := RerouteFailed(s.q, q);
      LookupsDialNobody(r.lookups, r.refresh, p);
      NoDials(multiset{}, p);
    }
  }

  /** Over every run, the dials to a peer in answer to its dial failures are exactly as many as the
      failures that must be redialed. */
  lemma {:induction false} RedialsAreOwed(c: Config, run: seq<Input>, p: PeerId)
    ensures FailureDialsOver(Configured(c), run, p) == OwedOver(Configured(c), run, p)
  {
    hide FailureDials, OwedBy, Step;
    if run != [] {
      var n := |run| - 1;
      RedialsAreOwed(c, run[..n], p);
      FailureSpendsItsRedial(StateAfter(Configured(c), run[..n]), run[n].event, run[n].now, p);
    }
  }

  // ----- peers that get tunnels -----

  /** The commands look up `p` or dial it. */
  ghost predicate Asks(cs: multiset<Command>, p: PeerId) { DhtLookupPeer(p) in cs || DialPeer(p) in cs }

  lemma RerouteAsks(s: Tunnel, failed: PeerId, pendingAbort: bool, now: Time, p: PeerId)
    ensures var o := Step(s, TunnelDialFailed(failed, pendingAbort), now);
            p in o.state.q.pendingByPeer && Get(o.state.q.pendingByPeer, p) != Get(s.q.pendingByPeer, p) ==>
                Asks(o.commands, p)
    ensures var o := Step(s, TunnelDialFailed(failed, pendingAbort), now);
            p in o.state.q.pendingByPeer && p !in s.q.pendingByPeer ==> Asks(o.commands, p)
  {
    hide DialFailed, RerouteAll, SentTo, SentBack, Queries;
    RerouteTaken(s, failed, pendingAbort, now);
    if Reroutes(s, failed, pendingAbort) {
      var r0 := Reroute(TakePending(s.q, failed), {}, {});
      var specs := Get(s.q.pendingByPeer, failed);
      RerouteAssigns(r0, specs, failed, p, ServiceName(""));
      RerouteNamesPeers(r0, specs, failed, p);
      SentElsewhere(specs, s.q.candidates, failed);
      LookedUp(RerouteAll(r0, specs, failed).lookups, p);
    }
  }

  lemma LookedUp(ps: set<PeerId>, p: PeerId)
    ensures p in ps <==> DhtLookupPeer(p) in Lookups(ps)
  {
    assert DhtLookupPeer(p) in (set q | q in ps :: DhtLookupPeer(q)) <==> p in ps;
  }

  lemma {:induction false} RerouteNamesPeers(r: Reroute, specs: seq<Spec>, failed: PeerId, p: PeerId)
    ensures var r' := RerouteAll(r, specs, failed);
            p in r'.q.pendingByPeer ==> p in r.q.pendingByPeer || p in r'.lookups
    ensures r.lookups <= RerouteAll(r, specs, failed).lookups
  {
    hide NextFallback;
    if specs != [] { RerouteNamesPeers(r, specs[..|specs| - 1], failed, p); }
  }

  lemma {:induction false} SentElsewhere(specs: seq<Spec>, cs: map<ServiceName, seq<PeerId>>, failed: PeerId)
    ensures SentTo(specs, cs, failed, failed) == []
  {
    hide TargetOf;
    if specs != [] {
      var n := |specs| - 1;
      SentElsewhere(specs[..n], cs, failed);
      NeverTheFailed(specs, n, cs, failed);
    }
  }

  lemma NeverTheFailed(specs: seq<Spec>, i: nat, cs: map<ServiceName, seq<PeerId>>, failed: PeerId)
    requires i < |specs|
    ensures TargetOf(specs, i, cs, failed) != Some(failed)
  {
    WithoutNever(Get(cs, specs[i].service), failed);
  }

  lemma {:induction false} WithoutNever(ps: seq<PeerId>, x: PeerId)
    ensures x !in Without(ps, x)
  {
    if ps != [] { WithoutNever(ps[1..], x); }
  }

  /** Whatever gives a peer tunnels to connect also looks it up or dials it. */
  lemma PendingIsAsked(s: Tunnel, e: Event, now: Time, p: PeerId)
    ensures var o := Step(s, e, now);
            p in o.state.q.pendingByPeer && At(o.state.q.pendingByPeer, p) != At(s.q.pendingByPeer, p) ==>
                Asks(o.commands, p)
  {
    hide Step, SpawnsExactly, DialCount, MustRedial, MustReroute, Counts, RefreshesSession, RecordsListing,
         CandidatesAt;
    match e
    case DhtPeerLookupComplete(q, connected) =>
      LookupAnswers(s, q, connected, now);
      PendingOf(s, Step(s, e, now).state, p);
    case DhtServiceResolved(n, providers) => ResolutionAsks(s, n, providers, now, p);
    case TunnelDialFailed(q, pendingAbort) =>
      RerouteAsks(s, q, pendingAbort, now, p);
      SamePending(s, Step(s, e, now).state, p);
    case TunnelPeerConnected(q, relayed) =>
      if relayed { RelayedConnectionQueues(s, q, now); } else { DirectConnectionSettles(s, q, now); }
      PendingOf(s, Step(s, e, now).state, p);
    case ConnectionLost(q, remaining) => LossAsks(s, q, remaining, now, p);
    case _ => OthersKeepPending(s, e, now);
  }

  lemma PendingOf(s: Tunnel, t: Tunnel, p: PeerId)
    ensures Of(t, p) == Of(s, p) ==> At(t.q.pendingByPeer, p) == At(s.q.pendingByPeer, p)
    ensures Of(t, p).pending == At(t.q.pendingByPeer, p)
  {
  }

  lemma SamePending(s: Tunnel, t: Tunnel, p: PeerId)
    ensures At(t.q.pendingByPeer, p) != At(s.q.pendingByPeer, p) && p in t.q.pendingByPeer ==>
              p !in s.q.pendingByPeer || Get(t.q.pendingByPeer, p) != Get(s.q.pendingByPeer, p)
  {
  }

  lemma ResolutionAsks(s: Tunnel, n: ServiceName, providers: seq<(PeerId, bool)>, now: Time, p: PeerId)
    ensures var o := Step(s, DhtServiceResolved(n, providers), now);
            p in o.state.q.pendingByPeer && At(o.state.q.pendingByPeer, p) != At(s.q.pendingByPeer, p) ==>
                Asks(o.commands, p)
  {
    hide Step, SpawnsExactly, Dedup, SpecsFor;
    ResolutionAnswers(s, n, providers, now);
    PendingOf(s, Step(s, DhtServiceResolved(n, providers), now).state, p);
  }

  lemma LossAsks(s: Tunnel, q: PeerId, remaining: nat, now: Time, p: PeerId)
    ensures var o := Step(s, ConnectionLost(q, remaining), now);
            p in o.state.q.pendingByPeer && At(o.state.q.pendingByPeer, p) != At(s.q.pendingByPeer, p) ==>
                Asks(o.commands, p)
  {
    hide RedialCommand;
  }

  lemma OthersKeepPending(s: Tunnel, e: Event, now: Time)
    requires !e.DhtPeerLookupComplete? && !e.DhtServiceResolved? && !e.TunnelDialFailed? && !e.TunnelPeerConnected?
             && !e.ConnectionLost?
    ensures Step(s, e, now).state.q.pendingByPeer == s.q.pendingByPeer
  {
    hide Spawns, BookAfter, RefreshSession, BeginAttempt, ClearRetry, ScheduleRetry, SetPhase;
  }
}
