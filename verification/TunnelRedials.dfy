/** Failed dials cannot be amplified: how many redials a run answers dial failures with. */
module TunnelRedials {
  import opened Types
  import opened Collections
  import opened TunnelModel

  function DialOf(p: PeerId): Command -> multiset<PeerId> {
    (c: Command) => if (c.DialPeer? && c.dial == p) || (c.DialPeerWithAddrs? && c.dialWith == p) then multiset{p}
        else multiset{}
  }

  /** The number of dial commands to `p` among `cs`. */
  ghost function DialCount(cs: multiset<Command>, p: PeerId): nat { |Sum(cs, DialOf(p))| }

  /** The dials to `p` that one transition issues in answer to a dial failure. */
  ghost function FailureDials(s: Tunnel, e: Event, now: Time, p: PeerId): nat {
    if e.TunnelDialFailed? then DialCount(Step(s, e, now).commands, p) else 0
  }

  /** The events that may allow one more such dial. */
  function Allowance(e: Event, p: PeerId): nat {
    if (e.HolePunchAttemptStarted? && e.startedPeer == p) || (e.PeerIdentified? && e.identified == p) then 1 else 0
  }

  ghost function FailureDialsOver(s0: Tunnel, run: seq<Input>, p: PeerId): nat {
    if run == [] then 0 else
      var last := |run| - 1;
      FailureDialsOver(s0, run[..last], p)
          + FailureDials(StateAfter(s0, run[..last]), run[last].event, run[last].now, p)
  }

  function AllowanceOver(run: seq<Input>, p: PeerId): nat {
    if run == [] then 0 else AllowanceOver(run[..|run| - 1], p) + Allowance(run[|run| - 1].event, p)
  }

  /** A session that may still answer one dial failure. */
  function Armed(r: Retry, p: PeerId): nat {
    if p in r.sessions && !r.sessions[p].retryDispatched then 1 else 0
  }

  lemma RedialIsOneDial(b: Book, q: PeerId, session: Session, now: Time, p: PeerId)
    ensures DialCount(multiset{RedialCommand(b, q, session, now)}, p) == if p == q then 1 else 0
  {
    hide RedialCommand;
    SumOne(RedialCommand(b, q, session, now), DialOf(p));
  }

  lemma NoDials(cs: multiset<Command>, p: PeerId)
    requires forall c | c in cs :: !c.DialPeer? && !c.DialPeerWithAddrs?
    ensures DialCount(cs, p) == 0
  {
    SumNothing(cs, DialOf(p));
  }

  lemma DialFailedSpends(s: Tunnel, q: PeerId, pendingAbort: bool, now: Time, p: PeerId)
    ensures var o := DialFailed(s, q, pendingAbort, now);
            DialCount(o.commands, p) + Armed(o.state.retry, p) <= Armed(s.retry, p)
  {
    hide RedialCommand, RerouteAll, DialCount;
    var o := DialFailed(s, q, pendingAbort, now);
    if RedialsOnFailure(s, q, pendingAbort) {
      RedialIsOneDial(s.book, q, s.retry.sessions[q], now, p);
    } else {
      NoDials(o.commands, p);
    }
  }

  lemma OthersDoNotArm(s: Tunnel, e: Event, now: Time, p: PeerId)
    requires !e.TunnelDialFailed?
    ensures Armed(Step(s, e, now).state.retry, p) <= Armed(s.retry, p) + Allowance(e, p)
  {
    hide RetryAttempt, AllConnectionsLost, RouteConnected, ResolveService, InitialLookups, Spawns, BookAfter;
    match e
    case HolePunchAttemptFailed(q, id) => RetryDoesNotArm(s, q, id, p);
    case HolePunchAttemptTimeout(q, id) => RetryDoesNotArm(s, q, id, p);
    case ConnectionLost(q, _) => LostDoesNotArm(s, q, now, p);
    case DhtServiceResolved(n, providers) => RoutingKeepsRetry(s, n, providers);
    case DhtPeerLookupComplete(q, connected) => RouteKeepsRetry(s, TakePending(s.q, q), q, Get(s.q.pendingByPeer, q));
    case _ =>
  }

  lemma RouteKeepsRetry(s: Tunnel, q: Queues, p: PeerId, specs: seq<Spec>)
    ensures RouteConnected(s, q, p, specs).state.retry == s.retry
  {
  }

  lemma RoutingKeepsRetry(s: Tunnel, n: ServiceName, providers: seq<(PeerId, bool)>)
    ensures ResolveService(s, n, providers).state.retry == s.retry
  {
    hide Dedup, Spawns, StoreCandidates;
  }

  lemma RetryDoesNotArm(s: Tunnel, q: PeerId, id: nat, p: PeerId)
    ensures Armed(RetryAttempt(s, q, id).state.retry, p) <= Armed(s.retry, p)
  {
    hide Spawns;
  }

  lemma LostDoesNotArm(s: Tunnel, q: PeerId, now: Time, p: PeerId)
    ensures Armed(AllConnectionsLost(s, q, now).state.retry, p) <= Armed(s.retry, p)
  {
    hide RedialCommand;
  }

  lemma DialFailedStep(s: Tunnel, e: Event, now: Time)
    requires e.TunnelDialFailed?
    ensures Step(s, e, now) == DialFailed(s, e.dialed, e.pendingAbort, now)
  {
    hide DialFailed;
  }

  lemma StepSpends(s: Tunnel, e: Event, now: Time, p: PeerId)
    ensures FailureDials(s, e, now, p) + Armed(Step(s, e, now).state.retry, p) <= Armed(s.retry, p) + Allowance(e, p)
  {
    if e.TunnelDialFailed? {
      hide Step, DialFailed, DialCount, Armed;
      DialFailedStep(s, e, now);
      DialFailedSpends(s, e.dialed, e.pendingAbort, now, p);
    } else {
      hide Step;
      OthersDoNotArm(s, e, now, p);
    }
  }

  lemma {:induction false} RunsSpend(c: Config, run: seq<Input>, p: PeerId)
    ensures FailureDialsOver(Configured(c), run, p) + Armed(StateAfter(Configured(c), run).retry, p)
            <= AllowanceOver(run, p)
  {
    hide FailureDials, Step, Allowance;
    if run != [] {
      var last := |run| - 1;
      RunsSpend(c, run[..last], p);
      StepSpends(StateAfter(Configured(c), run[..last]), run[last].event, run[last].now, p);
    }
  }

  /** Over every run, the dials to a peer in answer to its dial failures number at most the attempt
      starts plus the identify exchanges of that peer. */
  lemma RedialsAreBounded(c: Config, run: seq<Input>, p: PeerId)
    ensures FailureDialsOver(Configured(c), run, p) <= AllowanceOver(run, p)
  {
    RunsSpend(c, run, p);
  }
}
