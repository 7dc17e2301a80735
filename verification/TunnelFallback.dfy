/** Provider fallback: where a reroute sends each tunnel, and how often it can happen. */
module TunnelFallback {
  import opened Types
  import opened Collections
  import opened TunnelModel

  function Without(ps: seq<PeerId>, x: PeerId): (r: seq<PeerId>)
    ensures |r| <= |ps| && forall p :: p in r <==> p in ps && p != x
  {
    if ps == [] then [] else if ps[0] == x then Without(ps[1..], x) else [ps[0]] + Without(ps[1..], x)
  }

  /** How many of the tunnels `specs` are for service `n`. */
  function Asked(specs: seq<Spec>, n: ServiceName): nat {
    if specs == [] then 0
    else Asked(specs[..|specs| - 1], n) + if specs[|specs| - 1].service == n then 1 else 0
  }

  function Drop<T>(xs: seq<T>, k: nat): seq<T> { if k <= |xs| then xs[k..] else [] }

  /** Where tunnel `i` of a reroute should go: the k-th tunnel of a service takes the k-th of the
      service's fallback providers that is not the failed peer, and none once they run out. */
  function TargetOf(specs: seq<Spec>, i: nat, cs: map<ServiceName, seq<PeerId>>, failed: PeerId): Option<PeerId>
    requires i < |specs|
  {
    var usable := Without(Get(cs, specs[i].service), failed);
    var k := Asked(specs[..i], specs[i].service);
    if k < |usable| then Some(usable[k]) else None
  }

  lemma {:induction false} SkipThenWithout(ps: seq<PeerId>, x: PeerId)
    ensures var left := SkipPeer(ps, x);
            Without(ps, x) == if left == [] then [] else [left[0]] + Without(left[1..], x)
  {
    if ps != [] && ps[0] == x { SkipThenWithout(ps[1..], x); }
  }

  lemma PopOne(cs: map<ServiceName, seq<PeerId>>, n: ServiceName, x: PeerId, m: ServiceName)
    ensures var usable := Without(Get(cs, m), x); var (cs', next) := NextFallback(cs, n, x);
            && Without(Get(cs', m), x) == (if n == m then Drop(usable, 1) else usable)
            && (n == m ==> next == if usable == [] then None else Some(usable[0]))
            && |Get(cs', m)| + (if n == m && next.Some? then 1 else 0) <= |Get(cs, m)|
  {
    SkipThenWithout(Get(cs, n), x);
  }

  lemma {:induction false} UsableAfter(r: Reroute, specs: seq<Spec>, failed: PeerId, n: ServiceName)
    ensures Without(Get(RerouteAll(r, specs, failed).q.candidates, n), failed)
            == Drop(Without(Get(r.q.candidates, n), failed), Asked(specs, n))
  {
    hide NextFallback;
    if specs != [] {
      var last := |specs| - 1;
      UsableAfter(r, specs[..last], failed, n);
      PopOne(RerouteAll(r, specs[..last], failed).q.candidates, specs[last].service, failed, n);
    }
  }

  /** The provider the reroute loop picks for tunnel `i` is the one `TargetOf` names. */
  lemma PicksTarget(r: Reroute, specs: seq<Spec>, i: nat, failed: PeerId)
    requires i < |specs|
    ensures NextFallback(RerouteAll(r, specs[..i], failed).q.candidates, specs[i].service, failed).1
            == TargetOf(specs, i, r.q.candidates, failed)
  {
    var n := specs[i].service;
    UsableAfter(r, specs[..i], failed, n);
    PopOne(RerouteAll(r, specs[..i], failed).q.candidates, n, failed, n);
  }

  /** The tunnels of a reroute that go to `p`, in order. */
  function SentTo(specs: seq<Spec>, cs: map<ServiceName, seq<PeerId>>, failed: PeerId, p: PeerId): seq<Spec> {
    if specs == [] then [] else
      var n := |specs| - 1;
      SentTo(specs[..n], cs, failed, p) + if TargetOf(specs, n, cs, failed) == Some(p) then [specs[n]] else []
  }

  /** The tunnels of a reroute that go back to wait for a provider of `n`, in order. */
  function SentBack(specs: seq<Spec>, cs: map<ServiceName, seq<PeerId>>, failed: PeerId,
                    n: ServiceName): seq<ServiceAddr> {
    if specs == [] then [] else
      var k := |specs| - 1;
      SentBack(specs[..k], cs, failed, n)
      + if TargetOf(specs, k, cs, failed) == None && specs[k].service == n then [specs[k].bind] else []
  }

  lemma OneAssigns(r: Reroute, spec: Spec, failed: PeerId, p: PeerId, n: ServiceName)
    ensures var r' := RerouteOne(r, spec, failed);
            var target := NextFallback(r.q.candidates, spec.service, failed).1;
            var sent := target == Some(p);
            var back := target == None && spec.service == n;
            && Get(r'.q.pendingByPeer, p) == Get(r.q.pendingByPeer, p) + (if sent then [spec] else [])
            && Get(r'.q.pendingByService, n) == Get(r.q.pendingByService, n) + (if back then [spec.bind] else [])
            && (p in r'.lookups <==> p in r.lookups || sent)
            && (n in r'.refresh <==> n in r.refresh || back)
  {
    hide NextFallback;
  }

  lemma {:induction false} RerouteAssigns(r: Reroute, specs: seq<Spec>, failed: PeerId, p: PeerId, n: ServiceName)
    ensures var r' := RerouteAll(r, specs, failed); var cs := r.q.candidates;
            && Get(r'.q.pendingByPeer, p) == Get(r.q.pendingByPeer, p) + SentTo(specs, cs, failed, p)
            && Get(r'.q.pendingByService, n) == Get(r.q.pendingByService, n) + SentBack(specs, cs, failed, n)
            && (p in r'.lookups <==> p in r.lookups || SentTo(specs, cs, failed, p) != [])
            && (n in r'.refresh <==> n in r.refresh || SentBack(specs, cs, failed, n) != [])
  {
    hide NextFallback, TargetOf, RerouteOne;
    if specs != [] {
      var last := |specs| - 1;
      RerouteAssigns(r, specs[..last], failed, p, n);
      PicksTarget(r, specs, last, failed);
      OneAssigns(RerouteAll(r, specs[..last], failed), specs[last], failed, p, n);
    }
  }

  /** Whether a dial failure is answered with a reroute. */
  predicate Reroutes(s: Tunnel, p: PeerId, pendingAbort: bool) {
    p in s.q.pendingByPeer && (p !in s.q.awaiting || (!pendingAbort && p !in s.retry.sessions))
  }

  lemma RerouteTaken(s: Tunnel, p: PeerId, pendingAbort: bool, now: Time)
    ensures var o := DialFailed(s, p, pendingAbort, now); var r := RerouteFailed(s.q, p);
            if Reroutes(s, p, pendingAbort)
            then o == Outcome(s.(q := r.q), Lookups(r.lookups) + Queries(r.refresh))
            else o.state.q == s.q
  {
    hide RerouteFailed, RedialCommand, Lookups, Queries;
  }

  /** One reroute, in closed form: every queue gains exactly the tunnels that `TargetOf` assigns to
      it, each new peer is looked up once and each service that ran out is queried once. */
  lemma RerouteIsAssignment(s: Tunnel, failed: PeerId, pendingAbort: bool, now: Time, p: PeerId, n: ServiceName)
    requires Reroutes(s, failed, pendingAbort)
    ensures var o := DialFailed(s, failed, pendingAbort, now);
            var specs, cs := s.q.pendingByPeer[failed], s.q.candidates;
            && Get(o.state.q.pendingByPeer, p)
               == (if p == failed then [] else Get(s.q.pendingByPeer, p)) + SentTo(specs, cs, failed, p)
            && Get(o.state.q.pendingByService, n) == Get(s.q.pendingByService, n) + SentBack(specs, cs, failed, n)
            && o.commands[DhtLookupPeer(p)] == (if SentTo(specs, cs, failed, p) != [] then 1 else 0)
            && o.commands[DhtGetProviders(n)] == (if SentBack(specs, cs, failed, n) != [] then 1 else 0)
            && |o.commands| == |RerouteFailed(s.q, failed).lookups| + |RerouteFailed(s.q, failed).refresh|
  {
    hide DialFailed, RerouteAll, SentTo, SentBack, Lookups, Queries;
    var r := RerouteFailed(s.q, failed);
    RerouteTaken(s, failed, pendingAbort, now);
    RerouteAssigns(Reroute(TakePending(s.q, failed), {}, {}), Get(s.q.pendingByPeer, failed), failed, p, n);
    CountLookups(r.lookups, r.refresh, p, n);
  }

  lemma CountLookups(ps: set<PeerId>, ns: set<ServiceName>, p: PeerId, n: ServiceName)
    ensures var cs := Lookups(ps) + Queries(ns);
            && cs[DhtLookupPeer(p)] == (if p in ps then 1 else 0)
            && cs[DhtGetProviders(n)] == (if n in ns then 1 else 0)
            && |cs| == |ps| + |ns|
  {
    var lookups := set x | x in ps :: DhtLookupPeer(x);
    var queries := set x | x in ns :: DhtGetProviders(x);
    assert DhtLookupPeer(p) !in queries && DhtGetProviders(n) !in lookups;
    assert DhtLookupPeer(p) in lookups <==> p in ps;
    assert DhtGetProviders(n) in queries <==> n in ns;
    LookupSetSize(ps);
    QuerySetSize(ns);
  }

  lemma {:induction false} LookupSetSize(ps: set<PeerId>)
    ensures |set x | x in ps :: DhtLookupPeer(x)| == |ps|
  {
    if ps != {} {
      var p :| p in ps;
      LookupSetSize(ps - {p});
      assert (set x | x in ps :: DhtLookupPeer(x)) == (set x | x in ps - {p} :: DhtLookupPeer(x)) + {DhtLookupPeer(p)};
    }
  }

  lemma {:induction false} QuerySetSize(ns: set<ServiceName>)
    ensures |set x | x in ns :: DhtGetProviders(x)| == |ns|
  {
    if ns != {} {
      var n :| n in ns;
      QuerySetSize(ns - {n});
      assert (set x | x in ns :: DhtGetProviders(x))
          == (set x | x in ns - {n} :: DhtGetProviders(x)) + {DhtGetProviders(n)};
    }
  }

  // ----- distinct providers -----

  lemma {:induction false} WithoutKeepsDistinct(ps: seq<PeerId>, x: PeerId)
    requires NoDuplicates(ps)
    ensures NoDuplicates(Without(ps, x))
  {
    if ps != [] {
      var rest := ps[1..];
      WithoutKeepsDistinct(rest, x);
      var r := Without(ps, x);
      forall i, j | 0 <= i < j < |r| ensures r[i] != r[j] {
        if ps[0] != x {
          assert r[j] in Without(rest, x);
          if i > 0 { assert r[i] == Without(rest, x)[i - 1]; }
        }
      }
    }
  }

  lemma {:induction false} AskedGrows(specs: seq<Spec>, i: nat, j: nat, n: ServiceName)
    requires i < j <= |specs| && specs[i].service == n
    ensures Asked(specs[..i], n) < Asked(specs[..j], n)
  {
    var a := specs[..j];
    assert a[..j - 1] == specs[..j - 1];
    if i < j - 1 { AskedGrows(specs, i, j - 1, n); }
  }

  /** Two tunnels of one service that are rerouted together get different providers, the earlier
      tunnel the earlier provider of the list, and neither is the failed peer. */
  lemma TargetsSpread(specs: seq<Spec>, cs: map<ServiceName, seq<PeerId>>, failed: PeerId, i: nat, j: nat)
    requires i < j < |specs| && specs[i].service == specs[j].service
    requires NoDuplicates(Get(cs, specs[i].service))
    ensures var a, b := TargetOf(specs, i, cs, failed), TargetOf(specs, j, cs, failed);
            && a != Some(failed) && b != Some(failed)
            && (b.Some? ==> a.Some? && a != b)
            && (b.Some? ==> exists k, l :: 0 <= k < l < |Without(Get(cs, specs[i].service), failed)|
                             && Without(Get(cs, specs[i].service), failed)[k] == a.value
                             && Without(Get(cs, specs[i].service), failed)[l] == b.value)
  {
    var n := specs[i].service;
    var usable := Without(Get(cs, n), failed);
    WithoutKeepsDistinct(Get(cs, n), failed);
    AskedGrows(specs, i, j, n);
    assert forall k | 0 <= k < |usable| :: usable[k] in usable;
  }

  ghost predicate DistinctCandidates(s: Tunnel) {
    forall n :: NoDuplicates(Get(s.q.candidates, n))
  }

  lemma SkipIsSuffix(ps: seq<PeerId>, x: PeerId)
    ensures var left := SkipPeer(ps, x); left == ps[|ps| - |left|..]
  {
  }

  lemma RerouteOneKeepsDistinct(r: Reroute, spec: Spec, failed: PeerId, n: ServiceName)
    requires NoDuplicates(Get(r.q.candidates, n))
    ensures NoDuplicates(Get(RerouteOne(r, spec, failed).q.candidates, n))
  {
    SkipIsSuffix(Get(r.q.candidates, spec.service), failed);
  }

  lemma {:induction false} RerouteKeepsDistinct(r: Reroute, specs: seq<Spec>, failed: PeerId, n: ServiceName)
    requires NoDuplicates(Get(r.q.candidates, n))
    ensures NoDuplicates(Get(RerouteAll(r, specs, failed).q.candidates, n))
  {
    hide NoDuplicates, RerouteOne;
    if specs != [] {
      var last := |specs| - 1;
      RerouteKeepsDistinct(r, specs[..last], failed, n);
      RerouteOneKeepsDistinct(RerouteAll(r, specs[..last], failed), specs[last], failed, n);
    }
  }

  /** Only a resolution and a reroute touch the fallback lists. */
  lemma OthersKeepCandidates(s: Tunnel, e: Event, now: Time)
    requires !e.DhtServiceResolved? && !e.TunnelDialFailed?
    ensures Step(s, e, now).state.q.candidates == s.q.candidates
  {
    hide Spawns, InitialLookups, RedialCommand, ClearRetry, SetPhase, ScheduleRetry, BookAfter, RefreshSession;
  }

  lemma {:induction false} ConfiguredHasNoCandidates(c: Config)
    ensures ConfiguredQueues(c).candidates == map[]
    decreases |c.peerTunnels| + |c.serviceTunnels|
  {
    var m, n := |c.peerTunnels|, |c.serviceTunnels|;
    if n > 0 {
      ConfiguredHasNoCandidates(c.(serviceTunnels := c.serviceTunnels[..n - 1]));
    } else if m > 0 {
      ConfiguredHasNoCandidates(c.(peerTunnels := c.peerTunnels[..m - 1]));
    }
  }

  lemma ResolveStores(s: Tunnel, n: ServiceName, providers: seq<(PeerId, bool)>, m: ServiceName)
    ensures var peers := Dedup(PeersOf(providers));
            && (providers != [] ==> peers != [] && NoDuplicates(peers[1..]))
            && Get(ResolveService(s, n, providers).state.q.candidates, m)
               == if n == m && n in s.q.pendingByService && providers != [] then peers[1..] else Get(s.q.candidates, m)
  {
    hide Spawns, Dedup;
    var peers := Dedup(PeersOf(providers));
    if providers != [] {
      assert PeersOf(providers)[0] in peers;
      assert NoDuplicates(peers[1..]);
      DedupDistinct(peers[1..]);
    }
  }

  lemma StepKeepsDistinct(s: Tunnel, e: Event, now: Time, n: ServiceName)
    requires NoDuplicates(Get(s.q.candidates, n))
    ensures NoDuplicates(Get(Step(s, e, now).state.q.candidates, n))
  {
    hide NoDuplicates, DialFailed, ResolveService;
    if e.TunnelDialFailed? {
      hide RerouteAll;
      RerouteTaken(s, e.dialed, e.pendingAbort, now);
      RerouteKeepsDistinct(Reroute(TakePending(s.q, e.dialed), {}, {}), Get(s.q.pendingByPeer, e.dialed), e.dialed, n);
    } else if e.DhtServiceResolved? {
      ResolveStores(s, e.resolved, e.providers, n);
    } else {
      hide Step;
      OthersKeepCandidates(s, e, now);
    }
  }

  lemma {:induction false} RunsKeepDistinct(c: Config, run: seq<Input>)
    ensures DistinctCandidates(StateAfter(Configured(c), run))
  {
    if run == [] {
      ConfiguredHasNoCandidates(c);
    } else {
      var last := |run| - 1;
      var s, e := StateAfter(Configured(c), run[..last]), run[last].event;
      RunsKeepDistinct(c, run[..last]);
      forall n ensures NoDuplicates(Get(StateAfter(Configured(c), run).q.candidates, n)) {
        assert NoDuplicates(Get(s.q.candidates, n));
        StepKeepsDistinct(s, e, run[last].now, n);
      }
    }
  }

  // ----- how often fallback can happen -----

  /** How many tunnels of service `n` a reroute moves to a fallback provider. */
  function Moves(specs: seq<Spec>, cs: map<ServiceName, seq<PeerId>>, failed: PeerId, n: ServiceName): nat {
    if specs == [] then 0 else
      var k := |specs| - 1;
      Moves(specs[..k], cs, failed, n) + if specs[k].service == n && TargetOf(specs, k, cs, failed).Some? then 1 else 0
  }

  lemma {:induction false} MovesSpendCandidates(r: Reroute, specs: seq<Spec>, failed: PeerId, n: ServiceName)
    ensures Moves(specs, r.q.candidates, failed, n) + |Get(RerouteAll(r, specs, failed).q.candidates, n)|
            <= |Get(r.q.candidates, n)|
  {
    hide NextFallback, TargetOf;
    if specs != [] {
      var last := |specs| - 1;
      MovesSpendCandidates(r, specs[..last], failed, n);
      PicksTarget(r, specs, last, failed);
      PopOne(RerouteAll(r, specs[..last], failed).q.candidates, specs[last].service, failed, n);
    }
  }

  /** The tunnels of service `n` that one transition moves to fallback providers. */
  function MovesIn(s: Tunnel, e: Event, n: ServiceName): nat {
    if e.TunnelDialFailed? && Reroutes(s, e.dialed, e.pendingAbort)
    then Moves(s.q.pendingByPeer[e.dialed], s.q.candidates, e.dialed, n) else 0
  }

  /** The fallback providers that one transition stores for service `n`. */
  function SparesIn(s: Tunnel, e: Event, n: ServiceName): nat {
    if e.DhtServiceResolved? && e.resolved == n && n in s.q.pendingByService && e.providers != []
    then |Dedup(PeersOf(e.providers))| - (if Dedup(PeersOf(e.providers)) == [] then 0 else 1) else 0
  }

  function MovesOver(s0: Tunnel, run: seq<Input>, n: ServiceName): nat {
    if run == [] then 0 else
      var last := |run| - 1;
      MovesOver(s0, run[..last], n) + MovesIn(StateAfter(s0, run[..last]), run[last].event, n)
  }

  function SparesOver(s0: Tunnel, run: seq<Input>, n: ServiceName): nat {
    if run == [] then 0 else
      var last := |run| - 1;
      SparesOver(s0, run[..last], n) + SparesIn(StateAfter(s0, run[..last]), run[last].event, n)
  }

  lemma DialFailureSpends(s: Tunnel, p: PeerId, pendingAbort: bool, now: Time, n: ServiceName)
    ensures MovesIn(s, TunnelDialFailed(p, pendingAbort), n)
            + |Get(DialFailed(s, p, pendingAbort, now).state.q.candidates, n)| <= |Get(s.q.candidates, n)|
  {
    hide Moves, DialFailed, RerouteAll;
    RerouteTaken(s, p, pendingAbort, now);
    MovesSpendCandidates(Reroute(TakePending(s.q, p), {}, {}), Get(s.q.pendingByPeer, p), p, n);
  }

  lemma StepSpends(s: Tunnel, e: Event, now: Time, n: ServiceName)
    ensures MovesIn(s, e, n) + |Get(Step(s, e, now).state.q.candidates, n)|
            <= |Get(s.q.candidates, n)| + SparesIn(s, e, n)
  {
    hide Moves, Dedup, DialFailed, ResolveService;
    if e.TunnelDialFailed? {
      DialFailureSpends(s, e.dialed, e.pendingAbort, now, n);
    } else if e.DhtServiceResolved? {
      ResolveStores(s, e.resolved, e.providers, n);
    } else {
      hide Step;
      OthersKeepCandidates(s, e, now);
    }
  }

  lemma {:induction false} RunsSpend(c: Config, run: seq<Input>, n: ServiceName)
    ensures MovesOver(Configured(c), run, n) + |Get(StateAfter(Configured(c), run).q.candidates, n)|
            <= SparesOver(Configured(c), run, n)
  {
    hide MovesIn, SparesIn, Step;
    if run == [] {
      ConfiguredHasNoCandidates(c);
    } else {
      var last := |run| - 1;
      RunsSpend(c, run[..last], n);
      StepSpends(StateAfter(Configured(c), run[..last]), run[last].event, run[last].now, n);
    }
  }

  /** Over every run, the tunnels of a service moved to fallback providers never exceed the
      providers, beyond the first of each list, that its handled resolutions brought. */
  lemma FallbackIsBounded(c: Config, run: seq<Input>, n: ServiceName)
    ensures MovesOver(Configured(c), run, n) <= SparesOver(Configured(c), run, n)
  {
    RunsSpend(c, run, n);
  }
}
