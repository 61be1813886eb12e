/** The run of a whole plan, step after step: every action is accepted, and what the state looks like in the end. */
module WholeRun {
  import opened Text
  import opened PoolNames
  import opened LoadBalancers
  import opened Actions
  import opened Cloud
  import opened Plans
  import opened PoolRuns
  import opened Stages

  // ---------------------------------------------------------------- the plan, with or without coalescing

  function EmittedActions(merged: bool, phase: Phase, pools: seq<Pool>, job: Job): seq<Action> {
    if pools == [] then [] else Emitted(merged, phase, pools[0], job) + EmittedActions(merged, phase, pools[1..], job)
  }

  function KeptPools(pools: seq<Pool>, ports: seq<ServicePort>): seq<Pool> {
    if pools == [] then []
    else (if Wanted(ports, pools[0].name) then [pools[0]] else []) + KeptPools(pools[1..], ports)
  }

  predicate KeepsListener(l: Listener, ports: seq<ServicePort>) {
    MatchIndex(ports, l.port, l.protocol) < |ports|
  }

  function KeptListeners(ls: seq<Listener>, ports: seq<ServicePort>): seq<Listener> {
    if ls == [] then []
    else (if KeepsListener(ls[0], ports) then [ls[0]] else []) + KeptListeners(ls[1..], ports)
  }

  /** Steps 1 to 7, or steps 1 to 8: the pools that stay are all that steps 3 to 5 look at. */
  function Steps(merged: bool, s: State, job: Job): seq<Action> {
    var kept := KeptPools(s.pools, job.ports);
    ListenerDeletes(Views(s), job.ports)
    + PhaseActions(DeletePools, s.pools, job)
    + EmittedActions(merged, DeleteMembers, kept, job)
    + EmittedActions(merged, UpdatePools, kept, job)
    + EmittedActions(merged, AddMembers, kept, job)
    + Creates(job.ports, Marked(s.pools, job.ports), Views(s))
  }

  lemma {:induction false} KeptPoolsMeans(pools: seq<Pool>, ports: seq<ServicePort>)
    ensures forall p :: p in KeptPools(pools, ports) <==> p in pools && Wanted(ports, p.name)
  {
    hide Wanted;
    if pools == [] {
    } else {
      KeptPoolsMeans(pools[1..], ports);
      assert pools == [pools[0]] + pools[1..];
    }
  }

  lemma {:induction false} KeptListenersMeans(ls: seq<Listener>, ports: seq<ServicePort>)
    ensures forall l :: l in KeptListeners(ls, ports) <==> l in ls && KeepsListener(l, ports)
  {
    hide KeepsListener;
    if ls == [] {
    } else {
      KeptListenersMeans(ls[1..], ports);
      assert ls == [ls[0]] + ls[1..];
    }
  }

  /** Marked pools are passed over by steps 3 to 5. */
  lemma {:induction false} MarkedPoolsPassedOver(phase: Phase, pools: seq<Pool>, marked: seq<Pool>, job: Job)
    requires phase != DeletePools && marked == Marked(pools, job.ports)
    ensures PhaseActions(phase, marked, job) == EmittedActions(false, phase, KeptPools(pools, job.ports), job)
  {
    hide Wanted, PoolActions;
    if pools == [] {
    } else {
      assert marked[1..] == Marked(pools[1..], job.ports);
      MarkedPoolsPassedOver(phase, pools[1..], marked[1..], job);
      if Wanted(job.ports, pools[0].name) {
        assert KeptPools(pools, job.ports)[0] == pools[0];
        assert KeptPools(pools, job.ports)[1..] == KeptPools(pools[1..], job.ports);
      } else {
        MarkedPoolGetsNothing(phase, pools[0].(name := POOL_TO_BE_DELETED), job);
        assert KeptPools(pools, job.ports) == KeptPools(pools[1..], job.ports);
      }
    }
  }

  lemma MarkedPoolGetsNothing(phase: Phase, p: Pool, job: Job)
    requires phase != DeletePools && p.name == POOL_TO_BE_DELETED
    ensures PoolActions(phase, p, job) == []
  {
  }

  lemma PlanIsSteps(s: State, job: Job)
    ensures PlanFor(s, job) == Steps(false, s, job)
  {
    hide PhaseActions, EmittedActions, ListenerDeletes, Creates, Marked, KeptPools;
    var marked := Marked(s.pools, job.ports);
    MarkedPoolsPassedOver(DeleteMembers, s.pools, marked, job);
    MarkedPoolsPassedOver(UpdatePools, s.pools, marked, job);
    MarkedPoolsPassedOver(AddMembers, s.pools, marked, job);
  }

  // ---------------------------------------------------------------- step 1

  lemma ListenerIndexIs(ls: seq<Listener>, i: nat)
    requires i < |ls| && DistinctListeners(ls)
    ensures ListenerIndex(ls, ls[i].id) == i
  {
  }

  lemma {:induction false} DeleteListenersRun(s: State, kept: seq<Listener>, views: seq<ListenerView>,
                                              ls: seq<Listener>, r: Run)
    requires WellFormed(s, r.ids) && s.listeners == kept + ls
    requires |views| == |ls| && forall i :: 0 <= i < |ls| ==> views[i].listener == ls[i]
    ensures var actions := ListenerDeletes(views, r.job.ports);
      && Safe(s, actions, r)
      && Final(s, actions, r) == s.(listeners := kept + KeptListeners(ls, r.job.ports))
    decreases |ls|
  {
    hide WellFormed, Accepts, Effect;
    var ports := r.job.ports;
    if ls == [] {
    } else if KeepsListener(ls[0], ports) {
      assert kept + ls == (kept + [ls[0]]) + ls[1..];
      DeleteListenersRun(s, kept + [ls[0]], views[1..], ls[1..], r);
      assert (kept + [ls[0]]) + KeptListeners(ls[1..], ports) == kept + KeptListeners(ls, ports);
      assert ListenerDeletes(views, ports) == ListenerDeletes(views[1..], ports);
    } else {
      var name := if views[0].poolName == "" then "unknown" else views[0].poolName;
      var a := DeleteListener(name, ls[0].id);
      DeleteListenerStep(s, kept, ls, name, r);
      var t := Effect(s, a, r);
      DeleteListenersRun(t, kept, views[1..], ls[1..], r);
      SafeOne(s, a, r);
      SafeConcat(s, [a], ListenerDeletes(views[1..], ports), r);
      assert KeptListeners(ls, ports) == KeptListeners(ls[1..], ports);
    }
  }

  lemma DeleteListenerStep(s: State, kept: seq<Listener>, ls: seq<Listener>, name: string, r: Run)
    requires WellFormed(s, r.ids) && s.listeners == kept + ls && ls != []
    ensures var a := DeleteListener(name, ls[0].id);
      && Accepts(s, a, r) && Effect(s, a, r) == s.(listeners := kept + ls[1..])
      && WellFormed(Effect(s, a, r), r.ids)
  {
    hide PoolsOk, RefsOk;
    assert s.listeners[|kept|] == ls[0];
    ListenerIndexIs(s.listeners, |kept|);
    assert s.listeners[..|kept|] + s.listeners[|kept| + 1..] == kept + ls[1..];
    DeleteListenerKeepsWellFormed(s, |kept|, r.ids);
  }

  // ---------------------------------------------------------------- step 2

  predicate AllKept(ls: seq<Listener>, ports: seq<ServicePort>) {
    forall i :: 0 <= i < |ls| ==> KeepsListener(ls[i], ports)
  }

  /** Rule 1: once step 1 is done, no listener uses a pool that step 2 deletes. */
  lemma UnwantedPoolIsFree(s: State, i: nat, r: Run)
    requires WellFormed(s, r.ids) && JobOk(r.job) && AllKept(s.listeners, r.job.ports)
    requires i < |s.pools| && !Wanted(r.job.ports, s.pools[i].name)
    ensures !InUse(s.listeners, s.pools[i].id)
  {
    hide Fields, IsTcp, Matches, PoolOk, FreshPool, EqualFold, SameKey;
    forall n | 0 <= n < |s.listeners| ensures s.listeners[n].poolId != s.pools[i].id {
      var l := s.listeners[n];
      assert KeepsListener(l, r.job.ports) && Refers(l, s.pools);
      var m := MatchIndex(r.job.ports, l.port, l.protocol);
      MatchesTcp(r.job.ports[m], l.port, l.protocol);
      var j :| 0 <= j < |s.pools| && s.pools[j].id == l.poolId && Fields(s.pools[j].name).protocol == TCP
               && Fields(s.pools[j].name).port == l.port;
      MatchesTcp(r.job.ports[m], l.port, TCP);
      TcpFacts();
      assert Matches(r.job.ports[m], Fields(s.pools[j].name).port, Fields(s.pools[j].name).protocol);
      assert Wanted(r.job.ports, s.pools[j].name);
    }
  }

  lemma DeletePoolStep(s: State, kept: seq<Pool>, rest: seq<Pool>, r: Run)
    requires WellFormed(s, r.ids) && JobOk(r.job) && AllKept(s.listeners, r.job.ports)
    requires s.pools == kept + rest && rest != [] && !Wanted(r.job.ports, rest[0].name)
    ensures var a := DeletePool(rest[0].name, rest[0].id);
      && Accepts(s, a, r) && Effect(s, a, r) == s.(pools := kept + rest[1..])
      && WellFormed(Effect(s, a, r), r.ids)
  {
    hide Wanted, AllKept, JobOk, InUse, PoolOk, FreshPool, SameKey, ListenersOk, RefsOk;
    assert s.pools[|kept|] == rest[0];
    PoolIndexIs(s.pools, |kept|);
    UnwantedPoolIsFree(s, |kept|, r);
    assert s.pools[..|kept|] + s.pools[|kept| + 1..] == kept + rest[1..];
    DeletePoolKeepsWellFormed(s, |kept|, r.ids);
  }

  lemma {:induction false} DeletePoolsRun(s: State, kept: seq<Pool>, rest: seq<Pool>, r: Run)
    requires WellFormed(s, r.ids) && JobOk(r.job) && AllKept(s.listeners, r.job.ports)
    requires s.pools == kept + rest
    ensures var actions := PhaseActions(DeletePools, rest, r.job);
      && Safe(s, actions, r)
      && Final(s, actions, r) == s.(pools := kept + KeptPools(rest, r.job.ports))
    decreases |rest|
  {
    hide WellFormed, JobOk, AllKept, Accepts, Effect, Wanted;
    if rest == [] {
    } else if Wanted(r.job.ports, rest[0].name) {
      assert kept + rest == (kept + [rest[0]]) + rest[1..];
      DeletePoolsRun(s, kept + [rest[0]], rest[1..], r);
      assert (kept + [rest[0]]) + KeptPools(rest[1..], r.job.ports) == kept + KeptPools(rest, r.job.ports);
      assert PhaseActions(DeletePools, rest, r.job) == PhaseActions(DeletePools, rest[1..], r.job);
    } else {
      var a := DeletePool(rest[0].name, rest[0].id);
      DeletePoolStep(s, kept, rest, r);
      DeletePoolsRun(Effect(s, a, r), kept, rest[1..], r);
      SafeOne(s, a, r);
      SafeConcat(s, [a], PhaseActions(DeletePools, rest[1..], r.job), r);
      assert KeptPools(rest, r.job.ports) == KeptPools(rest[1..], r.job.ports);
    }
  }

  // ---------------------------------------------------------------- steps 3 to 5

  /** The pools that stay, as they were listed. */
  ghost predicate Planned(ps: seq<Pool>, r: Run) {
    forall i :: 0 <= i < |ps| ==> PoolOk(ps[i]) && Wanted(r.job.ports, ps[i].name) && IsListed(ps[i], r)
  }

  ghost predicate AtStage(n: nat, merged: bool, ps: seq<Pool>, pools: seq<Pool>, lo: nat, hi: nat, r: Run)
    requires Planned(ps, r)
  {
    && |pools| == |ps| && lo <= hi <= |ps|
    && forall i :: lo <= i < hi ==> Stage(n, merged, ps[i], pools[i], r.job)
  }

  /** None of the pools from `lo` to `hi` has a member creation that clashes with its replacement. */
  predicate ClashFree(merged: bool, ps: seq<Pool>, lo: nat, hi: nat, job: Job) {
    forall i :: lo <= i < hi && i < |ps| ==> !Clashes(merged, ps[i], job)
  }

  /** One of the steps 3 to 5, for the pools from `at` to `hi`. */
  lemma {:induction false} StepRun(n: nat, merged: bool, ps: seq<Pool>, s: State, at: nat, hi: nat, r: Run)
    requires n < 3 && at <= hi <= |ps| && WellFormed(s, r.ids) && JobOk(r.job) && Planned(ps, r)
    requires AtStage(n + 1, merged, ps, s.pools, 0, at, r) && AtStage(n, merged, ps, s.pools, at, |ps|, r)
    requires n == 2 ==> ClashFree(merged, ps, at, hi, r.job)
    ensures var actions := EmittedActions(merged, StepPhase(n), ps[at..hi], r.job);
      var t := Final(s, actions, r);
      && Safe(s, actions, r)
      && t == s.(pools := t.pools, nextMember := t.nextMember)
      && AtStage(n + 1, merged, ps, t.pools, 0, hi, r) && AtStage(n, merged, ps, t.pools, hi, |ps|, r)
    decreases hi - at
  {
    hide WellFormed, Stage, Emitted, SafePool, PoolFinal, PoolOk, Wanted, IsListed, Clashes;
    if at == hi {
    } else {
      var p, q := ps[at], s.pools[at];
      StepReadyHere(s, at, p, r);
      PoolStep(n, merged, p, q, r, s.nextMember, s.nextObject);
      var actions := Emitted(merged, StepPhase(n), p, r.job);
      LiftPoolRun(s, at, actions, r, p.name);
      var t := Final(s, actions, r);
      assert ps[at..hi][0] == p && ps[at..hi][1..] == ps[at + 1..hi];
      SafeFinal(s, actions, r);
      StepRun(n, merged, ps, t, at + 1, hi, r);
      SafeConcat(s, actions, EmittedActions(merged, StepPhase(n), ps[at + 1..hi], r.job), r);
    }
  }

  lemma StepReadyHere(s: State, at: nat, p: Pool, r: Run)
    requires WellFormed(s, r.ids) && JobOk(r.job) && at < |s.pools|
    requires PoolOk(p) && Wanted(r.job.ports, p.name) && IsListed(p, r)
    ensures StepReady(p, s.pools[at], r, s.nextMember, s.nextObject)
  {
  }

  lemma SafeFinal(s: State, actions: seq<Action>, r: Run)
    requires Safe(s, actions, r)
    ensures WellFormed(Final(s, actions, r), r.ids)
  {
    assert actions[..|actions|] == actions;
    hide WellFormed, Accepts, Effect;
    SafePrefix(s, actions, |actions|, r);
  }
}
