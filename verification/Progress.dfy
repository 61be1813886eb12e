/** Work done is not lost: how long the plan still is when a run has stopped. */
module Progress {
  import opened Text
  import opened PoolNames
  import opened LoadBalancers
  import opened Actions
  import opened Cloud
  import opened Plans
  import opened PoolRuns
  import opened Stages
  import opened WholeRun
  import opened CreateRun
  import opened Convergence
  import opened Goals
  import opened MergedPlan
  import opened Clashing
  import opened Reconciliation
  import opened PlanWork

  // ---------------------------------------------------------------- steps 3 to 5, for all pools

  /** One of the steps 3 to 5, for the pools from `at` on. */
  lemma {:induction false} StepRunWithin(n: nat, ps: seq<Pool>, s: State, at: nat, r: Run)
    requires n < 3 && at <= |ps| && WellFormed(s, r.ids) && JobOk(r.job) && Planned(ps, r) && WellNamed(ps)
    requires AtStage(n + 1, true, ps, s.pools, 0, at, r) && AtStage(n, true, ps, s.pools, at, |ps|, r)
    ensures Within(s, EmittedActions(true, StepPhase(n), ps[at..], r.job), r, Work(s, r.job))
    decreases |ps| - at
  {
    hide WellFormed, Stage, Emitted, SafePool, PoolFinal, PoolOk, Wanted, IsListed, Within, PoolWithin, Work,
         PoolWork, Canonical;
    if at == |ps| {
      WithinNothing(s, r);
    } else {
      var p, q := ps[at], s.pools[at];
      StepReadyHere(s, at, p, r);
      CanonicalNeverClashes(p, r.job);
      PoolStep(n, true, p, q, r, s.nextMember, s.nextObject);
      PoolStepWithin(n, p, q, r, s.nextMember, s.nextObject);
      var actions := Emitted(true, StepPhase(n), p, r.job);
      LiftPoolRun(s, at, actions, r, p.name);
      LiftWithin(s, at, actions, r, p.name, PoolWork(q, r.job));
      var t := Final(s, actions, r);
      assert ps[at..][0] == p && ps[at..][1..] == ps[at + 1..];
      SafeFinal(s, actions, r);
      StepRunWithin(n, ps, t, at + 1, r);
      WithinConcat(s, actions, EmittedActions(true, StepPhase(n), ps[at + 1..], r.job), r);
    }
  }

  lemma CanonicalNeverClashes(p: Pool, job: Job)
    requires Canonical(p.name)
    ensures !Clashes(true, p, job)
  {
    hide Canonical, Wanted, Stale, MemberDeletes, MemberCreates;
  }

  // ---------------------------------------------------------------- steps 6 and 7

  /** Where every pool has a current name, a port has a pool exactly if its name is there. */
  lemma HasPoolForIffNamed(pools: seq<Pool>, sp: ServicePort, job: Job)
    requires JobOk(job) && sp in job.ports && PortOk(sp) && AllNamed(pools, job.ports)
    ensures HasPoolFor(pools, sp, job) <==> HasName(pools, GenPoolName(sp))
  {
    hide GenPoolName, Fields, Wanted, HasName, JobOk, PortOk;
    HasNameMeans(pools, GenPoolName(sp));
    GenPoolNameFields(sp);
    forall i | 0 <= i < |pools|
      ensures Wanted(job.ports, pools[i].name)
      ensures Fields(pools[i].name).port == sp.port <==> pools[i].name == GenPoolName(sp)
    {
      assert IsCurrentName(pools[i].name, job.ports);
      var j :| 0 <= j < |job.ports| && pools[i].name == GenPoolName(job.ports[j]);
      PortOkAt(job, j);
      GenPoolNameFields(job.ports[j]);
      WantedPort(pools[i], job.ports[j], job);
      NamesOfPorts(job.ports[j], sp, job);
    }
  }

  lemma HasListenerForIffTaken(ls: seq<Listener>, sp: ServicePort, job: Job)
    requires AllKept(ls, job.ports)
    ensures HasListenerFor(ls, sp, job) <==> PortTaken(ls, sp.port)
  {
    hide KeepsListener;
  }

  /** A new pool needs no work but its proxy setting. */
  lemma NewPoolWork(q: Pool, sp: ServicePort, job: Job)
    requires JobOk(job) && sp in job.ports && PortOk(sp) && PoolOk(q) && NewFor(q, sp, job)
    ensures PoolWork(q, job) + 1 == CreationWork(job)
  {
    hide GenPoolName, Fields, JobOk, Exact, PortOk, PoolOk, HealthFits, MemberWork, PoolWork;
    NamedPoolWork(q, sp, job);
    ExactNoWork(q, job);
    HealthFitsMeans(q, sp, job);
  }

  lemma CreatedPoolWork(s: State, t: State, at: nat, q: Pool, r: Run)
    requires JobOk(r.job) && at < |r.job.ports| && AllNamed(s.pools, r.job.ports)
    requires PoolOk(q) && NewFor(q, r.job.ports[at], r.job) && !HasName(s.pools, GenPoolName(r.job.ports[at]))
    requires t == s.(pools := s.pools + [q], nextObject := t.nextObject, nextMember := t.nextMember)
    ensures Work(t, r.job) + 1 == Work(s, r.job)
  {
    hide GenPoolName, JobOk, PoolOk, NewFor, HasName, HasPoolFor, HasListenerFor, PoolWork, ListenersWork, PoolsWork,
         PortOk, CreationWork, PortsWork;
    var job, sp := r.job, r.job.ports[at];
    PortOkAt(job, at);
    NewPoolWork(q, sp, job);
    NewForName(q, sp, job);
    PoolsWorkConcat(s.pools, [q], job);
    PoolsWorkOfOne(q, job);
    assert IsCurrentName(q.name, job.ports);
    assert AllNamed(t.pools, job.ports);
    forall n | 0 <= n < |job.ports|
      ensures HasPoolFor(t.pools, job.ports[n], job) <==> HasPoolFor(s.pools, job.ports[n], job) || n == at
      ensures n == at ==> !HasPoolFor(s.pools, job.ports[n], job)
    {
      PortOkAt(job, n);
      HasPoolForIffNamed(s.pools, job.ports[n], job);
      HasPoolForIffNamed(t.pools, job.ports[n], job);
      HasNameAppend(s.pools, q, GenPoolName(job.ports[n]));
      if GenPoolName(job.ports[n]) == GenPoolName(sp) && n != at {
        GenPoolNameInjective(job.ports[n], sp);
        DifferentPorts(job, n, at);
      }
    }
    PortsWorkChange(s, t, job.ports, at, job);
  }

  lemma CreatedListenerWork(s: State, t: State, at: nat, l: Listener, r: Run)
    requires JobOk(r.job) && at < |r.job.ports| && AllKept(s.listeners, r.job.ports)
    requires KeepsListener(l, r.job.ports) && l.port == r.job.ports[at].port && !PortTaken(s.listeners, l.port)
    requires t == s.(listeners := s.listeners + [l], nextObject := t.nextObject)
    ensures Work(t, r.job) + 1 == Work(s, r.job)
  {
    hide JobOk, HasPoolFor, HasListenerFor, PoolsWork, KeepsListener, PortTaken, CreationWork, PortsWork;
    var job := r.job;
    ListenersWorkConcat(s.listeners, [l], job);
    assert ListenersWork([l], job) == 0 by { assert [l][1..] == []; }
    assert AllKept(t.listeners, job.ports);
    forall n | 0 <= n < |job.ports|
      ensures HasListenerFor(t.listeners, job.ports[n], job) <==>
        HasListenerFor(s.listeners, job.ports[n], job) || n == at
      ensures n == at ==> !HasListenerFor(s.listeners, job.ports[n], job)
    {
      HasListenerForIffTaken(s.listeners, job.ports[n], job);
      HasListenerForIffTaken(t.listeners, job.ports[n], job);
      PortTakenAppend(s.listeners, l, job.ports[n].port);
      if n != at {
        DifferentPorts(job, n, at);
      }
    }
    PortsWorkChange(s, t, job.ports, at, job);
  }

  /** Half of one round: the pool. */
  lemma PoolRoundWithin(s: State, base: State, at: nat, marked: seq<Pool>, views: seq<ListenerView>, r: Run)
    requires Creating(s, base, at, marked, views, r) && at < |r.job.ports|
    ensures var sp := r.job.ports[at];
      var actions := if LacksPool(marked, sp) == Ok(true) then [CreatePool(GenPoolName(sp))] else [];
      Within(s, actions, r, Work(s, r.job))
  {
    hide WellFormed, Accepts, Effect, GenPoolName, LacksPool, LacksListener, HasName, NewFor, NewPool, PortTaken, Work,
         Within, PoolOk, FreshPool;
    var ports, sp := r.job.ports, r.job.ports[at];
    if LacksPool(marked, sp) == Ok(true) {
      var a := CreatePool(GenPoolName(sp));
      CreatePoolStep(s, sp, r);
      var t := Effect(s, a, r);
      var q := NewPool(GenPoolName(sp), r, s.nextObject, s.nextMember);
      GoodIdsOf(s, r.ids);
      NewPoolIsNew(sp, r, s.nextObject, s.nextMember);
      CreatedPoolWork(s, t, at, q, r);
      WithinOne(s, a, r);
    } else {
      WithinNothing(s, r);
    }
  }

  /** Half of one round: the listener. */
  lemma ListenerRoundWithin(s: State, at: nat, views: seq<ListenerView>, r: Run)
    requires WellFormed(s, r.ids) && JobOk(r.job) && at < |r.job.ports| && AllKept(s.listeners, r.job.ports)
    requires HasName(s.pools, GenPoolName(r.job.ports[at]))
    requires LacksListener(views, r.job.ports[at]) <==> !PortTaken(s.listeners, r.job.ports[at].port)
    ensures var sp := r.job.ports[at];
      var actions := if LacksListener(views, sp) then [CreateListener(GenPoolName(sp))] else [];
      Within(s, actions, r, Work(s, r.job))
  {
    hide WellFormed, Accepts, Effect, GenPoolName, LacksListener, HasName, PortTaken, KeepsListener, Work,
         Within, AllKept;
    var sp := r.job.ports[at];
    if LacksListener(views, sp) {
      var a := CreateListener(GenPoolName(sp));
      CreateListenerStep(s, sp, r);
      var t := Effect(s, a, r);
      CreatedListenerWork(s, t, at, t.listeners[|s.listeners|], r);
      WithinOne(s, a, r);
    } else {
      WithinNothing(s, r);
    }
  }

  lemma {:induction false} CreatesWithin(s: State, base: State, at: nat, marked: seq<Pool>, views: seq<ListenerView>,
                                         r: Run)
    requires Creating(s, base, at, marked, views, r)
    ensures Within(s, Creates(r.job.ports[at..], marked, views), r, Work(s, r.job))
    decreases |r.job.ports| - at
  {
    hide Creating, WellFormed, Accepts, Effect, GenPoolName, LacksPool, LacksListener, HasName, PortTaken, IsNew,
         AllNamed, AllKept, JobOk, Work, Within;
    CreatingFacts(s, base, at, marked, views, r);
    if at == |r.job.ports| {
      WithinNothing(s, r);
    } else {
      var ports, sp := r.job.ports, r.job.ports[at];
      var a := if LacksPool(marked, sp) == Ok(true) then [CreatePool(GenPoolName(sp))] else [];
      var b := if LacksListener(views, sp) then [CreateListener(GenPoolName(sp))] else [];
      PoolRound(s, base, at, marked, views, r);
      PoolRoundWithin(s, base, at, marked, views, r);
      var u := Final(s, a, r);
      SafeFinal(s, a, r);
      ListenerRound(u, at, views, r);
      ListenerRoundWithin(u, at, views, r);
      var t := Final(u, b, r);
      SafeFinal(u, b, r);
      CreatingNext(s, u, t, base, at, marked, views, r);
      CreatesWithin(t, base, at + 1, marked, views, r);
      WithinConcat(u, b, Creates(ports[at + 1..], marked, views), r);
      WithinConcat(s, a, b + Creates(ports[at + 1..], marked, views), r);
      assert ports[at..][0] == sp && ports[at..][1..] == ports[at + 1..];
      assert a + (b + Creates(ports[at + 1..], marked, views)) == (a + b) + Creates(ports[at + 1..], marked, views);
    }
  }

  // ---------------------------------------------------------------- the whole run

  lemma DeletesWithin(s: State, r: Run)
    requires WellFormed(s, r.ids) && JobOk(r.job)
    ensures Within(s, ListenerDeletes(Views(s), r.job.ports) + PhaseActions(DeletePools, s.pools, r.job), r,
                   Work(s, r.job))
  {
    hide WellFormed, JobOk, Accepts, Effect, Safe, Final, Views, KeepsListener, Work, Within;
    var a, b := ListenerDeletes(Views(s), r.job.ports), PhaseActions(DeletePools, s.pools, r.job);
    var keptL := KeptListeners(s.listeners, r.job.ports);
    assert [] + s.listeners == s.listeners && [] + keptL == keptL;
    DeleteListenersRun(s, [], Views(s), s.listeners, r);
    DeleteListenersWithin(s, [], Views(s), s.listeners, r);
    var t := Final(s, a, r);
    SafeFinal(s, a, r);
    KeptListenersMeans(s.listeners, r.job.ports);
    assert AllKept(keptL, r.job.ports) by {
      forall i | 0 <= i < |keptL| ensures KeepsListener(keptL[i], r.job.ports) { assert keptL[i] in keptL; }
    }
    assert [] + t.pools == t.pools;
    DeletePoolsWithin(t, [], t.pools, r);
    WithinConcat(s, a, b, r);
  }

  lemma StepAllWithin(n: nat, ps: seq<Pool>, s: State, r: Run)
    requires n < 3 && WellFormed(s, r.ids) && JobOk(r.job) && Planned(ps, r) && WellNamed(ps)
    requires AtStage(n, true, ps, s.pools, 0, |ps|, r)
    ensures Within(s, EmittedActions(true, StepPhase(n), ps, r.job), r, Work(s, r.job))
  {
    hide WellFormed, JobOk, Planned, Within, Work, Stage, EmittedActions, WellNamed;
    assert ps[0..] == ps;
    assert AtStage(n + 1, true, ps, s.pools, 0, 0, r);
    StepRunWithin(n, ps, s, 0, r);
  }

  /** Steps 3 and 4. */
  lemma UpdatesWithin(s: State, ps: seq<Pool>, r: Run)
    requires WellFormed(s, r.ids) && JobOk(r.job) && Planned(ps, r) && s.pools == ps && WellNamed(ps)
    ensures Within(s, EmittedActions(true, DeleteMembers, ps, r.job) + EmittedActions(true, UpdatePools, ps, r.job), r,
                   Work(s, r.job))
  {
    hide WellFormed, JobOk, Planned, Safe, Final, AtStage, EmittedActions, Within, Work, WellNamed;
    var a, b := EmittedActions(true, DeleteMembers, ps, r.job), EmittedActions(true, UpdatePools, ps, r.job);
    StageZero(true, ps, r);
    StepRunAll(0, true, ps, s, r);
    StepAllWithin(0, ps, s, r);
    StepAllWithin(1, ps, Final(s, a, r), r);
    WithinConcat(s, a, b, r);
  }

  lemma KeptWellNamed(pools: seq<Pool>, ports: seq<ServicePort>)
    requires WellNamed(pools)
    ensures WellNamed(KeptPools(pools, ports))
  {
    hide Wanted, Canonical;
    var kept := KeptPools(pools, ports);
    KeptPoolsMeans(pools, ports);
    forall i | 0 <= i < |kept| ensures Canonical(kept[i].name) {
      assert kept[i] in pools;
    }
  }

  lemma FourStepsWithin(s: State, r: Run)
    requires WellFormed(s, r.ids) && JobOk(r.job) && ListingOf(s, r) && WellNamed(s.pools)
    ensures Within(s, FourSteps(true, s, r.job), r, Work(s, r.job))
  {
    hide WellFormed, JobOk, ListingOf, Safe, Final, Planned, EmittedActions, PhaseActions, ListenerDeletes, KeptPools,
         KeptListeners, Views, Within, Work, WellNamed;
    var kept := KeptPools(s.pools, r.job.ports);
    var a := ListenerDeletes(Views(s), r.job.ports) + PhaseActions(DeletePools, s.pools, r.job);
    DeletesRun(s, r);
    DeletesWithin(s, r);
    SafeFinal(s, a, r);
    PlannedKept(s, r);
    KeptWellNamed(s.pools, r.job.ports);
    UpdatesWithin(Final(s, a, r), kept, r);
    WithinConcat(s, a,
                 EmittedActions(true, DeleteMembers, kept, r.job) + EmittedActions(true, UpdatePools, kept, r.job), r);
  }

  lemma StepsWithin(s: State, r: Run)
    requires WellFormed(s, r.ids) && JobOk(r.job) && ListingOf(s, r) && WellNamed(s.pools)
    ensures Within(s, Steps(true, s, r.job), r, Work(s, r.job))
  {
    hide WellFormed, JobOk, ListingOf, Safe, Final, AtStage, Planned, EmittedActions, FourSteps, KeptPools, Creating,
         KeptListeners, NoClash, ClashFree, Within, Work, WellNamed, Steps, Creates, Marked, Views;
    var ports, kept := r.job.ports, KeptPools(s.pools, r.job.ports);
    var a, b := FourSteps(true, s, r.job), EmittedActions(true, AddMembers, kept, r.job);
    var c := Creates(ports, Marked(s.pools, ports), Views(s));
    WellNamedNeverClashes(true, s, r.job);
    KeptWellNamed(s.pools, ports);
    FourStepsRun(true, s, r);
    FourStepsWithin(s, r);
    StepAllWithin(2, kept, Final(s, a, r), r);
    WithinConcat(s, a, b, r);
    FirstStepsRun(true, s, r);
    var s5 := Final(s, a + b, r);
    CreatingStart(true, s, s5, r);
    assert ports[0..] == ports;
    CreatesWithin(s5, s5, 0, Marked(s.pools, ports), Views(s), r);
    StepsAreFirstSteps(true, s, r.job);
    WithinConcat(s, a + b, c, r);
  }

  // ---------------------------------------------------------------- the work is the length of the plan

  /** How many service ports have no pool. */
  function Lacking(pools: seq<Pool>, ports: seq<ServicePort>, job: Job): nat {
    if ports == [] then 0 else (if HasPoolFor(pools, ports[0], job) then 0 else 1) + Lacking(pools, ports[1..], job)
  }

  lemma {:induction false} ListenerDeletesLength(views: seq<ListenerView>, ls: seq<Listener>, job: Job)
    requires |views| == |ls| && forall i :: 0 <= i < |ls| ==> views[i].listener == ls[i]
    ensures |ListenerDeletes(views, job.ports)| == ListenersWork(ls, job)
  {
    if ls == [] {
    } else {
      ListenerDeletesLength(views[1..], ls[1..], job);
    }
  }

  lemma KeptPoolLength(p: Pool, job: Job)
    requires JobOk(job) && PoolOk(p) && Canonical(p.name) && Wanted(job.ports, p.name)
    ensures |Emitted(true, DeleteMembers, p, job)| + |Emitted(true, UpdatePools, p, job)|
          + |Emitted(true, AddMembers, p, job)| == PoolWork(p, job)
  {
    hide JobOk, PoolOk, Canonical, Fields, Matches, GenPoolName, HealthFits, Stale, MemberDeletes,
         MemberCreates, SameKey;
    PortForFacts(p, job);
  }

  lemma {:induction false} PoolsLength(pools: seq<Pool>, job: Job)
    requires JobOk(job) && WellNamed(pools) && forall i :: 0 <= i < |pools| ==> PoolOk(pools[i])
    ensures var kept := KeptPools(pools, job.ports);
      |PhaseActions(DeletePools, pools, job)| + |EmittedActions(true, DeleteMembers, kept, job)|
      + |EmittedActions(true, UpdatePools, kept, job)| + |EmittedActions(true, AddMembers, kept, job)|
      == PoolsWork(pools, job)
  {
    hide JobOk, PoolOk, Canonical, Wanted, Emitted, Stale, MemberWork, UpdateWork;
    if pools == [] {
    } else {
      PoolsLength(pools[1..], job);
      if Wanted(job.ports, pools[0].name) {
        KeptPoolLength(pools[0], job);
        assert KeptPools(pools, job.ports)[1..] == KeptPools(pools[1..], job.ports);
      } else {
        assert KeptPools(pools, job.ports) == KeptPools(pools[1..], job.ports);
      }
    }
  }

  lemma PortCreatesLength(s: State, sp: ServicePort, job: Job)
    requires JobOk(job) && PortOk(sp) && sp in job.ports && forall i :: 0 <= i < |s.pools| ==> PoolOk(s.pools[i])
    ensures |PortCreates(sp, Marked(s.pools, job.ports), Views(s))|
         == (if HasPoolFor(s.pools, sp, job) then 0 else 1) + (if HasListenerFor(s.listeners, sp, job) then 0 else 1)
  {
    hide JobOk, PoolOk, PortOk, LacksPool, LacksListener, GenPoolName, Wanted, Fields, KeepsListener;
    LacksPoolMeans(s.pools, sp, job);
    LacksListenerAfterStep1(s, sp, job);
    var kept := KeptListeners(s.listeners, job.ports);
    KeptListenersMeans(s.listeners, job.ports);
    if PortTaken(kept, sp.port) {
      var i :| 0 <= i < |kept| && kept[i].port == sp.port;
      assert kept[i] in s.listeners && KeepsListener(kept[i], job.ports);
    }
    if HasListenerFor(s.listeners, sp, job) {
      var i :| 0 <= i < |s.listeners| && KeepsListener(s.listeners[i], job.ports) && s.listeners[i].port == sp.port;
      assert s.listeners[i] in kept;
    }
  }

  lemma {:induction false} CreatesLength(s: State, ports: seq<ServicePort>, job: Job)
    requires JobOk(job) && forall i :: 0 <= i < |s.pools| ==> PoolOk(s.pools[i])
    requires forall n :: 0 <= n < |ports| ==> ports[n] in job.ports && PortOk(ports[n])
    ensures PortsWork(s, ports, job) == |Creates(ports, Marked(s.pools, job.ports), Views(s))|
                                      + if job.proxyRequested then Lacking(s.pools, ports, job) else 0
    decreases |ports|
  {
    hide JobOk, PoolOk, PortOk, HasPoolFor, HasListenerFor, PortCreates, Marked, Views;
    if ports == [] {
    } else {
      PortCreatesLength(s, ports[0], job);
      CreatesLength(s, ports[1..], job);
    }
  }

  /** The work on a state is the length of its plan, and once more what step 6 creates if the proxy protocol is
      requested: the next plan has to set it. */
  lemma WorkIsLength(s: State, ids: Ids, job: Job)
    requires WellFormed(s, ids) && JobOk(job) && WellNamed(s.pools)
    ensures Work(s, job) == |Updates(true, s, job)|
                          + if job.proxyRequested then Lacking(s.pools, job.ports, job) else 0
  {
    hide WellFormed, JobOk, WellNamed, Updates, ListenerDeletes, PhaseActions, EmittedActions, KeptPools, Creates,
         Marked, Views, PoolOk, ListenersWork, PoolsWork, PortsWork, Lacking, PortOk;
    UpdatesAreSteps(true, s, ids, job);
    PoolsOfWellFormed(s, ids);
    ListenerDeletesLength(Views(s), s.listeners, job);
    PoolsLength(s.pools, job);
    forall n | 0 <= n < |job.ports| ensures PortOk(job.ports[n]) { PortOkAt(job, n); }
    CreatesLength(s, job.ports, job);
  }

  // ---------------------------------------------------------------- progress is kept

  /** Updates that were done stay done: the plan from where a run stopped after `k` updates is shorter by `k` at least,
      except that a created pool needs one more update if the proxy protocol is requested. */
  lemma ProgressIsKept(s: State, k: nat, r: Run)
    requires WellFormed(s, r.ids) && JobOk(r.job) && r.listed == s.pools && WellNamed(s.pools)
    requires k <= |Updates(true, s, r.job)|
    ensures var updates, ports := Updates(true, s, r.job), r.job.ports;
      var stopped := Final(s, updates[..k], r);
      |Updates(true, stopped, r.job)| <= |updates| - k
        + if r.job.proxyRequested then Lacking(s.pools, ports, r.job) - Lacking(stopped.pools, ports, r.job) else 0
  {
    hide WellFormed, JobOk, Updates, Steps, Within, Work, Safe, Final, WellNamed, Lacking, NoClash, Accepts;
    var updates := Updates(true, s, r.job);
    ListingOfItself(s, r);
    UpdatesAreSteps(true, s, r.ids, r.job);
    WellNamedNeverClashes(true, s, r.job);
    RunAcceptedIff(true, s, r);
    StepsWithin(s, r);
    WithinPrefix(s, updates, r, Work(s, r.job), k);
    ResumesAfterFailure(true, s, k, r, r.job);
    WorkIsLength(s, r.ids, r.job);
    WorkIsLength(Final(s, updates[..k], r), r.ids, r.job);
  }

  /** Where a row of attempts ends: each makes its plan anew and fails after so many updates. */
  function Attempts(s: State, ks: seq<nat>, job: Job, ids: Ids): State
    decreases |ks|
  {
    if ks == [] || ks[0] > |Updates(true, s, job)| then s
    else Attempts(Final(s, Updates(true, s, job)[..ks[0]], Run(job, s.pools, ids)), ks[1..], job, ids)
  }

  /** How many updates the attempts have done. */
  function Done(s: State, ks: seq<nat>, job: Job, ids: Ids): nat
    decreases |ks|
  {
    if ks == [] || ks[0] > |Updates(true, s, job)| then 0
    else ks[0] + Done(Final(s, Updates(true, s, job)[..ks[0]], Run(job, s.pools, ids)), ks[1..], job, ids)
  }

  /** However often a pass fails, all attempts together with what is left never do more than the first plan, and one
      update more for each service port that had no pool if the proxy protocol is requested. */
  lemma {:induction false} AttemptsAreBounded(s: State, ks: seq<nat>, job: Job, ids: Ids)
    requires WellFormed(s, ids) && JobOk(job) && WellNamed(s.pools)
    ensures Done(s, ks, job, ids) + |Updates(true, Attempts(s, ks, job, ids), job)|
         <= |Updates(true, s, job)| + if job.proxyRequested then Lacking(s.pools, job.ports, job) else 0
    decreases |ks|
  {
    hide WellFormed, JobOk, Updates, Final, WellNamed, Lacking, Accepts, Safe, Desired;
    if ks == [] || ks[0] > |Updates(true, s, job)| {
    } else {
      var r := Run(job, s.pools, ids);
      ProgressIsKept(s, ks[0], r);
      ResumesAfterFailure(true, s, ks[0], r, job);
      AttemptsAreBounded(Final(s, Updates(true, s, job)[..ks[0]], r), ks[1..], job, ids);
    }
  }
}
