/** Running the whole plan from any well-formed state reaches what the service asks for. */
module Convergence {
  import opened Text
  import opened PoolNames
  import opened LoadBalancers
  import opened Actions
  import opened Cloud
  import opened Plans
  import opened PoolRuns
  import opened Stages
  import opened WholeRun
  import opened CreateRun

  // ---------------------------------------------------------------- what is asked for

  /** The pool is the one for the service port: its name, its members, and the health monitor where it is checked. */
  predicate PoolServes(p: Pool, sp: ServicePort, job: Job) {
    && p.name == GenPoolName(sp)
    && Exact(p.members, job.nodes, sp.nodePort)
    && (job.ChecksHealth() ==> p.health == job.Health(sp.nodePort))
  }

  /** Pool `i` and listener `j`, and no others, serve the service port. */
  predicate Serves(s: State, i: int, j: int, sp: ServicePort, job: Job) {
    && 0 <= i < |s.pools| && 0 <= j < |s.listeners|
    && PoolServes(s.pools[i], sp, job)
    && s.listeners[j].port == sp.port && IsTcp(s.listeners[j].protocol) && s.listeners[j].poolId == s.pools[i].id
    && (forall m :: 0 <= m < |s.pools| && Fields(s.pools[m].name).port == sp.port ==> m == i)
    && (forall m :: 0 <= m < |s.listeners| && s.listeners[m].port == sp.port ==> m == j)
  }

  ghost predicate ServedOnce(s: State, sp: ServicePort, job: Job) {
    exists i, j :: Serves(s, i, j, sp, job)
  }

  /** Exactly one listener and one pool for each service port, and nothing else. */
  ghost predicate Desired(s: State, job: Job) {
    && (forall n :: 0 <= n < |job.ports| ==> ServedOnce(s, job.ports[n], job))
    && AllNamed(s.pools, job.ports)
    && AllKept(s.listeners, job.ports)
  }

  predicate ProxyDone(pools: seq<Pool>, job: Job) {
    forall i :: 0 <= i < |pools| ==> pools[i].proxy == job.Proxy()
  }

  // ---------------------------------------------------------------- where a run ends

  /** The executor's listing is the state the plan was made from. */
  predicate ListingOf(s: State, r: Run) {
    forall i :: 0 <= i < |s.pools| ==> IsListed(s.pools[i], r)
  }

  ghost predicate Reached(merged: bool, s: State, t: State, r: Run) {
    var kept := KeptPools(s.pools, r.job.ports);
    && WellFormed(t, r.ids) && Planned(kept, r) && |kept| <= |t.pools|
    && AtStage(3, merged, kept, t.pools[..|kept|], 0, |kept|, r)
    && (forall i :: |kept| <= i < |t.pools| ==> IsNew(t.pools[i], r.job))
    && AllNamed(t.pools, r.job.ports) && AllKept(t.listeners, r.job.ports)
    && (forall j :: 0 <= j < |r.job.ports| ==>
          HasName(t.pools, GenPoolName(r.job.ports[j])) && PortTaken(t.listeners, r.job.ports[j].port))
  }

  lemma StageName(merged: bool, p: Pool, q: Pool, job: Job)
    requires JobOk(job) && PoolOk(p) && Wanted(job.ports, p.name) && Stage(3, merged, p, q, job)
    ensures var sp := PortFor(p, job); q.name == GenPoolName(sp) && sp in job.ports && PortOk(sp)
  {
    hide MembersAt, Fields, GenPoolName, Stale, Matches, SameKey, HealthFits;
    PortForFacts(p, job);
  }

  /** The scan of step 6 finds a pool exactly when some pool that stays is for the port. */
  lemma {:induction false} LacksPoolMeans(pools: seq<Pool>, sp: ServicePort, job: Job)
    requires JobOk(job) && PortOk(sp) && sp in job.ports
    requires forall i :: 0 <= i < |pools| ==> PoolOk(pools[i])
    ensures LacksPool(Marked(pools, job.ports), sp)
         == Ok(forall i :: 0 <= i < |pools| && Wanted(job.ports, pools[i].name) ==>
           Fields(pools[i].name).port != sp.port)
  {
    hide PoolOk, Fields, GenPoolName, ParsePoolName, Matches, IsTcp, Wanted;
    if pools == [] {
    } else {
      var p, marked := pools[0], Marked(pools, job.ports);
      assert marked[1..] == Marked(pools[1..], job.ports);
      LacksPoolMeans(pools[1..], sp, job);
      GenPoolNameFields(sp);
      MarkerDoesNotParse();
      if Wanted(job.ports, p.name) {
        PortForFacts(p, job);
        ParsesOfPoolOk(p);
        MatchesTcp(sp, Fields(p.name).port, Fields(p.name).protocol);
        TcpFacts();
      }
      assert forall i :: 0 <= i < |pools[1..]| ==> pools[1..][i] == pools[i + 1];
    }
  }

  /** Step 6 asks the listed pools what it could ask the pools as they are after step 5. */
  lemma LacksPoolAfterStep5(merged: bool, pools: seq<Pool>, kept: seq<Pool>, now: seq<Pool>, sp: ServicePort, r: Run)
    requires JobOk(r.job) && PortOk(sp) && sp in r.job.ports
    requires (forall i :: 0 <= i < |pools| ==> PoolOk(pools[i])) && kept == KeptPools(pools, r.job.ports)
    requires Planned(kept, r) && AtStage(3, merged, kept, now, 0, |kept|, r)
    ensures LacksPool(Marked(pools, r.job.ports), sp) == Ok(!HasName(now, GenPoolName(sp)))
  {
    hide PoolOk, Fields, GenPoolName, Wanted, HasName, LacksPool, Stage, IsListed, JobOk;
    LacksPoolMeans(pools, sp, r.job);
    KeptPoolsMeans(pools, r.job.ports);
    HasNameMeans(now, GenPoolName(sp));
    forall i | 0 <= i < |kept| ensures now[i].name == GenPoolName(sp) <==> Fields(kept[i].name).port == sp.port {
      StageName(merged, kept[i], now[i], r.job);
      PortForFacts(kept[i], r.job);
      NamesOfPorts(PortFor(kept[i], r.job), sp, r.job);
    }
    if HasName(now, GenPoolName(sp)) {
      var i :| 0 <= i < |now| && now[i].name == GenPoolName(sp);
      assert kept[i] in pools;
    } else {
      forall i | 0 <= i < |pools| && Wanted(r.job.ports, pools[i].name) ensures Fields(pools[i].name).port != sp.port {
        assert pools[i] in kept;
        var m :| 0 <= m < |kept| && kept[m] == pools[i];
        assert now[m].name != GenPoolName(sp);
      }
    }
  }

  lemma NamesOfPorts(a: ServicePort, b: ServicePort, job: Job)
    requires JobOk(job) && a in job.ports && b in job.ports
    ensures GenPoolName(a) == GenPoolName(b) <==> a.port == b.port
  {
    hide GenPoolName;
    if GenPoolName(a) == GenPoolName(b) {
      GenPoolNameInjective(a, b);
    }
    if a.port == b.port {
      var i :| 0 <= i < |job.ports| && job.ports[i] == a;
      var j :| 0 <= j < |job.ports| && job.ports[j] == b;
      SamePortSameServicePort(job, i, j);
    }
  }

  lemma LacksListenerAfterStep1(s: State, sp: ServicePort, job: Job)
    requires JobOk(job) && PortOk(sp) && sp in job.ports
    ensures LacksListener(Views(s), sp) <==> !PortTaken(KeptListeners(s.listeners, job.ports), sp.port)
  {
    hide Matches, IsTcp;
    var kept := KeptListeners(s.listeners, job.ports);
    KeptListenersMeans(s.listeners, job.ports);
    if PortTaken(kept, sp.port) {
      var i :| 0 <= i < |kept| && kept[i].port == sp.port;
      assert kept[i] in s.listeners;
      var j :| 0 <= j < |s.listeners| && s.listeners[j] == kept[i];
      var m := MatchIndex(job.ports, kept[i].port, kept[i].protocol);
      MatchesTcp(job.ports[m], kept[i].port, kept[i].protocol);
      MatchesTcp(sp, kept[i].port, kept[i].protocol);
      assert Matches(sp, Views(s)[j].listener.port, Views(s)[j].listener.protocol);
    }
    if !LacksListener(Views(s), sp) {
      var j :| 0 <= j < |s.listeners| && Matches(sp, s.listeners[j].port, s.listeners[j].protocol);
      var l := s.listeners[j];
      MatchesTcp(sp, l.port, l.protocol);
      var n :| 0 <= n < |job.ports| && job.ports[n] == sp;
      assert KeepsListener(l, job.ports);
      assert l in kept;
    }
  }

  // ---------------------------------------------------------------- steps 1 to 5

  lemma PlannedKept(s: State, r: Run)
    requires WellFormed(s, r.ids) && ListingOf(s, r)
    ensures Planned(KeptPools(s.pools, r.job.ports), r)
  {
    hide PoolOk, FreshPool, IsListed, Wanted, ListenersOk, RefsOk;
    var kept := KeptPools(s.pools, r.job.ports);
    KeptPoolsMeans(s.pools, r.job.ports);
    forall i | 0 <= i < |kept| ensures PoolOk(kept[i]) && Wanted(r.job.ports, kept[i].name) && IsListed(kept[i], r) {
      assert kept[i] in s.pools;
    }
  }

  lemma StageZero(merged: bool, ps: seq<Pool>, r: Run)
    requires Planned(ps, r)
    ensures AtStage(0, merged, ps, ps, 0, |ps|, r)
  {
    hide Wanted, PoolOk, IsListed;
  }

  /** Steps 1 and 2. */
  lemma DeletesRun(s: State, r: Run)
    requires WellFormed(s, r.ids) && JobOk(r.job)
    ensures var actions := ListenerDeletes(Views(s), r.job.ports) + PhaseActions(DeletePools, s.pools, r.job);
      && Safe(s, actions, r)
      && Final(s, actions, r) == s.(listeners := KeptListeners(s.listeners, r.job.ports),
        pools := KeptPools(s.pools, r.job.ports))
  {
    hide WellFormed, JobOk, Accepts, Effect, Safe, Final, Views, KeepsListener;
    var a, b := ListenerDeletes(Views(s), r.job.ports), PhaseActions(DeletePools, s.pools, r.job);
    var keptL, keptP := KeptListeners(s.listeners, r.job.ports), KeptPools(s.pools, r.job.ports);
    assert [] + s.listeners == s.listeners && [] + keptL == keptL;
    DeleteListenersRun(s, [], Views(s), s.listeners, r);
    var t := Final(s, a, r);
    SafeFinal(s, a, r);
    KeptListenersMeans(s.listeners, r.job.ports);
    assert AllKept(keptL, r.job.ports) by {
      forall i | 0 <= i < |keptL| ensures KeepsListener(keptL[i], r.job.ports) { assert keptL[i] in keptL; }
    }
    assert [] + t.pools == t.pools && [] + keptP == keptP;
    DeletePoolsRun(t, [], t.pools, r);
    SafeConcat(s, a, b, r);
  }

  /** One of the steps 3 to 5, over all pools that stay. */
  lemma StepRunAll(n: nat, merged: bool, ps: seq<Pool>, s: State, r: Run)
    requires n < 3 && WellFormed(s, r.ids) && JobOk(r.job) && Planned(ps, r)
      && AtStage(n, merged, ps, s.pools, 0, |ps|, r)
    requires n == 2 ==> ClashFree(merged, ps, 0, |ps|, r.job)
    ensures var actions := EmittedActions(merged, StepPhase(n), ps, r.job);
      var t := Final(s, actions, r);
      && Safe(s, actions, r) && WellFormed(t, r.ids)
      && t == s.(pools := t.pools, nextMember := t.nextMember)
      && AtStage(n + 1, merged, ps, t.pools, 0, |ps|, r)
  {
    hide WellFormed, JobOk, Planned, Safe, Final, Stage, EmittedActions, ClashFree;
    assert ps[0..|ps|] == ps;
    assert AtStage(n + 1, merged, ps, s.pools, 0, 0, r);
    StepRun(n, merged, ps, s, 0, |ps|, r);
    SafeFinal(s, EmittedActions(merged, StepPhase(n), ps, r.job), r);
  }

  /** Steps 3 and 4. */
  lemma UpdatesRun(merged: bool, s: State, ps: seq<Pool>, r: Run)
    requires WellFormed(s, r.ids) && JobOk(r.job) && Planned(ps, r) && s.pools == ps
    ensures var actions := EmittedActions(merged, DeleteMembers, ps, r.job)
      + EmittedActions(merged, UpdatePools, ps, r.job);
      var t := Final(s, actions, r);
      && Safe(s, actions, r) && WellFormed(t, r.ids) && t == s.(pools := t.pools, nextMember := t.nextMember)
      && AtStage(2, merged, ps, t.pools, 0, |ps|, r)
  {
    hide WellFormed, JobOk, Planned, Safe, Final, AtStage, EmittedActions;
    var a, b := EmittedActions(merged, DeleteMembers, ps, r.job), EmittedActions(merged, UpdatePools, ps, r.job);
    StageZero(merged, ps, r);
    StepRunAll(0, merged, ps, s, r);
    var s1 := Final(s, a, r);
    StepRunAll(1, merged, ps, s1, r);
    SafeConcat(s, a, b, r);
  }

  lemma AllNamedAfterStep5(merged: bool, kept: seq<Pool>, now: seq<Pool>, r: Run)
    requires JobOk(r.job) && Planned(kept, r) && AtStage(3, merged, kept, now, 0, |kept|, r)
    ensures AllNamed(now, r.job.ports)
  {
    hide JobOk, Stage, GenPoolName, PoolOk, Wanted, IsListed;
    forall i | 0 <= i < |now| ensures IsCurrentName(now[i].name, r.job.ports) {
      StageName(merged, kept[i], now[i], r.job);
      var sp := PortFor(kept[i], r.job);
      var j :| 0 <= j < |r.job.ports| && r.job.ports[j] == sp;
      assert now[i].name == GenPoolName(r.job.ports[j]);
    }
  }

  lemma CreatingStart(merged: bool, s: State, t: State, r: Run)
    requires WellFormed(s, r.ids) && WellFormed(t, r.ids) && JobOk(r.job)
    requires var kept := KeptPools(s.pools, r.job.ports);
      Planned(kept, r) && AtStage(3, merged, kept, t.pools, 0, |kept|, r)
    requires t.listeners == KeptListeners(s.listeners, r.job.ports)
    ensures Creating(t, t, 0, Marked(s.pools, r.job.ports), Views(s), r)
  {
    hide WellFormed, Stage, GenPoolName, Wanted, IsListed, PoolOk, KeepsListener, LacksPool, LacksListener, HasName,
         PortTaken, AllNamed, Planned, AtStage;
    var ports, kept := r.job.ports, KeptPools(s.pools, r.job.ports);
    AllNamedAfterStep5(merged, kept, t.pools, r);
    KeptListenersMeans(s.listeners, ports);
    assert AllKept(t.listeners, ports) by {
      forall i | 0 <= i < |t.listeners| ensures KeepsListener(t.listeners[i], ports) {
        assert t.listeners[i] in t.listeners;
      }
    }
    PoolsOfWellFormed(s, r.ids);
    forall j | 0 <= j < |ports|
      ensures LacksPool(Marked(s.pools, ports), ports[j]) == Ok(!HasName(t.pools, GenPoolName(ports[j])))
      ensures LacksListener(Views(s), ports[j]) <==> !PortTaken(t.listeners, ports[j].port)
    {
      LacksPoolAfterStep5(merged, s.pools, kept, t.pools, ports[j], r);
      LacksListenerAfterStep1(s, ports[j], r.job);
    }
  }

  lemma PoolsOfWellFormed(s: State, ids: Ids)
    requires WellFormed(s, ids)
    ensures forall i :: 0 <= i < |s.pools| ==> PoolOk(s.pools[i])
  {
  }

  // ---------------------------------------------------------------- the whole run

  lemma ReachedAtEnd(merged: bool, s: State, base: State, t: State, r: Run)
    requires JobOk(r.job)
    requires var kept := KeptPools(s.pools, r.job.ports);
      Planned(kept, r) && AtStage(3, merged, kept, base.pools, 0, |kept|, r)
    requires Creating(t, base, |r.job.ports|, Marked(s.pools, r.job.ports), Views(s), r)
    ensures Reached(merged, s, t, r)
  {
    hide WellFormed, Stage, GenPoolName, Planned, PoolOk, Wanted, IsListed, HasName, PortTaken, AllNamed, AllKept,
         IsNew, LacksPool, LacksListener, JobOk;
    var kept := KeptPools(s.pools, r.job.ports);
    assert t.pools[..|kept|] == base.pools;
  }

  /** Steps 1 to 4, with or without coalescing. */
  function FourSteps(merged: bool, s: State, job: Job): seq<Action> {
    var kept := KeptPools(s.pools, job.ports);
    ListenerDeletes(Views(s), job.ports) + PhaseActions(DeletePools, s.pools, job)
    + (EmittedActions(merged, DeleteMembers, kept, job) + EmittedActions(merged, UpdatePools, kept, job))
  }

  /** Steps 1 to 5, with or without coalescing. */
  function FirstSteps(merged: bool, s: State, job: Job): seq<Action> {
    FourSteps(merged, s, job) + EmittedActions(merged, AddMembers, KeptPools(s.pools, job.ports), job)
  }

  /** Steps 1 to 4 run through from every well-formed state. */
  lemma FourStepsRun(merged: bool, s: State, r: Run)
    requires WellFormed(s, r.ids) && JobOk(r.job) && ListingOf(s, r)
    ensures var actions := FourSteps(merged, s, r.job);
      var t := Final(s, actions, r); var kept := KeptPools(s.pools, r.job.ports);
      && Safe(s, actions, r) && WellFormed(t, r.ids)
      && t.listeners == KeptListeners(s.listeners, r.job.ports) && t.nextObject == s.nextObject
      && Planned(kept, r) && AtStage(2, merged, kept, t.pools, 0, |kept|, r)
  {
    hide WellFormed, JobOk, ListingOf, Safe, Final, AtStage, Planned, EmittedActions, PhaseActions, ListenerDeletes,
         KeptPools, KeptListeners, Marked, Views;
    var ports, kept := r.job.ports, KeptPools(s.pools, r.job.ports);
    var a := ListenerDeletes(Views(s), ports) + PhaseActions(DeletePools, s.pools, r.job);
    DeletesRun(s, r);
    SafeFinal(s, a, r);
    PlannedKept(s, r);
    var b := EmittedActions(merged, DeleteMembers, kept, r.job) + EmittedActions(merged, UpdatePools, kept, r.job);
    UpdatesRun(merged, Final(s, a, r), kept, r);
    SafeConcat(s, a, b, r);
  }

  /** No pool has a member creation that clashes with its replacement. */
  predicate NoClash(merged: bool, s: State, job: Job) {
    ClashFree(merged, s.pools, 0, |s.pools|, job)
  }

  lemma KeptClashFree(merged: bool, s: State, job: Job)
    ensures NoClash(merged, s, job) <==>
      ClashFree(merged, KeptPools(s.pools, job.ports), 0, |KeptPools(s.pools, job.ports)|, job)
  {
    hide Wanted, Stale, Canonical, MemberDeletes, MemberCreates;
    var kept := KeptPools(s.pools, job.ports);
    KeptPoolsMeans(s.pools, job.ports);
    if NoClash(merged, s, job) {
      forall i | 0 <= i < |kept| ensures !Clashes(merged, kept[i], job) {
        assert kept[i] in s.pools;
        var j :| 0 <= j < |s.pools| && s.pools[j] == kept[i];
      }
    }
    if ClashFree(merged, kept, 0, |kept|, job) {
      forall i | 0 <= i < |s.pools| ensures !Clashes(merged, s.pools[i], job) {
        if Wanted(job.ports, s.pools[i].name) {
          assert s.pools[i] in kept;
          var j :| 0 <= j < |kept| && kept[j] == s.pools[i];
        }
      }
    }
  }

  lemma FirstStepsRun(merged: bool, s: State, r: Run)
    requires WellFormed(s, r.ids) && JobOk(r.job) && ListingOf(s, r) && NoClash(merged, s, r.job)
    ensures var actions := FirstSteps(merged, s, r.job);
      var t := Final(s, actions, r); var kept := KeptPools(s.pools, r.job.ports);
      && Safe(s, actions, r) && WellFormed(t, r.ids)
      && t.listeners == KeptListeners(s.listeners, r.job.ports) && t.nextObject == s.nextObject
      && Planned(kept, r) && AtStage(3, merged, kept, t.pools, 0, |kept|, r)
  {
    hide WellFormed, JobOk, ListingOf, Safe, Final, AtStage, Planned, EmittedActions, FourSteps, KeptPools,
         KeptListeners, NoClash, ClashFree;
    var kept := KeptPools(s.pools, r.job.ports);
    var a, b := FourSteps(merged, s, r.job), EmittedActions(merged, AddMembers, kept, r.job);
    FourStepsRun(merged, s, r);
    KeptClashFree(merged, s, r.job);
    StepRunAll(2, merged, kept, Final(s, a, r), r);
    SafeConcat(s, a, b, r);
  }

  lemma StepsAreFirstSteps(merged: bool, s: State, job: Job)
    ensures Steps(merged, s, job) == FourSteps(merged, s, job)
      + EmittedActions(merged, AddMembers, KeptPools(s.pools, job.ports), job)
      + Creates(job.ports, Marked(s.pools, job.ports), Views(s))
    ensures Steps(merged, s, job)
      == FirstSteps(merged, s, job) + Creates(job.ports, Marked(s.pools, job.ports), Views(s))
  {
    hide EmittedActions, PhaseActions, ListenerDeletes, Creates, KeptPools, Marked, Views;
  }

  /** The run of steps 1 to 7, or 1 to 8: no action is refused, every state on the way is well-formed. */
  lemma StepsRun(merged: bool, s: State, r: Run)
    requires WellFormed(s, r.ids) && JobOk(r.job) && ListingOf(s, r) && NoClash(merged, s, r.job)
    ensures var actions := Steps(merged, s, r.job);
      var creates := Creates(r.job.ports, Marked(s.pools, r.job.ports), Views(s));
      && Safe(s, actions, r) && Reached(merged, s, Final(s, actions, r), r)
      && Final(s, actions, r) == Final(Final(s, FirstSteps(merged, s, r.job), r), creates, r)
  {
    hide WellFormed, JobOk, ListingOf, Safe, Final, AtStage, Planned, Creating, Reached, FirstSteps, Steps, NoClash,
         Creates, KeptPools, KeptListeners, Marked, Views;
    var ports := r.job.ports;
    var a, c := FirstSteps(merged, s, r.job), Creates(ports, Marked(s.pools, ports), Views(s));
    FirstStepsRun(merged, s, r);
    var s5 := Final(s, a, r);
    CreatingStart(merged, s, s5, r);
    assert ports[0..] == ports;
    CreatesRun(s5, s5, 0, Marked(s.pools, ports), Views(s), r);
    ReachedAtEnd(merged, s, s5, Final(s5, c, r), r);
    StepsAreFirstSteps(merged, s, r.job);
    SafeConcat(s, a, c, r);
  }
}
