/** How many updates a state calls for, and that every update of a run lowers the number. */
module PlanWork {
  import opened Text
  import opened PoolNames
  import opened LoadBalancers
  import opened Actions
  import opened Cloud
  import opened Plans
  import opened PoolRuns
  import opened Stages
  import opened WholeRun
  import opened CreateRun
  import opened Convergence
  import opened Goals
  import opened MergedPlan
  import opened Clashing
  import opened Reconciliation

  // ---------------------------------------------------------------- the work a state calls for

  /** One operation on members if any member is missing or unwanted: step 8 leaves no more. */
  function MemberWork(p: Pool, job: Job): nat {
    if MemberDeletes(p, p.members, job) == [] && MemberCreates(p, job.nodes) == [] then 0 else 1
  }

  function UpdateWork(p: Pool, job: Job): nat
    requires Wanted(job.ports, p.name)
  {
    if NeedsUpdate(p, PortFor(p, job), job) then 1 else 0
  }

  /** The updates that concern one pool with a canonical name. */
  function PoolWork(p: Pool, job: Job): nat {
    if !Wanted(job.ports, p.name) then 1
    else if Stale(job.ports, p.name) then 2
    else MemberWork(p, job) + UpdateWork(p, job)
  }

  function PoolsWork(pools: seq<Pool>, job: Job): nat {
    if pools == [] then 0 else PoolWork(pools[0], job) + PoolsWork(pools[1..], job)
  }

  function ListenersWork(ls: seq<Listener>, job: Job): nat {
    if ls == [] then 0 else (if KeepsListener(ls[0], job.ports) then 0 else 1) + ListenersWork(ls[1..], job)
  }

  predicate HasListenerFor(ls: seq<Listener>, sp: ServicePort, job: Job) {
    exists i :: 0 <= i < |ls| && KeepsListener(ls[i], job.ports) && ls[i].port == sp.port
  }

  /** A pool that is created does not have the requested proxy setting yet: it costs another update. */
  function CreationWork(job: Job): nat {
    if job.proxyRequested then 2 else 1
  }

  function PortWork(s: State, sp: ServicePort, job: Job): nat {
    (if HasPoolFor(s.pools, sp, job) then 0 else CreationWork(job))
    + (if HasListenerFor(s.listeners, sp, job) then 0 else 1)
  }

  function PortsWork(s: State, ports: seq<ServicePort>, job: Job): nat {
    if ports == [] then 0 else PortWork(s, ports[0], job) + PortsWork(s, ports[1..], job)
  }

  function Work(s: State, job: Job): nat {
    ListenersWork(s.listeners, job) + PoolsWork(s.pools, job) + PortsWork(s, job.ports, job)
  }

  // ---------------------------------------------------------------- sums

  lemma {:induction false} PoolsWorkConcat(a: seq<Pool>, b: seq<Pool>, job: Job)
    ensures PoolsWork(a + b, job) == PoolsWork(a, job) + PoolsWork(b, job)
  {
    hide PoolWork;
    if a == [] {
      assert a + b == b;
    } else {
      assert (a + b)[0] == a[0] && (a + b)[1..] == a[1..] + b;
      PoolsWorkConcat(a[1..], b, job);
    }
  }

  lemma PoolsWorkOfOne(p: Pool, job: Job)
    ensures PoolsWork([p], job) == PoolWork(p, job)
  {
    hide PoolWork;
    assert [p][1..] == [];
  }

  lemma PoolsWorkChange(pools: seq<Pool>, i: nat, q: Pool, job: Job)
    requires i < |pools|
    ensures PoolsWork(pools[i := q], job) == PoolsWork(pools, job) - PoolWork(pools[i], job) + PoolWork(q, job)
  {
    hide PoolWork, PoolsWork;
    var a, b := pools[..i], pools[i + 1..];
    assert pools == a + ([pools[i]] + b) && pools[i := q] == a + ([q] + b);
    PoolsWorkConcat(a, [pools[i]] + b, job);
    PoolsWorkConcat([pools[i]], b, job);
    PoolsWorkConcat(a, [q] + b, job);
    PoolsWorkConcat([q], b, job);
    PoolsWorkOfOne(pools[i], job);
    PoolsWorkOfOne(q, job);
  }

  lemma {:induction false} ListenersWorkConcat(a: seq<Listener>, b: seq<Listener>, job: Job)
    ensures ListenersWork(a + b, job) == ListenersWork(a, job) + ListenersWork(b, job)
  {
    hide KeepsListener;
    if a == [] {
      assert a + b == b;
    } else {
      assert (a + b)[0] == a[0] && (a + b)[1..] == a[1..] + b;
      ListenersWorkConcat(a[1..], b, job);
    }
  }

  lemma {:induction false} PortsWorkSame(s: State, t: State, ports: seq<ServicePort>, job: Job)
    requires forall n :: 0 <= n < |ports| ==> PortWork(s, ports[n], job) == PortWork(t, ports[n], job)
    ensures PortsWork(s, ports, job) == PortsWork(t, ports, job)
    decreases |ports|
  {
    hide PortWork;
    if ports == [] {
    } else {
      assert forall n :: 0 <= n < |ports[1..]| ==> ports[1..][n] == ports[n + 1];
      PortsWorkSame(s, t, ports[1..], job);
    }
  }

  lemma {:induction false} PortsWorkChange(s: State, t: State, ports: seq<ServicePort>, at: nat, job: Job)
    requires at < |ports|
    requires forall n :: 0 <= n < |ports| && n != at ==> PortWork(s, ports[n], job) == PortWork(t, ports[n], job)
    ensures PortsWork(t, ports, job) - PortWork(t, ports[at], job)
         == PortsWork(s, ports, job) - PortWork(s, ports[at], job)
    decreases |ports|
  {
    hide PortWork;
    assert forall n :: 0 <= n < |ports[1..]| ==> ports[1..][n] == ports[n + 1];
    if at == 0 {
      PortsWorkSame(s, t, ports[1..], job);
    } else {
      PortsWorkChange(s, t, ports[1..], at - 1, job);
    }
  }

  // ---------------------------------------------------------------- runs that do their work

  /** At every point of the run the work left is within the budget, which pays for each action. */
  ghost predicate Within(s: State, actions: seq<Action>, r: Run, budget: int)
    decreases |actions|
  {
    && Work(s, r.job) <= budget
    && (actions != [] && Accepts(s, actions[0], r) ==>
          Within(Effect(s, actions[0], r), actions[1..], r, budget - 1))
  }

  lemma {:induction false} WithinMore(s: State, actions: seq<Action>, r: Run, budget: int, more: int)
    requires Within(s, actions, r, budget) && budget <= more
    ensures Within(s, actions, r, more)
    decreases |actions|
  {
    hide Work, Accepts, Effect;
    if actions == [] || !Accepts(s, actions[0], r) {
    } else {
      WithinMore(Effect(s, actions[0], r), actions[1..], r, budget - 1, more - 1);
    }
  }

  /** What is left after `k` actions. */
  lemma {:induction false} WithinPrefix(s: State, actions: seq<Action>, r: Run, budget: int, k: nat)
    requires Safe(s, actions, r) && Within(s, actions, r, budget) && k <= |actions|
    ensures Work(Final(s, actions[..k], r), r.job) <= budget - k
    decreases |actions|
  {
    hide Work, Accepts, Effect, WellFormed;
    if k == 0 {
    } else {
      assert actions[..k][0] == actions[0] && actions[..k][1..] == actions[1..][..k - 1];
      WithinPrefix(Effect(s, actions[0], r), actions[1..], r, budget - 1, k - 1);
    }
  }

  lemma {:induction false} WithinJoin(s: State, a: seq<Action>, b: seq<Action>, r: Run, budget: int)
    requires Safe(s, a, r) && Within(s, a, r, budget)
    requires Within(Final(s, a, r), b, r, budget - |a|)
    ensures Within(s, a + b, r, budget)
    decreases |a|
  {
    hide Work, Accepts, Effect, WellFormed;
    if a == [] {
      assert a + b == b;
    } else {
      assert (a + b)[0] == a[0] && (a + b)[1..] == a[1..] + b;
      WithinJoin(Effect(s, a[0], r), a[1..], b, r, budget - 1);
    }
  }

  lemma WithinConcat(s: State, a: seq<Action>, b: seq<Action>, r: Run)
    requires Safe(s, a, r) && Within(s, a, r, Work(s, r.job))
    requires Within(Final(s, a, r), b, r, Work(Final(s, a, r), r.job))
    ensures Within(s, a + b, r, Work(s, r.job))
  {
    hide Work, Safe, Final, Within;
    assert a[..|a|] == a;
    WithinPrefix(s, a, r, Work(s, r.job), |a|);
    var t, budget := Final(s, a, r), Work(s, r.job) - |a|;
    WithinMore(t, b, r, Work(t, r.job), budget);
    WithinJoin(s, a, b, r, Work(s, r.job));
  }

  lemma WithinOne(s: State, a: Action, r: Run)
    requires Accepts(s, a, r) && Work(Effect(s, a, r), r.job) + 1 <= Work(s, r.job)
    ensures Within(s, [a], r, Work(s, r.job))
  {
    hide Work, Accepts, Effect;
    assert [a][1..] == [];
  }

  lemma WithinNothing(s: State, r: Run)
    ensures Within(s, [], r, Work(s, r.job))
  {
    hide Work;
  }

  // ---------------------------------------------------------------- steps 1 and 2

  lemma DeletedListenerWork(s: State, kept: seq<Listener>, ls: seq<Listener>, job: Job)
    requires s.listeners == kept + ls && ls != [] && !KeepsListener(ls[0], job.ports)
    ensures Work(s.(listeners := kept + ls[1..]), job) + 1 == Work(s, job)
  {
    hide KeepsListener, PoolsWork, HasPoolFor, Wanted;
    var t := s.(listeners := kept + ls[1..]);
    ListenersWorkConcat(kept, ls, job);
    ListenersWorkConcat(kept, ls[1..], job);
    forall n | 0 <= n < |job.ports| ensures PortWork(s, job.ports[n], job) == PortWork(t, job.ports[n], job) {
      var sp := job.ports[n];
      if HasListenerFor(s.listeners, sp, job) {
        var i :| 0 <= i < |s.listeners| && KeepsListener(s.listeners[i], job.ports) && s.listeners[i].port == sp.port;
        assert i != |kept|;
        assert t.listeners[if i < |kept| then i else i - 1] == s.listeners[i];
      }
      if HasListenerFor(t.listeners, sp, job) {
        var i :| 0 <= i < |t.listeners| && KeepsListener(t.listeners[i], job.ports) && t.listeners[i].port == sp.port;
        assert s.listeners[if i < |kept| then i else i + 1] == t.listeners[i];
      }
    }
    PortsWorkSame(s, t, job.ports, job);
  }

  lemma {:induction false} DeleteListenersWithin(s: State, kept: seq<Listener>, views: seq<ListenerView>,
                                                 ls: seq<Listener>, r: Run)
    requires WellFormed(s, r.ids) && s.listeners == kept + ls
    requires |views| == |ls| && forall i :: 0 <= i < |ls| ==> views[i].listener == ls[i]
    ensures Within(s, ListenerDeletes(views, r.job.ports), r, Work(s, r.job))
    decreases |ls|
  {
    hide WellFormed, Accepts, Effect, Work, Within;
    var ports := r.job.ports;
    if ls == [] {
      WithinNothing(s, r);
    } else if KeepsListener(ls[0], ports) {
      assert kept + ls == (kept + [ls[0]]) + ls[1..];
      DeleteListenersWithin(s, kept + [ls[0]], views[1..], ls[1..], r);
      assert ListenerDeletes(views, ports) == ListenerDeletes(views[1..], ports);
    } else {
      var name := if views[0].poolName == "" then "unknown" else views[0].poolName;
      var a := DeleteListener(name, ls[0].id);
      DeleteListenerStep(s, kept, ls, name, r);
      DeletedListenerWork(s, kept, ls, r.job);
      WithinOne(s, a, r);
      SafeOne(s, a, r);
      DeleteListenersWithin(Effect(s, a, r), kept, views[1..], ls[1..], r);
      WithinConcat(s, [a], ListenerDeletes(views[1..], ports), r);
    }
  }

  lemma DeletedPoolWork(s: State, kept: seq<Pool>, rest: seq<Pool>, job: Job)
    requires s.pools == kept + rest && rest != [] && !Wanted(job.ports, rest[0].name)
    ensures Work(s.(pools := kept + rest[1..]), job) + 1 == Work(s, job)
  {
    hide ListenersWork, Wanted, HasPoolFor, HasListenerFor, Stale, MemberWork, UpdateWork, PortsWork;
    var t := s.(pools := kept + rest[1..]);
    PoolsWorkConcat(kept, rest, job);
    PoolsWorkConcat(kept, rest[1..], job);
    forall n | 0 <= n < |job.ports| ensures PortWork(s, job.ports[n], job) == PortWork(t, job.ports[n], job) {
      UnwantedPoolForNoPort(kept, rest, job.ports[n], job);
    }
    PortsWorkSame(s, t, job.ports, job);
  }

  lemma UnwantedPoolForNoPort(kept: seq<Pool>, rest: seq<Pool>, sp: ServicePort, job: Job)
    requires rest != [] && !Wanted(job.ports, rest[0].name)
    ensures HasPoolFor(kept + rest[1..], sp, job) <==> HasPoolFor(kept + rest, sp, job)
  {
    hide Wanted, Fields;
    var before, after := kept + rest, kept + rest[1..];
    if HasPoolFor(before, sp, job) {
      var i :| 0 <= i < |before| && Wanted(job.ports, before[i].name) && Fields(before[i].name).port == sp.port;
      assert i != |kept|;
      assert after[if i < |kept| then i else i - 1] == before[i];
    }
    if HasPoolFor(after, sp, job) {
      var i :| 0 <= i < |after| && Wanted(job.ports, after[i].name) && Fields(after[i].name).port == sp.port;
      assert before[if i < |kept| then i else i + 1] == after[i];
    }
  }

  lemma {:induction false} DeletePoolsWithin(s: State, kept: seq<Pool>, rest: seq<Pool>, r: Run)
    requires WellFormed(s, r.ids) && JobOk(r.job) && AllKept(s.listeners, r.job.ports) && s.pools == kept + rest
    ensures Within(s, PhaseActions(DeletePools, rest, r.job), r, Work(s, r.job))
    decreases |rest|
  {
    hide WellFormed, JobOk, AllKept, Accepts, Effect, Wanted, Work, Within;
    if rest == [] {
      WithinNothing(s, r);
    } else if Wanted(r.job.ports, rest[0].name) {
      assert kept + rest == (kept + [rest[0]]) + rest[1..];
      DeletePoolsWithin(s, kept + [rest[0]], rest[1..], r);
      assert PhaseActions(DeletePools, rest, r.job) == PhaseActions(DeletePools, rest[1..], r.job);
    } else {
      var a := DeletePool(rest[0].name, rest[0].id);
      DeletePoolStep(s, kept, rest, r);
      DeletedPoolWork(s, kept, rest, r.job);
      WithinOne(s, a, r);
      SafeOne(s, a, r);
      DeletePoolsWithin(Effect(s, a, r), kept, rest[1..], r);
      WithinConcat(s, [a], PhaseActions(DeletePools, rest[1..], r.job), r);
    }
  }

  // ---------------------------------------------------------------- steps 3 to 5, for one pool

  /** As `Within`, for one pool. */
  ghost predicate PoolWithin(q: Pool, actions: seq<Action>, r: Run, k: nat, budget: int)
    decreases |actions|
  {
    && PoolWork(q, r.job) <= budget
    && (actions != [] && PoolAccepts(q, actions[0], r) ==>
          PoolWithin(PoolEffect(q, actions[0], r, k), actions[1..], r, k + MembersCreated(actions[0], r), budget - 1))
  }

  lemma PoolWithinNothing(q: Pool, r: Run, k: nat)
    ensures PoolWithin(q, [], r, k, PoolWork(q, r.job))
  {
    hide PoolWork;
  }

  lemma PoolWithinOne(q: Pool, a: Action, r: Run, k: nat)
    requires PoolAccepts(q, a, r) && PoolWork(PoolFinal(q, [a], r, k), r.job) + 1 <= PoolWork(q, r.job)
    ensures PoolWithin(q, [a], r, k, PoolWork(q, r.job))
  {
    hide PoolWork, PoolAccepts, PoolEffect, MembersCreated;
    assert [a][1..] == [];
  }

  lemma ChangedPoolWork(s: State, i: nat, q: Pool, k: nat, job: Job)
    requires i < |s.pools| && SameKey(q.name, s.pools[i].name)
    ensures Work(s.(pools := s.pools[i := q], nextMember := k), job)
         == Work(s, job) - PoolWork(s.pools[i], job) + PoolWork(q, job)
  {
    hide ListenersWork, Fields, HasListenerFor, PoolsWork, PoolWork, Matches;
    var t := s.(pools := s.pools[i := q], nextMember := k);
    PoolsWorkChange(s.pools, i, q, job);
    assert Wanted(job.ports, q.name) <==> Wanted(job.ports, s.pools[i].name);
    forall n | 0 <= n < |job.ports| ensures PortWork(s, job.ports[n], job) == PortWork(t, job.ports[n], job) {
      SameHasPoolFor(s.pools, i, q, job.ports[n], job);
    }
    PortsWorkSame(s, t, job.ports, job);
  }

  lemma SameHasPoolFor(pools: seq<Pool>, i: nat, q: Pool, sp: ServicePort, job: Job)
    requires i < |pools| && SameKey(q.name, pools[i].name)
    ensures HasPoolFor(pools[i := q], sp, job) <==> HasPoolFor(pools, sp, job)
  {
    hide Fields, Matches;
    var changed := pools[i := q];
    assert Wanted(job.ports, q.name) <==> Wanted(job.ports, pools[i].name);
    if HasPoolFor(pools, sp, job) {
      var j :| 0 <= j < |pools| && Wanted(job.ports, pools[j].name) && Fields(pools[j].name).port == sp.port;
      assert Wanted(job.ports, changed[j].name) && Fields(changed[j].name).port == sp.port;
    }
    if HasPoolFor(changed, sp, job) {
      var j :| 0 <= j < |changed| && Wanted(job.ports, changed[j].name) && Fields(changed[j].name).port == sp.port;
      assert Wanted(job.ports, pools[j].name) && Fields(pools[j].name).port == sp.port;
    }
  }

  lemma {:induction false} LiftWithin(s: State, i: nat, actions: seq<Action>, r: Run, key: string, budget: int)
    requires WellFormed(s, r.ids) && i < |s.pools|
    requires SafePool(s.pools[i], actions, r, s.nextMember, s.nextObject, key)
    requires PoolWithin(s.pools[i], actions, r, s.nextMember, budget)
    ensures Within(s, actions, r, Work(s, r.job) - PoolWork(s.pools[i], r.job) + budget)
    decreases |actions|
  {
    hide PoolOk, FreshPool, PoolAccepts, PoolEffect, MembersCreated, Fields, PoolsOk, Work, PoolWork, Accepts, Effect,
         SafePool, WellFormed, SameKey;
    if actions == [] {
    } else {
      var a, q := actions[0], s.pools[i];
      LiftPoolStep(s, i, actions, r, key);
      SafePoolHead(q, actions, r, s.nextMember, s.nextObject, key);
      SafePoolName(q, actions, r, s.nextMember, s.nextObject, key);
      var t, q' := Effect(s, a, r), PoolEffect(q, a, r, s.nextMember);
      SameKeyTransitive(q'.name, key, q.name);
      ChangedPoolWork(s, i, q', s.nextMember + MembersCreated(a, r), r.job);
      assert t.pools[i] == q';
      LiftWithin(t, i, actions[1..], r, key, budget - 1);
    }
  }

  lemma SafePoolName(q: Pool, actions: seq<Action>, r: Run, k: nat, o: nat, key: string)
    requires SafePool(q, actions, r, k, o, key) && actions != []
    ensures SameKey(q.name, key) && SameKey(key, q.name) && !actions[0].CreatePool?
  {
    hide PoolOk, FreshPool, PoolAccepts, PoolEffect, MembersCreated, Fields;
  }

  lemma ExactNoWork(q: Pool, job: Job)
    requires JobOk(job) && PoolOk(q) && Exact(q.members, job.nodes, Fields(q.name).nodePort)
    ensures MemberWork(q, job) == 0
  {
    hide JobOk, Fields, HasTarget, Parses, Canonical, Token, DistinctMembers;
    NoMemberDeletes(q, q.members, job);
    NoMemberCreates(q, job.nodes);
  }

  lemma {:induction false} NothingMissing(p: Pool, nodes: seq<string>)
    requires MemberCreates(p, nodes) == []
    ensures forall j :: 0 <= j < |nodes| ==> HasTarget(p.members, nodes[j], Fields(p.name).nodePort)
  {
    hide Fields, HasTarget;
    if nodes == [] {
    } else {
      NothingMissing(p, nodes[1..]);
      assert forall j :: 1 <= j < |nodes| ==> nodes[j] == nodes[1..][j - 1];
    }
  }

  lemma {:induction false} NothingUnwanted(p: Pool, ms: seq<Member>, job: Job)
    requires MemberDeletes(p, ms, job) == []
    ensures Survivors(p, ms, job) == ms
  {
    hide KeepsMember;
    if ms == [] {
    } else {
      NothingUnwanted(p, ms[1..], job);
      assert ms == [ms[0]] + ms[1..];
    }
  }

  lemma SurvivorsExact(p: Pool, job: Job)
    requires JobOk(job) && PoolOk(p) && MemberCreates(p, job.nodes) == []
    ensures Exact(Survivors(p, p.members, job), job.nodes, Fields(p.name).nodePort)
  {
    hide JobOk, PoolOk, Fields, HasTarget, Survivors;
    SurvivorsTargets(p, job);
    NothingMissing(p, job.nodes);
  }

  lemma {:induction false} MemberDeletesDepends(p: Pool, q: Pool, ms: seq<Member>, job: Job)
    requires p.id == q.id && p.name == q.name
    ensures MemberDeletes(p, ms, job) == MemberDeletes(q, ms, job)
  {
    hide Fields, InNodeText;
    if ms == [] {
    } else {
      MemberDeletesDepends(p, q, ms[1..], job);
    }
  }

  lemma MemberWorkDepends(p: Pool, q: Pool, job: Job)
    requires p.id == q.id && p.name == q.name && p.members == q.members
    ensures MemberWork(p, job) == MemberWork(q, job)
  {
    hide MemberDeletes, MemberCreates;
    MemberDeletesDepends(p, q, p.members, job);
    MemberCreatesDepends(p, q, job.nodes);
  }

  lemma MemberWorkIsSmall(p: Pool, job: Job)
    ensures MemberWork(p, job) <= 1
  {
    hide MemberDeletes, MemberCreates;
  }

  /** The work on a pool that has the current name of a service port. */
  lemma NamedPoolWork(q: Pool, sp: ServicePort, job: Job)
    requires JobOk(job) && sp in job.ports && PortOk(sp) && q.name == GenPoolName(sp)
    ensures Wanted(job.ports, q.name) && Fields(q.name).nodePort == sp.nodePort
    ensures PoolWork(q, job) == MemberWork(q, job) + if NeedsUpdate(q, sp, job) then 1 else 0
  {
    hide JobOk, GenPoolName, Fields, Matches, MemberWork, HealthFits, PortOk;
    WantedPort(q, sp, job);
  }

  lemma UpdatedNeedsNoUpdate(q: Pool, sp: ServicePort, job: Job)
    requires q.name == GenPoolName(sp) && q.health == job.Health(sp.nodePort) && q.proxy == job.Proxy()
    ensures !NeedsUpdate(q, sp, job)
  {
    hide GenPoolName;
    HealthFitsMeans(q, sp, job);
  }

  /** Step 3 for a pool with a canonical name. */
  lemma DeleteWithin(p: Pool, q: Pool, r: Run, k: nat, o: nat)
    requires StepReady(p, q, r, k, o) && Stage(0, true, p, q, r.job) && Canonical(p.name)
    ensures PoolWithin(q, Emitted(true, DeleteMembers, p, r.job), r, k, PoolWork(q, r.job))
  {
    hide PoolOk, FreshPool, Fields, Matches, GenPoolName, IsListed, MemberDeletes, MemberCreates, Survivors, PoolFinal,
         SameKey, JobOk, Stale, Exact, Canonical, PoolWithin, PoolWork, SafePool, HealthFits, PoolAccepts;
    var actions := Emitted(true, DeleteMembers, p, r.job);
    PortForFacts(p, r.job);
    if actions == [] {
      PoolWithinNothing(q, r, k);
    } else {
      StepDelete(true, p, q, r, k, o);
      var t := PoolFinal(q, actions, r, k);
      assert q == p && |actions| == 1 && actions == [actions[0]];
      SafePoolHead(q, actions, r, k, o, p.name);
      SafePoolEnd(q, actions, r, k, o, p.name);
      if !Early(true, p, r.job) {
        SurvivorsExact(p, r.job);
      }
      ExactNoWork(t, r.job);
      NamedPoolWork(q, PortFor(p, r.job), r.job);
      NamedPoolWork(t, PortFor(p, r.job), r.job);
      assert NeedsUpdate(t, PortFor(p, r.job), r.job) == NeedsUpdate(q, PortFor(p, r.job), r.job) by {
        HealthFitsMeans(t, PortFor(p, r.job), r.job);
        HealthFitsMeans(q, PortFor(p, r.job), r.job);
      }
      PoolWithinOne(q, actions[0], r, k);
    }
  }

  lemma {:induction false} SafePoolEnd(q: Pool, actions: seq<Action>, r: Run, k: nat, o: nat, key: string)
    requires SafePool(q, actions, r, k, o, key)
    ensures PoolOk(PoolFinal(q, actions, r, k)) && PoolFinal(q, actions, r, k).id == q.id
    decreases |actions|
  {
    hide PoolOk, FreshPool, PoolAccepts, PoolEffect, MembersCreated, SameKey;
    if actions == [] {
    } else {
      SafePoolEnd(PoolEffect(q, actions[0], r, k), actions[1..], r, k + MembersCreated(actions[0], r), o, key);
    }
  }

  /** Step 4 for a pool whose node port has changed: two updates, and never more than one left after the first. */
  lemma RenameWithin(p: Pool, q: Pool, r: Run, k: nat, o: nat)
    requires StepReady(p, q, r, k, o) && q == p && Stale(r.job.ports, p.name)
    ensures var name := GenPoolName(PortFor(p, r.job));
      PoolWithin(q, [UpdatePool(name, p.id), ReplaceMembers(name, p.id)], r, k, PoolWork(q, r.job))
  {
    hide PoolOk, FreshPool, Fields, Matches, GenPoolName, IsListed, PoolFinal, SameKey, JobOk, Stale, Exact, Canonical,
         SafePool, HealthFits, PoolAccepts, PoolEffect, MembersCreated, ParsePoolName, MemberWork, Wanted;
    PortForFacts(p, r.job);
    var sp := PortFor(p, r.job);
    var name := GenPoolName(sp);
    var a, b := UpdatePool(name, p.id), ReplaceMembers(name, p.id);
    UpdatePoolRun(p, q, sp, r, k, o);
    RenameRun(p, q, sp, r, k, o);
    var t := PoolEffect(q, a, r, k);
    UpdatedNeedsNoUpdate(t, sp, r.job);
    NamedPoolWork(t, sp, r.job);
    GenPoolNameFields(sp);
    SafePoolEnd(q, [a, b], r, k, o, p.name);
    var u := PoolFinal(q, [a, b], r, k);
    assert [a, b] == [a] + [b] && [a, b][1..] == [b] && [b][1..] == [];
    SafePoolHead(q, [a, b], r, k, o, p.name);
    SafePoolHead(t, [b], r, k, o, p.name);
    TwoActions(q, a, b, r, k);
    NamedPoolWork(u, sp, r.job);
    UpdatedNeedsNoUpdate(u, sp, r.job);
    ExactNoWork(u, r.job);
    MemberWorkIsSmall(t, r.job);
    WithinTwo(q, a, b, r, k);
  }

  lemma TwoActions(q: Pool, a: Action, b: Action, r: Run, k: nat)
    requires PoolAccepts(q, a, r) && MembersCreated(a, r) == 0 && PoolAccepts(PoolEffect(q, a, r, k), b, r)
    ensures PoolFinal(q, [a, b], r, k) == PoolEffect(PoolEffect(q, a, r, k), b, r, k)
  {
    hide PoolAccepts, PoolEffect, MembersCreated;
    assert [a, b][1..] == [b] && [b][1..] == [];
    var t := PoolEffect(q, a, r, k);
    assert PoolFinal(t, [b], r, k) == PoolEffect(t, b, r, k);
  }

  lemma WithinTwo(q: Pool, a: Action, b: Action, r: Run, k: nat)
    requires PoolAccepts(q, a, r) && MembersCreated(a, r) == 0 && PoolAccepts(PoolEffect(q, a, r, k), b, r)
    requires PoolWork(PoolEffect(q, a, r, k), r.job) + 1 <= PoolWork(q, r.job)
    requires PoolWork(PoolEffect(PoolEffect(q, a, r, k), b, r, k), r.job) + 2 <= PoolWork(q, r.job)
    ensures PoolWithin(q, [a, b], r, k, PoolWork(q, r.job))
  {
    hide PoolAccepts, PoolEffect, MembersCreated, PoolWork;
    assert [a, b][1..] == [b] && [b][1..] == [];
    var t := PoolEffect(q, a, r, k);
    assert PoolWithin(t, [b], r, k, PoolWork(q, r.job) - 1);
  }

  /** Step 4 for a pool with a canonical name. */
  lemma UpdateWithin(p: Pool, q: Pool, r: Run, k: nat, o: nat)
    requires StepReady(p, q, r, k, o) && Stage(1, true, p, q, r.job) && Canonical(p.name)
    ensures PoolWithin(q, Emitted(true, UpdatePools, p, r.job), r, k, PoolWork(q, r.job))
  {
    hide PoolOk, FreshPool, Fields, Matches, GenPoolName, IsListed, PoolFinal, SameKey, JobOk, Exact, Canonical, Stale,
         SafePool, HealthFits, PoolAccepts, PoolWithin, PoolWork, MemberWork, Early, Survivors;
    PortForFacts(p, r.job);
    var sp := PortFor(p, r.job);
    if Stale(r.job.ports, p.name) {
      assert q == p;
      RenameWithin(p, q, r, k, o);
    } else if NeedsUpdate(p, sp, r.job) {
      var a := UpdatePool(p.name, p.id);
      UpdateInPlaceRun(p, q, sp, r, k, o);
      var t := PoolFinal(q, [a], r, k);
      SafePoolHead(q, [a], r, k, o, p.name);
      UpdatedNeedsNoUpdate(t, sp, r.job);
      NamedPoolWork(q, sp, r.job);
      NamedPoolWork(t, sp, r.job);
      MemberWorkDepends(q, t, r.job);
      HealthFitsMeans(p, sp, r.job);
      HealthFitsMeans(q, sp, r.job);
      assert NeedsUpdate(q, sp, r.job);
      PoolWithinOne(q, a, r, k);
    } else {
      PoolWithinNothing(q, r, k);
    }
  }

  /** Step 5 for a pool with a canonical name. */
  lemma AddWithin(p: Pool, q: Pool, r: Run, k: nat, o: nat)
    requires StepReady(p, q, r, k, o) && Stage(2, true, p, q, r.job) && Canonical(p.name)
    ensures PoolWithin(q, Emitted(true, AddMembers, p, r.job), r, k, PoolWork(q, r.job))
  {
    hide PoolOk, FreshPool, Fields, Matches, GenPoolName, IsListed, PoolFinal, SameKey, JobOk, Stale, Exact, Canonical,
         SafePool, HealthFits, PoolAccepts, PoolWithin, PoolWork, MemberDeletes, MemberCreates, Survivors;
    var actions := Emitted(true, AddMembers, p, r.job);
    PortForFacts(p, r.job);
    var sp := PortFor(p, r.job);
    if actions == [] {
      PoolWithinNothing(q, r, k);
    } else {
      StepAdd(true, p, q, r, k, o);
      var t := PoolFinal(q, actions, r, k);
      assert |actions| == 1 && actions == [actions[0]];
      assert MemberDeletes(p, p.members, r.job) == [] && MemberCreates(p, r.job.nodes) != [];
      NothingUnwanted(p, p.members, r.job);
      assert q.members == p.members;
      MemberCreatesDepends(p, q, r.job.nodes);
      SafePoolHead(q, actions, r, k, o, p.name);
      SafePoolEnd(q, actions, r, k, o, p.name);
      NamedPoolWork(q, sp, r.job);
      NamedPoolWork(t, sp, r.job);
      ExactNoWork(t, r.job);
      HealthFitsMeans(q, sp, r.job);
      HealthFitsMeans(t, sp, r.job);
      assert NeedsUpdate(t, sp, r.job) == NeedsUpdate(q, sp, r.job);
      PoolWithinOne(q, actions[0], r, k);
    }
  }

  lemma PoolStepWithin(n: nat, p: Pool, q: Pool, r: Run, k: nat, o: nat)
    requires n < 3 && StepReady(p, q, r, k, o) && Stage(n, true, p, q, r.job) && Canonical(p.name)
    ensures PoolWithin(q, Emitted(true, StepPhase(n), p, r.job), r, k, PoolWork(q, r.job))
  {
    hide StepReady, Stage, Emitted, PoolWithin, PoolWork, Canonical;
    if n == 0 {
      DeleteWithin(p, q, r, k, o);
    } else if n == 1 {
      UpdateWithin(p, q, r, k, o);
    } else {
      AddWithin(p, q, r, k, o);
    }
  }
}
