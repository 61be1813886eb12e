/** The promises of a reconciliation: convergence, fixed points, resumption after a failure, and coalescing without
    a change of meaning. `merged` says whether step 8 is applied to the plan, as the program does. */
module Reconciliation {
  import opened Text
  import opened PoolNames
  import opened LoadBalancers
  import opened Actions
  import opened Cloud
  import opened Plans
  import opened PoolRuns
  import opened Stages
  import opened WholeRun
  import opened CreateRun
  import opened Convergence
  import opened Goals
  import opened Coalescing
  import opened MergedPlan
  import opened Clashing

  /** The updates that are run: the plan of steps 1 to 7, or the plan after step 8. */
  function Updates(merged: bool, s: State, job: Job): seq<Action> {
    if merged then Coalesce(PlanFor(s, job)) else PlanFor(s, job)
  }

  lemma UpdatesAreSteps(merged: bool, s: State, ids: Ids, job: Job)
    requires WellFormed(s, ids)
    ensures Updates(merged, s, job) == Steps(merged, s, job)
  {
    hide WellFormed, Steps, PlanFor, Coalesce;
    PlanIsSteps(s, job);
    CoalescedPlan(s, ids, job);
  }

  lemma CoalesceOthers(plan: seq<Action>)
    requires NoMemberUpdates(plan)
    ensures Coalesce(plan) == plan
  {
    hide Left, Coalesce;
    CoalesceIsLeft(plan);
    LeftOthers(ActionItems(plan), plan, {});
  }

  lemma ListingOfItself(s: State, r: Run)
    requires r.listed == s.pools && WellFormed(s, r.ids)
    ensures ListingOf(s, r)
  {
    hide PoolOk, FreshPool, ListenersOk, RefsOk, SameKey;
    forall i | 0 <= i < |s.pools| ensures IsListed(s.pools[i], r) {
      PoolIndexIs(s.pools, i);
    }
  }

  /** The run of the updates is accepted throughout exactly if no pool clashes: if none that some service port wants
      has a current node port, a name that is not canonical and, after step 8, one member to create and none to
      delete. */
  lemma RunAcceptedIff(merged: bool, s: State, r: Run)
    requires WellFormed(s, r.ids) && JobOk(r.job) && r.listed == s.pools
    ensures Safe(s, Updates(merged, s, r.job), r) <==> NoClash(merged, s, r.job)
  {
    hide WellFormed, JobOk, Safe, NoClash, Updates, Steps;
    ListingOfItself(s, r);
    UpdatesAreSteps(merged, s, r.ids, r.job);
    var n := StepsRunUpTo(merged, s, r);
  }

  /** An input that clashes: with one node to add to a pool whose name has a leading zero, the run is stopped. With
      two, only the run without step 8 is: it turns the two creations into a second replacement. */
  lemma LeadingZeroStopsTheRun(ids: Ids)
    requires GoodIds(ids)
    ensures var s, one, two := LeadingZeroState(ids), OnePortJob(["10.0.0.1"]), OnePortJob(["10.0.0.1", "10.0.0.2"]);
      && WellFormed(s, ids) && JobOk(one) && JobOk(two)
      && !Safe(s, Updates(true, s, one), Run(one, s.pools, ids))
      && Safe(s, Updates(true, s, two), Run(two, s.pools, ids))
      && !Safe(s, Updates(false, s, two), Run(two, s.pools, ids))
  {
    hide WellFormed, JobOk, Safe, NoClash, Updates, LeadingZeroState, OnePortJob;
    var s, one, two := LeadingZeroState(ids), OnePortJob(["10.0.0.1"]), OnePortJob(["10.0.0.1", "10.0.0.2"]);
    LeadingZeroClashes(ids);
    RunAcceptedIff(true, s, Run(one, s.pools, ids));
    RunAcceptedIff(true, s, Run(two, s.pools, ids));
    RunAcceptedIff(false, s, Run(two, s.pools, ids));
  }

  /** How far the updates get. */
  lemma UpdatesRunUpTo(merged: bool, s: State, r: Run) returns (n: nat)
    requires WellFormed(s, r.ids) && JobOk(r.job) && r.listed == s.pools
    ensures RunsUpTo(s, Updates(merged, s, r.job), n, r)
    ensures n == |Updates(merged, s, r.job)| <==> NoClash(merged, s, r.job)
  {
    hide WellFormed, JobOk, Safe, NoClash, Updates, Steps, RunsUpTo;
    ListingOfItself(s, r);
    UpdatesAreSteps(merged, s, r.ids, r.job);
    n := StepsRunUpTo(merged, s, r);
  }

  /** Convergence: the whole plan is accepted and ends in a desired state; every pool that existed has the requested
      proxy setting, and a pool that was created has the cloud's default. */
  lemma Converges(merged: bool, s: State, r: Run)
    requires WellFormed(s, r.ids) && JobOk(r.job) && r.listed == s.pools && NoClash(merged, s, r.job)
    ensures var plan := Updates(merged, s, r.job); var t := Final(s, plan, r);
      var n := |KeptPools(s.pools, r.job.ports)|;
      && Safe(s, plan, r) && WellFormed(t, r.ids)
      && Desired(t, r.job)
      && n <= |t.pools| && ProxyDone(t.pools[..n], r.job)
      && (forall i :: n <= i < |t.pools| ==> t.pools[i].proxy == PROXY_DISABLED)
  {
    hide WellFormed, JobOk, Safe, Final, Reached, Desired, ProxyDone, Updates, Steps, KeptPools, NoClash;
    ListingOfItself(s, r);
    StepsRun(merged, s, r);
    UpdatesAreSteps(merged, s, r.ids, r.job);
    var t := Final(s, Updates(merged, s, r.job), r);
    ReachedIsDesired(merged, s, t, r);
    SafeFinal(s, Updates(merged, s, r.job), r);
  }

  lemma {:induction false} ProxyUpdatesAreUpdates(pools: seq<Pool>, job: Job)
    ensures forall i :: 0 <= i < |ProxyUpdates(pools, job)| ==> ProxyUpdates(pools, job)[i].UpdatePool?
  {
    if pools == [] {
    } else {
      ProxyUpdatesAreUpdates(pools[1..], job);
    }
  }

  /** In a desired state only proxy settings are left to change, and step 8 finds nothing to merge. */
  lemma UpdatesOfDesired(merged: bool, s: State, ids: Ids, job: Job)
    requires WellFormed(s, ids) && JobOk(job) && Desired(s, job)
    ensures Updates(merged, s, job) == ProxyUpdates(s.pools, job)
  {
    hide WellFormed, JobOk, Desired, PlanFor, ProxyUpdates, Coalesce;
    PlanOfDesired(s, ids, job);
    ProxyUpdatesAreUpdates(s.pools, job);
    CoalesceOthers(ProxyUpdates(s.pools, job));
  }

  /** The planner finds nothing to do exactly in the states the service asks for. */
  lemma NothingToDoIffDesired(merged: bool, s: State, r: Run)
    requires WellFormed(s, r.ids) && JobOk(r.job) && r.listed == s.pools
    ensures Updates(merged, s, r.job) == [] <==> Desired(s, r.job) && ProxyDone(s.pools, r.job)
  {
    hide WellFormed, JobOk, Desired, Updates, KeptPools, Accepts, NoClash;
    NoProxyUpdates(s.pools, r.job);
    if Desired(s, r.job) {
      UpdatesOfDesired(merged, s, r.ids, r.job);
    }
    if Updates(merged, s, r.job) == [] {
      RunAcceptedIff(merged, s, r);
      Converges(merged, s, r);
      UpdatesOfDesired(merged, s, r.ids, r.job);
    }
  }

  /** The pools one whole pass creates: those after the ones that stay. */
  function Created(s: State, t: State, job: Job): seq<Pool> {
    var n := |KeptPools(s.pools, job.ports)|;
    if n <= |t.pools| then t.pools[n..] else []
  }

  lemma {:induction false} AllProxyUpdates(pools: seq<Pool>, job: Job)
    requires job.proxyRequested && forall i :: 0 <= i < |pools| ==> pools[i].proxy == PROXY_DISABLED
    ensures |ProxyUpdates(pools, job)| == |pools|
    ensures forall i :: 0 <= i < |pools| ==> ProxyUpdates(pools, job)[i] == UpdatePool(pools[i].name, pools[i].id)
  {
    if pools == [] {
    } else {
      AllProxyUpdates(pools[1..], job);
    }
  }

  /** After one whole pass that went through, the next plan is one UPDATE-POOL per created pool if the proxy protocol is
      requested, and empty otherwise. */
  lemma SecondPlan(merged: bool, s: State, r: Run)
    requires WellFormed(s, r.ids) && JobOk(r.job) && r.listed == s.pools && NoClash(merged, s, r.job)
    ensures var t := Final(s, Updates(merged, s, r.job), r); var created := Created(s, t, r.job);
      var plan := Updates(merged, t, r.job);
      && (!r.job.proxyRequested ==> plan == [])
      && (r.job.proxyRequested ==>
            |plan| == |created| && forall i :: 0 <= i < |plan| ==>
              plan[i] == UpdatePool(created[i].name, created[i].id))
  {
    hide WellFormed, JobOk, Safe, Final, Desired, Updates, KeptPools, ProxyUpdates, NoClash;
    Converges(merged, s, r);
    var t := Final(s, Updates(merged, s, r.job), r);
    var n, created := |KeptPools(s.pools, r.job.ports)|, Created(s, t, r.job);
    UpdatesOfDesired(merged, t, r.ids, r.job);
    assert t.pools == t.pools[..n] + created;
    ProxyUpdatesConcat(t.pools[..n], created, r.job);
    NoProxyUpdates(t.pools[..n], r.job);
    if r.job.proxyRequested {
      AllProxyUpdates(created, r.job);
    } else {
      NoProxyUpdates(created, r.job);
    }
  }

  // ---------------------------------------------------------------- when one pass is enough

  /** Some listed pool is for the service port, whatever its node port. */
  predicate HasPoolFor(pools: seq<Pool>, sp: ServicePort, job: Job) {
    exists i :: 0 <= i < |pools| && Wanted(job.ports, pools[i].name) && Fields(pools[i].name).port == sp.port
  }

  predicate EveryPortHasPool(pools: seq<Pool>, job: Job) {
    forall n :: 0 <= n < |job.ports| ==> HasPoolFor(pools, job.ports[n], job)
  }

  /** A pool that stays serves the port it was for. */
  lemma KeptPoolPort(n: nat, merged: bool, p: Pool, q: Pool, sp: ServicePort, job: Job)
    requires JobOk(job) && PoolOk(p) && Wanted(job.ports, p.name) && Stage(n, merged, p, q, job) && n >= 2
      && sp in job.ports
    ensures q.name == GenPoolName(sp) <==> Fields(p.name).port == sp.port
  {
    hide JobOk, PoolOk, Stage, GenPoolName, Fields, Wanted, Stale, Canonical, SameKey;
    StageNamesWell(n, merged, p, q, job);
    PortForFacts(p, job);
    NamesOfPorts(PortFor(p, job), sp, job);
  }

  /** A created pool is for a port that had none. */
  lemma CreatedPoolWasMissing(merged: bool, s: State, t: State, r: Run, m: nat)
    requires JobOk(r.job) && Reached(merged, s, t, r) && |KeptPools(s.pools, r.job.ports)| <= m < |t.pools|
    ensures !EveryPortHasPool(s.pools, r.job)
  {
    hide JobOk, Stage, PoolOk, Wanted, IsListed, Fields, GenPoolName, NewFor, KeptPools, AllNamed, AllKept, HasName,
         PortTaken, WellFormed, SameKey;
    var kept, ports := KeptPools(s.pools, r.job.ports), r.job.ports;
    assert IsNew(t.pools[m], r.job);
    var j :| 0 <= j < |ports| && NewFor(t.pools[m], ports[j], r.job);
    NewForName(t.pools[m], ports[j], r.job);
    DistinctOfWellFormed(t, r.ids);
    KeptPoolsMeans(s.pools, ports);
    forall i | 0 <= i < |s.pools| && Wanted(ports, s.pools[i].name)
      ensures Fields(s.pools[i].name).port != ports[j].port
    {
      assert s.pools[i] in kept;
      var k :| 0 <= k < |kept| && kept[k] == s.pools[i];
      assert t.pools[..|kept|][k] == t.pools[k];
      KeptPoolPort(3, merged, kept[k], t.pools[k], ports[j], r.job);
      SameKeyReflexive(t.pools[m].name);
      assert !SameKey(t.pools[k].name, t.pools[m].name);
    }
    assert !HasPoolFor(s.pools, ports[j], r.job);
  }

  lemma ReachedCreatesNothingIff(merged: bool, s: State, t: State, r: Run)
    requires JobOk(r.job) && Reached(merged, s, t, r)
    ensures Created(s, t, r.job) == [] <==> EveryPortHasPool(s.pools, r.job)
  {
    hide JobOk, Stage, PoolOk, Wanted, IsListed, Fields, GenPoolName, IsNew, KeptPools, AllNamed, AllKept,
         PortTaken, WellFormed;
    var kept, ports := KeptPools(s.pools, r.job.ports), r.job.ports;
    if |kept| < |t.pools| {
      CreatedPoolWasMissing(merged, s, t, r, |kept|);
    } else {
      KeptPoolsMeans(s.pools, ports);
      forall n | 0 <= n < |ports| ensures HasPoolFor(s.pools, ports[n], r.job) {
        var k := NamedIndex(t.pools, GenPoolName(ports[n]));
        assert HasName(t.pools, GenPoolName(ports[n]));
        assert t.pools[..|kept|][k] == t.pools[k];
        KeptPoolPort(3, merged, kept[k], t.pools[k], ports[n], r.job);
        assert kept[k] in s.pools;
        var i :| 0 <= i < |s.pools| && s.pools[i] == kept[k];
      }
    }
  }

  /** A pass that goes through creates nothing exactly if every service port has a pool before it. */
  lemma CreatesNothingIff(merged: bool, s: State, r: Run)
    requires WellFormed(s, r.ids) && JobOk(r.job) && r.listed == s.pools && NoClash(merged, s, r.job)
    ensures Created(s, Final(s, Updates(merged, s, r.job), r), r.job) == [] <==> EveryPortHasPool(s.pools, r.job)
  {
    hide WellFormed, JobOk, Final, Updates, Created, Safe, NoClash, EveryPortHasPool, Steps, Reached;
    ListingOfItself(s, r);
    StepsRun(merged, s, r);
    UpdatesAreSteps(merged, s, r.ids, r.job);
    ReachedCreatesNothingIff(merged, s, Final(s, Updates(merged, s, r.job), r), r);
  }

  /** One pass is enough - it goes through, and the next plan is empty - exactly if nothing clashes and either the proxy
      protocol is not requested or every service port has a pool before the pass. */
  lemma OnePassIff(merged: bool, s: State, r: Run)
    requires WellFormed(s, r.ids) && JobOk(r.job) && r.listed == s.pools
    ensures var updates := Updates(merged, s, r.job);
      Safe(s, updates, r) && Updates(merged, Final(s, updates, r), r.job) == []
      <==> NoClash(merged, s, r.job) && (!r.job.proxyRequested || EveryPortHasPool(s.pools, r.job))
  {
    hide WellFormed, JobOk, Final, Updates, Created, Safe, NoClash, EveryPortHasPool, Steps, Reached;
    RunAcceptedIff(merged, s, r);
    if NoClash(merged, s, r.job) {
      SecondPlan(merged, s, r);
      CreatesNothingIff(merged, s, r);
    }
  }

  /** An input for which one pass is not enough: a new service port, and the proxy protocol is requested. */
  lemma OnePassFails(merged: bool, ids: Ids)
    requires GoodIds(ids)
    ensures var s := State([], [], 0, 0);
      var job := Job([ServicePort("TCP", 80, 30000)], ["10.0.0.1"], ClusterPolicy, 0, true);
      && WellFormed(s, ids) && JobOk(job) && Updates(merged, Pass(merged, s, job, ids), job) != []
  {
    var s := State([], [], 0, 0);
    var job := Job([ServicePort("TCP", 80, 30000)], ["10.0.0.1"], ClusterPolicy, 0, true);
    assert JobOk(job);
    assert !HasPoolFor(s.pools, job.ports[0], job);
    assert WellFormed(s, ids) && NoClash(merged, s, job);
    hide WellFormed, JobOk, Final, Updates, Safe, NoClash;
    OnePassIff(merged, s, Run(job, s.pools, ids));
    RunAcceptedIff(merged, s, Run(job, s.pools, ids));
  }

  lemma {:induction false} KeepAll(pools: seq<Pool>, ports: seq<ServicePort>)
    requires forall i :: 0 <= i < |pools| ==> Wanted(ports, pools[i].name)
    ensures KeptPools(pools, ports) == pools
  {
    hide Wanted;
    if pools == [] {
    } else {
      KeepAll(pools[1..], ports);
    }
  }

  lemma DesiredKeepsAll(s: State, job: Job)
    requires JobOk(job) && Desired(s, job)
    ensures KeptPools(s.pools, job.ports) == s.pools
  {
    hide JobOk, Desired, Wanted, PoolServes, PortOk;
    forall i | 0 <= i < |s.pools| ensures Wanted(job.ports, s.pools[i].name) {
      DesiredPoolServes(s, i, job);
      assert ServesSome(s.pools[i], job);
      var sp :| sp in job.ports && PortOk(sp) && PoolServes(s.pools[i], sp, job);
      ServingIsWanted(s.pools[i], sp, job);
    }
    KeepAll(s.pools, job.ports);
  }

  /** A run of updates creates nothing. */
  lemma {:induction false} UpdatesKeepCount(s: State, actions: seq<Action>, r: Run)
    requires forall i :: 0 <= i < |actions| ==> actions[i].UpdatePool?
    ensures |Final(s, actions, r).pools| == |s.pools|
    decreases |actions|
  {
    hide PoolEffect, PoolAccepts;
    if actions != [] && Accepts(s, actions[0], r) {
      UpdatesKeepCount(Effect(s, actions[0], r), actions[1..], r);
    }
  }

  lemma DesiredIsWellNamed(s: State, job: Job)
    requires JobOk(job) && Desired(s, job)
    ensures WellNamed(s.pools)
  {
    hide JobOk, AllNamed, WellNamed, ServedOnce, AllKept;
    AllNamedIsWellNamed(s.pools, job);
  }

  /** From a desired state one more whole pass settles the proxy settings too. */
  lemma DesiredSettles(merged: bool, s: State, r: Run)
    requires WellFormed(s, r.ids) && JobOk(r.job) && r.listed == s.pools && Desired(s, r.job)
    ensures var t := Final(s, Updates(merged, s, r.job), r);
      WellFormed(t, r.ids) && Desired(t, r.job) && ProxyDone(t.pools, r.job)
  {
    hide WellFormed, JobOk, Safe, Desired, Updates, KeptPools, ProxyUpdates, Accepts, Effect, Final,
         NoClash, WellNamed;
    DesiredIsWellNamed(s, r.job);
    WellNamedNeverClashes(merged, s, r.job);
    Converges(merged, s, r);
    DesiredKeepsAll(s, r.job);
    UpdatesOfDesired(merged, s, r.ids, r.job);
    ProxyUpdatesAreUpdates(s.pools, r.job);
    UpdatesKeepCount(s, Updates(merged, s, r.job), r);
    var t := Final(s, Updates(merged, s, r.job), r);
    assert t.pools[..|s.pools|] == t.pools;
  }

  /** The state after one whole pass of planning and running. */
  function Pass(merged: bool, s: State, job: Job, ids: Ids): State {
    Final(s, Updates(merged, s, job), Run(job, s.pools, ids))
  }

  /** After any whole pass, gone through or not, the state is well-formed and all names are canonical. */
  lemma PassFacts(merged: bool, s: State, job: Job, ids: Ids)
    requires WellFormed(s, ids) && JobOk(job)
    ensures var t := Pass(merged, s, job, ids);
      WellFormed(t, ids) && WellNamed(t.pools) && forall job': Job :: NoClash(merged, t, job')
  {
    hide WellFormed, JobOk, Final, Updates, Steps, NoClash, WellNamed;
    var r := Run(job, s.pools, ids);
    ListingOfItself(s, r);
    PassNamesWell(merged, s, r);
    UpdatesAreSteps(merged, s, ids, job);
    forall job': Job ensures NoClash(merged, Pass(merged, s, job, ids), job') {
      WellNamedNeverClashes(merged, Pass(merged, s, job, ids), job');
    }
  }

  /** Two passes reach what the service asks for from every well-formed state, although the first may be refused
      something. */
  lemma TwoPassesConverge(merged: bool, s: State, job: Job, ids: Ids)
    requires WellFormed(s, ids) && JobOk(job)
    ensures var u := Pass(merged, Pass(merged, s, job, ids), job, ids);
      WellFormed(u, ids) && Desired(u, job)
  {
    hide WellFormed, JobOk, Safe, Final, Desired, Updates, ProxyDone, NoClash, WellNamed, KeptPools;
    var t := Pass(merged, s, job, ids);
    PassFacts(merged, s, job, ids);
    Converges(merged, t, Run(job, t.pools, ids));
  }

  lemma StageKeepsPort(n: nat, merged: bool, p: Pool, q: Pool, job: Job)
    requires JobOk(job) && PoolOk(p) && Wanted(job.ports, p.name) && Stage(n, merged, p, q, job) && n >= 2
    ensures Wanted(job.ports, q.name) && Fields(q.name).port == Fields(p.name).port
  {
    hide JobOk, PoolOk, Stage, GenPoolName, Fields, Wanted, Stale, Canonical, SameKey;
    StageNamesWell(n, merged, p, q, job);
    PortForFacts(p, job);
    WantedPort(q, PortFor(p, job), job);
    GenPoolNameFields(PortFor(p, job));
  }

  /** A pass that a clash stops has neither created nor lost the pool of a service port. */
  lemma BetweenKeepsPorts(merged: bool, s: State, t: State, i: nat, r: Run)
    requires JobOk(r.job) && Between(merged, s, t, i, r)
    ensures EveryPortHasPool(t.pools, r.job) <==> EveryPortHasPool(s.pools, r.job)
  {
    hide JobOk, Stage, PoolOk, Wanted, IsListed, Fields, KeptPools;
    var kept, ports := KeptPools(s.pools, r.job.ports), r.job.ports;
    KeptPoolsMeans(s.pools, ports);
    forall m | 0 <= m < |kept|
      ensures Wanted(ports, t.pools[m].name) && Fields(t.pools[m].name).port == Fields(kept[m].name).port
    {
      StageKeepsPort(if m < i then 3 else 2, merged, kept[m], t.pools[m], r.job);
    }
    forall n | 0 <= n < |ports| ensures HasPoolFor(t.pools, ports[n], r.job) <==> HasPoolFor(s.pools, ports[n], r.job) {
      if HasPoolFor(t.pools, ports[n], r.job) {
        var m :| 0 <= m < |t.pools| && Wanted(ports, t.pools[m].name) && Fields(t.pools[m].name).port == ports[n].port;
        assert kept[m] in s.pools;
        var k :| 0 <= k < |s.pools| && s.pools[k] == kept[m];
      }
      if HasPoolFor(s.pools, ports[n], r.job) {
        var k :| 0 <= k < |s.pools| && Wanted(ports, s.pools[k].name) && Fields(s.pools[k].name).port == ports[n].port;
        assert s.pools[k] in kept;
        var m :| 0 <= m < |kept| && kept[m] == s.pools[k];
      }
    }
  }

  /** Two passes leave nothing to do exactly if nothing clashes in the first, or the second has no reason for a third:
      the proxy protocol is not requested, or every service port has a pool from the start. */
  lemma SettledAfterTwoPassesIff(merged: bool, s: State, job: Job, ids: Ids)
    requires WellFormed(s, ids) && JobOk(job)
    ensures Updates(merged, Pass(merged, Pass(merged, s, job, ids), job, ids), job) == []
      <==> NoClash(merged, s, job) || !job.proxyRequested || EveryPortHasPool(s.pools, job)
  {
    hide WellFormed, JobOk, Safe, Final, Desired, Updates, ProxyDone, NoClash, KeptPools, WellNamed, EveryPortHasPool,
         Steps, Between, Accepts;
    if NoClash(merged, s, job) {
      SettledAfterTwoPasses(merged, s, job, ids);
    } else {
      var t, r := Pass(merged, s, job, ids), Run(job, s.pools, ids);
      var updates := Updates(merged, s, job);
      ListingOfItself(s, r);
      UpdatesAreSteps(merged, s, ids, job);
      var n, i := ClashStops(merged, s, r);
      StoppedAnywhere(s, updates, n, |updates|, r);
      assert updates[..|updates|] == updates;
      BetweenKeepsPorts(merged, s, t, i, r);
      PassFacts(merged, s, job, ids);
      RunAcceptedIff(merged, t, Run(job, t.pools, ids));
      OnePassIff(merged, t, Run(job, t.pools, ids));
    }
  }

  /** An input for which two passes are not enough. */
  lemma TwoPassesFail(ids: Ids)
    requires GoodIds(ids)
    ensures var s, job := LeadingZeroState(ids), TwoPortJob();
      && WellFormed(s, ids) && JobOk(job)
      && Updates(true, Pass(true, Pass(true, s, job, ids), job, ids), job) != []
  {
    hide WellFormed, JobOk, Pass, Updates, NoClash, Fields, Wanted;
    var s, job := LeadingZeroState(ids), TwoPortJob();
    LeadingZeroClashesOfTwoPorts(ids);
    SettledAfterTwoPassesIff(true, s, job, ids);
    assert !HasPoolFor(s.pools, job.ports[1], job);
  }

  /** Fixed point: the plan for the third pass is empty if nothing clashes in the first. */
  lemma SettledAfterTwoPasses(merged: bool, s: State, job: Job, ids: Ids)
    requires WellFormed(s, ids) && JobOk(job) && NoClash(merged, s, job)
    ensures var u := Pass(merged, Pass(merged, s, job, ids), job, ids);
      WellFormed(u, ids) && Desired(u, job) && ProxyDone(u.pools, job) && Updates(merged, u, job) == []
  {
    hide WellFormed, JobOk, Safe, Final, Desired, Updates, ProxyDone, NoClash, KeptPools;
    var t := Pass(merged, s, job, ids);
    Converges(merged, s, Run(job, s.pools, ids));
    DesiredSettles(merged, t, Run(job, t.pools, ids));
    var u := Pass(merged, t, job, ids);
    NothingToDoIffDesired(merged, u, Run(job, u.pools, ids));
  }

  /** Fixed point from every well-formed state: the plan for the fourth pass is empty. */
  lemma SettledAfterThreePasses(merged: bool, s: State, job: Job, ids: Ids)
    requires WellFormed(s, ids) && JobOk(job)
    ensures var v := Pass(merged, Pass(merged, Pass(merged, s, job, ids), job, ids), job, ids);
      WellFormed(v, ids) && Desired(v, job) && ProxyDone(v.pools, job) && Updates(merged, v, job) == []
  {
    hide WellFormed, JobOk, Pass, Desired, Updates, ProxyDone, NoClash, WellNamed;
    PassFacts(merged, s, job, ids);
    SettledAfterTwoPasses(merged, Pass(merged, s, job, ids), job, ids);
  }

  /** Resumption: wherever a failure stops the run, the state is well-formed, and planning again from there - for the
      same or a changed service - reaches a desired state in two passes. If the names were canonical, the update that
      failed breaks no rule, the names still are canonical, and one pass is enough. */
  lemma ResumesAfterFailure(merged: bool, s: State, k: nat, r: Run, job': Job)
    requires WellFormed(s, r.ids) && JobOk(r.job) && JobOk(job') && r.listed == s.pools
    ensures var updates := Updates(merged, s, r.job);
      k <= |updates| ==>
        var stopped := Final(s, updates[..k], r);
        && WellFormed(stopped, r.ids)
        && Desired(Pass(merged, Pass(merged, stopped, job', r.ids), job', r.ids), job')
        && (WellNamed(s.pools) ==>
              && (k < |updates| ==> Accepts(stopped, updates[k], r))
              && WellNamed(stopped.pools)
              && Safe(stopped, Updates(merged, stopped, job'), Run(job', stopped.pools, r.ids))
              && Desired(Pass(merged, stopped, job', r.ids), job'))
  {
    hide WellFormed, JobOk, Safe, Final, Desired, Updates, Accepts, Effect, KeptPools, Steps, NoClash,
         WellNamed, NamesWell;
    ListingOfItself(s, r);
    UpdatesAreSteps(merged, s, r.ids, r.job);
    var updates := Updates(merged, s, r.job);
    if k <= |updates| {
      var n := StepsRunUpTo(merged, s, r);
      StoppedAnywhere(s, updates, n, k, r);
      var stopped := Final(s, updates[..k], r);
      TwoPassesConverge(merged, stopped, job', r.ids);
      if WellNamed(s.pools) {
        WellNamedNeverClashes(merged, s, r.job);
        StepsNameWell(merged, s, r.job);
        NamesWellPrefix(updates, k);
        FinalNamesWell(s, updates[..k], r);
        WellNamedNeverClashes(merged, stopped, job');
        Converges(merged, stopped, Run(job', stopped.pools, r.ids));
      }
    }
  }

  lemma NamesWellPrefix(actions: seq<Action>, k: nat)
    requires NamesWell(actions) && k <= |actions|
    ensures NamesWell(actions[..k])
  {
    hide Canonical;
  }

  // ---------------------------------------------------------------- when the health monitor is corrected

  lemma StageHealth(n: nat, merged: bool, p: Pool, q: Pool, job: Job)
    requires Wanted(job.ports, p.name) && Stage(n, merged, p, q, job) && n >= 2
    ensures q.id == p.id
    ensures var right := job.Health(PortFor(p, job).nodePort);
      q.health == right <==> p.health == right || job.ChecksHealth() || Renamed(p, job) || p.proxy != job.Proxy()
  {
    hide MembersAt, Wanted, GenPoolName, HealthFits;
    HealthFitsMeans(p, PortFor(p, job), job);
  }

  /** After a pass, gone through or not, a pool that stays has the health monitor asked for exactly if it had it
      before, or the planner looks at it under the policy, or the pool is renamed, or its proxy setting is changed. */
  lemma HealthMonitorCorrectedIff(merged: bool, s: State, r: Run, i: nat)
    requires WellFormed(s, r.ids) && JobOk(r.job) && r.listed == s.pools && i < |KeptPools(s.pools, r.job.ports)|
    ensures var p, t := KeptPools(s.pools, r.job.ports)[i], Final(s, Updates(merged, s, r.job), r);
      && Wanted(r.job.ports, p.name) && i < |t.pools| && t.pools[i].id == p.id
      && var right := r.job.Health(PortFor(p, r.job).nodePort);
      (t.pools[i].health == right <==>
        p.health == right || r.job.ChecksHealth() || Renamed(p, r.job) || p.proxy != r.job.Proxy())
  {
    hide WellFormed, JobOk, Safe, Final, Updates, Steps, NoClash, KeptPools, Wanted, Stage, PoolOk, IsListed, Accepts,
         AllNamed, AllKept, IsNew, HasName, PortTaken, GenPoolName, Renamed, PortFor;
    var kept := KeptPools(s.pools, r.job.ports);
    var updates := Updates(merged, s, r.job);
    ListingOfItself(s, r);
    UpdatesAreSteps(merged, s, r.ids, r.job);
    var t := Final(s, updates, r);
    if NoClash(merged, s, r.job) {
      StepsRun(merged, s, r);
      assert t.pools[..|kept|][i] == t.pools[i];
      StageHealth(3, merged, kept[i], t.pools[i], r.job);
    } else {
      var n, m := ClashStops(merged, s, r);
      StoppedAnywhere(s, updates, n, |updates|, r);
      assert updates[..|updates|] == updates;
      StageHealth(if i < m then 3 else 2, merged, kept[i], t.pools[i], r.job);
    }
  }

  // ---------------------------------------------------------------- when the health monitor is noticed

  /** The load balancer with another health monitor on pool `i`. */
  function Tampered(s: State, i: nat, h: HealthMonitor): State
    requires i < |s.pools|
  {
    s.(pools := s.pools[i := s.pools[i].(health := h)])
  }

  lemma TamperedWellFormed(s: State, i: nat, h: HealthMonitor, ids: Ids)
    requires WellFormed(s, ids) && i < |s.pools|
    ensures WellFormed(Tampered(s, i, h), ids)
  {
    hide Parses, Canonical, Fields, Token;
    assert PoolOk(s.pools[i]) && FreshPool(s.pools[i], ids, s.nextObject, s.nextMember);
    SameKeyReflexive(s.pools[i].name);
    ReplacePoolKeepsWellFormed(s, i, s.pools[i].(health := h), s.nextMember, ids);
  }

  lemma TamperedServes(s: State, i: nat, h: HealthMonitor, sp: ServicePort, job: Job)
    requires i < |s.pools| && !job.ChecksHealth() && ServedOnce(s, sp, job)
    ensures ServedOnce(Tampered(s, i, h), sp, job)
  {
    hide GenPoolName, Exact, IsTcp, Fields;
    var a, b :| Serves(s, a, b, sp, job);
    assert Serves(Tampered(s, i, h), a, b, sp, job);
  }

  lemma TamperedIsFound(s: State, i: nat, h: HealthMonitor, job: Job)
    requires i < |s.pools| && JobOk(job) && job.ChecksHealth() && Desired(Tampered(s, i, h), job)
    ensures h == job.Health(Fields(s.pools[i].name).nodePort)
  {
    hide JobOk, Desired, GenPoolName, Fields, Exact;
    var t := Tampered(s, i, h);
    DesiredPoolServes(t, i, job);
    assert ServesSome(t.pools[i], job);
    var sp :| sp in job.ports && PortOk(sp) && PoolServes(t.pools[i], sp, job);
    GenPoolNameFields(sp);
  }

  /** Where nothing else is to be done, a health monitor that is not the one asked for is noticed exactly under the
      Cluster policy, and under the Local policy with a positive health check port: for any other policy the planner
      does not look at it. */
  lemma HealthMonitorEnforcedIff(merged: bool, s: State, i: nat, h: HealthMonitor, r: Run)
    requires WellFormed(s, r.ids) && JobOk(r.job) && i < |s.pools| && Desired(s, r.job) && ProxyDone(s.pools, r.job)
    requires h != r.job.Health(Fields(s.pools[i].name).nodePort)
    ensures Updates(merged, Tampered(s, i, h), r.job) != [] <==> r.job.ChecksHealth()
  {
    hide WellFormed, JobOk, Updates, Fields, ServedOnce, KeepsListener, IsCurrentName;
    var t := Tampered(s, i, h);
    TamperedWellFormed(s, i, h, r.ids);
    NothingToDoIffDesired(merged, t, Run(r.job, t.pools, r.ids));
    if r.job.ChecksHealth() {
      if Desired(t, r.job) {
        TamperedIsFound(s, i, h, r.job);
      }
    } else {
      forall n | 0 <= n < |r.job.ports| ensures ServedOnce(t, r.job.ports[n], r.job) {
        TamperedServes(s, i, h, r.job.ports[n], r.job);
      }
      assert forall m :: 0 <= m < |t.pools| ==>
        t.pools[m].name == s.pools[m].name && t.pools[m].proxy == s.pools[m].proxy;
    }
  }

  // ---------------------------------------------------------------- coalescing preserves meaning

  /** The same targets on the same ports. */
  ghost predicate SameTargets(a: seq<Member>, b: seq<Member>) {
    forall target, port :: HasTarget(a, target, port) <==> HasTarget(b, target, port)
  }

  ghost predicate SamePool(p: Pool, q: Pool) {
    p == q.(members := p.members) && SameTargets(p.members, q.members)
  }

  /** Equal but for the identifiers, and the order, of the members. */
  ghost predicate SameUpToMembers(s: State, t: State) {
    && s.listeners == t.listeners && s.nextObject == t.nextObject && |s.pools| == |t.pools|
    && forall i :: 0 <= i < |s.pools| ==> SamePool(s.pools[i], t.pools[i])
  }

  lemma ExactDetermines(a: seq<Member>, b: seq<Member>, nodes: seq<string>, port: int)
    requires Exact(a, nodes, port) && Exact(b, nodes, port)
    ensures SameTargets(a, b)
  {
  }

  lemma StageDetermines(p: Pool, q1: Pool, q2: Pool, job: Job)
    requires Wanted(job.ports, p.name) && Stage(3, false, p, q1, job) && Stage(3, true, p, q2, job)
    ensures SamePool(q1, q2)
  {
    hide Exact, Wanted, Stale, Early, HealthFits, GenPoolName, Fields, SameTargets;
    ExactDetermines(q1.members, q2.members, job.nodes, PortFor(p, job).nodePort);
  }

  lemma SameNames(a: seq<Pool>, b: seq<Pool>, name: string)
    requires |a| == |b| && forall i :: 0 <= i < |a| ==> SamePool(a[i], b[i])
    ensures NamedIndex(a, name) == NamedIndex(b, name)
  {
  }

  /** Creating pools and listeners does not look at members. */
  lemma SameCreate(s: State, t: State, a: Action, r: Run)
    requires SameUpToMembers(s, t) && (a.CreatePool? || a.CreateListener?)
    ensures Accepts(s, a, r) <==> Accepts(t, a, r)
    ensures Accepts(s, a, r) ==> SameUpToMembers(Effect(s, a, r), Effect(t, a, r))
  {
    hide ParsePoolName, Fields, HasTarget;
    SameNames(s.pools, t.pools, a.poolName);
    if a.CreatePool? {
      var f := Fields(a.poolName);
      forall k: nat, l: nat
        ensures SameTargets(NewMembers(f.nodePort, r.job.nodes, r.ids, k),
          NewMembers(f.nodePort, r.job.nodes, r.ids, l))
      {
        SameNewMembers(f.nodePort, r.job.nodes, r.ids, k, l);
      }
    }
  }

  lemma SameNewMembers(port: int, nodes: seq<string>, ids: Ids, k: nat, l: nat)
    ensures SameTargets(NewMembers(port, nodes, ids, k), NewMembers(port, nodes, ids, l))
  {
  }

  lemma NewMembersExact(port: int, nodes: seq<string>, ids: Ids, k: nat)
    ensures Exact(NewMembers(port, nodes, ids, k), nodes, port)
  {
  }

  predicate OnlyCreates(actions: seq<Action>) {
    forall i :: 0 <= i < |actions| ==> actions[i].CreatePool? || actions[i].CreateListener?
  }

  lemma {:induction false} SameCreates(s: State, t: State, actions: seq<Action>, r: Run)
    requires SameUpToMembers(s, t) && OnlyCreates(actions)
    ensures SameUpToMembers(Final(s, actions, r), Final(t, actions, r))
    decreases |actions|
  {
    hide SameUpToMembers, Accepts, Effect;
    if actions == [] {
    } else {
      SameCreate(s, t, actions[0], r);
      if Accepts(s, actions[0], r) {
        SameCreates(Effect(s, actions[0], r), Effect(t, actions[0], r), actions[1..], r);
      }
    }
  }

  lemma {:induction false} CreatesOnlyCreate(ports: seq<ServicePort>, pools: seq<Pool>, views: seq<ListenerView>)
    ensures OnlyCreates(Creates(ports, pools, views))
  {
    hide LacksPool, LacksListener, GenPoolName;
    if ports == [] {
    } else {
      CreatesOnlyCreate(ports[1..], pools, views);
    }
  }

  lemma SameAfterStep5(s: State, r: Run)
    requires WellFormed(s, r.ids) && JobOk(r.job) && ListingOf(s, r) && NoClash(false, s, r.job)
      && NoClash(true, s, r.job)
    ensures SameUpToMembers(Final(s, FirstSteps(false, s, r.job), r), Final(s, FirstSteps(true, s, r.job), r))
  {
    hide WellFormed, JobOk, ListingOf, FirstSteps, Final, Safe, Stage, PoolOk, Wanted, IsListed, SamePool, KeptPools,
         KeptListeners, NoClash;
    FirstStepsRun(false, s, r);
    FirstStepsRun(true, s, r);
    var kept := KeptPools(s.pools, r.job.ports);
    var t1, t2 := Final(s, FirstSteps(false, s, r.job), r), Final(s, FirstSteps(true, s, r.job), r);
    forall i | 0 <= i < |kept| ensures SamePool(t1.pools[i], t2.pools[i]) {
      StageDetermines(kept[i], t1.pools[i], t2.pools[i], r.job);
    }
  }

  /** If the plan meets no clash, the coalesced plan meets none. */
  lemma CoalescingAddsNoClash(s: State, job: Job)
    requires NoClash(false, s, job)
    ensures NoClash(true, s, job)
  {
    hide Wanted, Stale, Canonical, MemberDeletes, MemberCreates;
    forall i | 0 <= i < |s.pools| ensures !Clashes(true, s.pools[i], job) {
      assert !Clashes(false, s.pools[i], job);
    }
  }

  /** Coalescing preserves meaning: where the plan runs through, so does the coalesced plan, and both end in the same
      state up to member identifiers. */
  lemma CoalescingPreservesMeaning(s: State, r: Run)
    requires WellFormed(s, r.ids) && JobOk(r.job) && r.listed == s.pools && NoClash(false, s, r.job)
    ensures Safe(s, PlanFor(s, r.job), r) && Safe(s, Coalesce(PlanFor(s, r.job)), r)
    ensures SameUpToMembers(Final(s, PlanFor(s, r.job), r), Final(s, Coalesce(PlanFor(s, r.job)), r))
  {
    hide WellFormed, JobOk, ListingOf, FirstSteps, Final, Safe, SameUpToMembers, Steps, PlanFor, Coalesce, Creates,
         Reached, NoClash;
    ListingOfItself(s, r);
    RunAcceptedIff(false, s, r);
    CoalescingAddsNoClash(s, r.job);
    UpdatesAreSteps(false, s, r.ids, r.job);
    UpdatesAreSteps(true, s, r.ids, r.job);
    StepsRun(false, s, r);
    StepsRun(true, s, r);
    SameAfterStep5(s, r);
    var creates := Creates(r.job.ports, Marked(s.pools, r.job.ports), Views(s));
    CreatesOnlyCreate(r.job.ports, Marked(s.pools, r.job.ports), Views(s));
    SameCreates(Final(s, FirstSteps(false, s, r.job), r), Final(s, FirstSteps(true, s, r.job), r), creates, r);
  }
}
