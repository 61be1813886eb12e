/** Runs from states whose pool names parse but need not be canonical: when they are accepted, and where they stop. */
module Clashing {
  import opened Text
  import opened PoolNames
  import opened LoadBalancers
  import opened Actions
  import opened Cloud
  import opened Plans
  import opened PoolRuns
  import opened Stages
  import opened WholeRun
  import opened CreateRun
  import opened Convergence
  import opened Goals
  import opened MergedPlan

  // ---------------------------------------------------------------- canonical names

  /** Every pool name is exactly what the program prints. */
  predicate WellNamed(pools: seq<Pool>) {
    forall i :: 0 <= i < |pools| ==> Canonical(pools[i].name)
  }

  lemma WellNamedNeverClashes(merged: bool, s: State, job: Job)
    requires WellNamed(s.pools)
    ensures NoClash(merged, s, job)
  {
    hide Canonical, Wanted, Stale, MemberDeletes, MemberCreates;
  }

  /** The requests that give a pool a name give it a canonical one. */
  predicate NamesWell(actions: seq<Action>) {
    forall i :: 0 <= i < |actions| && (actions[i].UpdatePool? || actions[i].CreatePool?) ==>
      Canonical(actions[i].poolName)
  }

  lemma EffectNamesWell(s: State, a: Action, r: Run)
    requires WellNamed(s.pools) && NamesWell([a]) && Accepts(s, a, r)
    ensures WellNamed(Effect(s, a, r).pools)
  {
    hide Canonical, ParsePoolName, Fields, HasTarget;
    assert [a][0] == a;
  }

  lemma {:induction false} FinalNamesWell(s: State, actions: seq<Action>, r: Run)
    requires WellNamed(s.pools) && NamesWell(actions)
    ensures WellNamed(Final(s, actions, r).pools)
    decreases |actions|
  {
    hide Canonical, Accepts, Effect, WellNamed;
    if actions == [] || !Accepts(s, actions[0], r) {
    } else {
      EffectNamesWell(s, actions[0], r);
      FinalNamesWell(Effect(s, actions[0], r), actions[1..], r);
    }
  }

  lemma NamesWellConcat(a: seq<Action>, b: seq<Action>)
    requires NamesWell(a) && NamesWell(b)
    ensures NamesWell(a + b)
  {
    hide Canonical;
  }

  lemma PoolActionsNameWell(merged: bool, phase: Phase, p: Pool, job: Job)
    requires JobOk(job)
    ensures NamesWell(PoolActions(phase, p, job)) && NamesWell(Emitted(merged, phase, p, job))
  {
    hide Canonical, Stale, MemberDeletes, MemberCreates, GenPoolName, Fields, HealthFits, Matches, PortOk;
    MemberDeletesShape(p, p.members, job);
    MemberCreatesShape(p, job.nodes);
    if phase == UpdatePools && Wanted(job.ports, p.name) {
      PortOkAt(job, MatchIndex(job.ports, Fields(p.name).port, Fields(p.name).protocol));
      GenPoolNameFields(PortFor(p, job));
    }
  }

  lemma {:induction false} PhaseNamesWell(merged: bool, phase: Phase, ps: seq<Pool>, job: Job)
    requires JobOk(job)
    ensures NamesWell(PhaseActions(phase, ps, job)) && NamesWell(EmittedActions(merged, phase, ps, job))
  {
    hide Canonical, PoolActions, Emitted, JobOk;
    if ps == [] {
    } else {
      PoolActionsNameWell(merged, phase, ps[0], job);
      PhaseNamesWell(merged, phase, ps[1..], job);
      NamesWellConcat(PoolActions(phase, ps[0], job), PhaseActions(phase, ps[1..], job));
      NamesWellConcat(Emitted(merged, phase, ps[0], job), EmittedActions(merged, phase, ps[1..], job));
    }
  }

  lemma {:induction false} CreatesNameWell(ports: seq<ServicePort>, pools: seq<Pool>, views: seq<ListenerView>)
    requires forall i :: 0 <= i < |ports| ==> PortOk(ports[i])
    ensures NamesWell(Creates(ports, pools, views))
  {
    hide LacksPool, LacksListener, GenPoolName, Canonical, PortOk;
    if ports == [] {
    } else {
      CreatesNameWell(ports[1..], pools, views);
      GenPoolNameFields(ports[0]);
    }
  }

  lemma {:induction false} ListenerDeletesNameWell(views: seq<ListenerView>, ports: seq<ServicePort>)
    ensures NamesWell(ListenerDeletes(views, ports))
  {
    hide Canonical;
    if views == [] {
    } else {
      ListenerDeletesNameWell(views[1..], ports);
    }
  }

  lemma StepsNameWell(merged: bool, s: State, job: Job)
    requires JobOk(job)
    ensures NamesWell(Steps(merged, s, job))
  {
    hide JobOk, NamesWell, ListenerDeletes, PhaseActions, EmittedActions, Creates, KeptPools, Marked, Views, PortOk;
    var kept := KeptPools(s.pools, job.ports);
    var a, b := ListenerDeletes(Views(s), job.ports), PhaseActions(DeletePools, s.pools, job);
    var c, d, e := EmittedActions(merged, DeleteMembers, kept, job), EmittedActions(merged, UpdatePools, kept, job),
                   EmittedActions(merged, AddMembers, kept, job);
    ListenerDeletesNameWell(Views(s), job.ports);
    PhaseNamesWell(merged, DeletePools, s.pools, job);
    PhaseNamesWell(merged, DeleteMembers, kept, job);
    PhaseNamesWell(merged, UpdatePools, kept, job);
    PhaseNamesWell(merged, AddMembers, kept, job);
    forall i | 0 <= i < |job.ports| ensures PortOk(job.ports[i]) { PortOkAt(job, i); }
    CreatesNameWell(job.ports, Marked(s.pools, job.ports), Views(s));
    NamesWellConcat(a, b);
    NamesWellConcat(a + b, c);
    NamesWellConcat(a + b + c, d);
    NamesWellConcat(a + b + c + d, e);
    NamesWellConcat(a + b + c + d + e, Creates(job.ports, Marked(s.pools, job.ports), Views(s)));
  }

  // ---------------------------------------------------------------- where a run stops

  /** The run goes through up to action number `n`, which is refused if there is one. */
  ghost predicate RunsUpTo(s: State, actions: seq<Action>, n: nat, r: Run) {
    && n <= |actions| && Safe(s, actions[..n], r)
    && (n < |actions| ==> !Accepts(Final(s, actions[..n], r), actions[n], r))
  }

  lemma {:induction false} StopsThere(s: State, done: seq<Action>, rest: seq<Action>, r: Run)
    requires Safe(s, done, r) && rest != [] && !Accepts(Final(s, done, r), rest[0], r)
    ensures Final(s, done + rest, r) == Final(s, done, r) && !Safe(s, done + rest, r)
    decreases |done|
  {
    hide WellFormed, Accepts, Effect;
    if done == [] {
      assert done + rest == rest;
    } else {
      assert (done + rest)[0] == done[0] && (done + rest)[1..] == done[1..] + rest;
      StopsThere(Effect(s, done[0], r), done[1..], rest, r);
    }
  }

  /** A run that is stopped after some actions, or that is refused one, has done some prefix of what is accepted. */
  lemma StoppedAnywhere(s: State, actions: seq<Action>, n: nat, k: nat, r: Run)
    requires RunsUpTo(s, actions, n, r) && k <= |actions|
    ensures var m := if k < n then k else n;
      && Final(s, actions[..k], r) == Final(s, actions[..m], r) && WellFormed(Final(s, actions[..k], r), r.ids)
      && (k < n ==> Accepts(Final(s, actions[..k], r), actions[k], r))
    ensures Safe(s, actions, r) <==> n == |actions|
  {
    hide WellFormed, Accepts, Effect, Safe, Final;
    var done := actions[..n];
    if k < n {
      assert done[..k] == actions[..k];
      SafePrefix(s, done, k, r);
    } else {
      assert done[..n] == done;
      SafePrefix(s, done, n, r);
      if k > n {
        assert actions[..k] == done + actions[n..k];
        StopsThere(s, done, actions[n..k], r);
      }
    }
    if n < |actions| {
      assert actions == done + actions[n..];
      StopsThere(s, done, actions[n..], r);
    } else {
      assert done == actions;
    }
  }

  // ---------------------------------------------------------------- the run of a plan

  lemma {:induction false} FirstClash(merged: bool, ps: seq<Pool>, hi: nat, job: Job) returns (i: nat)
    requires hi <= |ps| && !ClashFree(merged, ps, 0, hi, job)
    ensures i < hi && Clashes(merged, ps[i], job) && ClashFree(merged, ps, 0, i, job)
  {
    hide Clashes;
    if ClashFree(merged, ps, 0, hi - 1, job) {
      i := hi - 1;
    } else {
      i := FirstClash(merged, ps, hi - 1, job);
    }
  }

  lemma {:induction false} EmittedActionsSplit(merged: bool, phase: Phase, ps: seq<Pool>, i: nat, job: Job)
    requires i < |ps|
    ensures EmittedActions(merged, phase, ps, job)
         == EmittedActions(merged, phase, ps[..i], job)
           + (Emitted(merged, phase, ps[i], job) + EmittedActions(merged, phase, ps[i + 1..], job))
    decreases i
  {
    hide Emitted;
    if i == 0 {
      assert ps[..0] == [];
    } else {
      EmittedActionsSplit(merged, phase, ps[1..], i - 1, job);
      assert ps[..i][0] == ps[0] && ps[..i][1..] == ps[1..][..i - 1] && ps[1..][i..] == ps[i + 1..];
    }
  }

  /** Some of the pools are after step 5, the others after step 4. */
  ghost predicate Between(merged: bool, s: State, t: State, i: nat, r: Run) {
    var kept := KeptPools(s.pools, r.job.ports);
    && Planned(kept, r) && i <= |kept| == |t.pools|
    && AtStage(3, merged, kept, t.pools, 0, i, r) && AtStage(2, merged, kept, t.pools, i, |kept|, r)
  }

  /** A clash stops the run in step 5, at the first clashing pool. */
  lemma ClashStops(merged: bool, s: State, r: Run) returns (n: nat, i: nat)
    requires WellFormed(s, r.ids) && JobOk(r.job) && ListingOf(s, r) && !NoClash(merged, s, r.job)
    ensures var actions := Steps(merged, s, r.job);
      && n < |actions| && RunsUpTo(s, actions, n, r) && actions[n].CreateMember?
      && Between(merged, s, Final(s, actions[..n], r), i, r)
  {
    hide WellFormed, JobOk, ListingOf, Safe, Final, AtStage, Planned, EmittedActions, FourSteps, KeptPools, NoClash,
         ClashFree, Clashes, Steps, Creates, Marked, Views, Accepts, KeptListeners;
    var kept := KeptPools(s.pools, r.job.ports);
    FourStepsRun(merged, s, r);
    KeptClashFree(merged, s, r.job);
    i := FirstClash(merged, kept, |kept|, r.job);
    var a := FourSteps(merged, s, r.job);
    var s4 := Final(s, a, r);
    n := ClashStopsStep5(merged, s4, kept, i, r);
    var e := EmittedActions(merged, AddMembers, kept, r.job);
    var f := Creates(r.job.ports, Marked(s.pools, r.job.ports), Views(s));
    StepsAreFirstSteps(merged, s, r.job);
    SafeConcat(s, a, e[..n], r);
    assert (a + e + f)[..|a| + n] == a + e[..n];
    assert (a + e + f)[|a| + n] == e[n];
    n := |a| + n;
  }

  lemma ClashStopsStep5(merged: bool, s: State, kept: seq<Pool>, i: nat, r: Run) returns (n: nat)
    requires WellFormed(s, r.ids) && JobOk(r.job) && Planned(kept, r) && AtStage(2, merged, kept, s.pools, 0, |kept|, r)
    requires i < |kept| && Clashes(merged, kept[i], r.job) && ClashFree(merged, kept, 0, i, r.job)
    ensures var e := EmittedActions(merged, AddMembers, kept, r.job);
      && n < |e| && Safe(s, e[..n], r) && e[n].CreateMember? && !Accepts(Final(s, e[..n], r), e[n], r)
      && |Final(s, e[..n], r).pools| == |kept|
      && AtStage(3, merged, kept, Final(s, e[..n], r).pools, 0, i, r)
      && AtStage(2, merged, kept, Final(s, e[..n], r).pools, i, |kept|, r)
  {
    hide WellFormed, JobOk, Safe, Final, Stage, EmittedActions, ClashFree, Clashes, Emitted, Accepts, PoolOk,
         Wanted, IsListed;
    var before := EmittedActions(merged, AddMembers, kept[..i], r.job);
    assert kept[0..i] == kept[..i];
    assert AtStage(3, merged, kept, s.pools, 0, 0, r);
    StepRun(2, merged, kept, s, 0, i, r);
    var t := Final(s, before, r);
    EmittedActionsSplit(merged, AddMembers, kept, i, r.job);
    n := |before|;
    var e := EmittedActions(merged, AddMembers, kept, r.job);
    ClashIsRefused(merged, kept[i], t.pools[i], r);
    assert e[..n] == before && e[n] == Emitted(merged, AddMembers, kept[i], r.job)[0];
    SafeFinal(s, before, r);
    RefusedOnPool(t, i, e[n], r);
  }

  lemma RefusedOnPool(s: State, i: nat, a: Action, r: Run)
    requires WellFormed(s, r.ids) && i < |s.pools| && OnlyChanges(a, s.pools[i]) && a.CreateMember?
      && !PoolAccepts(s.pools[i], a, r)
    ensures !Accepts(s, a, r)
  {
    hide PoolAccepts, PoolOk, FreshPool, SameKey, ListenersOk, RefsOk;
    PoolIndexIs(s.pools, i);
  }

  /** After step 4 every pool has the current name of its service port. */
  lemma StageNamesWell(n: nat, merged: bool, p: Pool, q: Pool, job: Job)
    requires JobOk(job) && PoolOk(p) && Wanted(job.ports, p.name) && Stage(n, merged, p, q, job) && n >= 2
    ensures q.name == GenPoolName(PortFor(p, job)) && Canonical(q.name)
  {
    hide MembersAt, Fields, GenPoolName, Stale, Matches, SameKey, HealthFits, Canonical, PoolOk, JobOk;
    PortForFacts(p, job);
    GenPoolNameFields(PortFor(p, job));
  }

  lemma BetweenNamesWell(merged: bool, s: State, t: State, i: nat, r: Run)
    requires JobOk(r.job) && Between(merged, s, t, i, r)
    ensures WellNamed(t.pools)
  {
    hide JobOk, Stage, PoolOk, Wanted, IsListed, Canonical, KeptPools;
    var kept := KeptPools(s.pools, r.job.ports);
    forall m | 0 <= m < |t.pools| ensures Canonical(t.pools[m].name) {
      StageNamesWell(if m < i then 3 else 2, merged, kept[m], t.pools[m], r.job);
    }
  }

  lemma AllNamedIsWellNamed(pools: seq<Pool>, job: Job)
    requires JobOk(job) && AllNamed(pools, job.ports)
    ensures WellNamed(pools)
  {
    hide JobOk, GenPoolName, Canonical;
    forall i | 0 <= i < |pools| ensures Canonical(pools[i].name) {
      assert IsCurrentName(pools[i].name, job.ports);
      var j :| 0 <= j < |job.ports| && pools[i].name == GenPoolName(job.ports[j]);
      PortOkAt(job, j);
      GenPoolNameFields(job.ports[j]);
    }
  }

  /** How far the run of a plan gets: to the end exactly if nothing clashes. */
  lemma StepsRunUpTo(merged: bool, s: State, r: Run) returns (n: nat)
    requires WellFormed(s, r.ids) && JobOk(r.job) && ListingOf(s, r)
    ensures RunsUpTo(s, Steps(merged, s, r.job), n, r)
    ensures n == |Steps(merged, s, r.job)| <==> NoClash(merged, s, r.job)
    ensures Safe(s, Steps(merged, s, r.job), r) <==> NoClash(merged, s, r.job)
  {
    hide WellFormed, JobOk, ListingOf, Safe, Final, Steps, NoClash, Reached, Between, Accepts;
    var actions := Steps(merged, s, r.job);
    if NoClash(merged, s, r.job) {
      StepsRun(merged, s, r);
      n := |actions|;
      assert actions[..n] == actions;
    } else {
      var i;
      n, i := ClashStops(merged, s, r);
    }
    StoppedAnywhere(s, actions, n, 0, r);
  }

  /** After a whole pass, whether it went through or was refused something, the state is well-formed and every pool
      name is canonical, so the next pass meets no clash. */
  lemma PassNamesWell(merged: bool, s: State, r: Run)
    requires WellFormed(s, r.ids) && JobOk(r.job) && ListingOf(s, r)
    ensures var t := Final(s, Steps(merged, s, r.job), r); WellFormed(t, r.ids) && WellNamed(t.pools)
  {
    hide WellFormed, JobOk, ListingOf, Safe, Final, Steps, NoClash, Between, Accepts, AllNamed, WellNamed, KeptPools;
    var actions := Steps(merged, s, r.job);
    if NoClash(merged, s, r.job) {
      StepsRun(merged, s, r);
      var t := Final(s, actions, r);
      ReachedFacts(merged, s, t, r);
      AllNamedIsWellNamed(t.pools, r.job);
    } else {
      var n, i := ClashStops(merged, s, r);
      StoppedAnywhere(s, actions, n, |actions|, r);
      assert actions[..|actions|] == actions;
      BetweenNamesWell(merged, s, Final(s, actions[..n], r), i, r);
    }
  }

  lemma ReachedFacts(merged: bool, s: State, t: State, r: Run)
    requires Reached(merged, s, t, r)
    ensures WellFormed(t, r.ids) && AllNamed(t.pools, r.job.ports)
  {
    hide WellFormed, AllNamed, AllKept, Planned, Stage, IsNew, HasName, PortTaken;
  }

  // ---------------------------------------------------------------- an input that clashes

  /** A load balancer with one empty pool, whose name has a leading zero. */
  function LeadingZeroState(ids: Ids): State {
    State([], [Pool(ids.objects(0), "tcp-080-30000", [], HealthMonitor(TCP, 30000), PROXY_DISABLED)], 1, 0)
  }

  function OnePortJob(nodes: seq<string>): Job {
    Job([ServicePort("TCP", 80, 30000)], nodes, ClusterPolicy, 0, false)
  }

  lemma LeadingZeroDigits()
    ensures NatText(80) == "80" && NatText(30000) == "30000"
  {
    assert NatText(8) == "8" && NatText(3) == "3";
    assert NatText(80) == NatText(8) + "0" && NatText(30) == NatText(3) + "0";
    assert NatText(300) == NatText(30) + "0" && NatText(3000) == NatText(300) + "0";
    assert NatText(30000) == NatText(3000) + "0";
  }

  lemma LeadingZeroName()
    ensures ParsePoolName("tcp-080-30000") == Some(NameFields(TCP, 80, 30000)) && !Canonical("tcp-080-30000")
  {
    hide ParsePoolName, Canonical, NatText;
    LeadingZeroDigits();
    LeadingZeroIsNotCanonical(NameFields(TCP, 80, 30000));
    assert TCP + "-" + ("0" + "80") + "-" + "30000" == "tcp-080-30000";
  }

  lemma LeadingZeroPool(ids: Ids, nodes: seq<string>)
    requires GoodIds(ids)
    ensures var s, job := LeadingZeroState(ids), OnePortJob(nodes);
      && WellFormed(s, ids) && Wanted(job.ports, s.pools[0].name) && !Stale(job.ports, s.pools[0].name)
  {
    LeadingZeroName();
    TcpFacts();
    hide ParsePoolName, IsTcp, Token, Canonical;
    var s, job := LeadingZeroState(ids), OnePortJob(nodes);
    MatchesTcp(job.ports[0], 80, TCP);
    assert Matches(job.ports[0], 80, TCP);
    forall n: nat | 1 <= n ensures ids.objects(n) != ids.objects(0) {
      assert 0 < n;
    }
    assert PoolOk(s.pools[0]) && FreshPool(s.pools[0], ids, 1, 0);
  }

  lemma OnePortJobOk(nodes: seq<string>)
    requires NoRepeats(nodes) && forall i :: 0 <= i < |nodes| ==> Token(nodes[i])
    ensures JobOk(OnePortJob(nodes))
  {
    hide Token;
  }

  lemma {:induction false} EmptyPoolNeedsAll(p: Pool, nodes: seq<string>)
    requires p.members == []
    ensures |MemberCreates(p, nodes)| == |nodes|
  {
    hide Fields;
    if nodes == [] {
    } else {
      EmptyPoolNeedsAll(p, nodes[1..]);
    }
  }

  /** With one node to add, the run of the coalesced plan is stopped; with two, the plan is stopped but not the
      coalesced plan: step 8 turns the two creations into a second replacement. */
  lemma LeadingZeroClashes(ids: Ids)
    requires GoodIds(ids)
    ensures var s, one, two := LeadingZeroState(ids), OnePortJob(["10.0.0.1"]), OnePortJob(["10.0.0.1", "10.0.0.2"]);
      && WellFormed(s, ids) && JobOk(one) && JobOk(two)
      && !NoClash(true, s, one) && NoClash(true, s, two) && !NoClash(false, s, two)
  {
    assert Token("10.0.0.1") && Token("10.0.0.2");
    hide ParsePoolName, Wanted, Stale, WellFormed, Canonical, MemberCreates, Token, JobOk, MatchIndex;
    var s, one, two := LeadingZeroState(ids), OnePortJob(["10.0.0.1"]), OnePortJob(["10.0.0.1", "10.0.0.2"]);
    OnePortJobOk(one.nodes);
    OnePortJobOk(two.nodes);
    LeadingZeroPool(ids, one.nodes);
    LeadingZeroPool(ids, two.nodes);
    LeadingZeroName();
    var p := s.pools[0];
    EmptyPoolNeedsAll(p, one.nodes);
    EmptyPoolNeedsAll(p, two.nodes);
    assert Clashes(true, p, one) && !Clashes(true, p, two) && Clashes(false, p, two);
  }

  /** A second service port, without a pool, and the proxy protocol requested. */
  function TwoPortJob(): Job {
    Job([ServicePort("TCP", 80, 30000), ServicePort("TCP", 81, 30001)], ["10.0.0.1"], ClusterPolicy, 0, true)
  }

  lemma TwoPortJobOk()
    ensures JobOk(TwoPortJob())
  {
    assert Token("10.0.0.1");
    hide Token;
  }

  lemma LeadingZeroPoolOfTwoPorts(p: Pool)
    requires ParsePoolName(p.name) == Some(NameFields(TCP, 80, 30000))
    ensures Wanted(TwoPortJob().ports, p.name) && !Stale(TwoPortJob().ports, p.name) && Fields(p.name).port == 80
  {
    hide ParsePoolName, IsTcp;
    TcpFacts();
    var ports := TwoPortJob().ports;
    MatchesTcp(ports[0], 80, TCP);
    MatchesTcp(ports[1], 80, TCP);
    assert Matches(ports[0], 80, TCP) && !Matches(ports[1], 80, TCP);
  }

  lemma LeadingZeroClashesOfTwoPorts(ids: Ids)
    requires GoodIds(ids)
    ensures WellFormed(LeadingZeroState(ids), ids) && JobOk(TwoPortJob())
      && !NoClash(true, LeadingZeroState(ids), TwoPortJob())
      && Fields(LeadingZeroState(ids).pools[0].name).port == 80
  {
    hide ParsePoolName, Wanted, Stale, WellFormed, Canonical, MemberCreates, Fields, JobOk, GoodIds;
    var s, job := LeadingZeroState(ids), TwoPortJob();
    LeadingZeroName();
    LeadingZeroPool(ids, job.nodes);
    TwoPortJobOk();
    var p := s.pools[0];
    LeadingZeroPoolOfTwoPorts(p);
    EmptyPoolNeedsAll(p, job.nodes);
    assert Clashes(true, p, job);
  }
}
