/** One pool on its way through steps 3 to 5, with or without coalescing. */
module Stages {
  import opened Text
  import opened PoolNames
  import opened LoadBalancers
  import opened Actions
  import opened Cloud
  import opened Plans
  import opened PoolRuns

  /** The service port a wanted pool belongs to. */
  function PortFor(p: Pool, job: Job): ServicePort
    requires Wanted(job.ports, p.name)
  {
    job.ports[MatchIndex(job.ports, Fields(p.name).port, Fields(p.name).protocol)]
  }

  lemma SamePortSameServicePort(job: Job, i: nat, j: nat)
    requires JobOk(job) && i < |job.ports| && j < |job.ports| && job.ports[i].port == job.ports[j].port
    ensures i == j
  {
  }

  /** The name of a wanted pool is not the one the program prints for its service port. */
  predicate Renamed(p: Pool, job: Job)
    requires Wanted(job.ports, p.name)
  {
    GenPoolName(PortFor(p, job)) != p.name
  }

  /** For a pool that some service port wants: it is a TCP pool, and its name is outdated exactly when its node port
      is or when it is not canonical. */
  lemma PortForFacts(p: Pool, job: Job)
    requires JobOk(job) && PoolOk(p) && Wanted(job.ports, p.name)
    ensures var sp, f := PortFor(p, job), Fields(p.name);
      && PortOk(sp) && sp in job.ports && f.port == sp.port && f.protocol == TCP
      && SameKey(GenPoolName(sp), p.name)
      && (Stale(job.ports, p.name) <==> sp.nodePort != f.nodePort)
      && (Renamed(p, job) <==> Stale(job.ports, p.name) || !Canonical(p.name))
    ensures p.name != POOL_TO_BE_DELETED
  {
    hide ParsePoolName, GenPoolName, EqualFold, IsTcp, Matches;
    var sp, f := PortFor(p, job), Fields(p.name);
    ParsedFields(p.name);
    MarkerDoesNotParse();
    assert Matches(sp, f.port, f.protocol) && PortOk(sp);
    MatchesTcp(sp, f.port, f.protocol);
    GenPoolNameFields(sp);
    if sp.nodePort == f.nodePort && Canonical(p.name) {
      CanonicalNamesAgree(GenPoolName(sp), p.name);
    }
    forall i | 0 <= i < |job.ports| && Matches(job.ports[i], f.port, f.protocol) ensures job.ports[i] == sp {
      MatchesTcp(job.ports[i], f.port, f.protocol);
      SamePortSameServicePort(job, i, MatchIndex(job.ports, f.port, f.protocol));
    }
  }

  /** What steps 3 to 5 leave of the name, the health monitor and the proxy setting. */
  function Updated(p: Pool, job: Job): Pool
    requires Wanted(job.ports, p.name)
  {
    var sp := PortFor(p, job);
    if NeedsUpdate(p, sp, job) then
      p.(name := GenPoolName(sp), health := job.Health(sp.nodePort), proxy := job.Proxy())
    else p
  }

  // ---------------------------------------------------------------- coalesced steps

  /** What is left of a step for one pool after coalescing: a second member update makes the first a replacement. */
  function MergedActions(phase: Phase, p: Pool, job: Job): seq<Action> {
    var deletes, creates := PoolActions(DeleteMembers, p, job), PoolActions(AddMembers, p, job);
    match phase
    case DeleteMembers =>
      if |deletes| + |creates| <= 1 then deletes else if deletes != [] then [ReplaceMembers(p.name, p.id)] else []
    case AddMembers =>
      if |deletes| + |creates| <= 1 then creates else if deletes == [] then [ReplaceMembers(p.name, p.id)] else []
    case _ => PoolActions(phase, p, job)
  }

  function Emitted(merged: bool, phase: Phase, p: Pool, job: Job): seq<Action> {
    if merged then MergedActions(phase, p, job) else PoolActions(phase, p, job)
  }

  /** The replacement takes the place of a deletion, ahead of step 4. */
  predicate Early(merged: bool, p: Pool, job: Job) {
    var deletes, creates := PoolActions(DeleteMembers, p, job), PoolActions(AddMembers, p, job);
    merged && |deletes| + |creates| > 1 && deletes != []
  }

  /** Step 5 still creates members under the old name of a pool that step 4 renames although its node port is current.
      The replacement of step 4 has made them already. Step 8 lets only a single creation through. */
  predicate Clashes(merged: bool, p: Pool, job: Job) {
    && Wanted(job.ports, p.name) && !Stale(job.ports, p.name) && !Canonical(p.name)
    && (if merged then |MemberDeletes(p, p.members, job)| == 0 && |MemberCreates(p, job.nodes)| == 1
        else MemberCreates(p, job.nodes) != [])
  }

  // ---------------------------------------------------------------- the stages

  /** The members after `n` of the steps 3 to 5. */
  predicate MembersAt(n: nat, merged: bool, p: Pool, ms: seq<Member>, job: Job)
    requires Wanted(job.ports, p.name)
  {
    if n == 0 || (n == 1 && Stale(job.ports, p.name)) then ms == p.members
    else if n == 3 || (n == 2 && Renamed(p, job)) || Early(merged, p, job) then
      Exact(ms, job.nodes, PortFor(p, job).nodePort)
    else ms == Survivors(p, p.members, job)
  }

  /** The pool `q` is what the listed pool `p` has become after `n` of the steps 3 to 5. */
  predicate Stage(n: nat, merged: bool, p: Pool, q: Pool, job: Job)
    requires Wanted(job.ports, p.name)
  {
    && MembersAt(n, merged, p, q.members, job)
    && q == (if n < 2 then p else Updated(p, job)).(members := q.members)
  }

  function StepPhase(n: nat): Phase
    requires n < 3
  {
    if n == 0 then DeleteMembers else if n == 1 then UpdatePools else AddMembers
  }

  /** The listing the executor looks up has this pool, with this proxy setting. */
  predicate IsListed(p: Pool, r: Run) {
    var i := PoolIndex(r.listed, p.id);
    i < |r.listed| && r.listed[i].proxy == p.proxy
  }

  /** What a step assumes of the pool it works on. */
  ghost predicate StepReady(p: Pool, q: Pool, r: Run, k: nat, o: nat) {
    && GoodIds(r.ids) && JobOk(r.job) && PoolOk(p) && Wanted(r.job.ports, p.name) && IsListed(p, r)
    && PoolOk(q) && FreshPool(q, r.ids, o, k)
  }

  lemma StepDelete(merged: bool, p: Pool, q: Pool, r: Run, k: nat, o: nat)
    requires StepReady(p, q, r, k, o) && Stage(0, merged, p, q, r.job)
    ensures var actions := Emitted(merged, DeleteMembers, p, r.job);
      SafePool(q, actions, r, k, o, p.name) && Stage(1, merged, p, PoolFinal(q, actions, r, k), r.job)
  {
    hide SafePool, PoolOk, FreshPool, Fields, Matches, GenPoolName, IsListed, MemberDeletes, MemberCreates, Survivors,
         PoolFinal, SameKey, JobOk, Stale, Exact, Canonical;
    PortForFacts(p, r.job);
    SameKeyReflexive(p.name);
    ParsesOfPoolOk(p);
    assert p.members == q.members && q == p;
    if Stale(r.job.ports, p.name) {
      NothingToDo(q, r, k, o, p.name);
    } else if Early(merged, p, r.job) {
      ReplaceMembersRun(q, p.name, r, k, o);
    } else {
      assert [] + p.members == p.members;
      DeleteMembersRun(p, q, [], p.members, r, k, o);
      assert [] + Survivors(p, p.members, r.job) == Survivors(p, p.members, r.job);
    }
  }

  lemma PatchReachesWanted(p: Pool, r: Run)
    requires IsListed(p, r)
    ensures PatchedProxy(p.proxy, r.listed[PoolIndex(r.listed, p.id)].proxy, r.job) == r.job.Proxy()
  {
  }

  lemma UpdatePoolRun(p: Pool, q: Pool, sp: ServicePort, r: Run, k: nat, o: nat)
    requires StepReady(p, q, r, k, o) && q == p.(members := q.members) && PortOk(sp) && SameKey(GenPoolName(sp), p.name)
    ensures var a := UpdatePool(GenPoolName(sp), p.id);
      var t := q.(name := GenPoolName(sp), health := r.job.Health(sp.nodePort), proxy := r.job.Proxy());
      && OnlyChanges(a, q) && PoolAccepts(q, a, r) && PoolEffect(q, a, r, k) == t
      && MembersCreated(a, r) == 0
      && PoolOk(t) && FreshPool(t, r.ids, o, k) && SameKey(t.name, p.name)
  {
    GenPoolNameFields(sp);
    PatchReachesWanted(p, r);
    hide GenPoolName, ParsePoolName, Token, PatchedProxy;
    var t := q.(name := GenPoolName(sp), health := r.job.Health(sp.nodePort), proxy := r.job.Proxy());
    assert FreshPool(t, r.ids, o, k);
  }

  /** Step 4 when the node port has changed: the pool is renamed, then its members are replaced. */
  lemma RenameRun(p: Pool, q: Pool, sp: ServicePort, r: Run, k: nat, o: nat)
    requires StepReady(p, q, r, k, o) && q == p.(members := q.members) && PortOk(sp) && SameKey(GenPoolName(sp), p.name)
    ensures var name := GenPoolName(sp);
      var actions := [UpdatePool(name, p.id), ReplaceMembers(name, p.id)];
      var t := PoolFinal(q, actions, r, k);
      && SafePool(q, actions, r, k, o, p.name)
      && t == q.(name := name, health := r.job.Health(sp.nodePort), proxy := r.job.Proxy(), members := t.members)
      && Exact(t.members, r.job.nodes, sp.nodePort)
  {
    hide SafePool, PoolOk, FreshPool, Fields, GenPoolName, IsListed, PoolFinal, PoolAccepts, PoolEffect,
         MembersCreated, ParsePoolName, SameKey, Exact, JobOk, Wanted;
    GenPoolNameFields(sp);
    SameKeyReflexive(p.name);
    var name := GenPoolName(sp);
    var a, b := UpdatePool(name, p.id), ReplaceMembers(name, p.id);
    UpdatePoolRun(p, q, sp, r, k, o);
    var t := PoolEffect(q, a, r, k);
    ReplaceMembersRun(t, name, r, k, o);
    SafePoolKey(t, [b], r, k, o, t.name, p.name);
    SafePoolCons(q, a, [b], r, k, o, p.name);
    assert [a] + [b] == [a, b];
  }

  lemma UpdateInPlaceRun(p: Pool, q: Pool, sp: ServicePort, r: Run, k: nat, o: nat)
    requires StepReady(p, q, r, k, o) && q == p.(members := q.members) && PortOk(sp) && SameKey(GenPoolName(sp), p.name)
    ensures var name := GenPoolName(sp);
      var actions := [UpdatePool(name, p.id)];
      && SafePool(q, actions, r, k, o, p.name)
      && PoolFinal(q, actions, r, k) == q.(name := name, health := r.job.Health(sp.nodePort), proxy := r.job.Proxy())
  {
    hide SafePool, PoolOk, FreshPool, Fields, GenPoolName, IsListed, PoolFinal, PoolAccepts, PoolEffect,
         MembersCreated, ParsePoolName, SameKey, Exact, JobOk, Wanted;
    SameKeyReflexive(p.name);
    var a := UpdatePool(GenPoolName(sp), p.id);
    UpdatePoolRun(p, q, sp, r, k, o);
    var t := PoolEffect(q, a, r, k);
    NothingToDo(t, r, k, o, p.name);
    SafePoolCons(q, a, [], r, k, o, p.name);
    assert [a] + [] == [a];
  }

  lemma StepUpdate(merged: bool, p: Pool, q: Pool, r: Run, k: nat, o: nat)
    requires StepReady(p, q, r, k, o) && Stage(1, merged, p, q, r.job)
    ensures var actions := Emitted(merged, UpdatePools, p, r.job);
      SafePool(q, actions, r, k, o, p.name) && Stage(2, merged, p, PoolFinal(q, actions, r, k), r.job)
  {
    hide SafePool, PoolOk, FreshPool, Fields, Matches, GenPoolName, IsListed, MemberDeletes, MemberCreates, Survivors,
         PoolFinal, SameKey, HealthFits, Exact, JobOk, Stale, Early, Canonical;
    PortForFacts(p, r.job);
    SameKeyReflexive(p.name);
    var sp := PortFor(p, r.job);
    if GenPoolName(sp) != p.name {
      RenameRun(p, q, sp, r, k, o);
    } else if NeedsUpdate(p, sp, r.job) {
      UpdateInPlaceRun(p, q, sp, r, k, o);
    } else {
      NothingToDo(q, r, k, o, p.name);
    }
  }

  /** The key may be any name with the same external port and protocol. */
  lemma {:induction false} SafePoolKey(q: Pool, actions: seq<Action>, r: Run, k: nat, o: nat, key: string, key': string)
    requires SafePool(q, actions, r, k, o, key) && SameKey(key, key')
    ensures SafePool(q, actions, r, k, o, key')
    decreases |actions|
  {
    hide PoolOk, FreshPool, Fields, PoolAccepts, PoolEffect, MembersCreated;
    if actions == [] {
    } else {
      SafePoolKey(PoolEffect(q, actions[0], r, k), actions[1..], r, k + MembersCreated(actions[0], r), o, key, key');
    }
  }

  /** Which members are missing depends on the listed pool's ID, name and members only. */
  lemma {:induction false} MemberCreatesDepends(p: Pool, q: Pool, nodes: seq<string>)
    requires p.id == q.id && p.name == q.name && p.members == q.members
    ensures MemberCreates(p, nodes) == MemberCreates(q, nodes)
  {
    hide Fields, HasTarget;
    if nodes == [] {
    } else {
      MemberCreatesDepends(p, q, nodes[1..]);
    }
  }

  /** The members that survive step 3 are the wanted ones that were listed. */
  lemma SurvivorsTargets(p: Pool, job: Job)
    requires JobOk(job) && PoolOk(p)
    ensures var ms, port := Survivors(p, p.members, job), Fields(p.name).nodePort;
      && (forall i :: 0 <= i < |ms| ==> ms[i].target in job.nodes && ms[i].port == port)
      && (forall j :: 0 <= j < |job.nodes| ==>
        (HasTarget(ms, job.nodes[j], port) <==> HasTarget(p.members, job.nodes[j], port)))
  {
    hide Fields, Parses, Canonical, Token, Survivors;
    var ms, port := Survivors(p, p.members, job), Fields(p.name).nodePort;
    SurvivorsMeans(p, p.members, job);
    forall i | 0 <= i < |ms| ensures ms[i].target in job.nodes && ms[i].port == port {
      assert ms[i] in ms;
    }
    forall j | 0 <= j < |job.nodes|
      ensures HasTarget(ms, job.nodes[j], port) <==> HasTarget(p.members, job.nodes[j], port)
    {
      if HasTarget(p.members, job.nodes[j], port) {
        var i :| 0 <= i < |p.members| && p.members[i].target == job.nodes[j] && p.members[i].port == port;
        assert p.members[i] in ms;
      }
      if HasTarget(ms, job.nodes[j], port) {
        var i :| 0 <= i < |ms| && ms[i].target == job.nodes[j] && ms[i].port == port;
        assert ms[i] in p.members;
      }
    }
  }

  lemma AddingStarts(p: Pool, p': Pool, q: Pool, job: Job)
    requires JobOk(job) && PoolOk(p) && p' == q.(members := p.members) && p'.name == p.name
    requires q.members == Survivors(p, p.members, job)
    ensures Adding(p', q, [], job.nodes, job.nodes, Fields(p'.name).nodePort)
  {
    hide JobOk, PoolOk, Fields, HasTarget, Survivors;
    SurvivorsTargets(p, job);
    assert [] + job.nodes == job.nodes;
  }

  /** Step 5 for a pool that step 4 has not renamed. */
  lemma AddUnderSameName(merged: bool, p: Pool, q: Pool, r: Run, k: nat, o: nat)
    requires StepReady(p, q, r, k, o) && Stage(2, merged, p, q, r.job)
    requires !Renamed(p, r.job) && !Early(merged, p, r.job)
    ensures var actions := Emitted(merged, AddMembers, p, r.job);
      SafePool(q, actions, r, k, o, p.name) && Stage(3, merged, p, PoolFinal(q, actions, r, k), r.job)
  {
    hide SafePool, PoolOk, FreshPool, Fields, Matches, GenPoolName, IsListed, MemberDeletes, MemberCreates, Survivors,
         PoolFinal, SameKey, HealthFits, Exact, Stale, JobOk, HasTarget, Canonical;
    PortForFacts(p, r.job);
    SameKeyReflexive(p.name);
    if Emitted(merged, AddMembers, p, r.job) == MemberCreates(p, r.job.nodes) {
      var p' := q.(members := p.members);
      MemberCreatesDepends(p, p', r.job.nodes);
      AddingStarts(p, p', q, r.job);
      CreateMembersRun(p', q, [], r.job.nodes, r, k, o);
    } else {
      ParsesOfPoolOk(q);
      ReplaceMembersRun(q, p.name, r, k, o);
    }
  }

  lemma StepAdd(merged: bool, p: Pool, q: Pool, r: Run, k: nat, o: nat)
    requires StepReady(p, q, r, k, o) && Stage(2, merged, p, q, r.job) && !Clashes(merged, p, r.job)
    ensures var actions := Emitted(merged, AddMembers, p, r.job);
      SafePool(q, actions, r, k, o, p.name) && Stage(3, merged, p, PoolFinal(q, actions, r, k), r.job)
  {
    hide SafePool, PoolOk, FreshPool, Fields, Matches, GenPoolName, IsListed, MemberDeletes, MemberCreates, Survivors,
         PoolFinal, SameKey, HealthFits, Exact, Stale, JobOk, HasTarget, Canonical;
    PortForFacts(p, r.job);
    assert SameKey(q.name, p.name) by {
      SameKeyReflexive(p.name);
    }
    if Early(merged, p, r.job) || (Renamed(p, r.job) && Emitted(merged, AddMembers, p, r.job) == []) {
      NothingToDo(q, r, k, o, p.name);
    } else if Renamed(p, r.job) {
      assert Emitted(merged, AddMembers, p, r.job) == [ReplaceMembers(p.name, p.id)];
      ParsesOfPoolOk(p);
      ReplaceMembersRun(q, p.name, r, k, o);
      SafePoolKey(q, [ReplaceMembers(p.name, p.id)], r, k, o, q.name, p.name);
    } else {
      AddUnderSameName(merged, p, q, r, k, o);
    }
  }

  lemma {:induction false} MemberCreatesAreMissing(p: Pool, nodes: seq<string>)
    requires MemberCreates(p, nodes) != []
    ensures exists j :: 0 <= j < |nodes| && MemberCreates(p, nodes)[0] == CreateMember(p.name, p.id, nodes[j])
  {
    hide Fields, HasTarget;
    if !HasTarget(p.members, nodes[0], Fields(p.name).nodePort) {
      assert MemberCreates(p, nodes)[0] == CreateMember(p.name, p.id, nodes[0]);
    } else {
      MemberCreatesAreMissing(p, nodes[1..]);
      var j :| 0 <= j < |nodes[1..]| && MemberCreates(p, nodes[1..])[0] == CreateMember(p.name, p.id, nodes[1..][j]);
      assert nodes[j + 1] == nodes[1..][j];
    }
  }

  /** The first creation of step 5 for a clashing pool is refused: step 4 has made that member. */
  lemma ClashIsRefused(merged: bool, p: Pool, q: Pool, r: Run)
    requires JobOk(r.job) && PoolOk(p) && Clashes(merged, p, r.job) && Stage(2, merged, p, q, r.job)
    ensures var actions := Emitted(merged, AddMembers, p, r.job);
      actions != [] && OnlyChanges(actions[0], q) && actions[0].CreateMember? && !PoolAccepts(q, actions[0], r)
  {
    hide PoolOk, Fields, Matches, GenPoolName, MemberDeletes, MemberCreates, Survivors, SameKey, HealthFits, Stale,
         JobOk, HasTarget, Canonical, ParsePoolName, NeedsUpdate;
    PortForFacts(p, r.job);
    assert PoolActions(AddMembers, p, r.job) == MemberCreates(p, r.job.nodes);
    assert PoolActions(DeleteMembers, p, r.job) == MemberDeletes(p, p.members, r.job);
    assert Emitted(merged, AddMembers, p, r.job) == MemberCreates(p, r.job.nodes);
    MemberCreatesAreMissing(p, r.job.nodes);
    var j :| 0 <= j < |r.job.nodes| && MemberCreates(p, r.job.nodes)[0] == CreateMember(p.name, p.id, r.job.nodes[j]);
    assert HasTarget(q.members, r.job.nodes[j], PortFor(p, r.job).nodePort);
  }

  /** One step for one pool: every action is accepted, and the pool reaches the next stage. */
  lemma PoolStep(n: nat, merged: bool, p: Pool, q: Pool, r: Run, k: nat, o: nat)
    requires n < 3 && StepReady(p, q, r, k, o) && Stage(n, merged, p, q, r.job)
    requires n == 2 ==> !Clashes(merged, p, r.job)
    ensures var actions := Emitted(merged, StepPhase(n), p, r.job);
      SafePool(q, actions, r, k, o, p.name) && Stage(n + 1, merged, p, PoolFinal(q, actions, r, k), r.job)
  {
    hide StepReady, Stage, Emitted, SafePool, PoolFinal, Clashes;
    if n == 0 {
      StepDelete(merged, p, q, r, k, o);
    } else if n == 1 {
      StepUpdate(merged, p, q, r, k, o);
    } else {
      StepAdd(merged, p, q, r, k, o);
    }
  }
}
