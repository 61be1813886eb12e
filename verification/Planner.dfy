/** The planner as the program runs it: loops that append lines of text to the list of required updates. */
module Planner {
  import opened Text
  import opened PoolNames
  import opened LoadBalancers
  import opened Actions
  import opened Plans

  /** Appending the lines of some actions, then those of the rest. */
  lemma AppendLines(updates: seq<string>, a: seq<Action>, b: seq<Action>)
    ensures updates + Lines(a) + Lines(b) == updates + Lines(a + b)
    ensures updates + Lines([]) == updates
  {
  }

  method CheckListenersForExtPortAddedToService(updates: seq<string>, views: seq<ListenerView>, sp: ServicePort)
    returns (r: seq<string>)
    ensures r == updates + Lines(if LacksListener(views, sp) then [CreateListener(GenPoolName(sp))] else [])
  {
    for i := 0 to |views|
      invariant forall j :: 0 <= j < i ==> !Matches(sp, views[j].listener.port, views[j].listener.protocol)
    {
      if Matches(sp, views[i].listener.port, views[i].listener.protocol) {
        return updates;
      }
    }
    r := updates + ["CREATE-LISTENER" + " " + GenPoolName(sp)];
  }

  method CheckListenerForExtPortDeletedFromService(updates: seq<string>, view: ListenerView, ports: seq<ServicePort>)
    returns (r: seq<string>)
    ensures r == updates + Lines(ListenerDeletes([view], ports))
  {
    var l := view.listener;
    assert [view][1..] == [];
    for i := 0 to |ports|
      invariant forall j :: 0 <= j < i ==> !Matches(ports[j], l.port, l.protocol)
    {
      if Matches(ports[i], l.port, l.protocol) {
        return updates;
      }
    }
    var poolName := view.poolName;
    if poolName == "" {
      poolName := "unknown";
    }
    r := updates + ["DELETE-LISTENER" + " " + poolName + " " + l.id];
  }

  method CheckPoolsForExtPortAddedToService(updates: seq<string>, pools: array<Pool>, sp: ServicePort)
    returns (r: Result<seq<string>>)
    ensures r == match LacksPool(pools[..], sp)
                 case Ok(lacks) => Ok(updates + Lines(if lacks then [CreatePool(GenPoolName(sp))] else []))
                 case Err(e) => Err(e)
  {
    hide ParsePoolName, GenPoolName, Matches, Contains;
    var poolName := GenPoolName(sp);
    assert updates + Lines([]) == updates;
    for i := 0 to pools.Length
      invariant LacksPool(pools[..], sp) == LacksPool(pools[i..], sp)
    {
      var pool := pools[i];
      assert pools[i..][0] == pool && pools[i..][1..] == pools[i + 1..];
      if pool.name == poolName {
        return Ok(updates);
      }
      if pool.name == "POOL-TO-BE-DELETED" {
        continue;
      }
      var parsed := ParsePoolName(pool.name);
      if parsed.None? {
        return Err(BadPoolName);
      }
      if Matches(sp, parsed.value.port, parsed.value.protocol) {
        return Ok(updates);
      }
    }
    assert pools[pools.Length..] == [];
    assert Lines([CreatePool(poolName)]) == ["CREATE-POOL" + " " + poolName];
    r := Ok(updates + ["CREATE-POOL" + " " + poolName]);
  }

  method CheckPoolForExtPortDeletedFromService(updates: seq<string>, pools: array<Pool>, at: nat,
                                               ports: seq<ServicePort>)
    returns (r: Result<seq<string>>)
    requires at < pools.Length
    modifies pools
    ensures forall j :: 0 <= j < pools.Length && j != at ==> pools[j] == old(pools[j])
    ensures ParsePoolName(old(pools[at].name)).None? ==> r == Err(BadPoolName) && pools[at] == old(pools[at])
    ensures ParsePoolName(old(pools[at].name)).Some? ==>
      pools[at] == Mark(old(pools[at]), ports)
      && forall job: Job :: job.ports == ports ==>
        r == Ok(updates + Lines(PoolActions(DeletePools, old(pools[at]), job)))
  {
    hide ParsePoolName, GenPoolName, Matches, Contains;
    var pool := pools[at];
    var parsed := ParsePoolName(pool.name);
    if parsed.None? {
      return Err(BadPoolName);
    }
    assert updates + Lines([]) == updates;
    for i := 0 to |ports|
      invariant forall j :: 0 <= j < i ==> !Matches(ports[j], parsed.value.port, parsed.value.protocol)
      invariant pools[..] == old(pools[..])
    {
      if Matches(ports[i], parsed.value.port, parsed.value.protocol) {
        return Ok(updates);
      }
    }
    assert Lines([DeletePool(pool.name, pool.id)]) == ["DELETE-POOL" + " " + pool.name + " " + pool.id];
    r := Ok(updates + ["DELETE-POOL" + " " + pool.name + " " + pool.id]);
    pools[at] := pool.(name := "POOL-TO-BE-DELETED");
  }

  /** The test both member checks start with. */
  method NodePortChanged(ports: seq<ServicePort>, f: NameFields) returns (changed: bool)
    ensures changed <==>
      exists i :: 0 <= i < |ports| && Matches(ports[i], f.port, f.protocol) && ports[i].nodePort != f.nodePort
  {
    for i := 0 to |ports|
      invariant forall j :: 0 <= j < i && Matches(ports[j], f.port, f.protocol) ==> ports[j].nodePort == f.nodePort
    {
      if Matches(ports[i], f.port, f.protocol) {
        if f.nodePort != ports[i].nodePort {
          return true;
        }
      }
    }
    return false;
  }

  method CheckPoolForNodesToAdd(updates: seq<string>, pool: Pool, job: Job) returns (r: Result<seq<string>>)
    ensures !Readable(pool.name) ==> r == Err(BadPoolName)
    ensures Readable(pool.name) ==> r == Ok(updates + Lines(PoolActions(AddMembers, pool, job)))
  {
    hide ParsePoolName, GenPoolName, Matches, Contains;
    assert updates + Lines([]) == updates;
    if pool.name == "POOL-TO-BE-DELETED" {
      return Ok(updates);
    }
    var parsed := ParsePoolName(pool.name);
    if parsed.None? {
      return Err(BadPoolName);
    }
    var changed := NodePortChanged(job.ports, parsed.value);
    if changed {
      return Ok(updates);
    }
    var required := updates;
    for i := 0 to |job.nodes|
      invariant required + Lines(MemberCreates(pool, job.nodes[i..])) == updates + Lines(MemberCreates(pool, job.nodes))
    {
      var node := job.nodes[i];
      ghost var tail := MemberCreates(pool, job.nodes[i + 1..]);
      assert job.nodes[i..][0] == node && job.nodes[i..][1..] == job.nodes[i + 1..];
      var foundMember := false;
      for k := 0 to |pool.members|
        invariant !foundMember
        invariant forall j :: 0 <= j < k ==>
          !(node == pool.members[j].target && parsed.value.nodePort == pool.members[j].port)
      {
        if node == pool.members[k].target && parsed.value.nodePort == pool.members[k].port {
          foundMember := true;
          break;
        }
      }
      if !foundMember {
        AppendLines(required, [CreateMember(pool.name, pool.id, node)], tail);
        assert Lines([CreateMember(pool.name, pool.id, node)])
            == ["CREATE-POOL-MEMBER" + " " + pool.name + " " + pool.id + " " + node];
        required := required + ["CREATE-POOL-MEMBER" + " " + pool.name + " " + pool.id + " " + node];
      } else {
        assert [] + tail == tail;
      }
    }
    AppendLines(required, [], []);
    r := Ok(required);
  }

  method CheckPoolForNodesToDelete(updates: seq<string>, pool: Pool, job: Job) returns (r: Result<seq<string>>)
    ensures !Readable(pool.name) ==> r == Err(BadPoolName)
    ensures Readable(pool.name) ==> r == Ok(updates + Lines(PoolActions(DeleteMembers, pool, job)))
  {
    hide ParsePoolName, GenPoolName, Matches, Contains;
    assert updates + Lines([]) == updates;
    if pool.name == "POOL-TO-BE-DELETED" {
      return Ok(updates);
    }
    var parsed := ParsePoolName(pool.name);
    if parsed.None? {
      return Err(BadPoolName);
    }
    var changed := NodePortChanged(job.ports, parsed.value);
    if changed {
      return Ok(updates);
    }
    var nodeString := " " + Join(job.nodes, " ") + " ";
    var required := updates;
    for i := 0 to |pool.members|
      invariant required + Lines(MemberDeletes(pool, pool.members[i..], job))
        == updates + Lines(MemberDeletes(pool, pool.members, job))
    {
      var member := pool.members[i];
      ghost var tail := MemberDeletes(pool, pool.members[i + 1..], job);
      assert pool.members[i..][0] == member && pool.members[i..][1..] == pool.members[i + 1..];
      if !Contains(nodeString, " " + member.target + " ") || parsed.value.nodePort != member.port {
        AppendLines(required, [DeleteMember(pool.name, pool.id, member.id, member.target)], tail);
        assert Lines([DeleteMember(pool.name, pool.id, member.id, member.target)])
            == ["DELETE-POOL-MEMBER" + " " + pool.name + " " + pool.id + " " + member.id + " " + member.target];
        required := required + ["DELETE-POOL-MEMBER" + " " + pool.name + " " + pool.id + " " + member.id + " "
          + member.target];
      } else {
        assert [] + tail == tail;
      }
    }
    AppendLines(required, [], []);
    r := Ok(required);
  }

  method CheckPoolForServiceChanges(updates: seq<string>, pool: Pool, job: Job) returns (r: Result<seq<string>>)
    ensures !Readable(pool.name) ==> r == Err(BadPoolName)
    ensures Readable(pool.name) ==> r == Ok(updates + Lines(PoolActions(UpdatePools, pool, job)))
  {
    hide ParsePoolName, GenPoolName, Matches, Contains;
    assert updates + Lines([]) == updates;
    if pool.name == "POOL-TO-BE-DELETED" {
      return Ok(updates);
    }
    var parsed := ParsePoolName(pool.name);
    if parsed.None? {
      return Err(BadPoolName);
    }
    var required := updates;
    for i := 0 to |job.ports|
      invariant forall j :: 0 <= j < i ==> !Matches(job.ports[j], parsed.value.port, parsed.value.protocol)
      invariant required == updates
    {
      var sp := job.ports[i];
      if !Matches(sp, parsed.value.port, parsed.value.protocol) {
        continue;
      }
      assert i == MatchIndex(job.ports, parsed.value.port, parsed.value.protocol);
      var poolName := GenPoolName(sp);
      var updatePool, replacePoolMembers := false, false;
      if poolName != pool.name {
        updatePool, replacePoolMembers := true, true;
      } else if job.policy == LocalPolicy && job.healthCheckNodePort > 0
                && (pool.health.kind != HTTP || pool.health.port != job.healthCheckNodePort) {
        updatePool := true;
      } else if job.policy == ClusterPolicy && (pool.health.kind != TCP || pool.health.port != sp.nodePort) {
        updatePool := true;
      } else if job.proxyRequested && pool.proxy != PROXY_V1 {
        updatePool := true;
      } else if !job.proxyRequested && pool.proxy != PROXY_DISABLED {
        updatePool := true;
      }
      if updatePool {
        required := required + ["UPDATE-POOL" + " " + poolName + " " + pool.id];
      }
      if replacePoolMembers {
        required := required + ["REPLACE-POOL-MEMBERS" + " " + poolName + " " + pool.id];
      }
      assert required == updates + Lines(PoolActions(UpdatePools, pool, job));
      return Ok(required);
    }
    r := Ok(required);
  }

  /** Some listed pool has a name that does not parse. */
  predicate SomeNameUnreadable(pools: seq<Pool>) {
    exists i :: 0 <= i < |pools| && ParsePoolName(pools[i].name).None?
  }

  lemma ReadablePoolsAreScanned(pools: seq<Pool>, sp: ServicePort)
    requires forall i :: 0 <= i < |pools| ==> Readable(pools[i].name)
    ensures LacksPool(pools, sp).Ok?
  {
  }

  lemma PhaseActionsStep(phase: Phase, pools: seq<Pool>, i: nat, job: Job)
    requires i < |pools|
    ensures PhaseActions(phase, pools[i..], job)
      == PoolActions(phase, pools[i], job) + PhaseActions(phase, pools[i + 1..], job)
  {
  }

  lemma EmptyPlans(pools: seq<Pool>, views: seq<ListenerView>, job: Job)
    ensures forall phase :: PhaseActions(phase, pools[|pools|..], job) == []
    ensures ListenerDeletes(views[|views|..], job.ports) == []
    ensures pools[0..] == pools && views[0..] == views && pools[..|pools|] == pools
    ensures forall u: seq<string> :: u + Lines([]) == u
  {
  }

  /** Steps 1 and 2. */
  method DeleteSteps(views: seq<ListenerView>, pools: array<Pool>, job: Job) returns (r: Result<seq<string>>)
    modifies pools
    ensures SomeNameUnreadable(old(pools[..])) ==> r == Err(BadPoolName)
    ensures !SomeNameUnreadable(old(pools[..])) ==>
      r == Ok(Lines(ListenerDeletes(views, job.ports)) + Lines(PhaseActions(DeletePools, old(pools[..]), job)))
      && pools[..] == Marked(old(pools[..]), job.ports)
  {
    hide ParsePoolName, PoolActions, Mark, Lines, ListenerDeletes, PhaseActions;
    EmptyPlans(pools[..], views, job);
    ghost var listed := pools[..];
    var updates: seq<string> := [];
    ghost var step1 := ListenerDeletes(views, job.ports);
    for i := 0 to |views|
      invariant updates + Lines(ListenerDeletes(views[i..], job.ports)) == Lines(step1)
      invariant pools[..] == listed
    {
      ListenerDeletesStep(views, i, job.ports);
      AppendLines(updates, ListenerDeletes([views[i]], job.ports), ListenerDeletes(views[i + 1..], job.ports));
      updates := CheckListenerForExtPortDeletedFromService(updates, views[i], job.ports);
    }
    assert updates == Lines(step1);

    ghost var step2 := PhaseActions(DeletePools, listed, job);
    for i := 0 to pools.Length
      invariant updates + Lines(PhaseActions(DeletePools, listed[i..], job)) == Lines(step1) + Lines(step2)
      invariant forall j :: 0 <= j < i ==> ParsePoolName(listed[j].name).Some? && pools[j] == Mark(listed[j], job.ports)
      invariant forall j :: i <= j < pools.Length ==> pools[j] == listed[j]
    {
      PhaseActionsStep(DeletePools, listed, i, job);
      AppendLines(updates, PoolActions(DeletePools, listed[i], job), PhaseActions(DeletePools, listed[i + 1..], job));
      var next := CheckPoolForExtPortDeletedFromService(updates, pools, i, job.ports);
      if next.Err? {
        return Err(next.error);
      }
      updates := next.value;
    }
    assert pools[..] == Marked(listed, job.ports);
    r := Ok(updates);
  }

  /** Steps 3 to 5. */
  method PoolSteps(updates0: seq<string>, pools: array<Pool>, job: Job) returns (r: Result<seq<string>>)
    ensures (forall i :: 0 <= i < pools.Length ==> Readable(pools[i].name)) ==>
      r == Ok(updates0 + Lines(PhaseActions(DeleteMembers, pools[..], job))
        + Lines(PhaseActions(UpdatePools, pools[..], job))
                       + Lines(PhaseActions(AddMembers, pools[..], job)))
    ensures r.Err? ==> r.error == BadPoolName
  {
    hide ParsePoolName, PoolActions, Readable, Lines, PhaseActions;
    EmptyPlans(pools[..], [], job);
    ghost var marked := pools[..];
    var updates := updates0;
    ghost var step3 := PhaseActions(DeleteMembers, marked, job);
    for i := 0 to pools.Length
      invariant updates + Lines(PhaseActions(DeleteMembers, marked[i..], job)) == updates0 + Lines(step3)
    {
      PhaseActionsStep(DeleteMembers, marked, i, job);
      AppendLines(updates, PoolActions(DeleteMembers, marked[i], job), PhaseActions(DeleteMembers, marked[i + 1..],
                  job));
      var next := CheckPoolForNodesToDelete(updates, pools[i], job);
      if next.Err? {
        return Err(BadPoolName);
      }
      updates := next.value;
    }
    ghost var updates3 := updates;
    assert updates3 == updates0 + Lines(step3);

    ghost var step4 := PhaseActions(UpdatePools, marked, job);
    for i := 0 to pools.Length
      invariant updates + Lines(PhaseActions(UpdatePools, marked[i..], job)) == updates3 + Lines(step4)
    {
      PhaseActionsStep(UpdatePools, marked, i, job);
      AppendLines(updates, PoolActions(UpdatePools, marked[i], job), PhaseActions(UpdatePools, marked[i + 1..], job));
      var next := CheckPoolForServiceChanges(updates, pools[i], job);
      if next.Err? {
        return Err(BadPoolName);
      }
      updates := next.value;
    }
    ghost var updates4 := updates;
    assert updates4 == updates3 + Lines(step4);

    ghost var step5 := PhaseActions(AddMembers, marked, job);
    for i := 0 to pools.Length
      invariant updates + Lines(PhaseActions(AddMembers, marked[i..], job)) == updates4 + Lines(step5)
    {
      PhaseActionsStep(AddMembers, marked, i, job);
      AppendLines(updates, PoolActions(AddMembers, marked[i], job), PhaseActions(AddMembers, marked[i + 1..], job));
      var next := CheckPoolForNodesToAdd(updates, pools[i], job);
      if next.Err? {
        return Err(BadPoolName);
      }
      updates := next.value;
    }
    assert updates == updates4 + Lines(step5);
    r := Ok(updates);
  }

  /** Steps 6 and 7. */
  method CreateSteps(updates0: seq<string>, views: seq<ListenerView>, pools: array<Pool>, job: Job)
    returns (r: Result<seq<string>>)
    ensures (forall i :: 0 <= i < pools.Length ==> Readable(pools[i].name)) ==>
      r == Ok(updates0 + Lines(Creates(job.ports, pools[..], views)))
    ensures r.Err? ==> r.error == BadPoolName
  {
    hide ParsePoolName, GenPoolName, Readable, Lines;
    ghost var marked := pools[..];
    var updates := updates0;
    for i := 0 to |job.ports|
      invariant updates + Lines(Creates(job.ports[i..], marked, views))
        == updates0 + Lines(Creates(job.ports, marked, views))
    {
      var sp := job.ports[i];
      assert job.ports[i..][1..] == job.ports[i + 1..];
      if forall j :: 0 <= j < |marked| ==> Readable(marked[j].name) {
        ReadablePoolsAreScanned(marked, sp);
      }
      AppendLines(updates, PortCreates(sp, marked, views), Creates(job.ports[i + 1..], marked, views));
      AppendLines(updates, if LacksPool(marked, sp) == Ok(true) then [CreatePool(GenPoolName(sp))] else [],
                  if LacksListener(views, sp) then [CreateListener(GenPoolName(sp))] else []);
      var next := CheckPoolsForExtPortAddedToService(updates, pools, sp);
      if next.Err? {
        return Err(BadPoolName);
      }
      updates := next.value;
      updates := CheckListenersForExtPortAddedToService(updates, views, sp);
    }
    AppendLines(updates, [], []);
    assert Creates(job.ports[|job.ports|..], marked, views) == [];
    r := Ok(updates);
  }

  /** Steps 1 to 7 of `UpdateLoadBalancer`: the plan comes out as text, unless some pool name cannot be parsed. */
  method RequiredUpdates(views: seq<ListenerView>, pools: array<Pool>, job: Job) returns (r: Result<seq<string>>)
    modifies pools
    ensures SomeNameUnreadable(old(pools[..])) ==> r == Err(BadPoolName)
    ensures !SomeNameUnreadable(old(pools[..])) ==>
      r == Ok(Lines(Plan(views, old(pools[..]), job))) && pools[..] == Marked(old(pools[..]), job.ports)
  {
    hide PhaseActions, ParsePoolName, ListenerDeletes, Creates;
    ghost var listed := pools[..];
    r := DeleteSteps(views, pools, job);
    if r.Err? {
      return;
    }
    ghost var marked := Marked(listed, job.ports);
    assert forall j :: 0 <= j < |marked| ==> Readable(marked[j].name);
    r := PoolSteps(r.value, pools, job);
    if r.Err? {
      return;
    }
    r := CreateSteps(r.value, views, pools, job);
    PlanLines(ListenerDeletes(views, job.ports), PhaseActions(DeletePools, listed, job),
              PhaseActions(DeleteMembers, marked, job), PhaseActions(UpdatePools, marked, job),
              PhaseActions(AddMembers, marked, job), Creates(job.ports, marked, views));
  }

  lemma ListenerDeletesStep(views: seq<ListenerView>, i: nat, ports: seq<ServicePort>)
    requires i < |views|
    ensures ListenerDeletes(views[i..], ports)
      == ListenerDeletes([views[i]], ports) + ListenerDeletes(views[i + 1..], ports)
  {
  }

  lemma PlanLines(a: seq<Action>, b: seq<Action>, c: seq<Action>, d: seq<Action>, e: seq<Action>, f: seq<Action>)
    ensures Lines(a + b + c + d + e + f) == Lines(a) + Lines(b) + Lines(c) + Lines(d) + Lines(e) + Lines(f)
  {
  }
}
