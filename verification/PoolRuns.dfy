/** What the planned actions do to one pool, and how a run over one pool lifts to the load balancer. */
module PoolRuns {
  import opened Text
  import opened PoolNames
  import opened LoadBalancers
  import opened Actions
  import opened Cloud
  import opened Plans

  // ---------------------------------------------------------------- runs over one pool

  predicate OnlyChanges(a: Action, q: Pool) {
    a.OnPool() && !a.DeletePool? && a.poolId == q.id
  }

  function PoolFinal(q: Pool, actions: seq<Action>, r: Run, k: nat): Pool
    decreases |actions|
  {
    if actions == [] || !PoolAccepts(q, actions[0], r) then q
    else PoolFinal(PoolEffect(q, actions[0], r, k), actions[1..], r, k + MembersCreated(actions[0], r))
  }

  function MembersUsed(actions: seq<Action>, r: Run): nat {
    if actions == [] then 0 else MembersCreated(actions[0], r) + MembersUsed(actions[1..], r)
  }

  /** As `Safe`, for one pool: `key` is a name with the external port and protocol the pool must keep. */
  ghost predicate SafePool(q: Pool, actions: seq<Action>, r: Run, k: nat, o: nat, key: string)
    decreases |actions|
  {
    && PoolOk(q) && FreshPool(q, r.ids, o, k) && SameKey(q.name, key)
    && (actions != [] ==>
          && OnlyChanges(actions[0], q) && PoolAccepts(q, actions[0], r)
          && SafePool(PoolEffect(q, actions[0], r, k), actions[1..], r, k + MembersCreated(actions[0], r), o, key))
  }

  /** A safe run over one pool is a safe run over the load balancer, and changes nothing else in it. */
  lemma {:induction false} LiftPoolRun(s: State, i: nat, actions: seq<Action>, r: Run, key: string)
    requires WellFormed(s, r.ids) && i < |s.pools|
    requires SafePool(s.pools[i], actions, r, s.nextMember, s.nextObject, key)
    ensures Safe(s, actions, r)
    ensures Final(s, actions, r) == s.(pools := s.pools[i := PoolFinal(s.pools[i], actions, r, s.nextMember)],
                                       nextMember := s.nextMember + MembersUsed(actions, r))
    decreases |actions|
  {
    hide PoolOk, FreshPool, PoolAccepts, PoolEffect, MembersCreated, Fields, PoolsOk;
    var q := s.pools[i];
    if actions == [] {
      assert s.pools[i := q] == s.pools;
    } else {
      LiftPoolStep(s, i, actions, r, key);
      var t := Effect(s, actions[0], r);
      LiftPoolRun(t, i, actions[1..], r, key);
      var q' := t.pools[i];
      assert s.pools[i := q'][i := PoolFinal(q', actions[1..], r, t.nextMember)]
          == s.pools[i := PoolFinal(q', actions[1..], r, t.nextMember)];
    }
  }

  lemma EffectOnPool(s: State, i: nat, a: Action, r: Run)
    requires i < |s.pools| && OnlyChanges(a, s.pools[i]) && PoolIndex(s.pools, a.poolId) == i
    requires PoolAccepts(s.pools[i], a, r)
    requires a.UpdatePool? ==> forall j :: 0 <= j < |s.pools| && j != i ==> s.pools[j].name != a.poolName
    ensures Accepts(s, a, r)
    ensures Effect(s, a, r) == s.(pools := s.pools[i := PoolEffect(s.pools[i], a, r, s.nextMember)],
                                  nextMember := s.nextMember + MembersCreated(a, r))
  {
    hide PoolAccepts, PoolEffect, MembersCreated;
  }

  lemma RenameIsFree(pools: seq<Pool>, i: nat, name: string)
    requires DistinctPools(pools) && i < |pools| && SameKey(name, pools[i].name)
    ensures forall j :: 0 <= j < |pools| && j != i ==> pools[j].name != name
  {
  }

  lemma UpdateNames(p: Pool, a: Action, r: Run, k: nat)
    requires PoolAccepts(p, a, r) && a.UpdatePool?
    ensures PoolEffect(p, a, r, k).name == a.poolName
  {
  }

  lemma LiftPoolStep(s: State, i: nat, actions: seq<Action>, r: Run, key: string)
    requires WellFormed(s, r.ids) && i < |s.pools| && actions != []
    requires SafePool(s.pools[i], actions, r, s.nextMember, s.nextObject, key)
    ensures Accepts(s, actions[0], r)
    ensures var q := PoolEffect(s.pools[i], actions[0], r, s.nextMember);
      var t := Effect(s, actions[0], r);
      && t == s.(pools := s.pools[i := q], nextMember := s.nextMember + MembersCreated(actions[0], r))
      && WellFormed(t, r.ids)
      && SafePool(t.pools[i], actions[1..], r, t.nextMember, t.nextObject, key)
  {
    hide SafePool, PoolOk, FreshPool, PoolAccepts, PoolEffect, MembersCreated, SameKey, Accepts, Effect,
         WellFormed, DistinctPools;
    var a, p := actions[0], s.pools[i];
    var k := s.nextMember + MembersCreated(a, r);
    SafePoolHead(p, actions, r, s.nextMember, s.nextObject, key);
    var q := PoolEffect(p, a, r, s.nextMember);
    SameKeyTransitive(q.name, key, p.name);
    assert SameKey(q.name, p.name);
    DistinctOfWellFormed(s, r.ids);
    EffectInPlace(s, i, a, r);
    ReplacePoolKeepsWellFormed(s, i, q, k, r.ids);
  }

  lemma EffectInPlace(s: State, i: nat, a: Action, r: Run)
    requires i < |s.pools| && DistinctPools(s.pools) && OnlyChanges(a, s.pools[i]) && PoolAccepts(s.pools[i], a, r)
    requires SameKey(PoolEffect(s.pools[i], a, r, s.nextMember).name, s.pools[i].name)
    ensures Accepts(s, a, r)
    ensures Effect(s, a, r) == s.(pools := s.pools[i := PoolEffect(s.pools[i], a, r, s.nextMember)],
                                  nextMember := s.nextMember + MembersCreated(a, r))
  {
    hide PoolAccepts, PoolEffect, MembersCreated, SameKey, Accepts, Effect, DistinctPools;
    PoolIndexIs(s.pools, i);
    if a.UpdatePool? {
      UpdateNames(s.pools[i], a, r, s.nextMember);
      RenameIsFree(s.pools, i, a.poolName);
    }
    EffectOnPool(s, i, a, r);
  }

  lemma SameKeyTransitive(a: string, b: string, c: string)
    requires SameKey(a, b) && SameKey(c, b)
    ensures SameKey(a, c)
  {
  }

  lemma SafePoolHead(q: Pool, actions: seq<Action>, r: Run, k: nat, o: nat, key: string)
    requires SafePool(q, actions, r, k, o, key) && actions != []
    ensures SameKey(q.name, key) && OnlyChanges(actions[0], q) && PoolAccepts(q, actions[0], r)
    ensures var t, k' := PoolEffect(q, actions[0], r, k), k + MembersCreated(actions[0], r);
      && SafePool(t, actions[1..], r, k', o, key)
      && PoolOk(t) && FreshPool(t, r.ids, o, k') && SameKey(t.name, key)
  {
    hide PoolOk, FreshPool, PoolAccepts, PoolEffect, MembersCreated, Fields;
    assert SafePool(PoolEffect(q, actions[0], r, k), actions[1..], r, k + MembersCreated(actions[0], r), o, key);
  }

  lemma DistinctOfWellFormed(s: State, ids: Ids)
    requires WellFormed(s, ids)
    ensures DistinctPools(s.pools)
  {
  }

  lemma SafePoolCons(q: Pool, a: Action, tail: seq<Action>, r: Run, k: nat, o: nat, key: string)
    requires PoolOk(q) && FreshPool(q, r.ids, o, k) && SameKey(q.name, key)
    requires OnlyChanges(a, q) && PoolAccepts(q, a, r)
    requires SafePool(PoolEffect(q, a, r, k), tail, r, k + MembersCreated(a, r), o, key)
    ensures SafePool(q, [a] + tail, r, k, o, key)
    ensures PoolFinal(q, [a] + tail, r, k) == PoolFinal(PoolEffect(q, a, r, k), tail, r, k + MembersCreated(a, r))
  {
    hide PoolOk, FreshPool, PoolAccepts, PoolEffect, MembersCreated, Fields;
    assert ([a] + tail)[1..] == tail;
  }

  // ---------------------------------------------------------------- the members of one pool

  /** The members are exactly the nodes, on one port. */
  predicate Exact(ms: seq<Member>, nodes: seq<string>, port: int) {
    && (forall i :: 0 <= i < |ms| ==> ms[i].target in nodes && ms[i].port == port)
    && (forall j :: 0 <= j < |nodes| ==> HasTarget(ms, nodes[j], port))
  }

  function Survivors(p: Pool, members: seq<Member>, job: Job): seq<Member> {
    if members == [] then []
    else (if KeepsMember(p, members[0], job) then [members[0]] else []) + Survivors(p, members[1..], job)
  }

  /** The text test keeps exactly the members that are nodes on the pool's node port. */
  lemma KeepsMemberMeans(p: Pool, m: Member, job: Job)
    requires JobOk(job) && MemberOk(m)
    ensures KeepsMember(p, m, job) <==> m.target in job.nodes && m.port == Fields(p.name).nodePort
  {
    hide Fields, Contains, Padded;
    PaddedContainsIffMember(job.nodes, m.target);
  }

  lemma {:induction false} SurvivorsMeans(p: Pool, ms: seq<Member>, job: Job)
    requires JobOk(job) && forall i :: 0 <= i < |ms| ==> MemberOk(ms[i])
    ensures forall m ::
      m in Survivors(p, ms, job) <==> m in ms && m.target in job.nodes && m.port == Fields(p.name).nodePort
  {
    hide Fields, KeepsMember, Token;
    if ms == [] {
    } else {
      KeepsMemberMeans(p, ms[0], job);
      SurvivorsMeans(p, ms[1..], job);
      assert ms == [ms[0]] + ms[1..];
    }
  }

  lemma RemoveMemberOk(q: Pool, i: nat, ids: Ids, o: nat, k: nat)
    requires i < |q.members| && PoolOk(q) && FreshPool(q, ids, o, k)
    ensures var t := q.(members := q.members[..i] + q.members[i + 1..]); PoolOk(t) && FreshPool(t, ids, o, k)
    ensures MemberIndex(q.members, q.members[i].id) == i
  {
    hide Parses, Canonical, Token;
    var t := q.(members := q.members[..i] + q.members[i + 1..]);
    assert forall j :: 0 <= j < |t.members| ==> t.members[j] == q.members[if j < i then j else j + 1];
    assert MemberIndex(q.members, q.members[i].id) <= i;
  }

  lemma AddMemberOk(q: Pool, m: Member, ids: Ids, o: nat, k: nat)
    requires GoodIds(ids) && PoolOk(q) && FreshPool(q, ids, o, k)
    requires m.id == ids.members(k) && Token(m.target) && !HasTarget(q.members, m.target, m.port)
    ensures var t := q.(members := q.members + [m]); PoolOk(t) && FreshPool(t, ids, o, k + 1)
  {
    hide Parses, Canonical, Token;
    var t := q.(members := q.members + [m]);
    forall i | 0 <= i < |q.members| ensures q.members[i].id != m.id {}
  }

  lemma NothingToDo(q: Pool, r: Run, k: nat, o: nat, key: string)
    requires PoolOk(q) && FreshPool(q, r.ids, o, k) && SameKey(q.name, key)
    ensures SafePool(q, [], r, k, o, key) && PoolFinal(q, [], r, k) == q
  {
  }

  lemma SameKeyReflexive(name: string)
    ensures SameKey(name, name)
  {
  }

  lemma DeleteMemberStep(p: Pool, q: Pool, kept: seq<Member>, rest: seq<Member>, r: Run, k: nat, o: nat)
    requires PoolOk(q) && FreshPool(q, r.ids, o, k) && q == p.(members := kept + rest) && rest != []
    ensures var a := DeleteMember(p.name, p.id, rest[0].id, rest[0].target); var t := p.(members := kept + rest[1..]);
      && OnlyChanges(a, q) && PoolAccepts(q, a, r) && PoolEffect(q, a, r, k) == t && MembersCreated(a, r) == 0
      && PoolOk(t) && FreshPool(t, r.ids, o, k) && SameKey(q.name, p.name)
  {
    hide PoolOk, FreshPool, Fields;
    RemoveMemberOk(q, |kept|, r.ids, o, k);
    assert q.members[|kept|] == rest[0];
    assert q.members[..|kept|] + q.members[|kept| + 1..] == kept + rest[1..];
  }

  /** Deleting the unwanted members one by one: `kept` has been looked at, `rest` has not. */
  lemma {:induction false} DeleteMembersRun(p: Pool, q: Pool, kept: seq<Member>, rest: seq<Member>, r: Run, k: nat,
                                            o: nat)
    requires PoolOk(q) && FreshPool(q, r.ids, o, k)
    requires q == p.(members := kept + rest)
    ensures var actions := MemberDeletes(p, rest, r.job);
      && SafePool(q, actions, r, k, o, p.name)
      && PoolFinal(q, actions, r, k) == p.(members := kept + Survivors(p, rest, r.job))
    decreases |rest|
  {
    hide PoolOk, FreshPool, KeepsMember, SameKey, SafePool, PoolFinal, PoolAccepts, PoolEffect,
         OnlyChanges, MembersCreated;
    if rest == [] {
      SameKeyReflexive(p.name);
      NothingToDo(q, r, k, o, p.name);
    } else if KeepsMember(p, rest[0], r.job) {
      assert kept + rest == (kept + [rest[0]]) + rest[1..];
      DeleteMembersRun(p, q, kept + [rest[0]], rest[1..], r, k, o);
      assert (kept + [rest[0]]) + Survivors(p, rest[1..], r.job) == kept + Survivors(p, rest, r.job);
      assert MemberDeletes(p, rest, r.job) == MemberDeletes(p, rest[1..], r.job);
    } else {
      var a := DeleteMember(p.name, p.id, rest[0].id, rest[0].target);
      DeleteMemberStep(p, q, kept, rest, r, k, o);
      DeleteMembersRun(p, p.(members := kept + rest[1..]), kept, rest[1..], r, k, o);
      SafePoolCons(q, a, MemberDeletes(p, rest[1..], r.job), r, k, o, p.name);
      assert Survivors(p, rest, r.job) == Survivors(p, rest[1..], r.job);
    }
  }

  /** Step 5 on its way: `q` has members for the nodes in `done`; those in `rest` are as in the listed pool `p`. */
  predicate Adding(p: Pool, q: Pool, done: seq<string>, rest: seq<string>, nodes: seq<string>, port: int) {
    && nodes == done + rest && q == p.(members := q.members)
    && (forall i :: 0 <= i < |q.members| ==> q.members[i].target in nodes && q.members[i].port == port)
    && (forall j :: 0 <= j < |done| ==> HasTarget(q.members, done[j], port))
    && (forall j :: 0 <= j < |rest| ==> (HasTarget(q.members, rest[j], port) <==> HasTarget(p.members, rest[j], port)))
  }

  lemma AddingSkips(p: Pool, q: Pool, done: seq<string>, rest: seq<string>, nodes: seq<string>, port: int)
    requires Adding(p, q, done, rest, nodes, port) && rest != [] && HasTarget(p.members, rest[0], port)
    ensures Adding(p, q, done + [rest[0]], rest[1..], nodes, port)
  {
  }

  lemma AddingAdds(p: Pool, q: Pool, done: seq<string>, rest: seq<string>, nodes: seq<string>, port: int, m: Member)
    requires Adding(p, q, done, rest, nodes, port) && rest != [] && NoRepeats(nodes)
    requires m.target == rest[0] && m.port == port
    ensures Adding(p, q.(members := q.members + [m]), done + [rest[0]], rest[1..], nodes, port)
  {
    hide HasTarget;
    var ms := q.members + [m];
    assert done + rest == (done + [rest[0]]) + rest[1..];
    assert nodes[|done|] == rest[0];
    forall x: string ensures HasTarget(ms, x, port) <==> HasTarget(q.members, x, port) || x == rest[0] {
      HasTargetAppend(q.members, m, x, port);
    }
    forall j | 0 <= j < |rest[1..]| ensures rest[1..][j] != rest[0] {
      assert nodes[|done| + 1 + j] == rest[1..][j];
    }
  }

  lemma AddingDone(p: Pool, q: Pool, done: seq<string>, nodes: seq<string>, port: int)
    requires Adding(p, q, done, [], nodes, port)
    ensures Exact(q.members, nodes, port)
  {
  }

  lemma CreateMemberStep(q: Pool, node: string, r: Run, k: nat, o: nat)
    requires GoodIds(r.ids) && PoolOk(q) && FreshPool(q, r.ids, o, k)
    requires Token(node) && !HasTarget(q.members, node, Fields(q.name).nodePort)
    ensures var a := CreateMember(q.name, q.id, node);
      var t := q.(members := q.members + [Member(r.ids.members(k), node, Fields(q.name).nodePort)]);
      && OnlyChanges(a, q) && PoolAccepts(q, a, r) && PoolEffect(q, a, r, k) == t && MembersCreated(a, r) == 1
      && PoolOk(t) && FreshPool(t, r.ids, o, k + 1) && SameKey(q.name, q.name)
  {
    hide PoolOk, FreshPool, Fields, HasTarget, Token, GoodIds;
    ParsesOfPoolOk(q);
    AddMemberOk(q, Member(r.ids.members(k), node, Fields(q.name).nodePort), r.ids, o, k);
  }

  /** Creating the missing members one by one. */
  lemma {:induction false} CreateMembersRun(p: Pool, q: Pool, done: seq<string>, rest: seq<string>, r: Run, k: nat,
                                            o: nat)
    requires GoodIds(r.ids) && JobOk(r.job) && PoolOk(q) && FreshPool(q, r.ids, o, k)
    requires Adding(p, q, done, rest, r.job.nodes, Fields(p.name).nodePort)
    ensures var actions := MemberCreates(p, rest); var t := PoolFinal(q, actions, r, k);
      && SafePool(q, actions, r, k, o, p.name)
      && t == p.(members := t.members) && Exact(t.members, r.job.nodes, Fields(p.name).nodePort)
    decreases |rest|
  {
    hide PoolOk, FreshPool, Fields, HasTarget, Token, GoodIds, JobOk, SafePool, PoolFinal, PoolAccepts, PoolEffect,
         OnlyChanges, MembersCreated, SameKey, Exact, Adding;
    var port := Fields(p.name).nodePort;
    AddingFacts(p, q, done, rest, r, port);
    if rest == [] {
      SameKeyReflexive(p.name);
      NothingToDo(q, r, k, o, p.name);
      AddingDone(p, q, done, r.job.nodes, port);
    } else {
      var node, tail := rest[0], MemberCreates(p, rest[1..]);
      if HasTarget(p.members, node, port) {
        AddingSkips(p, q, done, rest, r.job.nodes, port);
        CreateMembersRun(p, q, done + [node], rest[1..], r, k, o);
        assert MemberCreates(p, rest) == tail;
      } else {
        var a, m := CreateMember(p.name, p.id, node), Member(r.ids.members(k), node, port);
        CreateMemberStep(q, node, r, k, o);
        AddingAdds(p, q, done, rest, r.job.nodes, port, m);
        CreateMembersRun(p, q.(members := q.members + [m]), done + [node], rest[1..], r, k + 1, o);
        SafePoolCons(q, a, tail, r, k, o, p.name);
        assert MemberCreates(p, rest) == [a] + tail;
      }
    }
  }

  lemma AddingFacts(p: Pool, q: Pool, done: seq<string>, rest: seq<string>, r: Run, port: int)
    requires JobOk(r.job) && Adding(p, q, done, rest, r.job.nodes, port)
    ensures q == p.(members := q.members) && NoRepeats(r.job.nodes)
    ensures rest != [] ==> Token(rest[0])
    ensures rest != [] ==> (HasTarget(q.members, rest[0], port) <==> HasTarget(p.members, rest[0], port))
  {
    hide HasTarget, Token, PortOk;
    assert rest != [] ==> r.job.nodes[|done|] == rest[0];
  }

  lemma ParsesOfPoolOk(q: Pool)
    requires PoolOk(q)
    ensures ParsePoolName(q.name).Some? && Parses(q.name)
  {
  }

  lemma HasTargetAppend(ms: seq<Member>, m: Member, x: string, port: int)
    ensures HasTarget(ms + [m], x, port) <==> HasTarget(ms, x, port) || (x == m.target && port == m.port)
  {
    var t := ms + [m];
    assert t[|ms|] == m;
    if HasTarget(ms, x, port) {
      var i :| 0 <= i < |ms| && ms[i].target == x && ms[i].port == port;
      assert t[i] == ms[i];
    }
  }

  /** Replacing all members by the nodes, from whatever was there. */
  lemma ReplaceMembersRun(q: Pool, name: string, r: Run, k: nat, o: nat)
    requires GoodIds(r.ids) && JobOk(r.job) && PoolOk(q) && FreshPool(q, r.ids, o, k) && ParsePoolName(name).Some?
    ensures var a := ReplaceMembers(name, q.id); var t := PoolFinal(q, [a], r, k);
      && SafePool(q, [a], r, k, o, q.name)
      && t == q.(members := t.members) && Exact(t.members, r.job.nodes, Fields(name).nodePort)
  {
    hide ParsePoolName, Token;
    var a := ReplaceMembers(name, q.id);
    var t := PoolEffect(q, a, r, k);
    NewMembersOk(Fields(name).nodePort, r.job.nodes, r.ids, k);
    assert [a][1..] == [];
    assert PoolFinal(q, [a], r, k) == t;
    forall j | 0 <= j < |r.job.nodes| ensures HasTarget(t.members, r.job.nodes[j], Fields(name).nodePort) {
      assert t.members[j].target == r.job.nodes[j];
    }
    assert FreshPool(t, r.ids, o, k + |r.job.nodes|);
    assert PoolOk(t);
  }
}
