/** Step 8 of a plan in closed form, pool by pool. */
module MergedPlan {
  import opened Text
  import opened PoolNames
  import opened LoadBalancers
  import opened Actions
  import opened Cloud
  import opened Plans
  import opened PoolRuns
  import opened Stages
  import opened WholeRun
  import opened CreateRun
  import opened Convergence
  import opened Goals
  import opened Coalescing

  // ---------------------------------------------------------------- merging segment by segment

  type Items = seq<Item<Action>>

  /** What step 8 leaves of part of a plan. */
  function Left(all: Items, part: seq<Action>, replaced: set<string>): seq<Action> {
    Values(MergeFrom(all, ActionItems(part), replaced))
  }

  function ReplacedAfter(all: Items, part: seq<Action>, replaced: set<string>): set<string> {
    if part == [] then replaced else ReplacedAfter(all, part[1..], After(all, ActionItem(part[0]), replaced))
  }

  lemma LeftStep(all: Items, part: seq<Action>, replaced: set<string>)
    requires part != []
    ensures var x := ActionItem(part[0]);
      Left(all, part, replaced) == Values(Outcome(all, x, replaced)) + Left(all, part[1..], After(all, x, replaced))
  {
    hide Count, Outcome, After;
    var items := ActionItems(part);
    assert items[1..] == ActionItems(part[1..]);
  }

  lemma ReplacedStep(all: Items, part: seq<Action>, replaced: set<string>)
    requires part != []
    ensures ReplacedAfter(all, part, replaced)
      == ReplacedAfter(all, part[1..], After(all, ActionItem(part[0]), replaced))
  {
  }

  lemma NothingReplaced(all: Items, replaced: set<string>)
    ensures ReplacedAfter(all, [], replaced) == replaced
  {
  }

  lemma LeftNothing(all: Items, replaced: set<string>)
    ensures Left(all, [], replaced) == []
  {
  }

  lemma {:induction false} LeftConcat(all: Items, a: seq<Action>, b: seq<Action>, replaced: set<string>)
    ensures Left(all, a + b, replaced) == Left(all, a, replaced) + Left(all, b, ReplacedAfter(all, a, replaced))
    ensures ReplacedAfter(all, a + b, replaced) == ReplacedAfter(all, b, ReplacedAfter(all, a, replaced))
    decreases |a|
  {
    hide Left, Outcome, After, ActionItem, ReplacedAfter, Values;
    if a == [] {
      assert a + b == b;
      LeftNothing(all, replaced);
      NothingReplaced(all, replaced);
    } else {
      assert (a + b)[0] == a[0] && (a + b)[1..] == a[1..] + b;
      LeftStep(all, a + b, replaced);
      LeftStep(all, a, replaced);
      ReplacedStep(all, a + b, replaced);
      ReplacedStep(all, a, replaced);
      LeftConcat(all, a[1..], b, After(all, ActionItem(a[0]), replaced));
    }
  }

  predicate NoMemberUpdates(part: seq<Action>) {
    forall i :: 0 <= i < |part| ==> !part[i].IsMemberUpdate()
  }

  /** A part without member updates is left as it is. */
  lemma {:induction false} LeftOthers(all: Items, part: seq<Action>, replaced: set<string>)
    requires NoMemberUpdates(part)
    ensures Left(all, part, replaced) == part && ReplacedAfter(all, part, replaced) == replaced
    decreases |part|
  {
    hide Left, Count;
    if part == [] {
      LeftNothing(all, replaced);
    } else {
      LeftStep(all, part, replaced);
      LeftOthers(all, part[1..], replaced);
    }
  }

  predicate MemberUpdatesOf(part: seq<Action>, name: string, id: string) {
    forall i :: 0 <= i < |part| ==> part[i].IsMemberUpdate() && part[i].poolName == name && part[i].poolId == id
  }

  /** Member updates of a pool that has had its replacement are dropped. */
  lemma {:induction false} LeftDropped(all: Items, part: seq<Action>, name: string, id: string, replaced: set<string>)
    requires MemberUpdatesOf(part, name, id) && Count(all, name) > 1 && name in replaced
    ensures Left(all, part, replaced) == [] && ReplacedAfter(all, part, replaced) == replaced
    decreases |part|
  {
    hide Left, Count;
    if part == [] {
      LeftNothing(all, replaced);
    } else {
      LeftStep(all, part, replaced);
      assert replaced + {name} == replaced;
      LeftDropped(all, part[1..], name, id, replaced);
    }
  }

  /** The member updates of one pool: kept if single, turned into one replacement if this is their first appearance. */
  lemma LeftOfPool(all: Items, part: seq<Action>, name: string, id: string, replaced: set<string>)
    requires MemberUpdatesOf(part, name, id) && part != []
    ensures Count(all, name) == 1 && |part| == 1 ==>
      Left(all, part, replaced) == part && ReplacedAfter(all, part, replaced) == replaced
    ensures Count(all, name) > 1 && name !in replaced ==>
      Left(all, part, replaced) == [ReplaceMembers(name, id)] && ReplacedAfter(all, part, replaced) == replaced + {name}
  {
    hide Left, Count;
    LeftStep(all, part, replaced);
    if Count(all, name) > 1 && name !in replaced {
      LeftDropped(all, part[1..], name, id, replaced + {name});
    } else if |part| == 1 {
      LeftNothing(all, replaced);
      assert part[1..] == [];
    }
  }

  // ---------------------------------------------------------------- how many member updates a plan has for a pool

  function CountIn(part: seq<Action>, name: string): nat { Count(ActionItems(part), name) }

  lemma CountInConcat(a: seq<Action>, b: seq<Action>, name: string)
    ensures CountIn(a + b, name) == CountIn(a, name) + CountIn(b, name)
  {
    assert ActionItems(a + b) == ActionItems(a) + ActionItems(b);
    CountConcat(ActionItems(a), ActionItems(b), name);
  }

  lemma {:induction false} CountInOthers(part: seq<Action>, name: string)
    requires NoMemberUpdates(part)
    ensures CountIn(part, name) == 0
    decreases |part|
  {
    if part == [] {
    } else {
      assert ActionItems(part)[1..] == ActionItems(part[1..]);
      CountInOthers(part[1..], name);
    }
  }

  lemma {:induction false} CountInPool(part: seq<Action>, name: string, id: string, n: string)
    requires MemberUpdatesOf(part, name, id)
    ensures CountIn(part, n) == if n == name then |part| else 0
    decreases |part|
  {
    if part == [] {
    } else {
      assert ActionItems(part)[1..] == ActionItems(part[1..]);
      CountInPool(part[1..], name, id, n);
    }
  }

  lemma {:induction false} MemberDeletesShape(p: Pool, ms: seq<Member>, job: Job)
    ensures MemberUpdatesOf(MemberDeletes(p, ms, job), p.name, p.id)
  {
    hide KeepsMember;
    if ms == [] {
    } else {
      MemberDeletesShape(p, ms[1..], job);
    }
  }

  lemma {:induction false} MemberCreatesShape(p: Pool, nodes: seq<string>)
    ensures MemberUpdatesOf(MemberCreates(p, nodes), p.name, p.id)
  {
    hide HasTarget, Fields;
    if nodes == [] {
    } else {
      MemberCreatesShape(p, nodes[1..]);
    }
  }

  predicate MemberPhase(phase: Phase) { phase == DeleteMembers || phase == AddMembers }

  lemma MemberPhaseShape(phase: Phase, p: Pool, job: Job)
    requires MemberPhase(phase)
    ensures MemberUpdatesOf(PoolActions(phase, p, job), p.name, p.id)
  {
    hide MemberDeletes, MemberCreates, Stale;
    MemberDeletesShape(p, p.members, job);
    MemberCreatesShape(p, job.nodes);
  }

  lemma OtherPhaseShape(phase: Phase, p: Pool, job: Job)
    requires !MemberPhase(phase)
    ensures NoMemberUpdates(PoolActions(phase, p, job))
  {
    hide Wanted, NeedsUpdate, GenPoolName, Fields;
  }

  predicate DistinctNames(ps: seq<Pool>) {
    forall i, j :: 0 <= i < j < |ps| ==> ps[i].name != ps[j].name
  }

  lemma {:induction false} CountInPhase(phase: Phase, ps: seq<Pool>, i: nat, job: Job)
    requires MemberPhase(phase) && DistinctNames(ps) && i < |ps|
    ensures CountIn(EmittedActions(false, phase, ps, job), ps[i].name) == |PoolActions(phase, ps[i], job)|
    decreases |ps|
  {
    hide PoolActions, CountIn;
    var head, tail := PoolActions(phase, ps[0], job), EmittedActions(false, phase, ps[1..], job);
    CountInConcat(head, tail, ps[i].name);
    MemberPhaseShape(phase, ps[0], job);
    CountInPool(head, ps[0].name, ps[0].id, ps[i].name);
    if i == 0 {
      CountInPhaseAbsent(phase, ps[1..], ps[0].name, job);
    } else {
      CountInPhase(phase, ps[1..], i - 1, job);
    }
  }

  lemma {:induction false} CountInPhaseAbsent(phase: Phase, ps: seq<Pool>, name: string, job: Job)
    requires MemberPhase(phase) && forall i :: 0 <= i < |ps| ==> ps[i].name != name
    ensures CountIn(EmittedActions(false, phase, ps, job), name) == 0
    decreases |ps|
  {
    if ps == [] {
    } else {
      hide PoolActions, CountIn;
      CountInConcat(PoolActions(phase, ps[0], job), EmittedActions(false, phase, ps[1..], job), name);
      MemberPhaseShape(phase, ps[0], job);
      CountInPool(PoolActions(phase, ps[0], job), ps[0].name, ps[0].id, name);
      CountInPhaseAbsent(phase, ps[1..], name, job);
    }
  }

  lemma {:induction false} NoMemberUpdatesInUpdates(ps: seq<Pool>, job: Job)
    ensures NoMemberUpdates(EmittedActions(false, UpdatePools, ps, job))
    ensures EmittedActions(true, UpdatePools, ps, job) == EmittedActions(false, UpdatePools, ps, job)
  {
    hide PoolActions;
    if ps == [] {
    } else {
      OtherPhaseShape(UpdatePools, ps[0], job);
      NoMemberUpdatesInUpdates(ps[1..], job);
    }
  }

  lemma {:induction false} NoMemberUpdatesInDeletes(pools: seq<Pool>, job: Job)
    ensures NoMemberUpdates(PhaseActions(DeletePools, pools, job))
  {
    hide PoolActions;
    if pools == [] {
    } else {
      OtherPhaseShape(DeletePools, pools[0], job);
      NoMemberUpdatesInDeletes(pools[1..], job);
    }
  }

  lemma {:induction false} NoMemberUpdatesInListenerDeletes(views: seq<ListenerView>, ports: seq<ServicePort>)
    ensures NoMemberUpdates(ListenerDeletes(views, ports))
  {
    if views == [] {
    } else {
      NoMemberUpdatesInListenerDeletes(views[1..], ports);
    }
  }

  lemma {:induction false} NoMemberUpdatesInCreates(ports: seq<ServicePort>, pools: seq<Pool>, views: seq<ListenerView>)
    ensures NoMemberUpdates(Creates(ports, pools, views))
  {
    hide LacksPool, LacksListener, GenPoolName;
    if ports == [] {
    } else {
      NoMemberUpdatesInCreates(ports[1..], pools, views);
    }
  }

  // ---------------------------------------------------------------- the coalesced plan

  /** The counts of step 8, pool by pool. */
  predicate CountsAre(all: Items, ps: seq<Pool>, job: Job) {
    forall i :: 0 <= i < |ps| ==>
      Count(all, ps[i].name) == |PoolActions(DeleteMembers, ps[i], job)| + |PoolActions(AddMembers, ps[i], job)|
  }

  predicate NamedIn(ps: seq<Pool>, name: string) {
    exists i :: 0 <= i < |ps| && ps[i].name == name
  }

  /** The deletions of one pool: what is left of them, and whether the pool has its replacement now. */
  lemma LeftOfPoolDeletes(all: Items, p: Pool, replaced: set<string>, job: Job)
    requires Count(all, p.name) == |PoolActions(DeleteMembers, p, job)| + |PoolActions(AddMembers, p, job)|
    requires p.name !in replaced
    ensures var head := PoolActions(DeleteMembers, p, job);
      && Left(all, head, replaced) == Emitted(true, DeleteMembers, p, job)
      && ReplacedAfter(all, head, replaced) == (if Early(true, p, job) then replaced + {p.name} else replaced)
  {
    hide PoolActions, Left, Count;
    var head := PoolActions(DeleteMembers, p, job);
    MemberPhaseShape(DeleteMembers, p, job);
    if head == [] {
      LeftNothing(all, replaced);
    } else {
      LeftOfPool(all, head, p.name, p.id, replaced);
    }
  }

  /** Step 8 over the deletions of step 3. */
  lemma {:induction false} LeftOfDeletes(all: Items, ps: seq<Pool>, replaced: set<string>, job: Job)
    requires DistinctNames(ps) && CountsAre(all, ps, job)
    requires forall i :: 0 <= i < |ps| ==> ps[i].name !in replaced
    ensures var part := EmittedActions(false, DeleteMembers, ps, job); var after := ReplacedAfter(all, part, replaced);
      && Left(all, part, replaced) == EmittedActions(true, DeleteMembers, ps, job)
      && (forall i :: 0 <= i < |ps| ==> (ps[i].name in after <==> Early(true, ps[i], job)))
      && (forall n :: n in after && !NamedIn(ps, n) ==> n in replaced)
      && replaced <= after
    decreases |ps|
  {
    hide PoolActions, Left, Count, Emitted, Early, ReplacedAfter, NamedIn;
    if ps == [] {
      LeftNothing(all, replaced);
      assert ReplacedAfter(all, [], replaced) == replaced by { NothingReplaced(all, replaced); }
    } else {
      var p, rest := ps[0], ps[1..];
      var head, tail := PoolActions(DeleteMembers, p, job), EmittedActions(false, DeleteMembers, rest, job);
      LeftConcat(all, head, tail, replaced);
      LeftOfPoolDeletes(all, p, replaced, job);
      EmittedUnmerged(DeleteMembers, p, job);
      LeftOfDeletes(all, rest, ReplacedAfter(all, head, replaced), job);
      forall n ensures NamedIn(ps, n) <==> n == p.name || NamedIn(rest, n) {
        NamedInStep(ps, n);
      }
      NotNamedIn(rest, p.name);
    }
  }

  lemma EmittedUnmerged(phase: Phase, p: Pool, job: Job)
    ensures Emitted(false, phase, p, job) == PoolActions(phase, p, job)
  {
  }

  lemma NamedInStep(ps: seq<Pool>, name: string)
    requires ps != []
    ensures NamedIn(ps, name) <==> name == ps[0].name || NamedIn(ps[1..], name)
  {
  }

  lemma NotNamedIn(ps: seq<Pool>, name: string)
    requires forall i :: 0 <= i < |ps| ==> ps[i].name != name
    ensures !NamedIn(ps, name)
  {
  }

  /** Step 8 over the creations of step 5. */
  lemma {:induction false} LeftOfAdds(all: Items, ps: seq<Pool>, replaced: set<string>, job: Job)
    requires DistinctNames(ps) && CountsAre(all, ps, job)
    requires forall i :: 0 <= i < |ps| ==> (ps[i].name in replaced <==> Early(true, ps[i], job))
    ensures Left(all, EmittedActions(false, AddMembers, ps, job), replaced) == EmittedActions(true, AddMembers, ps, job)
    decreases |ps|
  {
    hide PoolActions, Left, Count;
    if ps == [] {
      LeftNothing(all, replaced);
    } else {
      var p, rest := ps[0], ps[1..];
      var head, tail := PoolActions(AddMembers, p, job), EmittedActions(false, AddMembers, rest, job);
      LeftConcat(all, head, tail, replaced);
      MemberPhaseShape(AddMembers, p, job);
      if head == [] {
        LeftNothing(all, replaced);
      } else if Early(true, p, job) {
        LeftDropped(all, head, p.name, p.id, replaced);
      } else {
        LeftOfPool(all, head, p.name, p.id, replaced);
      }
      var replaced' := ReplacedAfter(all, head, replaced);
      assert Left(all, head, replaced) == Emitted(true, AddMembers, p, job);
      assert replaced' == replaced || replaced' == replaced + {p.name};
      LeftOfAdds(all, rest, replaced', job);
    }
  }

  lemma {:induction false} KeptPoolsDistinct(pools: seq<Pool>, ports: seq<ServicePort>)
    requires DistinctPools(pools)
    ensures DistinctNames(KeptPools(pools, ports))
    decreases |pools|
  {
    hide Wanted, Fields;
    if pools == [] {
    } else {
      KeptPoolsDistinct(pools[1..], ports);
      KeptPoolsMeans(pools[1..], ports);
      var kept := KeptPools(pools[1..], ports);
      forall i | 0 <= i < |kept| ensures kept[i].name != pools[0].name {
        assert kept[i] in pools[1..];
        var j :| 0 <= j < |pools[1..]| && pools[1..][j] == kept[i];
        assert !SameKey(pools[0].name, pools[j + 1].name);
      }
    }
  }

  lemma CountsOfPlan(s: State, job: Job)
    requires DistinctNames(KeptPools(s.pools, job.ports))
    ensures CountsAre(ActionItems(Steps(false, s, job)), KeptPools(s.pools, job.ports), job)
  {
    hide PoolActions, EmittedActions, PhaseActions, ListenerDeletes, Creates, KeptPools, Marked, Views,
         CountIn, NoMemberUpdates;
    var kept := KeptPools(s.pools, job.ports);
    var a, b := ListenerDeletes(Views(s), job.ports), PhaseActions(DeletePools, s.pools, job);
    var c, d, e := EmittedActions(false, DeleteMembers, kept, job), EmittedActions(false, UpdatePools, kept, job),
        EmittedActions(false, AddMembers, kept, job);
    var f := Creates(job.ports, Marked(s.pools, job.ports), Views(s));
    NoMemberUpdatesInListenerDeletes(Views(s), job.ports);
    NoMemberUpdatesInDeletes(s.pools, job);
    NoMemberUpdatesInUpdates(kept, job);
    NoMemberUpdatesInCreates(job.ports, Marked(s.pools, job.ports), Views(s));
    forall i | 0 <= i < |kept|
      ensures CountIn(Steps(false, s, job), kept[i].name)
           == |PoolActions(DeleteMembers, kept[i], job)| + |PoolActions(AddMembers, kept[i], job)|
    {
      var n := kept[i].name;
      CountInConcat(a, b, n);
      CountInConcat(a + b, c, n);
      CountInConcat(a + b + c, d, n);
      CountInConcat(a + b + c + d, e, n);
      CountInConcat(a + b + c + d + e, f, n);
      CountInOthers(a, n);
      CountInOthers(b, n);
      CountInOthers(d, n);
      CountInOthers(f, n);
      CountInPhase(DeleteMembers, kept, i, job);
      CountInPhase(AddMembers, kept, i, job);
    }
    forall i | 0 <= i < |kept|
      ensures Count(ActionItems(Steps(false, s, job)), kept[i].name) == CountIn(Steps(false, s, job), kept[i].name)
    {
      CountInIs(Steps(false, s, job), kept[i].name);
    }
  }

  lemma CountInIs(part: seq<Action>, name: string)
    ensures CountIn(part, name) == Count(ActionItems(part), name)
  {
  }

  /** Step 8 of a plan, in closed form: each pool's second and later member updates disappear into a replacement that
      stands where the first one stood. */
  lemma CoalescedPlan(s: State, ids: Ids, job: Job)
    requires WellFormed(s, ids)
    ensures Coalesce(PlanFor(s, job)) == Steps(true, s, job)
  {
    hide WellFormed, PoolActions, EmittedActions, PhaseActions, ListenerDeletes, Creates, KeptPools, Marked, Views,
         Left, NoMemberUpdates, PlanFor, Coalesce, Early, DistinctNames, CountsAre;
    DistinctOfWellFormed(s, ids);
    KeptPoolsDistinct(s.pools, job.ports);
    PlanIsSteps(s, job);
    CountsOfPlan(s, job);
    var kept := KeptPools(s.pools, job.ports);
    var all := ActionItems(Steps(false, s, job));
    CoalesceIsLeft(Steps(false, s, job));
    var a, b := ListenerDeletes(Views(s), job.ports), PhaseActions(DeletePools, s.pools, job);
    var c, d, e := EmittedActions(false, DeleteMembers, kept, job), EmittedActions(false, UpdatePools, kept, job),
        EmittedActions(false, AddMembers, kept, job);
    var f := Creates(job.ports, Marked(s.pools, job.ports), Views(s));
    NoMemberUpdatesInListenerDeletes(Views(s), job.ports);
    NoMemberUpdatesInDeletes(s.pools, job);
    NoMemberUpdatesInUpdates(kept, job);
    NoMemberUpdatesInCreates(job.ports, Marked(s.pools, job.ports), Views(s));
    LeftConcat(all, a, b, {});
    LeftConcat(all, a + b, c, {});
    LeftConcat(all, a + b + c, d, {});
    LeftConcat(all, a + b + c + d, e, {});
    LeftConcat(all, a + b + c + d + e, f, {});
    LeftOthers(all, a, {});
    LeftOthers(all, b, {});
    LeftOfDeletes(all, kept, {}, job);
    var replaced := ReplacedAfter(all, c, {});
    LeftOthers(all, d, replaced);
    LeftOfAdds(all, kept, replaced, job);
    LeftOthers(all, f, ReplacedAfter(all, e, replaced));
  }

  lemma CoalesceIsLeft(plan: seq<Action>)
    ensures Coalesce(plan) == Left(ActionItems(plan), plan, {})
  {
  }
}
