/** The shape of every plan: its order, what each pool gets, and that its text can be read back. */
module PlanShape {
  import opened Text
  import opened PoolNames
  import opened LoadBalancers
  import opened Actions
  import opened Cloud
  import opened Plans
  import opened PoolRuns
  import opened Stages
  import opened WholeRun
  import opened CreateRun
  import opened Coalescing
  import opened MergedPlan
  import opened Reconciliation

  // ---------------------------------------------------------------- actions that can be carried out

  /** The line can be read back, and does not name a pool by the mark of step 2. */
  predicate Executable(a: Action) {
    CleanAction(a) && a.poolName != POOL_TO_BE_DELETED
  }

  predicate AllExecutable(actions: seq<Action>) {
    forall i :: 0 <= i < |actions| ==> Executable(actions[i])
  }

  lemma NameIsUsable(name: string)
    requires Parses(name)
    ensures Token(name) && name != POOL_TO_BE_DELETED
  {
    hide ParsePoolName, PoolNameText, Token;
    ParsedFields(name);
    MarkerDoesNotParse();
  }

  lemma UnknownIsToken()
    ensures Token("unknown")
  {
  }

  lemma {:induction false} ListenerDeletesExecutable(views: seq<ListenerView>, ports: seq<ServicePort>)
    requires forall i :: 0 <= i < |views| ==> Token(views[i].listener.id)
    requires forall i :: 0 <= i < |views| ==> views[i].poolName == "" || Parses(views[i].poolName)
    ensures AllExecutable(ListenerDeletes(views, ports))
  {
    hide Parses, Canonical, Token;
    if views == [] {
    } else {
      ListenerDeletesExecutable(views[1..], ports);
      UnknownIsToken();
      if views[0].poolName != "" {
        NameIsUsable(views[0].poolName);
      }
    }
  }

  lemma {:induction false} MemberDeletesExecutable(p: Pool, ms: seq<Member>, job: Job)
    requires Token(p.id) && Token(p.name) && p.name != POOL_TO_BE_DELETED
    requires forall i :: 0 <= i < |ms| ==> MemberOk(ms[i])
    ensures AllExecutable(MemberDeletes(p, ms, job))
  {
    hide Token, KeepsMember;
    if ms == [] {
    } else {
      MemberDeletesExecutable(p, ms[1..], job);
      assert MemberOk(ms[0]);
    }
  }

  lemma {:induction false} MemberCreatesExecutable(p: Pool, nodes: seq<string>)
    requires Token(p.id) && Token(p.name) && p.name != POOL_TO_BE_DELETED
    requires forall i :: 0 <= i < |nodes| ==> Token(nodes[i])
    ensures AllExecutable(MemberCreates(p, nodes))
  {
    hide Token, HasTarget, Fields;
    if nodes == [] {
    } else {
      MemberCreatesExecutable(p, nodes[1..]);
    }
  }

  lemma PoolActionsExecutable(phase: Phase, p: Pool, job: Job)
    requires JobOk(job) && PoolOk(p)
    ensures AllExecutable(PoolActions(phase, p, job))
  {
    hide Token, Parses, Canonical, Fields, MemberDeletes, MemberCreates, GenPoolName, Stale, HealthFits,
         Matches, DistinctMembers;
    NameIsUsable(p.name);
    MemberDeletesExecutable(p, p.members, job);
    MemberCreatesExecutable(p, job.nodes);
    if phase == UpdatePools && Wanted(job.ports, p.name) {
      var sp := PortFor(p, job);
      assert PortOk(sp);
      GenPoolNameFields(sp);
      NameIsUsable(GenPoolName(sp));
    }
  }

  predicate AllPoolsOk(ps: seq<Pool>) {
    forall i :: 0 <= i < |ps| ==> PoolOk(ps[i])
  }

  lemma {:induction false} EmittedExecutable(merged: bool, phase: Phase, ps: seq<Pool>, job: Job)
    requires JobOk(job) && AllPoolsOk(ps)
    ensures AllExecutable(EmittedActions(merged, phase, ps, job))
    decreases |ps|
  {
    hide JobOk, PoolOk, PoolActions, Executable;
    if ps == [] {
    } else {
      var p := ps[0];
      PoolActionsExecutable(phase, p, job);
      ReplacementExecutable(p);
      EmittedExecutable(merged, phase, ps[1..], job);
    }
  }

  lemma ReplacementExecutable(p: Pool)
    requires PoolOk(p)
    ensures Executable(ReplaceMembers(p.name, p.id))
  {
    hide Token, Parses, Canonical, DistinctMembers;
    NameIsUsable(p.name);
  }

  lemma {:induction false} DeletePoolsExecutable(pools: seq<Pool>, job: Job)
    requires JobOk(job) && AllPoolsOk(pools)
    ensures AllExecutable(PhaseActions(DeletePools, pools, job))
    decreases |pools|
  {
    hide JobOk, PoolOk, PoolActions, Executable;
    if pools == [] {
    } else {
      PoolActionsExecutable(DeletePools, pools[0], job);
      DeletePoolsExecutable(pools[1..], job);
    }
  }

  lemma {:induction false} CreatesExecutable(ports: seq<ServicePort>, pools: seq<Pool>, views: seq<ListenerView>)
    requires forall i :: 0 <= i < |ports| ==> PortOk(ports[i])
    ensures AllExecutable(Creates(ports, pools, views))
  {
    hide LacksPool, LacksListener, GenPoolName, Token, PortOk;
    if ports == [] {
    } else {
      CreatesExecutable(ports[1..], pools, views);
      GenPoolNameFields(ports[0]);
      NameIsUsable(GenPoolName(ports[0]));
    }
  }

  lemma ViewsUsable(s: State, ids: Ids)
    requires WellFormed(s, ids)
    ensures var views := Views(s);
      (forall i :: 0 <= i < |views| ==> Token(views[i].listener.id))
      && (forall i :: 0 <= i < |views| ==> views[i].poolName == "" || Parses(views[i].poolName))
  {
    hide Token, Parses, Canonical, DistinctMembers, FreshPool, RefsOk, SameKey;
    forall i | 0 <= i < |Views(s)| ensures Views(s)[i].poolName == "" || Parses(Views(s)[i].poolName) {
      var j := PoolIndex(s.pools, s.listeners[i].poolId);
      if j < |s.pools| {
        assert PoolOk(s.pools[j]);
      }
    }
  }

  lemma KeptPoolsOk(s: State, ids: Ids, ports: seq<ServicePort>)
    requires WellFormed(s, ids)
    ensures AllPoolsOk(s.pools) && AllPoolsOk(KeptPools(s.pools, ports))
  {
    hide PoolOk, FreshPool, Wanted;
    var kept := KeptPools(s.pools, ports);
    KeptPoolsMeans(s.pools, ports);
    forall i | 0 <= i < |kept| ensures PoolOk(kept[i]) {
      assert kept[i] in s.pools;
    }
  }

  lemma ExecutableConcat(a: seq<Action>, b: seq<Action>)
    requires AllExecutable(a) && AllExecutable(b)
    ensures AllExecutable(a + b)
  {
  }

  lemma StepsExecutable(merged: bool, s: State, ids: Ids, job: Job)
    requires WellFormed(s, ids) && JobOk(job)
    ensures AllExecutable(Steps(merged, s, job))
  {
    hide WellFormed, JobOk, PoolOk, AllExecutable, ListenerDeletes, PhaseActions, EmittedActions, Creates, Marked,
         Views, KeptPools, PortOk, Token, Parses, Canonical, AllPoolsOk;
    KeptPoolsOk(s, ids, job.ports);
    ViewsUsable(s, ids);
    PortsOk(job);
    var kept := KeptPools(s.pools, job.ports);
    var a, b := ListenerDeletes(Views(s), job.ports), PhaseActions(DeletePools, s.pools, job);
    var c, d, e := EmittedActions(merged, DeleteMembers, kept, job), EmittedActions(merged, UpdatePools, kept, job),
                   EmittedActions(merged, AddMembers, kept, job);
    ListenerDeletesExecutable(Views(s), job.ports);
    DeletePoolsExecutable(s.pools, job);
    EmittedExecutable(merged, DeleteMembers, kept, job);
    EmittedExecutable(merged, UpdatePools, kept, job);
    EmittedExecutable(merged, AddMembers, kept, job);
    CreatesExecutable(job.ports, Marked(s.pools, job.ports), Views(s));
    ExecutableConcat(a, b);
    ExecutableConcat(a + b, c);
    ExecutableConcat(a + b + c, d);
    ExecutableConcat(a + b + c + d, e);
    ExecutableConcat(a + b + c + d + e, Creates(job.ports, Marked(s.pools, job.ports), Views(s)));
  }

  /** Printing the action and reading the line gives the action back. */
  predicate ReadsBack(a: Action) {
    Words(Print(a)) != [] && Decode(Print(a)) == Ok(a)
  }

  /** Every line of the plan, coalesced or not, is read back as the action it was printed for, so none runs into a
      missing argument or an unsupported operation; and the mark of step 2 never shows up in one. */
  lemma PlanExecutable(merged: bool, s: State, ids: Ids, job: Job)
    requires WellFormed(s, ids) && JobOk(job)
    ensures var updates := Updates(merged, s, job);
      && Clean(updates)
      && (forall i :: 0 <= i < |updates| ==> ReadsBack(updates[i]) && updates[i].poolName != POOL_TO_BE_DELETED)
  {
    hide WellFormed, JobOk, CleanAction, Print, Decode, Updates, Steps, Words;
    UpdatesAreSteps(merged, s, ids, job);
    StepsExecutable(merged, s, ids, job);
    var updates := Updates(merged, s, job);
    forall i | 0 <= i < |updates| ensures ReadsBack(updates[i]) && updates[i].poolName != POOL_TO_BE_DELETED {
      assert Executable(updates[i]);
      DecodeOfPrint(updates[i]);
    }
  }

  lemma PortsOk(job: Job)
    requires JobOk(job)
    ensures forall i :: 0 <= i < |job.ports| ==> PortOk(job.ports[i])
  {
  }

  // ---------------------------------------------------------------- order

  /** The place of an operation in the plan. REPLACE-POOL-MEMBERS moves with the update it stands for. */
  function Rank(a: Action): nat {
    match a
    case DeleteListener(_, _) => 0
    case DeletePool(_, _) => 1
    case DeleteMember(_, _, _, _) => 2
    case UpdatePool(_, _) => 3
    case CreateMember(_, _, _) => 4
    case CreatePool(_) => 5
    case CreateListener(_) => 5
    case ReplaceMembers(_, _) => 6
  }

  predicate RankedFrom(actions: seq<Action>, lo: nat, hi: nat) {
    && (forall i :: 0 <= i < |actions| && !actions[i].ReplaceMembers? ==> lo <= Rank(actions[i]) <= hi)
    && (forall i, j :: 0 <= i < j < |actions| && !actions[i].ReplaceMembers? && !actions[j].ReplaceMembers? ==>
          Rank(actions[i]) <= Rank(actions[j]))
  }

  lemma RankedConcat(a: seq<Action>, b: seq<Action>, lo: nat, mid: nat, mid': nat, hi: nat)
    requires RankedFrom(a, lo, mid) && RankedFrom(b, mid', hi) && lo <= mid <= mid' <= hi
    ensures RankedFrom(a + b, lo, hi)
  {
  }

  lemma {:induction false} ListenerDeletesRank(views: seq<ListenerView>, ports: seq<ServicePort>)
    ensures RankedFrom(ListenerDeletes(views, ports), 0, 0)
  {
    if views == [] {
    } else {
      ListenerDeletesRank(views[1..], ports);
    }
  }

  lemma {:induction false} CreatesRank(ports: seq<ServicePort>, pools: seq<Pool>, views: seq<ListenerView>)
    ensures RankedFrom(Creates(ports, pools, views), 5, 5)
  {
    hide LacksPool, LacksListener, GenPoolName;
    if ports == [] {
    } else {
      CreatesRank(ports[1..], pools, views);
    }
  }

  function PhaseRank(phase: Phase): nat {
    match phase
    case DeletePools => 1
    case DeleteMembers => 2
    case UpdatePools => 3
    case AddMembers => 4
  }

  lemma {:induction false} MemberDeletesRank(p: Pool, ms: seq<Member>, job: Job)
    ensures RankedFrom(MemberDeletes(p, ms, job), 2, 2)
  {
    hide KeepsMember;
    if ms == [] {
    } else {
      MemberDeletesRank(p, ms[1..], job);
    }
  }

  lemma {:induction false} MemberCreatesRank(p: Pool, nodes: seq<string>)
    ensures RankedFrom(MemberCreates(p, nodes), 4, 4)
  {
    hide HasTarget, Fields;
    if nodes == [] {
    } else {
      MemberCreatesRank(p, nodes[1..]);
    }
  }

  lemma PoolActionsRank(merged: bool, phase: Phase, p: Pool, job: Job)
    ensures RankedFrom(PoolActions(phase, p, job), PhaseRank(phase), PhaseRank(phase))
    ensures RankedFrom(Emitted(merged, phase, p, job), PhaseRank(phase), PhaseRank(phase))
  {
    hide Wanted, Stale, Fields, GenPoolName, NeedsUpdate, MemberDeletes, MemberCreates;
    MemberDeletesRank(p, p.members, job);
    MemberCreatesRank(p, job.nodes);
  }

  lemma {:induction false} PhaseActionsRank(merged: bool, phase: Phase, ps: seq<Pool>, job: Job)
    ensures RankedFrom(PhaseActions(phase, ps, job), PhaseRank(phase), PhaseRank(phase))
    ensures RankedFrom(EmittedActions(merged, phase, ps, job), PhaseRank(phase), PhaseRank(phase))
  {
    hide PoolActions, RankedFrom;
    if ps == [] {
      assert RankedFrom([], PhaseRank(phase), PhaseRank(phase)) by { NothingRanked(PhaseRank(phase)); }
    } else {
      var n := PhaseRank(phase);
      PoolActionsRank(merged, phase, ps[0], job);
      PhaseActionsRank(merged, phase, ps[1..], job);
      RankedConcat(PoolActions(phase, ps[0], job), PhaseActions(phase, ps[1..], job), n, n, n, n);
      RankedConcat(Emitted(merged, phase, ps[0], job), EmittedActions(merged, phase, ps[1..], job), n, n, n, n);
    }
  }

  lemma NothingRanked(n: nat)
    ensures RankedFrom([], n, n)
  {
  }

  /** The ordering rules: listeners are deleted before pools, these before members, then come the pool updates, then the
      member creations, and the pools and listeners are created last; only a replacement may move. */
  lemma PlanOrdered(merged: bool, s: State, ids: Ids, job: Job)
    requires WellFormed(s, ids)
    ensures RankedFrom(Updates(merged, s, job), 0, 5)
  {
    hide WellFormed, Updates, ListenerDeletes, PhaseActions, EmittedActions, Creates, Marked, Views,
         KeptPools, RankedFrom;
    UpdatesAreSteps(merged, s, ids, job);
    var kept := KeptPools(s.pools, job.ports);
    var a, b := ListenerDeletes(Views(s), job.ports), PhaseActions(DeletePools, s.pools, job);
    var c, d, e := EmittedActions(merged, DeleteMembers, kept, job), EmittedActions(merged, UpdatePools, kept, job),
                   EmittedActions(merged, AddMembers, kept, job);
    var f := Creates(job.ports, Marked(s.pools, job.ports), Views(s));
    ListenerDeletesRank(Views(s), job.ports);
    PhaseActionsRank(merged, DeletePools, s.pools, job);
    PhaseActionsRank(merged, DeleteMembers, kept, job);
    PhaseActionsRank(merged, UpdatePools, kept, job);
    PhaseActionsRank(merged, AddMembers, kept, job);
    CreatesRank(job.ports, Marked(s.pools, job.ports), Views(s));
    RankedConcat(a, b, 0, 0, 1, 1);
    RankedConcat(a + b, c, 0, 1, 2, 2);
    RankedConcat(a + b + c, d, 0, 2, 3, 3);
    RankedConcat(a + b + c + d, e, 0, 3, 4, 4);
    RankedConcat(a + b + c + d + e, f, 0, 4, 5, 5);
  }

  // ---------------------------------------------------------------- what each pool gets

  /** The actions on one pool, in order. */
  function ForPool(actions: seq<Action>, id: string): seq<Action> {
    if actions == [] then []
    else (if actions[0].OnPool() && actions[0].poolId == id then [actions[0]] else []) + ForPool(actions[1..], id)
  }

  lemma {:induction false} ForPoolConcat(a: seq<Action>, b: seq<Action>, id: string)
    ensures ForPool(a + b, id) == ForPool(a, id) + ForPool(b, id)
    decreases |a|
  {
    if a == [] {
      assert a + b == b;
    } else {
      assert (a + b)[0] == a[0] && (a + b)[1..] == a[1..] + b;
      ForPoolConcat(a[1..], b, id);
    }
  }

  predicate AllOn(actions: seq<Action>, id: string) {
    forall i :: 0 <= i < |actions| ==> actions[i].OnPool() && actions[i].poolId == id
  }

  lemma {:induction false} ForPoolOfOne(actions: seq<Action>, id: string, other: string)
    requires AllOn(actions, id)
    ensures ForPool(actions, other) == if id == other then actions else []
    decreases |actions|
  {
    if actions == [] {
    } else {
      ForPoolOfOne(actions[1..], id, other);
    }
  }

  predicate OffPools(actions: seq<Action>) {
    forall i :: 0 <= i < |actions| ==> !actions[i].OnPool()
  }

  lemma {:induction false} ForPoolOfNone(actions: seq<Action>, id: string)
    requires OffPools(actions)
    ensures ForPool(actions, id) == []
    decreases |actions|
  {
    if actions == [] {
    } else {
      ForPoolOfNone(actions[1..], id);
    }
  }

  lemma EmittedOn(merged: bool, phase: Phase, p: Pool, job: Job)
    ensures AllOn(PoolActions(phase, p, job), p.id) && AllOn(Emitted(merged, phase, p, job), p.id)
  {
    hide Wanted, Stale, Fields, GenPoolName, NeedsUpdate, MemberDeletes, MemberCreates;
    MemberDeletesShape(p, p.members, job);
    MemberCreatesShape(p, job.nodes);
  }

  predicate DistinctIds(ps: seq<Pool>) {
    forall i, j :: 0 <= i < j < |ps| ==> ps[i].id != ps[j].id
  }

  predicate HasId(ps: seq<Pool>, id: string) {
    exists i :: 0 <= i < |ps| && ps[i].id == id
  }

  /** A step for all pools, seen by one pool, is the step for that pool. */
  lemma {:induction false} ForPoolOfPhase(merged: bool, phase: Phase, ps: seq<Pool>, p: Pool, job: Job)
    requires DistinctIds(ps)
    ensures p in ps ==> ForPool(EmittedActions(merged, phase, ps, job), p.id) == Emitted(merged, phase, p, job)
    ensures !HasId(ps, p.id) ==> ForPool(EmittedActions(merged, phase, ps, job), p.id) == []
    decreases |ps|
  {
    hide Emitted, AllOn;
    if ps == [] {
    } else {
      var head, tail := Emitted(merged, phase, ps[0], job), EmittedActions(merged, phase, ps[1..], job);
      EmittedOn(merged, phase, ps[0], job);
      ForPoolConcat(head, tail, p.id);
      ForPoolOfOne(head, ps[0].id, p.id);
      ForPoolOfPhase(merged, phase, ps[1..], p, job);
      if !HasId(ps, p.id) {
        NoIdInRest(ps, p.id);
      }
      if p in ps {
        var j :| 0 <= j < |ps| && ps[j] == p;
        if j > 0 {
          assert ps[1..][j - 1] == p;
        } else {
          NoIdInRest(ps, p.id);
        }
      }
    }
  }

  lemma NoIdInRest(ps: seq<Pool>, id: string)
    requires ps != [] && (!HasId(ps, id) || (ps[0].id == id && DistinctIds(ps)))
    ensures !HasId(ps[1..], id)
  {
  }

  lemma {:induction false} PhaseIsEmitted(ps: seq<Pool>, job: Job)
    ensures PhaseActions(DeletePools, ps, job) == EmittedActions(true, DeletePools, ps, job)
    ensures PhaseActions(DeletePools, ps, job) == EmittedActions(false, DeletePools, ps, job)
  {
    hide PoolActions;
    if ps == [] {
    } else {
      PhaseIsEmitted(ps[1..], job);
    }
  }

  lemma {:induction false} ListenerDeletesOff(views: seq<ListenerView>, ports: seq<ServicePort>)
    ensures OffPools(ListenerDeletes(views, ports))
  {
    if views == [] {
    } else {
      ListenerDeletesOff(views[1..], ports);
    }
  }

  lemma {:induction false} CreatesOff(ports: seq<ServicePort>, pools: seq<Pool>, views: seq<ListenerView>)
    ensures OffPools(Creates(ports, pools, views))
  {
    hide LacksPool, LacksListener, GenPoolName;
    if ports == [] {
    } else {
      CreatesOff(ports[1..], pools, views);
    }
  }

  lemma {:induction false} KeptPoolsIds(pools: seq<Pool>, ports: seq<ServicePort>)
    requires DistinctPools(pools)
    ensures DistinctIds(KeptPools(pools, ports))
    ensures forall p :: p in pools && !Wanted(ports, p.name) ==> !HasId(KeptPools(pools, ports), p.id)
    decreases |pools|
  {
    hide Wanted, SameKey;
    KeptPoolsMeans(pools, ports);
    var kept := KeptPools(pools, ports);
    forall p | p in pools && !Wanted(ports, p.name) ensures !HasId(kept, p.id) {
      forall i | 0 <= i < |kept| ensures kept[i].id != p.id {
        assert kept[i] in pools && kept[i] != p;
        var a :| 0 <= a < |pools| && pools[a] == kept[i];
        var b :| 0 <= b < |pools| && pools[b] == p;
      }
    }
    if pools == [] {
    } else {
      KeptPoolsIds(pools[1..], ports);
      KeptPoolsMeans(pools[1..], ports);
      var tail := KeptPools(pools[1..], ports);
      forall i | 0 <= i < |tail| ensures tail[i].id != pools[0].id {
        assert tail[i] in pools[1..];
        var j :| 0 <= j < |pools[1..]| && pools[1..][j] == tail[i];
        assert pools[0].id != pools[j + 1].id;
      }
    }
  }

  /** How many operations work on members. */
  function MemberOps(actions: seq<Action>): nat {
    if actions == [] then 0
    else (if actions[0].IsMemberUpdate() || actions[0].ReplaceMembers? then 1 else 0) + MemberOps(actions[1..])
  }

  lemma {:induction false} MemberOpsConcat(a: seq<Action>, b: seq<Action>)
    ensures MemberOps(a + b) == MemberOps(a) + MemberOps(b)
    decreases |a|
  {
    if a == [] {
      assert a + b == b;
    } else {
      assert (a + b)[0] == a[0] && (a + b)[1..] == a[1..] + b;
      MemberOpsConcat(a[1..], b);
    }
  }

  lemma {:induction false} MemberOpsBound(a: seq<Action>)
    ensures MemberOps(a) <= |a|
    ensures (forall i :: 0 <= i < |a| ==> a[i].UpdatePool?) ==> MemberOps(a) == 0
  {
    if a == [] {
    } else {
      MemberOpsBound(a[1..]);
    }
  }

  /** The steps 3 to 5 for one pool. */
  function PoolPlan(merged: bool, p: Pool, job: Job): seq<Action> {
    Emitted(merged, DeleteMembers, p, job) + Emitted(merged, UpdatePools, p, job) + Emitted(merged, AddMembers, p, job)
  }

  lemma StalePoolPlan(merged: bool, p: Pool, job: Job)
    requires Stale(job.ports, p.name)
    ensures PoolActions(DeleteMembers, p, job) == [] && PoolActions(AddMembers, p, job) == []
    ensures PoolPlan(merged, p, job) == PoolActions(UpdatePools, p, job)
  {
    hide Stale, MemberDeletes, MemberCreates, Wanted, NeedsUpdate, GenPoolName, Fields;
  }

  lemma UpdateStep(p: Pool, job: Job)
    requires JobOk(job) && PoolOk(p) && Wanted(job.ports, p.name) && Canonical(p.name)
    ensures var u := PoolActions(UpdatePools, p, job);
      && (Stale(job.ports, p.name) ==> |u| == 2 && u[0].UpdatePool? && u[1].ReplaceMembers?)
      && (!Stale(job.ports, p.name) ==> |u| <= 1 && forall i :: 0 <= i < |u| ==> u[i].UpdatePool?)
  {
    hide JobOk, PoolOk, Stale, GenPoolName, NeedsUpdate, Fields, Matches, SameKey, PortOk;
    PortForFacts(p, job);
  }

  predicate HasReplacement(actions: seq<Action>) {
    exists i :: 0 <= i < |actions| && actions[i].ReplaceMembers?
  }

  lemma NoReplacementInMemberSteps(p: Pool, job: Job)
    ensures !HasReplacement(PoolActions(DeleteMembers, p, job)) && !HasReplacement(PoolActions(AddMembers, p, job))
  {
    hide MemberDeletes, MemberCreates, Stale;
    MemberDeletesShape(p, p.members, job);
    MemberCreatesShape(p, job.nodes);
  }

  lemma RenameShape(u: seq<Action>)
    requires |u| == 2 && u[0].UpdatePool? && u[1].ReplaceMembers?
    ensures MemberOps(u) == 1
  {
    assert u[1..][1..] == [];
    assert MemberOps(u[1..]) == 1;
  }

  /** Steps 3 to 5 for a pool that step 4 does not rename. */
  lemma CurrentPoolPlanShape(merged: bool, p: Pool, job: Job)
    requires var u := PoolActions(UpdatePools, p, job); forall i :: 0 <= i < |u| ==> u[i].UpdatePool?
    ensures merged ==> MemberOps(PoolPlan(merged, p, job)) <= 1
    ensures HasReplacement(PoolPlan(merged, p, job)) ==> MemberOps(PoolPlan(merged, p, job)) >= 1 && merged
  {
    hide PoolActions, HasReplacement, MemberOps;
    var c, d, e := Emitted(merged, DeleteMembers, p, job), Emitted(merged, UpdatePools, p, job),
                   Emitted(merged, AddMembers, p, job);
    MemberOpsConcat(c, d);
    MemberOpsConcat(c + d, e);
    MemberOpsBound(c);
    MemberOpsBound(d);
    MemberOpsBound(e);
    NoReplacementInMemberSteps(p, job);
    ReplacementIn(c, d, e);
  }

  lemma PoolPlanShape(merged: bool, p: Pool, job: Job)
    requires JobOk(job) && PoolOk(p) && Wanted(job.ports, p.name) && Canonical(p.name)
    ensures merged ==> MemberOps(PoolPlan(merged, p, job)) <= 1
    ensures HasReplacement(PoolPlan(merged, p, job)) ==> MemberOps(PoolPlan(merged, p, job)) == 1
  {
    hide JobOk, PoolOk, Stale, Wanted, Canonical, PoolActions, PoolPlan, HasReplacement, MemberOps;
    UpdateStep(p, job);
    if Stale(job.ports, p.name) {
      StalePoolPlan(merged, p, job);
      RenameShape(PoolActions(UpdatePools, p, job));
    } else {
      CurrentPoolPlanShape(merged, p, job);
    }
  }

  /** Where a replacement in three steps is. */
  lemma ReplacementIn(c: seq<Action>, d: seq<Action>, e: seq<Action>)
    ensures HasReplacement(c + d + e) ==> HasReplacement(c) || HasReplacement(d) || HasReplacement(e)
    ensures (forall i :: 0 <= i < |d| ==> d[i].UpdatePool?) ==> !HasReplacement(d)
    ensures HasReplacement(c) ==> MemberOps(c) >= 1
    ensures HasReplacement(e) ==> MemberOps(e) >= 1
  {
  }

  /** What a listed pool gets: nothing but its deletion, or the steps 3 to 5 for it alone. */
  lemma PlanForPool(merged: bool, s: State, ids: Ids, job: Job, p: Pool)
    requires WellFormed(s, ids) && p in s.pools
    ensures var mine := ForPool(Updates(merged, s, job), p.id);
      mine == if Wanted(job.ports, p.name) then PoolPlan(merged, p, job) else [DeletePool(p.name, p.id)]
  {
    hide WellFormed, Updates, ListenerDeletes, PhaseActions, EmittedActions, Creates, Marked, Views, KeptPools,
         Emitted, DistinctIds, OffPools, HasId, Wanted, SameKey, ForPool;
    UpdatesAreSteps(merged, s, ids, job);
    DistinctOfWellFormed(s, ids);
    var kept := KeptPools(s.pools, job.ports);
    var a, b := ListenerDeletes(Views(s), job.ports), PhaseActions(DeletePools, s.pools, job);
    var c, d, e := EmittedActions(merged, DeleteMembers, kept, job), EmittedActions(merged, UpdatePools, kept, job),
                   EmittedActions(merged, AddMembers, kept, job);
    var f := Creates(job.ports, Marked(s.pools, job.ports), Views(s));
    ForPoolSix(a, b, c, d, e, f, p.id);
    ListenerDeletesOff(Views(s), job.ports);
    ForPoolOfNone(a, p.id);
    CreatesOff(job.ports, Marked(s.pools, job.ports), Views(s));
    ForPoolOfNone(f, p.id);
    PhaseIsEmitted(s.pools, job);
    DistinctIdsOf(s.pools);
    ForPoolOfPhase(merged, DeletePools, s.pools, p, job);
    KeptPoolsIds(s.pools, job.ports);
    KeptPoolsMeans(s.pools, job.ports);
    ForPoolOfPhase(merged, DeleteMembers, kept, p, job);
    ForPoolOfPhase(merged, UpdatePools, kept, p, job);
    ForPoolOfPhase(merged, AddMembers, kept, p, job);
    EmittedDelete(merged, p, job);
  }

  lemma ForPoolSix(a: seq<Action>, b: seq<Action>, c: seq<Action>, d: seq<Action>, e: seq<Action>, f: seq<Action>,
                   id: string)
    ensures ForPool(a + b + c + d + e + f, id)
         == ForPool(a, id) + ForPool(b, id) + ForPool(c, id) + ForPool(d, id) + ForPool(e, id) + ForPool(f, id)
  {
    hide ForPool;
    ForPoolConcat(a, b, id);
    ForPoolConcat(a + b, c, id);
    ForPoolConcat(a + b + c, d, id);
    ForPoolConcat(a + b + c + d, e, id);
    ForPoolConcat(a + b + c + d + e, f, id);
  }

  lemma EmittedDelete(merged: bool, p: Pool, job: Job)
    ensures Emitted(merged, DeletePools, p, job) == if Wanted(job.ports, p.name) then [] else [DeletePool(p.name, p.id)]
  {
  }

  lemma DistinctIdsOf(pools: seq<Pool>)
    requires DistinctPools(pools)
    ensures DistinctIds(pools)
  {
  }

  /** After step 8 a pool has at most one operation on its members; before and after, a replacement is the only one. */
  lemma OneMemberOperationPerPool(merged: bool, s: State, ids: Ids, job: Job, p: Pool)
    requires WellFormed(s, ids) && JobOk(job) && p in s.pools && Canonical(p.name)
    ensures var mine := ForPool(Updates(merged, s, job), p.id);
      && (merged ==> MemberOps(mine) <= 1)
      && (HasReplacement(mine) ==> MemberOps(mine) == 1)
      && (DeletePool(p.name, p.id) in mine ==> mine == [DeletePool(p.name, p.id)])
  {
    hide WellFormed, JobOk, Updates, PoolOk, Wanted, PoolPlan, HasReplacement, ForPool, Emitted;
    PlanForPool(merged, s, ids, job, p);
    KeptPoolsOk(s, ids, job.ports);
    if Wanted(job.ports, p.name) {
      PoolPlanShape(merged, p, job);
      PoolPlanKeepsPool(merged, p, job);
    } else {
      DeletionAlone(p);
    }
  }

  lemma DeletionAlone(p: Pool)
    ensures MemberOps([DeletePool(p.name, p.id)]) == 0 && !HasReplacement([DeletePool(p.name, p.id)])
  {
  }

  lemma PoolPlanKeepsPool(merged: bool, p: Pool, job: Job)
    ensures DeletePool(p.name, p.id) !in PoolPlan(merged, p, job)
  {
    hide Wanted, Stale, Fields, GenPoolName, NeedsUpdate, MemberDeletes, MemberCreates;
    MemberDeletesShape(p, p.members, job);
    MemberCreatesShape(p, job.nodes);
  }

  lemma {:induction false} AllMemberOps(a: seq<Action>)
    requires forall i :: 0 <= i < |a| ==> a[i].IsMemberUpdate() || a[i].ReplaceMembers?
    ensures MemberOps(a) == |a|
  {
    if a == [] {
    } else {
      AllMemberOps(a[1..]);
    }
  }

  /** A pool that step 4 renames although its node port is current: its replacement, and one more operation if it has
      any member to create or to delete. */
  lemma RenamedPoolPlan(p: Pool, job: Job)
    requires JobOk(job) && PoolOk(p) && Wanted(job.ports, p.name) && !Stale(job.ports, p.name) && !Canonical(p.name)
    ensures MemberOps(PoolPlan(true, p, job))
         == if MemberDeletes(p, p.members, job) == [] && MemberCreates(p, job.nodes) == [] then 1 else 2
  {
    hide JobOk, PoolOk, Stale, Wanted, Canonical, GenPoolName, MemberDeletes, MemberCreates, HealthFits, Fields,
         Matches, SameKey, PortOk;
    PortForFacts(p, job);
    MemberDeletesShape(p, p.members, job);
    MemberCreatesShape(p, job.nodes);
    var c, d, e := Emitted(true, DeleteMembers, p, job), Emitted(true, UpdatePools, p, job), Emitted(true, AddMembers,
        p, job);
    MemberOpsConcat(c, d);
    MemberOpsConcat(c + d, e);
    AllMemberOps(c);
    AllMemberOps(e);
    assert |d| == 2 && d[0].UpdatePool? && d[1].ReplaceMembers?;
    assert d[1..] == [d[1]] && d[1..][1..] == [];
  }

  /** After step 8 a pool has two operations on its members exactly if some service port wants it, its node port is
      current, its name is not canonical, and its members are not the nodes. */
  lemma OneMemberOperationIff(s: State, ids: Ids, job: Job, p: Pool)
    requires WellFormed(s, ids) && JobOk(job) && p in s.pools
    ensures MemberOps(ForPool(Updates(true, s, job), p.id)) <= 1 <==>
      || !Wanted(job.ports, p.name) || Stale(job.ports, p.name) || Canonical(p.name)
      || (MemberDeletes(p, p.members, job) == [] && MemberCreates(p, job.nodes) == [])
  {
    hide WellFormed, JobOk, Updates, PoolOk, Wanted, PoolPlan, ForPool, Emitted, Stale, Canonical,
         MemberDeletes, MemberCreates;
    PlanForPool(true, s, ids, job, p);
    KeptPoolsOk(s, ids, job.ports);
    if !Wanted(job.ports, p.name) {
      DeletionAlone(p);
    } else if Stale(job.ports, p.name) {
      StaleOperations(p, job);
    } else if Canonical(p.name) {
      PoolPlanShape(true, p, job);
    } else {
      RenamedPoolPlan(p, job);
    }
  }

  lemma StaleOperations(p: Pool, job: Job)
    requires JobOk(job) && PoolOk(p) && Wanted(job.ports, p.name) && Stale(job.ports, p.name)
    ensures MemberOps(PoolPlan(true, p, job)) == 1
  {
    hide JobOk, PoolOk, Stale, Wanted, Canonical, GenPoolName, Fields, Matches, SameKey, PortOk;
    PortForFacts(p, job);
    StalePoolPlan(true, p, job);
    var d := PoolActions(UpdatePools, p, job);
    assert |d| == 2 && d[0].UpdatePool? && d[1].ReplaceMembers?;
    assert d[1..] == [d[1]] && d[1..][1..] == [];
    hide PoolActions, PoolPlan;
    assert MemberOps(d[1..]) == 1 && MemberOps(d) == 1;
  }
}
