/** The cloud behind the `CloudVpcSdk` interface: one load balancer, changed in place by requests that may fail. */
module VpcSdk {
  import opened Text
  import opened PoolNames
  import opened LoadBalancers
  import opened Actions
  import opened Cloud
  import opened Plans
  import opened Stages
  import opened Creation
  import Subnets

  datatype PoolRef = PoolRef(id: string, name: string)

  /** A load balancer as one call returns it: its status and its pools at that moment. */
  datatype LoadBalancer = LoadBalancer(operatingStatus: string, provisioningStatus: string, isPublic: bool, isNlb: bool,
                                       subnets: seq<string>, pools: seq<PoolRef>)
  {
    /** `IsReady`. */
    predicate IsReady() { operatingStatus == "online" && provisioningStatus == "active" }
  }

  function Refs(pools: seq<Pool>): (refs: seq<PoolRef>)
    ensures |refs| == |pools|
    ensures forall i :: 0 <= i < |refs| ==> refs[i] == PoolRef(pools[i].id, pools[i].name)
  {
    seq(|pools|, i requires 0 <= i < |pools| => PoolRef(pools[i].id, pools[i].name))
  }

  /** What the cloud sees of the program: status queries and requests for a change. */
  datatype Event = Observed(operatingStatus: string, provisioningStatus: string) | Requested(action: Action)

  /** Every request for a change directly follows an observation of an online and active load balancer, so no other
      change came in between. */
  predicate Guarded(trace: seq<Event>, start: nat) {
    forall i :: start <= i < |trace| && trace[i].Requested? ==> i > 0 && trace[i - 1] == Observed("online", "active")
  }

  /** The load balancer was seen in another status. */
  predicate SeenBusy(trace: seq<Event>, start: nat) {
    exists i :: start <= i < |trace| && trace[i].Observed? && trace[i] != Observed("online", "active")
  }

  function ErrorOf<T>(r: Result<T>): Option<Error> {
    if r.Err? then Some(r.error) else None
  }

  /** The number of calls that have failed for the cloud's own reasons: one more exactly if that is the answer. */
  predicate Counted(before: nat, after: nat, e: Option<Error>) {
    after == before + if e == Some(CloudFailure) then 1 else 0
  }

  /** The names of the pools for the service ports. */
  predicate NamesOf(job: Job, names: seq<string>) {
    |names| == |job.ports| && forall i :: 0 <= i < |names| ==> names[i] == GenPoolName(job.ports[i])
  }

  lemma BuiltIsCreated(names: seq<string>, pools: seq<PoolPrototype>, listeners: seq<ListenerPrototype>, job: Job,
                       ids: Ids)
    requires NamesOf(job, names) && |pools| == |names| && |listeners| == |names|
    requires forall i :: 0 <= i < |names| ==>
      pools[i] == PoolPrototypeFor(names[i], job) && listeners[i] == ListenerPrototypeFor(names[i])
    ensures Built(pools, listeners, ids, |job.nodes|) == CreatedState(job, ids)
  {
    hide GenPoolName, Built, PoolPrototypeFor, ListenerPrototypeFor;
    var n := |job.ports|;
    assert pools == seq(n, i requires 0 <= i < n => PoolPrototypeFor(GenPoolName(job.ports[i]), job));
    assert listeners == seq(n, i requires 0 <= i < n => ListenerPrototypeFor(GenPoolName(job.ports[i])));
  }

  /** The outcome of the request `a` in run `r`: done exactly as the cloud does it, or not done at all. An error may
      come after the change was made, and a request that breaks no rule only fails for the cloud's own reasons. */
  ghost predicate Did(before: State, traceBefore: seq<Event>, after: State, trace: seq<Event>, a: Action, r: Run,
                      e: Option<Error>) {
    && (trace == traceBefore || trace == traceBefore + [Requested(a)])
    && (after == before || (Accepts(before, a, r) && after == Effect(before, a, r)))
    && (e.None? ==> Accepts(before, a, r) && after == Effect(before, a, r))
    && (e.Some? && after != before ==> e == Some(CloudFailure)) && e != Some(NotReady)
    && (Accepts(before, a, r) ==> e.None? || e == Some(CloudFailure))
  }

  /** A listener for the port and protocol of a pool name, on the pool with some ID. */
  predicate ListenerAdded(before: State, after: State, poolName: string, poolId: string, ids: Ids) {
    var f := Fields(poolName);
    && Parses(poolName) && PoolIndex(before.pools, poolId) < |before.pools| && !PortTaken(before.listeners, f.port)
    && after == before.(listeners := before.listeners
      + [Listener(ids.objects(before.nextObject), f.port, f.protocol, poolId)],
                        nextObject := before.nextObject + 1)
  }

  lemma NamedHasIndex(pools: seq<Pool>, name: string)
    requires NamedIndex(pools, name) < |pools|
    ensures PoolIndex(pools, pools[NamedIndex(pools, name)].id) < |pools|
  {
  }

  class CloudSdk {
    var present: bool
    var state: State
    var isPublic: bool
    var isNlb: bool
    var lbSubnets: seq<string>
    const vpcSubnets: seq<Subnets.Subnet>
    const ids: Ids
    var now: nat
    ghost var trace: seq<Event>
    ghost var failures: nat

    constructor (vpcSubnets: seq<Subnets.Subnet>, ids: Ids)
      ensures !present && this.vpcSubnets == vpcSubnets && this.ids == ids && trace == []
      ensures state == State([], [], 0, 0)
    {
      present, isPublic, isNlb, lbSubnets := false, true, false, [];
      state := State([], [], 0, 0);
      this.vpcSubnets, this.ids := vpcSubnets, ids;
      now, trace, failures := 0, [], 0;
    }

    function Snapshot(operatingStatus: string, provisioningStatus: string): LoadBalancer
      reads this
    {
      LoadBalancer(operatingStatus, provisioningStatus, isPublic, isNlb, lbSubnets, Refs(state.pools))
    }

    /** The object is what the latest query returned, and nothing was requested since. */
    ghost predicate IsCurrent(lb: LoadBalancer)
      reads this
    {
      && present && trace != [] && trace[|trace| - 1] == Observed(lb.operatingStatus, lb.provisioningStatus)
      && lb == Snapshot(lb.operatingStatus, lb.provisioningStatus)
    }

    /** The program sleeps; calls and other delays are counted here too. */
    method Sleep(seconds: nat)
      modifies this`now
      ensures now >= old(now) + seconds
    {
      var later :| later >= now + seconds;
      now := later;
    }

    // -------------------------------------------------------------- queries

    method FindLoadBalancer() returns (r: Result<Option<LoadBalancer>>)
      modifies this`trace, this`failures
      ensures r.Err? ==> r.error == CloudFailure && trace == old(trace)
      ensures r == Ok(None) ==> !present && trace == old(trace)
      ensures r.Ok? && r.value.Some? ==>
        && IsCurrent(r.value.value)
        && trace == old(trace) + [Observed(r.value.value.operatingStatus, r.value.value.provisioningStatus)]
      ensures Counted(old(failures), failures, ErrorOf(r))
    {
      if * {
        failures := failures + 1;
        return Err(CloudFailure);
      }
      if !present {
        return Ok(None);
      }
      var operatingStatus: string, provisioningStatus: string := *, *;
      var lb := Snapshot(operatingStatus, provisioningStatus);
      trace := trace + [Observed(operatingStatus, provisioningStatus)];
      r := Ok(Some(lb));
    }

    method GetLoadBalancer() returns (r: Result<LoadBalancer>)
      modifies this`trace, this`failures
      ensures r.Err? ==> r.error == CloudFailure && trace == old(trace)
      ensures r.Ok? ==>
        IsCurrent(r.value) && trace == old(trace) + [Observed(r.value.operatingStatus, r.value.provisioningStatus)]
      ensures Counted(old(failures), failures, ErrorOf(r))
    {
      var found := FindLoadBalancer();
      if found.Err? {
        return Err(found.error);
      }
      if found.value.None? {
        failures := failures + 1;
        return Err(CloudFailure);
      }
      r := Ok(found.value.value);
    }

    method ListSubnets() returns (r: Result<seq<Subnets.Subnet>>)
      modifies this`failures
      ensures r == Ok(vpcSubnets) || r == Err(CloudFailure)
      ensures Counted(old(failures), failures, ErrorOf(r))
    {
      if * {
        failures := failures + 1;
        return Err(CloudFailure);
      }
      r := Ok(vpcSubnets);
    }

    method ListLoadBalancerListeners() returns (r: Result<seq<ListenerView>>)
      modifies this`failures
      ensures r == Ok(Views(state)) || r == Err(CloudFailure)
      ensures Counted(old(failures), failures, ErrorOf(r))
    {
      if * {
        failures := failures + 1;
        return Err(CloudFailure);
      }
      r := Ok(Views(state));
    }

    /** The listed pools are the caller's own objects. */
    method ListLoadBalancerPools() returns (r: Result<array<Pool>>)
      modifies this`failures
      ensures r.Err? ==> r.error == CloudFailure
      ensures r.Ok? ==> fresh(r.value) && r.value[..] == state.pools
      ensures Counted(old(failures), failures, ErrorOf(r))
    {
      if * {
        failures := failures + 1;
        return Err(CloudFailure);
      }
      var listed := state.pools;
      var pools := new Pool[|listed|](i requires 0 <= i < |listed| => listed[i]);
      r := Ok(pools);
    }

    // -------------------------------------------------------------- requests

    /** What the program hears of a request that was carried out. */
    method Answer() returns (e: Option<Error>)
      modifies this`failures
      ensures e == None || e == Some(CloudFailure)
      ensures Counted(old(failures), failures, e)
    {
      if * {
        failures := failures + 1;
        return Some(CloudFailure);
      }
      return None;
    }

    /** The client sends any pool ID; the outcome is that of CREATE-LISTENER if it is the one of the pool so named. */
    method CreateLoadBalancerListener(poolName: string, poolId: string, ghost r: Run) returns (e: Option<Error>)
      requires r.ids == ids
      modifies this`state, this`trace, this`failures
      ensures trace == old(trace) || trace == old(trace) + [Requested(CreateListener(poolName))]
      ensures state == old(state) || ListenerAdded(old(state), state, poolName, poolId, ids)
      ensures e.None? ==> ListenerAdded(old(state), state, poolName, poolId, ids)
      ensures e.Some? && state != old(state) ==> e == Some(CloudFailure)
      ensures var i := NamedIndex(old(state).pools, poolName);
        i < |old(state).pools| && old(state).pools[i].id == poolId ==>
          Did(old(state), old(trace), state, trace, CreateListener(poolName), r, e)
      ensures Counted(old(failures), failures, e)
    {
      hide ParsePoolName;
      if NamedIndex(state.pools, poolName) < |state.pools| {
        NamedHasIndex(state.pools, poolName);
      }
      var parsed := ParsePoolName(poolName);
      if parsed.None? {
        return Some(BadPoolName);
      }
      trace := trace + [Requested(CreateListener(poolName))];
      if * {
        failures := failures + 1;
        return Some(CloudFailure);
      }
      if PoolIndex(state.pools, poolId) == |state.pools| || PortTaken(state.listeners, parsed.value.port) {
        return Some(Refused);
      }
      var listener := Listener(ids.objects(state.nextObject), parsed.value.port, parsed.value.protocol, poolId);
      state := state.(listeners := state.listeners + [listener], nextObject := state.nextObject + 1);
      e := Answer();
    }

    method CreateLoadBalancerPool(poolName: string, job: Job, ghost r: Run) returns (e: Option<Error>)
      requires r.ids == ids && r.job == job
      modifies this`state, this`trace, this`failures
      ensures Did(old(state), old(trace), state, trace, CreatePool(poolName), r, e)
      ensures Counted(old(failures), failures, e)
    {
      hide ParsePoolName;
      var parsed := ParsePoolName(poolName);
      if parsed.None? {
        return Some(BadPoolName);
      }
      trace := trace + [Requested(CreatePool(poolName))];
      if * {
        failures := failures + 1;
        return Some(CloudFailure);
      }
      if NamedIndex(state.pools, poolName) < |state.pools| || !NoRepeats(job.nodes) {
        return Some(Refused);
      }
      var members := NewMembers(parsed.value.nodePort, job.nodes, ids, state.nextMember);
      var pool := Pool(ids.objects(state.nextObject), poolName, members, job.Health(parsed.value.nodePort),
          PROXY_DISABLED);
      state := state.(pools := state.pools + [pool], nextObject := state.nextObject + 1,
                      nextMember := state.nextMember + |job.nodes|);
      e := Answer();
    }

    method CreateLoadBalancerPoolMember(poolName: string, poolId: string, nodeId: string, ghost r: Run)
      returns (e: Option<Error>)
      requires r.ids == ids
      modifies this`state, this`trace, this`failures
      ensures Did(old(state), old(trace), state, trace, CreateMember(poolName, poolId, nodeId), r, e)
      ensures Counted(old(failures), failures, e)
    {
      hide ParsePoolName;
      var parsed := ParsePoolName(poolName);
      if parsed.None? {
        return Some(BadPoolName);
      }
      trace := trace + [Requested(CreateMember(poolName, poolId, nodeId))];
      if * {
        failures := failures + 1;
        return Some(CloudFailure);
      }
      var i := PoolIndex(state.pools, poolId);
      if i == |state.pools| || HasTarget(state.pools[i].members, nodeId, parsed.value.nodePort) {
        return Some(Refused);
      }
      var pool := state.pools[i];
      var member := Member(ids.members(state.nextMember), nodeId, parsed.value.nodePort);
      state := state.(pools := state.pools[i := pool.(members := pool.members + [member])],
        nextMember := state.nextMember + 1);
      e := Answer();
    }

    method DeleteLoadBalancerListener(listenerId: string, ghost poolName: string, ghost r: Run)
      returns (e: Option<Error>)
      modifies this`state, this`trace, this`failures
      ensures Did(old(state), old(trace), state, trace, DeleteListener(poolName, listenerId), r, e)
      ensures Counted(old(failures), failures, e)
    {
      trace := trace + [Requested(DeleteListener(poolName, listenerId))];
      if * {
        failures := failures + 1;
        return Some(CloudFailure);
      }
      var i := ListenerIndex(state.listeners, listenerId);
      if i == |state.listeners| {
        return Some(Refused);
      }
      state := state.(listeners := state.listeners[..i] + state.listeners[i + 1..]);
      e := Answer();
    }

    method DeleteLoadBalancerPool(poolId: string, ghost poolName: string, ghost r: Run) returns (e: Option<Error>)
      modifies this`state, this`trace, this`failures
      ensures Did(old(state), old(trace), state, trace, DeletePool(poolName, poolId), r, e)
      ensures Counted(old(failures), failures, e)
    {
      trace := trace + [Requested(DeletePool(poolName, poolId))];
      if * {
        failures := failures + 1;
        return Some(CloudFailure);
      }
      var i := PoolIndex(state.pools, poolId);
      if i == |state.pools| || InUse(state.listeners, poolId) {
        return Some(Refused);
      }
      state := state.(pools := state.pools[..i] + state.pools[i + 1..]);
      e := Answer();
    }

    method DeleteLoadBalancerPoolMember(poolId: string, memberId: string, ghost poolName: string,
                                        ghost nodeId: string, ghost r: Run)
      returns (e: Option<Error>)
      modifies this`state, this`trace, this`failures
      ensures Did(old(state), old(trace), state, trace, DeleteMember(poolName, poolId, memberId, nodeId), r, e)
      ensures Counted(old(failures), failures, e)
    {
      trace := trace + [Requested(DeleteMember(poolName, poolId, memberId, nodeId))];
      if * {
        failures := failures + 1;
        return Some(CloudFailure);
      }
      var i := PoolIndex(state.pools, poolId);
      if i == |state.pools| || MemberIndex(state.pools[i].members, memberId) == |state.pools[i].members| {
        return Some(Refused);
      }
      var pool := state.pools[i];
      var m := MemberIndex(pool.members, memberId);
      state := state.(pools := state.pools[i := pool.(members := pool.members[..m] + pool.members[m + 1..])]);
      e := Answer();
    }

    method ReplaceLoadBalancerPoolMembers(poolName: string, poolId: string, job: Job, ghost r: Run)
      returns (e: Option<Error>)
      requires r.ids == ids && r.job == job
      modifies this`state, this`trace, this`failures
      ensures Did(old(state), old(trace), state, trace, ReplaceMembers(poolName, poolId), r, e)
      ensures Counted(old(failures), failures, e)
    {
      hide ParsePoolName;
      var parsed := ParsePoolName(poolName);
      if parsed.None? {
        return Some(BadPoolName);
      }
      trace := trace + [Requested(ReplaceMembers(poolName, poolId))];
      if * {
        failures := failures + 1;
        return Some(CloudFailure);
      }
      var i := PoolIndex(state.pools, poolId);
      if i == |state.pools| || !NoRepeats(job.nodes) {
        return Some(Refused);
      }
      var members := NewMembers(parsed.value.nodePort, job.nodes, ids, state.nextMember);
      state := state.(pools := state.pools[i := state.pools[i].(members := members)],
                      nextMember := state.nextMember + |job.nodes|);
      e := Answer();
    }

    /** The patch carries a proxy setting only when the listed one is not the one that is wanted. */
    method UpdateLoadBalancerPool(newPoolName: string, existing: Pool, job: Job, ghost r: Run)
      returns (e: Option<Error>)
      requires r.ids == ids && r.job == job && IsListed(existing, r)
      modifies this`state, this`trace, this`failures
      ensures Did(old(state), old(trace), state, trace, UpdatePool(newPoolName, existing.id), r, e)
      ensures Counted(old(failures), failures, e)
    {
      hide ParsePoolName;
      var parsed := ParsePoolName(newPoolName);
      if parsed.None? {
        return Some(BadPoolName);
      }
      var patch: Option<string> := None;
      if job.proxyRequested && existing.proxy != PROXY_V1 {
        patch := Some(PROXY_V1);
      }
      if !job.proxyRequested && existing.proxy != PROXY_DISABLED {
        patch := Some(PROXY_DISABLED);
      }
      trace := trace + [Requested(UpdatePool(newPoolName, existing.id))];
      if * {
        failures := failures + 1;
        return Some(CloudFailure);
      }
      var i := PoolIndex(state.pools, existing.id);
      if i == |state.pools| || exists j :: 0 <= j < |state.pools| && j != i && state.pools[j].name == newPoolName {
        return Some(Refused);
      }
      var pool := state.pools[i].(name := newPoolName, health := job.Health(parsed.value.nodePort));
      if patch.Some? {
        pool := pool.(proxy := patch.value);
      }
      state := state.(pools := state.pools[i := pool]);
      e := Answer();
    }

    /** Everything at once: the pools, and the listeners that name them. An error may come after the creation. */
    method CreateLoadBalancer(poolNames: seq<string>, job: Job, isPublic: bool, subnets: seq<string>)
      returns (r: Result<LoadBalancer>)
      requires !present && state == State([], [], 0, 0)
      modifies this
      ensures r.Err? ==>
        || r.error == CloudFailure
        || (r.error == BadPoolName && !present && exists i :: 0 <= i < |poolNames| && ParsePoolName(poolNames[i]).None?)
      ensures !present ==> r.Err? && state == old(state) && lbSubnets == old(lbSubnets)
      ensures present ==> this.isPublic == isPublic && lbSubnets == subnets
      ensures present && NamesOf(job, poolNames) ==> state == CreatedState(job, ids)
      ensures r.Ok? ==>
        IsCurrent(r.value) && trace == old(trace) + [Observed(r.value.operatingStatus, r.value.provisioningStatus)]
      ensures r.Err? ==> trace == old(trace)
      ensures Counted(old(failures), failures, ErrorOf(r))
    {
      hide ParsePoolName, GenPoolName, Built, CreatedState, NamesOf, PoolPrototypeFor, ListenerPrototypeFor, Refs;
      var request := Prototypes(poolNames, job);
      if request.Err? {
        return Err(request.error);
      }
      if * {
        failures := failures + 1;
        return Err(CloudFailure);
      }
      if NamesOf(job, poolNames) {
        BuiltIsCreated(poolNames, request.value.0, request.value.1, job, ids);
      }
      state := Built(request.value.0, request.value.1, ids, |job.nodes|);
      present, this.isPublic, isNlb, lbSubnets := true, isPublic, *, subnets;
      if * {
        failures := failures + 1;
        return Err(CloudFailure);
      }
      var operatingStatus: string, provisioningStatus: string := *, *;
      var lb := Snapshot(operatingStatus, provisioningStatus);
      trace := trace + [Observed(operatingStatus, provisioningStatus)];
      r := Ok(lb);
    }
  }
}
