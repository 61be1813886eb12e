/** Which actions the planner emits for a listed load balancer, step by step. */
module Plans {
  import opened Text
  import opened PoolNames
  import opened LoadBalancers
  import opened Actions

  predicate Wanted(ports: seq<ServicePort>, name: string) {
    MatchIndex(ports, Fields(name).port, Fields(name).protocol) < |ports|
  }

  /** Some service port is the one of this pool, with another node port. */
  predicate Stale(ports: seq<ServicePort>, name: string) {
    exists i :: 0 <= i < |ports| && Matches(ports[i], Fields(name).port, Fields(name).protocol)
                && ports[i].nodePort != Fields(name).nodePort
  }

  /** The text search by which the planner asks whether a member's target is one of the nodes. */
  predicate InNodeText(nodes: seq<string>, target: string) {
    Contains(Padded(nodes), " " + target + " ")
  }

  /** A pool name the planner can work with once it has passed step 2. */
  predicate Readable(name: string) {
    name == POOL_TO_BE_DELETED || ParsePoolName(name).Some?
  }

  lemma MarkerDoesNotParse()
    ensures ParsePoolName(POOL_TO_BE_DELETED).None?
  {
    assert POOL_TO_BE_DELETED == "POOL" + ['-'] + ("TO" + ['-'] + ("BE" + ['-'] + "DELETED"));
    SplitPiece("POOL", "TO" + ['-'] + ("BE" + ['-'] + "DELETED"), '-');
    SplitPiece("TO", "BE" + ['-'] + "DELETED", '-');
    SplitPiece("BE", "DELETED", '-');
    SplitPiece("DELETED", "", '-');
  }

  // ---------------------------------------------------------------- steps 1 to 5, pool by pool

  /** Step 1. */
  function ListenerDeletes(views: seq<ListenerView>, ports: seq<ServicePort>): seq<Action> {
    if views == [] then []
    else
      var l := views[0].listener;
      var name := if views[0].poolName == "" then "unknown" else views[0].poolName;
      (if MatchIndex(ports, l.port, l.protocol) < |ports| then [] else [DeleteListener(name, l.id)])
      + ListenerDeletes(views[1..], ports)
  }

  /** Step 2 overwrites the names of the pools it deletes. */
  function Mark(p: Pool, ports: seq<ServicePort>): Pool {
    if Wanted(ports, p.name) then p else p.(name := POOL_TO_BE_DELETED)
  }

  function Marked(pools: seq<Pool>, ports: seq<ServicePort>): (r: seq<Pool>)
    ensures |r| == |pools|
    ensures forall i :: 0 <= i < |r| ==> r[i] == Mark(pools[i], ports)
  {
    seq(|pools|, i requires 0 <= i < |pools| => Mark(pools[i], ports))
  }

  predicate KeepsMember(p: Pool, m: Member, job: Job) {
    InNodeText(job.nodes, m.target) && Fields(p.name).nodePort == m.port
  }

  function MemberDeletes(p: Pool, members: seq<Member>, job: Job): seq<Action> {
    if members == [] then []
    else
      (if KeepsMember(p, members[0], job) then [] else [DeleteMember(p.name, p.id, members[0].id, members[0].target)])
      + MemberDeletes(p, members[1..], job)
  }

  function MemberCreates(p: Pool, nodes: seq<string>): seq<Action> {
    if nodes == [] then []
    else
      (if HasTarget(p.members, nodes[0], Fields(p.name).nodePort) then [] else [CreateMember(p.name, p.id, nodes[0])])
      + MemberCreates(p, nodes[1..])
  }

  /** The health monitor is the one the traffic policy asks for, where the planner looks at it at all. */
  predicate HealthFits(p: Pool, sp: ServicePort, job: Job) {
    && (job.policy == LocalPolicy && job.healthCheckNodePort > 0 ==>
          p.health == HealthMonitor(HTTP, job.healthCheckNodePort))
    && (job.policy == ClusterPolicy ==> p.health == HealthMonitor(TCP, sp.nodePort))
  }

  predicate NeedsUpdate(p: Pool, sp: ServicePort, job: Job) {
    GenPoolName(sp) != p.name || !HealthFits(p, sp, job) || p.proxy != job.Proxy()
  }

  datatype Phase = DeletePools | DeleteMembers | UpdatePools | AddMembers

  /** What one step of the planner emits for one pool. */
  function PoolActions(phase: Phase, p: Pool, job: Job): seq<Action> {
    match phase
    case DeletePools =>
      if Wanted(job.ports, p.name) then [] else [DeletePool(p.name, p.id)]
    case DeleteMembers =>
      if p.name == POOL_TO_BE_DELETED || Stale(job.ports, p.name) then [] else MemberDeletes(p, p.members, job)
    case UpdatePools =>
      if p.name == POOL_TO_BE_DELETED || !Wanted(job.ports, p.name) then []
      else
        var sp := job.ports[MatchIndex(job.ports, Fields(p.name).port, Fields(p.name).protocol)];
        var name := GenPoolName(sp);
        if name != p.name then [UpdatePool(name, p.id), ReplaceMembers(name, p.id)]
        else if NeedsUpdate(p, sp, job) then [UpdatePool(name, p.id)]
        else []
    case AddMembers =>
      if p.name == POOL_TO_BE_DELETED || Stale(job.ports, p.name) then [] else MemberCreates(p, job.nodes)
  }

  function PhaseActions(phase: Phase, pools: seq<Pool>, job: Job): seq<Action> {
    if pools == [] then [] else PoolActions(phase, pools[0], job) + PhaseActions(phase, pools[1..], job)
  }

  // ---------------------------------------------------------------- steps 6 and 7, port by port

  /** The scan of step 6: is there no pool for the port, or is there a name it cannot read on the way? */
  function LacksPool(pools: seq<Pool>, sp: ServicePort): Result<bool> {
    if pools == [] then Ok(true)
    else if pools[0].name == GenPoolName(sp) then Ok(false)
    else if pools[0].name == POOL_TO_BE_DELETED then LacksPool(pools[1..], sp)
    else if ParsePoolName(pools[0].name).None? then Err(BadPoolName)
    else if Matches(sp, Fields(pools[0].name).port, Fields(pools[0].name).protocol) then Ok(false)
    else LacksPool(pools[1..], sp)
  }

  /** The pool is for the service port. */
  predicate IsForPort(p: Pool, sp: ServicePort) {
    || p.name == GenPoolName(sp)
    || (p.name != POOL_TO_BE_DELETED && ParsePoolName(p.name).Some?
        && Matches(sp, Fields(p.name).port, Fields(p.name).protocol))
  }

  /** The scan ends at the first pool that is for the port or has a name that cannot be read, whichever it is. */
  predicate ScanEnds(pools: seq<Pool>, i: int, sp: ServicePort) {
    && 0 <= i < |pools| && (IsForPort(pools[i], sp) || !Readable(pools[i].name))
    && forall j :: 0 <= j < i ==> !IsForPort(pools[j], sp) && Readable(pools[j].name)
  }

  lemma {:induction false} LacksPoolScan(pools: seq<Pool>, sp: ServicePort)
    ensures LacksPool(pools, sp) == Ok(true) <==>
      forall i :: 0 <= i < |pools| ==> !IsForPort(pools[i], sp) && Readable(pools[i].name)
    ensures forall i :: ScanEnds(pools, i, sp) ==>
      LacksPool(pools, sp) == if IsForPort(pools[i], sp) then Ok(false) else Err(BadPoolName)
    decreases |pools|
  {
    hide ParsePoolName, GenPoolName, Matches, Fields;
    if pools == [] {
    } else {
      var tail := pools[1..];
      LacksPoolScan(tail, sp);
      assert forall i :: 0 <= i < |tail| ==> tail[i] == pools[i + 1];
      assert forall i :: ScanEnds(pools, i, sp) && i > 0 ==> ScanEnds(tail, i - 1, sp) && pools[i] == tail[i - 1];
    }
  }

  predicate LacksListener(views: seq<ListenerView>, sp: ServicePort) {
    forall i :: 0 <= i < |views| ==> !Matches(sp, views[i].listener.port, views[i].listener.protocol)
  }

  function PortCreates(sp: ServicePort, pools: seq<Pool>, views: seq<ListenerView>): seq<Action> {
    (if LacksPool(pools, sp) == Ok(true) then [CreatePool(GenPoolName(sp))] else [])
    + (if LacksListener(views, sp) then [CreateListener(GenPoolName(sp))] else [])
  }

  function Creates(ports: seq<ServicePort>, pools: seq<Pool>, views: seq<ListenerView>): seq<Action> {
    if ports == [] then [] else PortCreates(ports[0], pools, views) + Creates(ports[1..], pools, views)
  }

  // ---------------------------------------------------------------- the plan

  /** Steps 1 to 7 for names that can all be read. */
  function Plan(views: seq<ListenerView>, pools: seq<Pool>, job: Job): seq<Action> {
    var marked := Marked(pools, job.ports);
    ListenerDeletes(views, job.ports)
    + PhaseActions(DeletePools, pools, job)
    + PhaseActions(DeleteMembers, marked, job)
    + PhaseActions(UpdatePools, marked, job)
    + PhaseActions(AddMembers, marked, job)
    + Creates(job.ports, marked, views)
  }

  /** The listeners as the cloud lists them. */
  function Views(s: State): (views: seq<ListenerView>)
    ensures |views| == |s.listeners|
    ensures forall i :: 0 <= i < |views| ==> views[i].listener == s.listeners[i]
  {
    seq(|s.listeners|, i requires 0 <= i < |s.listeners| =>
      var j := PoolIndex(s.pools, s.listeners[i].poolId);
      ListenerView(s.listeners[i], if j < |s.pools| then s.pools[j].name else ""))
  }

  /** The plan for a load balancer as it stands. */
  function PlanFor(s: State, job: Job): seq<Action> {
    Plan(Views(s), s.pools, job)
  }
}
