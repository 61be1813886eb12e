/** The load balancer as the provider sees it: listeners, pools and members, and what a service asks of them. */
module LoadBalancers {
  import opened Text
  import opened PoolNames

  // ---------------------------------------------------------------- cloud objects

  datatype Member = Member(id: string, target: string, port: int)

  datatype HealthMonitor = HealthMonitor(kind: string, port: int)

  datatype Pool = Pool(id: string, name: string, members: seq<Member>, health: HealthMonitor, proxy: string)

  datatype Listener = Listener(id: string, port: int, protocol: string, poolId: string)

  /** A listener as it is listed, with the name of its default pool at that moment. */
  datatype ListenerView = ListenerView(listener: Listener, poolName: string)

  /** The mutable part of one load balancer. The counters say how many identifiers have been handed out. */
  datatype State = State(listeners: seq<Listener>, pools: seq<Pool>, nextObject: nat, nextMember: nat)

  const HTTP := "http"
  const PROXY_DISABLED := "disabled"
  const PROXY_V1 := "v1"

  // ---------------------------------------------------------------- what the service asks for

  datatype Policy = ClusterPolicy | LocalPolicy | OtherPolicy

  /** The service and the node list of one reconciliation. */
  datatype Job = Job(ports: seq<ServicePort>, nodes: seq<string>, policy: Policy, healthCheckNodePort: Int32,
                     proxyRequested: bool)
  {
    /** `getServiceHealthCheckNodePort`. */
    function HealthCheckPort(): int {
      if policy == LocalPolicy then healthCheckNodePort else 0
    }

    /** The proxy setting the annotations ask for. */
    function Proxy(): string {
      if proxyRequested then PROXY_V1 else PROXY_DISABLED
    }

    /** The policies for which the planner compares the health monitor. */
    predicate ChecksHealth() {
      policy == ClusterPolicy || (policy == LocalPolicy && healthCheckNodePort > 0)
    }

    /** `genLoadBalancerHealthMonitor` and `genLoadBalancerHealthMonitorUpdate`. */
    function Health(nodePort: int): HealthMonitor {
      if HealthCheckPort() > 0 then HealthMonitor(HTTP, HealthCheckPort()) else HealthMonitor(TCP, nodePort)
    }
  }

  /** Identifiers the cloud will hand out: the n-th one for listeners and pools, and the n-th one for members. */
  datatype Ids = Ids(objects: nat -> string, members: nat -> string)

  /** One run: what is asked for, the pools as they were listed, and the identifiers the cloud will use. */
  datatype Run = Run(job: Job, listed: seq<Pool>, ids: Ids)

  // ---------------------------------------------------------------- look-ups

  function PoolIndex(pools: seq<Pool>, id: string): (i: nat)
    ensures i <= |pools|
    ensures i < |pools| ==> pools[i].id == id
    ensures forall j :: 0 <= j < i ==> pools[j].id != id
  {
    if pools == [] || pools[0].id == id then 0 else 1 + PoolIndex(pools[1..], id)
  }

  function NamedIndex(pools: seq<Pool>, name: string): (i: nat)
    ensures i <= |pools|
    ensures i < |pools| ==> pools[i].name == name
    ensures forall j :: 0 <= j < i ==> pools[j].name != name
  {
    if pools == [] || pools[0].name == name then 0 else 1 + NamedIndex(pools[1..], name)
  }

  function ListenerIndex(listeners: seq<Listener>, id: string): (i: nat)
    ensures i <= |listeners|
    ensures i < |listeners| ==> listeners[i].id == id
    ensures forall j :: 0 <= j < i ==> listeners[j].id != id
  {
    if listeners == [] || listeners[0].id == id then 0 else 1 + ListenerIndex(listeners[1..], id)
  }

  function MemberIndex(members: seq<Member>, id: string): (i: nat)
    ensures i <= |members|
    ensures i < |members| ==> members[i].id == id
    ensures forall j :: 0 <= j < i ==> members[j].id != id
  {
    if members == [] || members[0].id == id then 0 else 1 + MemberIndex(members[1..], id)
  }

  /** `isServicePortEqualPoolName` and `isServicePortEqualListener`. */
  predicate Matches(sp: ServicePort, port: int, protocol: string) {
    port == sp.port && EqualFold(protocol, sp.protocol)
  }

  /** The first service port with a given external port and protocol. */
  function MatchIndex(ports: seq<ServicePort>, port: int, protocol: string): (i: nat)
    ensures i <= |ports|
    ensures i < |ports| ==> Matches(ports[i], port, protocol)
    ensures forall j :: 0 <= j < i ==> !Matches(ports[j], port, protocol)
  {
    if ports == [] || Matches(ports[0], port, protocol) then 0 else 1 + MatchIndex(ports[1..], port, protocol)
  }

  predicate HasTarget(members: seq<Member>, target: string, port: int) {
    exists i :: 0 <= i < |members| && members[i].target == target && members[i].port == port
  }

  predicate PortTaken(listeners: seq<Listener>, port: int) {
    exists i :: 0 <= i < |listeners| && listeners[i].port == port
  }

  predicate InUse(listeners: seq<Listener>, poolId: string) {
    exists i :: 0 <= i < |listeners| && listeners[i].poolId == poolId
  }

  /** The fields of a pool name, for a name that parses. */
  function Fields(name: string): NameFields {
    match ParsePoolName(name)
    case Some(f) => f
    case None => NameFields(TCP, -1, -1)
  }

  // ---------------------------------------------------------------- well-formed states

  ghost predicate GoodIds(ids: Ids) {
    && (forall m: nat, n: nat :: m < n ==> ids.objects(m) != ids.objects(n))
    && (forall m: nat, n: nat :: m < n ==> ids.members(m) != ids.members(n))
    && (forall n: nat :: Token(ids.objects(n)))
    && (forall n: nat :: Token(ids.members(n)))
  }

  predicate DistinctMembers(ms: seq<Member>) {
    && (forall i, j :: 0 <= i < j < |ms| ==> ms[i].id != ms[j].id)
    && (forall i, j :: 0 <= i < j < |ms| ==> ms[i].target != ms[j].target || ms[i].port != ms[j].port)
  }

  predicate MemberOk(m: Member) { Token(m.id) && Token(m.target) }

  predicate PoolOk(p: Pool) {
    && Token(p.id) && Parses(p.name)
    && (forall i :: 0 <= i < |p.members| ==> MemberOk(p.members[i]))
    && DistinctMembers(p.members)
  }

  /** No identifier still to be handed out is in use in this pool. */
  ghost predicate FreshPool(p: Pool, ids: Ids, nextObject: nat, nextMember: nat) {
    && (forall n: nat :: nextObject <= n ==> ids.objects(n) != p.id)
    && (forall n: nat, i :: nextMember <= n && 0 <= i < |p.members| ==> ids.members(n) != p.members[i].id)
  }

  /** The external port and protocol a pool name stands for. */
  predicate SameKey(a: string, b: string) {
    Fields(a).protocol == Fields(b).protocol && Fields(a).port == Fields(b).port
  }

  predicate DistinctPools(pools: seq<Pool>) {
    forall i, j :: 0 <= i < j < |pools| ==> pools[i].id != pools[j].id && !SameKey(pools[i].name, pools[j].name)
  }

  predicate DistinctListeners(ls: seq<Listener>) {
    forall i, j :: 0 <= i < j < |ls| ==> ls[i].id != ls[j].id && ls[i].port != ls[j].port
  }

  predicate IsTcp(protocol: string) { EqualFold(protocol, "TCP") }

  /** A TCP listener's default pool exists and is the TCP pool for the listener's port. */
  predicate Refers(l: Listener, pools: seq<Pool>) {
    IsTcp(l.protocol) ==>
      exists j :: 0 <= j < |pools| && pools[j].id == l.poolId && Fields(pools[j].name).protocol == TCP
                  && Fields(pools[j].name).port == l.port
  }

  ghost predicate PoolsOk(pools: seq<Pool>, ids: Ids, nextObject: nat, nextMember: nat) {
    && (forall i :: 0 <= i < |pools| ==> PoolOk(pools[i]))
    && (forall i :: 0 <= i < |pools| ==> FreshPool(pools[i], ids, nextObject, nextMember))
    && DistinctPools(pools)
  }

  ghost predicate ListenersOk(ls: seq<Listener>, ids: Ids, nextObject: nat) {
    && (forall i :: 0 <= i < |ls| ==> Token(ls[i].id))
    && (forall i, n: nat :: 0 <= i < |ls| && nextObject <= n ==> ids.objects(n) != ls[i].id)
    && DistinctListeners(ls)
  }

  predicate RefsOk(ls: seq<Listener>, pools: seq<Pool>) {
    forall i :: 0 <= i < |ls| ==> Refers(ls[i], pools)
  }

  ghost predicate WellFormed(s: State, ids: Ids) {
    && GoodIds(ids)
    && PoolsOk(s.pools, ids, s.nextObject, s.nextMember)
    && ListenersOk(s.listeners, ids, s.nextObject)
    && RefsOk(s.listeners, s.pools)
  }

  predicate PortOk(sp: ServicePort) { sp.protocol == "TCP" && 0 <= sp.port && 0 <= sp.nodePort }

  /** What Kubernetes and `validateService` guarantee of the service, and the node list of the node addresses. */
  predicate JobOk(job: Job) {
    && (forall i :: 0 <= i < |job.ports| ==> PortOk(job.ports[i]))
    && (forall i, j :: 0 <= i < j < |job.ports| ==> job.ports[i].port != job.ports[j].port)
    && (forall i :: 0 <= i < |job.nodes| ==> Token(job.nodes[i]))
    && NoRepeats(job.nodes)
  }

  // ---------------------------------------------------------------- first facts

  lemma TcpFacts()
    ensures ToLower("TCP") == TCP && IsTcp(TCP) && !IsTcp(UDP)
  {
    assert ToLower("TCP") == TCP;
    assert ToLower(TCP) == TCP && ToLower(UDP)[0] == 'u';
  }

  /** The name of a service port carries the service port. */
  lemma GenPoolNameFields(sp: ServicePort)
    requires PortOk(sp)
    ensures Fields(GenPoolName(sp)) == NameFields(TCP, sp.port, sp.nodePort)
    ensures ParsePoolName(GenPoolName(sp)).Some? && Parses(GenPoolName(sp)) && Token(GenPoolName(sp))
    ensures Canonical(GenPoolName(sp))
  {
    TcpFacts();
    ParseOfPoolNameText(NameFields(TCP, sp.port, sp.nodePort));
  }

  /** Canonical names are determined by their fields. */
  lemma CanonicalNamesAgree(a: string, b: string)
    requires Canonical(a) && Canonical(b) && Fields(a) == Fields(b)
    ensures a == b
  {
  }

  lemma ParsedFields(name: string)
    requires Parses(name)
    ensures ParsePoolName(name).Some? && Fields(name).protocol in {TCP, UDP}
    ensures Carried(Fields(name)) && Token(name)
  {
    ParsedPortsAreNatural(name);
    ParsedNamesAreTokens(name);
  }

  /** For TCP service ports, matching is equality of the external port on TCP. */
  lemma MatchesTcp(sp: ServicePort, port: int, protocol: string)
    requires PortOk(sp)
    ensures Matches(sp, port, protocol) <==> port == sp.port && IsTcp(protocol)
    ensures protocol in {TCP, UDP} ==> (IsTcp(protocol) <==> protocol == TCP)
  {
    TcpFacts();
  }
}
