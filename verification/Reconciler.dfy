/** `UpdateLoadBalancer` as the program runs it: plan as text, coalesce, then carry out line after line against a load
    balancer that must be ready before each of them. */
module Reconciler {
  import opened Text
  import opened PoolNames
  import opened LoadBalancers
  import opened Actions
  import opened Cloud
  import opened Plans
  import opened Planner
  import opened Coalescing
  import opened WholeRun
  import opened CreateRun
  import opened Convergence
  import opened Creation
  import opened Clashing
  import opened Reconciliation
  import opened PlanShape
  import opened VpcSdk
  import Subnets

  /** A service: what `UpdateLoadBalancer` reads of its spec and annotations. */
  datatype Service = Service(ports: seq<ServicePort>, policy: Policy, healthCheckNodePort: Int32, proxyRequested: bool,
                             isPublic: bool, subnets: string)

  /** A node that has passed the label filters. The address is empty if neither label nor status has one. */
  datatype Node = Node(internalIp: string)

  const MIN_SLEEP := 8
  const MAX_WAIT := 120

  // ---------------------------------------------------------------- inputs

  function NodeIds(nodes: seq<Node>): seq<string> {
    if nodes == [] then []
    else (if nodes[0].internalIp == "" then [] else [nodes[0].internalIp]) + NodeIds(nodes[1..])
  }

  function JobFor(service: Service, nodes: seq<Node>): Job {
    Job(service.ports, NodeIds(nodes), service.policy, service.healthCheckNodePort, service.proxyRequested)
  }

  /** What Kubernetes guarantees: port numbers are not negative and do not repeat within a protocol, and node
      addresses are single words that do not repeat. The protocols are still to be checked. */
  predicate InputsOk(service: Service, nodes: seq<Node>) {
    && (forall i :: 0 <= i < |service.ports| ==> 0 <= service.ports[i].port && 0 <= service.ports[i].nodePort)
    && (forall i, j :: 0 <= i < j < |service.ports| ==>
          service.ports[i].port != service.ports[j].port || service.ports[i].protocol != service.ports[j].protocol)
    && (forall i :: 0 <= i < |nodes| ==> nodes[i].internalIp == "" || Token(nodes[i].internalIp))
    && AddressesDistinct(nodes)
  }

  /** `validateService` accepts the service. */
  predicate AllTcp(service: Service) {
    forall i :: 0 <= i < |service.ports| ==> service.ports[i].protocol == "TCP"
  }

  predicate HasAddress(nodes: seq<Node>, ip: string) {
    exists j :: 0 <= j < |nodes| && nodes[j].internalIp == ip
  }

  lemma HasAddressStep(nodes: seq<Node>, ip: string)
    requires nodes != []
    ensures HasAddress(nodes, ip) <==> nodes[0].internalIp == ip || HasAddress(nodes[1..], ip)
  {
  }

  /** The node list holds exactly the addresses there are. */
  lemma {:induction false} NodeIdsMeans(nodes: seq<Node>)
    ensures forall ip :: ip in NodeIds(nodes) <==> ip != "" && HasAddress(nodes, ip)
  {
    hide HasAddress;
    if nodes == [] {
      assert forall ip :: !HasAddress([], ip) by { NoAddress(); }
    } else {
      NodeIdsMeans(nodes[1..]);
      forall ip ensures ip in NodeIds(nodes) <==> ip != "" && HasAddress(nodes, ip) {
        HasAddressStep(nodes, ip);
      }
    }
  }

  lemma NoAddress()
    ensures forall ip :: !HasAddress([], ip)
  {
  }

  predicate AddressesDistinct(nodes: seq<Node>) {
    forall i, j :: 0 <= i < j < |nodes| ==> nodes[i].internalIp == "" || nodes[i].internalIp != nodes[j].internalIp
  }

  lemma {:induction false} NodeIdsDistinct(nodes: seq<Node>)
    requires AddressesDistinct(nodes)
    ensures NoRepeats(NodeIds(nodes))
  {
    if nodes == [] {
    } else {
      NodeIdsDistinct(nodes[1..]);
      NodeIdsMeans(nodes[1..]);
      var tail := NodeIds(nodes[1..]);
      if nodes[0].internalIp != "" {
        forall i | 0 <= i < |tail| ensures tail[i] != nodes[0].internalIp {
          assert tail[i] in tail;
          var j :| 0 <= j < |nodes[1..]| && nodes[1..][j].internalIp == tail[i];
          assert nodes[j + 1].internalIp == tail[i];
        }
      }
    }
  }

  lemma JobForOk(service: Service, nodes: seq<Node>)
    requires InputsOk(service, nodes) && AllTcp(service)
    ensures JobOk(JobFor(service, nodes))
  {
    hide Token;
    NodeIdsMeans(nodes);
    NodeIdsDistinct(nodes);
    var ids := NodeIds(nodes);
    forall i | 0 <= i < |ids| ensures Token(ids[i]) {
      assert ids[i] in ids;
    }
  }

  method GetNodeIds(nodes: seq<Node>) returns (ids: seq<string>)
    ensures ids == NodeIds(nodes)
  {
    ids := [];
    for i := 0 to |nodes|
      invariant ids + NodeIds(nodes[i..]) == NodeIds(nodes)
    {
      assert nodes[i..][1..] == nodes[i + 1..];
      if nodes[i].internalIp != "" {
        ids := ids + [nodes[i].internalIp];
      }
    }
  }

  method ValidateService(service: Service) returns (e: Option<Error>)
    ensures e == if AllTcp(service) then None else Some(NotTcp)
  {
    for i := 0 to |service.ports|
      invariant forall j :: 0 <= j < i ==> service.ports[j].protocol == "TCP"
    {
      if service.ports[i].protocol != "TCP" {
        return Some(NotTcp);
      }
    }
    return None;
  }

  /** Why an update is turned down before anything is planned, in the order of the checks. */
  function Rejection(lb: LoadBalancer, service: Service, nodes: seq<Node>,
                     vpcSubnets: seq<Subnets.Subnet>): Option<Error> {
    if !lb.IsReady() then Some(NotReady)
    else if !AllTcp(service) then Some(NotTcp)
    else if service.isPublic != lb.isPublic then Some(TypeUpdated)
    else
      match Subnets.SubnetsVerdict(service.subnets, lb.subnets, vpcSubnets)
      case Some(e) => Some(e)
      case None => if nodes == [] then Some(NoNodes) else None
  }

  /** The subnets annotation stands for another set than the subnets of the load balancer, or for none at all. */
  predicate SubnetsDiffer(annotation: string, lbSubnets: seq<string>, vpcSubnets: seq<Subnets.Subnet>) {
    var entries := Without(annotation, ' ');
    entries != "" && Subnets.ResolveAll(Split(entries, ','), Subnets.VpcOf(lbSubnets, vpcSubnets), vpcSubnets)
                  != Ok(Subnets.Elements(lbSubnets))
  }

  /** There is something an update cannot be done for. */
  predicate Unacceptable(lb: LoadBalancer, service: Service, nodes: seq<Node>, vpcSubnets: seq<Subnets.Subnet>) {
    || lb.operatingStatus != "online" || lb.provisioningStatus != "active"
    || (exists i :: 0 <= i < |service.ports| && service.ports[i].protocol != "TCP")
    || service.isPublic != lb.isPublic
    || SubnetsDiffer(service.subnets, lb.subnets, vpcSubnets)
    || nodes == []
  }

  /** Whatever the state of the load balancer, the service cannot have it. */
  predicate Unservable(service: Service, nodes: seq<Node>, present: bool, isPublic: bool, lbSubnets: seq<string>,
                     vpcSubnets: seq<Subnets.Subnet>) {
    || (exists i :: 0 <= i < |service.ports| && service.ports[i].protocol != "TCP")
    || nodes == []
    || (present && (service.isPublic != isPublic || SubnetsDiffer(service.subnets, lbSubnets, vpcSubnets)))
  }

  /** An update is turned down exactly for these reasons. */
  lemma RejectionIff(lb: LoadBalancer, service: Service, nodes: seq<Node>, vpcSubnets: seq<Subnets.Subnet>)
    ensures Rejection(lb, service, nodes, vpcSubnets).Some? <==> Unacceptable(lb, service, nodes, vpcSubnets)
  {
    hide Split, Subnets.ResolveAll, Subnets.VpcOf, Subnets.Elements, Without;
  }

  // ---------------------------------------------------------------- the listing during a run

  /** The caller's pools still have the identifiers and proxy settings they were listed with; step 2 has overwritten
      names only. */
  predicate StillListed(pools: seq<Pool>, listed: seq<Pool>) {
    |pools| == |listed| && forall i :: 0 <= i < |pools| ==>
      pools[i].id == listed[i].id && pools[i].proxy == listed[i].proxy
  }

  lemma ListedIndex(pools: seq<Pool>, listed: seq<Pool>, id: string)
    requires StillListed(pools, listed)
    ensures PoolIndex(pools, id) == PoolIndex(listed, id)
  {
  }

  lemma RefsIndex(pools: seq<Pool>, name: string, i: nat)
    requires i <= |pools| && forall j :: 0 <= j < i ==> pools[j].name != name
    ensures i < |pools| && pools[i].name == name ==> NamedIndex(pools, name) == i
    ensures i == |pools| ==> NamedIndex(pools, name) == i
  {
  }

  lemma PoolIdsNotEmpty(s: State, ids: Ids)
    requires WellFormed(s, ids)
    ensures forall i :: 0 <= i < |s.pools| ==> s.pools[i].id != ""
  {
  }

  /** Nothing but status queries was added. */
  ghost predicate OnlyObserves(before: seq<Event>, after: seq<Event>) {
    before <= after && forall i :: |before| <= i < |after| ==> after[i].Observed?
  }

  lemma NothingRequested(trace: seq<Event>)
    ensures Guarded(trace, |trace|)
  {
  }

  lemma GuardedObserved(before: seq<Event>, after: seq<Event>, start: nat)
    requires OnlyObserves(before, after) && Guarded(before, start)
    ensures before <= after && Guarded(after, start)
  {
  }

  /** Pool `i` and listener `j` are what the service asks for at one of its ports, spelled out. */
  predicate ServesPort(s: State, i: int, j: int, sp: ServicePort, service: Service, nodes: seq<Node>) {
    && 0 <= i < |s.pools| && 0 <= j < |s.listeners|
    && s.listeners[j].port == sp.port && ToLower(s.listeners[j].protocol) == "tcp"
    && s.listeners[j].poolId == s.pools[i].id
    && s.pools[i].name == "tcp-" + IntText(sp.port) + "-" + IntText(sp.nodePort)
    && (forall k :: 0 <= k < |nodes| && nodes[k].internalIp != "" ==>
          HasTarget(s.pools[i].members, nodes[k].internalIp, sp.nodePort))
    && (forall m :: 0 <= m < |s.pools[i].members| ==>
          && s.pools[i].members[m].port == sp.nodePort && s.pools[i].members[m].target != ""
          && HasAddress(nodes, s.pools[i].members[m].target))
    && (service.policy == ClusterPolicy ==> s.pools[i].health == HealthMonitor("tcp", sp.nodePort))
    && (service.policy == LocalPolicy && service.healthCheckNodePort > 0 ==>
          s.pools[i].health == HealthMonitor("http", service.healthCheckNodePort))
  }

  lemma ServesSpelledOut(s: State, i: int, j: int, sp: ServicePort, service: Service, nodes: seq<Node>)
    requires PortOk(sp) && Serves(s, i, j, sp, JobFor(service, nodes))
    ensures ServesPort(s, i, j, sp, service, nodes)
  {
    NameSpelledOut(sp);
    TcpFacts();
    NodeIdsMeans(nodes);
    hide GenPoolName, IntText, ToLower, HasTarget, NodeIds, HasAddress;
    var ms, ids := s.pools[i].members, NodeIds(nodes);
    forall k | 0 <= k < |nodes| && nodes[k].internalIp != "" ensures HasTarget(ms, nodes[k].internalIp, sp.nodePort) {
      AddressOf(nodes, k);
      var n :| 0 <= n < |ids| && ids[n] == nodes[k].internalIp;
    }
  }

  lemma AddressOf(nodes: seq<Node>, k: nat)
    requires k < |nodes|
    ensures HasAddress(nodes, nodes[k].internalIp)
  {
  }

  ghost predicate PortServed(s: State, sp: ServicePort, service: Service, nodes: seq<Node>) {
    exists i, j :: ServesPort(s, i, j, sp, service, nodes)
  }

  predicate HasPort(service: Service, port: int) {
    exists n :: 0 <= n < |service.ports| && service.ports[n].port == port
  }

  predicate HasPoolName(service: Service, name: string) {
    exists n :: 0 <= n < |service.ports|
                && name == "tcp-" + IntText(service.ports[n].port) + "-" + IntText(service.ports[n].nodePort)
  }

  /** A desired state in terms of the service and its nodes: a pool and a listener for each port, with the addresses of
      the nodes as members, and nothing else. */
  lemma DesiredForService(s: State, service: Service, nodes: seq<Node>)
    requires InputsOk(service, nodes) && AllTcp(service) && Desired(s, JobFor(service, nodes))
    ensures forall n :: 0 <= n < |service.ports| ==> PortServed(s, service.ports[n], service, nodes)
    ensures forall m :: 0 <= m < |s.listeners| ==> HasPort(service, s.listeners[m].port)
    ensures forall m :: 0 <= m < |s.pools| ==> HasPoolName(service, s.pools[m].name)
    ensures ProxyDone(s.pools, JobFor(service, nodes)) ==>
      forall m :: 0 <= m < |s.pools| ==> s.pools[m].proxy == if service.proxyRequested then "v1" else "disabled"
  {
    JobForOk(service, nodes);
    hide InputsOk, AllTcp, GenPoolName, IntText, HasAddress, Serves, JobOk, PortOk, ServesPort, EqualFold;
    var job := JobFor(service, nodes);
    forall n | 0 <= n < |service.ports| ensures PortServed(s, service.ports[n], service, nodes) {
      assert ServedOnce(s, job.ports[n], job);
      var i, j :| Serves(s, i, j, job.ports[n], job);
      PortOkAt(job, n);
      ServesSpelledOut(s, i, j, job.ports[n], service, nodes);
    }
    forall m | 0 <= m < |s.listeners| ensures HasPort(service, s.listeners[m].port) {
      assert KeepsListener(s.listeners[m], job.ports);
    }
    forall m | 0 <= m < |s.pools| ensures HasPoolName(service, s.pools[m].name) {
      assert IsCurrentName(s.pools[m].name, job.ports);
      var n :| 0 <= n < |job.ports| && s.pools[m].name == GenPoolName(job.ports[n]);
      PortOkAt(job, n);
      NameSpelledOut(job.ports[n]);
    }
  }

  /** The pools that were there before and stay have the requested proxy setting, and the others the cloud's default. */
  predicate ProxyKept(before: State, after: State, job: Job) {
    var n := |KeptPools(before.pools, job.ports)|;
    && n <= |after.pools| && ProxyDone(after.pools[..n], job)
    && forall i :: n <= i < |after.pools| ==> after.pools[i].proxy == PROXY_DISABLED
  }

  /** The seconds of so many pauses. */
  function TimesSlept(times: nat, seconds: nat): nat {
    if times == 0 then 0 else TimesSlept(times - 1, seconds) + seconds
  }

  lemma {:induction false} TimesSleptIs(times: nat, seconds: nat)
    ensures TimesSlept(times, seconds) == times * seconds
  {
    if times > 0 {
      TimesSleptIs(times - 1, seconds);
    }
  }

  lemma SleptAtMost(minSleep: nat, maxWait: nat)
    requires minSleep > 0
    ensures TimesSlept(maxWait / minSleep, minSleep) <= maxWait
  {
    TimesSleptIs(maxWait / minSleep, minSleep);
  }

  lemma SleptTwoMinutes()
    ensures MAX_WAIT / MIN_SLEEP == 15 && TimesSlept(MAX_WAIT / MIN_SLEEP, MIN_SLEEP) == 120
  {
    TimesSleptIs(15, 8);
  }

  class CloudVpc {
    const sdk: CloudSdk

    constructor (sdk: CloudSdk)
      ensures this.sdk == sdk
    {
      this.sdk := sdk;
    }

    // -------------------------------------------------------------- the executors

    method DoCreateListener(lb: LoadBalancer, poolName: string, ghost r: Run) returns (e: Option<Error>)
      requires sdk.IsCurrent(lb) && WellFormed(sdk.state, sdk.ids) && r.ids == sdk.ids
      modifies sdk`state, sdk`trace, sdk`failures
      ensures Did(old(sdk.state), old(sdk.trace), sdk.state, sdk.trace, CreateListener(poolName), r, e)
      ensures Counted(old(sdk.failures), sdk.failures, e)
    {
      hide WellFormed, ParsePoolName;
      PoolIdsNotEmpty(sdk.state, sdk.ids);
      var poolId := "";
      for i := 0 to |lb.pools|
        invariant poolId == "" && forall j :: 0 <= j < i ==> sdk.state.pools[j].name != poolName
      {
        if poolName == lb.pools[i].name {
          poolId := lb.pools[i].id;
          RefsIndex(sdk.state.pools, poolName, i);
          break;
        }
      }
      if poolId == "" {
        RefsIndex(sdk.state.pools, poolName, |lb.pools|);
        return Some(PoolNotFound);
      }
      e := sdk.CreateLoadBalancerListener(poolName, poolId, r);
    }

    method DoCreatePoolMember(args: string, ghost r: Run) returns (e: Option<Error>)
      requires r.ids == sdk.ids
      modifies sdk`state, sdk`trace, sdk`failures
      ensures var w := Words(args);
        if |w| == 3 then Did(old(sdk.state), old(sdk.trace), sdk.state, sdk.trace, CreateMember(w[0], w[1], w[2]), r, e)
        else e == Some(MissingArgument) && sdk.state == old(sdk.state) && sdk.trace == old(sdk.trace)
      ensures Counted(old(sdk.failures), sdk.failures, e)
    {
      hide Words;
      var words := Words(args);
      if |words| != 3 {
        return Some(MissingArgument);
      }
      e := sdk.CreateLoadBalancerPoolMember(words[0], words[1], words[2], r);
    }

    method DoDeleteListener(args: string, ghost r: Run) returns (e: Option<Error>)
      modifies sdk`state, sdk`trace, sdk`failures
      ensures var w := Words(args);
        if |w| == 2 then Did(old(sdk.state), old(sdk.trace), sdk.state, sdk.trace, DeleteListener(w[0], w[1]), r, e)
        else e == Some(MissingArgument) && sdk.state == old(sdk.state) && sdk.trace == old(sdk.trace)
      ensures Counted(old(sdk.failures), sdk.failures, e)
    {
      hide Words;
      var words := Words(args);
      if |words| != 2 {
        return Some(MissingArgument);
      }
      e := sdk.DeleteLoadBalancerListener(words[1], words[0], r);
    }

    method DoDeletePool(args: string, ghost r: Run) returns (e: Option<Error>)
      modifies sdk`state, sdk`trace, sdk`failures
      ensures var w := Words(args);
        if |w| == 2 then Did(old(sdk.state), old(sdk.trace), sdk.state, sdk.trace, DeletePool(w[0], w[1]), r, e)
        else e == Some(MissingArgument) && sdk.state == old(sdk.state) && sdk.trace == old(sdk.trace)
      ensures Counted(old(sdk.failures), sdk.failures, e)
    {
      hide Words;
      var words := Words(args);
      if |words| != 2 {
        return Some(MissingArgument);
      }
      e := sdk.DeleteLoadBalancerPool(words[1], words[0], r);
    }

    method DoDeletePoolMember(args: string, ghost r: Run) returns (e: Option<Error>)
      modifies sdk`state, sdk`trace, sdk`failures
      ensures var w := Words(args);
        if |w| == 4 then Did(old(sdk.state), old(sdk.trace), sdk.state, sdk.trace,
          DeleteMember(w[0], w[1], w[2], w[3]), r, e)
        else e == Some(MissingArgument) && sdk.state == old(sdk.state) && sdk.trace == old(sdk.trace)
      ensures Counted(old(sdk.failures), sdk.failures, e)
    {
      hide Words;
      var words := Words(args);
      if |words| != 4 {
        return Some(MissingArgument);
      }
      e := sdk.DeleteLoadBalancerPoolMember(words[1], words[2], words[0], words[3], r);
    }

    method DoReplacePoolMembers(args: string, job: Job, ghost r: Run) returns (e: Option<Error>)
      requires r.ids == sdk.ids && r.job == job
      modifies sdk`state, sdk`trace, sdk`failures
      ensures var w := Words(args);
        if |w| == 2 then Did(old(sdk.state), old(sdk.trace), sdk.state, sdk.trace, ReplaceMembers(w[0], w[1]), r, e)
        else e == Some(MissingArgument) && sdk.state == old(sdk.state) && sdk.trace == old(sdk.trace)
      ensures Counted(old(sdk.failures), sdk.failures, e)
    {
      hide Words;
      var words := Words(args);
      if |words| != 2 {
        return Some(MissingArgument);
      }
      e := sdk.ReplaceLoadBalancerPoolMembers(words[0], words[1], job, r);
    }

    method DoUpdatePool(args: string, pools: array<Pool>, job: Job, ghost r: Run) returns (e: Option<Error>)
      requires r.ids == sdk.ids && r.job == job && StillListed(pools[..], r.listed)
      modifies sdk`state, sdk`trace, sdk`failures
      ensures var w := Words(args);
        if |w| == 2 then Did(old(sdk.state), old(sdk.trace), sdk.state, sdk.trace, UpdatePool(w[0], w[1]), r, e)
        else e == Some(MissingArgument) && sdk.state == old(sdk.state) && sdk.trace == old(sdk.trace)
      ensures Counted(old(sdk.failures), sdk.failures, e)
    {
      hide Words, ParsePoolName;
      var words := Words(args);
      if |words| != 2 {
        return Some(MissingArgument);
      }
      var existing: Option<Pool> := None;
      ListedIndex(pools[..], r.listed, words[1]);
      for i := 0 to pools.Length
        invariant existing.None? && forall j :: 0 <= j < i ==> pools[j].id != words[1]
      {
        if pools[i].id == words[1] {
          existing := Some(pools[i]);
          assert PoolIndex(pools[..], words[1]) == i by { assert pools[..][i].id == words[1]; }
          break;
        }
      }
      if existing.None? {
        assert PoolIndex(pools[..], words[1]) == |pools[..]|;
        return Some(ExistingPoolNotFound);
      }
      e := sdk.UpdateLoadBalancerPool(words[0], existing.value, job, r);
    }

    /** The switch over the command word. It does what reading the line as an action says. */
    method ProcessUpdate(lb: LoadBalancer, update: string, pools: array<Pool>, job: Job, ghost r: Run)
      returns (e: Option<Error>)
      requires Words(update) != []
      requires sdk.IsCurrent(lb) && WellFormed(sdk.state, sdk.ids)
      requires r.ids == sdk.ids && r.job == job && StillListed(pools[..], r.listed)
      modifies sdk`state, sdk`trace, sdk`failures
      ensures match Decode(update)
              case Ok(a) => Did(old(sdk.state), old(sdk.trace), sdk.state, sdk.trace, a, r, e)
              case Err(x) => e == Some(x) && sdk.state == old(sdk.state) && sdk.trace == old(sdk.trace)
      ensures Counted(old(sdk.failures), sdk.failures, e)
    {
      hide Words, TrimSpace, TrimPrefix, Did, WellFormed, StillListed;
      var action := Words(update)[0];
      var args := TrimSpace(TrimPrefix(update, action));
      if action == "CREATE-LISTENER" {
        e := DoCreateListener(lb, args, r);
      } else if action == "CREATE-POOL" {
        e := sdk.CreateLoadBalancerPool(args, job, r);
      } else if action == "CREATE-POOL-MEMBER" {
        e := DoCreatePoolMember(args, r);
      } else if action == "DELETE-LISTENER" {
        e := DoDeleteListener(args, r);
      } else if action == "DELETE-POOL" {
        e := DoDeletePool(args, r);
      } else if action == "DELETE-POOL-MEMBER" {
        e := DoDeletePoolMember(args, r);
      } else if action == "UPDATE-POOL" {
        e := DoUpdatePool(args, pools, job, r);
      } else if action == "REPLACE-POOL-MEMBERS" {
        e := DoReplacePoolMembers(args, job, r);
      } else {
        e := Some(UnsupportedOperation);
      }
    }

    // -------------------------------------------------------------- waiting

    /** Polls until the load balancer is ready, at most `maxWait / minSleep` times, and does not give up before it has
        slept that often. The last answer is not looked at, so an error does not mean that the load balancer was not
        ready; no error does mean that it is. */
    method WaitLoadBalancerReady(lb0: LoadBalancer, minSleep: nat, maxWait: nat) returns (r: Result<LoadBalancer>)
      requires minSleep > 0 && sdk.IsCurrent(lb0)
      modifies sdk`trace, sdk`failures, sdk`now
      ensures r.Ok? ==> r.value.operatingStatus == "online" && r.value.provisioningStatus == "active"
      ensures r.Ok? ==> sdk.IsCurrent(r.value)
      ensures r.Err? ==> r.error == NotReady || r.error == CloudFailure
      ensures old(sdk.trace) <= sdk.trace && |sdk.trace| <= |old(sdk.trace)| + maxWait / minSleep
      ensures forall i :: |old(sdk.trace)| <= i < |sdk.trace| ==> sdk.trace[i].Observed?
      ensures forall i :: |old(sdk.trace)| - 1 <= i < |sdk.trace| - 1 ==> sdk.trace[i] != Observed("online", "active")
      ensures r.Err? && minSleep <= maxWait ==> lb0.operatingStatus != "online" || lb0.provisioningStatus != "active"
      ensures r == Err(NotReady) ==> sdk.now >= old(sdk.now) + TimesSlept(maxWait / minSleep, minSleep)
      ensures sdk.now >= old(sdk.now)
      ensures Counted(old(sdk.failures), sdk.failures, ErrorOf(r))
    {
      var lb := lb0;
      var startTime := sdk.now;
      for i := 0 to maxWait / minSleep
        invariant sdk.IsCurrent(lb)
        invariant old(sdk.trace) <= sdk.trace && |sdk.trace| == |old(sdk.trace)| + i
        invariant forall j :: |old(sdk.trace)| <= j < |sdk.trace| ==> sdk.trace[j].Observed?
        invariant forall j :: |old(sdk.trace)| - 1 <= j < |sdk.trace| - 1 ==>
          sdk.trace[j] != Observed("online", "active")
        invariant if i == 0 then lb == lb0 else !lb0.IsReady()
        invariant sdk.now >= startTime + TimesSlept(i, minSleep)
        invariant sdk.failures == old(sdk.failures)
      {
        if lb.IsReady() {
          return Ok(lb);
        }
        if sdk.now - startTime > maxWait {
          SleptAtMost(minSleep, maxWait);
          break;
        }
        sdk.Sleep(minSleep);
        var again := sdk.GetLoadBalancer();
        if again.Err? {
          return Err(again.error);
        }
        lb := again.value;
      }
      r := Err(NotReady);
    }

    // -------------------------------------------------------------- the run

    /** What comes before update number `i`: nothing for the first one, a query and perhaps a wait for the others. */
    method ReadyForUpdate(i: nat, lb0: LoadBalancer) returns (r: Result<LoadBalancer>)
      requires i == 0 ==> sdk.IsCurrent(lb0) && lb0.IsReady()
      modifies sdk`trace, sdk`failures, sdk`now
      ensures r.Ok? ==> r.value.operatingStatus == "online" && r.value.provisioningStatus == "active"
      ensures r.Ok? ==> sdk.IsCurrent(r.value)
      ensures r.Err? ==> r.error == NotReady || r.error == CloudFailure
      ensures OnlyObserves(old(sdk.trace), sdk.trace)
      ensures i == 0 ==> r == Ok(lb0) && sdk.trace == old(sdk.trace)
      ensures i > 0 ==> |sdk.trace| <= |old(sdk.trace)| + 16
      ensures i > 0 && r.Ok? ==> |sdk.trace| > |old(sdk.trace)|
      ensures r == Err(NotReady) ==> SeenBusy(sdk.trace, |old(sdk.trace)|) && sdk.now >= old(sdk.now) + 120
      ensures sdk.now >= old(sdk.now)
      ensures Counted(old(sdk.failures), sdk.failures, ErrorOf(r))
    {
      var lb := lb0;
      if i > 0 {
        var again := sdk.GetLoadBalancer();
        if again.Err? {
          return Err(again.error);
        }
        lb := again.value;
        if !lb.IsReady() {
          SleptTwoMinutes();
          label Queried:
          r := WaitLoadBalancerReady(lb, MIN_SLEEP, MAX_WAIT);
          assert sdk.trace[|old(sdk.trace)|] == old@Queried(sdk.trace)[|old(sdk.trace)|];
          return;
        }
      }
      r := Ok(lb);
    }

    /** The updates are carried out in order; whatever stops the run, what was done is a prefix of them. `n` says how
        far the cloud lets the run go. */
    method ProcessUpdates(lb0: LoadBalancer, updates: seq<string>, pools: array<Pool>, job: Job,
                          ghost actions: seq<Action>,
                          ghost n: nat, ghost r: Run) returns (result: Result<LoadBalancer>, ghost done: nat)
      requires updates == Lines(actions) && forall i :: 0 <= i < |actions| ==> ReadsBack(actions[i])
      requires sdk.IsCurrent(lb0) && lb0.IsReady() && RunsUpTo(sdk.state, actions, n, r)
      requires r.ids == sdk.ids && r.job == job && StillListed(pools[..], r.listed)
      modifies sdk`state, sdk`trace, sdk`failures, sdk`now
      ensures done <= n && sdk.state == Final(old(sdk.state), actions[..done], r)
      ensures WellFormed(sdk.state, sdk.ids)
      ensures result.Ok? ==> done == |actions|
      ensures result.Err? ==> result.error == NotReady || result.error == CloudFailure || n < |actions|
      ensures result == Err(NotReady) ==> SeenBusy(sdk.trace, |old(sdk.trace)|) && sdk.now >= old(sdk.now) + 120
      ensures sdk.now >= old(sdk.now)
      ensures Counted(old(sdk.failures), sdk.failures, ErrorOf(result))
      ensures old(sdk.trace) <= sdk.trace && Guarded(sdk.trace, |old(sdk.trace)|)
    {
      hide Words, Print, Decode, Accepts, Effect, WellFormed, Safe, Final, StillListed, Did, Guarded, OnlyObserves,
           SeenBusy, Lines, RunsUpTo;
      var lb := lb0;
      done := 0;
      ghost var s0 := sdk.state;
      ghost var start := |sdk.trace|;
      RunLimit(s0, actions, n, r);
      StoppedAnywhere(s0, actions, n, 0, r);
      FinalNothing(s0, actions, r);
      NothingRequested(sdk.trace);
      for i := 0 to |updates|
        invariant done == i <= n && sdk.state == Final(s0, actions[..i], r) && WellFormed(sdk.state, sdk.ids)
        invariant i == 0 ==> sdk.IsCurrent(lb) && lb.IsReady()
        invariant old(sdk.trace) <= sdk.trace && Guarded(sdk.trace, start)
        invariant sdk.failures == old(sdk.failures) && sdk.now >= old(sdk.now)
      {
        label Before:
        var ready := ReadyForUpdate(i, lb);
        GuardedObserved(old@Before(sdk.trace), sdk.trace, start);
        if ready.Err? {
          SeenBusyEarlier(sdk.trace, start, |old@Before(sdk.trace)|);
          return Err(ready.error), done;
        }
        lb := ready.value;
        label Ready:
        LineReadsBack(actions[i]);
        StoppedAnywhere(s0, actions, n, i, r);
        var e := ProcessUpdate(lb, updates[i], pools, job, r);
        StepDone(old@Ready(sdk.state), old@Ready(sdk.trace), sdk.state, sdk.trace, actions[i], r, e, start);
        if i < n {
          OneMore(s0, actions, n, i, r);
          StoppedAnywhere(s0, actions, n, i + 1, r);
        }
        if e.Some? {
          if sdk.state != old@Ready(sdk.state) {
            done := i + 1;
          }
          return Err(e.value), done;
        }
        done := i + 1;
      }
      assert actions[..|actions|] == actions;
      result := Ok(lb);
    }

    /** Steps 1 to 8 for the load balancer as it is listed. */
    method PlanUpdates(pools: array<Pool>, job: Job) returns (r: Result<seq<string>>)
      requires WellFormed(sdk.state, sdk.ids) && JobOk(job) && pools[..] == sdk.state.pools
      modifies pools, sdk`failures
      ensures r.Ok? ==> r.value == Lines(Updates(true, sdk.state, job)) && StillListed(pools[..], sdk.state.pools)
      ensures r.Err? ==> r.error == CloudFailure
      ensures Counted(old(sdk.failures), sdk.failures, ErrorOf(r))
    {
      hide WellFormed, JobOk, Plan, Marked, Coalesce, CoalesceLines, Splittable, Print, SomeNameUnreadable,
           Views, CleanAction;
      ghost var s := sdk.state;
      NamesReadable(s, sdk.ids);
      var listeners := sdk.ListLoadBalancerListeners();
      if listeners.Err? {
        return Err(CloudFailure);
      }
      r := RequiredUpdates(listeners.value, pools, job);
      MarkedStillListed(s.pools, job.ports);
      PlanExecutable(false, s, sdk.ids, job);
      CoalesceLinesOfPlan(PlanFor(s, job));
      var updates := CheckForMultiplePoolMemberUpdates(r.value);
      r := Ok(updates);
    }

    /** `UpdateLoadBalancer`. Turned down, it changes nothing. Otherwise what it has done is a prefix of the planned
        updates, all of them if it succeeds, and then the load balancer is what the service asks for; if no pool
        clashes, only the cloud can stop it; and the load balancer is well-formed whatever happens. */
    method UpdateLoadBalancer(lb: LoadBalancer, service: Service, nodes: seq<Node>)
      returns (result: Result<LoadBalancer>, ghost done: nat)
      requires sdk.IsCurrent(lb) && WellFormed(sdk.state, sdk.ids)
      requires InputsOk(service, nodes) && Subnets.SubnetsOk(lb.subnets, sdk.vpcSubnets)
      modifies sdk`state, sdk`trace, sdk`failures, sdk`now
      ensures WellFormed(sdk.state, sdk.ids)
      ensures Rejection(lb, service, nodes, sdk.vpcSubnets).Some? ==>
        && result.Err? && (result.error == Rejection(lb, service, nodes, sdk.vpcSubnets).value
          || result.error == CloudFailure)
        && sdk.state == old(sdk.state) && sdk.trace == old(sdk.trace)
      ensures Rejection(lb, service, nodes, sdk.vpcSubnets).None? ==>
        var s, job := old(sdk.state), JobFor(service, nodes);
        var updates := Updates(true, s, job);
        && done <= |updates| && sdk.state == Final(s, updates[..done], Run(job, s.pools, sdk.ids))
        && (result.Ok? ==> done == |updates| && Desired(sdk.state, job) && ProxyKept(s, sdk.state, job))
        && (result.Err? ==> result.error == NotReady || result.error == CloudFailure || !NoClash(true, s, job))
      ensures Unacceptable(lb, service, nodes, sdk.vpcSubnets) ==>
        result.Err? && sdk.state == old(sdk.state) && sdk.trace == old(sdk.trace)
      ensures lb.operatingStatus == "online" && lb.provisioningStatus == "active" && result == Err(NotReady) ==>
        SeenBusy(sdk.trace, |old(sdk.trace)|) && sdk.now >= old(sdk.now) + 120
      ensures Counted(old(sdk.failures), sdk.failures, ErrorOf(result))
      ensures old(sdk.trace) <= sdk.trace && Guarded(sdk.trace, |old(sdk.trace)|)
    {
      hide WellFormed, JobOk, Safe, Final, Desired, Updates, StillListed, Subnets.SubnetsOk, Subnets.SubnetsVerdict,
           InputsOk, AllTcp, ProxyKept, ReadsBack, Clean, NoClash, RunsUpTo, SeenBusy, Unacceptable;
      RejectionIff(lb, service, nodes, sdk.vpcSubnets);
      done := 0;
      ghost var s := sdk.state;
      ghost var job0 := JobFor(service, nodes);
      ghost var r := Run(job0, s.pools, sdk.ids);
      FinalNothing(s, Updates(true, s, job0), r);
      if !lb.IsReady() {
        return Err(NotReady), 0;
      }
      var invalid := ValidateService(service);
      if invalid.Some? {
        return Err(invalid.value), 0;
      }
      if service.isPublic != lb.isPublic {
        return Err(TypeUpdated), 0;
      }
      var subnets := sdk.ListSubnets();
      if subnets.Err? {
        return Err(subnets.error), 0;
      }
      var updated := Subnets.ValidateServiceSubnetsNotUpdated(service.subnets, lb.subnets, subnets.value);
      Subnets.VerdictErrors(service.subnets, lb.subnets, subnets.value);
      if updated.Some? {
        return Err(updated.value), 0;
      }
      if |nodes| == 0 {
        return Err(NoNodes), 0;
      }
      JobForOk(service, nodes);
      ghost var n := PlanFacts(s, r);
      var pools := sdk.ListLoadBalancerPools();
      if pools.Err? {
        return Err(pools.error), 0;
      }
      var nodeList := GetNodeIds(nodes);
      var job := Job(service.ports, nodeList, service.policy, service.healthCheckNodePort, service.proxyRequested);
      var updates := PlanUpdates(pools.value, job);
      if updates.Err? {
        return Err(updates.error), 0;
      }
      if |updates.value| == 0 {
        return Ok(lb), 0;
      }
      result, done := ProcessUpdates(lb, updates.value, pools.value, job, Updates(true, s, job), n, r);
    }

    // -------------------------------------------------------------- the entry points

    /** What every entry point keeps: there is no load balancer yet, or there is a well-formed one. */
    ghost predicate Valid()
      reads sdk
    {
      && GoodIds(sdk.ids)
      && (if sdk.present then WellFormed(sdk.state, sdk.ids) else sdk.state == State([], [], 0, 0))
      && Subnets.SubnetsOk(sdk.lbSubnets, sdk.vpcSubnets)
    }

    method GetServicePoolNames(service: Service) returns (names: seq<string>)
      ensures |names| == |service.ports| && forall i :: 0 <= i < |names| ==> names[i] == GenPoolName(service.ports[i])
    {
      names := [];
      for i := 0 to |service.ports|
        invariant |names| == i && forall j :: 0 <= j < i ==> names[j] == GenPoolName(service.ports[j])
      {
        names := names + [GenPoolName(service.ports[i])];
      }
    }

    /** `CreateLoadBalancer`, once the subnets are chosen. */
    method CreateLoadBalancer(service: Service, nodes: seq<Node>, subnets: seq<string>)
      returns (r: Result<LoadBalancer>)
      requires Valid() && !sdk.present && InputsOk(service, nodes) && Subnets.SubnetsOk(subnets, sdk.vpcSubnets)
      modifies sdk
      ensures Valid()
      ensures r.Err? ==> r.error in {NotTcp, NoNodes, CloudFailure} && sdk.trace == old(sdk.trace)
      ensures r.Ok? ==> sdk.present
      ensures sdk.present ==>
        && sdk.state == CreatedState(JobFor(service, nodes), sdk.ids)
        && Desired(sdk.state, JobFor(service, nodes)) && ProxyDone(sdk.state.pools, JobFor(service, nodes))
      ensures r.Ok? ==>
        && sdk.IsCurrent(r.value)
        && sdk.trace == old(sdk.trace) + [Observed(r.value.operatingStatus, r.value.provisioningStatus)]
      ensures sdk.present ==> sdk.isPublic == service.isPublic && sdk.lbSubnets == subnets
      ensures !AllTcp(service) ==> r == Err(NotTcp)
      ensures nodes == [] || !AllTcp(service) ==> r.Err? && !sdk.present
      ensures r.Err? && sdk.present ==> r.error == CloudFailure
      ensures r == Err(NoNodes) ==> nodes == []
      ensures Counted(old(sdk.failures), sdk.failures, ErrorOf(r))
    {
      hide WellFormed, JobOk, Desired, GenPoolName, ParsePoolName, CreatedState, Subnets.SubnetsOk, GoodIds, InputsOk,
           AllTcp, PortOk, ProxyDone;
      var invalid := ValidateService(service);
      if invalid.Some? {
        return Err(invalid.value);
      }
      var listed := sdk.ListSubnets();
      if listed.Err? {
        return Err(listed.error);
      }
      if |nodes| == 0 {
        return Err(NoNodes);
      }
      JobForOk(service, nodes);
      var nodeList := GetNodeIds(nodes);
      var names := GetServicePoolNames(service);
      var job := Job(service.ports, nodeList, service.policy, service.healthCheckNodePort, service.proxyRequested);
      PortsOk(job);
      forall i | 0 <= i < |names| ensures ParsePoolName(names[i]).Some? {
        GenPoolNameFields(service.ports[i]);
      }
      r := sdk.CreateLoadBalancer(names, job, service.isPublic, subnets);
      CreatedIsWellFormed(job, sdk.ids);
      CreatedIsDesired(job, sdk.ids);
    }

    /** `EnsureLoadBalancer`. A success leaves the load balancer the service asks for, created or updated. */
    method EnsureLoadBalancer(service: Service, nodes: seq<Node>, subnets: seq<string>) returns (e: Option<Error>)
      requires Valid() && InputsOk(service, nodes) && Subnets.SubnetsOk(subnets, sdk.vpcSubnets)
      modifies sdk
      ensures Valid()
      ensures e.None? ==> sdk.present && Desired(sdk.state, JobFor(service, nodes))
      ensures e.None? && old(sdk.present) ==> ProxyKept(old(sdk.state), sdk.state, JobFor(service, nodes))
      ensures e.None? && !old(sdk.present) ==> ProxyDone(sdk.state.pools, JobFor(service, nodes))
      ensures old(sdk.trace) <= sdk.trace && Guarded(sdk.trace, |old(sdk.trace)|)
      ensures old(sdk.present) ==> sdk.present
      ensures Unservable(service, nodes, old(sdk.present), old(sdk.isPublic), old(sdk.lbSubnets), sdk.vpcSubnets) ==>
        && e.Some? && sdk.present == old(sdk.present) && sdk.state == old(sdk.state)
        && OnlyObserves(old(sdk.trace), sdk.trace)
      ensures old(sdk.present) && e.None? ==>
        |sdk.trace| > |old(sdk.trace)| && sdk.trace[|old(sdk.trace)|] == Observed("online", "active")
      ensures old(sdk.present) && e == Some(NotReady) ==>
        && |sdk.trace| > |old(sdk.trace)|
        && (sdk.trace[|old(sdk.trace)|] != Observed("online", "active") || sdk.now >= old(sdk.now) + 120)
      ensures !old(sdk.present) && sdk.present && !sdk.isNlb ==> e.None? || e == Some(CloudFailure)
      ensures !old(sdk.present) && e.None? && sdk.isNlb ==> sdk.trace == old(sdk.trace) + [Observed("online", "active")]
      ensures !old(sdk.present) && e == Some(NotReady) ==> sdk.present && sdk.isNlb
      ensures e == Some(NotReady) ==> SeenBusy(sdk.trace, |old(sdk.trace)|)
      ensures Counted(old(sdk.failures), sdk.failures, e)
    {
      hide WellFormed, Desired, CreatedState, Subnets.SubnetsOk, GoodIds, InputsOk, Updates, Final, Rejection;
      var found := sdk.FindLoadBalancer();
      if found.Err? {
        return Some(found.error);
      }
      var lb: LoadBalancer;
      if found.value.None? {
        var created := CreateLoadBalancer(service, nodes, subnets);
        if created.Err? {
          return Some(created.error);
        }
        lb := created.value;
        if lb.IsReady() || !lb.isNlb {
          return None;
        }
      } else {
        lb := found.value.value;
      }
      if !lb.IsReady() {
        return Some(NotReady);
      }
      var result, _ := UpdateLoadBalancer(lb, service, nodes);
      e := if result.Err? then Some(result.error) else None;
    }

    /** `EnsureLoadBalancerUpdated`. If there is no load balancer, there is nothing to update. */
    method EnsureLoadBalancerUpdated(service: Service, nodes: seq<Node>) returns (e: Option<Error>)
      requires Valid() && InputsOk(service, nodes)
      modifies sdk`state, sdk`trace, sdk`failures, sdk`now
      ensures Valid()
      ensures e.None? && sdk.present ==>
        Desired(sdk.state, JobFor(service, nodes)) && ProxyKept(old(sdk.state), sdk.state, JobFor(service, nodes))
      ensures !sdk.present ==>
        (e.None? || e == Some(CloudFailure)) && sdk.state == old(sdk.state) && sdk.trace == old(sdk.trace)
      ensures sdk.present && Unservable(service, nodes, true, sdk.isPublic, sdk.lbSubnets, sdk.vpcSubnets) ==>
        e.Some? && sdk.state == old(sdk.state) && OnlyObserves(old(sdk.trace), sdk.trace)
      ensures sdk.present && e.None? ==>
        |sdk.trace| > |old(sdk.trace)| && sdk.trace[|old(sdk.trace)|] == Observed("online", "active")
      ensures e == Some(NotReady) ==>
        && SeenBusy(sdk.trace, |old(sdk.trace)|)
        && (sdk.trace[|old(sdk.trace)|] != Observed("online", "active") || sdk.now >= old(sdk.now) + 120)
      ensures Counted(old(sdk.failures), sdk.failures, e)
      ensures old(sdk.trace) <= sdk.trace && Guarded(sdk.trace, |old(sdk.trace)|)
    {
      hide WellFormed, Desired, Subnets.SubnetsOk, GoodIds, InputsOk, Updates, Final, Rejection;
      var found := sdk.FindLoadBalancer();
      if found.Err? {
        return Some(found.error);
      }
      if found.value.None? {
        return None;
      }
      var lb := found.value.value;
      if !lb.IsReady() {
        return Some(NotReady);
      }
      var result, _ := UpdateLoadBalancer(lb, service, nodes);
      e := if result.Err? then Some(result.error) else None;
    }
  }

  lemma LineReadsBack(a: Action)
    requires ReadsBack(a)
    ensures Words(Print(a)) != [] && Decode(Print(a)) == Ok(a)
  {
  }

  /** A request that was made on a ready load balancer. */
  lemma StepDone(before: State, traceBefore: seq<Event>, after: State, trace: seq<Event>, a: Action, r: Run,
                 e: Option<Error>, start: nat)
    requires Did(before, traceBefore, after, trace, a, r, e)
    requires Guarded(traceBefore, start)
    requires traceBefore != [] && traceBefore[|traceBefore| - 1] == Observed("online", "active")
    ensures traceBefore <= trace && Guarded(trace, start)
    ensures after == before || (Accepts(before, a, r) && after == Effect(before, a, r))
    ensures e.None? ==> Accepts(before, a, r) && after == Effect(before, a, r)
    ensures e.Some? && Accepts(before, a, r) ==> e.value == CloudFailure
    ensures e != Some(NotReady)
  {
    hide Accepts, Effect;
  }

  /** How far the planned updates get, and where they end if nothing clashes. */
  lemma PlanFacts(s: State, r: Run) returns (n: nat)
    requires WellFormed(s, r.ids) && JobOk(r.job) && r.listed == s.pools
    ensures var updates := Updates(true, s, r.job);
      && RunsUpTo(s, updates, n, r) && n <= |updates| && (n == |updates| <==> NoClash(true, s, r.job))
      && updates[..|updates|] == updates && (forall i :: 0 <= i < |updates| ==> ReadsBack(updates[i]))
      && (NoClash(true, s, r.job) ==>
            Desired(Final(s, updates, r), r.job) && ProxyKept(s, Final(s, updates, r), r.job))
  {
    hide WellFormed, JobOk, Safe, Final, Desired, Updates, ProxyDone, KeptPools, ReadsBack, NoClash, RunsUpTo;
    n := UpdatesRunUpTo(true, s, r);
    RunLimit(s, Updates(true, s, r.job), n, r);
    if NoClash(true, s, r.job) {
      Converges(true, s, r);
    }
    PlanExecutable(true, s, r.ids, r.job);
  }

  lemma RunLimit(s: State, actions: seq<Action>, n: nat, r: Run)
    requires RunsUpTo(s, actions, n, r)
    ensures n <= |actions|
    ensures n < |actions| ==> !Accepts(Final(s, actions[..n], r), actions[n], r)
  {
    hide Accepts, Safe, Final;
  }

  lemma OneMore(s: State, actions: seq<Action>, n: nat, i: nat, r: Run)
    requires RunsUpTo(s, actions, n, r) && i < n
    ensures n <= |actions| && Accepts(Final(s, actions[..i], r), actions[i], r)
    ensures Final(s, actions[..i + 1], r) == Effect(Final(s, actions[..i], r), actions[i], r)
  {
    hide Accepts, Effect, Safe, Final;
    assert actions[..n][..i] == actions[..i] && actions[..n][..i + 1] == actions[..i + 1];
    SafePrefix(s, actions[..n], i, r);
  }

  lemma NamesReadable(s: State, ids: Ids)
    requires WellFormed(s, ids)
    ensures !SomeNameUnreadable(s.pools)
  {
  }

  lemma MarkedStillListed(pools: seq<Pool>, ports: seq<ServicePort>)
    ensures StillListed(Marked(pools, ports), pools)
  {
  }

  lemma SeenBusyEarlier(trace: seq<Event>, start: nat, later: nat)
    requires start <= later
    ensures SeenBusy(trace, later) ==> SeenBusy(trace, start)
  {
  }

  lemma FinalNothing(s: State, actions: seq<Action>, r: Run)
    ensures Final(s, actions[..0], r) == s
  {
  }
}
