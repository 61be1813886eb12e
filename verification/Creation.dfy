/** The load balancer `CreateLoadBalancer` asks for, and why an update that follows has nothing to do. */
module Creation {
  import opened Text
  import opened PoolNames
  import opened LoadBalancers
  import opened Actions
  import opened Cloud
  import opened Plans
  import opened PoolRuns
  import opened Stages
  import opened WholeRun
  import opened CreateRun
  import opened Convergence
  import opened Goals
  import opened Reconciliation

  /** A pool and a listener as the create request describes them. The listener names its default pool. */
  datatype PoolPrototype = PoolPrototype(name: string, nodePort: int, targets: seq<string>, health: HealthMonitor,
    proxy: string)
  datatype ListenerPrototype = ListenerPrototype(port: int, protocol: string, poolName: string)

  function PoolPrototypeFor(name: string, job: Job): PoolPrototype {
    PoolPrototype(name, Fields(name).nodePort, job.nodes, job.Health(Fields(name).nodePort), job.Proxy())
  }

  /** The listener protocol is TCP whatever the pool name says. */
  function ListenerPrototypeFor(name: string): ListenerPrototype {
    ListenerPrototype(Fields(name).port, TCP, name)
  }

  /** The loop of `CreateLoadBalancer` over the pool names. */
  method Prototypes(names: seq<string>, job: Job)
    returns (r: Result<(seq<PoolPrototype>, seq<ListenerPrototype>)>)
    ensures r.Ok? <==> forall i :: 0 <= i < |names| ==> ParsePoolName(names[i]).Some?
    ensures r.Err? ==> r.error == BadPoolName
    ensures r.Ok? ==> |r.value.0| == |names| && |r.value.1| == |names|
    ensures r.Ok? ==>
      forall i :: 0 <= i < |names| ==>
        r.value.0[i] == PoolPrototypeFor(names[i], job) && r.value.1[i] == ListenerPrototypeFor(names[i])
  {
    hide ParsePoolName;
    var pools: seq<PoolPrototype> := [];
    var listeners: seq<ListenerPrototype> := [];
    for i := 0 to |names|
      invariant |pools| == i && |listeners| == i
      invariant forall j :: 0 <= j < i ==> ParsePoolName(names[j]).Some?
      invariant forall j :: 0 <= j < i ==>
        pools[j] == PoolPrototypeFor(names[j], job) && listeners[j] == ListenerPrototypeFor(names[j])
    {
      var parsed := ParsePoolName(names[i]);
      if parsed.None? {
        return Err(BadPoolName);
      }
      var f := parsed.value;
      var pool := PoolPrototype(names[i], f.nodePort, job.nodes, job.Health(f.nodePort), PROXY_DISABLED);
      if job.proxyRequested {
        pool := pool.(proxy := PROXY_V1);
      }
      pools := pools + [pool];
      listeners := listeners + [ListenerPrototype(f.port, TCP, names[i])];
    }
    r := Ok((pools, listeners));
  }

  /** What the cloud makes of the request: pools first, then listeners, each with the next identifier. */
  function Built(pools: seq<PoolPrototype>, listeners: seq<ListenerPrototype>, ids: Ids, nodeCount: nat): (s: State)
    ensures |s.pools| == |pools| && |s.listeners| == |listeners|
  {
    var built := seq(|pools|, i requires 0 <= i < |pools| => BuiltPool(pools[i], i, ids, i * nodeCount));
    State(seq(|listeners|, i requires 0 <= i < |listeners| =>
            var at := NamedIndex(built, listeners[i].poolName);
            Listener(ids.objects(|pools| + i), listeners[i].port, listeners[i].protocol,
                     if at < |built| then built[at].id else "")),
          built, |pools| + |listeners|, |pools| * nodeCount)
  }

  function BuiltPool(p: PoolPrototype, i: nat, ids: Ids, k: nat): Pool {
    Pool(ids.objects(i), p.name, NewMembers(p.nodePort, p.targets, ids, k), p.health, p.proxy)
  }

  /** The state right after creation. */
  function CreatedState(job: Job, ids: Ids): State {
    var n := |job.ports|;
    Built(seq(n, i requires 0 <= i < n => PoolPrototypeFor(GenPoolName(job.ports[i]), job)),
          seq(n, i requires 0 <= i < n => ListenerPrototypeFor(GenPoolName(job.ports[i]))), ids, |job.nodes|)
  }

  // ---------------------------------------------------------------- what was created

  lemma CreatedSizes(job: Job, ids: Ids)
    ensures |CreatedState(job, ids).pools| == |job.ports| && |CreatedState(job, ids).listeners| == |job.ports|
    ensures CreatedState(job, ids).nextObject == 2 * |job.ports|
    ensures CreatedState(job, ids).nextMember == |job.ports| * |job.nodes|
  {
  }

  /** Pool number `i` of a created load balancer. */
  lemma CreatedPoolAt(job: Job, ids: Ids, i: nat)
    requires JobOk(job) && i < |job.ports|
    ensures var s, sp := CreatedState(job, ids), job.ports[i];
      && |s.pools| == |job.ports| && PortOk(sp)
      && s.pools[i] == Pool(ids.objects(i), GenPoolName(sp), NewMembers(sp.nodePort, job.nodes, ids, i * |job.nodes|),
                            job.Health(sp.nodePort), job.Proxy())
  {
    hide GenPoolName, ParsePoolName, Fields, NewMembers, Token, Parses, Canonical, NamedIndex;
    PortOkAt(job, i);
    GenPoolNameFields(job.ports[i]);
  }

  lemma CreatedListenerAt(job: Job, ids: Ids, i: nat)
    requires i < |job.ports|
    ensures var s, sp := CreatedState(job, ids), job.ports[i]; var at := NamedIndex(s.pools, GenPoolName(sp));
      && |s.listeners| == |job.ports|
      && s.listeners[i] == Listener(ids.objects(|job.ports| + i), Fields(GenPoolName(sp)).port, TCP,
                                    if at < |s.pools| then s.pools[at].id else "")
  {
    hide GenPoolName, Fields, PoolPrototypeFor, BuiltPool;
  }

  /** Pool and listener number `i` of a created load balancer. */
  lemma CreatedAt(job: Job, ids: Ids, i: nat)
    requires JobOk(job) && i < |job.ports|
    ensures var s, sp := CreatedState(job, ids), job.ports[i];
      && PortOk(sp) && |s.pools| == |s.listeners| == |job.ports|
      && s.pools[i] == Pool(ids.objects(i), GenPoolName(sp), NewMembers(sp.nodePort, job.nodes, ids, i * |job.nodes|),
                            job.Health(sp.nodePort), job.Proxy())
      && s.listeners[i] == Listener(ids.objects(|job.ports| + i), sp.port, TCP, ids.objects(i))
  {
    hide GenPoolName, ParsePoolName, Fields, NewMembers, CreatedState, JobOk, Token, Parses, Canonical, PortOk;
    CreatedPoolAt(job, ids, i);
    CreatedListenerAt(job, ids, i);
    GenPoolNameFields(job.ports[i]);
    var at := NamedIndex(CreatedState(job, ids).pools, GenPoolName(job.ports[i]));
    assert at <= i;
    CreatedPoolAt(job, ids, at);
    NamesOfPorts(job.ports[at], job.ports[i], job);
    SamePortSameServicePort(job, at, i);
  }

  /** What creation asks for, spelled out: a TCP listener and a pool per service port, with the node addresses on the
      node port, the HTTP health check of a Local service where it has a port, and the requested proxy setting. */
  lemma CreatedSpelledOut(job: Job, ids: Ids, i: nat)
    requires JobOk(job) && i < |job.ports|
    ensures var s, sp := CreatedState(job, ids), job.ports[i];
      && |s.pools| == |s.listeners| == |job.ports|
      && s.listeners[i].port == sp.port && s.listeners[i].protocol == "tcp" && s.listeners[i].poolId == s.pools[i].id
      && s.pools[i].name == "tcp-" + IntText(sp.port) + "-" + IntText(sp.nodePort)
      && |s.pools[i].members| == |job.nodes|
      && (forall j :: 0 <= j < |job.nodes| ==>
            s.pools[i].members[j].target == job.nodes[j] && s.pools[i].members[j].port == sp.nodePort)
      && s.pools[i].health == (if job.policy == LocalPolicy && job.healthCheckNodePort > 0 then
                                 HealthMonitor("http", job.healthCheckNodePort)
                               else HealthMonitor("tcp", sp.nodePort))
      && s.pools[i].proxy == (if job.proxyRequested then "v1" else "disabled")
  {
    CreatedAt(job, ids, i);
    NameSpelledOut(job.ports[i]);
    hide CreatedState, GenPoolName, IntText, JobOk, PortOk;
  }

  lemma NameSpelledOut(sp: ServicePort)
    requires PortOk(sp)
    ensures GenPoolName(sp) == "tcp-" + IntText(sp.port) + "-" + IntText(sp.nodePort)
  {
    hide IntText;
    TcpFacts();
  }

  lemma MemberNumber(i: nat, n: nat, m: nat, x: nat)
    requires i < n && x < m
    ensures i * m + x < n * m
  {
    assert (i + 1) * m <= n * m;
  }

  lemma CreatedObjects(job: Job, ids: Ids, i: nat)
    requires GoodIds(ids) && i < |job.ports|
    ensures Token(ids.objects(i)) && forall n: nat :: 2 * |job.ports| <= n ==> ids.objects(n) != ids.objects(i)
    ensures forall k: nat, l: nat :: k < l ==> ids.members(k) != ids.members(l)
  {
  }

  lemma CreatedPoolOk(job: Job, ids: Ids, i: nat)
    requires JobOk(job) && GoodIds(ids) && i < |job.ports|
    ensures var s := CreatedState(job, ids);
      PoolOk(s.pools[i]) && FreshPool(s.pools[i], ids, s.nextObject, s.nextMember)
  {
    hide GenPoolName, ParsePoolName, Fields, Parses, Canonical, Token, CreatedState, GoodIds;
    CreatedSizes(job, ids);
    CreatedObjects(job, ids, i);
    CreatedAt(job, ids, i);
    var s, sp := CreatedState(job, ids), job.ports[i];
    GenPoolNameFields(sp);
    NewMembersOk(sp.nodePort, job.nodes, ids, i * |job.nodes|);
    forall n: nat, x | s.nextMember <= n && 0 <= x < |job.nodes| ensures ids.members(n) != s.pools[i].members[x].id {
      MemberNumber(i, |job.ports|, |job.nodes|, x);
    }
  }

  lemma CreatedKeys(job: Job, ids: Ids, i: nat, j: nat)
    requires JobOk(job) && GoodIds(ids) && i < j < |job.ports|
    ensures var s := CreatedState(job, ids);
      && s.pools[i].id != s.pools[j].id && !SameKey(s.pools[i].name, s.pools[j].name)
      && s.listeners[i].id != s.listeners[j].id && s.listeners[i].port != s.listeners[j].port
  {
    hide GenPoolName, ParsePoolName, Fields, Parses, Canonical, Token, CreatedState;
    CreatedAt(job, ids, i);
    CreatedAt(job, ids, j);
    GenPoolNameFields(job.ports[i]);
    GenPoolNameFields(job.ports[j]);
  }

  lemma CreatedRefers(job: Job, ids: Ids, i: nat)
    requires JobOk(job) && i < |job.ports|
    ensures var s := CreatedState(job, ids); Refers(s.listeners[i], s.pools)
  {
    hide GenPoolName, ParsePoolName, Fields, IsTcp, CreatedState;
    CreatedAt(job, ids, i);
    GenPoolNameFields(job.ports[i]);
    var s := CreatedState(job, ids);
    assert s.pools[i].id == s.listeners[i].poolId;
  }

  lemma CreatedPools(job: Job, ids: Ids)
    requires JobOk(job) && GoodIds(ids)
    ensures var s := CreatedState(job, ids); PoolsOk(s.pools, ids, s.nextObject, s.nextMember)
  {
    hide JobOk, PoolOk, FreshPool, SameKey, CreatedState, GoodIds;
    var s := CreatedState(job, ids);
    CreatedSizes(job, ids);
    forall i | 0 <= i < |s.pools| ensures PoolOk(s.pools[i]) && FreshPool(s.pools[i], ids, s.nextObject, s.nextMember) {
      CreatedPoolOk(job, ids, i);
    }
    forall i, j | 0 <= i < j < |s.pools|
      ensures s.pools[i].id != s.pools[j].id && !SameKey(s.pools[i].name, s.pools[j].name)
    {
      CreatedKeys(job, ids, i, j);
    }
  }

  lemma CreatedListeners(job: Job, ids: Ids)
    requires JobOk(job) && GoodIds(ids)
    ensures var s := CreatedState(job, ids); ListenersOk(s.listeners, ids, s.nextObject) && RefsOk(s.listeners, s.pools)
  {
    hide JobOk, Refers, SameKey, CreatedState, Token;
    var s := CreatedState(job, ids);
    CreatedSizes(job, ids);
    forall i | 0 <= i < |s.listeners|
      ensures Refers(s.listeners[i], s.pools) && s.listeners[i].id == ids.objects(|job.ports| + i)
    {
      CreatedRefers(job, ids, i);
      CreatedAt(job, ids, i);
    }
    forall i, j | 0 <= i < j < |s.listeners|
      ensures s.listeners[i].id != s.listeners[j].id && s.listeners[i].port != s.listeners[j].port
    {
      CreatedKeys(job, ids, i, j);
    }
  }

  lemma CreatedIsWellFormed(job: Job, ids: Ids)
    requires JobOk(job) && GoodIds(ids)
    ensures WellFormed(CreatedState(job, ids), ids)
  {
    hide JobOk, PoolsOk, ListenersOk, RefsOk, CreatedState, GoodIds;
    CreatedPools(job, ids);
    CreatedListeners(job, ids);
  }

  lemma CreatedServes(job: Job, ids: Ids, i: nat)
    requires JobOk(job) && i < |job.ports|
    ensures Serves(CreatedState(job, ids), i, i, job.ports[i], job)
  {
    hide GenPoolName, ParsePoolName, Fields, Exact, CreatedState, NewMembers, PortOk, Parses, Canonical, Token, IsTcp;
    var s, sp := CreatedState(job, ids), job.ports[i];
    CreatedAt(job, ids, i);
    TcpFacts();
    NewMembersExact(sp.nodePort, job.nodes, ids, i * |job.nodes|);
    forall m | 0 <= m < |s.pools| && Fields(s.pools[m].name).port == sp.port ensures m == i {
      CreatedAt(job, ids, m);
      GenPoolNameFields(job.ports[m]);
    }
    forall m | 0 <= m < |s.listeners| && s.listeners[m].port == sp.port ensures m == i {
      CreatedAt(job, ids, m);
    }
  }

  lemma CreatedIsDesired(job: Job, ids: Ids)
    requires JobOk(job)
    ensures Desired(CreatedState(job, ids), job) && ProxyDone(CreatedState(job, ids).pools, job)
  {
    hide JobOk, GenPoolName, Fields, Serves, CreatedState, KeepsListener;
    var s := CreatedState(job, ids);
    CreatedSizes(job, ids);
    forall i | 0 <= i < |job.ports|
      ensures ServedOnce(s, job.ports[i], job)
      ensures IsCurrentName(s.pools[i].name, job.ports) && s.pools[i].proxy == job.Proxy()
      ensures KeepsListener(s.listeners[i], job.ports)
    {
      CreatedServes(job, ids, i);
      CreatedAt(job, ids, i);
      CreatedListenerKept(job, ids, i);
    }
  }

  lemma CreatedListenerKept(job: Job, ids: Ids, i: nat)
    requires JobOk(job) && i < |job.ports|
    ensures i < |CreatedState(job, ids).listeners| && KeepsListener(CreatedState(job, ids).listeners[i], job.ports)
  {
    hide GenPoolName, Fields, IsTcp, Matches;
    CreatedAt(job, ids, i);
    TcpFacts();
    MatchesTcp(job.ports[i], job.ports[i].port, TCP);
    assert Matches(job.ports[i], job.ports[i].port, TCP);
  }

  /** Create agrees with update: on what creation builds, the planner finds nothing to do for the same inputs. */
  lemma CreateAgreesWithUpdate(merged: bool, job: Job, ids: Ids)
    requires JobOk(job) && GoodIds(ids)
    ensures WellFormed(CreatedState(job, ids), ids) && Updates(merged, CreatedState(job, ids), job) == []
  {
    hide JobOk, WellFormed, Desired, ProxyDone, Updates, CreatedState;
    CreatedIsWellFormed(job, ids);
    CreatedIsDesired(job, ids);
    var s := CreatedState(job, ids);
    NothingToDoIffDesired(merged, s, Run(job, s.pools, ids));
  }

  /** A traffic policy for which the planner does not look at the health monitor. */
  function UncheckedJob(): Job {
    Job([ServicePort("TCP", 80, 30000)], ["10.0.0.1"], OtherPolicy, 0, false)
  }

  /** An input for which a wrong health monitor stays: nothing is left to do, and the monitor is not the requested
      one. */
  lemma WrongMonitorStays(merged: bool, ids: Ids)
    requires GoodIds(ids)
    ensures var job, h := UncheckedJob(), HealthMonitor(HTTP, 1); var s := CreatedState(job, ids);
      && JobOk(job) && |s.pools| == 1 && h != job.Health(30000)
      && WellFormed(Tampered(s, 0, h), ids) && Updates(merged, Tampered(s, 0, h), job) == []
  {
    assert Token("10.0.0.1");
    var job, h := UncheckedJob(), HealthMonitor(HTTP, 1);
    assert JobOk(job) && !job.ChecksHealth();
    hide JobOk, WellFormed, Desired, ProxyDone, Updates, CreatedState, GenPoolName, ParsePoolName, Token;
    var s := CreatedState(job, ids);
    CreatedIsWellFormed(job, ids);
    CreatedIsDesired(job, ids);
    CreatedAt(job, ids, 0);
    GenPoolNameFields(job.ports[0]);
    TamperedWellFormed(s, 0, h, ids);
    HealthMonitorEnforcedIff(merged, s, 0, h, Run(job, s.pools, ids));
  }
}
