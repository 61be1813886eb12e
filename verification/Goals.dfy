/** Reached states are desired states, and what the planner finds to do in a desired state. */
module Goals {
  import opened Text
  import opened PoolNames
  import opened LoadBalancers
  import opened Actions
  import opened Cloud
  import opened Plans
  import opened PoolRuns
  import opened Stages
  import opened WholeRun
  import opened CreateRun
  import opened Convergence

  // ---------------------------------------------------------------- reached states are desired states

  lemma HealthFitsMeans(p: Pool, sp: ServicePort, job: Job)
    ensures HealthFits(p, sp, job) <==> (job.ChecksHealth() ==> p.health == job.Health(sp.nodePort))
  {
  }

  /** A pool that has been through steps 3 to 5 serves its service port. */
  lemma StageServes(merged: bool, p: Pool, q: Pool, job: Job)
    requires JobOk(job) && PoolOk(p) && Wanted(job.ports, p.name) && Stage(3, merged, p, q, job)
    ensures PoolServes(q, PortFor(p, job), job) && q.proxy == job.Proxy()
  {
    hide Fields, GenPoolName, Stale, Matches, SameKey, HealthFits, Exact, Early, PoolOk, JobOk;
    var sp := PortFor(p, job);
    PortForFacts(p, job);
    HealthFitsMeans(p, sp, job);
  }

  lemma NewServes(p: Pool, sp: ServicePort, job: Job)
    requires NewFor(p, sp, job)
    ensures PoolServes(p, sp, job)
  {
  }

  /** Any pool of a reached state serves the service port whose name it carries. */
  lemma ReachedPoolServes(merged: bool, s: State, t: State, r: Run, i: nat, sp: ServicePort)
    requires JobOk(r.job) && Reached(merged, s, t, r) && i < |t.pools|
    requires sp in r.job.ports && t.pools[i].name == GenPoolName(sp)
    ensures PoolServes(t.pools[i], sp, r.job)
  {
    hide GenPoolName, Stage, WellFormed, PoolOk, Wanted, IsListed, HasName, PortTaken, AllKept, NewFor, PoolServes,
         JobOk, KeptPools;
    var kept := KeptPools(s.pools, r.job.ports);
    if i < |kept| {
      assert t.pools[..|kept|][i] == t.pools[i];
      StageName(merged, kept[i], t.pools[i], r.job);
      StageServes(merged, kept[i], t.pools[i], r.job);
      NamesOfPorts(PortFor(kept[i], r.job), sp, r.job);
      SamePorts(PortFor(kept[i], r.job), sp, r.job);
    } else {
      assert IsNew(t.pools[i], r.job);
      var j :| 0 <= j < |r.job.ports| && NewFor(t.pools[i], r.job.ports[j], r.job);
      NewForName(t.pools[i], r.job.ports[j], r.job);
      NewServes(t.pools[i], r.job.ports[j], r.job);
      NamesOfPorts(r.job.ports[j], sp, r.job);
      SamePorts(r.job.ports[j], sp, r.job);
    }
  }

  lemma SamePorts(a: ServicePort, b: ServicePort, job: Job)
    requires JobOk(job) && a in job.ports && b in job.ports && a.port == b.port
    ensures a == b
  {
  }

  /** A pool for a port is the one with the current name of that port. */
  lemma PoolOfPort(s: State, i: nat, m: nat, sp: ServicePort, ids: Ids, job: Job)
    requires WellFormed(s, ids) && JobOk(job) && AllNamed(s.pools, job.ports) && sp in job.ports && PortOk(sp)
    requires i < |s.pools| && s.pools[i].name == GenPoolName(sp)
    requires m < |s.pools| && Fields(s.pools[m].name).port == sp.port
    ensures m == i
  {
    hide GenPoolName, PoolOk, FreshPool, ListenersOk, RefsOk, Fields, JobOk;
    assert IsCurrentName(s.pools[m].name, job.ports);
    var j :| 0 <= j < |job.ports| && s.pools[m].name == GenPoolName(job.ports[j]);
    PortOkAt(job, j);
    GenPoolNameFields(job.ports[j]);
    GenPoolNameFields(sp);
    assert SameKey(s.pools[i].name, s.pools[m].name) && SameKey(s.pools[m].name, s.pools[i].name);
  }

  /** A listener for a port is a TCP listener on the pool with the current name of that port. */
  lemma ListenerOfPort(s: State, i: nat, j: nat, sp: ServicePort, ids: Ids, job: Job)
    requires WellFormed(s, ids) && JobOk(job) && AllNamed(s.pools, job.ports) && AllKept(s.listeners, job.ports)
    requires sp in job.ports && PortOk(sp) && i < |s.pools| && s.pools[i].name == GenPoolName(sp)
    requires j < |s.listeners| && s.listeners[j].port == sp.port
    ensures IsTcp(s.listeners[j].protocol) && s.listeners[j].poolId == s.pools[i].id
  {
    hide GenPoolName, PoolsOk, Fields, IsTcp, Matches, PortOk;
    var l := s.listeners[j];
    assert KeepsListener(l, job.ports) && Refers(l, s.pools);
    var m := MatchIndex(job.ports, l.port, l.protocol);
    PortOkAt(job, m);
    MatchesTcp(job.ports[m], l.port, l.protocol);
    var n :| 0 <= n < |s.pools| && s.pools[n].id == l.poolId && Fields(s.pools[n].name).protocol == TCP
             && Fields(s.pools[n].name).port == l.port;
    PoolOfPort(s, i, n, sp, ids, job);
  }

  lemma ServesOne(s: State, i: nat, j: nat, sp: ServicePort, ids: Ids, job: Job)
    requires WellFormed(s, ids) && JobOk(job) && AllNamed(s.pools, job.ports) && AllKept(s.listeners, job.ports)
    requires sp in job.ports && PortOk(sp) && i < |s.pools| && PoolServes(s.pools[i], sp, job)
    requires j < |s.listeners| && s.listeners[j].port == sp.port
    ensures Serves(s, i, j, sp, job)
  {
    hide GenPoolName, PoolsOk, RefsOk, Fields, IsTcp, JobOk, AllNamed, AllKept, PortOk, Exact;
    assert s.pools[i].name == GenPoolName(sp);
    ListenerOfPort(s, i, j, sp, ids, job);
    forall m | 0 <= m < |s.pools| && Fields(s.pools[m].name).port == sp.port ensures m == i {
      PoolOfPort(s, i, m, sp, ids, job);
    }
  }

  /** Every state the whole run reaches is a desired state; the pools that were there have the requested proxy
      setting. */
  lemma ReachedIsDesired(merged: bool, s: State, t: State, r: Run)
    requires JobOk(r.job) && Reached(merged, s, t, r)
    ensures Desired(t, r.job)
    ensures var n := |KeptPools(s.pools, r.job.ports)|;
      && n <= |t.pools| && ProxyDone(t.pools[..n], r.job)
      && (forall i :: n <= i < |t.pools| ==> t.pools[i].proxy == PROXY_DISABLED)
  {
    hide WellFormed, GenPoolName, Stage, PoolOk, Wanted, IsListed, NewFor, PoolServes, JobOk, KeptPools,
         Serves, KeepsListener;
    var kept, ports := KeptPools(s.pools, r.job.ports), r.job.ports;
    forall n | 0 <= n < |ports| ensures ServedOnce(t, ports[n], r.job) {
      var i := NamedIndex(t.pools, GenPoolName(ports[n]));
      assert HasName(t.pools, GenPoolName(ports[n])) && PortTaken(t.listeners, ports[n].port);
      var j :| 0 <= j < |t.listeners| && t.listeners[j].port == ports[n].port;
      ReachedPoolServes(merged, s, t, r, i, ports[n]);
      PortOkAt(r.job, n);
      ServesOne(t, i, j, ports[n], r.ids, r.job);
    }
    forall i | 0 <= i < |kept| ensures t.pools[..|kept|][i].proxy == r.job.Proxy() {
      StageServes(merged, kept[i], t.pools[..|kept|][i], r.job);
    }
    forall i | |kept| <= i < |t.pools| ensures t.pools[i].proxy == PROXY_DISABLED {
      assert IsNew(t.pools[i], r.job);
      var j :| 0 <= j < |ports| && NewFor(t.pools[i], ports[j], r.job);
      NewForProxy(t.pools[i], ports[j], r.job);
    }
  }

  lemma NewForProxy(p: Pool, sp: ServicePort, job: Job)
    requires NewFor(p, sp, job)
    ensures p.proxy == PROXY_DISABLED
  {
  }

  // ---------------------------------------------------------------- the plan for a desired state

  /** One UPDATE-POOL, under its own name, for each pool whose proxy setting is not the requested one. */
  function ProxyUpdates(pools: seq<Pool>, job: Job): seq<Action> {
    if pools == [] then []
    else
      (if pools[0].proxy == job.Proxy() then [] else [UpdatePool(pools[0].name, pools[0].id)])
      + ProxyUpdates(pools[1..], job)
  }

  lemma {:induction false} NoListenerDeletes(views: seq<ListenerView>, ports: seq<ServicePort>)
    requires forall i :: 0 <= i < |views| ==> KeepsListener(views[i].listener, ports)
    ensures ListenerDeletes(views, ports) == []
  {
    if views == [] {
    } else {
      NoListenerDeletes(views[1..], ports);
    }
  }

  lemma {:induction false} NoMemberDeletes(p: Pool, ms: seq<Member>, job: Job)
    requires JobOk(job) && forall i :: 0 <= i < |ms| ==> MemberOk(ms[i])
    requires forall i :: 0 <= i < |ms| ==> ms[i].target in job.nodes && ms[i].port == Fields(p.name).nodePort
    ensures MemberDeletes(p, ms, job) == []
  {
    hide Fields, KeepsMember, MemberOk, JobOk;
    if ms == [] {
    } else {
      KeepsMemberMeans(p, ms[0], job);
      NoMemberDeletes(p, ms[1..], job);
    }
  }

  lemma {:induction false} NoMemberCreates(p: Pool, nodes: seq<string>)
    requires forall j :: 0 <= j < |nodes| ==> HasTarget(p.members, nodes[j], Fields(p.name).nodePort)
    ensures MemberCreates(p, nodes) == []
  {
    hide Fields, HasTarget;
    if nodes == [] {
    } else {
      NoMemberCreates(p, nodes[1..]);
    }
  }

  lemma WantedPort(p: Pool, sp: ServicePort, job: Job)
    requires JobOk(job) && sp in job.ports && PortOk(sp) && p.name == GenPoolName(sp)
    ensures Wanted(job.ports, p.name) && PortFor(p, job) == sp && !Stale(job.ports, p.name)
    ensures Fields(p.name).nodePort == sp.nodePort && p.name != POOL_TO_BE_DELETED
  {
    hide GenPoolName, ParsePoolName, IsTcp, Matches, EqualFold;
    GenPoolNameFields(sp);
    MarkerDoesNotParse();
    TcpFacts();
    MatchesTcp(sp, sp.port, TCP);
    var n :| 0 <= n < |job.ports| && job.ports[n] == sp;
    var f := Fields(p.name);
    assert Matches(job.ports[n], f.port, f.protocol);
    forall i | 0 <= i < |job.ports| && Matches(job.ports[i], f.port, f.protocol) ensures job.ports[i] == sp {
      MatchesTcp(job.ports[i], f.port, f.protocol);
      SamePortSameServicePort(job, i, n);
    }
  }

  /** The pool serves some service port. */
  ghost predicate ServesSome(p: Pool, job: Job) {
    exists sp :: sp in job.ports && PortOk(sp) && PoolServes(p, sp, job)
  }

  lemma PlanOfServingPool(p: Pool, sp: ServicePort, job: Job)
    requires JobOk(job) && PoolOk(p) && sp in job.ports && PortOk(sp) && PoolServes(p, sp, job)
    ensures PoolActions(DeletePools, p, job) == [] && PoolActions(DeleteMembers, p, job) == []
    ensures PoolActions(AddMembers, p, job) == []
    ensures PoolActions(UpdatePools, p, job) == if p.proxy == job.Proxy() then [] else [UpdatePool(p.name, p.id)]
  {
    hide GenPoolName, Wanted, Stale, Fields, Matches, JobOk, HealthFits, Parses, Canonical;
    WantedPort(p, sp, job);
    HealthFitsMeans(p, sp, job);
    NoMemberDeletes(p, p.members, job);
    NoMemberCreates(p, job.nodes);
  }

  lemma PlanOfServingSome(p: Pool, job: Job)
    requires JobOk(job) && PoolOk(p) && ServesSome(p, job)
    ensures PoolActions(DeletePools, p, job) == [] && PoolActions(DeleteMembers, p, job) == []
    ensures PoolActions(AddMembers, p, job) == [] && Mark(p, job.ports) == p
    ensures PoolActions(UpdatePools, p, job) == if p.proxy == job.Proxy() then [] else [UpdatePool(p.name, p.id)]
  {
    hide JobOk, PoolOk, PoolServes, PoolActions, Wanted, PortOk;
    var sp :| sp in job.ports && PortOk(sp) && PoolServes(p, sp, job);
    PlanOfServingPool(p, sp, job);
    ServingIsWanted(p, sp, job);
  }

  lemma {:induction false} PlanOfServingPools(pools: seq<Pool>, job: Job)
    requires JobOk(job) && forall i :: 0 <= i < |pools| ==> PoolOk(pools[i])
    requires forall i :: 0 <= i < |pools| ==> ServesSome(pools[i], job)
    ensures PhaseActions(DeletePools, pools, job) == [] && PhaseActions(DeleteMembers, pools, job) == []
    ensures PhaseActions(AddMembers, pools, job) == []
    ensures PhaseActions(UpdatePools, pools, job) == ProxyUpdates(pools, job)
    ensures Marked(pools, job.ports) == pools
  {
    hide JobOk, PoolOk, PoolActions, ServesSome, Mark;
    if pools == [] {
    } else {
      PlanOfServingSome(pools[0], job);
      PlanOfServingPools(pools[1..], job);
      assert Marked(pools, job.ports) == [Mark(pools[0], job.ports)] + Marked(pools[1..], job.ports);
    }
  }

  lemma ServingIsWanted(p: Pool, sp: ServicePort, job: Job)
    requires JobOk(job) && sp in job.ports && PortOk(sp) && PoolServes(p, sp, job)
    ensures Wanted(job.ports, p.name)
  {
    hide GenPoolName, Wanted;
    WantedPort(p, sp, job);
  }

  lemma NoPortCreates(s: State, i: nat, j: nat, sp: ServicePort, job: Job)
    requires Serves(s, i, j, sp, job) && JobOk(job) && sp in job.ports && PortOk(sp)
    requires forall m :: 0 <= m < |s.pools| ==> PoolOk(s.pools[m])
    requires Marked(s.pools, job.ports) == s.pools
    ensures PortCreates(sp, s.pools, Views(s)) == []
  {
    hide GenPoolName, Fields, Matches, JobOk, PoolOk, IsTcp, LacksPool, Exact;
    LacksPoolMeans(s.pools, sp, job);
    WantedPort(s.pools[i], sp, job);
    GenPoolNameFields(sp);
    MatchesTcp(sp, s.listeners[j].port, s.listeners[j].protocol);
    assert Matches(sp, Views(s)[j].listener.port, Views(s)[j].listener.protocol);
  }

  lemma {:induction false} NoCreates(s: State, ports: seq<ServicePort>, job: Job)
    requires JobOk(job) && Marked(s.pools, job.ports) == s.pools
    requires forall m :: 0 <= m < |s.pools| ==> PoolOk(s.pools[m])
    requires forall n :: 0 <= n < |ports| ==> ports[n] in job.ports && PortOk(ports[n])
    requires forall n :: 0 <= n < |ports| ==> ServedOnce(s, ports[n], job)
    ensures Creates(ports, s.pools, Views(s)) == []
    decreases |ports|
  {
    hide JobOk, PoolOk, Serves, PortOk, Marked, Views, PortCreates;
    if ports == [] {
    } else {
      assert ServedOnce(s, ports[0], job);
      var i, j :| Serves(s, i, j, ports[0], job);
      assert 0 <= i && 0 <= j by { ServesInRange(s, i, j, ports[0], job); }
      NoPortCreates(s, i, j, ports[0], job);
      NoCreates(s, ports[1..], job);
    }
  }

  lemma ServesInRange(s: State, i: int, j: int, sp: ServicePort, job: Job)
    requires Serves(s, i, j, sp, job)
    ensures 0 <= i < |s.pools| && 0 <= j < |s.listeners| && PoolServes(s.pools[i], sp, job)
  {
  }

  lemma DesiredPoolServes(s: State, m: nat, job: Job)
    requires JobOk(job) && Desired(s, job) && m < |s.pools|
    ensures ServesSome(s.pools[m], job)
  {
    hide GenPoolName, Exact, IsTcp, PoolServes, Fields;
    assert AllNamed(s.pools, job.ports);
    assert IsCurrentName(s.pools[m].name, job.ports);
    var n :| 0 <= n < |job.ports| && s.pools[m].name == GenPoolName(job.ports[n]);
    assert ServedOnce(s, job.ports[n], job);
    var i, j :| Serves(s, i, j, job.ports[n], job);
    GenPoolNameFields(job.ports[n]);
    assert m == i;
  }

  /** In a desired state, only proxy settings are left to change. */
  lemma PlanOfDesired(s: State, ids: Ids, job: Job)
    requires WellFormed(s, ids) && JobOk(job) && Desired(s, job)
    ensures PlanFor(s, job) == ProxyUpdates(s.pools, job)
  {
    hide WellFormed, JobOk, PoolServes, PoolOk, PortOk, Serves, AllNamed, KeepsListener, PhaseActions,
         ListenerDeletes, Creates, Marked, ProxyUpdates;
    PoolsOfWellFormed(s, ids);
    forall m | 0 <= m < |s.pools| ensures ServesSome(s.pools[m], job) {
      DesiredPoolServes(s, m, job);
    }
    PlanOfServingPools(s.pools, job);
    NoListenerDeletes(Views(s), job.ports);
    forall n | 0 <= n < |job.ports| ensures PortOk(job.ports[n]) { PortOkAt(job, n); }
    NoCreates(s, job.ports, job);
  }

  lemma {:induction false} NoProxyUpdates(pools: seq<Pool>, job: Job)
    ensures ProxyUpdates(pools, job) == [] <==> ProxyDone(pools, job)
  {
    if pools == [] {
    } else {
      NoProxyUpdates(pools[1..], job);
      assert pools == [pools[0]] + pools[1..];
    }
  }

  lemma {:induction false} ProxyUpdatesConcat(a: seq<Pool>, b: seq<Pool>, job: Job)
    ensures ProxyUpdates(a + b, job) == ProxyUpdates(a, job) + ProxyUpdates(b, job)
  {
    if a == [] {
      assert a + b == b;
    } else {
      assert (a + b)[1..] == a[1..] + b;
      ProxyUpdatesConcat(a[1..], b, job);
    }
  }
}
