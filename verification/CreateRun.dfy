/** Steps 6 and 7: creating the pools and listeners that are missing. */
module CreateRun {
  import opened Text
  import opened PoolNames
  import opened LoadBalancers
  import opened Actions
  import opened Cloud
  import opened Plans
  import opened PoolRuns
  import opened Stages
  import opened WholeRun

  predicate HasName(pools: seq<Pool>, name: string) { NamedIndex(pools, name) < |pools| }

  predicate IsCurrentName(name: string, ports: seq<ServicePort>) {
    exists j :: 0 <= j < |ports| && name == GenPoolName(ports[j])
  }

  /** Every pool carries the current name of some service port. */
  predicate AllNamed(pools: seq<Pool>, ports: seq<ServicePort>) {
    forall i :: 0 <= i < |pools| ==> IsCurrentName(pools[i].name, ports)
  }

  /** The pool is as `CreateLoadBalancerPool` makes it for a service port. */
  predicate NewFor(p: Pool, sp: ServicePort, job: Job) {
    && p.name == GenPoolName(sp) && p.health == job.Health(sp.nodePort) && p.proxy == PROXY_DISABLED
    && Exact(p.members, job.nodes, sp.nodePort)
  }

  predicate IsNew(p: Pool, job: Job) {
    exists j :: 0 <= j < |job.ports| && NewFor(p, job.ports[j], job)
  }

  lemma HasNameMeans(pools: seq<Pool>, name: string)
    ensures HasName(pools, name) <==> exists i :: 0 <= i < |pools| && pools[i].name == name
  {
  }

  lemma GenPoolNameInjective(a: ServicePort, b: ServicePort)
    requires PortOk(a) && PortOk(b)
    requires GenPoolName(a) == GenPoolName(b) || SameKey(GenPoolName(a), GenPoolName(b))
    ensures a.port == b.port
  {
    GenPoolNameFields(a);
    GenPoolNameFields(b);
  }

  lemma NewPoolIsNew(sp: ServicePort, r: Run, o: nat, k: nat)
    requires PortOk(sp) && sp in r.job.ports && JobOk(r.job) && GoodIds(r.ids)
    ensures var q := NewPool(GenPoolName(sp), r, o, k);
      && PoolOk(q) && FreshPool(q, r.ids, o + 1, k + |r.job.nodes|) && NewFor(q, sp, r.job) && q.id == r.ids.objects(o)
  {
    GenPoolNameFields(sp);
    hide GenPoolName, ParsePoolName, Token, Parses, Canonical;
    NewMembersOk(sp.nodePort, r.job.nodes, r.ids, k);
    var q := NewPool(GenPoolName(sp), r, o, k);
    forall j | 0 <= j < |r.job.nodes| ensures HasTarget(q.members, r.job.nodes[j], sp.nodePort) {
      assert q.members[j].target == r.job.nodes[j];
    }
    forall n: nat | o + 1 <= n ensures r.ids.objects(n) != q.id {
      assert o < n;
    }
    assert Token(q.id);
  }

  lemma PortOkAt(job: Job, j: nat)
    requires JobOk(job) && j < |job.ports|
    ensures PortOk(job.ports[j])
  {
  }

  lemma DifferentPorts(job: Job, i: nat, j: nat)
    requires JobOk(job) && i < |job.ports| && j < |job.ports| && i != j
    ensures job.ports[i].port != job.ports[j].port
  {
  }

  /** No pool is for the external port of a service port whose name is not there. */
  lemma NewNameIsFree(pools: seq<Pool>, sp: ServicePort, job: Job)
    requires JobOk(job) && PortOk(sp) && sp in job.ports
    requires AllNamed(pools, job.ports) && !HasName(pools, GenPoolName(sp))
    ensures forall i :: 0 <= i < |pools| ==> !SameKey(pools[i].name, GenPoolName(sp))
  {
    hide GenPoolName, HasName, Fields, ParsePoolName, Parses, Canonical, Token, JobOk, PortOk;
    HasNameMeans(pools, GenPoolName(sp));
    forall i | 0 <= i < |pools| ensures !SameKey(pools[i].name, GenPoolName(sp)) {
      assert IsCurrentName(pools[i].name, job.ports);
      var j :| 0 <= j < |job.ports| && pools[i].name == GenPoolName(job.ports[j]);
      PortOkAt(job, j);
      GenPoolNameFields(job.ports[j]);
      GenPoolNameFields(sp);
      var n :| 0 <= n < |job.ports| && job.ports[n] == sp;
      assert j != n;
      DifferentPorts(job, j, n);
    }
  }

  lemma GoodIdsOf(s: State, ids: Ids)
    requires WellFormed(s, ids)
    ensures GoodIds(ids)
  {
  }

  lemma NodesDistinct(job: Job)
    requires JobOk(job)
    ensures NoRepeats(job.nodes)
  {
  }

  lemma CreatePoolStep(s: State, sp: ServicePort, r: Run)
    requires WellFormed(s, r.ids) && JobOk(r.job) && PortOk(sp) && sp in r.job.ports
    requires AllNamed(s.pools, r.job.ports) && !HasName(s.pools, GenPoolName(sp))
    ensures var a, q := CreatePool(GenPoolName(sp)), NewPool(GenPoolName(sp), r, s.nextObject, s.nextMember);
      && Accepts(s, a, r)
      && Effect(s, a, r) == s.(pools := s.pools + [q], nextObject := s.nextObject + 1,
                               nextMember := s.nextMember + |r.job.nodes|)
      && WellFormed(Effect(s, a, r), r.ids) && NewFor(q, sp, r.job)
  {
    hide GenPoolName, ParsePoolName, PoolOk, FreshPool, SameKey, NewPool, NewFor, PoolsOk, ListenersOk, RefsOk, Token,
         DistinctPools, Exact, GoodIds, PortOk, Parses, Canonical, AllNamed;
    GoodIdsOf(s, r.ids);
    NodesDistinct(r.job);
    GenPoolNameFields(sp);
    NewPoolIsNew(sp, r, s.nextObject, s.nextMember);
    var q := NewPool(GenPoolName(sp), r, s.nextObject, s.nextMember);
    assert q.name == GenPoolName(sp) by { NewForName(q, sp, r.job); }
    NewNameIsFree(s.pools, sp, r.job);
    AddPoolKeepsWellFormed(s, q, s.nextMember + |r.job.nodes|, r.ids);
  }

  lemma NewForName(p: Pool, sp: ServicePort, job: Job)
    requires NewFor(p, sp, job)
    ensures p.name == GenPoolName(sp)
  {
  }

  /** Rules 2 and 3: the listener's pool is there, and its port is free. */
  lemma CreateListenerStep(s: State, sp: ServicePort, r: Run)
    requires WellFormed(s, r.ids) && JobOk(r.job) && PortOk(sp) && sp in r.job.ports
    requires HasName(s.pools, GenPoolName(sp)) && !PortTaken(s.listeners, sp.port)
    ensures var a := CreateListener(GenPoolName(sp));
      var l := Listener(r.ids.objects(s.nextObject), sp.port, TCP, s.pools[NamedIndex(s.pools, GenPoolName(sp))].id);
      && Accepts(s, a, r)
      && Effect(s, a, r) == s.(listeners := s.listeners + [l], nextObject := s.nextObject + 1)
      && WellFormed(Effect(s, a, r), r.ids) && KeepsListener(l, r.job.ports)
  {
    hide GenPoolName, ParsePoolName, PoolOk, FreshPool, ListenersOk, RefsOk, Token, DistinctPools, EqualFold, IsTcp;
    GenPoolNameFields(sp);
    var i := NamedIndex(s.pools, GenPoolName(sp));
    var l := Listener(r.ids.objects(s.nextObject), sp.port, TCP, s.pools[i].id);
    assert Refers(l, s.pools);
    AddListenerKeepsWellFormed(s, l, r.ids);
    MatchesTcp(sp, l.port, l.protocol);
    TcpFacts();
    assert Matches(sp, l.port, l.protocol);
  }

  /** Where step 6 and 7 are before service port number `at`: `base` is the state they started from. */
  ghost predicate Creating(s: State, base: State, at: nat, marked: seq<Pool>, views: seq<ListenerView>, r: Run) {
    var ports := r.job.ports;
    && WellFormed(s, r.ids) && JobOk(r.job) && at <= |ports|
    && AllNamed(s.pools, ports) && AllKept(s.listeners, ports)
    && base.pools <= s.pools && base.listeners <= s.listeners
    && (forall i :: |base.pools| <= i < |s.pools| ==> IsNew(s.pools[i], r.job))
    && (forall j :: 0 <= j < at ==> HasName(s.pools, GenPoolName(ports[j])) && PortTaken(s.listeners, ports[j].port))
    && (forall j :: at <= j < |ports| ==> LacksPool(marked, ports[j]) == Ok(!HasName(s.pools, GenPoolName(ports[j]))))
    && (forall j :: at <= j < |ports| ==> (LacksListener(views, ports[j]) <==> !PortTaken(s.listeners, ports[j].port)))
  }

  lemma HasNameAppend(pools: seq<Pool>, q: Pool, name: string)
    ensures HasName(pools + [q], name) <==> HasName(pools, name) || q.name == name
  {
    HasNameMeans(pools, name);
    HasNameMeans(pools + [q], name);
    assert (pools + [q])[|pools|] == q;
    if HasName(pools, name) {
      assert (pools + [q])[NamedIndex(pools, name)] == pools[NamedIndex(pools, name)];
    }
  }

  lemma PortTakenAppend(ls: seq<Listener>, l: Listener, port: int)
    ensures PortTaken(ls + [l], port) <==> PortTaken(ls, port) || l.port == port
  {
    assert (ls + [l])[|ls|] == l;
    if PortTaken(ls, port) {
      var i :| 0 <= i < |ls| && ls[i].port == port;
      assert (ls + [l])[i] == ls[i];
    }
  }

  /** Half of one round: the pool. */
  lemma PoolRound(s: State, base: State, at: nat, marked: seq<Pool>, views: seq<ListenerView>, r: Run)
    requires Creating(s, base, at, marked, views, r) && at < |r.job.ports|
    ensures var sp := r.job.ports[at];
      var actions := if LacksPool(marked, sp) == Ok(true) then [CreatePool(GenPoolName(sp))] else [];
      var t := Final(s, actions, r);
      && Safe(s, actions, r) && HasName(t.pools, GenPoolName(sp)) && t.listeners == s.listeners
      && AllNamed(t.pools, r.job.ports) && base.pools <= t.pools
      && (forall i :: |base.pools| <= i < |t.pools| ==> IsNew(t.pools[i], r.job))
      && (forall j :: 0 <= j < |r.job.ports| && j != at ==>
            (HasName(t.pools, GenPoolName(r.job.ports[j])) <==> HasName(s.pools, GenPoolName(r.job.ports[j]))))
  {
    hide WellFormed, Accepts, Effect, GenPoolName, LacksPool, LacksListener, HasName, NewFor, NewPool, PortTaken;
    var ports, sp := r.job.ports, r.job.ports[at];
    if LacksPool(marked, sp) == Ok(true) {
      var a := CreatePool(GenPoolName(sp));
      CreatePoolStep(s, sp, r);
      SafeOne(s, a, r);
      var t := Effect(s, a, r);
      var q := NewPool(GenPoolName(sp), r, s.nextObject, s.nextMember);
      NewForName(q, sp, r.job);
      assert IsNew(q, r.job);
      assert IsCurrentName(q.name, ports);
      HasNameAppend(s.pools, q, GenPoolName(sp));
      forall j | 0 <= j < |ports| && j != at
        ensures HasName(t.pools, GenPoolName(ports[j])) <==> HasName(s.pools, GenPoolName(ports[j]))
      {
        HasNameAppend(s.pools, q, GenPoolName(ports[j]));
        if GenPoolName(ports[j]) == GenPoolName(sp) {
          GenPoolNameInjective(ports[j], sp);
        }
      }
    }
  }

  /** Half of one round: the listener. */
  lemma ListenerRound(s: State, at: nat, views: seq<ListenerView>, r: Run)
    requires WellFormed(s, r.ids) && JobOk(r.job) && at < |r.job.ports| && AllKept(s.listeners, r.job.ports)
    requires HasName(s.pools, GenPoolName(r.job.ports[at]))
    requires LacksListener(views, r.job.ports[at]) <==> !PortTaken(s.listeners, r.job.ports[at].port)
    ensures var sp := r.job.ports[at];
      var actions := if LacksListener(views, sp) then [CreateListener(GenPoolName(sp))] else [];
      var t := Final(s, actions, r);
      && Safe(s, actions, r) && PortTaken(t.listeners, sp.port) && t.pools == s.pools
      && AllKept(t.listeners, r.job.ports) && s.listeners <= t.listeners
      && (forall j :: 0 <= j < |r.job.ports| && j != at ==>
            (PortTaken(t.listeners, r.job.ports[j].port) <==> PortTaken(s.listeners, r.job.ports[j].port)))
  {
    hide WellFormed, Accepts, Effect, GenPoolName, LacksListener, HasName, PortTaken, KeepsListener;
    var sp := r.job.ports[at];
    if LacksListener(views, sp) {
      var a := CreateListener(GenPoolName(sp));
      CreateListenerStep(s, sp, r);
      SafeOne(s, a, r);
      var t := Effect(s, a, r);
      var l := t.listeners[|s.listeners|];
      forall j | 0 <= j < |r.job.ports|
        ensures PortTaken(t.listeners, r.job.ports[j].port) <==> PortTaken(s.listeners, r.job.ports[j].port) || j == at
      {
        PortTakenAppend(s.listeners, l, r.job.ports[j].port);
      }
    }
  }

  lemma CreatingNext(s: State, u: State, t: State, base: State, at: nat, marked: seq<Pool>, views: seq<ListenerView>,
                     r: Run)
    requires Creating(s, base, at, marked, views, r) && at < |r.job.ports|
    requires WellFormed(t, r.ids) && u.listeners == s.listeners && t.pools == u.pools && base.pools <= u.pools
    requires var ports, sp := r.job.ports, r.job.ports[at];
      && HasName(u.pools, GenPoolName(sp)) && AllNamed(u.pools, ports)
      && (forall i :: |base.pools| <= i < |u.pools| ==> IsNew(u.pools[i], r.job))
      && (forall j :: 0 <= j < |ports| && j != at ==>
        (HasName(u.pools, GenPoolName(ports[j])) <==> HasName(s.pools, GenPoolName(ports[j]))))
      && PortTaken(t.listeners, sp.port) && AllKept(t.listeners, ports) && u.listeners <= t.listeners
      && (forall j :: 0 <= j < |ports| && j != at ==>
        (PortTaken(t.listeners, ports[j].port) <==> PortTaken(u.listeners, ports[j].port)))
    ensures Creating(t, base, at + 1, marked, views, r)
  {
    hide WellFormed, GenPoolName, LacksPool, LacksListener, HasName, PortTaken, IsNew, AllNamed, AllKept, JobOk;
  }

  lemma {:induction false} CreatesRun(s: State, base: State, at: nat, marked: seq<Pool>, views: seq<ListenerView>,
                                      r: Run)
    requires Creating(s, base, at, marked, views, r)
    ensures var actions := Creates(r.job.ports[at..], marked, views);
      Safe(s, actions, r) && Creating(Final(s, actions, r), base, |r.job.ports|, marked, views, r)
    decreases |r.job.ports| - at
  {
    hide Creating, WellFormed, Accepts, Effect, GenPoolName, LacksPool, LacksListener, HasName, PortTaken, IsNew,
         AllNamed, AllKept, JobOk;
    CreatingFacts(s, base, at, marked, views, r);
    if at < |r.job.ports| {
      var ports, sp := r.job.ports, r.job.ports[at];
      var a := if LacksPool(marked, sp) == Ok(true) then [CreatePool(GenPoolName(sp))] else [];
      var b := if LacksListener(views, sp) then [CreateListener(GenPoolName(sp))] else [];
      PoolRound(s, base, at, marked, views, r);
      var u := Final(s, a, r);
      SafeFinal(s, a, r);
      ListenerRound(u, at, views, r);
      var t := Final(u, b, r);
      SafeFinal(u, b, r);
      CreatingNext(s, u, t, base, at, marked, views, r);
      CreatesRun(t, base, at + 1, marked, views, r);
      SafeConcat(s, a, b, r);
      SafeConcat(s, a + b, Creates(ports[at + 1..], marked, views), r);
      assert ports[at..][0] == sp && ports[at..][1..] == ports[at + 1..];
    }
  }

  lemma CreatingFacts(s: State, base: State, at: nat, marked: seq<Pool>, views: seq<ListenerView>, r: Run)
    requires Creating(s, base, at, marked, views, r)
    ensures WellFormed(s, r.ids) && JobOk(r.job) && at <= |r.job.ports| && AllKept(s.listeners, r.job.ports)
    ensures at < |r.job.ports| ==>
      (LacksListener(views, r.job.ports[at]) <==> !PortTaken(s.listeners, r.job.ports[at].port))
  {
    hide WellFormed, GenPoolName, LacksPool, LacksListener, HasName, PortTaken, IsNew, AllNamed, AllKept, JobOk;
  }
}
