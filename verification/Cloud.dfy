/** What the cloud does with each request the Gen2 client sends, and when it refuses one. */
module Cloud {
  import opened Text
  import opened PoolNames
  import opened LoadBalancers
  import opened Actions

  // ---------------------------------------------------------------- requests on one pool

  /** `genLoadBalancerMembers`, with the identifiers the cloud gives the members. */
  function NewMembers(nodePort: int, nodes: seq<string>, ids: Ids, k: nat): (ms: seq<Member>)
    ensures |ms| == |nodes|
    ensures forall i :: 0 <= i < |ms| ==> ms[i] == Member(ids.members(k + i), nodes[i], nodePort)
  {
    seq(|nodes|, i requires 0 <= i < |nodes| => Member(ids.members(k + i), nodes[i], nodePort))
  }

  /** The proxy setting after `UpdateLoadBalancerPool`: a patch is sent only when the listed value is not the wanted
      one. */
  function PatchedProxy(current: string, listed: string, job: Job): string {
    if job.proxyRequested && listed != PROXY_V1 then PROXY_V1
    else if !job.proxyRequested && listed != PROXY_DISABLED then PROXY_DISABLED
    else current
  }

  /** The request goes through as far as this pool is concerned. */
  predicate PoolAccepts(p: Pool, a: Action, r: Run) {
    match a
    case CreateMember(name, _, node) => ParsePoolName(name).Some? && !HasTarget(p.members, node, Fields(name).nodePort)
    case DeleteMember(_, _, memberId, _) => MemberIndex(p.members, memberId) < |p.members|
    case ReplaceMembers(name, _) => ParsePoolName(name).Some? && NoRepeats(r.job.nodes)
    case UpdatePool(name, _) => ParsePoolName(name).Some? && PoolIndex(r.listed, p.id) < |r.listed|
    case _ => false
  }

  function PoolEffect(p: Pool, a: Action, r: Run, k: nat): (q: Pool)
    requires PoolAccepts(p, a, r)
    ensures q.id == p.id
  {
    match a
    case CreateMember(name, _, node) =>
      p.(members := p.members + [Member(r.ids.members(k), node, Fields(name).nodePort)])
    case DeleteMember(_, _, memberId, _) =>
      var i := MemberIndex(p.members, memberId);
      p.(members := p.members[..i] + p.members[i + 1..])
    case ReplaceMembers(name, _) =>
      p.(members := NewMembers(Fields(name).nodePort, r.job.nodes, r.ids, k))
    case UpdatePool(name, _) =>
      var listed := r.listed[PoolIndex(r.listed, p.id)];
      p.(name := name, health := r.job.Health(Fields(name).nodePort),
        proxy := PatchedProxy(p.proxy, listed.proxy, r.job))
  }

  /** How many member identifiers a request uses up. */
  function MembersCreated(a: Action, r: Run): nat {
    match a
    case CreateMember(_, _, _) => 1
    case CreatePool(_) => |r.job.nodes|
    case ReplaceMembers(_, _) => |r.job.nodes|
    case _ => 0
  }

  // ---------------------------------------------------------------- requests on the load balancer

  /** The pool `CreateLoadBalancerPool` asks for. It sends no proxy setting, so the cloud's default stands. */
  function NewPool(name: string, r: Run, o: nat, k: nat): Pool {
    Pool(r.ids.objects(o), name, NewMembers(Fields(name).nodePort, r.job.nodes, r.ids, k),
         r.job.Health(Fields(name).nodePort), PROXY_DISABLED)
  }

  /** No rule of the cloud, and no check of the client, stands in the way of the request. */
  predicate Accepts(s: State, a: Action, r: Run) {
    match a
    case CreateListener(name) =>
      ParsePoolName(name).Some? && NamedIndex(s.pools, name) < |s.pools| && !PortTaken(s.listeners, Fields(name).port)
    case CreatePool(name) =>
      ParsePoolName(name).Some? && NamedIndex(s.pools, name) == |s.pools| && NoRepeats(r.job.nodes)
    case DeleteListener(_, listenerId) => ListenerIndex(s.listeners, listenerId) < |s.listeners|
    case DeletePool(_, poolId) => PoolIndex(s.pools, poolId) < |s.pools| && !InUse(s.listeners, poolId)
    case UpdatePool(name, poolId) =>
      var i := PoolIndex(s.pools, poolId);
      i < |s.pools| && PoolAccepts(s.pools[i], a, r)
      && forall j :: 0 <= j < |s.pools| && j != i ==> s.pools[j].name != name
    case _ =>
      var i := PoolIndex(s.pools, a.poolId);
      i < |s.pools| && PoolAccepts(s.pools[i], a, r)
  }

  function Effect(s: State, a: Action, r: Run): State
    requires Accepts(s, a, r)
  {
    match a
    case CreateListener(name) =>
      var pool := s.pools[NamedIndex(s.pools, name)];
      var f := Fields(name);
      s.(listeners := s.listeners + [Listener(r.ids.objects(s.nextObject), f.port, f.protocol, pool.id)],
         nextObject := s.nextObject + 1)
    case CreatePool(name) =>
      s.(pools := s.pools + [NewPool(name, r, s.nextObject, s.nextMember)],
         nextObject := s.nextObject + 1, nextMember := s.nextMember + |r.job.nodes|)
    case DeleteListener(_, listenerId) =>
      var i := ListenerIndex(s.listeners, listenerId);
      s.(listeners := s.listeners[..i] + s.listeners[i + 1..])
    case DeletePool(_, poolId) =>
      var i := PoolIndex(s.pools, poolId);
      s.(pools := s.pools[..i] + s.pools[i + 1..])
    case _ =>
      var i := PoolIndex(s.pools, a.poolId);
      s.(pools := s.pools[i := PoolEffect(s.pools[i], a, r, s.nextMember)],
         nextMember := s.nextMember + MembersCreated(a, r))
  }

  // ---------------------------------------------------------------- runs

  /** The state after a list of actions; a refused action stops the run. */
  function Final(s: State, actions: seq<Action>, r: Run): State
    decreases |actions|
  {
    if actions == [] || !Accepts(s, actions[0], r) then s
    else Final(Effect(s, actions[0], r), actions[1..], r)
  }

  /** Every action is accepted when its turn comes, and every state on the way is well-formed. */
  ghost predicate Safe(s: State, actions: seq<Action>, r: Run)
    decreases |actions|
  {
    && WellFormed(s, r.ids)
    && (actions != [] ==> Accepts(s, actions[0], r) && Safe(Effect(s, actions[0], r), actions[1..], r))
  }

  lemma {:induction false} SafeConcat(s: State, a: seq<Action>, b: seq<Action>, r: Run)
    requires Safe(s, a, r) && Safe(Final(s, a, r), b, r)
    ensures Safe(s, a + b, r) && Final(s, a + b, r) == Final(Final(s, a, r), b, r)
    decreases |a|
  {
    hide WellFormed, Accepts, Effect;
    if a == [] {
      assert a + b == b;
    } else {
      assert (a + b)[0] == a[0] && (a + b)[1..] == a[1..] + b;
      SafeConcat(Effect(s, a[0], r), a[1..], b, r);
    }
  }

  /** A safe run may stop anywhere: the state there is well-formed and the next action is accepted. */
  lemma {:induction false} SafePrefix(s: State, actions: seq<Action>, k: nat, r: Run)
    requires Safe(s, actions, r) && k <= |actions|
    ensures WellFormed(Final(s, actions[..k], r), r.ids)
    ensures k < |actions| ==> Accepts(Final(s, actions[..k], r), actions[k], r)
    ensures k < |actions| ==> Final(s, actions[..k + 1], r) == Effect(Final(s, actions[..k], r), actions[k], r)
    decreases |actions|
  {
    hide WellFormed, Accepts, Effect;
    if k == 0 {
      if actions != [] {
        assert actions[..1][1..] == [];
      }
    } else {
      assert actions[..k][0] == actions[0] && actions[..k][1..] == actions[1..][..k - 1];
      SafePrefix(Effect(s, actions[0], r), actions[1..], k - 1, r);
      if k < |actions| {
        assert actions[..k + 1][1..] == actions[1..][..k];
      }
    }
  }

  lemma SafeOne(s: State, a: Action, r: Run)
    requires WellFormed(s, r.ids) && Accepts(s, a, r) && WellFormed(Effect(s, a, r), r.ids)
    ensures Safe(s, [a], r) && Final(s, [a], r) == Effect(s, a, r)
  {
    hide WellFormed, Accepts, Effect;
    assert [a][1..] == [];
  }

  // ---------------------------------------------------------------- well-formedness step by step

  lemma PoolIndexIs(pools: seq<Pool>, i: nat)
    requires i < |pools| && DistinctPools(pools)
    ensures PoolIndex(pools, pools[i].id) == i
  {
  }

  /** Changing one pool keeps the state well-formed while its ID, external port and protocol stay. */
  lemma ReplacePoolKeepsWellFormed(s: State, i: nat, q: Pool, k: nat, ids: Ids)
    requires WellFormed(s, ids) && i < |s.pools| && s.nextMember <= k
    requires q.id == s.pools[i].id && SameKey(q.name, s.pools[i].name)
    requires PoolOk(q) && FreshPool(q, ids, s.nextObject, k)
    ensures WellFormed(s.(pools := s.pools[i := q], nextMember := k), ids)
  {
    hide Fields, Parses, Canonical, IsTcp;
    var t := s.(pools := s.pools[i := q], nextMember := k);
    forall j | 0 <= j < |t.listeners| ensures Refers(t.listeners[j], t.pools) {
      var l := s.listeners[j];
      assert Refers(l, s.pools);
      if IsTcp(l.protocol) {
        var m :| 0 <= m < |s.pools| && s.pools[m].id == l.poolId && Fields(s.pools[m].name).protocol == TCP
                 && Fields(s.pools[m].name).port == l.port;
        assert t.pools[m].id == l.poolId;
      }
    }
    assert forall j :: 0 <= j < |t.pools| ==> FreshPool(t.pools[j], ids, t.nextObject, t.nextMember) by {
      forall j | 0 <= j < |t.pools| ensures FreshPool(t.pools[j], ids, t.nextObject, t.nextMember) {
        assert j != i ==> t.pools[j] == s.pools[j] && FreshPool(s.pools[j], ids, s.nextObject, s.nextMember);
      }
    }
  }

  lemma DeletePoolKeepsWellFormed(s: State, i: nat, ids: Ids)
    requires WellFormed(s, ids) && i < |s.pools| && !InUse(s.listeners, s.pools[i].id)
    ensures WellFormed(s.(pools := s.pools[..i] + s.pools[i + 1..]), ids)
  {
    hide Fields, Parses, Canonical, IsTcp, PoolOk, FreshPool;
    var t := s.(pools := s.pools[..i] + s.pools[i + 1..]);
    assert forall j :: 0 <= j < |t.pools| ==> t.pools[j] == s.pools[if j < i then j else j + 1];
    forall j | 0 <= j < |t.listeners| ensures Refers(t.listeners[j], t.pools) {
      var l := s.listeners[j];
      assert Refers(l, s.pools);
      if IsTcp(l.protocol) {
        var m :| 0 <= m < |s.pools| && s.pools[m].id == l.poolId && Fields(s.pools[m].name).protocol == TCP
                 && Fields(s.pools[m].name).port == l.port;
        assert m != i;
        assert s.pools[m] == t.pools[if m < i then m else m - 1];
      }
    }
  }

  lemma DeleteListenerKeepsWellFormed(s: State, i: nat, ids: Ids)
    requires WellFormed(s, ids) && i < |s.listeners|
    ensures WellFormed(s.(listeners := s.listeners[..i] + s.listeners[i + 1..]), ids)
  {
    hide PoolsOk, Refers;
    var t := s.(listeners := s.listeners[..i] + s.listeners[i + 1..]);
    assert forall j :: 0 <= j < |t.listeners| ==> t.listeners[j] == s.listeners[if j < i then j else j + 1];
  }

  lemma AddPoolKeepsWellFormed(s: State, q: Pool, k: nat, ids: Ids)
    requires WellFormed(s, ids) && s.nextMember <= k
    requires q.id == ids.objects(s.nextObject) && PoolOk(q) && FreshPool(q, ids, s.nextObject + 1, k)
    requires forall i :: 0 <= i < |s.pools| ==> !SameKey(s.pools[i].name, q.name)
    ensures WellFormed(s.(pools := s.pools + [q], nextObject := s.nextObject + 1, nextMember := k), ids)
  {
    hide Fields, Parses, Canonical, IsTcp;
    var t := s.(pools := s.pools + [q], nextObject := s.nextObject + 1, nextMember := k);
    forall j | 0 <= j < |t.listeners| ensures Refers(t.listeners[j], t.pools) {
      var l := s.listeners[j];
      assert Refers(l, s.pools);
      if IsTcp(l.protocol) {
        var m :| 0 <= m < |s.pools| && s.pools[m].id == l.poolId && Fields(s.pools[m].name).protocol == TCP
                 && Fields(s.pools[m].name).port == l.port;
        assert t.pools[m] == s.pools[m];
      }
    }
    forall j | 0 <= j < |t.pools|
      ensures PoolOk(t.pools[j]) && FreshPool(t.pools[j], ids, t.nextObject, t.nextMember)
      ensures j < |s.pools| ==> t.pools[j].id != q.id
    {
      if j < |s.pools| {
        assert t.pools[j] == s.pools[j] && FreshPool(s.pools[j], ids, s.nextObject, s.nextMember);
      }
    }
  }

  lemma AddListenerKeepsWellFormed(s: State, l: Listener, ids: Ids)
    requires WellFormed(s, ids) && l.id == ids.objects(s.nextObject) && !PortTaken(s.listeners, l.port)
    requires Refers(l, s.pools)
    ensures WellFormed(s.(listeners := s.listeners + [l], nextObject := s.nextObject + 1), ids)
  {
    hide Refers, PoolOk;
    var t := s.(listeners := s.listeners + [l], nextObject := s.nextObject + 1);
    assert forall j :: 0 <= j < |t.pools| ==> FreshPool(t.pools[j], ids, t.nextObject, t.nextMember) by {
      forall j | 0 <= j < |t.pools| ensures FreshPool(t.pools[j], ids, t.nextObject, t.nextMember) {
        assert FreshPool(s.pools[j], ids, s.nextObject, s.nextMember);
      }
    }
  }

  /** Members made anew are well-formed and leave later identifiers free. */
  lemma NewMembersOk(nodePort: int, nodes: seq<string>, ids: Ids, k: nat)
    requires GoodIds(ids) && NoRepeats(nodes) && forall i :: 0 <= i < |nodes| ==> Token(nodes[i])
    ensures var ms := NewMembers(nodePort, nodes, ids, k);
      && DistinctMembers(ms) && (forall i :: 0 <= i < |ms| ==> MemberOk(ms[i]))
      && (forall n: nat, i :: k + |nodes| <= n && 0 <= i < |ms| ==> ids.members(n) != ms[i].id)
  {
  }
}
