/** The node metadata cache: entries live in one map that expires as a whole. */
module NodeCache {
  import opened Text

  const CACHE_TTL := 300

  datatype NodeMetadata = NodeMetadata(internalIp: string, externalIp: string, workerId: string, instanceType: string,
                                       failureDomain: string, region: string, providerId: string)

  const NO_METADATA := NodeMetadata("", "", "", "", "", "", "")

  // ---------------------------------------------------------------- the cache as a value

  datatype Cache = Cache(nodes: map<string, NodeMetadata>, start: int)

  /** One critical section, at the time it runs. Threads interleave in whole operations: each holds the mutex. */
  datatype Op =
    | Get(name: string, at: int)
    | Put(name: string, node: NodeMetadata, at: int)
    | Delete(name: string, at: int)

  predicate Alive(c: Cache, now: int) { now - c.start < CACHE_TTL }

  function Apply(c: Cache, op: Op): Cache {
    match op
    case Get(_, at) => if Alive(c, at) then c else Cache(map[], at)
    case Put(name, node, _) => c.(nodes := c.nodes[name := node])
    case Delete(name, _) => c.(nodes := c.nodes - {name})
  }

  function Hit(c: Cache, name: string, now: int): Option<NodeMetadata> {
    if Alive(c, now) && name in c.nodes then Some(c.nodes[name]) else None
  }

  function ApplyAll(c: Cache, ops: seq<Op>): Cache {
    if ops == [] then c else Apply(ApplyAll(c, ops[..|ops| - 1]), ops[|ops| - 1])
  }

  // ---------------------------------------------------------------- every interleaving

  /** The clock does not run backwards. */
  predicate InOrder(start: int, ops: seq<Op>) {
    && (forall i :: 0 <= i < |ops| ==> start <= ops[i].at)
    && (forall i, j :: 0 <= i < j < |ops| ==> ops[i].at <= ops[j].at)
  }

  /** Operation `j` put the node, and no later one before `i` put or deleted an entry of that name. */
  predicate LatestPut(ops: seq<Op>, i: int, j: int, name: string, node: NodeMetadata) {
    && 0 <= j < i <= |ops| && ops[j].Put? && ops[j].name == name && ops[j].node == node
    && forall m :: j < m < i && !ops[m].Get? ==> ops[m].name != name
  }

  ghost predicate StoredSinceStart(ops: seq<Op>, i: int, c: Cache, name: string) {
    name in c.nodes ==> exists j :: LatestPut(ops, i, j, name, c.nodes[name]) && c.start <= ops[j].at
  }

  lemma {:induction false} EntriesAreLatestPuts(start: int, ops: seq<Op>, i: nat, name: string)
    requires InOrder(start, ops) && i <= |ops|
    ensures var c := ApplyAll(Cache(map[], start), ops[..i]);
      && StoredSinceStart(ops, i, c, name)
      && (forall m :: i <= m < |ops| ==> c.start <= ops[m].at)
    decreases i
  {
    if i == 0 {
    } else {
      assert ops[..i][..i - 1] == ops[..i - 1];
      EntriesAreLatestPuts(start, ops, i - 1, name);
      var before, op := ApplyAll(Cache(map[], start), ops[..i - 1]), ops[i - 1];
      var c := Apply(before, op);
      if name in c.nodes {
        if op.Put? && op.name == name {
          assert LatestPut(ops, i, i - 1, name, c.nodes[name]);
        } else {
          var h := i - 1;
          var j :| LatestPut(ops, h, j, name, before.nodes[name]) && before.start <= ops[j].at;
          assert LatestPut(ops, i, j, name, c.nodes[name]);
        }
      }
    }
  }

  /** Under every interleaving of gets, puts and deletes a hit returns what the latest put of that name stored, not
      deleted since, and stored less than the time to live ago. */
  lemma HitsAreFresh(start: int, ops: seq<Op>, i: nat)
    requires InOrder(start, ops) && i < |ops| && ops[i].Get?
    ensures var hit := Hit(ApplyAll(Cache(map[], start), ops[..i]), ops[i].name, ops[i].at);
      hit.Some? ==> exists j :: LatestPut(ops, i, j, ops[i].name, hit.value) && ops[i].at - ops[j].at < CACHE_TTL
  {
    hide ApplyAll;
    EntriesAreLatestPuts(start, ops, i, ops[i].name);
    var c := ApplyAll(Cache(map[], start), ops[..i]);
    assert StoredSinceStart(ops, i, c, ops[i].name);
  }

  /** The put number `m` is what operation `j` finds: nobody has put or deleted an entry of that name since, and the
      cache has not expired as a whole. */
  predicate Survives(start: int, ops: seq<Op>, j: int, m: int, name: string) {
    && 0 <= m < j <= |ops| && ops[m].Put? && ops[m].name == name
    && (forall g :: m < g < j && !ops[g].Get? ==> ops[g].name != name)
    && (forall g :: m < g < j && ops[g].Get? ==> Alive(ApplyAll(Cache(map[], start), ops[..g]), ops[g].at))
  }

  ghost predicate SomePutSurvives(start: int, ops: seq<Op>, j: int, name: string) {
    exists m :: Survives(start, ops, j, m, name)
  }

  /** One more operation: which puts survive it. */
  lemma SurvivesStep(start: int, ops: seq<Op>, j: nat, name: string)
    requires 0 < j <= |ops|
    ensures var before, op := ApplyAll(Cache(map[], start), ops[..j - 1]), ops[j - 1];
      SomePutSurvives(start, ops, j, name) <==>
        || (op.Put? && op.name == name)
        || (SomePutSurvives(start, ops, j - 1, name) && (if op.Get? then Alive(before, op.at) else op.name != name))
  {
    hide ApplyAll, Alive;
    var h := j - 1;
    if SomePutSurvives(start, ops, j, name) {
      var m :| Survives(start, ops, j, m, name);
      assert m < h ==> Survives(start, ops, h, m, name);
    }
    if SomePutSurvives(start, ops, h, name) {
      var m :| Survives(start, ops, h, m, name);
      assert (if ops[h].Get? then Alive(ApplyAll(Cache(map[], start), ops[..h]), ops[h].at)
        else ops[h].name != name) ==>
        Survives(start, ops, j, m, name);
    }
    if ops[h].Put? && ops[h].name == name {
      assert Survives(start, ops, j, h, name);
    }
  }

  /** An entry is cached exactly if some put of it survives, and then it is what that put has stored. */
  lemma {:induction false} CachedIffPutSurvives(start: int, ops: seq<Op>, j: nat, name: string)
    requires j <= |ops|
    ensures var c := ApplyAll(Cache(map[], start), ops[..j]);
      && (name in c.nodes <==> SomePutSurvives(start, ops, j, name))
      && (forall m :: Survives(start, ops, j, m, name) ==> name in c.nodes && c.nodes[name] == ops[m].node)
    decreases j
  {
    hide ApplyAll, Alive;
    if j == 0 {
      NothingApplied(Cache(map[], start), ops[..0]);
    } else {
      var h, before := j - 1, ApplyAll(Cache(map[], start), ops[..j - 1]);
      assert ops[..j] == ops[..h] + [ops[h]];
      ApplyAppend(Cache(map[], start), ops[..h], ops[h]);
      CachedIffPutSurvives(start, ops, h, name);
      SurvivesStep(start, ops, j, name);
      forall m | Survives(start, ops, j, m, name)
        ensures m < h ==> Survives(start, ops, h, m, name) && before.nodes[name] == ops[m].node
      {
      }
    }
  }

  lemma NothingApplied(c: Cache, ops: seq<Op>)
    requires ops == []
    ensures ApplyAll(c, ops) == c
  {
  }

  /** Under every interleaving a get hits exactly if the cache is alive and some put of that name survives; it returns
      what that put has stored. */
  lemma HitIff(start: int, ops: seq<Op>, i: nat, node: NodeMetadata)
    requires i < |ops| && ops[i].Get?
    ensures var c := ApplyAll(Cache(map[], start), ops[..i]);
      Hit(c, ops[i].name, ops[i].at) == Some(node) <==>
        Alive(c, ops[i].at) && exists m :: Survives(start, ops, i, m, ops[i].name) && ops[m].node == node
  {
    hide ApplyAll;
    CachedIffPutSurvives(start, ops, i, ops[i].name);
  }

  /** Operation `g` is a get that finds the cache expired and starts it anew. */
  predicate Restarts(start: int, ops: seq<Op>, g: int) {
    0 <= g < |ops| && ops[g].Get? && !Alive(ApplyAll(Cache(map[], start), ops[..g]), ops[g].at)
  }

  /** After a restart the cache counts from the time of that get, as long as no get finds it expired again. */
  lemma {:induction false} CountsFromRestart(start: int, ops: seq<Op>, g: nat, j: nat)
    requires Restarts(start, ops, g) && g < j <= |ops|
    requires forall m :: g < m < j && ops[m].Get? ==> ops[m].at - ops[g].at < 300
    ensures ApplyAll(Cache(map[], start), ops[..j]).start == ops[g].at
    decreases j
  {
    var h := j - 1;
    assert ops[..j] == ops[..h] + [ops[h]];
    hide ApplyAll;
    ApplyAppend(Cache(map[], start), ops[..h], ops[h]);
    if h > g {
      CountsFromRestart(start, ops, g, h);
    }
  }

  /** An expired cache lives again: what is put after the get that found it expired is hit for 300 seconds from that
      get, unless it is put again or deleted. */
  lemma RestartedCacheHits(start: int, ops: seq<Op>, g: nat, p: nat, i: nat)
    requires InOrder(start, ops) && g < p < i < |ops| && Restarts(start, ops, g)
    requires ops[p].Put? && ops[i].Get? && ops[i].name == ops[p].name
    requires forall m :: p < m < i && !ops[m].Get? ==> ops[m].name != ops[p].name
    requires ops[i].at < ops[g].at + 300
    ensures Hit(ApplyAll(Cache(map[], start), ops[..i]), ops[i].name, ops[i].at) == Some(ops[p].node)
  {
    hide ApplyAll;
    CountsFromRestart(start, ops, g, i);
    forall m | p < m < i && ops[m].Get? ensures Alive(ApplyAll(Cache(map[], start), ops[..m]), ops[m].at) {
      CountsFromRestart(start, ops, g, m);
    }
    assert Survives(start, ops, i, p, ops[p].name);
    CachedIffPutSurvives(start, ops, i, ops[p].name);
  }

  /** A deletion that follows a miss removes an entry exactly if one of that name was put, by whatever thread and with
      whatever provider ID, after the miss, and survives until then. */
  lemma DeletionAfterMissRemovesIff(start: int, ops: seq<Op>, i: nat, j: nat)
    requires i < j < |ops| && ops[i].Get? && ops[j].Delete? && ops[j].name == ops[i].name
    requires Hit(ApplyAll(Cache(map[], start), ops[..i]), ops[i].name, ops[i].at) == None
    ensures ops[j].name in ApplyAll(Cache(map[], start), ops[..j]).nodes
      <==> exists m :: i < m < j && Survives(start, ops, j, m, ops[i].name)
  {
    hide ApplyAll;
    var name := ops[i].name;
    CachedIffPutSurvives(start, ops, j, name);
    CachedIffPutSurvives(start, ops, i, name);
    forall m | Survives(start, ops, j, m, name) ensures i < m {
      assert m < i ==> Survives(start, ops, i, m, name);
    }
  }

  lemma ApplyAppend(c: Cache, ops: seq<Op>, op: Op)
    ensures ApplyAll(c, ops + [op]) == Apply(ApplyAll(c, ops), op)
  {
    assert (ops + [op])[..|ops|] == ops;
  }

  // ---------------------------------------------------------------- the service

  /** What the API server returns for a node: labels that are set, and the provider ID. */
  datatype KubeNode = KubeNode(labels: map<string, string>, providerId: string)

  const INTERNAL_IP := "ibm-cloud.kubernetes.io/internal-ip"
  const EXTERNAL_IP := "ibm-cloud.kubernetes.io/external-ip"
  const ZONE := "ibm-cloud.kubernetes.io/zone"
  const REGION := "ibm-cloud.kubernetes.io/region"
  const WORKER_ID := "ibm-cloud.kubernetes.io/worker-id"
  const MACHINE_TYPE := "ibm-cloud.kubernetes.io/machine-type"

  function Label(n: KubeNode, key: string): string {
    if key in n.labels then n.labels[key] else ""
  }

  function FromLabels(n: KubeNode): NodeMetadata {
    NodeMetadata(Label(n, INTERNAL_IP), Label(n, EXTERNAL_IP), Label(n, WORKER_ID), Label(n, MACHINE_TYPE),
                 Label(n, ZONE), Label(n, REGION), n.providerId)
  }

  /** A private-only worker has no external address, so that label may be missing. */
  predicate AllLabels(n: KubeNode) {
    INTERNAL_IP in n.labels && WORKER_ID in n.labels && MACHINE_TYPE in n.labels && ZONE in n.labels
      && REGION in n.labels
  }

  /** All labels that a worker has, private-only or not. */
  predicate Complete(labels: map<string, string>) {
    && "ibm-cloud.kubernetes.io/internal-ip" in labels && "ibm-cloud.kubernetes.io/worker-id" in labels
    && "ibm-cloud.kubernetes.io/machine-type" in labels && "ibm-cloud.kubernetes.io/zone" in labels
    && "ibm-cloud.kubernetes.io/region" in labels
  }

  /** Which label fills which field. */
  predicate HasLabels(m: NodeMetadata, labels: map<string, string>)
    requires Complete(labels)
  {
    && m.internalIp == labels["ibm-cloud.kubernetes.io/internal-ip"]
    && m.workerId == labels["ibm-cloud.kubernetes.io/worker-id"]
    && m.instanceType == labels["ibm-cloud.kubernetes.io/machine-type"]
    && m.failureDomain == labels["ibm-cloud.kubernetes.io/zone"]
    && m.region == labels["ibm-cloud.kubernetes.io/region"]
    && (if "ibm-cloud.kubernetes.io/external-ip" in labels then
          m.externalIp == labels["ibm-cloud.kubernetes.io/external-ip"]
        else m.externalIp == "")
  }

  lemma FieldsOfLabels(n: KubeNode)
    ensures AllLabels(n) <==> Complete(n.labels)
    ensures Complete(n.labels) ==> HasLabels(FromLabels(n), n.labels)
  {
  }

  /** The part of a call that has missed up to its deletion: `during` are the operations of other threads while the
      node is fetched. An entry is deleted whenever the node has a provider ID: it is compared with the empty ID of
      the miss, not with a cached one. */
  function UpToDeletion(name: string, getAt: int, n: KubeNode, during: seq<Op>, deletedAt: int): seq<Op> {
    [Get(name, getAt)] + during + (if n.providerId != "" then [Delete(name, deletedAt)] else [])
  }

  /** All operations on the cache from the first to the last of one `GetNodeMetadata`; `between` are those of other
      threads before the result is stored. */
  function CallOps(name: string, getAt: int, hit: bool, fetched: Option<KubeNode>, during: seq<Op>, deletedAt: int,
                   between: seq<Op>, r: Option<NodeMetadata>, putAt: int): seq<Op>
  {
    if hit then [Get(name, getAt)]
    else if fetched.None? then [Get(name, getAt)] + during
    else
      UpToDeletion(name, getAt, fetched.value, during, deletedAt) + between
      + (if r.Some? then [Put(name, r.value, putAt)] else [])
  }

  /** A call that has missed costs other threads an entry exactly if the node has a provider ID and one of them has
      put an entry of that name since the miss, whatever its provider ID, that is still there. */
  lemma CallDeletesOthersEntryIff(start: int, before: seq<Op>, name: string, getAt: int, n: KubeNode, during: seq<Op>,
                                  deletedAt: int)
    requires Hit(ApplyAll(Cache(map[], start), before), name, getAt) == None
    ensures var old' := before + ([Get(name, getAt)] + during);
      var new' := before + UpToDeletion(name, getAt, n, during, deletedAt);
      name in ApplyAll(Cache(map[], start), old').nodes && name !in ApplyAll(Cache(map[], start), new').nodes
      <==> n.providerId != "" && exists m :: |before| < m < |old'| && Survives(start, old', |old'|, m, name)
  {
    hide Survives, ApplyAll;
    var c := Cache(map[], start);
    var ops := before + ([Get(name, getAt)] + during);
    var d := Delete(name, deletedAt);
    ApplyAppend(c, ops, d);
    var all := ops + [d];
    assert all[..|before|] == before && all[|before|] == Get(name, getAt) && all[..|ops|] == ops;
    DeletionAfterMissRemovesIff(start, all, |before|, |ops|);
    forall m ensures Survives(start, all, |ops|, m, name) <==> Survives(start, ops, |ops|, m, name) {
      SurvivesInPrefix(start, ops, d, m, name);
    }
    if n.providerId != "" {
      assert before + UpToDeletion(name, getAt, n, during, deletedAt) == all;
    } else {
      assert before + UpToDeletion(name, getAt, n, during, deletedAt) == ops;
    }
  }

  /** The input: another thread fetches the same node and stores it between the miss and the deletion. */
  lemma SameNodeIsDeleted(name: string, n: KubeNode)
    requires n.providerId != ""
    ensures var during := [Put(name, FromLabels(n), 1)];
      && FromLabels(n).providerId == n.providerId
      && name in ApplyAll(Cache(map[], 0), [Get(name, 0)] + during).nodes
      && name !in ApplyAll(Cache(map[], 0), UpToDeletion(name, 0, n, during, 2)).nodes
  {
    var c, put, d := Cache(map[], 0), Put(name, FromLabels(n), 1), Delete(name, 2);
    ApplyAppend(c, [], Get(name, 0));
    ApplyAppend(c, [Get(name, 0)], put);
    ApplyAppend(c, [Get(name, 0)] + [put], d);
    assert [] + [Get(name, 0)] == [Get(name, 0)];
  }

  lemma SurvivesInPrefix(start: int, ops: seq<Op>, op: Op, m: int, name: string)
    ensures Survives(start, ops + [op], |ops|, m, name) <==> Survives(start, ops, |ops|, m, name)
  {
    hide ApplyAll, Alive;
    var all, c := ops + [op], Cache(map[], start);
    forall g | 0 <= g < |ops|
      ensures all[g] == ops[g] && Alive(ApplyAll(c, all[..g]), all[g].at) == Alive(ApplyAll(c, ops[..g]), ops[g].at)
    {
      assert all[..g] == ops[..g];
    }
    if Survives(start, all, |ops|, m, name) {
      assert forall g :: m < g < |ops| ==> all[g] == ops[g];
    }
  }

  class MetadataService {
    var nodeMap: map<string, NodeMetadata>
    var nodeCacheStart: int
    ghost const began: int
    ghost var ops: seq<Op>

    function Value(): Cache
      reads this
    {
      Cache(nodeMap, nodeCacheStart)
    }

    /** The object is what the operations on it have made it. */
    ghost predicate Valid()
      reads this
    {
      Value() == ApplyAll(Cache(map[], began), ops)
    }

    constructor (now: int)
      ensures Valid() && Value() == Cache(map[], now) && ops == [] && began == now
    {
      nodeMap, nodeCacheStart, began, ops := map[], now, now, [];
    }

    method DeleteCachedNode(name: string, now: int)
      requires Valid()
      modifies this
      ensures Valid() && ops == old(ops) + [Delete(name, now)]
      ensures Value() == Apply(old(Value()), Delete(name, now))
    {
      ApplyAppend(Cache(map[], began), ops, Delete(name, now));
      nodeMap := nodeMap - {name};
      ops := ops + [Delete(name, now)];
    }

    /** A hit is fresh as long as the clock does not run backwards. */
    method GetCachedNode(name: string, now: int) returns (node: NodeMetadata, ok: bool)
      requires Valid()
      modifies this
      ensures Valid() && ops == old(ops) + [Get(name, now)]
      ensures Value() == Apply(old(Value()), Get(name, now))
      ensures (if ok then Some(node) else None) == Hit(old(Value()), name, now)
      ensures if ok then nodeMap == old(nodeMap) else node == NO_METADATA
      ensures ok && InOrder(began, ops) ==>
        exists j :: LatestPut(ops, |old(ops)|, j, name, node) && now - ops[j].at < CACHE_TTL
    {
      ApplyAppend(Cache(map[], began), ops, Get(name, now));
      ghost var before := ops;
      node, ok := NO_METADATA, false;
      if now - nodeCacheStart < CACHE_TTL {
        if name in nodeMap {
          node, ok := nodeMap[name], true;
        }
      } else {
        nodeMap := map[];
        nodeCacheStart := now;
        ok := false;
      }
      ops := ops + [Get(name, now)];
      if ok && InOrder(began, ops) {
        assert ops[..|before|] == before;
        HitsAreFresh(began, ops, |before|);
      }
    }

    method PutCachedNode(name: string, node: NodeMetadata, now: int)
      requires Valid()
      modifies this
      ensures Valid() && ops == old(ops) + [Put(name, node, now)]
      ensures Value() == Apply(old(Value()), Put(name, node, now)) && nodeMap == old(nodeMap)[name := node]
    {
      ApplyAppend(Cache(map[], began), ops, Put(name, node, now));
      nodeMap := nodeMap[name := node];
      ops := ops + [Put(name, node, now)];
    }

    /** Other threads get the mutex any number of times. */
    method OthersRun(others: seq<Op>)
      requires Valid()
      modifies this
      ensures Valid() && ops == old(ops) + others
    {
      for i := 0 to |others|
        invariant Valid() && ops == old(ops) + others[..i]
      {
        match others[i]
        case Get(name, at) =>
          var _, _ := GetCachedNode(name, at);
        case Put(name, node, at) => PutCachedNode(name, node, at);
        case Delete(name, at) => DeleteCachedNode(name, at);
        assert others[..i + 1] == others[..i] + [others[i]];
      }
      assert others[..|others|] == others;
    }

    /** `GetNodeMetadata`, interleaved with other threads: a hit is returned as it is; after a miss the node is built
        from what the API server and, if labels are missing, the VPC say, and it is stored before it is returned. */
    method GetNodeMetadata(name: string, getAt: int, fetched: Option<KubeNode>, during: seq<Op>, deletedAt: int,
                           between: seq<Op>, isVpc: bool, populated: Option<NodeMetadata>, putAt: int)
      returns (r: Option<NodeMetadata>)
      requires Valid()
      modifies this
      ensures Valid()
      ensures var hit := Hit(old(Value()), name, getAt);
        && ops == old(ops) + CallOps(name, getAt, hit.Some?, fetched, during, deletedAt, between, r, putAt)
        && r == (if hit.Some? then hit
                 else if fetched.None? then None
                 else if AllLabels(fetched.value) then Some(FromLabels(fetched.value))
                 else if isVpc then populated
                 else None)
      ensures Hit(old(Value()), name, getAt).Some? ==> nodeMap == old(nodeMap)
      ensures Hit(old(Value()), name, getAt).None? && r.Some? ==> name in nodeMap && nodeMap[name] == r.value
      ensures Hit(old(Value()), name, getAt).None? && fetched.Some? && Complete(fetched.value.labels) ==>
        r.Some? && HasLabels(r.value, fetched.value.labels) && r.value.providerId == fetched.value.providerId
    {
      hide ApplyAll, Apply, LatestPut, InOrder, AllLabels, UpToDeletion;
      ghost var before := ops;
      var node, ok := GetCachedNode(name, getAt);
      if ok {
        return Some(node);
      }
      OthersRun(during);
      if fetched.None? {
        assert ops == before + ([Get(name, getAt)] + during);
        return None;
      }
      var n := fetched.value;
      var newNode := NodeMetadata(Label(n, INTERNAL_IP), Label(n, EXTERNAL_IP), Label(n, WORKER_ID),
                                  Label(n, MACHINE_TYPE), Label(n, ZONE), Label(n, REGION), n.providerId);
      FieldsOfLabels(n);
      if newNode.providerId != "" && newNode.providerId != node.providerId {
        DeleteCachedNode(name, deletedAt);
      }
      UpToDeletionIs(before, ops, name, getAt, n, during, deletedAt);
      OthersRun(between);
      ghost var soFar := UpToDeletion(name, getAt, n, during, deletedAt) + between;
      assert ops == before + soFar;
      if AllLabels(n) {
        PutCachedNode(name, newNode, putAt);
        assert ops == before + (soFar + [Put(name, newNode, putAt)]);
        return Some(newNode);
      } else if isVpc {
        if populated.None? {
          assert soFar + [] == soFar;
          return None;
        }
        PutCachedNode(name, populated.value, putAt);
        assert ops == before + (soFar + [Put(name, populated.value, putAt)]);
        return populated;
      }
      assert soFar + [] == soFar;
      return None;
    }
  }

  lemma UpToDeletionIs(before: seq<Op>, ops: seq<Op>, name: string, getAt: int, n: KubeNode, during: seq<Op>,
                       deletedAt: int)
    requires ops == before + [Get(name, getAt)] + during + if n.providerId != "" then [Delete(name, deletedAt)] else []
    ensures ops == before + UpToDeletion(name, getAt, n, during, deletedAt)
  {
  }
}
