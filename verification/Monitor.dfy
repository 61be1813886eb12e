/** The load balancer monitor, which keeps the last status of each service between its runs, and the stale clean-up. */
module Monitor {
  import opened Text

  const ONLINE_ACTIVE := "online/active"
  const NOT_FOUND := "offline/not_found"
  const NAME_PREFIX := "kube"
  const NAME_LIMIT := 63

  datatype Kind = LoadBalancerService | NodePortService | OtherService

  /** What the monitor reads of a Kubernetes service. */
  datatype Service = Service(uid: string, nameAnnotation: string, kind: Kind)

  /** What the cloud says of a load balancer. */
  datatype Statuses = Statuses(operating: string, provisioning: string)
  {
    function Text(): string { operating + "/" + provisioning }

    /** As all statuses of the cloud are. */
    predicate Plain() { '/' !in operating && '/' !in provisioning }
  }

  datatype VpcLb = VpcLb(id: string, name: string, operatingStatus: string, provisioningStatus: string)
  {
    predicate IsReady() { operatingStatus == "online" && provisioningStatus == "active" }

    function GetStatus(): string { operatingStatus + "/" + provisioningStatus }
  }

  // ---------------------------------------------------------------- names

  function FirstChars(s: string, n: nat): string {
    if |s| > n then s[..n] else s
  }

  function Prefix(clusterId: string): string { NAME_PREFIX + "-" + clusterId + "-" }

  /** `GenerateLoadBalancerName`. */
  function GenerateName(service: Service, clusterId: string): string {
    if service.nameAnnotation != "" then service.nameAnnotation
    else FirstChars(Prefix(clusterId) + Without(service.uid, '-'), NAME_LIMIT)
  }

  /** Two generated names of a cluster are the same exactly if the UIDs agree, dashes aside, in the characters there is
      room for: with room for all of them, UIDs that differ in more than dashes give different names. */
  lemma GeneratedNamesAgreeIff(a: Service, b: Service, clusterId: string)
    requires a.nameAnnotation == "" && b.nameAnnotation == "" && |clusterId| <= 57
    ensures var x, y, room := Without(a.uid, '-'), Without(b.uid, '-'), 57 - |clusterId|;
      && (GenerateName(a, clusterId) == GenerateName(b, clusterId) <==> FirstChars(x, room) == FirstChars(y, room))
      && (|x| <= room && |y| <= room ==> (GenerateName(a, clusterId) == GenerateName(b, clusterId) <==> x == y))
  {
    NameRoom(a, clusterId);
    NameRoom(b, clusterId);
    hide GenerateName;
    var p := "kube-" + clusterId + "-";
    var m, n := GenerateName(a, clusterId), GenerateName(b, clusterId);
    assert m[|p|..] == FirstChars(Without(a.uid, '-'), 57 - |clusterId|);
    assert n[|p|..] == FirstChars(Without(b.uid, '-'), 57 - |clusterId|);
  }

  lemma NameRoom(service: Service, clusterId: string)
    requires service.nameAnnotation == "" && |clusterId| <= 57
    ensures GenerateName(service, clusterId)
         == ("kube-" + clusterId + "-") + FirstChars(Without(service.uid, '-'), 57 - |clusterId|)
  {
    FirstCharsOf(Prefix(clusterId), Without(service.uid, '-'), NAME_LIMIT);
    assert Prefix(clusterId) == "kube-" + clusterId + "-" && |Prefix(clusterId)| == |clusterId| + 6;
    hide Prefix, FirstChars;
  }

  lemma FirstCharsOf(a: string, b: string, n: nat)
    requires |a| <= n
    ensures FirstChars(a + b, n) == a + FirstChars(b, n - |a|)
  {
  }

  /** The name of a load balancer carries the prefix of its own cluster exactly when, without a name annotation, the
      cluster ID leaves room for it, and with one, the annotation happens to. */
  lemma OwnPrefix(service: Service, clusterId: string)
    ensures Prefix(clusterId) <= GenerateName(service, clusterId) <==>
      if service.nameAnnotation == "" then |clusterId| <= 57 else Prefix(clusterId) <= service.nameAnnotation
  {
  }

  /** A service of cluster `other` gives its load balancer a name with the prefix of cluster `mine`. */
  predicate NamedInto(service: Service, mine: string, other: string) {
    if service.nameAnnotation == "" then |mine| <= 57 && mine + "-" <= other else Prefix(mine) <= service.nameAnnotation
  }

  /** The name of a load balancer carries the prefix of another cluster exactly if, without a name annotation, the ID of
      that cluster leaves room for it and, with a dash behind it, begins the ID of its own, and with one, the annotation
      carries it. */
  lemma ForeignPrefix(service: Service, mine: string, other: string)
    requires mine != other
    ensures Prefix(mine) <= GenerateName(service, other) <==> NamedInto(service, mine, other)
  {
    if service.nameAnnotation == "" {
      var uid := Without(service.uid, '-');
      var full, name, p := Prefix(other) + uid, GenerateName(service, other), Prefix(mine);
      assert name <= full && |p| == |mine| + 6;
      if mine + "-" <= other {
        assert p <= full;
      } else {
        assert !(p <= full) by { NoForeignPrefix(mine, other, uid); }
      }
    }
  }

  /** Where the names of two clusters differ. */
  lemma NoForeignPrefix(mine: string, other: string, uid: string)
    requires mine != other && !(mine + "-" <= other) && '-' !in uid
    ensures !(Prefix(mine) <= Prefix(other) + uid)
  {
    var full, p := Prefix(other) + uid, Prefix(mine);
    assert forall k :: 0 <= k < |mine| ==> p[5 + k] == mine[k];
    assert p[5 + |mine|] == '-';
    assert forall k :: 0 <= k < |other| ==> full[5 + k] == other[k];
    assert forall k :: 0 <= k < |uid| ==> full[6 + |other| + k] == uid[k];
    if |mine| < |other| {
      var i :| 0 <= i <= |mine| && (mine + "-")[i] != other[i] by { DifferSomewhere(mine + "-", other[..|mine| + 1]); }
      assert p[5 + i] != full[5 + i];
    } else if |mine| == |other| {
      var i :| 0 <= i < |mine| && mine[i] != other[i] by { DifferSomewhere(mine, other); }
      assert p[5 + i] != full[5 + i];
    } else if 5 + |mine| < |full| {
      assert full[5 + |mine|] == uid[|mine| - |other| - 1];
      assert uid[|mine| - |other| - 1] in uid;
      assert p[5 + |mine|] != full[5 + |mine|];
    }
  }

  lemma DifferSomewhere(a: string, b: string)
    requires |a| == |b| && a != b
    ensures exists i :: 0 <= i < |a| && a[i] != b[i]
  {
  }

  // ---------------------------------------------------------------- gathering and clean-up

  /** The load balancers with the prefix, by name. Of two with one name the later counts. */
  function VpcMap(lbs: seq<VpcLb>, prefix: string): map<string, VpcLb> {
    if lbs == [] then map[]
    else
      var last := lbs[|lbs| - 1];
      var m := VpcMap(lbs[..|lbs| - 1], prefix);
      if prefix <= last.name then m[last.name := last] else m
  }

  /** The services of one kind, by the name of their load balancer. */
  function ServiceMap(services: seq<Service>, kind: Kind, clusterId: string): map<string, Service> {
    if services == [] then map[]
    else
      var last := services[|services| - 1];
      var m := ServiceMap(services[..|services| - 1], kind, clusterId);
      if last.kind == kind then m[GenerateName(last, clusterId) := last] else m
  }

  predicate NamedBy(services: seq<Service>, kind: Kind, clusterId: string, name: string) {
    exists i :: 0 <= i < |services| && services[i].kind == kind && GenerateName(services[i], clusterId) == name
  }

  lemma {:induction false} VpcMapMeans(lbs: seq<VpcLb>, prefix: string)
    ensures forall name :: name in VpcMap(lbs, prefix) ==>
      prefix <= name && VpcMap(lbs, prefix)[name] in lbs && VpcMap(lbs, prefix)[name].name == name
    ensures forall i :: 0 <= i < |lbs| && prefix <= lbs[i].name ==> lbs[i].name in VpcMap(lbs, prefix)
    decreases |lbs|
  {
    if lbs == [] {
    } else {
      var front := lbs[..|lbs| - 1];
      assert lbs == front + [lbs[|lbs| - 1]];
      VpcMapMeans(front, prefix);
    }
  }

  lemma {:induction false} ServiceMapMeans(services: seq<Service>, kind: Kind, clusterId: string)
    ensures forall name :: name in ServiceMap(services, kind, clusterId) <==> NamedBy(services, kind, clusterId, name)
    ensures forall name :: name in ServiceMap(services, kind, clusterId) ==>
      ServiceMap(services, kind, clusterId)[name] in services
      && GenerateName(ServiceMap(services, kind, clusterId)[name], clusterId) == name
    decreases |services|
  {
    hide GenerateName;
    if services == [] {
    } else {
      var front, last := services[..|services| - 1], services[|services| - 1];
      assert services == front + [last];
      ServiceMapMeans(front, kind, clusterId);
      forall name
        ensures NamedBy(services, kind, clusterId, name) <==>
          NamedBy(front, kind, clusterId, name) || (last.kind == kind && GenerateName(last, clusterId) == name)
      {
        if NamedBy(front, kind, clusterId, name) {
          var i :| 0 <= i < |front| && front[i].kind == kind && GenerateName(front[i], clusterId) == name;
          assert services[i] == front[i];
        }
        assert services[|services| - 1] == last;
      }
    }
  }

  /** No later load balancer has the name. */
  predicate LastOfName(lbs: seq<VpcLb>, i: int) {
    0 <= i < |lbs| && forall j :: i < j < |lbs| ==> lbs[j].name != lbs[i].name
  }

  /** No later service of the kind has the load balancer name. */
  predicate LastNamedBy(services: seq<Service>, i: int, kind: Kind, clusterId: string) {
    && 0 <= i < |services| && services[i].kind == kind
    && forall j :: i < j < |services| && services[j].kind == kind ==>
      GenerateName(services[j], clusterId) != GenerateName(services[i], clusterId)
  }

  /** Where names repeat, the last load balancer counts. */
  lemma {:induction false} LastLbCounts(lbs: seq<VpcLb>, prefix: string)
    ensures forall i :: LastOfName(lbs, i) && prefix <= lbs[i].name ==>
      lbs[i].name in VpcMap(lbs, prefix) && VpcMap(lbs, prefix)[lbs[i].name] == lbs[i]
    decreases |lbs|
  {
    if lbs == [] {
    } else {
      var front := lbs[..|lbs| - 1];
      LastLbCounts(front, prefix);
      assert forall i :: LastOfName(lbs, i) && i < |front| ==> LastOfName(front, i) && lbs[i] == front[i];
    }
  }

  /** Where names repeat, the last service counts. */
  lemma {:induction false} LastServiceCounts(services: seq<Service>, kind: Kind, clusterId: string)
    ensures forall i :: LastNamedBy(services, i, kind, clusterId) ==>
      && GenerateName(services[i], clusterId) in ServiceMap(services, kind, clusterId)
      && ServiceMap(services, kind, clusterId)[GenerateName(services[i], clusterId)] == services[i]
    decreases |services|
  {
    hide GenerateName;
    if services == [] {
    } else {
      var front := services[..|services| - 1];
      LastServiceCounts(front, kind, clusterId);
      assert forall i :: LastNamedBy(services, i, kind, clusterId) && i < |front| ==>
        LastNamedBy(front, i, kind, clusterId) && services[i] == front[i];
    }
  }

  /** A load balancer the clean-up asks to delete. */
  predicate Stale(lb: VpcLb, lbs: seq<VpcLb>, services: seq<Service>, clusterId: string) {
    && lb.name in VpcMap(lbs, Prefix(clusterId)) && VpcMap(lbs, Prefix(clusterId))[lb.name] == lb
    && lb.IsReady()
    && lb.name !in ServiceMap(services, LoadBalancerService, clusterId)
    && lb.name !in ServiceMap(services, NodePortService, clusterId)
  }

  /** No two load balancers of the account share a name. */
  predicate DistinctLbNames(lbs: seq<VpcLb>) {
    forall i, j :: 0 <= i < j < |lbs| ==> lbs[i].name != lbs[j].name
  }

  /** What the clean-up deletes: exactly the listed load balancers that are ready, carry the prefix of the cluster, and
      are named by no load balancer or node port service of the cluster. */
  lemma StaleIff(lb: VpcLb, lbs: seq<VpcLb>, services: seq<Service>, clusterId: string)
    requires DistinctLbNames(lbs)
    ensures Stale(lb, lbs, services, clusterId) <==>
      && lb in lbs && lb.operatingStatus == "online" && lb.provisioningStatus == "active"
      && Prefix(clusterId) <= lb.name
      && !NamedBy(services, LoadBalancerService, clusterId, lb.name)
      && !NamedBy(services, NodePortService, clusterId, lb.name)
  {
    hide GenerateName, Prefix;
    VpcMapMeans(lbs, Prefix(clusterId));
    ServiceMapMeans(services, LoadBalancerService, clusterId);
    ServiceMapMeans(services, NodePortService, clusterId);
  }

  /** Isolation of the clean-up: a cluster deletes the load balancer of a service of another cluster exactly if it is
      listed and ready, no service of its own has that name, and the name was given into the own prefix. */
  lemma CleanUpIsIsolated(lb: VpcLb, lbs: seq<VpcLb>, services: seq<Service>, mine: string, foreign: Service,
                          other: string)
    requires DistinctLbNames(lbs) && mine != other && lb.name == GenerateName(foreign, other)
    ensures Stale(lb, lbs, services, mine) <==>
      && lb in lbs && lb.operatingStatus == "online" && lb.provisioningStatus == "active"
      && NamedInto(foreign, mine, other)
      && !NamedBy(services, LoadBalancerService, mine, lb.name) && !NamedBy(services, NodePortService, mine, lb.name)
  {
    hide GenerateName, Prefix, Stale, NamedInto, NamedBy;
    StaleIff(lb, lbs, services, mine);
    ForeignPrefix(foreign, mine, other);
  }

  /** With dashes in cluster IDs, a cluster deletes the load balancer of another one. */
  lemma DashedClusterIsNotIsolated(foreign: Service, lb: VpcLb)
    requires foreign.nameAnnotation == ""
    requires lb.operatingStatus == "online" && lb.provisioningStatus == "active"
    requires lb.name == GenerateName(foreign, "a-b")
    ensures Stale(lb, [lb], [], "a")
  {
    hide GenerateName, Stale;
    assert "a" + "-" <= "a-b";
    CleanUpIsIsolated(lb, [lb], [], "a", foreign, "a-b");
  }

  /** So it does without any dash in an ID, if a service of the other cluster asks for a name with the prefix. */
  lemma AnnotatedNameIsNotIsolated(uid: string, lb: VpcLb)
    requires lb.operatingStatus == "online" && lb.provisioningStatus == "active" && lb.name == "kube-a-x"
    ensures lb.name == GenerateName(Service(uid, "kube-a-x", LoadBalancerService), "b")
    ensures Stale(lb, [lb], [], "a")
  {
    hide Stale;
    var foreign := Service(uid, "kube-a-x", LoadBalancerService);
    assert Prefix("a") == "kube-a-" && "kube-a-x" == "kube-a-" + "x";
    CleanUpIsIsolated(lb, [lb], [], "a", foreign, "b");
  }

  /** The monitor finds the listed load balancer of a service exactly if its name carries the prefix of the cluster. */
  lemma OwnIsFoundIff(service: Service, lb: VpcLb, lbs: seq<VpcLb>, clusterId: string)
    requires DistinctLbNames(lbs) && lb in lbs && lb.name == GenerateName(service, clusterId)
    ensures lb.name in VpcMap(lbs, Prefix(clusterId)) <==>
      if service.nameAnnotation == "" then |clusterId| <= 57 else Prefix(clusterId) <= service.nameAnnotation
  {
    hide GenerateName, Prefix;
    VpcMapMeans(lbs, Prefix(clusterId));
    OwnPrefix(service, clusterId);
  }

  /** A status always holds a slash, so it is never taken for the empty string of a service not seen yet. */
  lemma StatusNotEmpty(lb: VpcLb)
    ensures lb.GetStatus() != ""
  {
  }

  /** Two plain pairs of statuses are told apart by their text. */
  lemma TextInjective(a: Statuses, b: Statuses)
    requires a.Plain() && b.Plain() && a.Text() == b.Text()
    ensures a == b
  {
    var s, m, n := a.Text(), |a.operating|, |b.operating|;
    FirstSlash(a);
    FirstSlash(b);
    assert m == n;
    assert s[..m] == a.operating && s[..n] == b.operating;
    assert s[m + 1..] == a.provisioning && s[n + 1..] == b.provisioning;
  }

  lemma FirstSlash(a: Statuses)
    requires a.Plain()
    ensures var s, m := a.Text(), |a.operating|;
      |s| > m && s[m] == '/' && forall i :: 0 <= i < m ==> s[i] != '/'
  {
    assert forall i :: 0 <= i < |a.operating| ==> a.Text()[i] == a.operating[i] && a.operating[i] in a.operating;
  }

  lemma OnlineActiveIffStatuses(s: Statuses)
    ensures s == Statuses("online", "active") ==> s.Text() == "online/active"
    ensures s.Plain() && s.Text() == "online/active" ==> s == Statuses("online", "active")
  {
    var t := Statuses("online", "active");
    assert t.Plain() && t.Text() == "online/active";
    if s.Plain() && s.Text() == t.Text() {
      TextInjective(s, t);
    }
  }

  /** A load balancer has the status online/active exactly if it is ready. */
  lemma OnlineActiveIff(lb: VpcLb)
    requires '/' !in lb.operatingStatus && '/' !in lb.provisioningStatus
    ensures lb.GetStatus() == "online/active" <==> lb.operatingStatus == "online" && lb.provisioningStatus == "active"
    ensures lb.IsReady() <==> lb.GetStatus() == ONLINE_ACTIVE
  {
    var s := Statuses(lb.operatingStatus, lb.provisioningStatus);
    OnlineActiveIffStatuses(s);
    assert lb.GetStatus() == s.Text();
  }

  // ---------------------------------------------------------------- one run of the monitor

  datatype Event = Normal(uid: string, status: string) | Warning(uid: string, status: string)

  /** The status of a service's load balancer in one run. */
  function StatusOf(vpcMap: map<string, VpcLb>, name: string): (s: string)
    ensures s == StatusesOf(vpcMap, name).Text()
  {
    if name in vpcMap then vpcMap[name].GetStatus() else NOT_FOUND
  }

  /** The two statuses behind it: a load balancer that is not found counts as offline and not_found. */
  function StatusesOf(vpcMap: map<string, VpcLb>, name: string): Statuses {
    if name in vpcMap then Statuses(vpcMap[name].operatingStatus, vpcMap[name].provisioningStatus)
    else Statuses("offline", "not_found")
  }

  /** A healthy load balancer with an annotated name outside the prefix is taken for missing. */
  lemma AnnotatedServiceIsNotFound(uid: string, lb: VpcLb)
    requires lb.operatingStatus == "online" && lb.provisioningStatus == "active" && lb.name == "my-lb"
    ensures var service := Service(uid, "my-lb", LoadBalancerService);
      && lb.name in ServiceMap([service], LoadBalancerService, "a")
      && StatusOf(VpcMap([lb], Prefix("a")), lb.name) == NOT_FOUND
  {
    var service := Service(uid, "my-lb", LoadBalancerService);
    assert !(Prefix("a") <= "my-lb") by { assert Prefix("a")[0] == 'k'; }
    hide VpcMap, Prefix, ServiceMap;
    OwnIsFoundIff(service, lb, [lb], "a");
    ServiceMapMeans([service], LoadBalancerService, "a");
    assert [service][0] == service && NamedBy([service], LoadBalancerService, "a", lb.name);
  }

  predicate DistinctUids(lbMap: map<string, Service>) {
    forall a, b :: a in lbMap && b in lbMap && lbMap[a].uid == lbMap[b].uid ==> a == b
  }

  /** What one run sees: the status of every load balancer service, by UID. */
  function Seen(lbMap: map<string, Service>, vpcMap: map<string, VpcLb>): map<string, string>
    requires DistinctUids(lbMap)
  {
    map name | name in lbMap :: lbMap[name].uid := StatusOf(vpcMap, name)
  }

  /** The two statuses of every load balancer service in one run, by UID. */
  function Sighted(lbMap: map<string, Service>, vpcMap: map<string, VpcLb>): map<string, Statuses>
    requires DistinctUids(lbMap)
  {
    map name | name in lbMap :: lbMap[name].uid := StatusesOf(vpcMap, name)
  }

  /** What was seen is the text of what was sighted. */
  predicate TextsOf(seen: map<string, string>, sighted: map<string, Statuses>) {
    seen.Keys == sighted.Keys && forall uid :: uid in seen ==> seen[uid] == sighted[uid].Text()
  }

  lemma SeenIsTextOfSighted(lbMap: map<string, Service>, vpcMap: map<string, VpcLb>)
    requires DistinctUids(lbMap)
    ensures TextsOf(Seen(lbMap, vpcMap), Sighted(lbMap, vpcMap))
  {
    hide StatusOf, StatusesOf;
  }

  function Stored(status: map<string, string>, uid: string): string {
    if uid in status then status[uid] else ""
  }

  /** A normal event: the load balancer has become online/active. */
  predicate TurnsOnline(status: map<string, string>, seen: map<string, string>, uid: string) {
    uid in seen && seen[uid] == ONLINE_ACTIVE && Stored(status, uid) != ONLINE_ACTIVE
  }

  /** A warning: the load balancer still has the same status, which is not online/active. */
  predicate StaysBad(status: map<string, string>, seen: map<string, string>, uid: string) {
    uid in seen && seen[uid] != ONLINE_ACTIVE && Stored(status, uid) == seen[uid]
  }

  predicate EventDue(status: map<string, string>, seen: map<string, string>, e: Event) {
    match e
    case Normal(uid, s) => TurnsOnline(status, seen, uid) && s == ONLINE_ACTIVE
    case Warning(uid, s) => StaysBad(status, seen, uid) && s == seen[uid]
  }

  function Restrict(lbMap: map<string, Service>, names: set<string>): map<string, Service> {
    map name | name in lbMap && name in names :: lbMap[name]
  }

  predicate DistinctServices(services: seq<Service>) {
    forall i, j :: 0 <= i < j < |services| ==> services[i].uid != services[j].uid
  }

  /** Services with distinct UIDs stay distinct when they are mapped by name. */
  lemma UidsOfServices(services: seq<Service>, kind: Kind, clusterId: string)
    requires DistinctServices(services)
    ensures DistinctUids(ServiceMap(services, kind, clusterId))
  {
    hide ServiceMap, GenerateName, NamedBy;
    var m := ServiceMap(services, kind, clusterId);
    ServiceMapMeans(services, kind, clusterId);
    forall a, b | a in m && b in m && m[a].uid == m[b].uid ensures a == b {
      var i :| 0 <= i < |services| && services[i] == m[a];
      var j :| 0 <= j < |services| && services[j] == m[b];
    }
  }

  /** What one run sees: the status of the load balancer of every load balancer service, by UID. */
  function SeenInRun(services: seq<Service>, lbs: seq<VpcLb>, clusterId: string): map<string, string>
    requires DistinctServices(services)
  {
    UidsOfServices(services, LoadBalancerService, clusterId);
    Seen(ServiceMap(services, LoadBalancerService, clusterId), VpcMap(lbs, Prefix(clusterId)))
  }

  /** What one run sights, by UID. */
  function SightedInRun(services: seq<Service>, lbs: seq<VpcLb>, clusterId: string): map<string, Statuses>
    requires DistinctServices(services)
  {
    UidsOfServices(services, LoadBalancerService, clusterId);
    Sighted(ServiceMap(services, LoadBalancerService, clusterId), VpcMap(lbs, Prefix(clusterId)))
  }

  /** A load balancer service whose name no other one has is sighted with the statuses of the listed load balancer of
      that name, if the name carries the prefix, and as not found otherwise. */
  lemma SightedMeans(services: seq<Service>, lbs: seq<VpcLb>, clusterId: string, service: Service)
    requires DistinctServices(services) && DistinctLbNames(lbs)
    requires service in services && service.kind == LoadBalancerService
    requires forall other :: other in services && other.kind == LoadBalancerService && other != service ==>
      GenerateName(other, clusterId) != GenerateName(service, clusterId)
    ensures var name, sighted := GenerateName(service, clusterId), SightedInRun(services, lbs, clusterId);
      && service.uid in sighted
      && (forall lb :: lb in lbs && lb.name == name && Prefix(clusterId) <= name ==>
            sighted[service.uid] == Statuses(lb.operatingStatus, lb.provisioningStatus))
      && ((!(Prefix(clusterId) <= name) || forall lb :: lb in lbs ==> lb.name != name) ==>
            sighted[service.uid] == Statuses("offline", "not_found"))
  {
    hide GenerateName, Prefix, VpcMap, ServiceMap;
    var name, prefix := GenerateName(service, clusterId), Prefix(clusterId);
    var lbMap, vpcMap := ServiceMap(services, LoadBalancerService, clusterId), VpcMap(lbs, prefix);
    UidsOfServices(services, LoadBalancerService, clusterId);
    ServiceMapMeans(services, LoadBalancerService, clusterId);
    VpcMapMeans(lbs, prefix);
    var i :| 0 <= i < |services| && services[i] == service;
    assert NamedBy(services, LoadBalancerService, clusterId, name);
    ServiceMapKinds(services, LoadBalancerService, clusterId);
    assert lbMap[name] == service;
  }

  lemma {:induction false} ServiceMapKinds(services: seq<Service>, kind: Kind, clusterId: string)
    ensures forall name :: name in ServiceMap(services, kind, clusterId) ==>
      ServiceMap(services, kind, clusterId)[name].kind == kind
    decreases |services|
  {
    hide GenerateName;
    if services == [] {
    } else {
      ServiceMapKinds(services[..|services| - 1], kind, clusterId);
    }
  }

  lemma NotFoundIsOffline()
    ensures NOT_FOUND != ONLINE_ACTIVE
  {
  }

  class LoadBalancerMonitor {
    const clusterId: string
    var status: map<string, string>
    var events: seq<Event>
    var deleted: set<VpcLb>
    ghost var history: seq<map<string, string>>
    ghost var sightings: seq<map<string, Statuses>>
    ghost var recorded: seq<seq<Event>>

    /** The object is what its runs have made it: `history` holds what each run has seen, `sightings` the two statuses
        behind it, `recorded` the events of each. */
    ghost predicate Valid()
      reads this
    {
      && status == StoredAfter(history) && StatusesOk(history) && events == Flat(recorded) && |recorded| == |history|
      && (forall i :: 0 <= i < |history| ==> AreDue(recorded[i], StoredAfter(history[..i]), history[i]))
      && |sightings| == |history| && forall i :: 0 <= i < |history| ==> TextsOf(history[i], sightings[i])
    }

    constructor (clusterId: string)
      ensures this.clusterId == clusterId && status == map[] && events == [] && deleted == {}
      ensures Valid() && history == []
    {
      this.clusterId, status, events, deleted := clusterId, map[], [], {};
      history, sightings, recorded := [], [], [];
    }

    /** `GatherLoadBalancers`: asks for the deletion of exactly the stale load balancers. */
    method GatherLoadBalancers(lbs: seq<VpcLb>, services: seq<Service>)
      returns (lbMap: map<string, Service>, vpcMap: map<string, VpcLb>)
      modifies this`deleted
      ensures vpcMap == VpcMap(lbs, Prefix(clusterId)) && lbMap == ServiceMap(services, LoadBalancerService, clusterId)
      ensures forall lb :: lb in deleted <==> lb in old(deleted) || Stale(lb, lbs, services, clusterId)
    {
      hide GenerateName;
      vpcMap := map[];
      var prefix := Prefix(clusterId);
      for i := 0 to |lbs|
        invariant vpcMap == VpcMap(lbs[..i], prefix)
      {
        assert lbs[..i + 1][..i] == lbs[..i];
        if prefix <= lbs[i].name {
          vpcMap := vpcMap[lbs[i].name := lbs[i]];
        }
      }
      assert lbs[..|lbs|] == lbs;
      lbMap := map[];
      var npMap: map<string, Service> := map[];
      for i := 0 to |services|
        invariant lbMap == ServiceMap(services[..i], LoadBalancerService, clusterId)
        invariant npMap == ServiceMap(services[..i], NodePortService, clusterId)
      {
        assert services[..i + 1][..i] == services[..i];
        match services[i].kind
        case LoadBalancerService => lbMap := lbMap[GenerateName(services[i], clusterId) := services[i]];
        case NodePortService => npMap := npMap[GenerateName(services[i], clusterId) := services[i]];
        case OtherService =>
      }
      assert services[..|services|] == services;
      VpcMapMeans(lbs, prefix);
      hide VpcMap, ServiceMap;
      var names := vpcMap.Keys;
      while names != {}
        invariant names <= vpcMap.Keys
        invariant forall lb :: lb in deleted <==>
          lb in old(deleted) || (Stale(lb, lbs, services, clusterId) && lb.name !in names)
        decreases names
      {
        var name :| name in names;
        var lb := vpcMap[name];
        if lb.IsReady() && name !in lbMap && name !in npMap {
          deleted := deleted + {lb};
        }
        names := names - {name};
      }
    }

    /** `MonitorLoadBalancers` after gathering, in whatever order the map is walked: the stored status of every service
        seen is the one seen, all others stay, and each event that is due is recorded once. */
    method MonitorLoadBalancers(lbMap: map<string, Service>, vpcMap: map<string, VpcLb>)
      requires Valid() && DistinctUids(lbMap)
      modifies this`status, this`events, this`history, this`sightings, this`recorded
      ensures Valid() && history == old(history) + [Seen(lbMap, vpcMap)]
      ensures sightings == old(sightings) + [Sighted(lbMap, vpcMap)]
      ensures status == old(status) + Seen(lbMap, vpcMap)
      ensures |recorded| == |old(recorded)| + 1 && recorded[..|old(recorded)|] == old(recorded)
      ensures events == old(events) + recorded[|old(recorded)|]
      ensures forall e :: e in recorded[|old(recorded)|] <==> EventDue(old(status), Seen(lbMap, vpcMap), e)
      ensures forall i, j :: 0 <= i < j < |recorded[|old(recorded)|]| ==>
        recorded[|old(recorded)|][i].uid != recorded[|old(recorded)|][j].uid
    {
      hide Seen, Sighted, EventDue, Restrict, DistinctUids, EventsFor, Stored, StatusOf, StoredAfter, Flat, AreDue,
           StatusesOk, TextsOf;
      ghost var before, past, rounds := events, history, recorded;
      var names := lbMap.Keys;
      ghost var done: map<string, Service> := map[];
      ghost var latest: seq<Event> := [];
      NothingSeen(lbMap, vpcMap, status);
      while names != {}
        invariant names <= lbMap.Keys && done == Restrict(lbMap, lbMap.Keys - names) && DistinctUids(done)
        invariant status == old(status) + Seen(done, vpcMap)
        invariant events == before + latest && AreDue(latest, old(status), Seen(done, vpcMap))
        invariant history == past && recorded == rounds && sightings == old(sightings)
        decreases names
      {
        var name :| name in names;
        ghost var uid := lbMap[name].uid;
        SeenStep(lbMap, vpcMap, names, name, done);
        ghost var next := done[name := lbMap[name]];
        StoredUnseen(old(status), Seen(done, vpcMap), uid, StatusOf(vpcMap, name));
        RecordedStep(old(status), Seen(done, vpcMap), Seen(next, vpcMap), uid, StatusOf(vpcMap, name), latest);
        latest := latest + EventsFor(uid, Stored(status, uid), StatusOf(vpcMap, name));
        CheckLoadBalancer(lbMap[name], name, vpcMap);
        done := next;
        names := names - {name};
      }
      EverythingSeen(lbMap, done);
      DueEvents(latest, old(status), Seen(lbMap, vpcMap));
      SeenIsTextOfSighted(lbMap, vpcMap);
      history, recorded := past + [Seen(lbMap, vpcMap)], rounds + [latest];
      sightings := sightings + [Sighted(lbMap, vpcMap)];
      OneMoreRun(past, rounds, Seen(lbMap, vpcMap), latest);
      SeenStatusesOk(lbMap, vpcMap, past);
    }

    /** One run of the monitor from the services and the load balancers of the account; it does nothing without a list
        of services, or when the load balancers cannot be listed. */
    method Monitor(services: Option<seq<Service>>, listed: Option<seq<VpcLb>>)
      requires Valid() && (services.Some? ==> DistinctServices(services.value))
      modifies this
      ensures Valid()
      ensures services.None? || listed.None? ==> unchanged(this)
      ensures services.Some? && listed.Some? ==>
        && history == old(history) + [SeenInRun(services.value, listed.value, clusterId)]
        && sightings == old(sightings) + [SightedInRun(services.value, listed.value, clusterId)]
        && recorded[..|old(recorded)|] == old(recorded)
      ensures services.Some? && listed.Some? ==>
        forall lb :: lb in deleted <==> lb in old(deleted) || Stale(lb, listed.value, services.value, clusterId)
    {
      if services.None? || listed.None? {
        return;
      }
      UidsOfServices(services.value, LoadBalancerService, clusterId);
      var lbMap, vpcMap := GatherLoadBalancers(listed.value, services.value);
      MonitorLoadBalancers(lbMap, vpcMap);
    }

    /** The body of the loop, for one service. */
    method CheckLoadBalancer(service: Service, lbName: string, vpcMap: map<string, VpcLb>)
      modifies this`status, this`events
      ensures status == old(status)[service.uid := StatusOf(vpcMap, lbName)]
      ensures events == old(events) + EventsFor(service.uid, Stored(old(status), service.uid), StatusOf(vpcMap, lbName))
      ensures var s := StatusesOf(vpcMap, lbName);
        && status[service.uid] == s.operating + "/" + s.provisioning
        && (s.Plain() ==>
              (|events| > |old(events)| && events[|old(events)|].Normal? <==>
                s == Statuses("online", "active") && Stored(old(status), service.uid) != "online/active"))
    {
      NotFoundIsOffline();
      OnlineActiveIffStatuses(StatusesOf(vpcMap, lbName));
      var oldStatus := if service.uid in status then status[service.uid] else "";
      if lbName in vpcMap {
        var newStatus := vpcMap[lbName].GetStatus();
        status := status[service.uid := newStatus];
        if newStatus == ONLINE_ACTIVE {
          if oldStatus != ONLINE_ACTIVE {
            events := events + [Normal(service.uid, newStatus)];
          }
          return;
        }
        if oldStatus == newStatus {
          events := events + [Warning(service.uid, newStatus)];
        }
        return;
      }
      var newStatus := NOT_FOUND;
      status := status[service.uid := newStatus];
      if oldStatus == newStatus {
        events := events + [Warning(service.uid, newStatus)];
      }
    }
  }

  function EventsFor(uid: string, oldStatus: string, newStatus: string): seq<Event> {
    if newStatus == ONLINE_ACTIVE && oldStatus != ONLINE_ACTIVE then [Normal(uid, newStatus)]
    else if newStatus != ONLINE_ACTIVE && oldStatus == newStatus then [Warning(uid, newStatus)]
    else []
  }

  /** Exactly the events that are due, one for a service at most. */
  ghost predicate AreDue(events: seq<Event>, status: map<string, string>, seen: map<string, string>) {
    && (forall e :: e in events <==> EventDue(status, seen, e))
    && (forall i, j :: 0 <= i < j < |events| ==> events[i].uid != events[j].uid)
  }

  lemma DueEvents(events: seq<Event>, status: map<string, string>, seen: map<string, string>)
    requires AreDue(events, status, seen)
    ensures forall e :: e in events <==> EventDue(status, seen, e)
    ensures forall i, j :: 0 <= i < j < |events| ==> events[i].uid != events[j].uid
  {
  }

  lemma NothingSeen(lbMap: map<string, Service>, vpcMap: map<string, VpcLb>, status: map<string, string>)
    requires DistinctUids(lbMap)
    ensures map[] == Restrict(lbMap, lbMap.Keys - lbMap.Keys) && DistinctUids(map[])
    ensures Seen(map[], vpcMap) == map[] && status + map[] == status && AreDue([], status, map[])
  {
  }

  lemma EverythingSeen(lbMap: map<string, Service>, done: map<string, Service>)
    requires done == Restrict(lbMap, lbMap.Keys - {})
    ensures done == lbMap
  {
  }

  lemma StoredUnseen(status: map<string, string>, seen: map<string, string>, uid: string, s: string)
    requires uid !in seen
    ensures Stored(status + seen, uid) == Stored(status, uid)
    ensures (status + seen)[uid := s] == status + seen[uid := s]
  {
  }

  lemma RestrictStep(lbMap: map<string, Service>, names: set<string>, name: string, done: map<string, Service>)
    requires DistinctUids(lbMap) && names <= lbMap.Keys && name in names && done == Restrict(lbMap, lbMap.Keys - names)
    ensures var next := done[name := lbMap[name]];
      && next == Restrict(lbMap, lbMap.Keys - (names - {name})) && DistinctUids(done) && DistinctUids(next)
      && (forall n :: n in done ==> n != name && done[n].uid != lbMap[name].uid)
  {
  }

  lemma SeenStep(lbMap: map<string, Service>, vpcMap: map<string, VpcLb>, names: set<string>, name: string,
                 done: map<string, Service>)
    requires DistinctUids(lbMap) && names <= lbMap.Keys && name in names && done == Restrict(lbMap, lbMap.Keys - names)
    ensures var next := done[name := lbMap[name]];
      && next == Restrict(lbMap, lbMap.Keys - (names - {name})) && DistinctUids(done) && DistinctUids(next)
      && lbMap[name].uid !in Seen(done, vpcMap)
      && Seen(next, vpcMap) == Seen(done, vpcMap)[lbMap[name].uid := StatusOf(vpcMap, name)]
  {
    hide Seen, StatusOf, Restrict, DistinctUids;
    RestrictStep(lbMap, names, name, done);
    SeenOfOneMore(done, vpcMap, name, lbMap[name]);
  }

  lemma SeenOfOneMore(done: map<string, Service>, vpcMap: map<string, VpcLb>, name: string, service: Service)
    requires var next := done[name := service]; DistinctUids(done) && DistinctUids(next)
    requires forall n :: n in done ==> n != name && done[n].uid != service.uid
    ensures service.uid !in Seen(done, vpcMap)
    ensures Seen(done[name := service], vpcMap) == Seen(done, vpcMap)[service.uid := StatusOf(vpcMap, name)]
  {
    hide StatusOf, Seen, DistinctUids;
    var next := done[name := service];
    SeenMeans(done, vpcMap);
    SeenMeans(next, vpcMap);
    var a, b := Seen(next, vpcMap), Seen(done, vpcMap)[service.uid := StatusOf(vpcMap, name)];
    forall uid ensures uid in a <==> uid in b {
      if uid in b && uid != service.uid {
        var n :| n in done && done[n].uid == uid;
        assert n in next && next[n].uid == uid;
      }
      assert name in next;
    }
  }

  lemma SeenMeans(lbMap: map<string, Service>, vpcMap: map<string, VpcLb>)
    requires DistinctUids(lbMap)
    ensures forall uid :: uid in Seen(lbMap, vpcMap) <==> exists n :: n in lbMap && lbMap[n].uid == uid
    ensures forall n :: n in lbMap ==>
      lbMap[n].uid in Seen(lbMap, vpcMap) && Seen(lbMap, vpcMap)[lbMap[n].uid] == StatusOf(vpcMap, n)
  {
  }

  /** One more service seen: its events are the only new ones that are due. */
  lemma RecordedStep(status: map<string, string>, seen: map<string, string>, next: map<string, string>, uid: string,
                     s: string, events: seq<Event>)
    requires uid !in seen && next == seen[uid := s] && AreDue(events, status, seen)
    ensures AreDue(events + EventsFor(uid, Stored(status, uid), s), status, next)
  {
    forall e: Event
      ensures EventDue(status, next, e) <==> EventDue(status, seen, e) || e in EventsFor(uid, Stored(status, uid), s)
    {
    }
    forall e | e in events ensures e.uid != uid {
      assert EventDue(status, seen, e);
    }
    assert forall i :: 0 <= i < |events| ==> events[i] in events;
  }

  function Flat(rounds: seq<seq<Event>>): seq<Event> {
    if rounds == [] then [] else Flat(rounds[..|rounds| - 1]) + rounds[|rounds| - 1]
  }

  /** No status seen is the empty string. */
  predicate StatusesOk(history: seq<map<string, string>>) {
    forall i, uid :: 0 <= i < |history| && uid in history[i] ==> history[i][uid] != ""
  }

  lemma SeenStatusesOk(lbMap: map<string, Service>, vpcMap: map<string, VpcLb>, history: seq<map<string, string>>)
    requires DistinctUids(lbMap) && StatusesOk(history)
    ensures StatusesOk(history + [Seen(lbMap, vpcMap)])
  {
    hide Seen, DistinctUids;
    SeenMeans(lbMap, vpcMap);
    forall uid | uid in Seen(lbMap, vpcMap) ensures Seen(lbMap, vpcMap)[uid] != "" {
      var n :| n in lbMap && lbMap[n].uid == uid;
      if n in vpcMap {
        StatusNotEmpty(vpcMap[n]);
      }
    }
  }

  lemma OneMoreRun(history: seq<map<string, string>>, rounds: seq<seq<Event>>, seen: map<string, string>,
                   latest: seq<Event>)
    requires |rounds| == |history|
    requires forall i :: 0 <= i < |history| ==> AreDue(rounds[i], StoredAfter(history[..i]), history[i])
    requires AreDue(latest, StoredAfter(history), seen)
    ensures StoredAfter(history + [seen]) == StoredAfter(history) + seen
      && Flat(rounds + [latest]) == Flat(rounds) + latest
    ensures forall i :: 0 <= i <= |history| ==>
      AreDue((rounds + [latest])[i], StoredAfter((history + [seen])[..i]), (history + [seen])[i])
  {
    hide AreDue;
    assert (history + [seen])[..|history|] == history && (rounds + [latest])[..|rounds|] == rounds;
    forall i | 0 <= i <= |history|
      ensures AreDue((rounds + [latest])[i], StoredAfter((history + [seen])[..i]), (history + [seen])[i])
    {
      assert i < |history| ==> (history + [seen])[..i] == history[..i];
    }
  }

  // ---------------------------------------------------------------- over all runs

  /** What is stored after a number of runs. */
  function StoredAfter(history: seq<map<string, string>>): map<string, string> {
    if history == [] then map[] else StoredAfter(history[..|history| - 1]) + history[|history| - 1]
  }

  /** The last run before run `i` in which the service was seen. */
  predicate LastSeen<T>(history: seq<map<string, T>>, i: int, k: int, uid: string) {
    0 <= k < i <= |history| && uid in history[k] && forall m :: k < m < i ==> uid !in history[m]
  }

  lemma {:induction false} StoredIsLastSeen(history: seq<map<string, string>>, i: nat, uid: string)
    requires i <= |history|
    ensures uid in StoredAfter(history[..i]) <==> exists k :: LastSeen(history, i, k, uid)
    ensures forall k :: LastSeen(history, i, k, uid) ==> Stored(StoredAfter(history[..i]), uid) == history[k][uid]
    decreases i
  {
    if i == 0 {
    } else {
      assert history[..i][..i - 1] == history[..i - 1];
      StoredIsLastSeen(history, i - 1, uid);
      if uid in history[i - 1] {
        assert LastSeen(history, i, i - 1, uid);
      } else {
        var h := i - 1;
        assert forall k :: LastSeen(history, i, k, uid) <==> LastSeen(history, h, k, uid);
        if k :| LastSeen(history, h, k, uid) {
          assert LastSeen(history, i, k, uid);
        }
      }
    }
  }

  /** A warning over all runs: the service is not online/active and was last seen with the very same status. */
  lemma WarningIffSameBadStatus(history: seq<map<string, string>>, i: nat, uid: string)
    requires StatusesOk(history) && i < |history| && uid in history[i]
    ensures StaysBad(StoredAfter(history[..i]), history[i], uid) <==>
      history[i][uid] != ONLINE_ACTIVE && exists k :: LastSeen(history, i, k, uid) && history[k][uid] == history[i][uid]
  {
    hide StoredAfter;
    StoredIsLastSeen(history, i, uid);
  }

  /** The events a monitor has recorded in its run number `i`, in terms of what it has seen in all its runs. */
  lemma RecordedOverAllRuns(monitor: LoadBalancerMonitor, i: nat, uid: string)
    requires monitor.Valid() && i < |monitor.history| && uid in monitor.history[i]
    ensures var history := monitor.history; var s := history[i][uid];
      && (Warning(uid, s) in monitor.recorded[i] <==>
            s != ONLINE_ACTIVE && exists k :: LastSeen(history, i, k, uid) && history[k][uid] == s)
      && (Normal(uid, s) in monitor.recorded[i] <==>
            s == ONLINE_ACTIVE && forall k :: LastSeen(history, i, k, uid) ==> history[k][uid] != ONLINE_ACTIVE)
  {
    hide StoredAfter, StaysBad, TurnsOnline, LastSeen, Flat, StatusesOk;
    var history := monitor.history;
    WarningIffSameBadStatus(history, i, uid);
    NormalIffTurnedOnline(history, i, uid);
    TurnsOnlineMeans(StoredAfter(history[..i]), history[i], uid);
    DueEvents(monitor.recorded[i], StoredAfter(history[..i]), history[i]);
  }

  /** The same in the two statuses of the load balancers that were listed: a warning is recorded exactly if they are not
      online and active and are the ones the service was last seen with, a normal event exactly if they are and were
      not. */
  lemma RecordedByStatuses(monitor: LoadBalancerMonitor, i: nat, uid: string)
    requires monitor.Valid() && i < |monitor.sightings| && uid in monitor.sightings[i]
    requires forall k :: 0 <= k <= i && uid in monitor.sightings[k] ==> monitor.sightings[k][uid].Plain()
    ensures var sightings := monitor.sightings; var s := sightings[i][uid];
      && (Warning(uid, s.operating + "/" + s.provisioning) in monitor.recorded[i] <==>
            s != Statuses("online", "active") && exists k :: LastSeen(sightings, i, k, uid) && sightings[k][uid] == s)
      && (Normal(uid, "online/active") in monitor.recorded[i] <==>
            && s == Statuses("online", "active")
            && forall k :: LastSeen(sightings, i, k, uid) ==> sightings[k][uid] != Statuses("online", "active"))
  {
    hide StoredAfter, Flat, StatusesOk, AreDue;
    var history, sightings := monitor.history, monitor.sightings;
    var s := sightings[i][uid];
    assert TextsOf(history[i], sightings[i]);
    RecordedOverAllRuns(monitor, i, uid);
    OnlineActiveIffStatuses(s);
    DueEvents(monitor.recorded[i], StoredAfter(history[..i]), history[i]);
    forall k
      ensures LastSeen(sightings, i, k, uid) <==> LastSeen(history, i, k, uid)
      ensures LastSeen(history, i, k, uid) ==> history[k][uid] == sightings[k][uid].Text() && sightings[k][uid].Plain()
    {
      assert forall m :: 0 <= m <= i ==> TextsOf(history[m], sightings[m]);
    }
    forall k | LastSeen(history, i, k, uid)
      ensures history[k][uid] == history[i][uid] <==> sightings[k][uid] == s
      ensures history[k][uid] == ONLINE_ACTIVE <==> sightings[k][uid] == Statuses("online", "active")
    {
      OnlineActiveIffStatuses(sightings[k][uid]);
      if sightings[k][uid].Text() == s.Text() {
        TextInjective(sightings[k][uid], s);
      }
    }
  }

  lemma TurnsOnlineMeans(status: map<string, string>, seen: map<string, string>, uid: string)
    ensures TurnsOnline(status, seen, uid) ==> seen[uid] == ONLINE_ACTIVE
  {
  }

  /** A normal event over all runs: the service is online/active, and was not when it was last seen, if it ever was. */
  lemma NormalIffTurnedOnline(history: seq<map<string, string>>, i: nat, uid: string)
    requires i < |history| && uid in history[i]
    ensures TurnsOnline(StoredAfter(history[..i]), history[i], uid) <==>
      history[i][uid] == ONLINE_ACTIVE && forall k :: LastSeen(history, i, k, uid) ==> history[k][uid] != ONLINE_ACTIVE
  {
    hide StoredAfter;
    StoredIsLastSeen(history, i, uid);
  }

  /** Between two normal events for a service there is a run that sees it in another status than online/active. */
  lemma NormalEventsAlternate(history: seq<map<string, string>>, i: nat, j: nat, uid: string)
    requires i < j < |history|
    requires TurnsOnline(StoredAfter(history[..i]), history[i], uid)
      && TurnsOnline(StoredAfter(history[..j]), history[j], uid)
    ensures exists k :: i < k < j && uid in history[k] && history[k][uid] != ONLINE_ACTIVE
  {
    hide StoredAfter;
    var k := LastSeenBefore(history, i, j, uid);
    StoredIsLastSeen(history, j, uid);
    assert history[k][uid] != ONLINE_ACTIVE;
  }

  lemma {:induction false} LastSeenBefore(history: seq<map<string, string>>, i: nat, j: nat, uid: string)
    returns (k: nat)
    requires i < j <= |history| && uid in history[i]
    ensures i <= k && LastSeen(history, j, k, uid)
    decreases j
  {
    if uid in history[j - 1] {
      k := j - 1;
    } else {
      k := LastSeenBefore(history, i, j - 1, uid);
    }
  }
}
