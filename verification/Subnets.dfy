/** The check that the subnets a service asks for are still the ones its load balancer was created with. */
module Subnets {
  import opened Text
  import opened Actions

  datatype Subnet = Subnet(id: string, name: string, cidr: string, vpcId: string)

  function Elements(ss: seq<string>): set<string> {
    set i | 0 <= i < |ss| :: ss[i]
  }

  // ---------------------------------------------------------------- from aliases to identifiers

  /** What one entry of the annotation stands for: the first subnet it is the ID, name or CIDR of. */
  function Resolve(alias: string, vpcId: string, subnets: seq<Subnet>): Result<string> {
    if subnets == [] then Err(InvalidSubnet)
    else if alias == subnets[0].id then (if vpcId != subnets[0].vpcId then Err(OtherVpc) else Ok(alias))
    else if vpcId == subnets[0].vpcId && (alias == subnets[0].name || alias == subnets[0].cidr) then Ok(subnets[0].id)
    else Resolve(alias, vpcId, subnets[1..])
  }

  /** The identifiers of a list of entries, or the error of the first entry that has one. */
  function ResolveAll(aliases: seq<string>, vpcId: string, subnets: seq<Subnet>): Result<set<string>> {
    if aliases == [] then Ok({})
    else
      match ResolveAll(aliases[..|aliases| - 1], vpcId, subnets)
      case Err(e) => Err(e)
      case Ok(ids) =>
        match Resolve(aliases[|aliases| - 1], vpcId, subnets)
        case Err(e) => Err(e)
        case Ok(id) => Ok(ids + {id})
  }

  /** The entry is an alias of the subnet. */
  predicate Answers(subnet: Subnet, alias: string, vpcId: string) {
    alias == subnet.id || (vpcId == subnet.vpcId && (alias == subnet.name || alias == subnet.cidr))
  }

  predicate Unambiguous(alias: string, vpcId: string, subnets: seq<Subnet>) {
    forall i, j :: 0 <= i < j < |subnets| ==> !(Answers(subnets[i], alias, vpcId) && Answers(subnets[j], alias, vpcId))
  }

  /** An entry that answers to one subnet at most resolves to exactly that subnet, and only inside the VPC. */
  lemma {:induction false} ResolveMeans(alias: string, vpcId: string, subnets: seq<Subnet>, id: string)
    requires Unambiguous(alias, vpcId, subnets)
    ensures Resolve(alias, vpcId, subnets) == Ok(id) <==>
      exists i :: 0 <= i < |subnets| && subnets[i].id == id && subnets[i].vpcId == vpcId
        && Answers(subnets[i], alias, vpcId)
    decreases |subnets|
  {
    if subnets == [] {
    } else {
      var head, tail := subnets[0], subnets[1..];
      ResolveMeans(alias, vpcId, tail, id);
      assert subnets == [head] + tail;
      assert forall i :: 0 <= i < |tail| ==> tail[i] == subnets[i + 1];
      if Answers(head, alias, vpcId) {
        assert forall i :: 1 <= i < |subnets| ==> !Answers(subnets[i], alias, vpcId);
      }
    }
  }

  predicate AnswersFirst(subnets: seq<Subnet>, i: int, alias: string, vpcId: string) {
    && 0 <= i < |subnets| && Answers(subnets[i], alias, vpcId)
    && forall j :: 0 <= j < i ==> !Answers(subnets[j], alias, vpcId)
  }

  /** Among several subnets an entry answers to, the first decides; in another VPC it is only looked for by ID, and
      then it is an error. */
  lemma {:induction false} ResolveFirst(alias: string, vpcId: string, subnets: seq<Subnet>)
    ensures (forall i :: 0 <= i < |subnets| ==> !Answers(subnets[i], alias, vpcId)) ==>
      Resolve(alias, vpcId, subnets) == Err(InvalidSubnet)
    ensures forall i :: AnswersFirst(subnets, i, alias, vpcId) ==>
      Resolve(alias, vpcId, subnets) == if subnets[i].vpcId == vpcId then Ok(subnets[i].id) else Err(OtherVpc)
    decreases |subnets|
  {
    if subnets == [] {
    } else {
      var head, tail := subnets[0], subnets[1..];
      ResolveFirst(alias, vpcId, tail);
      assert forall i :: 0 <= i < |tail| ==> tail[i] == subnets[i + 1];
      forall i | AnswersFirst(subnets, i, alias, vpcId)
        ensures Resolve(alias, vpcId, subnets) == if subnets[i].vpcId == vpcId then Ok(subnets[i].id) else Err(OtherVpc)
      {
        if i > 0 {
          assert AnswersFirst(tail, i - 1, alias, vpcId);
        }
      }
    }
  }

  predicate HasSubnet(subnets: seq<Subnet>, id: string) {
    exists i :: 0 <= i < |subnets| && subnets[i].id == id
  }

  /** Whatever an entry resolves to is the ID of a subnet. */
  lemma {:induction false} ResolveIsId(alias: string, vpcId: string, subnets: seq<Subnet>)
    requires Resolve(alias, vpcId, subnets).Ok?
    ensures HasSubnet(subnets, Resolve(alias, vpcId, subnets).value)
  {
    if alias == subnets[0].id {
    } else if vpcId == subnets[0].vpcId && (alias == subnets[0].name || alias == subnets[0].cidr) {
    } else {
      ResolveIsId(alias, vpcId, subnets[1..]);
      var i :| 0 <= i < |subnets[1..]| && subnets[1..][i].id == Resolve(alias, vpcId, subnets).value;
      assert subnets[i + 1].id == Resolve(alias, vpcId, subnets).value;
    }
  }

  lemma {:induction false} ResolveAllAreIds(aliases: seq<string>, vpcId: string, subnets: seq<Subnet>)
    requires ResolveAll(aliases, vpcId, subnets).Ok?
    ensures forall id :: id in ResolveAll(aliases, vpcId, subnets).value ==> HasSubnet(subnets, id)
    decreases |aliases|
  {
    if aliases == [] {
    } else {
      ResolveAllAreIds(aliases[..|aliases| - 1], vpcId, subnets);
      ResolveIsId(aliases[|aliases| - 1], vpcId, subnets);
    }
  }

  /** The annotation as a whole: it is accepted when every entry resolves, and then it means the set of what they
      resolve to; order and repetition do not count. */
  lemma {:induction false} ResolveAllMeans(aliases: seq<string>, vpcId: string, subnets: seq<Subnet>)
    ensures ResolveAll(aliases, vpcId, subnets).Ok?
      <==> forall i :: 0 <= i < |aliases| ==> Resolve(aliases[i], vpcId, subnets).Ok?
    ensures ResolveAll(aliases, vpcId, subnets).Ok? ==>
      forall id :: id in ResolveAll(aliases, vpcId, subnets).value <==>
        exists i :: 0 <= i < |aliases| && Resolve(aliases[i], vpcId, subnets) == Ok(id)
    decreases |aliases|
  {
    hide Resolve;
    if aliases == [] {
    } else {
      var front, last := aliases[..|aliases| - 1], aliases[|aliases| - 1];
      assert aliases == front + [last];
      ResolveAllMeans(front, vpcId, subnets);
    }
  }

  predicate IsResolved(aliases: seq<string>, vpcId: string, subnets: seq<Subnet>, ids: set<string>) {
    var r := ResolveAll(aliases, vpcId, subnets);
    r.Ok? && r.value == ids
  }

  /** `validateServiceSubnets`: the identifiers come out of a map, in whatever order it is walked. */
  method ValidateServiceSubnets(serviceSubnets: string, vpcId: string, subnets: seq<Subnet>)
    returns (r: Result<seq<string>>)
    ensures match ResolveAll(Split(serviceSubnets, ','), vpcId, subnets)
            case Ok(ids) => r.Ok? && Elements(r.value) == ids && NoRepeats(r.value)
            case Err(e) => r == Err(e)
  {
    hide Split;
    var aliases := Split(serviceSubnets, ',');
    var desired: map<string, bool> := map[];
    assert desired.Keys == {} && aliases[..0] == [];
    for i := 0 to |aliases|
      invariant IsResolved(aliases[..i], vpcId, subnets, desired.Keys)
    {
      var alias := aliases[i];
      assert aliases[..i + 1][..i] == aliases[..i];
      var found := false;
      for k := 0 to |subnets|
        invariant !found && Resolve(alias, vpcId, subnets) == Resolve(alias, vpcId, subnets[k..])
        invariant IsResolved(aliases[..i], vpcId, subnets, desired.Keys)
      {
        var subnet := subnets[k];
        assert subnets[k..][1..] == subnets[k + 1..];
        if alias == subnet.id {
          if vpcId != subnet.vpcId {
            ResolveAllStops(aliases, i, vpcId, subnets);
            return Err(OtherVpc);
          }
          found := true;
          desired := desired[alias := true];
          break;
        }
        if vpcId != subnet.vpcId {
          continue;
        }
        if alias == subnet.name || alias == subnet.cidr {
          found := true;
          desired := desired[subnet.id := true];
          break;
        }
      }
      assert subnets[|subnets|..] == [];
      if !found {
        ResolveAllStops(aliases, i, vpcId, subnets);
        return Err(InvalidSubnet);
      }
    }
    assert aliases[..|aliases|] == aliases;

    var list: seq<string> := [];
    var keys := desired.Keys;
    while keys != {}
      invariant keys <= desired.Keys && Elements(list) == desired.Keys - keys && NoRepeats(list)
      decreases keys
    {
      var key :| key in keys;
      ElementsAppend(list, key);
      list := list + [key];
      keys := keys - {key};
    }
    r := Ok(list);
  }

  lemma ElementsAppend(ss: seq<string>, s: string)
    ensures Elements(ss + [s]) == Elements(ss) + {s}
    ensures NoRepeats(ss) && s !in Elements(ss) ==> NoRepeats(ss + [s])
  {
    forall x | x in Elements(ss) + {s} ensures x in Elements(ss + [s]) {
      if x == s {
        assert (ss + [s])[|ss|] == s;
      } else {
        var i :| 0 <= i < |ss| && ss[i] == x;
        assert (ss + [s])[i] == x;
      }
    }
  }

  /** The first entry with an error decides. */
  lemma {:induction false} ResolveAllStops(aliases: seq<string>, i: nat, vpcId: string, subnets: seq<Subnet>)
    requires i < |aliases| && ResolveAll(aliases[..i], vpcId, subnets).Ok? && Resolve(aliases[i], vpcId, subnets).Err?
    ensures ResolveAll(aliases, vpcId, subnets) == Err(Resolve(aliases[i], vpcId, subnets).error)
    decreases |aliases|
  {
    hide Resolve;
    var front := aliases[..|aliases| - 1];
    if i == |aliases| - 1 {
      assert aliases[..i] == front;
    } else {
      assert front[..i] == aliases[..i];
      ResolveAllStops(front, i, vpcId, subnets);
    }
  }

  // ---------------------------------------------------------------- sorted and joined

  /** Go's order of strings. */
  predicate AtMost(s: string, t: string) {
    s == "" || (t != "" && (s[0] < t[0] || (s[0] == t[0] && AtMost(s[1..], t[1..]))))
  }

  lemma {:induction false} AtMostTotal(s: string, t: string)
    ensures AtMost(s, t) || AtMost(t, s)
    ensures AtMost(s, t) && AtMost(t, s) ==> s == t
  {
    if s != "" && t != "" {
      AtMostTotal(s[1..], t[1..]);
      if s[0] == t[0] && s[1..] == t[1..] {
        assert s == [s[0]] + s[1..] && t == [t[0]] + t[1..];
      }
    }
  }

  lemma {:induction false} AtMostTransitive(s: string, t: string, u: string)
    requires AtMost(s, t) && AtMost(t, u)
    ensures AtMost(s, u)
  {
    if s != "" && t != "" && u != "" && s[0] == t[0] == u[0] {
      AtMostTransitive(s[1..], t[1..], u[1..]);
    }
  }

  predicate Ascending(ss: seq<string>) {
    forall i, j :: 0 <= i < j < |ss| ==> AtMost(ss[i], ss[j])
  }

  function Insert(s: string, ss: seq<string>): seq<string> {
    if ss == [] || AtMost(s, ss[0]) then [s] + ss else [ss[0]] + Insert(s, ss[1..])
  }

  /** `sort.Strings`. */
  function Sorted(ss: seq<string>): seq<string> {
    if ss == [] then [] else Insert(ss[0], Sorted(ss[1..]))
  }

  lemma {:induction false} InsertSorts(s: string, ss: seq<string>)
    requires Ascending(ss)
    ensures Ascending(Insert(s, ss)) && multiset(Insert(s, ss)) == multiset(ss) + multiset{s}
  {
    hide AtMost;
    if ss == [] {
    } else if AtMost(s, ss[0]) {
      forall i | 0 <= i < |ss| ensures AtMost(s, ss[i]) {
        if i > 0 { AtMostTransitive(s, ss[0], ss[i]); }
      }
    } else {
      InsertSorts(s, ss[1..]);
      AtMostTotal(s, ss[0]);
      assert ss == [ss[0]] + ss[1..];
      var tail := Insert(s, ss[1..]);
      forall i | 0 <= i < |tail| ensures AtMost(ss[0], tail[i]) {
        assert tail[i] in multiset(tail);
        assert tail[i] == s || tail[i] in ss[1..];
      }
    }
  }

  lemma {:induction false} SortedSorts(ss: seq<string>)
    ensures Ascending(Sorted(ss)) && multiset(Sorted(ss)) == multiset(ss)
  {
    hide AtMost;
    if ss == [] {
    } else {
      SortedSorts(ss[1..]);
      InsertSorts(ss[0], Sorted(ss[1..]));
      assert ss == [ss[0]] + ss[1..];
    }
  }

  /** Only one list is sorted and has the given entries. */
  lemma {:induction false} AscendingUnique(a: seq<string>, b: seq<string>)
    requires Ascending(a) && Ascending(b) && multiset(a) == multiset(b)
    ensures a == b
    decreases |a|
  {
    hide AtMost, Ascending;
    assert |a| == |multiset(a)| == |multiset(b)| == |b|;
    if a == [] {
    } else {
      AscendingTail(a);
      AscendingTail(b);
      FirstIsLeast(a, b[0]);
      FirstIsLeast(b, a[0]);
      AtMostTotal(a[0], b[0]);
      AscendingUnique(a[1..], b[1..]);
      assert a == [a[0]] + a[1..] && b == [b[0]] + b[1..];
    }
  }

  lemma AscendingTail(a: seq<string>)
    requires Ascending(a) && a != []
    ensures Ascending(a[1..]) && multiset(a[1..]) == multiset(a) - multiset{a[0]} && a[0] in multiset(a)
  {
    hide AtMost;
    assert a == [a[0]] + a[1..];
  }

  lemma FirstIsLeast(a: seq<string>, x: string)
    requires Ascending(a) && x in multiset(a)
    ensures a != [] && AtMost(a[0], x)
  {
    hide AtMost;
    var i :| 0 <= i < |a| && a[i] == x;
    AtMostTotal(x, x);
  }

  /** Entries that can be told apart once they are joined with commas. */
  predicate Separable(ss: seq<string>) {
    forall i :: 0 <= i < |ss| ==> ss[i] != "" && ',' !in ss[i]
  }

  lemma {:induction false} SplitOfJoin(ss: seq<string>)
    requires ss != [] && Separable(ss)
    ensures Split(Join(ss, ","), ',') == ss
  {
    hide Split;
    if |ss| == 1 {
      SplitPiece(ss[0], "", ',');
    } else {
      SplitOfJoin(ss[1..]);
      SplitPiece(ss[0], Join(ss[1..], ","), ',');
      assert Join(ss, ",") == ss[0] + [','] + Join(ss[1..], ",");
    }
  }

  lemma JoinInjective(a: seq<string>, b: seq<string>)
    requires Separable(a) && Separable(b) && Join(a, ",") == Join(b, ",")
    ensures a == b
  {
    hide Split;
    if a != [] && b != [] {
      SplitOfJoin(a);
      SplitOfJoin(b);
    }
  }

  lemma {:induction false} ElementsAndMultiset(a: seq<string>, s: string)
    requires NoRepeats(a)
    ensures multiset(a)[s] == if s in Elements(a) then 1 else 0
  {
    if a == [] {
    } else {
      var tail := a[1..];
      assert a == [a[0]] + tail;
      ElementsAndMultiset(tail, s);
      ElementsStep(a);
      forall i | 0 <= i < |tail| ensures tail[i] != a[0] {
        assert a[i + 1] == tail[i];
      }
    }
  }

  lemma ElementsStep(a: seq<string>)
    requires a != []
    ensures Elements(a) == {a[0]} + Elements(a[1..])
  {
  }

  /** Sorting, joining and comparing the text is comparing the sets. */
  lemma SortedJoinedIffSameSet(a: seq<string>, b: seq<string>)
    requires Separable(a) && Separable(b) && NoRepeats(a) && NoRepeats(b)
    ensures Join(Sorted(a), ",") == Join(Sorted(b), ",") <==> Elements(a) == Elements(b)
  {
    hide Join, Ascending, Elements;
    SortedSorts(a);
    SortedSorts(b);
    SeparableSorted(a);
    SeparableSorted(b);
    if Join(Sorted(a), ",") == Join(Sorted(b), ",") {
      JoinInjective(Sorted(a), Sorted(b));
      forall s ensures s in Elements(a) <==> s in Elements(b) {
        ElementsAndMultiset(a, s);
        ElementsAndMultiset(b, s);
      }
    }
    if Elements(a) == Elements(b) {
      forall s ensures multiset(a)[s] == multiset(b)[s] {
        ElementsAndMultiset(a, s);
        ElementsAndMultiset(b, s);
      }
      assert multiset(a) == multiset(b);
      AscendingUnique(Sorted(a), Sorted(b));
    }
  }

  lemma SeparableSorted(a: seq<string>)
    requires Separable(a)
    ensures Separable(Sorted(a))
  {
    SortedSorts(a);
    forall i | 0 <= i < |Sorted(a)| ensures Sorted(a)[i] != "" && ',' !in Sorted(a)[i] {
      assert Sorted(a)[i] in multiset(a);
    }
  }

  // ---------------------------------------------------------------- the check

  /** `getVpcID`: the VPC of the first subnet of the load balancer that is listed. */
  function VpcOf(lbSubnets: seq<string>, subnets: seq<Subnet>): string {
    if lbSubnets == [] then ""
    else if HasSubnet(subnets, lbSubnets[0]) then FirstVpc(lbSubnets[0], subnets)
    else VpcOf(lbSubnets[1..], subnets)
  }

  function FirstVpc(id: string, subnets: seq<Subnet>): string {
    if subnets == [] then "" else if subnets[0].id == id then subnets[0].vpcId else FirstVpc(id, subnets[1..])
  }

  /** Subnet `j` is the first with the ID of subnet `i` of the load balancer, and no earlier one of the load balancer is
      listed. */
  predicate FirstListed(lbSubnets: seq<string>, subnets: seq<Subnet>, i: int, j: int) {
    && 0 <= i < |lbSubnets| && 0 <= j < |subnets| && subnets[j].id == lbSubnets[i]
    && (forall k :: 0 <= k < i ==> !HasSubnet(subnets, lbSubnets[k]))
    && (forall k :: 0 <= k < j ==> subnets[k].id != lbSubnets[i])
  }

  lemma {:induction false} FirstVpcMeans(id: string, subnets: seq<Subnet>, j: nat)
    requires j < |subnets| && subnets[j].id == id && forall k :: 0 <= k < j ==> subnets[k].id != id
    ensures FirstVpc(id, subnets) == subnets[j].vpcId
  {
    if j > 0 {
      FirstVpcMeans(id, subnets[1..], j - 1);
    }
  }

  lemma {:induction false} VpcOfMeans(lbSubnets: seq<string>, subnets: seq<Subnet>)
    ensures forall i, j :: FirstListed(lbSubnets, subnets, i, j) ==> VpcOf(lbSubnets, subnets) == subnets[j].vpcId
    ensures (forall i :: 0 <= i < |lbSubnets| ==> !HasSubnet(subnets, lbSubnets[i])) ==> VpcOf(lbSubnets, subnets) == ""
    decreases |lbSubnets|
  {
    hide FirstVpc, HasSubnet;
    if lbSubnets == [] {
    } else {
      var tail := lbSubnets[1..];
      VpcOfMeans(tail, subnets);
      assert forall k :: 0 <= k < |tail| ==> tail[k] == lbSubnets[k + 1];
      forall i, j | FirstListed(lbSubnets, subnets, i, j) ensures VpcOf(lbSubnets, subnets) == subnets[j].vpcId {
        if i == 0 {
          Listed(subnets, j);
          FirstVpcMeans(lbSubnets[0], subnets, j);
        } else {
          assert !HasSubnet(subnets, lbSubnets[0]);
          assert FirstListed(tail, subnets, i - 1, j);
        }
      }
      if forall i :: 0 <= i < |lbSubnets| ==> !HasSubnet(subnets, lbSubnets[i]) {
        forall i | 0 <= i < |tail| ensures !HasSubnet(subnets, tail[i]) {
          assert !HasSubnet(subnets, lbSubnets[i + 1]);
        }
      }
    }
  }

  lemma Listed(subnets: seq<Subnet>, j: nat)
    requires j < |subnets|
    ensures HasSubnet(subnets, subnets[j].id)
  {
  }

  method GetVpcId(lbSubnets: seq<string>, subnets: seq<Subnet>) returns (vpcId: string)
    ensures vpcId == VpcOf(lbSubnets, subnets)
    ensures forall i, j :: FirstListed(lbSubnets, subnets, i, j) ==> vpcId == subnets[j].vpcId
    ensures (forall i :: 0 <= i < |lbSubnets| ==> !HasSubnet(subnets, lbSubnets[i])) ==> vpcId == ""
  {
    VpcOfMeans(lbSubnets, subnets);
    for i := 0 to |lbSubnets|
      invariant VpcOf(lbSubnets, subnets) == VpcOf(lbSubnets[i..], subnets)
    {
      assert lbSubnets[i..][1..] == lbSubnets[i + 1..];
      for k := 0 to |subnets|
        invariant forall j :: 0 <= j < k ==> subnets[j].id != lbSubnets[i]
        invariant FirstVpc(lbSubnets[i], subnets) == FirstVpc(lbSubnets[i], subnets[k..])
      {
        assert subnets[k..][1..] == subnets[k + 1..];
        if lbSubnets[i] == subnets[k].id {
          return subnets[k].vpcId;
        }
      }
    }
    return "";
  }

  /** The verdict in terms of sets. */
  function SubnetsVerdict(annotation: string, lbSubnets: seq<string>, subnets: seq<Subnet>): Option<Error> {
    var serviceSubnets := Without(annotation, ' ');
    if serviceSubnets == "" then None
    else
      match ResolveAll(Split(serviceSubnets, ','), VpcOf(lbSubnets, subnets), subnets)
      case Err(e) => Some(e)
      case Ok(ids) => if ids == Elements(lbSubnets) then None else Some(SubnetsUpdated)
  }

  /** Blanks between the entries of the annotation do not count. */
  lemma {:induction false} JoinedWithBlanks(ss: seq<string>)
    requires forall i :: 0 <= i < |ss| ==> ' ' !in ss[i]
    ensures Without(Join(ss, ", "), ' ') == Join(ss, ",")
  {
    hide Without;
    if |ss| > 1 {
      JoinedWithBlanks(ss[1..]);
      var rest := Join(ss[1..], ", ");
      assert Join(ss, ", ") == (ss[0] + ",") + [' '] + rest;
      WithoutDrops(ss[0] + ",", rest, ' ');
      WithoutConcat(ss[0] + ",", rest, ' ');
      assert ' ' !in ss[0] + ",";
    }
  }

  /** The ID of a subnet in the VPC, and no alias of another one. */
  predicate IsIdInVpc(id: string, vpcId: string, subnets: seq<Subnet>) {
    && Unambiguous(id, vpcId, subnets)
    && exists j :: 0 <= j < |subnets| && subnets[j].id == id && subnets[j].vpcId == vpcId
  }

  lemma ResolveAllOfIds(ss: seq<string>, vpcId: string, subnets: seq<Subnet>)
    requires forall i :: 0 <= i < |ss| ==> IsIdInVpc(ss[i], vpcId, subnets)
    ensures ResolveAll(ss, vpcId, subnets) == Ok(Elements(ss))
  {
    forall i | 0 <= i < |ss| ensures Resolve(ss[i], vpcId, subnets) == Ok(ss[i]) {
      assert IsIdInVpc(ss[i], vpcId, subnets);
      ResolveMeans(ss[i], vpcId, subnets, ss[i]);
    }
    hide Resolve, ResolveAll, IsIdInVpc;
    ResolveAllMeans(ss, vpcId, subnets);
    var ids := ResolveAll(ss, vpcId, subnets).value;
    forall id ensures id in ids <==> id in Elements(ss) {
      if id in Elements(ss) {
        var i :| 0 <= i < |ss| && ss[i] == id;
        assert Resolve(ss[i], vpcId, subnets) == Ok(id);
      }
    }
    assert ids == Elements(ss);
  }

  /** An annotation such as "s1, s2" with IDs of subnets in the VPC of the load balancer means the set of these: it is
      accepted exactly if the load balancer is in them and no others. */
  lemma AnnotationOfIds(ss: seq<string>, lbSubnets: seq<string>, subnets: seq<Subnet>)
    requires ss != [] && Separable(ss) && forall i :: 0 <= i < |ss| ==> ' ' !in ss[i]
    requires forall i :: 0 <= i < |ss| ==> IsIdInVpc(ss[i], VpcOf(lbSubnets, subnets), subnets)
    ensures SubnetsVerdict(Join(ss, ", "), lbSubnets, subnets)
         == if Elements(ss) == Elements(lbSubnets) then None else Some(SubnetsUpdated)
  {
    hide Without, Join, Split, ResolveAll, VpcOf, IsIdInVpc, Elements;
    JoinedWithBlanks(ss);
    SplitOfJoin(ss);
    SplitOfNothing();
    assert ss[0] != "" && Join(ss, ",") != "";
    ResolveAllOfIds(ss, VpcOf(lbSubnets, subnets), subnets);
  }

  lemma SplitOfNothing()
    ensures Split("", ',') == [""]
  {
  }

  lemma {:induction false} ResolveErrors(alias: string, vpcId: string, subnets: seq<Subnet>)
    ensures Resolve(alias, vpcId, subnets).Err? ==> Resolve(alias, vpcId, subnets).error in {InvalidSubnet, OtherVpc}
  {
    if subnets != [] {
      ResolveErrors(alias, vpcId, subnets[1..]);
    }
  }

  lemma {:induction false} ResolveAllErrors(aliases: seq<string>, vpcId: string, subnets: seq<Subnet>)
    ensures var r := ResolveAll(aliases, vpcId, subnets); r.Err? ==> r.error in {InvalidSubnet, OtherVpc}
    decreases |aliases|
  {
    hide Resolve;
    if aliases != [] {
      ResolveAllErrors(aliases[..|aliases| - 1], vpcId, subnets);
      ResolveErrors(aliases[|aliases| - 1], vpcId, subnets);
    }
  }

  lemma VerdictErrors(annotation: string, lbSubnets: seq<string>, subnets: seq<Subnet>)
    ensures var v := SubnetsVerdict(annotation, lbSubnets, subnets);
      v.Some? ==> v.value in {InvalidSubnet, OtherVpc, SubnetsUpdated}
  {
    hide Split, ResolveAll, VpcOf, Elements, Without;
    ResolveAllErrors(Split(Without(annotation, ' '), ','), VpcOf(lbSubnets, subnets), subnets);
  }

  /** Identifiers are not empty and hold no comma, and a load balancer is in a subnet once. */
  predicate SubnetsOk(lbSubnets: seq<string>, subnets: seq<Subnet>) {
    && Separable(lbSubnets) && NoRepeats(lbSubnets)
    && forall i :: 0 <= i < |subnets| ==> subnets[i].id != "" && ',' !in subnets[i].id
  }

  /** `validateServiceSubnetsNotUpdated`: comparing sorted, joined text decides equality of sets. */
  method ValidateServiceSubnetsNotUpdated(annotation: string, lbSubnets: seq<string>, subnets: seq<Subnet>)
    returns (r: Option<Error>)
    requires SubnetsOk(lbSubnets, subnets)
    ensures r == SubnetsVerdict(annotation, lbSubnets, subnets)
  {
    hide Split, Join, ResolveAll, VpcOf, Sorted, Elements;
    var serviceSubnets := Without(annotation, ' ');
    if serviceSubnets == "" {
      return None;
    }
    var vpcId := GetVpcId(lbSubnets, subnets);
    var requested := ValidateServiceSubnets(serviceSubnets, vpcId, subnets);
    if requested.Err? {
      return Some(requested.error);
    }
    ResolvedSeparable(Split(serviceSubnets, ','), vpcId, subnets, requested.value);
    SortedJoinedIffSameSet(requested.value, lbSubnets);
    if Join(Sorted(requested.value), ",") != Join(Sorted(lbSubnets), ",") {
      return Some(SubnetsUpdated);
    }
    return None;
  }

  lemma ResolvedSeparable(aliases: seq<string>, vpcId: string, subnets: seq<Subnet>, list: seq<string>)
    requires ResolveAll(aliases, vpcId, subnets) == Ok(Elements(list))
    requires forall i :: 0 <= i < |subnets| ==> subnets[i].id != "" && ',' !in subnets[i].id
    ensures Separable(list)
  {
    hide ResolveAll;
    ResolveAllAreIds(aliases, vpcId, subnets);
    forall i | 0 <= i < |list| ensures list[i] != "" && ',' !in list[i] {
      assert list[i] in Elements(list);
      assert HasSubnet(subnets, list[i]);
    }
  }
}
