/** Step 8: several member updates of one pool become a single REPLACE-POOL-MEMBERS. */
module Coalescing {
  import opened Text
  import opened Actions

  /** An update as step 8 sees it: a member update of some pool, with what would replace it, or anything else.
      What step 8 puts in is set apart. */
  datatype Item<T> =
    | Other(value: T)
    | MemberUpdate(value: T, pool: string, replacement: T)
    | Replacement(value: T)

  function Count<T>(items: seq<Item<T>>, pool: string): nat {
    if items == [] then 0
    else (if items[0].MemberUpdate? && items[0].pool == pool then 1 else 0) + Count(items[1..], pool)
  }

  /** What becomes of one update, given the whole list and the pools that already have their replacement. */
  function Outcome<T>(all: seq<Item<T>>, x: Item<T>, replaced: set<string>): seq<Item<T>> {
    if !x.MemberUpdate? || Count(all, x.pool) == 1 then [x]
    else if Count(all, x.pool) > 1 && x.pool !in replaced then [Replacement(x.replacement)]
    else []
  }

  function After<T>(all: seq<Item<T>>, x: Item<T>, replaced: set<string>): set<string> {
    if x.MemberUpdate? && Count(all, x.pool) > 1 then replaced + {x.pool} else replaced
  }

  function MergeFrom<T>(all: seq<Item<T>>, rest: seq<Item<T>>, replaced: set<string>): seq<Item<T>> {
    if rest == [] then []
    else Outcome(all, rest[0], replaced) + MergeFrom(all, rest[1..], After(all, rest[0], replaced))
  }

  function Merge<T>(items: seq<Item<T>>): seq<Item<T>> {
    MergeFrom(items, items, {})
  }

  function Values<T>(items: seq<Item<T>>): (r: seq<T>)
    ensures |r| == |items|
    ensures forall i :: 0 <= i < |r| ==> r[i] == items[i].value
  {
    seq(|items|, i requires 0 <= i < |items| => items[i].value)
  }

  // ---------------------------------------------------------------- laws, for every list of updates

  lemma {:induction false} CountConcat<T>(a: seq<Item<T>>, b: seq<Item<T>>, pool: string)
    ensures Count(a + b, pool) == Count(a, pool) + Count(b, pool)
  {
    if a == [] {
      assert a + b == b;
    } else {
      assert (a + b)[1..] == a[1..] + b;
      CountConcat(a[1..], b, pool);
    }
  }

  /** The updates that are not member updates, in order. */
  function Others<T>(items: seq<Item<T>>): seq<T> {
    if items == [] then [] else (if items[0].Other? then [items[0].value] else []) + Others(items[1..])
  }

  function MemberPools<T>(items: seq<Item<T>>): set<string> {
    set i | 0 <= i < |items| && items[i].MemberUpdate? :: items[i].pool
  }

  lemma MemberPoolsStep<T>(items: seq<Item<T>>)
    requires items != []
    ensures MemberPools(items) == MemberPools(items[1..]) + (if items[0].MemberUpdate? then {items[0].pool} else {})
  {
  }

  lemma {:induction false} CountPositive<T>(items: seq<Item<T>>, pool: string)
    ensures Count(items, pool) > 0 <==> pool in MemberPools(items)
  {
    if items == [] {
    } else {
      CountPositive(items[1..], pool);
      MemberPoolsStep(items);
    }
  }

  /** What is left after step 8: at most one member update per pool, and only where there was just one. */
  lemma {:induction false} MergeFromCounts<T>(all: seq<Item<T>>, done: seq<Item<T>>, rest: seq<Item<T>>,
                                              replaced: set<string>, pool: string)
    requires all == done + rest
    ensures Count(MergeFrom(all, rest, replaced), pool) == if Count(all, pool) == 1 then Count(rest, pool) else 0
    decreases |rest|
  {
    if rest == [] {
    } else {
      var x := rest[0];
      assert done + rest == (done + [x]) + rest[1..];
      MergeFromCounts(all, done + [x], rest[1..], After(all, x, replaced), pool);
      var out := Outcome(all, x, replaced);
      CountConcat(out, MergeFrom(all, rest[1..], After(all, x, replaced)), pool);
      assert out == [] || out[1..] == [];
    }
  }

  lemma AtMostOneMemberUpdatePerPool<T>(items: seq<Item<T>>, pool: string)
    ensures Count(Merge(items), pool) == if Count(items, pool) == 1 then 1 else 0
  {
    assert [] + items == items;
    MergeFromCounts(items, [], items, {}, pool);
  }

  /** A list in which no pool has two member updates is left alone. */
  lemma {:induction false} MergeFromSingles<T>(all: seq<Item<T>>, rest: seq<Item<T>>, replaced: set<string>)
    requires forall i :: 0 <= i < |rest| && rest[i].MemberUpdate? ==> Count(all, rest[i].pool) == 1
    ensures MergeFrom(all, rest, replaced) == rest
    decreases |rest|
  {
    if rest == [] {
    } else {
      MergeFromSingles(all, rest[1..], replaced);
    }
  }

  lemma NothingToMerge<T>(items: seq<Item<T>>)
    requires forall pool :: Count(items, pool) <= 1
    ensures Merge(items) == items
  {
    forall i | 0 <= i < |items| && items[i].MemberUpdate? ensures Count(items, items[i].pool) == 1 {
      assert items[i].pool in MemberPools(items);
      CountPositive(items, items[i].pool);
    }
    MergeFromSingles(items, items, {});
  }

  /** Everything that is not a member update is kept, in order. */
  lemma {:induction false} MergeFromKeepsOthers<T>(all: seq<Item<T>>, rest: seq<Item<T>>, replaced: set<string>)
    ensures Others(MergeFrom(all, rest, replaced)) == Others(rest)
    decreases |rest|
  {
    hide Count;
    if rest == [] {
    } else {
      var out, more := Outcome(all, rest[0], replaced), MergeFrom(all, rest[1..], After(all, rest[0], replaced));
      MergeFromKeepsOthers(all, rest[1..], After(all, rest[0], replaced));
      assert out != [] ==> (out + more)[0] == out[0] && (out + more)[1..] == more;
      assert out == [] ==> out + more == more;
      assert [] + Others(more) == Others(more);
    }
  }

  lemma MergeKeepsOthers<T>(items: seq<Item<T>>)
    ensures Others(Merge(items)) == Others(items)
  {
    MergeFromKeepsOthers(items, items, {});
  }

  /** The pools whose member updates have been replaced once `done` has been looked at. */
  ghost predicate HaveReplacement<T>(all: seq<Item<T>>, done: seq<Item<T>>, replaced: set<string>) {
    forall n :: n in replaced <==> Count(done, n) > 0 && Count(all, n) > 1
  }

  lemma CountSplit<T>(done: seq<Item<T>>, x: Item<T>, tail: seq<Item<T>>, pool: string)
    ensures var one := if x.MemberUpdate? && x.pool == pool then 1 else 0;
      && Count(done + [x], pool) == Count(done, pool) + one
      && Count([x] + tail, pool) == one + Count(tail, pool)
      && Count(done + ([x] + tail), pool) == Count(done, pool) + one + Count(tail, pool)
  {
    CountConcat(done, [x], pool);
    CountConcat([x], tail, pool);
    CountConcat(done, [x] + tail, pool);
    assert [x][1..] == [];
  }

  lemma HaveReplacementStep<T>(all: seq<Item<T>>, done: seq<Item<T>>, x: Item<T>, tail: seq<Item<T>>,
                               replaced: set<string>)
    requires all == done + ([x] + tail) && HaveReplacement(all, done, replaced)
    ensures HaveReplacement(all, done + [x], After(all, x, replaced))
  {
    hide Count;
    forall n ensures n in After(all, x, replaced) <==> Count(done + [x], n) > 0 && Count(all, n) > 1 {
      CountSplit(done, x, tail, n);
    }
  }

  /** One update leaves a line for its pool exactly when the pool's line is still to come and is not left to a later
      one. */
  lemma OutcomeSize<T>(all: seq<Item<T>>, done: seq<Item<T>>, x: Item<T>, tail: seq<Item<T>>, replaced: set<string>)
    requires all == done + ([x] + tail) && HaveReplacement(all, done, replaced)
    requires x.MemberUpdate?
    ensures |MemberPools([x] + tail) - replaced|
         == |MemberPools(tail) - After(all, x, replaced)| + |Outcome(all, x, replaced)|
  {
    hide MemberPools, Count;
    MemberPoolsStep([x] + tail);
    assert ([x] + tail)[1..] == tail;
    CountSplit(done, x, tail, x.pool);
    CountPositive(tail, x.pool);
    var before, after := MemberPools([x] + tail) - replaced, MemberPools(tail) - After(all, x, replaced);
    if Count(all, x.pool) == 1 || x.pool !in replaced {
      assert before == after + {x.pool};
    } else {
      assert before == after;
    }
  }

  lemma {:induction false} MergeFromLength<T>(all: seq<Item<T>>, done: seq<Item<T>>, rest: seq<Item<T>>,
                                              replaced: set<string>)
    requires all == done + rest && HaveReplacement(all, done, replaced)
    requires forall i :: 0 <= i < |rest| ==> !rest[i].Replacement?
    ensures |MergeFrom(all, rest, replaced)| == |Others(rest)| + |MemberPools(rest) - replaced|
    decreases |rest|
  {
    if rest == [] {
      assert MemberPools(rest) - replaced == {};
    } else {
      var x, tail := rest[0], rest[1..];
      assert rest == [x] + tail && done + rest == (done + [x]) + tail;
      HaveReplacementStep(all, done, x, tail, replaced);
      MergeFromLength(all, done + [x], tail, After(all, x, replaced));
      if x.MemberUpdate? {
        OutcomeSize(all, done, x, tail, replaced);
      } else {
        MemberPoolsStep(rest);
        assert MemberPools(rest) == MemberPools(tail);
      }
    }
  }

  /** Step 8 leaves the other updates and one line for each pool that has member updates. */
  lemma MergeLength<T>(items: seq<Item<T>>)
    requires forall i :: 0 <= i < |items| ==> !items[i].Replacement?
    ensures |Merge(items)| == |Others(items)| + |MemberPools(items)|
  {
    assert [] + items == items;
    assert MemberPools(items) - {} == MemberPools(items);
    MergeFromLength(items, [], items, {});
  }

  // ---------------------------------------------------------------- on lines and on actions

  predicate IsMemberCommand(word: string) {
    word == CREATE_POOL_MEMBER || word == DELETE_POOL_MEMBER
  }

  /** Lines that step 8 can split without running off the end. */
  predicate Splittable(line: string) {
    |Words(line)| >= 2 && (IsMemberCommand(Words(line)[0]) ==> |Words(line)| >= 3)
  }

  function LineItem(line: string): Item<string>
    requires Splittable(line)
  {
    var w := Words(line);
    if IsMemberCommand(w[0]) then
      MemberUpdate(line, w[1], REPLACE_POOL_MEMBERS + " " + w[1] + " " + w[2])
    else Other(line)
  }

  function LineItems(lines: seq<string>): (r: seq<Item<string>>)
    requires forall i :: 0 <= i < |lines| ==> Splittable(lines[i])
    ensures |r| == |lines|
    ensures forall i :: 0 <= i < |r| ==> r[i] == LineItem(lines[i])
  {
    seq(|lines|, i requires 0 <= i < |lines| => LineItem(lines[i]))
  }

  function ActionItem(a: Action): Item<Action> {
    if a.IsMemberUpdate() then MemberUpdate(a, a.poolName, ReplaceMembers(a.poolName, a.poolId)) else Other(a)
  }

  function ActionItems(actions: seq<Action>): (r: seq<Item<Action>>)
    ensures |r| == |actions|
    ensures forall i :: 0 <= i < |r| ==> r[i] == ActionItem(actions[i])
  {
    seq(|actions|, i requires 0 <= i < |actions| => ActionItem(actions[i]))
  }

  /** Step 8 on actions. */
  function Coalesce(actions: seq<Action>): seq<Action> {
    Values(Merge(ActionItems(actions)))
  }

  /** Step 8 on lines. */
  function CoalesceLines(lines: seq<string>): seq<string>
    requires forall i :: 0 <= i < |lines| ==> Splittable(lines[i])
  {
    Values(Merge(LineItems(lines)))
  }

  /** A line item is the printed form of an action item. */
  predicate Prints(x: Item<string>, y: Item<Action>) {
    && x.value == Print(y.value) && x.MemberUpdate? == y.MemberUpdate? && x.Replacement? == y.Replacement?
    && (x.MemberUpdate? ==> x.pool == y.pool && x.replacement == Print(y.replacement))
  }

  predicate AllPrint(xs: seq<Item<string>>, ys: seq<Item<Action>>) {
    |xs| == |ys| && forall i :: 0 <= i < |xs| ==> Prints(xs[i], ys[i])
  }

  lemma {:induction false} CountPrints(xs: seq<Item<string>>, ys: seq<Item<Action>>, pool: string)
    requires AllPrint(xs, ys)
    ensures Count(xs, pool) == Count(ys, pool)
    decreases |xs|
  {
    hide Print;
    if xs == [] {
    } else {
      CountPrints(xs[1..], ys[1..], pool);
    }
  }

  lemma {:induction false} MergePrints(allX: seq<Item<string>>, allY: seq<Item<Action>>, xs: seq<Item<string>>,
                                       ys: seq<Item<Action>>, replaced: set<string>)
    requires AllPrint(allX, allY) && AllPrint(xs, ys)
    ensures AllPrint(MergeFrom(allX, xs, replaced), MergeFrom(allY, ys, replaced))
    decreases |xs|
  {
    hide Print;
    if xs == [] {
    } else {
      if xs[0].MemberUpdate? {
        CountPrints(allX, allY, xs[0].pool);
      }
      assert After(allX, xs[0], replaced) == After(allY, ys[0], replaced);
      MergePrints(allX, allY, xs[1..], ys[1..], After(allX, xs[0], replaced));
      assert AllPrint(Outcome(allX, xs[0], replaced), Outcome(allY, ys[0], replaced));
    }
  }

  lemma ItemOfPrint(a: Action)
    requires CleanAction(a)
    ensures Splittable(Print(a)) && Prints(LineItem(Print(a)), ActionItem(a))
  {
    hide Words;
    DecodeOfPrint(a);
    assert |Arguments(a)| >= 1;
    assert a.IsMemberUpdate() ==> Arguments(a)[0] == a.poolName && Arguments(a)[1] == a.poolId;
    assert IsMemberCommand(Command(a)) <==> a.IsMemberUpdate();
  }

  /** Coalescing the text of a plan and printing the coalesced plan are the same. */
  lemma CoalesceLinesOfPlan(actions: seq<Action>)
    requires Clean(actions)
    ensures forall i :: 0 <= i < |actions| ==> Splittable(Print(actions[i]))
    ensures CoalesceLines(Lines(actions)) == Lines(Coalesce(actions))
  {
    hide Print, CleanAction, Splittable, LineItem, ActionItem;
    forall i | 0 <= i < |actions|
      ensures Splittable(Print(actions[i])) && Prints(LineItem(Print(actions[i])), ActionItem(actions[i]))
    {
      ItemOfPrint(actions[i]);
    }
    var xs, ys := LineItems(Lines(actions)), ActionItems(actions);
    MergePrints(xs, ys, xs, ys, {});
  }

  function CountOf(poolUpdates: map<string, int>, pool: string): int {
    if pool in poolUpdates then poolUpdates[pool] else 0
  }

  lemma NoCounts()
    ensures forall n: string :: Count<string>([], n) == 0
  {
  }

  /** The counting pass of `checkForMultiplePoolMemberUpdates`. */
  method CountPoolUpdates(updates: seq<string>) returns (poolUpdates: map<string, int>)
    requires forall i :: 0 <= i < |updates| ==> Splittable(updates[i])
    ensures forall n :: CountOf(poolUpdates, n) == Count(LineItems(updates), n)
    ensures forall n :: n in poolUpdates ==> poolUpdates[n] > 0
  {
    hide Words, Splittable, Count;
    ghost var items := LineItems(updates);
    poolUpdates := map[];
    assert items[..0] == [] && forall n: string :: Count<string>([], n) == 0 by { NoCounts(); }
    for i := 0 to |updates|
      invariant forall n :: CountOf(poolUpdates, n) == Count(items[..i], n)
      invariant forall n :: n in poolUpdates ==> poolUpdates[n] > 0
    {
      SplittableWords(updates[i]);
      assert items[..i + 1] == items[..i] + [items[i]];
      forall n ensures Count(items[..i + 1], n) ==
        Count(items[..i], n) + if items[i].MemberUpdate? && items[i].pool == n then 1 else 0
      {
        CountSplit(items[..i], items[i], [], n);
      }
      var words := Words(updates[i]);
      if words[0] == "CREATE-POOL-MEMBER" || words[0] == "DELETE-POOL-MEMBER" {
        poolUpdates := poolUpdates[words[1] := CountOf(poolUpdates, words[1]) + 1];
      }
    }
    assert items[..|updates|] == items;
  }

  /** `checkForMultiplePoolMemberUpdates`: the filtering pass zeroes a pool's count when it has put in the
      replacement. */
  method CheckForMultiplePoolMemberUpdates(updates: seq<string>) returns (r: seq<string>)
    requires forall i :: 0 <= i < |updates| ==> Splittable(updates[i])
    ensures r == CoalesceLines(updates)
  {
    hide Words, Splittable, Count, CoalesceLines;
    CoalesceLinesIs(updates);
    ghost var items := LineItems(updates);
    var poolUpdates := CountPoolUpdates(updates);
    var filterNeeded := false;
    if n :| n in poolUpdates && poolUpdates[n] > 1 {
      filterNeeded := true;
    }
    if !filterNeeded {
      assert forall n :: CountOf(poolUpdates, n) <= 1;
      NothingToMerge(items);
      assert Values(items) == updates;
      return updates;
    }

    var filtered: seq<string> := [];
    ghost var replaced: set<string> := {};
    hide MergeFrom, Outcome, After;
    for i := 0 to |updates|
      invariant filtered + Values(MergeFrom(items, items[i..], replaced)) == CoalesceLines(updates)
      invariant forall n :: CountOf(poolUpdates, n) == if n in replaced then 0 else Count(items, n)
      invariant forall n :: n in replaced ==> Count(items, n) > 1
    {
      SplittableWords(updates[i]);
      OutcomeValues(items, items[i], replaced);
      FilterStep(items, i, replaced, filtered);
      var words := Words(updates[i]);
      if words[0] != "CREATE-POOL-MEMBER" && words[0] != "DELETE-POOL-MEMBER" {
        filtered := filtered + [updates[i]];
        continue;
      }
      var poolName, poolId := words[1], words[2];
      ItemIsCounted(items, i);
      if CountOf(poolUpdates, poolName) == 1 {
        filtered := filtered + [updates[i]];
      } else if CountOf(poolUpdates, poolName) > 1 {
        filtered := filtered + ["REPLACE-POOL-MEMBERS" + " " + poolName + " " + poolId];
        poolUpdates := poolUpdates[poolName := 0];
        replaced := replaced + {poolName};
      } else {
        assert filtered + [] == filtered;
      }
    }
    NothingLeft(items, replaced, filtered);
    r := filtered;
  }

  lemma NothingLeft(items: seq<Item<string>>, replaced: set<string>, filtered: seq<string>)
    ensures filtered + Values(MergeFrom(items, items[|items|..], replaced)) == filtered
  {
  }

  lemma OutcomeValues(all: seq<Item<string>>, x: Item<string>, replaced: set<string>)
    ensures !x.MemberUpdate? || Count(all, x.pool) == 1 ==>
      Values(Outcome(all, x, replaced)) == [x.value] && After(all, x, replaced) == replaced
    ensures x.MemberUpdate? && Count(all, x.pool) > 1 && x.pool !in replaced ==>
      Values(Outcome(all, x, replaced)) == [x.replacement] && After(all, x, replaced) == replaced + {x.pool}
    ensures x.MemberUpdate? && Count(all, x.pool) > 1 && x.pool in replaced ==>
      Values(Outcome(all, x, replaced)) == [] && After(all, x, replaced) == replaced
  {
  }

  lemma FilterStep(items: seq<Item<string>>, i: nat, replaced: set<string>, filtered: seq<string>)
    requires i < |items|
    ensures filtered + Values(Outcome(items, items[i], replaced))
      + Values(MergeFrom(items, items[i + 1..], After(items, items[i], replaced)))
         == filtered + Values(MergeFrom(items, items[i..], replaced))
  {
  }

  lemma CoalesceLinesIs(lines: seq<string>)
    requires forall i :: 0 <= i < |lines| ==> Splittable(lines[i])
    ensures CoalesceLines(lines) == Values(MergeFrom(LineItems(lines), LineItems(lines), {}))
  {
  }

  lemma ItemIsCounted<T>(items: seq<Item<T>>, i: nat)
    requires i < |items| && items[i].MemberUpdate?
    ensures Count(items, items[i].pool) > 0
  {
    assert items[i].pool in MemberPools(items);
    CountPositive(items, items[i].pool);
  }

  lemma SplittableWords(line: string)
    requires Splittable(line)
    ensures |Words(line)| >= 2 && (IsMemberCommand(Words(line)[0]) ==> |Words(line)| >= 3)
  {
  }

  /** Coalescing lines twice changes nothing more: a replacement line is not a member update. */
  lemma CoalesceLinesIdempotent(lines: seq<string>)
    requires forall i :: 0 <= i < |lines| ==> Splittable(lines[i])
    ensures forall i :: 0 <= i < |CoalesceLines(lines)| ==> Splittable(CoalesceLines(lines)[i])
    ensures CoalesceLines(CoalesceLines(lines)) == CoalesceLines(lines)
  {
    hide Words, Splittable, LineItem, MergeFrom, Count;
    var items := LineItems(lines);
    var out := Merge(items);
    forall i | 0 <= i < |items| ensures Stable(items[i]) {
      LineItemStable(lines[i]);
    }
    MergeStable(items, items, {});
    assert forall i :: 0 <= i < |out| ==> Stable(out[i]);
    forall pool ensures Count(LineItems(Values(out)), pool) <= 1 {
      AtMostOneMemberUpdatePerPool(items, pool);
      StableCounts(out, pool);
    }
    NothingToMerge(LineItems(Values(out)));
    assert Values(LineItems(Values(out))) == Values(out);
  }

  /** The line of an item, and of what replaces it, reads as the same kind of update. */
  predicate Stable(x: Item<string>) {
    && Splittable(x.value)
    && (if x.MemberUpdate? then LineItem(x.value) == x else LineItem(x.value) == Other(x.value))
    && (x.MemberUpdate? ==> Splittable(x.replacement) && LineItem(x.replacement) == Other(x.replacement))
  }

  lemma {:induction false} StableCounts(items: seq<Item<string>>, pool: string)
    requires forall i :: 0 <= i < |items| ==> Stable(items[i])
    ensures forall i :: 0 <= i < |items| ==> Splittable(Values(items)[i])
    ensures Count(LineItems(Values(items)), pool) == Count(items, pool)
  {
    hide Splittable, LineItem;
    if items == [] {
    } else {
      StableCounts(items[1..], pool);
      assert LineItems(Values(items))[1..] == LineItems(Values(items[1..]));
    }
  }

  lemma WordsAreTokens(s: string, word: string)
    requires SpaceFree(word)
    ensures forall i :: 0 <= i < |WordsFrom(s, word)| ==> Token(WordsFrom(s, word)[i])
    decreases |s|
  {
  }

  lemma LineItemStable(line: string)
    requires Splittable(line)
    ensures Stable(LineItem(line))
  {
    var w := Words(line);
    if IsMemberCommand(w[0]) {
      WordsAreTokens(line, "");
      var a := ReplaceMembers(w[1], w[2]);
      assert CleanAction(a);
      hide Words;
      DecodeOfPrint(a);
    }
  }

  lemma {:induction false} MergeStable(all: seq<Item<string>>, rest: seq<Item<string>>, replaced: set<string>)
    requires forall i :: 0 <= i < |rest| ==> Stable(rest[i])
    ensures forall i :: 0 <= i < |MergeFrom(all, rest, replaced)| ==> Stable(MergeFrom(all, rest, replaced)[i])
    decreases |rest|
  {
    hide Splittable, LineItem, Words, Count;
    if rest == [] {
    } else {
      MergeStable(all, rest[1..], After(all, rest[0], replaced));
      assert Stable(rest[0]);
    }
  }
}
