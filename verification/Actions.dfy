/** The eight update operations and the line of text each is carried in. */
module Actions {
  import opened Text

  datatype Action =
    | CreateListener(poolName: string)
    | CreatePool(poolName: string)
    | CreateMember(poolName: string, poolId: string, node: string)
    | DeleteListener(poolName: string, listenerId: string)
    | DeletePool(poolName: string, poolId: string)
    | DeleteMember(poolName: string, poolId: string, memberId: string, node: string)
    | ReplaceMembers(poolName: string, poolId: string)
    | UpdatePool(poolName: string, poolId: string)
  {
    predicate IsMemberUpdate() { CreateMember? || DeleteMember? }

    /** The operations on one existing pool, which carry that pool's ID. */
    predicate OnPool() { CreateMember? || DeletePool? || DeleteMember? || ReplaceMembers? || UpdatePool? }
  }

  const CREATE_LISTENER := "CREATE-LISTENER"
  const CREATE_POOL := "CREATE-POOL"
  const CREATE_POOL_MEMBER := "CREATE-POOL-MEMBER"
  const DELETE_LISTENER := "DELETE-LISTENER"
  const DELETE_POOL := "DELETE-POOL"
  const DELETE_POOL_MEMBER := "DELETE-POOL-MEMBER"
  const REPLACE_POOL_MEMBERS := "REPLACE-POOL-MEMBERS"
  const UPDATE_POOL := "UPDATE-POOL"

  const POOL_TO_BE_DELETED := "POOL-TO-BE-DELETED"

  datatype Error =
    | MissingArgument
    | BadPoolName
    | UnsupportedOperation
    | ExistingPoolNotFound
    | PoolNotFound
    | NotTcp
    | NotReady
    | NoNodes
    | TypeUpdated
    | SubnetsUpdated
    | InvalidSubnet
    | OtherVpc
    | Refused       // the request breaks a rule of the cloud
    | CloudFailure  // the cloud failed for its own reasons

  datatype Result<+T> = Ok(value: T) | Err(error: Error)

  function Command(a: Action): string {
    match a
    case CreateListener(_) => CREATE_LISTENER
    case CreatePool(_) => CREATE_POOL
    case CreateMember(_, _, _) => CREATE_POOL_MEMBER
    case DeleteListener(_, _) => DELETE_LISTENER
    case DeletePool(_, _) => DELETE_POOL
    case DeleteMember(_, _, _, _) => DELETE_POOL_MEMBER
    case ReplaceMembers(_, _) => REPLACE_POOL_MEMBERS
    case UpdatePool(_, _) => UPDATE_POOL
  }

  function Arguments(a: Action): seq<string> {
    match a
    case CreateListener(n) => [n]
    case CreatePool(n) => [n]
    case CreateMember(n, p, node) => [n, p, node]
    case DeleteListener(n, l) => [n, l]
    case DeletePool(n, p) => [n, p]
    case DeleteMember(n, p, m, node) => [n, p, m, node]
    case ReplaceMembers(n, p) => [n, p]
    case UpdatePool(n, p) => [n, p]
  }

  /** The line of text the planner writes for an action. */
  function Print(a: Action): string {
    match a
    case CreateListener(n) => CREATE_LISTENER + " " + n
    case CreatePool(n) => CREATE_POOL + " " + n
    case CreateMember(n, p, node) => CREATE_POOL_MEMBER + " " + n + " " + p + " " + node
    case DeleteListener(n, l) => DELETE_LISTENER + " " + n + " " + l
    case DeletePool(n, p) => DELETE_POOL + " " + n + " " + p
    case DeleteMember(n, p, m, node) => DELETE_POOL_MEMBER + " " + n + " " + p + " " + m + " " + node
    case ReplaceMembers(n, p) => REPLACE_POOL_MEMBERS + " " + n + " " + p
    case UpdatePool(n, p) => UPDATE_POOL + " " + n + " " + p
  }

  function Lines(actions: seq<Action>): (lines: seq<string>)
    ensures |lines| == |actions|
    ensures forall i :: 0 <= i < |lines| ==> lines[i] == Print(actions[i])
  {
    seq(|actions|, i requires 0 <= i < |actions| => Print(actions[i]))
  }

  /** What the executor makes of a line: the command word picks the operation, which counts its own arguments. */
  function Decode(line: string): Result<Action>
    requires Words(line) != []
  {
    var command := Words(line)[0];
    var args := TrimSpace(TrimPrefix(line, command));
    var words := Words(args);
    if command == CREATE_LISTENER then Ok(CreateListener(args))
    else if command == CREATE_POOL then Ok(CreatePool(args))
    else if command == CREATE_POOL_MEMBER then
      if |words| != 3 then Err(MissingArgument) else Ok(CreateMember(words[0], words[1], words[2]))
    else if command == DELETE_LISTENER then
      if |words| != 2 then Err(MissingArgument) else Ok(DeleteListener(words[0], words[1]))
    else if command == DELETE_POOL then
      if |words| != 2 then Err(MissingArgument) else Ok(DeletePool(words[0], words[1]))
    else if command == DELETE_POOL_MEMBER then
      if |words| != 4 then Err(MissingArgument) else Ok(DeleteMember(words[0], words[1], words[2], words[3]))
    else if command == UPDATE_POOL then
      if |words| != 2 then Err(MissingArgument) else Ok(UpdatePool(words[0], words[1]))
    else if command == REPLACE_POOL_MEMBERS then
      if |words| != 2 then Err(MissingArgument) else Ok(ReplaceMembers(words[0], words[1]))
    else Err(UnsupportedOperation)
  }

  /** An action whose every argument is a single word. */
  predicate CleanAction(a: Action) {
    forall i :: 0 <= i < |Arguments(a)| ==> Token(Arguments(a)[i])
  }

  predicate Clean(actions: seq<Action>) {
    forall i :: 0 <= i < |actions| ==> CleanAction(actions[i])
  }

  lemma CommandIsToken(a: Action)
    ensures Token(Command(a))
  {
  }

  /** `Join` of words with blanks splits into the words again. */
  lemma {:induction false} WordsOfJoin(ws: seq<string>)
    requires ws != [] && forall i :: 0 <= i < |ws| ==> Token(ws[i])
    ensures Words(Join(ws, " ")) == ws
  {
    if |ws| == 1 {
      WordsToken(ws[0], "");
    } else {
      WordsToken(ws[0], Join(ws[1..], " "));
      WordsOfJoin(ws[1..]);
    }
  }

  lemma TrimSpaceOfJoin(ws: seq<string>)
    requires ws != [] && forall i :: 0 <= i < |ws| ==> Token(ws[i])
    ensures TrimSpace(" " + Join(ws, " ")) == Join(ws, " ")
  {
    var s := Join(ws, " ");
    JoinEnds(ws);
    assert (" " + s)[1..] == s;
    assert TrimLeft(s) == s;
    assert TrimLeft(" " + s) == s;
  }

  lemma {:induction false} JoinEnds(ws: seq<string>)
    requires ws != [] && forall i :: 0 <= i < |ws| ==> Token(ws[i])
    ensures var s := Join(ws, " "); s != "" && !IsSpace(s[0]) && !IsSpace(s[|s| - 1])
  {
    if |ws| > 1 {
      JoinEnds(ws[1..]);
    }
  }

  lemma JoinTwo(c: string, a: string, b: string)
    ensures c + " " + a + " " + b == c + " " + Join([a, b], " ")
  {
  }

  lemma JoinThree(c: string, a: string, b: string, d: string)
    ensures c + " " + a + " " + b + " " + d == c + " " + Join([a, b, d], " ")
  {
    assert [a, b, d][1..] == [b, d];
    JoinTwo(a, b, d);
  }

  lemma JoinFour(c: string, a: string, b: string, d: string, e: string)
    ensures c + " " + a + " " + b + " " + d + " " + e == c + " " + Join([a, b, d, e], " ")
  {
    assert [a, b, d, e][1..] == [b, d, e];
    JoinThree(a, b, d, e);
  }

  lemma PrintIsJoin(a: Action)
    ensures Print(a) == Command(a) + " " + Join(Arguments(a), " ")
  {
    match a
    case CreateListener(n) =>
    case CreatePool(n) =>
    case CreateMember(n, p, node) => JoinThree(CREATE_POOL_MEMBER, n, p, node);
    case DeleteListener(n, l) => JoinTwo(DELETE_LISTENER, n, l);
    case DeletePool(n, p) => JoinTwo(DELETE_POOL, n, p);
    case DeleteMember(n, p, m, node) => JoinFour(DELETE_POOL_MEMBER, n, p, m, node);
    case ReplaceMembers(n, p) => JoinTwo(REPLACE_POOL_MEMBERS, n, p);
    case UpdatePool(n, p) => JoinTwo(UPDATE_POOL, n, p);
  }

  /** A line of words is its first word, a blank, and the rest. */
  lemma SplitLine(c: string, args: seq<string>)
    requires Token(c) && args != [] && forall i :: 0 <= i < |args| ==> Token(args[i])
    ensures var text := Join(args, " "); var line := c + " " + text;
      && Words(text) == args && Words(line) == [c] + args
      && TrimSpace(TrimPrefix(line, c)) == text
  {
    var text := Join(args, " ");
    var line := c + " " + text;
    WordsOfJoin(args);
    WordsToken(c, text);
    TrimSpaceOfJoin(args);
    hide Join, Words, TrimSpace;
    assert c <= line && line[|c|..] == " " + text;
  }

  /** Every line the planner prints is read back as the same action. */
  lemma DecodeOfPrint(a: Action)
    requires CleanAction(a)
    ensures Words(Print(a)) == [Command(a)] + Arguments(a)
    ensures Decode(Print(a)) == Ok(a)
  {
    PrintIsJoin(a);
    CommandIsToken(a);
    assert Arguments(a) != [];
    hide Command, Arguments, Print, Join, Decode, Words, TrimSpace, TrimPrefix;
    SplitLine(Command(a), Arguments(a));
    DecodeByCommand(Print(a), a);
  }

  lemma DecodeByCommand(line: string, a: Action)
    requires Words(line) != [] && Words(line)[0] == Command(a)
    requires TrimSpace(TrimPrefix(line, Command(a))) == Join(Arguments(a), " ")
    requires Words(Join(Arguments(a), " ")) == Arguments(a)
    ensures Decode(line) == Ok(a)
  {
    hide Words, TrimSpace, TrimPrefix;
    assert a.CreateListener? || a.CreatePool? ==> Join(Arguments(a), " ") == a.poolName;
  }

  /** Distinct clean actions print distinct lines. */
  lemma PrintInjective(a: Action, b: Action)
    requires CleanAction(a) && CleanAction(b) && Print(a) == Print(b)
    ensures a == b
  {
    DecodeOfPrint(a);
    DecodeOfPrint(b);
  }
}
