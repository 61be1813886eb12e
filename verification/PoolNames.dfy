/** Pool names: `<protocol>-<port>-<nodePort>`. */
module PoolNames {
  import opened Text

  /** Go's `int32`, the type of a Kubernetes port number. */
  type Int32 = n: int | -0x8000_0000 <= n < 0x8000_0000

  datatype NameFields = NameFields(protocol: string, port: int, nodePort: int)

  /** One port of a Kubernetes service. */
  datatype ServicePort = ServicePort(protocol: string, port: Int32, nodePort: Int32)

  const TCP := "tcp"
  const UDP := "udp"

  /** `extractProtocolPortsFromPoolName`; `None` stands for each of its error returns. */
  function ParsePoolName(name: string): (r: Option<NameFields>)
    ensures r.Some? ==> r.value.protocol in {TCP, UDP}
  {
    var pieces := Split(name, '-');
    if |pieces| != 3 then None
    else if pieces[0] != TCP && pieces[0] != UDP then None
    else
      match (Atoi(pieces[1]), Atoi(pieces[2]))
      case (Some(port), Some(nodePort)) => Some(NameFields(pieces[0], port, nodePort))
      case (_, _) => None
  }

  function PoolNameText(f: NameFields): string {
    f.protocol + "-" + IntText(f.port) + "-" + IntText(f.nodePort)
  }

  /** `genLoadBalancerPoolName`. */
  function GenPoolName(sp: ServicePort): string {
    PoolNameText(NameFields(ToLower(sp.protocol), sp.port, sp.nodePort))
  }

  /** Fields that a pool name can carry there and back. */
  predicate Carried(f: NameFields) {
    f.protocol in {TCP, UDP} && 0 <= f.port < INT64_LIMIT && 0 <= f.nodePort < INT64_LIMIT
  }

  /** A name that is exactly what the printer writes for the fields it parses to. */
  predicate Canonical(name: string) {
    ParsePoolName(name).Some? && PoolNameText(ParsePoolName(name).value) == name
  }

  /** A name the provider can read. */
  predicate Parses(name: string) { ParsePoolName(name).Some? }

  lemma SplitThree(a: string, b: string, c: string)
    requires '-' !in a && '-' !in b && '-' !in c
    ensures Split(a + "-" + b + "-" + c, '-') == [a, b, c]
  {
    assert a + "-" + b + "-" + c == a + ['-'] + (b + ['-'] + c);
    hide Split;
    SplitPiece(a, b + ['-'] + c, '-');
    SplitPiece(b, c, '-');
    SplitPiece(c, "", '-');
  }

  lemma ParseThree(protocol: string, a: string, b: string, port: int, nodePort: int)
    requires protocol in {TCP, UDP} && '-' !in protocol && '-' !in a && '-' !in b
    requires Atoi(a) == Some(port) && Atoi(b) == Some(nodePort)
    ensures ParsePoolName(protocol + "-" + a + "-" + b) == Some(NameFields(protocol, port, nodePort))
  {
    SplitThree(protocol, a, b);
    hide Split, Atoi;
    var pieces := Split(protocol + "-" + a + "-" + b, '-');
    assert |pieces| == 3 && pieces[0] == protocol && pieces[1] == a && pieces[2] == b;
  }

  lemma TokenThree(a: string, b: string, c: string)
    requires Token(a) && Token(b) && Token(c)
    ensures Token(a + "-" + b + "-" + c)
  {
  }

  lemma ProtocolsAreTokens(protocol: string)
    requires protocol in {TCP, UDP}
    ensures Token(protocol) && '-' !in protocol
  {
  }

  /** Parsing a printed name gives the fields back. */
  lemma ParseOfPoolNameText(f: NameFields)
    requires Carried(f)
    ensures ParsePoolName(PoolNameText(f)) == Some(f)
    ensures Token(PoolNameText(f)) && Canonical(PoolNameText(f))
  {
    AtoiOfIntText(f.port);
    AtoiOfIntText(f.nodePort);
    ProtocolsAreTokens(f.protocol);
    hide Atoi, IntText, Token, ParsePoolName;
    ParseThree(f.protocol, IntText(f.port), IntText(f.nodePort), f.port, f.nodePort);
    TokenThree(f.protocol, IntText(f.port), IntText(f.nodePort));
  }

  /** Two names that print alike carry the same fields. */
  lemma PoolNameTextInjective(f: NameFields, g: NameFields)
    requires Carried(f) && Carried(g) && PoolNameText(f) == PoolNameText(g)
    ensures f == g
  {
    ParseOfPoolNameText(f);
    ParseOfPoolNameText(g);
  }

  lemma SplitFromHasNoSeparator(s: string, sep: char, piece: string)
    requires sep !in piece
    ensures forall i :: 0 <= i < |SplitFrom(s, sep, piece)| ==> sep !in SplitFrom(s, sep, piece)[i]
    decreases |s|
  {
  }

  /** Whatever parses carries ports that are not negative: the separator is the minus sign. */
  lemma ParsedPortsAreNatural(name: string)
    requires ParsePoolName(name).Some?
    ensures Carried(ParsePoolName(name).value)
  {
    SplitFromHasNoSeparator(name, '-', "");
    var pieces := Split(name, '-');
    forall s: string | '-' !in s && Atoi(s).Some? ensures 0 <= Atoi(s).value {
      assert s != "" && s[0] in s;
    }
  }

  /** The text stands for the number in a pool name. */
  predicate Reads(s: string, n: int) {
    '-' !in s && Atoi(s) == Some(n)
  }

  /** What parses: three pieces, of which the first is tcp or udp and the others are numbers. */
  lemma ParsesIff(name: string, f: NameFields)
    ensures ParsePoolName(name) == Some(f) <==>
      && f.protocol in {"tcp", "udp"}
      && exists a, b :: Reads(a, f.port) && Reads(b, f.nodePort) && name == f.protocol + "-" + a + "-" + b
  {
    ProtocolsAreTokens(TCP);
    ProtocolsAreTokens(UDP);
    hide Atoi;
    if ParsePoolName(name) == Some(f) {
      var pieces := Split(name, '-');
      SplitFromHasNoSeparator(name, '-', "");
      JoinSplitFrom(name, '-', "");
      JoinOfThree(pieces);
      assert "" + name == name;
      assert Reads(pieces[1], f.port) && Reads(pieces[2], f.nodePort);
    }
    if a, b :| f.protocol in {TCP, UDP} && name == f.protocol + "-" + a + "-" + b && Reads(a, f.port)
               && Reads(b, f.nodePort) {
      ParseThree(f.protocol, a, b, f.port, f.nodePort);
    }
  }

  /** Whatever parses is a single word. */
  lemma ParsedNamesAreTokens(name: string)
    requires Parses(name)
    ensures Token(name)
  {
    var pieces := Split(name, '-');
    JoinSplitFrom(name, '-', "");
    JoinOfThree(pieces);
    ProtocolsAreTokens(pieces[0]);
    NumbersAreTokens(pieces[1]);
    NumbersAreTokens(pieces[2]);
    assert "" + name == name;
    hide Token, Atoi, Join;
    TokenThree(pieces[0], pieces[1], pieces[2]);
  }

  lemma JoinOfThree(pieces: seq<string>)
    requires |pieces| == 3
    ensures Join(pieces, ['-']) == pieces[0] + "-" + pieces[1] + "-" + pieces[2]
  {
    assert pieces[1..][1..] == [pieces[2]];
    assert Join(pieces[1..], ['-']) == pieces[1] + "-" + pieces[2];
  }

  /** A leading zero parses to the same fields, so parsing alone does not make a name canonical. */
  lemma LeadingZeroIsNotCanonical(f: NameFields)
    requires Carried(f)
    ensures var name := f.protocol + "-" + ("0" + IntText(f.port)) + "-" + IntText(f.nodePort);
      ParsePoolName(name) == Some(f) && !Canonical(name)
  {
    var port, nodePort := IntText(f.port), IntText(f.nodePort);
    AtoiOfIntText(f.port);
    AtoiOfIntText(f.nodePort);
    DigitsValueOfNatText(f.port);
    var padded := "0" + port;
    PaddedNumber(port, f.port);
    ProtocolsAreTokens(f.protocol);
    ParseOfPoolNameText(f);
    hide Atoi, IntText, ParsePoolName, DigitsValue;
    var name := f.protocol + "-" + padded + "-" + nodePort;
    ParseThree(f.protocol, padded, nodePort, f.port, f.nodePort);
    assert |name| == |PoolNameText(f)| + 1;
  }

  lemma PaddedNumber(digits: string, n: nat)
    requires Digits(digits) && digits != "" && DigitsValue(digits) == n < INT64_LIMIT
    ensures Atoi("0" + digits) == Some(n) && '-' !in "0" + digits
  {
    DigitsValueLeadingZero(digits);
  }
}
