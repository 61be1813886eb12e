/** The few string operations of Go's `strings` and `strconv` packages that the provider relies on. */
module Text {

  datatype Option<+T> = None | Some(value: T)

  /** `unicode.IsSpace`. */
  predicate IsSpace(c: char) {
    var n := c as int;
    9 <= n <= 13 || n == 32 || n == 0x85 || n == 0xA0 || n == 0x1680 || 0x2000 <= n <= 0x200a
    || n == 0x2028 || n == 0x2029 || n == 0x202f || n == 0x205f || n == 0x3000
  }

  predicate SpaceFree(s: string) {
    forall i :: 0 <= i < |s| ==> !IsSpace(s[i])
  }

  /** A nonempty string without white space: what an action line can carry as one argument. */
  predicate Token(s: string) {
    s != "" && SpaceFree(s)
  }

  predicate NoRepeats(ss: seq<string>) {
    forall i, j :: 0 <= i < j < |ss| ==> ss[i] != ss[j]
  }

  // ---------------------------------------------------------------- strings.Fields, TrimSpace, TrimPrefix

  /** `strings.Fields`, scanning left to right with the word read so far. */
  function WordsFrom(s: string, word: string): seq<string>
    decreases |s|
  {
    if s == "" then (if word == "" then [] else [word])
    else if IsSpace(s[0]) then (if word == "" then [] else [word]) + WordsFrom(s[1..], "")
    else WordsFrom(s[1..], word + [s[0]])
  }

  function Words(s: string): seq<string> { WordsFrom(s, "") }

  function TrimLeft(s: string): string {
    if s != "" && IsSpace(s[0]) then TrimLeft(s[1..]) else s
  }

  function TrimRight(s: string): string {
    if s != "" && IsSpace(s[|s| - 1]) then TrimRight(s[..|s| - 1]) else s
  }

  function TrimSpace(s: string): string { TrimRight(TrimLeft(s)) }

  function TrimPrefix(s: string, prefix: string): string {
    if prefix <= s then s[|prefix|..] else s
  }

  lemma {:induction false} WordsAfterToken(t: string, rest: string, word: string)
    requires SpaceFree(t)
    ensures WordsFrom(t + rest, word) == WordsFrom(rest, word + t)
    decreases |t|
  {
    if t == "" {
      assert t + rest == rest && word + t == word;
    } else {
      assert (t + rest)[1..] == t[1..] + rest;
      assert word + [t[0]] + t[1..] == word + t;
      WordsAfterToken(t[1..], rest, word + [t[0]]);
    }
  }

  /** Reading one token and the blank after it. */
  lemma WordsToken(t: string, rest: string)
    requires Token(t)
    ensures Words(t + " " + rest) == [t] + Words(rest)
    ensures Words(t) == [t]
  {
    assert t + " " + rest == t + (" " + rest);
    WordsAfterToken(t, " " + rest, "");
    assert "" + t == t;
    assert (" " + rest)[1..] == rest;
    assert t + "" == t;
    WordsAfterToken(t, "", "");
  }

  // ---------------------------------------------------------------- strings.Join, Split, Contains

  function Join(ss: seq<string>, sep: string): string {
    if ss == [] then ""
    else if |ss| == 1 then ss[0]
    else ss[0] + sep + Join(ss[1..], sep)
  }

  function SplitFrom(s: string, sep: char, piece: string): (r: seq<string>)
    ensures |r| >= 1
    decreases |s|
  {
    if s == "" then [piece]
    else if s[0] == sep then [piece] + SplitFrom(s[1..], sep, "")
    else SplitFrom(s[1..], sep, piece + [s[0]])
  }

  /** `strings.Split` with a one-character separator. */
  function Split(s: string, sep: char): (r: seq<string>)
    ensures |r| >= 1
  {
    SplitFrom(s, sep, "")
  }

  /** `strings.Contains`: a match at some offset, tried left to right. */
  predicate Contains(s: string, sub: string)
    decreases |s|
  {
    sub <= s || (s != "" && Contains(s[1..], sub))
  }

  lemma {:induction false} SplitAfterPiece(t: string, rest: string, sep: char, piece: string)
    requires sep !in t
    ensures SplitFrom(t + rest, sep, piece) == SplitFrom(rest, sep, piece + t)
    decreases |t|
  {
    if t == "" {
      assert t + rest == rest && piece + t == piece;
    } else {
      assert (t + rest)[1..] == t[1..] + rest;
      assert piece + [t[0]] + t[1..] == piece + t;
      SplitAfterPiece(t[1..], rest, sep, piece + [t[0]]);
    }
  }

  lemma SplitPiece(t: string, rest: string, sep: char)
    requires sep !in t
    ensures Split(t + [sep] + rest, sep) == [t] + Split(rest, sep)
    ensures Split(t, sep) == [t]
  {
    assert t + [sep] + rest == t + ([sep] + rest);
    SplitAfterPiece(t, [sep] + rest, sep, "");
    assert "" + t == t;
    assert ([sep] + rest)[1..] == rest;
    assert t + "" == t;
    SplitAfterPiece(t, "", sep, "");
  }

  /** Joining the pieces of a split gives the string back. */
  lemma {:induction false} JoinSplitFrom(s: string, sep: char, piece: string)
    ensures Join(SplitFrom(s, sep, piece), [sep]) == piece + s
    decreases |s|
  {
    if s == "" {
      assert piece + s == piece;
    } else if s[0] == sep {
      JoinSplitFrom(s[1..], sep, "");
      var tail := SplitFrom(s[1..], sep, "");
      assert ([piece] + tail)[1..] == tail;
      assert piece + [sep] + ("" + s[1..]) == piece + s;
    } else {
      JoinSplitFrom(s[1..], sep, piece + [s[0]]);
      assert piece + [s[0]] + s[1..] == piece + s;
    }
  }

  /** A substring that starts with a blank is not found inside a word without blanks. */
  lemma {:induction false} ContainsSkipsWord(word: string, rest: string, sub: string)
    requires SpaceFree(word) && sub != "" && IsSpace(sub[0])
    ensures Contains(word + rest, sub) == Contains(rest, sub)
    decreases |word|
  {
    if word == "" {
      assert word + rest == rest;
    } else {
      assert (word + rest)[0] == word[0];
      assert (word + rest)[1..] == word[1..] + rest;
      ContainsSkipsWord(word[1..], rest, sub);
    }
  }

  /** The padded list the member check searches: one blank around and between the entries. */
  function Padded(ss: seq<string>): string { " " + Join(ss, " ") + " " }

  lemma PaddedPrefix(word: string, rest: string, t: string)
    requires Token(word) && Token(t) && rest != "" && rest[0] == ' '
    ensures (" " + t + " " <= " " + word + rest) <==> t == word
  {
    var s, sub := " " + word + rest, " " + t + " ";
    if sub <= s {
      assert forall i :: 0 <= i < |sub| ==> s[i] == sub[i];
      assert forall i :: 0 <= i < |t| ==> sub[i + 1] == t[i];
      assert forall i :: 0 <= i < |word| ==> s[i + 1] == word[i];
      assert sub[|t| + 1] == ' ' == s[|word| + 1];
      assert |t| == |word|;
    }
  }

  /** Searching the padded text for a padded target is list membership, the empty list included. */
  lemma {:induction false} PaddedContainsIffMember(ss: seq<string>, t: string)
    requires (forall i :: 0 <= i < |ss| ==> Token(ss[i])) && Token(t)
    ensures Contains(Padded(ss), " " + t + " ") <==> t in ss
    decreases |ss|
  {
    var sub := " " + t + " ";
    if ss == [] {
      var s := Padded(ss);
      assert s == "  " && s[1..] == " " && s[1..][1..] == "";
      assert sub[1] == t[0] != s[1];
    } else {
      PaddedStep(ss, t);
      assert ss == [ss[0]] + ss[1..];
      if |ss| > 1 {
        PaddedContainsIffMember(ss[1..], t);
      }
    }
  }

  lemma ContainsUnfold(s: string, sub: string)
    requires s != ""
    ensures Contains(s, sub) <==> sub <= s || Contains(s[1..], sub)
  {
  }

  lemma BlankContainsNothing(sub: string)
    requires |sub| > 1
    ensures !Contains(" ", sub)
  {
  }

  lemma PaddedUnfold(ss: seq<string>) returns (rest: string)
    requires ss != []
    ensures Padded(ss) == " " + ss[0] + rest && rest != "" && rest[0] == ' '
    ensures rest == if |ss| == 1 then " " else Padded(ss[1..])
  {
    rest := if |ss| == 1 then " " else Padded(ss[1..]);
  }

  lemma PaddedStep(ss: seq<string>, t: string)
    requires ss != [] && Token(ss[0]) && Token(t)
    ensures Contains(Padded(ss), " " + t + " ") <==>
      ss[0] == t || (|ss| > 1 && Contains(Padded(ss[1..]), " " + t + " "))
  {
    hide Contains, Padded;
    var word, sub := ss[0], " " + t + " ";
    var rest := PaddedUnfold(ss);
    PaddedPrefix(word, rest, t);
    assert (" " + word + rest)[1..] == word + rest;
    ContainsUnfold(" " + word + rest, sub);
    ContainsSkipsWord(word, rest, sub);
    BlankContainsNothing(sub);
  }

  // ---------------------------------------------------------------- strconv.Atoi, %d, ToLower, EqualFold

  predicate IsDigit(c: char) { '0' <= c <= '9' }

  predicate Digits(s: string) {
    forall i :: 0 <= i < |s| ==> IsDigit(s[i])
  }

  function DigitChar(d: nat): char
    requires d < 10
  {
    '0' + (d as char)
  }

  /** Decimal digits of a natural number, as `%d` prints it. */
  function NatText(n: nat): (s: string)
    ensures s != "" && Digits(s)
  {
    if n < 10 then [DigitChar(n)] else NatText(n / 10) + [DigitChar(n % 10)]
  }

  function IntText(n: int): string {
    if n < 0 then "-" + NatText(-n) else NatText(n)
  }

  function DigitsValue(s: string): nat
    requires Digits(s)
  {
    if s == "" then 0 else DigitsValue(s[..|s| - 1]) * 10 + (s[|s| - 1] as int - '0' as int)
  }

  const INT64_LIMIT: int := 0x8000_0000_0000_0000

  /** `strconv.Atoi` on a 64-bit platform: an optional sign, digits, and a value that fits. */
  function Atoi(s: string): Option<int> {
    var signed := s != "" && (s[0] == '-' || s[0] == '+');
    var digits := if signed then s[1..] else s;
    if digits == "" || !Digits(digits) then None
    else
      var magnitude: int := DigitsValue(digits);
      var value := if signed && s[0] == '-' then -magnitude else magnitude;
      if -INT64_LIMIT <= value < INT64_LIMIT then Some(value) else None
  }

  /** Whatever reads as a number is a single word. */
  lemma NumbersAreTokens(s: string)
    requires Atoi(s).Some?
    ensures Token(s)
  {
    forall i | 0 <= i < |s| ensures !IsSpace(s[i]) {
      assert i > 0 ==> s[i] == s[1..][i - 1];
    }
  }

  lemma {:induction false} DigitsValueOfNatText(n: nat)
    ensures DigitsValue(NatText(n)) == n
  {
    if n < 10 {
      assert NatText(n)[..0] == "";
    } else {
      DigitsValueOfNatText(n / 10);
      assert NatText(n)[..|NatText(n)| - 1] == NatText(n / 10);
    }
  }

  /** `Atoi` reads back what `%d` printed. */
  lemma AtoiOfIntText(n: int)
    requires 0 <= n < INT64_LIMIT
    ensures Atoi(IntText(n)) == Some(n)
    ensures '-' !in IntText(n) && Token(IntText(n))
  {
    DigitsValueOfNatText(n);
    var s := NatText(n);
    forall i | 0 <= i < |s| ensures s[i] != '-' && !IsSpace(s[i]) {
      assert IsDigit(s[i]);
    }
    assert IsDigit(s[0]);
  }

  /** What is read of a printed number behind a sign, and where 64 bits end. */
  lemma AtoiOfSigned(n: nat)
    ensures var s, m: int := NatText(n), n;
      && Atoi(s) == (if m < INT64_LIMIT then Some(m) else None)
      && Atoi(['+'] + s) == (if m < INT64_LIMIT then Some(m) else None)
      && Atoi(['-'] + s) == (if m <= INT64_LIMIT then Some(-m) else None)
  {
    hide DigitsValue, NatText, Atoi, Digits;
    DigitsValueOfNatText(n);
    AtoiOfDigits(NatText(n), '+');
    AtoiOfDigits(NatText(n), '-');
  }

  lemma AtoiOfDigits(s: string, sign: char)
    requires s != "" && Digits(s) && sign in {'+', '-'}
    ensures var n: int := DigitsValue(s);
      && Atoi(s) == (if n < INT64_LIMIT then Some(n) else None)
      && Atoi([sign] + s) == (if sign == '-' then (if n <= INT64_LIMIT then Some(-n) else None)
                              else if n < INT64_LIMIT then Some(n) else None)
  {
    hide DigitsValue;
    assert IsDigit(s[0]);
    assert ([sign] + s)[1..] == s;
  }

  lemma {:induction false} DigitsValueLeadingZero(s: string)
    requires Digits(s)
    ensures Digits("0" + s) && DigitsValue("0" + s) == DigitsValue(s)
    decreases |s|
  {
    var t := "0" + s;
    assert forall i :: 0 < i < |t| ==> t[i] == s[i - 1];
    if s == "" {
      assert t[..|t| - 1] == "";
    } else {
      DigitsValueLeadingZero(s[..|s| - 1]);
      assert t[..|t| - 1] == "0" + s[..|s| - 1];
    }
  }

  function LowerChar(c: char): char {
    if 'A' <= c <= 'Z' then c - 'A' + 'a' else c
  }

  /** `strings.ToLower` on ASCII letters. */
  function ToLower(s: string): (r: string)
    ensures |r| == |s|
  {
    seq(|s|, i requires 0 <= i < |s| => LowerChar(s[i]))
  }

  /** `strings.EqualFold` on ASCII letters. */
  predicate EqualFold(s: string, t: string) { ToLower(s) == ToLower(t) }

  // ---------------------------------------------------------------- strings.ReplaceAll with nothing

  /** The text without any occurrence of `c`. With `WithoutDrops`, the contract leaves no other result. */
  function Without(s: string, c: char): (r: string)
    ensures c !in r
    ensures c !in s ==> r == s
  {
    if s == "" then "" else (if s[0] == c then "" else [s[0]]) + Without(s[1..], c)
  }

  lemma {:induction false} WithoutConcat(a: string, b: string, c: char)
    ensures Without(a + b, c) == Without(a, c) + Without(b, c)
  {
    if a == "" {
      assert a + b == b;
    } else {
      assert (a + b)[0] == a[0] && (a + b)[1..] == a[1..] + b;
      WithoutConcat(a[1..], b, c);
    }
  }

  /** An occurrence of `c` does not count, and all other characters stay in order. */
  lemma WithoutDrops(a: string, b: string, c: char)
    ensures Without(a + [c] + b, c) == Without(a + b, c)
  {
    assert Without([c], c) == "" by { assert [c][1..] == ""; }
    hide Without;
    WithoutConcat(a + [c], b, c);
    WithoutConcat(a, [c], c);
    WithoutConcat(a, b, c);
  }
}
