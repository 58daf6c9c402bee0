/**
 * The four fixed, ordered alphabets that both programs rotate: upper-case
 * letters, lower-case letters, decimal digits and 32 punctuation symbols in
 * ASCII order.  Each is written as runs of consecutive code points, which is
 * exactly what the brace-initialised character arrays of both programs list.
 */
module Alphabets {

  datatype CharClass = UpperAlpha | LowerAlpha | Digit | Punctuation

  /** The characters lo, lo+1, ..., hi in code-point order. */
  function Span(lo: char, hi: char): (s: seq<char>)
    requires lo <= hi && hi as int < 128
    ensures |s| == hi as int - lo as int + 1
    ensures forall i :: 0 <= i < |s| ==> s[i] as int == lo as int + i
  {
    seq(hi as int - lo as int + 1, i requires 0 <= i <= hi as int - lo as int => (lo as int + i) as char)
  }

  const Upper: seq<char> := Span('A', 'Z')
  const Lower: seq<char> := Span('a', 'z')
  const Digits: seq<char> := Span('0', '9')
  /** '!' .. '/', ':' .. '@', '[' .. '`', '{' .. '~': 15 + 7 + 6 + 4 symbols. */
  const Puncts: seq<char> := Span('!', '/') + Span(':', '@') + Span('[', '`') + Span('{', '~')

  function Alphabet(cl: CharClass): seq<char>
  {
    match cl
    case UpperAlpha => Upper
    case LowerAlpha => Lower
    case Digit => Digits
    case Punctuation => Puncts
  }

  /** Alphabet sizes: the moduli that each class's shift is reduced by. */
  function Size(cl: CharClass): nat
  {
    match cl
    case UpperAlpha => 26
    case LowerAlpha => 26
    case Digit => 10
    case Punctuation => 32
  }

  predicate InClass(cl: CharClass, c: char)
  {
    match cl
    case UpperAlpha => 'A' <= c <= 'Z'
    case LowerAlpha => 'a' <= c <= 'z'
    case Digit => '0' <= c <= '9'
    case Punctuation => '!' <= c <= '/' || ':' <= c <= '@' || '[' <= c <= '`' || '{' <= c <= '~'
  }

  /** A symbol of one of the four alphabets. */
  predicate IsCipherSymbol(c: char)
  {
    InClass(UpperAlpha, c) || InClass(LowerAlpha, c) || InClass(Digit, c) || InClass(Punctuation, c)
  }

  predicate Distinct(s: seq<char>)
  {
    forall i, j :: 0 <= i < |s| && 0 <= j < |s| && i != j ==> s[i] != s[j]
  }

  lemma SpanMembers(lo: char, hi: char, c: char)
    requires lo <= hi && hi as int < 128
    ensures c in Span(lo, hi) <==> lo <= c <= hi
  {
    if lo <= c <= hi {
      assert Span(lo, hi)[c as int - lo as int] == c;
    }
  }

  lemma DistinctAppend(a: seq<char>, b: seq<char>)
    requires Distinct(a) && Distinct(b)
    requires forall c :: c in a ==> c !in b
    ensures Distinct(a + b)
  {
    var s := a + b;
    forall i, j | 0 <= i < |s| && 0 <= j < |s| && i != j
      ensures s[i] != s[j]
    {
      if i < |a| && j >= |a| {
        assert s[i] in a && s[j] == b[j - |a|];
      } else if j < |a| && i >= |a| {
        assert s[j] in a && s[i] == b[i - |a|];
      }
    }
  }

  /** The alphabet sizes the programs read off with `.size()`. */
  lemma AlphabetSizes()
    ensures |Upper| == 26 && |Lower| == 26 && |Digits| == 10 && |Puncts| == 32
  {
  }

  lemma PunctsShape()
    ensures |Puncts| == 32
    ensures Distinct(Puncts)
    ensures forall c :: c in Puncts <==> InClass(Punctuation, c)
  {
    var s1, s2, s3, s4 := Span('!', '/'), Span(':', '@'), Span('[', '`'), Span('{', '~');
    forall c ensures (c in s1 <==> '!' <= c <= '/') && (c in s2 <==> ':' <= c <= '@')
      && (c in s3 <==> '[' <= c <= '`') && (c in s4 <==> '{' <= c <= '~')
    {
      SpanMembers('!', '/', c);
      SpanMembers(':', '@', c);
      SpanMembers('[', '`', c);
      SpanMembers('{', '~', c);
    }
    DistinctAppend(s1, s2);
    DistinctAppend(s1 + s2, s3);
    DistinctAppend(s1 + s2 + s3, s4);
  }

  /**
   * Each alphabet has its class's size, lists no symbol twice, and holds
   * exactly the characters of its class.
   */
  lemma AlphabetShape(cl: CharClass)
    ensures |Alphabet(cl)| == Size(cl)
    ensures Distinct(Alphabet(cl))
    ensures forall c :: c in Alphabet(cl) <==> InClass(cl, c)
  {
    match cl
    case UpperAlpha =>
      forall c ensures c in Upper <==> InClass(cl, c) { SpanMembers('A', 'Z', c); }
    case LowerAlpha =>
      forall c ensures c in Lower <==> InClass(cl, c) { SpanMembers('a', 'z', c); }
    case Digit =>
      forall c ensures c in Digits <==> InClass(cl, c) { SpanMembers('0', '9', c); }
    case Punctuation =>
      PunctsShape();
  }

  /** No symbol belongs to two classes. */
  lemma ClassesDisjoint(c1: CharClass, c2: CharClass, c: char)
    requires InClass(c1, c) && InClass(c2, c)
    ensures c1 == c2
  {
  }
}
