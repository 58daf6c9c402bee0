/**
 * The few C++ standard-library behaviours the option parsers rely on:
 * `std::string::find_last_of` with its `npos` sentinel, `std::stoi` with
 * base 10, the 32-bit `int` range, and the exceptions they raise.
 */
module CppStd {

  /** `std::string::npos`: the largest `size_t` of a 64-bit platform. */
  const NPOS: int := 0xFFFF_FFFF_FFFF_FFFF

  const INT_MIN: int := -0x8000_0000
  const INT_MAX: int := 0x7FFF_FFFF

  /** The standard exceptions the two programs raise or let escape. */
  datatype Exception =
    | InvalidArgument   // std::invalid_argument
    | OutOfRange        // std::out_of_range
    | FilesystemError   // std::filesystem::filesystem_error

  datatype Result<T> = Success(value: T) | Failure(error: Exception)

  /** `std::bitset<8>`: bit i is element i. */
  type Bitset8 = s: seq<bool> | |s| == 8 witness [false, false, false, false, false, false, false, false]

  function Pow2(n: nat): (p: nat)
    ensures p > 0
  {
    if n == 0 then 1 else 2 * Pow2(n - 1)
  }

  /** The bitset built from an unsigned value: bit i is bit i of the value's binary form. */
  function BitsetOf(v: nat): Bitset8
  {
    seq(8, i requires 0 <= i < 8 => (v / Pow2(i)) % 2 == 1)
  }

  /** The literal 0b01000000 sets bit 6 alone. */
  lemma BitsetOfSixtyFour()
    ensures BitsetOf(0x40) == [false, false, false, false, false, false, true, false]
  {
    assert Pow2(6) == 64 && Pow2(7) == 128;
  }

  /** `s.find_last_of(c)`: the last index holding c, or npos when c does not occur. */
  function FindLastOf(s: string, c: char): (r: int)
    requires |s| < NPOS
    ensures r == NPOS <==> c !in s
    ensures r != NPOS ==> 0 <= r < |s| && s[r] == c && forall j :: r < j < |s| ==> s[j] != c
    decreases |s|
  {
    if |s| == 0 then NPOS
    else if s[|s| - 1] == c then |s| - 1
    else FindLastOf(s[..|s| - 1], c)
  }

  /** The characters `isspace` accepts in the "C" locale, which strtol skips. */
  predicate IsSpace(c: char)
  {
    c == ' ' || c == '\t' || c == '\n' || c == '\U{0B}' || c == '\U{0C}' || c == '\r'
  }

  predicate IsDigit(c: char)
  {
    '0' <= c <= '9'
  }

  /** s without its leading white space. */
  function SkipSpaces(s: string): (t: string)
    ensures |t| <= |s| && t == s[|s| - |t|..]
    ensures |t| > 0 ==> !IsSpace(t[0])
    decreases |s|
  {
    if |s| > 0 && IsSpace(s[0]) then SkipSpaces(s[1..]) else s
  }

  /** The longest prefix of s made of decimal digits. */
  function DigitRun(s: string): (d: string)
    ensures |d| <= |s| && d == s[..|d|]
    ensures forall i :: 0 <= i < |d| ==> IsDigit(d[i])
    ensures |d| < |s| ==> !IsDigit(s[|d|])
    decreases |s|
  {
    if |s| > 0 && IsDigit(s[0]) then [s[0]] + DigitRun(s[1..]) else []
  }

  /** The value of a string of decimal digits, most significant first. */
  function DigitsValue(d: string): nat
    requires forall i :: 0 <= i < |d| ==> IsDigit(d[i])
    decreases |d|
  {
    if |d| == 0 then 0
    else
      var c := d[|d| - 1];
      assert IsDigit(c);
      10 * DigitsValue(d[..|d| - 1]) + (c as int - '0' as int)
  }

  /**
   * `std::stoi(s, nullptr, 10)`: leading white space is skipped, one optional
   * sign is read, then the longest run of digits; whatever follows is ignored.
   * No digits raises invalid_argument; a value outside `int` raises out_of_range.
   */
  function StoI(s: string): (r: Result<int>)
    ensures r.Success? ==> INT_MIN <= r.value <= INT_MAX
    ensures r.Failure? ==> r.error == InvalidArgument || r.error == OutOfRange
  {
    var t := SkipSpaces(s);
    var neg := |t| > 0 && t[0] == '-';
    var u := if |t| > 0 && (t[0] == '-' || t[0] == '+') then t[1..] else t;
    var d := DigitRun(u);
    if |d| == 0 then Failure(InvalidArgument)
    else
      var mag: int := DigitsValue(d);
      var v := if neg then -mag else mag;
      if v < INT_MIN || v > INT_MAX then Failure(OutOfRange) else Success(v)
  }

  /** The decimal spelling of a natural number, without leading zeros. */
  function NatToDigits(n: nat): (d: string)
    ensures |d| > 0 && forall i :: 0 <= i < |d| ==> IsDigit(d[i])
    decreases n
  {
    if n < 10 then [(n + '0' as int) as char] else NatToDigits(n / 10) + [(n % 10 + '0' as int) as char]
  }

  /** The decimal spelling of an integer, with a '-' for negative values. */
  function ToDecimal(v: int): string
  {
    if v < 0 then "-" + NatToDigits(-v) else NatToDigits(v)
  }

  lemma {:induction false} NatToDigitsValue(n: nat)
    ensures DigitsValue(NatToDigits(n)) == n
    decreases n
  {
    if n >= 10 {
      var d := NatToDigits(n);
      NatToDigitsValue(n / 10);
      assert d[..|d| - 1] == NatToDigits(n / 10);
    }
  }

  /** A digit string has no shorter digit run than itself. */
  lemma {:induction false} DigitRunOfDigits(d: string)
    requires forall i :: 0 <= i < |d| ==> IsDigit(d[i])
    ensures DigitRun(d) == d
    decreases |d|
  {
    if |d| > 0 {
      DigitRunOfDigits(d[1..]);
    }
  }

  /** stoi reads back every `int` from its decimal spelling. */
  lemma StoIToDecimal(v: int)
    requires INT_MIN <= v <= INT_MAX
    ensures StoI(ToDecimal(v)) == Success(v)
  {
    var n: nat := if v < 0 then -v else v;
    var d := NatToDigits(n);
    NatToDigitsValue(n);
    DigitRunOfDigits(d);
    var s := ToDecimal(v);
    assert !IsSpace(s[0]);
    assert SkipSpaces(s) == s;
    if v < 0 {
      assert s == "-" + d && s[0] == '-';
      assert s[1..] == d;
    } else {
      assert s == d && IsDigit(s[0]);
    }
  }

  /** Every token is shorter than npos, as every std::string is. */
  predicate TokensFit(deq: seq<string>)
  {
    forall k :: 0 <= k < |deq| ==> |deq[k]| < NPOS
  }

  /** Joining two command lines of such tokens gives one. */
  lemma TokensFitAppend(a: seq<string>, b: seq<string>)
    requires TokensFit(a) && TokensFit(b)
    ensures TokensFit(a + b)
  {
    forall k | 0 <= k < |a + b| ensures |(a + b)[k]| < NPOS {
      if k >= |a| {
        assert (a + b)[k] == b[k - |a|];
      }
    }
  }
}
