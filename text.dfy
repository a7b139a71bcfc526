/**
 * Swift integer arithmetic and the `String(format:)` / interpolation
 * conversions the core uses, written out over `string` (= `seq<char>`).
 */
module Text {
  import opened Wrappers

  /** Swift's `Int` division `a / b`: truncates toward zero. */
  function Quot(a: int, b: int): (q: int)
    requires b > 0
    ensures a >= 0 ==> q == a / b
    ensures a < 0 ==> q == -((-a) / b)
  {
    if a >= 0 then a / b else -((-a) / b)
  }

  /** Swift's `Int` remainder `a % b`: takes the sign of `a`. */
  function Rem(a: int, b: int): (r: int)
    requires b > 0
    ensures a == Quot(a, b) * b + r
    ensures a >= 0 ==> 0 <= r < b
    ensures a < 0 ==> -b < r <= 0
  {
    a - Quot(a, b) * b
  }

  predicate IsDigit(c: char) {
    '0' <= c <= '9'
  }

  function DigitChar(d: int): (c: char)
    requires 0 <= d < 10
    ensures IsDigit(c)
  {
    ['0', '1', '2', '3', '4', '5', '6', '7', '8', '9'][d]
  }

  function DigitValue(c: char): (d: int)
    requires IsDigit(c)
    ensures 0 <= d < 10
    ensures DigitChar(d) == c
  {
    if c == '0' then 0 else if c == '1' then 1 else if c == '2' then 2
    else if c == '3' then 3 else if c == '4' then 4 else if c == '5' then 5
    else if c == '6' then 6 else if c == '7' then 7 else if c == '8' then 8 else 9
  }

  lemma DigitRoundTrip(d: int)
    requires 0 <= d < 10
    ensures DigitValue(DigitChar(d)) == d
  {
  }

  predicate AllDigits(s: string) {
    forall i :: 0 <= i < |s| ==> IsDigit(s[i])
  }

  /** Decimal digits of `n` without leading zeros (`"\(n)"` for `n >= 0`). */
  function NatString(n: nat): (s: string)
    ensures |s| >= 1 && AllDigits(s)
    ensures n < 10 <==> |s| == 1
    ensures 10 <= n < 100 ==> |s| == 2
    decreases n
  {
    if n < 10 then [DigitChar(n)] else NatString(n / 10) + [DigitChar(n % 10)]
  }

  /** `"\(n)"` and `String(format: "%d", n)` for any `Int`. */
  function IntString(n: int): (s: string)
    ensures n >= 0 ==> s == NatString(n)
    ensures n < 0 ==> s == "-" + NatString(-n)
  {
    if n >= 0 then NatString(n) else "-" + NatString(-n)
  }

  /**
   * `String(format: "%02d", n)`: at least two characters, zero-filled for
   * non-negative values; a negative value already has two characters.
   */
  function Pad2(n: int): (s: string)
    ensures |s| >= 2
    ensures 0 <= n < 100 ==> |s| == 2 && AllDigits(s)
    ensures n >= 0 ==> AllDigits(s)
  {
    if 0 <= n < 10 then "0" + NatString(n) else IntString(n)
  }

  /** The value of a non-empty string of decimal digits; `None` for anything else. */
  function ParseNat(s: string): (r: Option<nat>)
    ensures r.Some? <==> |s| >= 1 && AllDigits(s)
    decreases |s|
  {
    if |s| == 0 || !IsDigit(s[|s| - 1]) then None
    else if |s| == 1 then Some(DigitValue(s[0]))
    else match ParseNat(s[..|s| - 1])
      case None => None
      case Some(v) => Some(v * 10 + DigitValue(s[|s| - 1]))
  }

  lemma {:induction false} ParseNatString(n: nat)
    ensures ParseNat(NatString(n)) == Some(n)
    decreases n
  {
    var s := NatString(n);
    if n >= 10 {
      ParseNatString(n / 10);
      assert s[..|s| - 1] == NatString(n / 10);
      DigitRoundTrip(n % 10);
    } else {
      DigitRoundTrip(n);
    }
  }

  /** Leading zeros do not change the parsed value. */
  lemma {:induction false} ParseNatLeadingZero(s: string)
    requires |s| >= 1 && AllDigits(s)
    ensures ParseNat("0" + s) == ParseNat(s)
    decreases |s|
  {
    var t := "0" + s;
    if |s| == 1 {
      assert t[..|t| - 1] == "0";
    } else {
      assert t[..|t| - 1] == "0" + s[..|s| - 1];
      ParseNatLeadingZero(s[..|s| - 1]);
    }
  }

  /** `%02d` of a non-negative value reads back as that value. */
  lemma Pad2RoundTrip(n: nat)
    ensures ParseNat(Pad2(n)) == Some(n)
  {
    ParseNatString(n);
    if n < 10 {
      ParseNatLeadingZero(NatString(n));
    }
  }

  lemma IntStringRoundTrip(n: nat)
    ensures ParseNat(IntString(n)) == Some(n)
  {
    ParseNatString(n);
  }

  /** `s.replacingOccurrences(of: String(a), with: String(b))` for single characters. */
  function ReplaceChar(s: string, a: char, b: char): (r: string)
    ensures |r| == |s|
    ensures forall i :: 0 <= i < |s| ==> r[i] == if s[i] == a then b else s[i]
  {
    seq(|s|, i requires 0 <= i < |s| => if s[i] == a then b else s[i])
  }

  /** How many times `c` occurs in `s`. */
  function Count(s: string, c: char): (n: nat)
    ensures n <= |s|
    decreases |s|
  {
    if s == [] then 0 else Count(s[..|s| - 1], c) + (if s[|s| - 1] == c then 1 else 0)
  }

  lemma {:induction false} CountAppend(a: string, b: string, c: char)
    ensures Count(a + b, c) == Count(a, c) + Count(b, c)
    decreases |b|
  {
    if b == [] {
      assert a + b == a;
    } else {
      assert (a + b)[..|a + b| - 1] == a + b[..|b| - 1];
      CountAppend(a, b[..|b| - 1], c);
    }
  }

  lemma {:induction false} CountAbsent(s: string, c: char)
    requires c !in s
    ensures Count(s, c) == 0
    decreases |s|
  {
    if s != [] {
      CountAbsent(s[..|s| - 1], c);
    }
  }

  /** `s.hasPrefix(p)` */
  predicate StartsWith(s: string, p: string) {
    |p| <= |s| && s[..|p|] == p
  }

  /** `s.hasSuffix(p)` */
  predicate EndsWith(s: string, p: string) {
    |p| <= |s| && s[|s| - |p|..] == p
  }

  /** Concatenation regroups to the left. */
  lemma Assoc(a: string, b: string, c: string)
    ensures a + (b + c) == a + b + c
  {
  }

  lemma ConcatStartsWith(a: string, b: string)
    ensures StartsWith(a + b, a)
  {
    assert (a + b)[..|a|] == a;
  }

  lemma ConcatEndsWith(a: string, b: string)
    ensures EndsWith(a + b, b)
  {
    assert (a + b)[|a + b| - |b|..] == b;
  }

  /** A prefix of a prefix is a prefix. */
  lemma StartsWithConcat(a: string, p: string, b: string)
    requires StartsWith(a, p)
    ensures StartsWith(a + b, p)
  {
    assert (a + b)[..|p|] == a[..|p|];
  }
}
