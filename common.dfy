/**
 * Small value types and string helpers shared by every sample:
 * Option, decimal formatting as done by std::to_string and Python's '%d',
 * the leading-integer parse done by C's atoi, and the few string tests
 * (character count, suffix, substring, trailing strip) the samples use.
 */
module Common {

  datatype Option<+T> = None | Some(value: T)

  // ---------------------------------------------------------------------------
  // Searching a sequence
  // ---------------------------------------------------------------------------

  /** Index of the first element of `s` satisfying `p`, as a Python
      `for x in s: if p(x): return ...` loop finds it. */
  function FirstIndexWhere<T>(s: seq<T>, p: T -> bool): (r: Option<nat>)
    ensures r.Some? ==> r.value < |s| && p(s[r.value])
    ensures r.Some? ==> forall j :: 0 <= j < r.value ==> !p(s[j])
    ensures r.None? <==> forall j :: 0 <= j < |s| ==> !p(s[j])
    decreases |s|
  {
    if s == [] then None
    else if p(s[0]) then Some(0)
    else
      match FirstIndexWhere(s[1..], p)
      case None => None
      case Some(k) => Some(k + 1)
  }

  /** Appending elements after a match does not move the first match. */
  lemma {:induction false} FirstIndexWhereAppend<T>(s: seq<T>, t: seq<T>, p: T -> bool)
    ensures FirstIndexWhere(s, p).Some? ==> FirstIndexWhere(s + t, p) == FirstIndexWhere(s, p)
    ensures FirstIndexWhere(s, p).None? ==>
              FirstIndexWhere(s + t, p) ==
                (match FirstIndexWhere(t, p) case None => None case Some(k) => Some(|s| + k))
    decreases |s|
  {
    if s == [] {
      assert s + t == t;
    } else {
      assert (s + t)[0] == s[0];
      assert (s + t)[1..] == s[1..] + t;
      FirstIndexWhereAppend(s[1..], t, p);
    }
  }

  // ---------------------------------------------------------------------------
  // Decimal formatting and parsing
  // ---------------------------------------------------------------------------

  predicate IsDigit(c: char) { '0' <= c <= '9' }

  function DigitChar(d: nat): (c: char)
    requires d < 10
    ensures IsDigit(c) && (c as int) - ('0' as int) == d
  {
    ((('0' as int) + d) as char)
  }

  function DigitValue(c: char): (d: nat)
    requires IsDigit(c)
    ensures d < 10
  {
    (c as int) - ('0' as int)
  }

  /** Decimal digits of a natural number, most significant first, no leading zeros. */
  function NatToDecimal(n: nat): (s: string)
    ensures |s| >= 1
    ensures forall i :: 0 <= i < |s| ==> IsDigit(s[i])
    decreases n
  {
    if n < 10 then [DigitChar(n)] else NatToDecimal(n / 10) + [DigitChar(n % 10)]
  }

  /** Decimal text of an int, as std::to_string(int) and Python's '%d' write it. */
  function IntToDecimal(n: int): (s: string)
    ensures |s| >= 1
    ensures n >= 0 <==> IsDigit(s[0])
    ensures n < 0 <==> s[0] == '-'
  {
    if n < 0 then "-" + NatToDecimal(-n) else NatToDecimal(n)
  }

  /** Value of a string of decimal digits. */
  function DigitsValue(s: string): nat
    requires forall i :: 0 <= i < |s| ==> IsDigit(s[i])
    decreases |s|
  {
    if s == [] then 0 else DigitsValue(s[..|s| - 1]) * 10 + DigitValue(s[|s| - 1])
  }

  /** The longest prefix of `s` made of decimal digits. */
  function DigitPrefix(s: string): (p: string)
    ensures |p| <= |s| && p == s[..|p|]
    ensures forall i :: 0 <= i < |p| ==> IsDigit(s[i])
    ensures |p| < |s| ==> !IsDigit(s[|p|])
    decreases |s|
  {
    if s == [] || !IsDigit(s[0]) then [] else [s[0]] + DigitPrefix(s[1..])
  }

  predicate IsCSpace(c: char) {
    c == ' ' || c == '\t' || c == '\n' || c == '\r' || c == (11 as char) || c == (12 as char)
  }

  function SkipSpaces(s: string): (t: string)
    ensures |t| <= |s| && t == s[|s| - |t|..]
    ensures t != [] ==> !IsCSpace(t[0])
    decreases |s|
  {
    if s != [] && IsCSpace(s[0]) then SkipSpaces(s[1..]) else s
  }

  /** C's atoi on a value that fits: leading white space, an optional sign, then
      the longest run of digits; anything else ends the number, and no digits
      at all gives 0. */
  function Atoi(s: string): int {
    var t := SkipSpaces(s);
    if t != [] && t[0] == '-' then -(DigitsValue(DigitPrefix(t[1..])) as int)
    else if t != [] && t[0] == '+' then DigitsValue(DigitPrefix(t[1..]))
    else DigitsValue(DigitPrefix(t))
  }

  lemma {:induction false} NatToDecimalValue(n: nat)
    ensures DigitsValue(NatToDecimal(n)) == n
    decreases n
  {
    var s := NatToDecimal(n);
    if n >= 10 {
      NatToDecimalValue(n / 10);
      assert s[..|s| - 1] == NatToDecimal(n / 10);
    }
  }

  lemma DigitPrefixAllDigits(s: string)
    requires forall i :: 0 <= i < |s| ==> IsDigit(s[i])
    ensures DigitPrefix(s) == s
  {
    var p := DigitPrefix(s);
    assert |p| == |s|;
  }

  /** atoi reads back what std::to_string wrote. */
  lemma AtoiIntToDecimal(n: int)
    ensures Atoi(IntToDecimal(n)) == n
  {
    if n < 0 {
      AtoiOfNegative(n);
    } else {
      AtoiOfNatural(n);
    }
  }

  lemma AtoiOfNatural(n: int)
    requires n >= 0
    ensures Atoi(IntToDecimal(n)) == n
  {
    var s := IntToDecimal(n);
    assert SkipSpaces(s) == s;
    DigitPrefixAllDigits(s);
    NatToDecimalValue(n);
  }

  lemma AtoiOfNegative(n: int)
    requires n < 0
    ensures Atoi(IntToDecimal(n)) == n
  {
    var s := IntToDecimal(n);
    assert SkipSpaces(s) == s;
    assert s[1..] == NatToDecimal(-n);
    DigitPrefixAllDigits(NatToDecimal(-n));
    NatToDecimalValue(-n);
  }

  /** Distinct numbers have distinct decimal texts. */
  lemma IntToDecimalInjective(a: int, b: int)
    ensures IntToDecimal(a) == IntToDecimal(b) ==> a == b
  {
    AtoiIntToDecimal(a);
    AtoiIntToDecimal(b);
  }

  // ---------------------------------------------------------------------------
  // String tests
  // ---------------------------------------------------------------------------

  /** Python's str.count of a single character. */
  function CountChar(s: string, c: char): (n: nat)
    ensures n <= |s|
    ensures n == 0 <==> forall i :: 0 <= i < |s| ==> s[i] != c
    decreases |s|
  {
    if s == [] then 0 else (if s[0] == c then 1 else 0) + CountChar(s[1..], c)
  }

  lemma {:induction false} CountCharConcat(s: string, t: string, c: char)
    ensures CountChar(s + t, c) == CountChar(s, c) + CountChar(t, c)
    decreases |s|
  {
    if s == [] {
      assert s + t == t;
    } else {
      assert (s + t)[1..] == s[1..] + t;
      CountCharConcat(s[1..], t, c);
    }
  }

  /** Python's str.endswith. */
  predicate EndsWith(s: string, suffix: string) {
    |suffix| <= |s| && s[|s| - |suffix|..] == suffix
  }

  predicate StartsWith(s: string, prefix: string) {
    |prefix| <= |s| && s[..|prefix|] == prefix
  }

  /** `sub` occurs in `s` starting at index `i`. */
  predicate OccursAt(s: string, sub: string, i: int) {
    0 <= i && i + |sub| <= |s| && s[i..i + |sub|] == sub
  }

  /** Python's `sub in s`. */
  function Contains(s: string, sub: string): (r: bool)
    ensures r <==> exists i :: OccursAt(s, sub, i)
    decreases |s|
  {
    if StartsWith(s, sub) then
      assert OccursAt(s, sub, 0);
      true
    else if |s| <= |sub| then
      false
    else
      var r := Contains(s[1..], sub);
      assert forall i :: OccursAt(s[1..], sub, i) <==> OccursAt(s, sub, i + 1);
      assert forall i :: OccursAt(s, sub, i) ==> i == 0 || OccursAt(s[1..], sub, i - 1);
      r
  }

  /** Python's str.rstrip with a single character. */
  function RStrip(s: string, c: char): (t: string)
    ensures |t| <= |s| && t == s[..|t|]
    ensures t == [] || t[|t| - 1] != c
    ensures forall i :: |t| <= i < |s| ==> s[i] == c
    decreases |s|
  {
    if s != [] && s[|s| - 1] == c then RStrip(s[..|s| - 1], c) else s
  }
}
