/** The string operations the harness relies on: decimal rendering of
    integers (Java's `Long.toString` and string concatenation), the decimal
    parse of `Integer.parseInt`, substring search (`String.contains`) and
    case-insensitive comparison (`String.equalsIgnoreCase`). Case folding is
    modelled on the ASCII letters only. */
module Text {
  import opened Wrappers
  import opened Primitives

  // ---- digits -------------------------------------------------------------

  predicate IsDigit(c: char) { '0' <= c <= '9' }

  predicate AllDigits(s: string) { forall i | 0 <= i < |s| :: IsDigit(s[i]) }

  function DigitChar(d: nat): (c: char)
    requires d < 10
    ensures IsDigit(c)
  {
    (48 + d) as char
  }

  function DigitValue(c: char): (d: nat)
    requires IsDigit(c)
    ensures d < 10 && DigitChar(d) == c
  {
    c as int - 48
  }

  /** The number a string of decimal digits denotes (leading zeros allowed). */
  function DigitsValue(s: string): nat
    requires AllDigits(s)
    decreases |s|
  {
    if |s| == 0 then 0 else DigitsValue(s[..|s| - 1]) * 10 + DigitValue(s[|s| - 1])
  }

  // ---- rendering ----------------------------------------------------------

  /** The decimal form of a non-negative integer: at least one digit and no
      leading zero unless the number is zero itself. */
  function NatToString(n: nat): (s: string)
    ensures |s| >= 1 && AllDigits(s)
    ensures s[0] == '0' ==> n == 0
    decreases n
  {
    if n < 10 then [DigitChar(n)] else NatToString(n / 10) + [DigitChar(n % 10)]
  }

  /** Java's `Integer.toString` / `Long.toString`: a minus sign before the
      decimal form of the magnitude for negative numbers. */
  function IntToString(i: int): (s: string)
    ensures |s| >= 1
    ensures s[0] == '-' <==> i < 0
  {
    if i < 0 then "-" + NatToString(-i) else NatToString(i)
  }

  function Pow10(k: nat): (p: nat)
    ensures p >= 1
  {
    if k == 0 then 1 else 10 * Pow10(k - 1)
  }

  /** Reading back the digits of NatToString(n) gives n. */
  lemma {:induction false} NatToStringValue(n: nat)
    ensures DigitsValue(NatToString(n)) == n
    decreases n
  {
    if n >= 10 {
      NatToStringValue(n / 10);
      var s := NatToString(n);
      assert s[..|s| - 1] == NatToString(n / 10);
    }
  }

  /** Distinct numbers have distinct decimal forms. */
  lemma NatToStringInjective(m: nat, n: nat)
    requires NatToString(m) == NatToString(n)
    ensures m == n
  {
    NatToStringValue(m);
    NatToStringValue(n);
  }

  /** A number with exactly k decimal digits is rendered with k characters. */
  lemma {:induction false} NatToStringLength(n: nat, k: nat)
    requires k >= 1 && n < Pow10(k)
    requires k == 1 || Pow10(k - 1) <= n
    ensures |NatToString(n)| == k
    decreases k
  {
    if k > 1 {
      if k == 2 {
        assert n / 10 < 10;
      } else {
        assert Pow10(k - 2) <= n / 10 < Pow10(k - 1);
      }
      NatToStringLength(n / 10, k - 1);
    }
  }

  // ---- parsing ------------------------------------------------------------

  /** The strings `Integer.parseInt` reads as numerals: an optional sign
      followed by at least one digit. */
  predicate IsNumeral(s: string) {
    && |s| >= 1
    && (IsDigit(s[0]) || ((s[0] == '-' || s[0] == '+') && |s| >= 2))
    && forall i | 1 <= i < |s| :: IsDigit(s[i])
  }

  /** Java's `Integer.parseInt(s)` (radix 10, ASCII digits): None stands for
      the NumberFormatException it throws on an empty string, a lone sign, a
      non-digit, or a value outside the 32-bit range. */
  function ParseInt(s: string): (r: Option<Int>)
    ensures r.Some? ==> IsNumeral(s)
    ensures r.Some? && s[0] != '-' ==> r.value >= 0
  {
    if |s| == 0 then None
    else if s[0] == '-' || s[0] == '+' then
      if |s| == 1 || !AllDigits(s[1..]) then None
      else
        var v: int := if s[0] == '-' then -(DigitsValue(s[1..]) as int) else DigitsValue(s[1..]);
        if IsInt(v) then Some(v) else None
    else if AllDigits(s) then
      var v := DigitsValue(s);
      if IsInt(v) then Some(v) else None
    else None
  }

  /** Rendering a Java `int` and parsing it back gives the same `int`. */
  lemma ParseIntRoundTrip(i: Int)
    ensures ParseInt(IntToString(i)) == Some(i)
  {
    var s := IntToString(i);
    if i < 0 {
      var m: nat := -(i as int);
      NatToStringValue(m);
      assert s[1..] == NatToString(m);
    } else {
      NatToStringValue(i);
    }
  }

  /** Every digit string parses to the number it denotes when that number
      is a Java `int`, and fails otherwise. Leading zeros are allowed. */
  lemma ParseIntDigits(d: string)
    requires |d| >= 1 && AllDigits(d)
    ensures ParseInt(d) == (if IsInt(DigitsValue(d)) then Some(DigitsValue(d)) else None)
  {
    assert IsDigit(d[0]);
  }

  /** A leading plus sign changes nothing. */
  lemma ParseIntPlus(d: string)
    requires |d| >= 1 && AllDigits(d)
    ensures ParseInt("+" + d) == ParseInt(d)
  {
    var s := "+" + d;
    assert s[0] == '+' && s[1..] == d;
    ParseIntDigits(d);
  }

  /** A leading minus sign negates the digits' value, which must then be a
      Java `int`. */
  lemma ParseIntMinus(d: string)
    requires |d| >= 1 && AllDigits(d)
    ensures ParseInt("-" + d) ==
      (if IsInt(-(DigitsValue(d) as int)) then Some(-(DigitsValue(d) as int)) else None)
  {
    var s := "-" + d;
    assert s[0] == '-' && s[1..] == d;
  }

  // ---- substrings ---------------------------------------------------------

  predicate StartsWith(s: string, prefix: string) {
    |prefix| <= |s| && s[..|prefix|] == prefix
  }

  predicate OccursAt(s: string, sub: string, i: int) {
    0 <= i && i + |sub| <= |s| && s[i..i + |sub|] == sub
  }

  /** Java's `s.contains(sub)`, searched from the left: the empty string and
      any prefix are found, and nothing longer than s is. */
  function Contains(s: string, sub: string): (c: bool)
    ensures c ==> |sub| <= |s|
    ensures StartsWith(s, sub) ==> c
    ensures |sub| == 0 ==> c
    decreases |s|
  {
    StartsWith(s, sub) || (|s| > 0 && Contains(s[1..], sub))
  }

  /** Contains finds exactly the strings that occur somewhere in s. */
  lemma {:induction false} ContainsIff(s: string, sub: string)
    ensures Contains(s, sub) <==> exists i :: OccursAt(s, sub, i)
    decreases |s|
  {
    if |s| > 0 {
      ContainsIff(s[1..], sub);
      if Contains(s[1..], sub) {
        var j :| OccursAt(s[1..], sub, j);
        assert s[1..][j..j + |sub|] == s[j + 1..j + 1 + |sub|];
        assert OccursAt(s, sub, j + 1);
      }
      forall i | OccursAt(s, sub, i) && i > 0
        ensures Contains(s[1..], sub)
      {
        assert s[1..][i - 1..i - 1 + |sub|] == s[i..i + |sub|];
        assert OccursAt(s[1..], sub, i - 1);
      }
    }
    if StartsWith(s, sub) {
      assert OccursAt(s, sub, 0);
    }
    forall i | OccursAt(s, sub, i) && i == 0 ensures StartsWith(s, sub) { }
  }

  /** A string occurring inside a substring of s occurs in s. */
  lemma ContainsTransitive(a: string, b: string, c: string)
    requires Contains(a, b) && Contains(b, c)
    ensures Contains(a, c)
  {
    ContainsIff(a, b);
    ContainsIff(b, c);
    var i :| OccursAt(a, b, i);
    var j :| OccursAt(b, c, j);
    forall k | 0 <= k < |c|
      ensures a[i + j + k] == c[k]
    {
      assert c[k] == b[j + k] == a[i + j + k];
    }
    assert a[i + j..i + j + |c|] == c;
    assert OccursAt(a, c, i + j);
    ContainsIff(a, c);
  }

  // ---- case ---------------------------------------------------------------

  function ToLower(c: char): (l: char)
    ensures !('A' <= l <= 'Z')
    ensures 'a' <= c <= 'z' ==> l == c
  {
    if 'A' <= c <= 'Z' then (c as int + 32) as char else c
  }

  /** Java's `a.equalsIgnoreCase(b)`, folding ASCII letters: equal strings
      match, and matching strings have the same length. */
  function EqualsIgnoreCase(a: string, b: string): (e: bool)
    ensures e ==> |a| == |b|
    ensures a == b ==> e
  {
    |a| == |b| && forall i | 0 <= i < |a| :: ToLower(a[i]) == ToLower(b[i])
  }

  /** `StringUtils.startsWithIgnoreCase(s, prefix)`, folding ASCII letters:
      an exact prefix matches, and a match is no longer than s. */
  function StartsWithIgnoreCase(s: string, prefix: string): (r: bool)
    ensures r ==> |prefix| <= |s|
    ensures StartsWith(s, prefix) ==> r
  {
    |prefix| <= |s| && EqualsIgnoreCase(s[..|prefix|], prefix)
  }

  /** Against a prefix without upper-case letters, a case-insensitive
      prefix match means each character is the prefix's character or, for a
      lower-case letter, its upper-case form. */
  lemma StartsWithIgnoreCaseNoUpper(s: string, prefix: string)
    requires forall i | 0 <= i < |prefix| :: !('A' <= prefix[i] <= 'Z')
    ensures StartsWithIgnoreCase(s, prefix) <==>
      && |prefix| <= |s|
      && forall i | 0 <= i < |prefix| ::
           s[i] == prefix[i] || ('a' <= prefix[i] <= 'z' && s[i] as int == prefix[i] as int - 32)
  {
    if |prefix| <= |s| {
      var head := s[..|prefix|];
      forall i | 0 <= i < |prefix|
        ensures ToLower(head[i]) == ToLower(prefix[i]) <==>
          (s[i] == prefix[i] || ('a' <= prefix[i] <= 'z' && s[i] as int == prefix[i] as int - 32))
      {
        assert head[i] == s[i];
        assert ToLower(prefix[i]) == prefix[i];
      }
    }
  }

  /** Against a string of lower-case letters, a case-insensitive match means
      each character is that letter or its upper-case form. */
  lemma EqualsIgnoreCaseLower(s: string, lower: string)
    requires forall i | 0 <= i < |lower| :: 'a' <= lower[i] <= 'z'
    ensures EqualsIgnoreCase(s, lower) <==>
      |s| == |lower| && forall i | 0 <= i < |s| :: s[i] == lower[i] || s[i] as int == lower[i] as int - 32
  {
  }
}
