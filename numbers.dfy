/**
 * Decimal digit strings as the scripts use them: `parseInt` and `Number` on
 * the prompt answers, and `${n}` rendering a wallet index inside an entry.
 */
module Numbers {
  import opened Wrappers

  predicate IsDigit(c: char) { '0' <= c <= '9' }

  predicate AllDigits(s: string) { forall i :: 0 <= i < |s| ==> IsDigit(s[i]) }

  function DigitValue(c: char): (d: nat)
    requires IsDigit(c)
    ensures d < 10
  {
    c as int - '0' as int
  }

  function DigitChar(d: nat): (c: char)
    requires d < 10
    ensures IsDigit(c) && DigitValue(c) == d
  {
    ('0' as int + d) as char
  }

  /** The value of a string of decimal digits, most significant first; "" is 0. */
  function DecimalValue(s: string): nat
    requires AllDigits(s)
  {
    if s == [] then 0 else DecimalValue(s[..|s| - 1]) * 10 + DigitValue(s[|s| - 1])
  }

  /** How a non-negative integer appears in a template literal: its decimal digits, no leading zero. */
  function NatToString(n: nat): (s: string)
    ensures s != [] && AllDigits(s)
    ensures DecimalValue(s) == n
    ensures |s| > 1 ==> s[0] != '0'
  {
    if n < 10 then [DigitChar(n)]
    else
      var t := NatToString(n / 10);
      var s := t + [DigitChar(n % 10)];
      assert s[..|s| - 1] == t;
      s
  }

  /** A digit string that does not start with 0 has a value of at least 1. */
  lemma {:induction false} LeadingNonZero(s: string)
    requires AllDigits(s) && s != [] && s[0] != '0'
    ensures DecimalValue(s) >= 1
  {
    if |s| > 1 {
      var p := s[..|s| - 1];
      assert p[0] == s[0];
      LeadingNonZero(p);
    }
  }

  /** Without a leading zero, a digit string is below ten exactly when it is a single digit. */
  lemma OneDigitIffBelowTen(s: string)
    requires AllDigits(s) && s != [] && s[0] != '0'
    ensures DecimalValue(s) < 10 <==> |s| == 1
  {
    if |s| > 1 {
      var p := s[..|s| - 1];
      assert p[0] == s[0];
      LeadingNonZero(p);
    }
  }

  /** The value of `Number(token)`: a finite number or NaN. */
  datatype JsNumber = Finite(value: nat) | NaN

  /**
   * `Number(token)` on a token of a selection answer. On digit strings, the
   * only tokens an accepted answer holds, it is the decimal value, and the
   * empty token is 0. Every other token is modelled as NaN, although
   * JavaScript reads some of them as numbers (" 1", "1.5", "0x1F").
   */
  function ToNumber(token: string): (v: JsNumber)
    ensures v.Finite? <==> AllDigits(token)
    ensures v.Finite? ==> v.value == DecimalValue(token)
    ensures token == [] ==> v == Finite(0)
  {
    if AllDigits(token) then Finite(DecimalValue(token)) else NaN
  }

  /** `Number` reads the decimal rendering of every count back as that count. */
  lemma ToNumberRoundTrip(n: nat)
    ensures ToNumber(NatToString(n)) == Finite(n)
  {
  }

  /** The length of the longest run of digits that `s` starts with. */
  function DigitPrefixLen(s: string): (k: nat)
    ensures k <= |s| && AllDigits(s[..k])
    ensures k < |s| ==> !IsDigit(s[k])
  {
    if s == [] || !IsDigit(s[0]) then 0
    else
      var k := 1 + DigitPrefixLen(s[1..]);
      assert forall i :: 1 <= i < k ==> s[..k][i] == s[1..][..k - 1][i - 1];
      k
  }

  /**
   * Reads an entry written as `<index>. <rest>`: the leading digits, then
   * ". ", then the remainder. None when the line does not have that shape.
   */
  function ParseIndexed(line: string): Option<(nat, string)>
  {
    var k := DigitPrefixLen(line);
    if 0 < k && k + 1 < |line| && line[k] == '.' && line[k + 1] == ' '
    then Some((DecimalValue(line[..k]), line[k + 2..]))
    else None
  }

  /** The number of an `<index>. <rest>` line, or -1 for any other line. */
  function IndexOf(line: string): int
  {
    match ParseIndexed(line)
    case Some(p) => p.0
    case None => -1
  }

  lemma {:induction false} DigitPrefixOfConcat(s: string, t: string)
    requires AllDigits(s)
    requires t == [] || !IsDigit(t[0])
    ensures DigitPrefixLen(s + t) == |s|
  {
    if s == [] {
      assert s + t == t;
    } else {
      assert (s + t)[1..] == s[1..] + t;
      DigitPrefixOfConcat(s[1..], t);
    }
  }

  /** Rendering an index and reading it back: `<n>. <rest>` parses to (n, rest). */
  lemma ParseIndexedRoundTrip(n: nat, rest: string)
    ensures ParseIndexed(NatToString(n) + ". " + rest) == Some((n, rest))
  {
    var s := NatToString(n);
    var line := s + ". " + rest;
    assert line == s + (". " + rest);
    DigitPrefixOfConcat(s, ". " + rest);
    assert line[..|s|] == s;
    assert line[|s| + 2..] == rest;
  }
}
