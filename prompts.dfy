/**
 * The two prompt validators both scripts share, as predicates on the answer
 * string: the wallet count `/^\d+$/` and the selection `/^([lo-7],?)+$/`,
 * where the lowest code digit `lo` is '1' in ETH-Wallet-Generator.js and '0'
 * in wallet-gen.js. The prompt library asks again until the answer passes,
 * so everything after a prompt sees only answers that pass.
 */
module Prompts {
  import opened Wrappers
  import opened Numbers

  /** `/^\d+$/`: one or more ASCII decimal digits and nothing else. */
  predicate CountPattern(answer: string)
  {
    answer != [] && AllDigits(answer)
  }

  /**
   * `getUserInput`: None when the validator rejects the answer (the prompt
   * is asked again), otherwise `parseInt` of the answer.
   */
  function GetUserInput(answer: string): (r: Option<nat>)
    ensures r.Some? <==> answer != [] && forall i :: 0 <= i < |answer| ==> '0' <= answer[i] <= '9'
    ensures r.Some? ==> r.value == DecimalValue(answer)
  {
    if CountPattern(answer) then Some(DecimalValue(answer)) else None
  }

  /** Every count can be typed at the prompt: its decimal rendering is accepted and read back exactly. */
  lemma CountRoundTrip(n: nat)
    ensures GetUserInput(NatToString(n)) == Some(n)
  {
  }

  predicate IsCode(c: char, lo: char)
  {
    lo <= c <= '7'
  }

  /**
   * The language of `/^([lo-7],?)+$/`, read off the regular expression:
   * one group (a code digit, optionally followed by a comma), then either
   * the end or another such sequence of groups.
   */
  predicate SelectionPattern(s: string, lo: char)
    decreases |s|
  {
    |s| >= 1 && IsCode(s[0], lo) &&
    ( |s| == 1
    || SelectionPattern(s[1..], lo)
    || (s[1] == ',' && (|s| == 2 || SelectionPattern(s[2..], lo))))
  }

  /**
   * The same language described character by character: not empty, starts
   * with a code digit, holds only code digits and commas, and never two
   * commas in a row.
   */
  predicate WellFormedSelection(s: string, lo: char)
  {
    && s != []
    && IsCode(s[0], lo)
    && (forall i :: 0 <= i < |s| ==> IsCode(s[i], lo) || s[i] == ',')
    && (forall i :: 0 <= i < |s| - 1 ==> s[i] == ',' ==> s[i + 1] != ',')
  }

  lemma {:induction false} PatternIsWellFormed(s: string, lo: char)
    requires '0' <= lo
    requires SelectionPattern(s, lo)
    ensures WellFormedSelection(s, lo)
  {
    if |s| > 1 {
      if SelectionPattern(s[1..], lo) {
        PatternIsWellFormed(s[1..], lo);
        assert forall i :: 1 <= i < |s| ==> s[i] == s[1..][i - 1];
      } else {
        assert s[1] == ',';
        if |s| > 2 {
          PatternIsWellFormed(s[2..], lo);
          assert forall i :: 2 <= i < |s| ==> s[i] == s[2..][i - 2];
        }
      }
    }
  }

  lemma {:induction false} WellFormedIsPattern(s: string, lo: char)
    requires '0' <= lo
    requires WellFormedSelection(s, lo)
    ensures SelectionPattern(s, lo)
  {
    if |s| > 1 {
      if s[1] != ',' {
        assert IsCode(s[1], lo);
        assert forall i :: 0 <= i < |s| - 1 ==> s[1..][i] == s[i + 1];
        WellFormedIsPattern(s[1..], lo);
      } else if |s| > 2 {
        assert s[2] != ',';
        assert IsCode(s[2], lo);
        assert forall i :: 0 <= i < |s| - 2 ==> s[2..][i] == s[i + 2];
        WellFormedIsPattern(s[2..], lo);
      }
    }
  }

  /**
   * What the selection validator accepts, in both directions: exactly the
   * non-empty strings of code digits and commas that start with a digit and
   * never hold ",,". So an accepted selection never starts with a comma.
   */
  lemma SelectionPatternCharacterized(s: string, lo: char)
    requires '0' <= lo
    ensures SelectionPattern(s, lo) <==> WellFormedSelection(s, lo)
  {
    if SelectionPattern(s, lo) { PatternIsWellFormed(s, lo); }
    if WellFormedSelection(s, lo) { WellFormedIsPattern(s, lo); }
  }
}
