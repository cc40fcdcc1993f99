/** Resolution of a flight's carrier code (`get_airline` in etl/transform.py). */
module Airline {
  import opened Wrappers

  /** An ASCII letter: the model's reading of Python's `str.isalpha` on one character. */
  predicate IsAlpha(c: char) {
    'A' <= c <= 'Z' || 'a' <= c <= 'z'
  }

  function Min(a: int, b: int): int {
    if a < b then a else b
  }

  /** Number of alphabetic characters of `s`. */
  function AlphaCount(s: string): (n: nat)
    ensures n <= |s|
  {
    if s == [] then 0 else (if IsAlpha(s[0]) then 1 else 0) + AlphaCount(s[1..])
  }

  /** The alphabetic characters of `s`, in their original order. */
  function Letters(s: string): (r: string)
    ensures |r| == AlphaCount(s)
    ensures forall k :: 0 <= k < |r| ==> IsAlpha(r[k])
  {
    if s == [] then "" else (if IsAlpha(s[0]) then [s[0]] else "") + Letters(s[1..])
  }

  /** The carrier code of a row: the prefix code when present; else the letters of the
      main flight number when there are exactly two of them; else its first two characters. */
  function GetAirline(prefixIATA: Option<string>, mainFlight: string): (r: string)
    ensures prefixIATA.Some? ==> r == prefixIATA.value
    ensures prefixIATA.None? ==> |r| == Min(2, |mainFlight|)
  {
    if prefixIATA.Some? then prefixIATA.value
    else if AlphaCount(mainFlight) == 2 then Letters(mainFlight)
    else mainFlight[..Min(2, |mainFlight|)]
  }

  /** A string without letters. */
  lemma {:induction false} NoLetters(s: string)
    requires AlphaCount(s) == 0
    ensures forall k :: 0 <= k < |s| ==> !IsAlpha(s[k])
  {
    if s != [] {
      NoLetters(s[1..]);
      assert forall k :: 1 <= k < |s| ==> s[k] == s[1..][k - 1];
    }
  }

  /** A string with one letter: its position, and `Letters` is that letter. */
  lemma {:induction false} OneLetter(s: string) returns (i: nat)
    requires AlphaCount(s) == 1
    ensures i < |s| && IsAlpha(s[i]) && Letters(s) == [s[i]]
    ensures forall k :: 0 <= k < |s| && k != i ==> !IsAlpha(s[k])
  {
    if IsAlpha(s[0]) {
      NoLetters(s[1..]);
      assert forall k :: 1 <= k < |s| ==> s[k] == s[1..][k - 1];
      i := 0;
    } else {
      var j := OneLetter(s[1..]);
      assert forall k :: 1 <= k < |s| ==> s[k] == s[1..][k - 1];
      i := j + 1;
    }
  }

  /** A string with exactly two letters: their positions, and `Letters` is those two
      letters in their original order. */
  lemma {:induction false} TwoLetters(s: string) returns (i: nat, j: nat)
    requires AlphaCount(s) == 2
    ensures i < j < |s| && IsAlpha(s[i]) && IsAlpha(s[j])
    ensures Letters(s) == [s[i], s[j]]
    ensures forall k :: 0 <= k < |s| && k != i && k != j ==> !IsAlpha(s[k])
  {
    assert forall k :: 1 <= k < |s| ==> s[k] == s[1..][k - 1];
    if IsAlpha(s[0]) {
      var j' := OneLetter(s[1..]);
      i, j := 0, j' + 1;
    } else {
      var i', j' := TwoLetters(s[1..]);
      i, j := i' + 1, j' + 1;
    }
  }

  /** Without a prefix code and with exactly two letters in the main flight number, the
      carrier code is those two letters in order, and every other character is not a letter. */
  lemma AirlineFromLetters(mainFlight: string) returns (i: nat, j: nat)
    requires AlphaCount(mainFlight) == 2
    ensures i < j < |mainFlight|
    ensures GetAirline(None, mainFlight) == [mainFlight[i], mainFlight[j]]
    ensures IsAlpha(mainFlight[i]) && IsAlpha(mainFlight[j])
    ensures forall k :: 0 <= k < |mainFlight| && k != i && k != j ==> !IsAlpha(mainFlight[k])
  {
    i, j := TwoLetters(mainFlight);
  }

  /** Without a prefix code and with other than two letters, the carrier code is the first
      min(2, |mainFlight|) characters of the main flight number. */
  lemma AirlineFromLeadingChars(mainFlight: string)
    requires AlphaCount(mainFlight) != 2
    ensures GetAirline(None, mainFlight) <= mainFlight
    ensures |GetAirline(None, mainFlight)| == Min(2, |mainFlight|)
  {
  }

  /** The worked examples of the resolver. */
  lemma AirlineExamples()
    ensures GetAirline(Some("KL"), "KL1234") == "KL"
    ensures GetAirline(None, "KL1234") == "KL"
    ensures GetAirline(None, "5Y123") == "5Y"
    ensures GetAirline(None, "K") == "K"
  {
  }
}
