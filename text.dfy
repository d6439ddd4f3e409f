/**
 * The string operations the pipeline relies on: Python's `str.lower()` (restricted to
 * ASCII letters), the substring test `needle in text`, and the decimal rendering of a
 * count inside an f-string.
 */
module Text {

  /** Lower-cases one ASCII upper-case letter; every other character is kept. */
  function LowerChar(c: char): (d: char)
    ensures 'A' <= c <= 'Z' ==> 'a' <= d <= 'z' && d as int - c as int == 32
    ensures !('A' <= c <= 'Z') ==> d == c
  {
    if 'A' <= c <= 'Z' then (c as int + 32) as char else c
  }

  function Lower(s: string): (r: string)
    ensures |r| == |s|
    ensures forall i :: 0 <= i < |s| ==> r[i] == LowerChar(s[i])
  {
    seq(|s|, i requires 0 <= i < |s| => LowerChar(s[i]))
  }

  /** `pattern` occurs in `text` starting at position `i`. */
  predicate OccursAt(text: string, pattern: string, i: int)
  {
    0 <= i && i + |pattern| <= |text| && text[i..i + |pattern|] == pattern
  }

  /** Python's `pattern in text`, as a left-to-right search. */
  function Contains(text: string, pattern: string): bool
    decreases |text|
  {
    if |pattern| > |text| then false
    else if text[..|pattern|] == pattern then true
    else Contains(text[1..], pattern)
  }

  /** The search finds the pattern exactly when it occurs somewhere in the text. */
  lemma {:induction false} ContainsIff(text: string, pattern: string)
    ensures Contains(text, pattern) <==> exists i :: OccursAt(text, pattern, i)
    decreases |text|
  {
    if |pattern| > |text| {
    } else if text[..|pattern|] == pattern {
      assert OccursAt(text, pattern, 0);
    } else {
      var tail := text[1..];
      ContainsIff(tail, pattern);
      if Contains(tail, pattern) {
        var i :| OccursAt(tail, pattern, i);
        assert tail[i..i + |pattern|] == text[i + 1..i + 1 + |pattern|];
        assert OccursAt(text, pattern, i + 1);
      }
      if exists i :: OccursAt(text, pattern, i) {
        var i :| OccursAt(text, pattern, i);
        assert i != 0 by { assert text[0..|pattern|] == text[..|pattern|]; }
        assert tail[i - 1..i - 1 + |pattern|] == text[i..i + |pattern|];
        assert OccursAt(tail, pattern, i - 1);
      }
    }
  }

  /** A text that ends with the pattern contains it. */
  lemma EndsWithContains(text: string, pattern: string)
    requires |pattern| <= |text| && text[|text| - |pattern|..] == pattern
    ensures Contains(text, pattern)
  {
    ContainsIff(text, pattern);
    assert OccursAt(text, pattern, |text| - |pattern|);
  }

  function DigitChar(d: nat): char
    requires d < 10
  {
    "0123456789"[d]
  }

  function DigitValue(c: char): nat
  {
    if '0' <= c <= '9' then c as int - '0' as int else 0
  }

  /** A non-empty string of decimal digits without a leading zero, as Python renders an int. */
  predicate IsDecimal(s: string)
  {
    |s| >= 1 && (|s| == 1 || s[0] != '0') && forall i :: 0 <= i < |s| ==> '0' <= s[i] <= '9'
  }

  /** The decimal digits of `n`, as Python's `str(n)` writes a non-negative int. */
  function DecimalString(n: nat): (s: string)
    ensures IsDecimal(s)
    decreases n
  {
    if n < 10 then [DigitChar(n)] else DecimalString(n / 10) + [DigitChar(n % 10)]
  }

  /** Reads a string of decimal digits back into a number. */
  function DecimalValue(s: string): nat
  {
    if s == [] then 0 else DecimalValue(s[..|s| - 1]) * 10 + DigitValue(s[|s| - 1])
  }

  /** Rendering a count and reading it back gives the count: the rendering is faithful. */
  lemma {:induction false} DecimalRoundTrip(n: nat)
    ensures DecimalValue(DecimalString(n)) == n
    decreases n
  {
    var s := DecimalString(n);
    if n < 10 {
      assert s[..|s| - 1] == [];
    } else {
      DecimalRoundTrip(n / 10);
      assert s[..|s| - 1] == DecimalString(n / 10);
    }
  }

  /** A digit string's value is at least its first digit. */
  lemma {:induction false} DecimalValueAtLeastFirst(s: string)
    requires |s| >= 1
    ensures DecimalValue(s) >= DigitValue(s[0])
    decreases |s|
  {
    if |s| > 1 {
      var init := s[..|s| - 1];
      DecimalValueAtLeastFirst(init);
      assert init[0] == s[0];
    }
  }

  /** The rendering is the only decimal string with that value, so a message pinned by its value is pinned. */
  lemma {:induction false} DecimalStringUnique(s: string, n: nat)
    requires IsDecimal(s) && DecimalValue(s) == n
    ensures s == DecimalString(n)
    decreases |s|
  {
    var c := s[|s| - 1];
    var init := s[..|s| - 1];
    assert DigitChar(DigitValue(c)) == c;
    if |s| == 1 {
      assert init == [];
    } else {
      assert init[0] == s[0];
      assert IsDecimal(init);
      DecimalValueAtLeastFirst(init);
      assert DigitValue(init[0]) >= 1;
      assert DecimalValue(s) == DecimalValue(init) * 10 + DigitValue(c);
      assert DecimalValue(init) == n / 10 && DigitValue(c) == n % 10;
      DecimalStringUnique(init, DecimalValue(init));
      assert DecimalString(n) == DecimalString(n / 10) + [DigitChar(n % 10)];
      assert s == init + [c];
    }
  }
}
