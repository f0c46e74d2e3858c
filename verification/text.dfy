/** The few Python string operations the triage rules rely on. */
module Text {

  /** Python's `str.isspace()` for one character (the full set of
      characters Python strips by default). */
  predicate IsSpace(c: char) {
    || c == ' '
    || ('\t' <= c <= '\r')
    || ('\U{1C}' <= c <= '\U{1F}')
    || c == '\U{85}' || c == '\U{A0}' || c == '\U{1680}'
    || ('\U{2000}' <= c <= '\U{200A}')
    || c == '\U{2028}' || c == '\U{2029}' || c == '\U{202F}'
    || c == '\U{205F}' || c == '\U{3000}'
  }

  /** `s.lstrip()`: drops leading whitespace. */
  function TrimStart(s: string): (r: string)
    ensures |r| <= |s| && r == s[|s| - |r|..]
    ensures r == [] || !IsSpace(r[0])
    ensures forall i :: 0 <= i < |s| - |r| ==> IsSpace(s[i])
  {
    if s != [] && IsSpace(s[0]) then TrimStart(s[1..]) else s
  }

  /** `s.rstrip()`: drops trailing whitespace. */
  function TrimEnd(s: string): (r: string)
    ensures |r| <= |s| && r == s[..|r|]
    ensures r == [] || !IsSpace(r[|r| - 1])
    ensures forall i :: |r| <= i < |s| ==> IsSpace(s[i])
  {
    if s != [] && IsSpace(s[|s| - 1]) then TrimEnd(s[..|s| - 1]) else s
  }

  /** `s.strip()`. */
  function Strip(s: string): string {
    TrimEnd(TrimStart(s))
  }

  /** A string with no whitespace at either end is left alone by `strip()`. */
  lemma StripUnpadded(s: string)
    requires s == [] || (!IsSpace(s[0]) && !IsSpace(s[|s| - 1]))
    ensures Strip(s) == s
  {
    assert TrimStart(s) == s;
  }

  const KELVIN_SIGN: char := '\U{212A}'

  /** `str.lower()` for one character, as far as ASCII text is concerned:
      ASCII capitals and the Kelvin sign, which Python lowers to `k`. */
  function LowerChar(c: char): (l: char)
    ensures 'A' <= c <= 'Z' ==> l as int == c as int + 32
    ensures c == KELVIN_SIGN ==> l == 'k'
    ensures !('A' <= c <= 'Z') && c != KELVIN_SIGN ==> l == c
  {
    if 'A' <= c <= 'Z' then (c as int + 32) as char
    else if c == KELVIN_SIGN then 'k'
    else c
  }

  /** `s.lower()`, character by character. */
  function Lower(s: string): (r: string)
    ensures |r| == |s|
    ensures forall i :: 0 <= i < |s| ==> r[i] == LowerChar(s[i])
  {
    seq(|s|, i requires 0 <= i < |s| => LowerChar(s[i]))
  }

  /** Wherever it stands, a Kelvin sign reads as the letter K once lower-cased. */
  lemma KelvinSignLowersToK(a: string, b: string)
    ensures Lower(a + [KELVIN_SIGN] + b) == Lower(a + "K" + b)
  {
    var s, t := a + [KELVIN_SIGN] + b, a + "K" + b;
    assert forall i :: 0 <= i < |s| ==> LowerChar(s[i]) == LowerChar(t[i]);
  }

  /** `k` occurs in `s` starting at index `i`. */
  predicate OccursAt(s: string, k: string, i: int) {
    0 <= i <= |s| - |k| && s[i..i + |k|] == k
  }

  /** Python's `k in s` on strings: `k` occurs as a contiguous substring of `s`. */
  function Contains(s: string, k: string): (r: bool)
    ensures r <==> exists i :: OccursAt(s, k, i)
  {
    if |s| < |k| then false
    else if s[..|k|] == k then assert OccursAt(s, k, 0); true
    else
      var r := Contains(s[1..], k);
      assert r ==> exists i :: OccursAt(s, k, i) by {
        if r {
          var j :| OccursAt(s[1..], k, j);
          assert s[j + 1..j + 1 + |k|] == s[1..][j..j + |k|];
          assert OccursAt(s, k, j + 1);
        }
      }
      assert (exists i :: OccursAt(s, k, i)) ==> r by {
        if exists i :: OccursAt(s, k, i) {
          var i :| OccursAt(s, k, i);
          assert i != 0;
          assert s[1..][i - 1..i - 1 + |k|] == s[i..i + |k|];
          assert OccursAt(s[1..], k, i - 1);
        }
      }
      r
  }

  /** Python's `s.endswith(k)`. */
  predicate EndsWith(s: string, k: string) {
    |k| <= |s| && s[|s| - |k|..] == k
  }

  /** `k` occurs in any string that has it in the middle. */
  lemma {:induction false} ContainsInfix(a: string, k: string, b: string)
    ensures Contains(a + k + b, k)
  {
    var s := a + k + b;
    assert s[|a|..|a| + |k|] == k;
    assert OccursAt(s, k, |a|);
  }
}
