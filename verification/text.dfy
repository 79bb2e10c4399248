/** Case folding as used by `str.lower()` when the result is compared with ASCII keys. */
module Text {

  /** Lower-cases one character; only the ASCII letters A-Z change. */
  function LowerChar(c: char): char
  {
    if 'A' <= c <= 'Z' then (c as int + 32) as char else c
  }

  /** The lower-cased string, character by character. */
  function Lower(s: string): (r: string)
    ensures |r| == |s|
    ensures forall i :: 0 <= i < |s| ==> r[i] == LowerChar(s[i])
  {
    if s == [] then [] else [LowerChar(s[0])] + Lower(s[1..])
  }

  /** `s` spells `t` once each of its letters is lower-cased: "MALE", "Male" and "male" all spell "male". */
  predicate IsCasingOf(s: string, t: string)
  {
    |s| == |t| && forall i :: 0 <= i < |s| ==> LowerChar(s[i]) == t[i]
  }

  /** Comparing `s.lower()` with a key is the same as asking whether `s` is a casing of the key. */
  lemma LowerEqualsIffCasing(s: string, t: string)
    ensures Lower(s) == t <==> IsCasingOf(s, t)
  {
    if IsCasingOf(s, t) {
      assert forall i :: 0 <= i < |s| ==> Lower(s)[i] == t[i];
    }
  }
}
