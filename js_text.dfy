/**
 * JavaScript string lengths. A JavaScript string is a sequence of UTF-16 code
 * units, so `.length` counts a character outside the Basic Multilingual Plane
 * (an emoji, say) as two. A Dafny `string` is a sequence of Unicode scalar values.
 */
module JsText {

  /** A character that UTF-16 writes as a surrogate pair. */
  predicate IsAstral(c: char)
  {
    c as int >= 0x1_0000
  }

  /** `s.length` in JavaScript: one unit per character, two for an astral one. */
  function Utf16Length(s: string): (n: nat)
    ensures |s| <= n <= 2 * |s|
    ensures (forall i :: 0 <= i < |s| ==> !IsAstral(s[i])) ==> n == |s|
    ensures (forall i :: 0 <= i < |s| ==> IsAstral(s[i])) ==> n == 2 * |s|
  {
    if s == [] then 0 else (if IsAstral(s[0]) then 2 else 1) + Utf16Length(s[1..])
  }
}
