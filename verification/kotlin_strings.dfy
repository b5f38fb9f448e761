/** Kotlin `String` length. A Dafny `string` is a sequence of Unicode scalar
    values, while a Kotlin string is a sequence of UTF-16 code units: a
    character outside the Basic Multilingual Plane takes two of them. */
module KotlinStrings {

  /** True for a character that UTF-16 encodes as a surrogate pair. */
  predicate IsSupplementary(c: char) {
    c as int >= 0x1_0000
  }

  /** `String.length`: the number of UTF-16 code units of `s`. */
  function Utf16Length(s: string): (n: nat)
    ensures |s| <= n <= 2 * |s|
  {
    if s == [] then 0
    else (if IsSupplementary(s[0]) then 2 else 1) + Utf16Length(s[1..])
  }

  /** The length in code units is the character count exactly when no
      character needs a surrogate pair, and twice it exactly when every
      character does. */
  lemma {:induction false} Utf16LengthCounts(s: string)
    ensures Utf16Length(s) == |s| <==> forall i :: 0 <= i < |s| ==> !IsSupplementary(s[i])
    ensures Utf16Length(s) == 2 * |s| <==> forall i :: 0 <= i < |s| ==> IsSupplementary(s[i])
    decreases |s|
  {
    if s != [] {
      Utf16LengthCounts(s[1..]);
      assert forall i :: 0 < i < |s| ==> s[i] == s[1..][i - 1];
    }
  }
}
