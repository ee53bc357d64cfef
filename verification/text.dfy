/**
 The two string lengths the validators measure. A Dafny `string` is a sequence
 of Unicode scalar values. JavaScript's `length` counts UTF-16 code units, so a
 character above U+FFFF counts twice. The `isLength` of validator.js counts
 code points but skips the presentation selectors U+FE0E and U+FE0F.
 */
module Text {

  /** The variation selectors 15 and 16, which `isLength` does not count. */
  predicate IsPresentationSelector(c: char) {
    c == '\U{FE0E}' || c == '\U{FE0F}'
  }

  /** A character outside the Basic Multilingual Plane: a surrogate pair in UTF-16. */
  predicate IsAstral(c: char) {
    c as int > 0xFFFF
  }

  /** `s.length` in JavaScript: the number of UTF-16 code units. */
  function Utf16Length(s: string): (n: nat)
    ensures |s| <= n <= 2 * |s|
    // the count agrees with the code points exactly when no character needs a surrogate pair
    ensures n == |s| <==> forall i | 0 <= i < |s| :: !IsAstral(s[i])
  {
    if s == [] then 0
    else
      var n := (if IsAstral(s[0]) then 2 else 1) + Utf16Length(s[1..]);
      assert forall i | 1 <= i < |s| :: s[i] == s[1..][i - 1];
      n
  }

  /** The length `isLength` compares against its bounds. */
  function ValidatorLength(s: string): (n: nat)
    ensures n <= |s|
    // the count agrees with the code points exactly when no presentation selector occurs
    ensures n == |s| <==> forall i | 0 <= i < |s| :: !IsPresentationSelector(s[i])
  {
    if s == [] then 0
    else
      var n := (if IsPresentationSelector(s[0]) then 0 else 1) + ValidatorLength(s[1..]);
      assert forall i | 1 <= i < |s| :: s[i] == s[1..][i - 1];
      n
  }

  /** A character with ASCII upper case folded to lower case; every other character is kept. */
  function AsciiLower(c: char): (d: char)
    ensures 'A' <= c <= 'Z' ==> d as int == c as int + 32
    ensures !('A' <= c <= 'Z') ==> d == c
  {
    if 'A' <= c <= 'Z' then (c as int + 32) as char else c
  }

  /** Equality up to ASCII case, as a case-insensitive JavaScript regular
      expression without the `u` flag compares literal text. */
  predicate SameIgnoringAsciiCase(a: string, b: string) {
    |a| == |b| && forall i | 0 <= i < |a| :: AsciiLower(a[i]) == AsciiLower(b[i])
  }

  /** Three emoji are six UTF-16 code units, and three for `isLength`. */
  lemma EmojiLengths()
    ensures Utf16Length("\U{1F600}\U{1F600}\U{1F600}") == 6
    ensures ValidatorLength("\U{1F600}\U{1F600}\U{1F600}") == 3
  {
  }

  /** A heart written with its emoji selector is two code units, and one for `isLength`. */
  lemma SelectorLengths()
    ensures Utf16Length("\U{2764}\U{FE0F}") == 2
    ensures ValidatorLength("\U{2764}\U{FE0F}") == 1
  {
  }
}
