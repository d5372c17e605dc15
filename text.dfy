/**
 * String helpers shared by the backend model: Python's `str.lower()` (restricted
 * to ASCII letters) and Python's substring test `needle in haystack`.
 */
module Text {

  /** Lower-cases one character; only the ASCII letters A-Z change. */
  function LowerChar(c: char): (r: char)
    ensures 'A' <= c <= 'Z' ==> r as int == c as int + 32
    ensures !('A' <= c <= 'Z') ==> r == c
    ensures !('A' <= r <= 'Z')
  {
    if 'A' <= c <= 'Z' then (c as int + 32) as char else c
  }

  /** `s.lower()`, character by character. */
  function Lower(s: string): (r: string)
    ensures |r| == |s|
    ensures forall i :: 0 <= i < |s| ==> r[i] == LowerChar(s[i])
  {
    seq(|s|, i requires 0 <= i < |s| => LowerChar(s[i]))
  }

  /** `needle` occurs in `haystack` starting at index `i`. */
  predicate OccursAt(haystack: string, needle: string, i: int)
  {
    0 <= i && i + |needle| <= |haystack| && haystack[i..i + |needle|] == needle
  }

  /** Python's `needle in haystack` on strings. */
  predicate Contains(haystack: string, needle: string)
  {
    exists i | 0 <= i <= |haystack| :: OccursAt(haystack, needle, i)
  }

  /** The window of `s` at index `i`, of the needle's length, lower-cases to the needle. */
  predicate OccursIgnoringCaseAt(s: string, needle: string, i: int)
  {
    0 <= i && i + |needle| <= |s| && Lower(s[i..i + |needle|]) == needle
  }

  /** Lower-casing commutes with slicing. */
  lemma LowerSlice(s: string, i: int, j: int)
    requires 0 <= i <= j <= |s|
    ensures Lower(s)[i..j] == Lower(s[i..j])
  {
  }

  /**
   * The test `needle in s.lower()` is a case-insensitive substring test: it holds
   * exactly when some window of `s` of the needle's length lower-cases to the needle.
   */
  lemma ContainsLowerIff(s: string, needle: string)
    ensures Contains(Lower(s), needle) <==> exists i | 0 <= i <= |s| :: OccursIgnoringCaseAt(s, needle, i)
  {
    if Contains(Lower(s), needle) {
      var i :| 0 <= i <= |Lower(s)| && OccursAt(Lower(s), needle, i);
      LowerSlice(s, i, i + |needle|);
      assert OccursIgnoringCaseAt(s, needle, i);
    }
    if exists i | 0 <= i <= |s| :: OccursIgnoringCaseAt(s, needle, i) {
      var i :| 0 <= i <= |s| && OccursIgnoringCaseAt(s, needle, i);
      LowerSlice(s, i, i + |needle|);
      assert OccursAt(Lower(s), needle, i);
    }
  }

}
