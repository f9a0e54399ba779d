/**
 * The character tests and case mappings of Python's `str` that the scanner
 * uses: `isspace`, `isalpha`, `isalnum`, `upper` and `lower`.
 * Letters and digits are the ASCII ones; `IsSpace` is Python's full list.
 */
module Chars {

  /** `c.isspace()`: ASCII 9-13 and 28-32, and the Unicode separators. */
  predicate IsSpace(c: char) {
    var n := c as int;
    (9 <= n <= 13) || (28 <= n <= 32) || n == 0x85 || n == 0xA0 || n == 0x1680
    || (0x2000 <= n <= 0x200A) || n == 0x2028 || n == 0x2029 || n == 0x202F
    || n == 0x205F || n == 0x3000
  }

  predicate IsLowerLetter(c: char) { 'a' <= c <= 'z' }

  predicate IsUpperLetter(c: char) { 'A' <= c <= 'Z' }

  /** `c.isalpha()` */
  predicate IsAlpha(c: char) { IsLowerLetter(c) || IsUpperLetter(c) }

  predicate IsDigit(c: char) { '0' <= c <= '9' }

  /** `c.isalnum()` */
  predicate IsAlnum(c: char) { IsAlpha(c) || IsDigit(c) }

  /** A character that may continue an identifier: `c.isalnum() or c == "_"`. */
  predicate IsIdChar(c: char) { IsAlnum(c) || c == '_' }

  predicate IsLowerWord(s: string) {
    forall i :: 0 <= i < |s| ==> IsLowerLetter(s[i])
  }

  /** Upper-casing leaves no lower-case letter and keeps letters letters. */
  function UpperChar(c: char): (r: char)
    ensures !IsLowerLetter(r)
    ensures IsAlpha(r) <==> IsAlpha(c)
  {
    if IsLowerLetter(c) then (c as int - 32) as char else c
  }

  /** Lower-casing leaves no upper-case letter and keeps letters letters. */
  function LowerChar(c: char): (r: char)
    ensures !IsUpperLetter(r)
    ensures IsAlpha(r) <==> IsAlpha(c)
  {
    if IsUpperLetter(c) then (c as int + 32) as char else c
  }

  /** `s.upper()`: same length, no lower-case letter left. */
  function Upper(s: string): (r: string)
    ensures |r| == |s|
    ensures forall i :: 0 <= i < |r| ==> !IsLowerLetter(r[i])
  {
    seq(|s|, i requires 0 <= i < |s| => UpperChar(s[i]))
  }

  /** `s.lower()`: same length, no upper-case letter left. */
  function Lower(s: string): (r: string)
    ensures |r| == |s|
    ensures forall i :: 0 <= i < |r| ==> !IsUpperLetter(r[i])
  {
    seq(|s|, i requires 0 <= i < |s| => LowerChar(s[i]))
  }

  /**
   * Upper- and lower-casing lose the same information: a string and its
   * upper-cased form have the same lower-cased form and vice versa, and
   * lower-casing twice is lower-casing once.
   */
  lemma CaseMappingsAgree(s: string)
    ensures Lower(Upper(s)) == Lower(s)
    ensures Upper(Lower(s)) == Upper(s)
    ensures Lower(Lower(s)) == Lower(s)
  {
    assert forall i :: 0 <= i < |s| ==> Lower(Upper(s))[i] == Lower(s)[i];
    assert forall i :: 0 <= i < |s| ==> Upper(Lower(s))[i] == Upper(s)[i];
    assert forall i :: 0 <= i < |s| ==> Lower(Lower(s))[i] == Lower(s)[i];
  }

  /** Lower-casing a lower-case word changes nothing. */
  lemma LowerOfLowerWord(s: string)
    requires IsLowerWord(s)
    ensures Lower(s) == s
  {
  }
}
