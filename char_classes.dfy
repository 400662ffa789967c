/**
 * Character classes of Go's regexp (RE2, ASCII Perl classes) and of
 * unicode.IsSpace, and the end of a run of one class.
 */
module CharClasses {

  /** \d */
  predicate IsDigit(c: char) {
    '0' <= c <= '9'
  }

  /** \w */
  predicate IsWordChar(c: char) {
    IsDigit(c) || 'a' <= c <= 'z' || 'A' <= c <= 'Z' || c == '_'
  }

  /** \s: tab, newline, form feed, carriage return and space. */
  predicate IsRegexSpace(c: char) {
    c == '\t' || c == '\n' || c == 12 as char || c == '\r' || c == ' '
  }

  /** unicode.IsSpace, which strings.TrimSpace uses: \s plus vertical tab and the Unicode White_Space characters. */
  predicate IsUnicodeSpace(c: char) {
    IsRegexSpace(c) || c == 11 as char || c == 0x85 as char || c == 0xA0 as char || c == 0x1680 as char
    || (0x2000 as char <= c <= 0x200A as char) || c == 0x2028 as char || c == 0x2029 as char
    || c == 0x202F as char || c == 0x205F as char || c == 0x3000 as char
  }

  /** The end of the run of characters of class `inClass` that starts at i. */
  function RunEnd(s: string, i: nat, inClass: char -> bool): (j: nat)
    requires i <= |s|
    ensures i <= j <= |s|
    ensures forall k :: i <= k < j ==> inClass(s[k])
    ensures j == |s| || !inClass(s[j])
    decreases |s| - i
  {
    if i < |s| && inClass(s[i]) then RunEnd(s, i + 1, inClass) else i
  }

  /** A run ends at p when the characters before p are in the class and the one at p is not. */
  lemma {:induction false} RunEndAt(s: string, i: nat, p: nat, inClass: char -> bool)
    requires i <= p <= |s|
    requires forall k :: i <= k < p ==> inClass(s[k])
    requires p == |s| || !inClass(s[p])
    ensures RunEnd(s, i, inClass) == p
    decreases p - i
  {
    if i < p {
      RunEndAt(s, i + 1, p, inClass);
    }
  }
}
