/** Characters, and the identifier pattern the services match with a regular expression. */
module Identifiers {
  predicate IsDigit(c: char) { '0' <= c <= '9' }

  /** White space as strings.TrimSpace knows it. */
  predicate IsSpace(c: char) {
    var n := c as int;
    9 <= n <= 13 || n == 0x20 || n == 0x85 || n == 0xA0 || n == 0x1680 || 0x2000 <= n <= 0x200A ||
    n == 0x2028 || n == 0x2029 || n == 0x202F || n == 0x205F || n == 0x3000
  }

  predicate IsAlnum(c: char) { 'A' <= c <= 'Z' || 'a' <= c <= 'z' || IsDigit(c) }

  /** ^[A-Za-z0-9][A-Za-z0-9._:-]{0,199}$ */
  predicate IsIdentifier(s: string) {
    && 1 <= |s| <= 200
    && IsAlnum(s[0])
    && forall i :: 0 <= i < |s| ==> IsAlnum(s[i]) || s[i] in "._:-"
  }
}
