/** Character classes and string predicates of Java's default (ASCII) regex mode. */
module Text {

  /** `String.startsWith`. */
  predicate StartsWith(s: string, prefix: string) {
    |prefix| <= |s| && s[..|prefix|] == prefix
  }

  /** `\d`: an ASCII digit. */
  predicate IsDigit(c: char) {
    '0' <= c <= '9'
  }

  /** `\p{Alnum}`: an ASCII letter or digit. */
  predicate IsAlnum(c: char) {
    IsDigit(c) || 'a' <= c <= 'z' || 'A' <= c <= 'Z'
  }

  /** `\p{Graph}`: a visible ASCII character, 0x21 to 0x7E. */
  predicate IsGraph(c: char) {
    '!' <= c <= '~'
  }

  /** Neither a carriage return nor a line feed. */
  predicate NoLineBreak(s: string) {
    forall i :: 0 <= i < |s| ==> s[i] != '\r' && s[i] != '\n'
  }
}
