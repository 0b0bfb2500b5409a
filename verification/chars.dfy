/** Character classes used by the lexical patterns. All classes but the two
    Unicode ones are ASCII-only, as the bracket expressions of the patterns
    are. Classes over whole strings are stated with membership quantifiers. */
module Chars {

  predicate IsAsciiDigit(c: char) {
    '0' <= c <= '9'
  }

  predicate IsAsciiAlpha(c: char) {
    'a' <= c <= 'z' || 'A' <= c <= 'Z'
  }

  predicate IsAsciiAlnum(c: char) {
    IsAsciiAlpha(c) || IsAsciiDigit(c)
  }

  /** The Unicode general category Z (`\p{Z}`): space separators, the line
      separator U+2028 and the paragraph separator U+2029. */
  predicate IsSeparator(c: char) {
    var n := c as int;
    n == 0x20 || n == 0xA0 || n == 0x1680 || (0x2000 <= n <= 0x200A)
    || n == 0x2028 || n == 0x2029 || n == 0x202F || n == 0x205F || n == 0x3000
  }

  /** The Unicode White_Space property, which Rust's `char::is_whitespace`,
      `str::split_whitespace` and the regex class `\s` use. */
  predicate IsWhitespace(c: char) {
    var n := c as int;
    (0x09 <= n <= 0x0D) || n == 0x20 || n == 0x85 || n == 0xA0 || n == 0x1680
    || (0x2000 <= n <= 0x200A) || n == 0x2028 || n == 0x2029 || n == 0x202F
    || n == 0x205F || n == 0x3000
  }

  /** The class `[^\r\n\t \p{Z}]` of the `NO_WHITESPACE` pattern. */
  predicate IsNoWhitespaceChar(c: char) {
    !(c == '\r' || c == '\n' || c == '\t' || c == ' ' || IsSeparator(c))
  }

  predicate AllDigits(s: string) {
    forall c | c in s :: IsAsciiDigit(c)
  }

  predicate NoWhitespace(s: string) {
    forall c | c in s :: !IsWhitespace(c)
  }

  /** Every character outside the `NO_WHITESPACE` class is white space in
      Rust's sense, so text free of white space is in that class. */
  lemma NoWhitespaceIsInClass(c: char)
    requires !IsWhitespace(c)
    ensures IsNoWhitespaceChar(c)
  {
  }
}
