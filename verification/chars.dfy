/** Character classes used by Python's `str` methods and by the `re`
    character classes `\s`, `\d` and `\w`. */
module Chars {

  /** Python's `str.isspace()`, which is also what `\s`, `str.strip()` and
      `str.split()` use: the complete list of whitespace code points. */
  predicate IsSpace(c: char) {
    || ('\U{9}' <= c <= '\U{D}')
    || ('\U{1C}' <= c <= '\U{20}')
    || c == '\U{85}' || c == '\U{A0}' || c == '\U{1680}'
    || ('\U{2000}' <= c <= '\U{200A}')
    || c == '\U{2028}' || c == '\U{2029}' || c == '\U{202F}'
    || c == '\U{205F}' || c == '\U{3000}'
  }

  /** `\d`, restricted to the ASCII digits. */
  predicate IsDigit(c: char) {
    '0' <= c <= '9'
  }

  predicate IsAsciiLetter(c: char) {
    ('a' <= c <= 'z') || ('A' <= c <= 'Z')
  }

  /** `\w`, restricted to ASCII letters, ASCII digits and the underscore. */
  predicate IsWordChar(c: char) {
    IsAsciiLetter(c) || IsDigit(c) || c == '_'
  }

  /** `[1-9]`: the first character of a move list in the corpus patterns. */
  predicate IsNonZeroDigit(c: char) {
    '1' <= c <= '9'
  }

  /** Lower-casing of one character. Python's `str.lower()` turns exactly two
      kinds of character into a single ASCII letter: the ASCII capitals and
      U+212A KELVIN SIGN (to 'k'). Every other non-ASCII character lowers to text
      that is not all ASCII (U+0130 to two characters), so comparing the result with
      an ASCII keyword gives the same answer as Python does. */
  function LowerChar(c: char): (r: char)
    ensures 'A' <= c <= 'Z' ==> 'a' <= r <= 'z' && r as int == c as int + 32
    ensures !('A' <= c <= 'Z') && c != '\U{212A}' ==> r == c
  {
    if 'A' <= c <= 'Z' then (c as int + 32) as char
    else if c == '\U{212A}' then 'k'
    else c
  }

  function Lower(s: string): (r: string)
    ensures |r| == |s|
    ensures forall i :: 0 <= i < |s| ==> r[i] == LowerChar(s[i])
  {
    seq(|s|, i requires 0 <= i < |s| => LowerChar(s[i]))
  }
}
