/** Character classes of the YAML tokenizer.

    Every predicate here is a single test on one character; the scanner
    pads its lookahead buffer with '\0' at the end of input, so `IsZ` is
    how it sees end of input.  The scanner module keeps a private copy of
    these same classifiers; both copies are modelled by this one module. */
module Funcs {

  /** End of input (the padding character). */
  predicate IsZ(c: char) {
    c == '\0'
  }

  /** A line break: LF or CR. */
  predicate IsBreak(c: char) {
    c == '\n' || c == '\r'
  }

  /** White space inside a line: space or tab. */
  predicate IsBlank(c: char) {
    c == ' ' || c == '\t'
  }

  /** A decimal digit; every digit is also a word character and a hex digit. */
  predicate IsDigit(c: char): (r: bool)
    ensures r ==> IsAlpha(c) && IsHex(c)
  {
    '0' <= c <= '9'
  }

  /** A word character: ASCII letters and digits, '_' and '-'. */
  predicate IsAlpha(c: char) {
    '0' <= c <= '9' || 'a' <= c <= 'z' || 'A' <= c <= 'Z' || c == '_' || c == '-'
  }

  /** A hexadecimal digit in either case; every one is also a word character. */
  predicate IsHex(c: char): (r: bool)
    ensures r ==> IsAlpha(c)
  {
    '0' <= c <= '9' || 'a' <= c <= 'f' || 'A' <= c <= 'F'
  }

  /** A line break or end of input. */
  predicate IsBreakz(c: char): (r: bool)
    ensures r <==> c in {'\n', '\r', '\0'}
  {
    IsBreak(c) || IsZ(c)
  }

  /** White space, a line break or end of input. */
  predicate IsBlankz(c: char): (r: bool)
    ensures r <==> c in {' ', '\t', '\n', '\r', '\0'}
    ensures IsBreakz(c) ==> r
  {
    IsBlank(c) || IsBreakz(c)
  }

  /** A flow indicator; none of them is a word character or white space. */
  predicate IsFlow(c: char): (r: bool)
    ensures r ==> !IsAlpha(c) && !IsBlankz(c)
  {
    c == ',' || c == '[' || c == ']' || c == '{' || c == '}'
  }

  /** The value of a hexadecimal digit.  The source reaches `unreachable!()`
      for any other character, so the digit class is a precondition. */
  function AsHex(c: char): (v: nat)
    requires IsHex(c)
    ensures v < 16
    ensures '0' <= c <= '9' ==> v == c as int - '0' as int
    ensures 'a' <= c <= 'f' ==> v == c as int - 'a' as int + 10
    ensures 'A' <= c <= 'F' ==> v == c as int - 'A' as int + 10
  {
    if '0' <= c <= '9' then c as int - '0' as int
    else if 'a' <= c <= 'f' then c as int - 'a' as int + 10
    else c as int - 'A' as int + 10
  }

  /** ASCII lower-casing of a hex letter (other characters are kept). */
  function ToLower(c: char): (d: char)
    ensures IsHex(c) ==> IsHex(d)
  {
    if 'A' <= c <= 'F' then (c as int - 'A' as int + 'a' as int) as char else c
  }

  /** The lower-case digit for a value below 16: the inverse of `AsHex`. */
  function HexDigit(v: nat): (c: char)
    requires v < 16
    ensures IsHex(c) && AsHex(c) == v
  {
    if v < 10 then ('0' as int + v) as char else ('a' as int + v - 10) as char
  }

  /** Letter case does not change a digit's value. */
  lemma AsHexIgnoresCase(c: char)
    requires IsHex(c)
    ensures AsHex(ToLower(c)) == AsHex(c)
  {
  }

  /** `HexDigit` undoes `AsHex` up to letter case. */
  lemma HexDigitOfAsHex(c: char)
    requires IsHex(c)
    ensures HexDigit(AsHex(c)) == ToLower(c)
  {
  }
}
