/** The bytes of JSON by their codes, as RFC 8259 gives them, and the bytes of
    words without quotes. */
module JsmnBytes {

  /** Section 2: space, tab, line feed, carriage return. */
  predicate White(c: char) { c as int in {0x20, 0x09, 0x0A, 0x0D} }

  /** Section 7: what may follow a backslash, but for u. */
  predicate EscapeLetter(c: char) {
    c as int in {0x22, 0x5C, 0x2F, 0x62, 0x66, 0x6E, 0x72, 0x74}
  }

  predicate HexDigit(c: char) {
    0x30 <= c as int <= 0x39 || 0x41 <= c as int <= 0x46 || 0x61 <= c as int <= 0x66
  }

  /** A word goes on with any visible byte but a comma and the brackets that
      close, and outside strict mode not with a colon. */
  predicate WordByte(strict: bool, c: char) {
    0x21 <= c as int <= 0x7E && c as int !in {0x2C, 0x5D, 0x7D} && (strict || c as int != 0x3A)
  }

  /** The bytes behind a word. */
  predicate EndsWord(strict: bool, c: char) {
    White(c) || c as int in {0x2C, 0x5D, 0x7D} || (!strict && c as int == 0x3A)
  }

  /** In strict mode a word begins as a number, true, false or null do, and
      else with any of its bytes that begins nothing else. */
  predicate StartsWord(strict: bool, c: char) {
    if strict then c as int in {0x2D, 0x66, 0x6E, 0x74} || 0x30 <= c as int <= 0x39
    else WordByte(false, c) && c as int !in {0x22, 0x5B, 0x7B}
  }

  /** A word may end before i: data end there, or something ends it. */
  predicate Delimits(strict: bool, js: string, i: nat) {
    if i < |js| && js[i] as int != 0 then EndsWord(strict, js[i]) else !strict
  }
}
