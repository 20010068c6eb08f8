/** The escapes of a JSON string and the white space between tokens, as RFC 8259 gives them. */
module JsonEscapes {
  import opened Prelude

  /** White space between tokens (section 2 of RFC 8259). */
  predicate IsWhite(c: char) { c as int in {0x20, 0x09, 0x0A, 0x0D} }

  predicate White(s: string) { forall k :: 0 <= k < |s| ==> IsWhite(s[k]) }

  /** The code point of a two-character escape (section 7 of RFC 8259). */
  function ShortCode(c: char): Option<nat> {
    match c
    case '"' => Some(0x22)
    case '\\' => Some(0x5C)
    case '/' => Some(0x2F)
    case 'b' => Some(0x08)
    case 'f' => Some(0x0C)
    case 'n' => Some(0x0A)
    case 'r' => Some(0x0D)
    case 't' => Some(0x09)
    case _ => None
  }

  /** The digits of a number in base 16, in both spellings. */
  predicate Denotes(c: char, v: nat) {
    v < 16 && ("0123456789abcdef"[v] == c || "0123456789ABCDEF"[v] == c)
  }

  /** A \u escape's four digits, most significant first. */
  ghost predicate IsHex4(h: string) { |h| == 4 && forall k :: 0 <= k < 4 ==> exists v :: Denotes(h[k], v) }

  ghost function DigitValue(c: char): (v: nat)
    requires exists v :: Denotes(c, v)
    ensures Denotes(c, v)
  {
    var v :| Denotes(c, v);
    v
  }

  ghost function HexValue(h: string): nat
    requires IsHex4(h)
  {
    0x1000 * DigitValue(h[0]) + 0x100 * DigitValue(h[1]) + 0x10 * DigitValue(h[2]) + DigitValue(h[3])
  }

  /** The digit test of the programs is the table. */
  lemma HexDigitIs(c: char, v: nat)
    ensures HexDigit(c) == Some(v) <==> Denotes(c, v)
  {
  }

  /** The digits of a \u escape, as the programs read them. */
  lemma HexDigits(h: string) returns (d: seq<nat>)
    requires IsHex4(h)
    ensures |d| == 4 && forall k :: 0 <= k < 4 ==> HexDigit(h[k]) == Some(d[k])
    ensures HexValue(h) == 0x1000 * d[0] + 0x100 * d[1] + 0x10 * d[2] + d[3]
  {
    d := [DigitValue(h[0]), DigitValue(h[1]), DigitValue(h[2]), DigitValue(h[3])];
    HexDigitIs(h[0], d[0]);
    HexDigitIs(h[1], d[1]);
    HexDigitIs(h[2], d[2]);
    HexDigitIs(h[3], d[3]);
  }
}
