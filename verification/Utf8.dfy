/** UTF-8 (section 3 of RFC 3629): writing text as bytes, and strict reading. */
module Utf8 {
  import opened Prelude

  function EncodeChar(c: char): (b: Bytes)
    ensures |b| == Utf8Len(c)
  {
    var v := c as int;
    if v < 0x80 then [v]
    else if v < 0x800 then [0xC0 + v / 64, 0x80 + v % 64]
    else if v < 0x10000 then [0xE0 + v / 64 / 64, 0x80 + v / 64 % 64, 0x80 + v % 64]
    else [0xF0 + v / 64 / 64 / 64, 0x80 + v / 64 / 64 % 64, 0x80 + v / 64 % 64, 0x80 + v % 64]
  }

  function Encode(s: string): Bytes
    decreases |s|
  {
    if s == [] then [] else EncodeChar(s[0]) + Encode(s[1..])
  }

  /** How many bytes the character led by `b` has; none for a byte that cannot lead. */
  function Width(b: Byte): nat {
    if b < 0x80 then 1
    else if b < 0xC0 then 0
    else if b < 0xE0 then 2
    else if b < 0xF0 then 3
    else if b < 0xF8 then 4
    else 0
  }

  function Value(b: Bytes): int
    requires 1 <= |b| <= 4
  {
    match |b|
    case 1 => (b[0] as int)
    case 2 => ((b[0] as int) - 0xC0) * 64 + ((b[1] as int) - 0x80)
    case 3 => (((b[0] as int) - 0xE0) * 64 + ((b[1] as int) - 0x80)) * 64 + ((b[2] as int) - 0x80)
    case _ =>
      ((((b[0] as int) - 0xF0) * 64 + ((b[1] as int) - 0x80)) * 64 + ((b[2] as int) - 0x80)) * 64
      + ((b[3] as int) - 0x80)
  }

  predicate IsScalar(v: int) { 0 <= v < 0xD800 || 0xE000 <= v < 0x11_0000 }

  /** `b` opens with the bytes of one character; overlong and surrogate forms do not. */
  predicate OpensWithChar(b: Bytes) {
    && b != [] && 1 <= Width(b[0]) <= |b|
    && IsScalar(Value(b[..Width(b[0])])) && EncodeChar(Value(b[..Width(b[0])]) as char) == b[..Width(b[0])]
  }

  predicate IsUtf8(b: Bytes)
    decreases |b|
  {
    b == [] || (OpensWithChar(b) && IsUtf8(b[Width(b[0])..]))
  }

  function CharAt(b: Bytes): char
    requires OpensWithChar(b)
  {
    Value(b[..Width(b[0])]) as char
  }

  function Decode(b: Bytes): string
    requires IsUtf8(b)
    decreases |b|
  {
    if b == [] then [] else [CharAt(b)] + Decode(b[Width(b[0])..])
  }

  lemma EncodeCons(c: char, s: string)
    ensures Encode([c] + s) == EncodeChar(c) + Encode(s)
  {
    assert ([c] + s)[1..] == s;
  }

  /** Reading is strict: the text read encodes to the bytes it came from. */
  lemma {:induction false} EncodeDecode(b: Bytes)
    requires IsUtf8(b)
    ensures Encode(Decode(b)) == b
    decreases |b|
  {
    if b != [] {
      DecodeFirst(b);
      EncodeDecode(b[Width(b[0])..]);
      Rejoin(b, CharAt(b), Decode(b[Width(b[0])..]), Width(b[0]));
    }
  }

  lemma DecodeFirst(b: Bytes)
    requires IsUtf8(b) && b != []
    ensures OpensWithChar(b) && IsUtf8(b[Width(b[0])..]) && EncodeChar(CharAt(b)) == b[..Width(b[0])]
    ensures Decode(b) == [CharAt(b)] + Decode(b[Width(b[0])..])
  {
  }

  lemma Rejoin(b: Bytes, c: char, t: string, n: nat)
    requires n <= |b| && EncodeChar(c) == b[..n] && Encode(t) == b[n..]
    ensures Encode([c] + t) == b
  {
    EncodeCons(c, t);
    assert b == b[..n] + b[n..];
  }

  lemma CharReadsBack(c: char)
    ensures var b := EncodeChar(c); Width(b[0]) == |b| && Value(b) == c as int
  {
  }

  lemma CharFirst(c: char, rest: Bytes)
    ensures var b := EncodeChar(c) + rest;
      OpensWithChar(b) && CharAt(b) == c && b[Width(b[0])..] == rest
  {
    var e := EncodeChar(c);
    CharReadsBack(c);
    assert (e + rest)[..|e|] == e;
  }

  /** What was written reads back as the same text. */
  lemma {:induction false} DecodeEncode(s: string)
    ensures IsUtf8(Encode(s)) && Decode(Encode(s)) == s
    decreases |s|
  {
    if s != [] {
      CharFirst(s[0], Encode(s[1..]));
      DecodeEncode(s[1..]);
      assert [s[0]] + s[1..] == s;
    }
  }

  lemma {:induction false} EncodeConcat(s: string, t: string)
    ensures Encode(s + t) == Encode(s) + Encode(t)
    decreases |s|
  {
    if s == [] {
      assert s + t == t;
    } else {
      assert (s + t)[1..] == s[1..] + t;
      EncodeConcat(s[1..], t);
    }
  }

  /** An ASCII byte stands only for its own character. */
  lemma {:induction false} AsciiBytes(s: string, v: Byte)
    requires v < 0x80
    ensures v in Encode(s) <==> v as char in s
    decreases |s|
  {
    if s != [] {
      AsciiBytes(s[1..], v);
      assert v in EncodeChar(s[0]) <==> v as char == s[0];
      assert s == [s[0]] + s[1..];
    }
  }

  lemma {:induction false} LastByte(s: string)
    requires s != []
    ensures var b := Encode(s); b != [] && (b[|b| - 1] < 0x80 ==> b[|b| - 1] == s[|s| - 1] as int)
    decreases |s|
  {
    if |s| > 1 {
      LastByte(s[1..]);
    } else {
      assert s[1..] == [];
    }
  }

  /** A byte that goes on with a character. */
  predicate IsInner(b: Byte) { 0x80 <= b < 0xC0 }

  lemma CharBytes(c: char)
    ensures var b := EncodeChar(c); !IsInner(b[0]) && forall k :: 0 < k < |b| ==> IsInner(b[k])
  {
  }

  /** A prefix of text is text exactly when the byte after it starts a character. */
  lemma {:induction false} PrefixIsText(b: Bytes, n: nat)
    requires IsUtf8(b) && n < |b|
    ensures IsUtf8(b[..n]) <==> !IsInner(b[n])
    decreases |b|
  {
    var w := Width(b[0]);
    DecodeFirst(b);
    CharBytes(CharAt(b));
    assert n < w ==> b[n] == b[..w][n];
    if n >= w && n > 0 {
      PrefixGoesOn(b, n);
      PrefixIsText(b[w..], n - w);
    }
  }

  lemma PrefixGoesOn(b: Bytes, n: nat)
    requires OpensWithChar(b) && Width(b[0]) <= n < |b|
    ensures IsUtf8(b[..n]) <==> IsUtf8(b[Width(b[0])..][..n - Width(b[0])])
  {
    var w := Width(b[0]);
    assert b[..n][..w] == b[..w] && b[..n][w..] == b[w..][..n - w];
  }
}
