/** Chunks and the image file, with a reader written from the PNG specification. */
module PngFile {
  import opened Prelude
  import opened Adler
  import opened Checksums
  import opened Png
  import CrcPolynomial

  // ----- chunks (section 5.3 of the PNG specification) -----------------------------------

  /** The source's cast to `u32`, which drops what does not fit. */
  function AsU32(n: nat): (r: nat)
    ensures r < 0x1_0000_0000 && (n < 0x1_0000_0000 ==> r == n)
  {
    n % 0x1_0000_0000
  }

  /** Length, type, data, and the checksum of type and data. */
  function Chunk(kind: Octets, data: Octets): Octets {
    Be32(AsU32(|data|)) + kind + data + BeWord(Crc(kind + data))
  }

  method PngChunk(kind: Octets, data: Octets) returns (out: Octets)
    requires |kind| == 4
    ensures out == Chunk(kind, data)
  {
    out := Be32(AsU32(|data|));
    out := out + kind;
    out := out + data;
    var crcIn := kind;
    crcIn := crcIn + data;
    var c := Crc32(crcIn);
    out := out + BeWord(c);
  }

  datatype Piece = Piece(kind: Octets, data: Octets, rest: Octets)

  /** The first chunk of `s`, if it is all there and its checksum is the remainder that the
      specification defines (annex D). */
  function ReadChunk(s: Octets): Option<Piece> {
    if |s| < 12 || |s| < 12 + Read32(s[..4]) then None
    else
      var n := Read32(s[..4]);
      if CrcPolynomial.CheckBits(s[8 + n..12 + n]) != CrcPolynomial.CrcBits(s[4..8 + n]) then None
      else Some(Piece(s[4..8], s[8..8 + n], s[12 + n..]))
  }

  lemma CheckHolds(data: Octets)
    ensures CrcPolynomial.CheckBits(BeWord(Crc(data))) == CrcPolynomial.CrcBits(data)
  {
    var c := Crc(data);
    var c1, c2, c3 := CrcPolynomial.Above(c);
    WordBytes(c, c1, c2, c3);
    CrcPolynomial.CheckIsRemainder(data, BeWord(c), c1, c2, c3);
  }

  /** The bytes of a word from the most significant down. */
  lemma WordBytes(c: bv32, c1: bv32, c2: bv32, c3: bv32)
    requires c >> 8 == c1 && c1 >> 8 == c2 && c2 >> 8 == c3
    ensures BeWord(c) == [CrcPolynomial.LowOctet(c3), CrcPolynomial.LowOctet(c2), CrcPolynomial.LowOctet(c1),
      CrcPolynomial.LowOctet(c)]
  {
    ShiftedTwice(c);
  }

  lemma ShiftedTwice(c: bv32)
    ensures c >> 8 >> 8 == c >> 16 && c >> 16 >> 8 == c >> 24
  {
  }

  predicate Parts(s: Octets, n: nat, len: Octets, kind: Octets, data: Octets, check: Octets, rest: Octets) {
    && |s| == 12 + n + |rest| && |data| == n
    && s[..4] == len && s[4..8] == kind && s[8..8 + n] == data && s[4..8 + n] == kind + data
    && s[8 + n..12 + n] == check && s[12 + n..] == rest
  }

  lemma HasParts(len: Octets, kind: Octets, data: Octets, check: Octets, rest: Octets)
    requires |len| == |kind| == |check| == 4
    ensures Parts(len + kind + data + check + rest, |data|, len, kind, data, check, rest)
  {
  }

  lemma ReadParts(s: Octets, n: nat, len: Octets, kind: Octets, data: Octets, check: Octets, rest: Octets)
    requires |len| == |check| == 4 && Read32(len) == n
    requires CrcPolynomial.CheckBits(check) == CrcPolynomial.CrcBits(kind + data)
    requires Parts(s, n, len, kind, data, check, rest)
    ensures ReadChunk(s) == Some(Piece(kind, data, rest))
  {
  }

  /** A chunk reads back, whatever follows it. */
  lemma ChunkReadsBack(kind: Octets, data: Octets, rest: Octets)
    requires |kind| == 4 && |data| < 0x1_0000_0000
    ensures ReadChunk(Chunk(kind, data) + rest) == Some(Piece(kind, data, rest))
  {
    Read32Be32(|data|);
    ChunkIs(kind, data);
    CheckHolds(kind + data);
    ReadFrom(Chunk(kind, data), Be32(|data|), kind, data, BeWord(Crc(kind + data)), rest);
  }

  lemma ChunkIs(kind: Octets, data: Octets)
    requires |data| < 0x1_0000_0000
    ensures Chunk(kind, data) == Be32(|data|) + kind + data + BeWord(Crc(kind + data))
  {
  }

  lemma ReadFrom(chunk: Octets, len: Octets, kind: Octets, data: Octets, check: Octets, rest: Octets)
    requires |len| == |kind| == |check| == 4 && Read32(len) == |data|
    requires CrcPolynomial.CheckBits(check) == CrcPolynomial.CrcBits(kind + data)
    requires chunk == len + kind + data + check
    ensures ReadChunk(chunk + rest) == Some(Piece(kind, data, rest))
  {
    HasParts(len, kind, data, check, rest);
    ReadParts(chunk + rest, |data|, len, kind, data, check, rest);
  }

  // ----- the file ----------------------------------------------------------------------------

  function Signature(): Octets { [0x89, 0x50, 0x4e, 0x47, 0x0d, 0x0a, 0x1a, 0x0a] }
  function Ihdr(): Octets { [73, 72, 68, 82] }
  function Idat(): Octets { [73, 68, 65, 84] }
  function Iend(): Octets { [73, 69, 78, 68] }
  /** Eight bits a channel, truecolour with alpha, the standard methods, no interlacing. */
  function Format(): Octets { [8, 6, 0, 0, 0] }

  function Header(w: nat, h: nat): Octets
    requires w < 0x1_0000_0000 && h < 0x1_0000_0000
  {
    Be32(w) + Be32(h) + Format()
  }

  function File(w: nat, h: nat, raw: Octets): Octets
    requires w < 0x1_0000_0000 && h < 0x1_0000_0000
  {
    Signature() + Chunk(Ihdr(), Header(w, h)) + Chunk(Idat(), Zlib(raw)) + Chunk(Iend(), [])
  }

  method PngEncode(w: nat, h: nat, raw: Octets) returns (out: Octets)
    requires w < 0x1_0000_0000 && h < 0x1_0000_0000
    ensures out == File(w, h, raw)
  {
    out := [0x89, 0x50, 0x4e, 0x47, 0x0d, 0x0a, 0x1a, 0x0a];
    var ihdr := Be32(w);
    ihdr := ihdr + Be32(h);
    ihdr := ihdr + [8, 6, 0, 0, 0];
    var c := PngChunk([73, 72, 68, 82], ihdr);
    out := out + c;
    var z := ZlibStored(raw);
    c := PngChunk([73, 68, 65, 84], z);
    out := out + c;
    c := PngChunk([73, 69, 78, 68], []);
    out := out + c;
  }

  datatype Image = Image(width: nat, height: nat, raw: Octets)

  /** The ASCII letters of a chunk type. */
  predicate Spells(kind: Octets, name: string) {
    |kind| == |name| && forall i :: 0 <= i < |kind| ==> Num(kind[i]) == name[i] as nat
  }

  /** Decimal values of the eight bytes every file starts with (section 5.2). */
  predicate IsSigned(s: Octets) {
    && |s| >= 8 && Num(s[0]) == 137 && Num(s[1]) == 80 && Num(s[2]) == 78 && Num(s[3]) == 71
    && Num(s[4]) == 13 && Num(s[5]) == 10 && Num(s[6]) == 26 && Num(s[7]) == 10
  }

  /** Thirteen bytes: the sizes, bit depth 8, colour type 6 (truecolour with alpha), the
      deflate method, the adaptive filters, no interlacing (section 11.2.2). */
  predicate IsHeader(d: Octets)
    requires |d| == 13
  {
    Num(d[8]) == 8 && Num(d[9]) == 6 && Num(d[10]) == 0 && Num(d[11]) == 0 && Num(d[12]) == 0
  }

  /** The data of consecutive IDAT chunks, up to an empty IEND chunk that ends the file. */
  function ReadData(s: Octets): Option<Octets>
    decreases |s|
  {
    match ReadChunk(s)
    case None => None
    case Some(p) =>
      if Spells(p.kind, "IEND") then if p.data == [] && p.rest == [] then Some([]) else None
      else if !Spells(p.kind, "IDAT") then None
      else match ReadData(p.rest)
        case None => None
        case Some(more) => Some(p.data + more)
  }

  function ReadImage(s: Octets): Option<Image> {
    if !IsSigned(s) then None
    else match ReadChunk(s[8..])
      case None => None
      case Some(p) =>
        if !Spells(p.kind, "IHDR") || |p.data| != 13 || !IsHeader(p.data) then None
        else match ReadData(p.rest)
          case None => None
          case Some(z) =>
            match Unzlib(z)
            case None => None
            case Some(raw) => Some(Image(Read32(p.data[..4]), Read32(p.data[4..8]), raw))
  }

  lemma KindsSpelled()
    ensures Spells(Ihdr(), "IHDR") && Spells(Idat(), "IDAT") && Spells(Iend(), "IEND")
    ensures !Spells(Idat(), "IEND")
  {
    assert Num(Idat()[1]) != "IEND"[1] as nat;
  }

  lemma EndReads(s: Octets)
    requires ReadChunk(s) == Some(Piece(Iend(), [], []))
    ensures ReadData(s) == Some([])
  {
    KindsSpelled();
  }

  lemma DataReads(s: Octets, kind: Octets, z: Octets, rest: Octets)
    requires ReadChunk(s) == Some(Piece(kind, z, rest)) && ReadData(rest) == Some([])
    requires Spells(kind, "IDAT") && !Spells(kind, "IEND")
    ensures ReadData(s) == Some(z)
  {
    assert z + [] == z;
  }

  lemma HeaderReadsBack(w: nat, h: nat)
    requires w < 0x1_0000_0000 && h < 0x1_0000_0000
    ensures var d := Header(w, h); |d| == 13 && IsHeader(d) && Read32(d[..4]) == w && Read32(d[4..8]) == h
  {
    Read32Be32(w);
    Read32Be32(h);
    assert Header(w, h)[..4] == Be32(w) && Header(w, h)[4..8] == Be32(h) && Header(w, h)[8..] == Format();
    FormatRead(Header(w, h));
  }

  lemma FormatRead(d: Octets)
    requires |d| == 13 && d[8..] == Format()
    ensures IsHeader(d)
  {
    assert d[8] == d[8..][0] && d[9] == d[8..][1] && d[10] == d[8..][2] && d[11] == d[8..][3] && d[12] == d[8..][4];
  }

  lemma SignatureRead(s: Octets)
    requires |s| >= 8 && s[..8] == Signature()
    ensures IsSigned(s)
  {
    forall k | 0 <= k < 8 ensures s[k] == Signature()[k] { assert s[k] == s[..8][k]; }
  }

  lemma ImageReads(s: Octets, head: Octets, rest: Octets, z: Octets, raw: Octets, w: nat, h: nat)
    requires IsSigned(s) && ReadChunk(s[8..]) == Some(Piece(Ihdr(), head, rest))
    requires |head| == 13 && IsHeader(head) && Read32(head[..4]) == w && Read32(head[4..8]) == h
    requires ReadData(rest) == Some(z) && Unzlib(z) == Some(raw)
    ensures ReadImage(s) == Some(Image(w, h, raw))
  {
    KindsSpelled();
  }

  /** The zlib stream for `n` bytes fits the 32-bit length field. */
  predicate Encodable(n: nat) { n + 5 * BlockCount(n) + 6 < 0x1_0000_0000 }

  /** Every image whose zlib stream fits the length field reads back exactly. */
  lemma EncodedReadsBack(w: nat, h: nat, raw: Octets)
    requires w < 0x1_0000_0000 && h < 0x1_0000_0000
    requires Encodable(|raw|)
    ensures ReadImage(File(w, h, raw)) == Some(Image(w, h, raw))
  {
    var data := Chunk(Idat(), Zlib(raw)) + Chunk(Iend(), []);
    DataReadsBack(raw);
    UnzlibZlib(raw);
    HeaderReadsBack(w, h);
    ChunkReadsBack(Ihdr(), Header(w, h), data);
    FileParts(Signature(), Chunk(Ihdr(), Header(w, h)), Chunk(Idat(), Zlib(raw)), Chunk(Iend(), []));
    SignatureRead(File(w, h, raw));
    ImageReads(File(w, h, raw), Header(w, h), data, Zlib(raw), raw, w, h);
  }

  lemma DataReadsBack(raw: Octets)
    requires Encodable(|raw|)
    ensures ReadData(Chunk(Idat(), Zlib(raw)) + Chunk(Iend(), [])) == Some(Zlib(raw))
  {
    EndReadsBack(Chunk(Iend(), []));
    BlocksSize(raw);
    ChunkReadsBack(Idat(), Zlib(raw), Chunk(Iend(), []));
    KindsSpelled();
    DataReads(Chunk(Idat(), Zlib(raw)) + Chunk(Iend(), []), Idat(), Zlib(raw), Chunk(Iend(), []));
  }

  lemma EndReadsBack(end: Octets)
    requires end == Chunk(Iend(), [])
    ensures ReadData(end) == Some([])
  {
    ChunkReadsBack(Iend(), [], []);
    assert end + [] == end;
    EndReads(end);
  }

  lemma FileParts(sig: Octets, a: Octets, b: Octets, c: Octets)
    requires |sig| == 8
    ensures var s := sig + a + b + c; |s| >= 8 && s[..8] == sig && s[8..] == a + (b + c)
  {
  }
}
