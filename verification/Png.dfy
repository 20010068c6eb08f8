/** The icon encoder: numbers as bytes, stored deflate blocks, chunks, the image file. */
module Png {
  import opened Prelude
  import opened Checksums
  import opened Adler

  // ----- numbers as bytes ---------------------------------------------------------------

  lemma Successor(b: Octet)
    ensures Num(b) < 255 ==> Num(b + 1) == Num(b) + 1
  {
  }

  /** The byte of value `n`, the source's cast to `u8`. */
  function ToOctet(n: nat): (b: Octet)
    requires n < 256
    ensures Num(b) == n
  {
    if n == 0 then 0
    else
      var p := ToOctet(n - 1);
      Successor(p);
      p + 1
  }

  function Be32(n: nat): (s: Octets)
    requires n < 0x1_0000_0000
    ensures |s| == 4
  {
    [ToOctet(n / 0x100 / 0x100 / 0x100), ToOctet(n / 0x100 / 0x100 % 0x100), ToOctet(n / 0x100 % 0x100),
      ToOctet(n % 0x100)]
  }

  function Le16(n: nat): (s: Octets)
    requires n < 0x1_0000
    ensures |s| == 2
  {
    [ToOctet(n % 0x100), ToOctet(n / 0x100)]
  }

  function BeWord(c: bv32): (s: Octets)
    ensures |s| == 4
  {
    [((c >> 24) & 0xff) as bv8, ((c >> 16) & 0xff) as bv8, ((c >> 8) & 0xff) as bv8, (c & 0xff) as bv8]
  }

  function Read32(s: Octets): nat
    requires |s| == 4
  {
    ((Num(s[0]) * 0x100 + Num(s[1])) * 0x100 + Num(s[2])) * 0x100 + Num(s[3])
  }

  function ReadLe16(s: Octets): nat
    requires |s| == 2
  {
    Num(s[0]) + Num(s[1]) * 0x100
  }

  lemma Read32Be32(n: nat)
    requires n < 0x1_0000_0000
    ensures Read32(Be32(n)) == n
  {
  }

  lemma ReadLe16Le16(n: nat)
    requires n < 0x1_0000
    ensures ReadLe16(Le16(n)) == n
  {
  }

  /** What the source writes as `!(len as u16)`: both bytes complemented. */
  lemma Complemented(n: nat)
    requires n < 0x1_0000
    ensures Le16(0xffff - n) == [!Le16(n)[0], !Le16(n)[1]]
  {
    var m := 0xffff - n;
    assert m % 0x100 == 0xff - n % 0x100 && m / 0x100 == 0xff - n / 0x100;
    ComplementOctet(Le16(n)[0], Le16(m)[0]);
    ComplementOctet(Le16(n)[1], Le16(m)[1]);
  }

  lemma ComplementOctet(b: Octet, d: Octet)
    requires Num(d) == 0xff - Num(b)
    ensures d == !b
  {
    assert (!b) as nat == 255 - (b as nat);
  }

  // ----- stored blocks (section 3.2.4 of RFC 1951) ------------------------------------------

  const MAX_STORED: nat := 65535

  function Flag(last: bool): Octet { if last then 1 else 0 }

  function Block(last: bool, chunk: Octets): Octets
    requires |chunk| <= MAX_STORED
  {
    [Flag(last)] + Le16(|chunk|) + Le16(0xffff - |chunk|) + chunk
  }

  /** Blocks of 65535 bytes, the remainder in the final one. */
  function Blocks(data: Octets): Octets
    decreases |data|
  {
    if |data| <= MAX_STORED then Block(true, data) else Block(false, data[..MAX_STORED]) + Blocks(data[MAX_STORED..])
  }

  function Zlib(data: Octets): Octets { [0x78, 0x01] + Blocks(data) + Be32(Adler32Of(data)) }

  /** What is still to come after the blocks for the first `at` bytes. */
  function BlocksFrom(data: Octets, at: nat): Octets {
    if at < |data| || (data == [] && at == 0) then Blocks(data[at..]) else []
  }

  lemma NextBlock(data: Octets, at: nat)
    requires at < |data|
    ensures var end := if at + MAX_STORED <= |data| then at + MAX_STORED else |data|;
      BlocksFrom(data, at) == Block(at + MAX_STORED >= |data|, data[at..end]) + BlocksFrom(data, at + MAX_STORED)
  {
    var d := data[at..];
    if |d| > MAX_STORED {
      assert d[MAX_STORED..] == data[at + MAX_STORED..] && d[..MAX_STORED] == data[at..at + MAX_STORED];
    } else {
      assert data[at..|data|] == d;
    }
  }

  lemma FromStart(data: Octets, at: nat)
    requires at == 0
    ensures BlocksFrom(data, at) == Blocks(data)
  {
    assert data[at..] == data;
  }

  lemma PutsNext(data: Octets, at: nat, chunk: Octets, last: bool, out: Octets)
    requires at < |data| && last == (at + MAX_STORED >= |data|)
    requires chunk == data[at..if at + MAX_STORED <= |data| then at + MAX_STORED else |data|]
    ensures out + Block(last, chunk) + BlocksFrom(data, at + MAX_STORED) == out + BlocksFrom(data, at)
  {
    NextBlock(data, at);
    Assoc(out, Block(last, chunk), BlocksFrom(data, at + MAX_STORED));
  }

  lemma NoneLeft(data: Octets, at: nat, out: Octets)
    requires at >= |data| && (data == [] ==> at == 0)
    ensures out + BlocksFrom(data, at) == if data == [] then out + Block(true, []) else out
  {
  }

  method ZlibStored(data: Octets) returns (out: Octets)
    ensures out == Zlib(data)
  {
    out := [0x78, 0x01];
    out := PutBlocks(out, data);
    var c := Adler32(data);
    out := out + Be32(c);
  }

  /** The loop over the chunks, and the single empty block when there are none. */
  method PutBlocks(head: Octets, data: Octets) returns (out: Octets)
    ensures out == head + Blocks(data)
  {
    out := head;
    var at := 0;
    ghost var goal := head + Blocks(data);
    FromStart(data, 0);
    while at < |data|
      invariant 0 <= at && (data == [] ==> at == 0)
      invariant out + BlocksFrom(data, at) == goal
      decreases |data| - at
    {
      var chunk := data[at..if at + 65535 <= |data| then at + 65535 else |data|];
      var last := at + 65535 >= |data|;
      PutsNext(data, at, chunk, last, out);
      out := PutBlock(out, last, chunk);
      at := at + 65535;
    }
    NoneLeft(data, at, out);
    if data == [] {
      EmptyBlock();
      out := out + [1, 0, 0, 0xff, 0xff];
    }
  }

  /** One turn of the loop over the chunks. */
  method PutBlock(out: Octets, last: bool, chunk: Octets) returns (r: Octets)
    requires |chunk| <= MAX_STORED
    ensures r == out + Block(last, chunk)
  {
    r := out + [if last then 1 else 0];
    r := r + Le16(|chunk|);
    r := r + Le16(0xffff - |chunk|);
    r := r + chunk;
  }

  lemma EmptyBlock()
    ensures Block(true, []) == [1, 0, 0, 0xff, 0xff]
  {
    Complemented(0);
    ComplementOctet(0, 0xff);
    assert Le16(0) == [0, 0];
  }

  datatype Inflated = Inflated(data: Octets, rest: Octets)

  /** Type bits 00, and a length followed by its complement. */
  predicate IsStored(s: Octets)
    requires |s| >= 5
  {
    (s[0] >> 1) & 3 == 0 && s[3] == !s[1] && s[4] == !s[2]
  }

  predicate IsFinal(b: Octet) { b & 1 != 0 }

  /** A reader of stored blocks: it stops after the first block marked final and hands
      back what follows it. Blocks of other types are refused. */
  function Inflate(s: Octets): Option<Inflated>
    decreases |s|
  {
    if |s| < 5 || !IsStored(s) || |s| < 5 + ReadLe16(s[1..3]) then None
    else
      var n := ReadLe16(s[1..3]);
      if IsFinal(s[0]) then Some(Inflated(s[5..5 + n], s[5 + n..]))
      else match Inflate(s[5 + n..])
        case None => None
        case Some(more) => Some(Inflated(s[5..5 + n] + more.data, more.rest))
  }

  /** Method 8, a window of at most 32K, the header check, no preset dictionary. */
  predicate HeaderOk(cmf: Octet, flg: Octet) {
    cmf & 0x0f == 8 && cmf >> 4 <= 7 && (Num(cmf) * 256 + Num(flg)) % 31 == 0 && flg & 0x20 == 0
  }

  /** A reader of the zlib wrapper (section 2.2 of RFC 1950): the header, the data, then
      exactly the checksum of what was read. */
  function Unzlib(s: Octets): Option<Octets>
  {
    if |s| < 2 || !HeaderOk(s[0], s[1]) then None
    else match Inflate(s[2..])
      case None => None
      case Some(i) => if |i.rest| == 4 && IsCheck(i.data, Read32(i.rest)) then Some(i.data) else None
  }

  /** `s` opens with a stored block holding `chunk`, and `rest` follows it. */
  predicate OpensWith(s: Octets, last: bool, chunk: Octets, rest: Octets) {
    && |s| == 5 + |chunk| + |rest|
    && IsStored(s) && IsFinal(s[0]) == last && ReadLe16(s[1..3]) == |chunk|
    && s[5..5 + |chunk|] == chunk && s[5 + |chunk|..] == rest
  }

  /** The two length fields of a block of `n` bytes. */
  predicate IsLength(n: nat, len: Octets, nlen: Octets) {
    |len| == 2 && ReadLe16(len) == n && nlen == [!len[0], !len[1]]
  }

  lemma LengthBytes(n: nat)
    requires n < 0x1_0000
    ensures IsLength(n, Le16(n), Le16(0xffff - n))
  {
    Complemented(n);
    ReadLe16Le16(n);
  }

  lemma ReadBlock(last: bool, chunk: Octets, rest: Octets)
    requires |chunk| <= MAX_STORED
    ensures OpensWith(Block(last, chunk) + rest, last, chunk, rest)
  {
    LengthBytes(|chunk|);
    Opens(last, Block(last, chunk), Flag(last), Le16(|chunk|), Le16(0xffff - |chunk|), chunk, rest);
  }

  lemma Opens(last: bool, block: Octets, flag: Octet, len: Octets, nlen: Octets, chunk: Octets, rest: Octets)
    requires IsLength(|chunk|, len, nlen) && flag == Flag(last) && block == [flag] + len + nlen + chunk
    ensures OpensWith(block + rest, last, chunk, rest)
  {
    FlagBits(last);
    BlockBytes(flag, len, nlen, chunk, rest);
    HeaderStored(block + rest);
  }

  lemma BlockBytes(flag: Octet, len: Octets, nlen: Octets, chunk: Octets, rest: Octets)
    requires |len| == |nlen| == 2
    ensures var s := [flag] + len + nlen + chunk + rest;
      && |s| == 5 + |chunk| + |rest| && s[0] == flag && s[1] == len[0] && s[2] == len[1]
      && s[3] == nlen[0] && s[4] == nlen[1]
      && s[1..3] == len && s[5..5 + |chunk|] == chunk && s[5 + |chunk|..] == rest
  {
    var head := [flag] + len + nlen;
    assert head[1..3] == len && |head| == 5;
    assert (head + chunk + rest)[1..3] == head[1..3];
  }

  lemma FlagBits(last: bool)
    ensures (Flag(last) >> 1) & 3 == 0 && IsFinal(Flag(last)) == last
  {
  }

  lemma HeaderStored(s: Octets)
    requires |s| >= 5 && (s[0] >> 1) & 3 == 0 && s[3] == !s[1] && s[4] == !s[2]
    ensures IsStored(s)
  {
  }

  lemma InflateFinal(s: Octets, chunk: Octets, rest: Octets)
    requires OpensWith(s, true, chunk, rest)
    ensures Inflate(s) == Some(Inflated(chunk, rest))
  {
  }

  lemma InflateMore(s: Octets, chunk: Octets, rest: Octets, data: Octets, end: Octets)
    requires OpensWith(s, false, chunk, rest) && Inflate(rest) == Some(Inflated(data, end))
    ensures Inflate(s) == Some(Inflated(chunk + data, end))
  {
  }

  /** The reader recovers the data, and what it hands back starts right after the blocks:
      no block before the last one is marked final. */
  lemma {:induction false} InflateBlocks(data: Octets, rest: Octets)
    ensures Inflate(Blocks(data) + rest) == Some(Inflated(data, rest))
    decreases |data|
  {
    if |data| <= MAX_STORED {
      ReadBlock(true, data, rest);
      InflateFinal(Blocks(data) + rest, data, rest);
    } else {
      var chunk, more := data[..MAX_STORED], data[MAX_STORED..];
      InflateBlocks(more, rest);
      FirstBlock(data, chunk, more, rest);
      InflateFrom(Blocks(data) + rest, chunk, Blocks(more) + rest, more, rest, data);
    }
  }

  lemma InflateFrom(s: Octets, chunk: Octets, t: Octets, more: Octets, end: Octets, data: Octets)
    requires |chunk| <= MAX_STORED && s == Block(false, chunk) + t && Inflate(t) == Some(Inflated(more, end))
    requires data == chunk + more
    ensures Inflate(s) == Some(Inflated(data, end))
  {
    ReadBlock(false, chunk, t);
    InflateMore(s, chunk, t, more, end);
  }

  lemma FirstBlock(data: Octets, chunk: Octets, more: Octets, rest: Octets)
    requires |data| > MAX_STORED && chunk == data[..MAX_STORED] && more == data[MAX_STORED..]
    ensures Blocks(data) + rest == Block(false, chunk) + (Blocks(more) + rest)
  {
    Assoc(Block(false, chunk), Blocks(more), rest);
  }

  /** The zlib stream reads back as the data, for data of every length. */
  lemma UnzlibZlib(data: Octets)
    ensures Unzlib(Zlib(data)) == Some(data)
  {
    var check := Be32(Adler32Of(data));
    InflateBlocks(data, check);
    Read32Be32(Adler32Of(data));
    AdlerIsCheck(data);
    HeaderReads(0x78, 0x01);
    ZlibParts(0x78, 0x01, Blocks(data), check);
    UnzlibFrom(Zlib(data), 0x78, 0x01, check, data);
  }

  lemma ZlibParts(cmf: Octet, flg: Octet, blocks: Octets, check: Octets)
    ensures var s := [cmf, flg] + blocks + check; |s| >= 2 && s[0] == cmf && s[1] == flg && s[2..] == blocks + check
  {
  }

  lemma UnzlibFrom(s: Octets, cmf: Octet, flg: Octet, check: Octets, data: Octets)
    requires |s| >= 2 && s[0] == cmf && s[1] == flg && HeaderOk(cmf, flg) && |check| == 4
    requires IsCheck(data, Read32(check))
    requires Inflate(s[2..]) == Some(Inflated(data, check))
    ensures Unzlib(s) == Some(data)
  {
  }

  lemma HeaderReads(cmf: Octet, flg: Octet)
    requires cmf == 0x78 && flg == 0x01
    ensures HeaderOk(cmf, flg)
  {
  }

  /** Size of the stream: six bytes around it and five a block. */
  function BlockCount(n: nat): nat { if n <= MAX_STORED then 1 else 1 + BlockCount(n - MAX_STORED) }

  /** A block for every 65535 bytes begun, and one for no data. */
  lemma {:induction false} BlockCountIs(n: nat)
    ensures BlockCount(n) == if n == 0 then 1 else (n + 65534) / 65535
    decreases n
  {
    if n > MAX_STORED {
      BlockCountIs(n - MAX_STORED);
      assert n + 65534 == (n - 65535 + 65534) + 65535;
    }
  }

  lemma {:induction false} BlocksSize(data: Octets)
    ensures |Blocks(data)| == |data| + 5 * BlockCount(|data|)
    decreases |data|
  {
    if |data| <= MAX_STORED {
      BlockSize(true, data);
    } else {
      BlocksSize(data[MAX_STORED..]);
      BlockSize(false, data[..MAX_STORED]);
    }
  }

  lemma BlockSize(last: bool, chunk: Octets)
    requires |chunk| <= MAX_STORED
    ensures |Block(last, chunk)| == 5 + |chunk|
  {
  }
}
