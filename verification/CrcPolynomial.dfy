/** CRC-32 as annex D of the PNG specification defines it: the remainder of a division of
    polynomials over bits. The register of the program computes it. */
module CrcPolynomial {
  import opened Checksums

  /** A polynomial over bits: its coefficients from the highest power down. */
  type Poly = seq<bool>

  /** x^32 + x^26 + x^23 + x^22 + x^16 + x^12 + x^11 + x^10 + x^8 + x^7 + x^5 + x^4 + x^2 + x + 1 */
  predicate HasPower(n: nat) { n in {32, 26, 23, 22, 16, 12, 11, 10, 8, 7, 5, 4, 2, 1, 0} }

  function Generator(): (g: Poly)
    ensures |g| == 33 && g[0]
  {
    seq(33, i requires 0 <= i < 33 => HasPower(32 - i))
  }

  /** `p` with `q` added to its highest powers. */
  function Plus(p: Poly, q: Poly): (s: Poly)
    requires |q| <= |p|
    ensures |s| == |p|
  {
    seq(|p|, i requires 0 <= i < |p| => if i < |q| then p[i] != q[i] else p[i])
  }

  /** What is left of `p` after dividing it by `g`, the long way: while there is a power to
      divide, add the divisor there if it occurs, and go on below it. */
  function Remainder(p: Poly, g: Poly): (r: Poly)
    requires g != []
    ensures |r| == if |p| < |g| then |p| else |g| - 1
    decreases |p|
  {
    if |p| < |g| then p else Remainder(if p[0] then Plus(p, g)[1..] else p[1..], g)
  }

  function Zeros(n: nat): Poly { seq(n, _ => false) }

  function Ones(n: nat): Poly { seq(n, _ => true) }

  function Inverted(p: Poly): Poly { seq(|p|, i requires 0 <= i < |p| => !p[i]) }

  /** A byte is sent from its least significant bit on. */
  function OctetBits(b: Octet): (p: Poly)
    ensures |p| == 8
  {
    [b & 1 != 0, b & 2 != 0, b & 4 != 0, b & 8 != 0, b & 16 != 0, b & 32 != 0, b & 64 != 0, b & 128 != 0]
  }

  function Bits(data: Octets): (p: Poly)
    ensures |p| == 8 * |data|
    decreases |data|
  {
    if data == [] then [] else OctetBits(data[0]) + Bits(data[1..])
  }

  /** The checksum, from the coefficient of x^31 down: the data times x^32, with the first 32
      bits inverted, divided by the generator; the remainder inverted. */
  function CrcBits(data: Octets): (p: Poly)
    ensures |p| == 32
  {
    Inverted(Remainder(Plus(Bits(data) + Zeros(32), Ones(32)), Generator()))
  }

  // ----- long division, one register step at a time --------------------------------------------

  /** What becomes of the highest 32 coefficients when the division goes down by one power. */
  function Down(b: Poly, g: Poly): (r: Poly)
    requires |b| > 0 && |g| == |b| + 1
    ensures |r| == |b|
  {
    if b[0] then Plus(b[1..] + [false], g[1..]) else b[1..] + [false]
  }

  lemma DivideStep(b: Poly, rest: Poly, g: Poly)
    requires |b| > 0 && |g| == |b| + 1 && g[0] && |rest| >= |b|
    ensures Remainder(Plus([false] + rest, b), g) == Remainder(Plus(rest, Down(b, g)), g)
  {
    Lowered([false] + rest, b, rest, g);
  }

  lemma Lowered(p: Poly, b: Poly, rest: Poly, g: Poly)
    requires |b| > 0 && |g| == |b| + 1 && g[0] && |rest| >= |b| && |p| == |rest| + 1 && !p[0] && p[1..] == rest
    ensures Plus(p, b)[0] == b[0]
    ensures (if b[0] then Plus(Plus(p, b), g)[1..] else Plus(p, b)[1..]) == Plus(rest, Down(b, g))
  {
  }

  // ----- the bits of a register ------------------------------------------------------------------

  /** How the lowest bit of a register is read and the others move down. */
  datatype Reg<!R> = Reg(low: R -> bool, half: R -> R)

  /** The lowest `n` bits, lowest first. */
  function LowBits<R>(o: Reg<R>, c: R, n: nat): (p: Poly)
    ensures |p| == n
    decreases n
  {
    if n == 0 then [] else [o.low(c)] + LowBits(o, o.half(c), n - 1)
  }

  function HalfBy<R>(o: Reg<R>, c: R, n: nat): R
    decreases n
  {
    if n == 0 then c else HalfBy(o, o.half(c), n - 1)
  }

  lemma {:induction false} LowBitsSplit<R>(o: Reg<R>, c: R, m: nat, n: nat)
    ensures LowBits(o, c, m + n) == LowBits(o, c, m) + LowBits(o, HalfBy(o, c, m), n)
    decreases m
  {
    if m > 0 { LowBitsSplit(o, o.half(c), m - 1, n); }
  }

  predicate MixesAt<R(==)>(o: Reg<R>, mix: (R, R) -> R, a: R, b: R) {
    o.low(mix(a, b)) == (o.low(a) != o.low(b)) && o.half(mix(a, b)) == mix(o.half(a), o.half(b))
  }

  ghost predicate Mixes<R(!new)>(o: Reg<R>, mix: (R, R) -> R) { forall a, b :: MixesAt(o, mix, a, b) }

  lemma {:induction false} LowBitsMix<R(!new)>(o: Reg<R>, mix: (R, R) -> R, a: R, b: R, n: nat)
    requires Mixes(o, mix)
    ensures LowBits(o, mix(a, b), n) == Plus(LowBits(o, a, n), LowBits(o, b, n))
    decreases n
  {
    if n > 0 {
      assert MixesAt(o, mix, a, b);
      LowBitsMix(o, mix, o.half(a), o.half(b), n - 1);
    }
  }

  lemma EightLow<R>(o: Reg<R>, c: R, c1: R, c2: R, c3: R, c4: R, c5: R, c6: R, c7: R)
    requires c1 == o.half(c) && c2 == o.half(c1) && c3 == o.half(c2) && c4 == o.half(c3) && c5 == o.half(c4)
    requires c6 == o.half(c5) && c7 == o.half(c6)
    ensures LowBits(o, c, 8) ==
      [o.low(c), o.low(c1), o.low(c2), o.low(c3), o.low(c4), o.low(c5), o.low(c6), o.low(c7)]
    ensures HalfBy(o, c, 8) == o.half(c7)
  {
  }

  predicate LowBit(c: bv32) { c & 1 != 0 }

  function Half(c: bv32): bv32 { c >> 1 }

  function Word32(): Reg<bv32> { Reg(LowBit, Half) }

  function LowOctet(c: bv32): Octet { (c & 0xff) as bv8 }

  lemma OctetOf(c: bv32, b: Octet)
    requires b == LowOctet(c)
    ensures (b & 1 != 0) == (c & 1 != 0) && (b & 2 != 0) == ((c >> 1) & 1 != 0)
    ensures (b & 4 != 0) == ((c >> 2) & 1 != 0) && (b & 8 != 0) == ((c >> 3) & 1 != 0)
    ensures (b & 16 != 0) == ((c >> 4) & 1 != 0) && (b & 32 != 0) == ((c >> 5) & 1 != 0)
    ensures (b & 64 != 0) == ((c >> 6) & 1 != 0) && (b & 128 != 0) == ((c >> 7) & 1 != 0)
  {
  }

  lemma Shifts(c: bv32)
    ensures (c >> 1) >> 1 == c >> 2 && (c >> 2) >> 1 == c >> 3 && (c >> 3) >> 1 == c >> 4 && (c >> 4) >> 1 == c >> 5
    ensures (c >> 5) >> 1 == c >> 6 && (c >> 6) >> 1 == c >> 7 && (c >> 7) >> 1 == c >> 8
  {
  }

  lemma EightBits(c: bv32)
    ensures LowBits(Word32(), c, 8) == OctetBits(LowOctet(c)) && HalfBy(Word32(), c, 8) == c >> 8
  {
    Shifts(c);
    EightLow(Word32(), c, c >> 1, c >> 2, c >> 3, c >> 4, c >> 5, c >> 6, c >> 7);
    OctetOf(c, LowOctet(c));
  }

  /** The lowest bits are `p`, and `rest` is left above them. */
  ghost predicate OpensWith<R>(o: Reg<R>, c: R, p: Poly, rest: R) {
    LowBits(o, c, |p|) == p && HalfBy(o, c, |p|) == rest
  }

  lemma OpensJoin<R>(o: Reg<R>, c: R, p: Poly, c1: R, q: Poly, c2: R)
    requires OpensWith(o, c, p, c1) && OpensWith(o, c1, q, c2)
    ensures OpensWith(o, c, p + q, c2)
  {
    LowBitsSplit(o, c, |p|, |q|);
    HalfByTwice(o, c, |p|, |q|);
  }

  lemma {:induction false} HalfByTwice<R>(o: Reg<R>, c: R, m: nat, n: nat)
    ensures HalfBy(o, HalfBy(o, c, m), n) == HalfBy(o, c, m + n)
    decreases m
  {
    if m > 0 { HalfByTwice(o, o.half(c), m - 1, n); }
  }

  /** `b` is the lowest byte of `c`, and `rest` what is above it. */
  predicate LowByte(c: bv32, b: Octet, rest: bv32) { LowOctet(c) == b && c >> 8 == rest }

  lemma OctetOpens(c: bv32, b: Octet, rest: bv32)
    requires LowByte(c, b, rest)
    ensures OpensWith(Word32(), c, OctetBits(b), rest)
  {
    EightBits(c);
  }

  lemma BitsCons(b: Octet, rest: Octets)
    ensures Bits([b] + rest) == OctetBits(b) + Bits(rest)
  {
    assert ([b] + rest)[1..] == rest;
  }

  function FourBits(b0: Octet, b1: Octet, b2: Octet, b3: Octet): (p: Poly)
    ensures |p| == 32
  {
    OctetBits(b0) + OctetBits(b1) + OctetBits(b2) + OctetBits(b3)
  }

  lemma JoinFour<R>(o: Reg<R>, c: R, c1: R, c2: R, c3: R, c4: R, p0: Poly, p1: Poly, p2: Poly, p3: Poly)
    requires OpensWith(o, c, p0, c1) && OpensWith(o, c1, p1, c2) && OpensWith(o, c2, p2, c3)
    requires OpensWith(o, c3, p3, c4)
    ensures OpensWith(o, c, p0 + p1 + p2 + p3, c4)
  {
    OpensJoin(o, c, p0, c1, p1, c2);
    OpensJoin(o, c, p0 + p1, c2, p2, c3);
    OpensJoin(o, c, p0 + p1 + p2, c3, p3, c4);
  }

  /** A register's bits are those of its bytes, the lowest byte first. */
  lemma WordBits(c: bv32, c1: bv32, c2: bv32, c3: bv32, b0: Octet, b1: Octet, b2: Octet, b3: Octet, n: nat)
    requires LowByte(c, b0, c1) && LowByte(c1, b1, c2) && LowByte(c2, b2, c3) && LowByte(c3, b3, 0)
    requires n == |FourBits(b0, b1, b2, b3)|
    ensures LowBits(Word32(), c, n) == FourBits(b0, b1, b2, b3)
  {
    OctetOpens(c, b0, c1);
    OctetOpens(c1, b1, c2);
    OctetOpens(c2, b2, c3);
    OctetOpens(c3, b3, 0);
    JoinFour(Word32(), c, c1, c2, c3, 0, OctetBits(b0), OctetBits(b1), OctetBits(b2), OctetBits(b3));
  }

  lemma PolyBits(n: nat)
    requires n == |Generator()[1..]|
    ensures LowBits(Word32(), POLY, n) == Generator()[1..]
  {
    WordBits(POLY, 0xedb883, 0xedb8, 0xed, 0x20, 0x83, 0xb8, 0xed, n);
    GeneratorBits();
  }

  lemma GeneratorBits()
    ensures Generator()[1..] == FourBits(0x20, 0x83, 0xb8, 0xed)
  {
  }

  lemma OnesBits(n: nat)
    requires n == 32
    ensures LowBits(Word32(), 0xffffffff, n) == Ones(n)
  {
    WordBits(0xffffffff, 0xffffff, 0xffff, 0xff, 0xff, 0xff, 0xff, 0xff, n);
  }

  lemma WordMixes()
    ensures Mixes(Word32(), Xor)
  {
    forall a, b ensures MixesAt(Word32(), Xor, a, b) {
      MixedLow(a, b);
      MixedHalf(a, b);
    }
  }

  lemma MixedLow(a: bv32, b: bv32)
    ensures LowBit(Xor(a, b)) == (LowBit(a) != LowBit(b))
  {
    assert (a ^ b) & 1 == (a & 1) ^ (b & 1);
    OneBit(a & 1, b & 1);
  }

  lemma OneBit(a: bv32, b: bv32)
    requires a <= 1 && b <= 1
    ensures (a ^ b != 0) == ((a != 0) != (b != 0))
  {
  }

  lemma MixedHalf(a: bv32, b: bv32)
    ensures Half(Xor(a, b)) == Xor(Half(a), Half(b))
  {
  }

  lemma HalfBits<R>(o: Reg<R>, c: R, zero: R, n: nat)
    requires n > 0 && HalfBy(o, c, n) == zero && !o.low(zero)
    ensures LowBits(o, o.half(c), n) == LowBits(o, c, n)[1..] + [false]
  {
    LowBitsSplit(o, c, n, 1);
    assert LowBits(o, c, n + 1)[1..] == LowBits(o, o.half(c), n);
    assert LowBits(o, zero, 1) == [false];
  }

  lemma AllHalved(c: bv32, n: nat)
    requires n == 32
    ensures HalfBy(Word32(), c, n) == 0
  {
    var c1, c2, c3 := Above(c);
    FourOctets(c, c1, c2, c3, n);
  }

  lemma FourOctets(c: bv32, c1: bv32, c2: bv32, c3: bv32, n: nat)
    requires c >> 8 == c1 && c1 >> 8 == c2 && c2 >> 8 == c3 && c3 >> 8 == 0 && n == 32
    ensures HalfBy(Word32(), c, n) == 0
  {
    var m := 8;
    EightBits(c);
    EightBits(c1);
    EightBits(c2);
    EightBits(c3);
    HalfByTwice(Word32(), c, m, m);
    HalfByTwice(Word32(), c, m + m, m);
    HalfByTwice(Word32(), c, m + m + m, m);
  }

  lemma Above(c: bv32) returns (c1: bv32, c2: bv32, c3: bv32)
    ensures c >> 8 == c1 && c1 >> 8 == c2 && c2 >> 8 == c3 && c3 >> 8 == 0
  {
    c1 := c >> 8;
    c2 := c1 >> 8;
    c3 := c2 >> 8;
    Smaller(c);
    Smaller(c1);
    Smaller(c2);
    Smaller(c3);
  }

  lemma Smaller(c: bv32)
    ensures c >> 8 < 0x100_0000 && (c < 0x100_0000 ==> c >> 8 < 0x1_0000)
    ensures (c < 0x1_0000 ==> c >> 8 < 0x100) && (c < 0x100 ==> c >> 8 == 0)
  {
  }

  // ----- the register is the remainder -----------------------------------------------------------

  /** A register's coefficients, from x^31 down. */
  function Coefficients(n: nat): bv32 -> Poly { (c: bv32) => LowBits(Word32(), c, n) }

  /** One shift takes the division down by one power. */
  lemma ShiftGoesDown(c: bv32, n: nat)
    requires n == 32
    ensures LowBits(Word32(), Shift(c), n) == Down(LowBits(Word32(), c, n), Generator())
  {
    AllHalved(c, n);
    HalfBits(Word32(), c, 0, n);
    WordMixes();
    LowBitsMix(Word32(), Xor, Half(c), POLY, n);
    PolyBits(n);
    ShiftIs(c);
    assert LowBits(Word32(), c, n)[0] == LowBit(c);
  }

  lemma ShiftIs(c: bv32)
    ensures Shift(c) == if LowBit(c) then Xor(Half(c), POLY) else Half(c)
  {
  }

  ghost predicate GoesDown(bits: bv32 -> Poly, g: Poly) {
    |g| > 1 && g[0] && forall c :: |bits(c)| + 1 == |g| && bits(Shift(c)) == Down(bits(c), g)
  }

  lemma {:induction false} DivideZeros(bits: bv32 -> Poly, g: Poly, c: bv32, k: nat, rest: Poly)
    requires GoesDown(bits, g) && |rest| + 1 >= |g|
    ensures Remainder(Plus(Zeros(k) + rest, bits(c)), g) == Remainder(Plus(rest, bits(Times(c, k))), g)
    decreases k
  {
    if k == 0 {
      assert Zeros(k) + rest == rest;
    } else {
      assert Zeros(k) + rest == Zeros(k - 1) + ([false] + rest);
      DivideZeros(bits, g, c, k - 1, [false] + rest);
      DivideStep(bits(Times(c, k - 1)), rest, g);
    }
  }

  /** Bits in front may be added to the register instead. */
  lemma MoveFront(p: Poly, rest: Poly, x: Poly, m: nat)
    requires |x| == |p| + m && m <= |rest|
    ensures Plus(p + rest, x) == Plus(Zeros(|p|) + rest, Plus(x, p + Zeros(m)))
  {
  }

  ghost predicate Adds(bits: bv32 -> Poly, m: nat) {
    forall c, b: Octet :: AddsAt(bits, m, c, b)
  }

  predicate AddsAt(bits: bv32 -> Poly, m: nat, c: bv32, b: Octet) {
    |bits(c)| == 8 + m && bits(Mixed(c, b)) == Plus(bits(c), OctetBits(b) + Zeros(m))
  }

  function Mixed(c: bv32, b: Octet): bv32 { c ^ (b as bv32) }

  /** Feeding the bytes of `data` divides them. */
  lemma {:induction false} FeedDivides(bits: bv32 -> Poly, g: Poly, m: nat, c: bv32, data: Octets, n: nat)
    requires GoesDown(bits, g) && Adds(bits, m) && n == 8 && |g| == m + 9
    ensures Remainder(Plus(Bits(data) + Zeros(m + 8), bits(c)), g) == bits(FeedAll(Feeder(n), c, data))
    decreases |data|
  {
    if data == [] {
      assert Plus(Bits(data) + Zeros(m + 8), bits(c)) == bits(c);
    } else {
      var b, rest := data[0], Bits(data[1..]) + Zeros(m + 8);
      assert AddsAt(bits, m, c, b);
      assert Bits(data) + Zeros(m + 8) == OctetBits(b) + rest;
      MoveFront(OctetBits(b), rest, bits(c), m);
      DivideZeros(bits, g, Mixed(c, b), n, rest);
      FeedDivides(bits, g, m, Feeder(n)(c, b), data[1..], n);
    }
  }

  lemma CoefficientsGoDown(n: nat)
    requires n == 32
    ensures GoesDown(Coefficients(n), Generator())
  {
    forall c ensures Coefficients(n)(Shift(c)) == Down(Coefficients(n)(c), Generator()) { ShiftGoesDown(c, n); }
  }

  lemma OctetInWord(b: Octet, w: bv32, n: nat, m: nat)
    requires w == b as bv32 && n == 32 && m == 24
    ensures LowBits(Word32(), w, n) == OctetBits(b) + Zeros(m)
  {
    WordBits(w, 0, 0, 0, b, 0, 0, 0, n);
    NoBits();
  }

  lemma NoBits()
    ensures OctetBits(0) == Zeros(8)
  {
  }

  lemma CoefficientsAdd(n: nat, m: nat)
    requires n == 32 && m == 24
    ensures Adds(Coefficients(n), m)
  {
    forall c, b: Octet ensures AddsAt(Coefficients(n), m, c, b) { OctetAdds(c, b, b as bv32, n, m); }
  }

  lemma OctetAdds(c: bv32, b: Octet, w: bv32, n: nat, m: nat)
    requires n == 32 && m == 24 && w == b as bv32
    ensures LowBits(Word32(), Xor(c, w), n) == Plus(LowBits(Word32(), c, n), OctetBits(b) + Zeros(m))
  {
    WordMixes();
    LowBitsMix(Word32(), Xor, c, w, n);
    OctetInWord(b, w, n, m);
  }

  lemma Complemented(c: bv32, d: bv32, n: nat)
    requires n == 32 && d == !c
    ensures LowBits(Word32(), d, n) == Inverted(LowBits(Word32(), c, n))
  {
    ComplementIs(c);
    WordMixes();
    LowBitsMix(Word32(), Xor, c, 0xffffffff, n);
    OnesBits(n);
  }

  lemma ComplementIs(c: bv32)
    ensures !c == Xor(c, 0xffffffff)
  {
  }

  /** The register holds the remainder of what was fed. */
  lemma RegisterIsRemainder(bits: bv32 -> Poly, c: bv32, data: Octets, n: nat, m: nat, k: nat)
    requires n == 32 && m == 24 && k == 8 && bits == Coefficients(n) && bits(c) == Ones(n)
    ensures Inverted(bits(FeedAll(Feeder(k), c, data))) == CrcBits(data)
  {
    CoefficientsGoDown(n);
    CoefficientsAdd(n, m);
    FeedDivides(bits, Generator(), m, c, data, k);
  }

  /** The checksum, read from its least significant bit on, is the inverted remainder. */
  lemma CrcIsRemainder(data: Octets, n: nat)
    requires n == 32
    ensures LowBits(Word32(), Crc(data), n) == CrcBits(data)
  {
    OnesBits(n);
    RegisterIsRemainder(Coefficients(n), 0xffffffff, data, n, 24, 8);
    Complemented(FeedAll(Feeder(8), 0xffffffff, data), Crc(data), n);
  }

  /** The bits of four check bytes that were sent most significant byte first. */
  function CheckBits(s: Octets): (p: Poly)
    requires |s| == 4
    ensures |p| == 32
  {
    FourBits(s[3], s[2], s[1], s[0])
  }

  /** The bytes of the checksum, most significant first, hold its coefficients. */
  lemma CheckIsRemainder(data: Octets, s: Octets, c1: bv32, c2: bv32, c3: bv32)
    requires |s| == 4 && LowByte(Crc(data), s[3], c1) && LowByte(c1, s[2], c2) && LowByte(c2, s[1], c3)
    requires LowByte(c3, s[0], 0)
    ensures CheckBits(s) == CrcBits(data)
  {
    CrcIsRemainder(data, 32);
    WordBits(Crc(data), c1, c2, c3, s[3], s[2], s[1], s[0], 32);
  }
}
