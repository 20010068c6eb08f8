/** CRC-32 and Adler-32 as the PNG encoder computes them. */
module Checksums {
  type Octet = bv8
  type Octets = seq<bv8>

  // ----- registers fed byte by byte ----------------------------------------------

  function FeedAll<R>(g: (R, Octet) -> R, c: R, data: Octets): R
    decreases |data|
  {
    if data == [] then c else FeedAll(g, g(c, data[0]), data[1..])
  }

  predicate InjectiveAt<R(==)>(g: (R, Octet) -> R, c: R, d: R, x: Octet) { g(c, x) == g(d, x) ==> c == d }

  ghost predicate Injective<R(!new)>(g: (R, Octet) -> R) { forall c, d, x :: InjectiveAt(g, c, d, x) }

  lemma {:induction false} FeedAllInjective<R(!new)>(g: (R, Octet) -> R, c: R, d: R, data: Octets)
    requires Injective(g) && FeedAll(g, c, data) == FeedAll(g, d, data)
    ensures c == d
    decreases |data|
  {
    if data != [] {
      assert InjectiveAt(g, c, d, data[0]);
      FeedAllInjective(g, g(c, data[0]), g(d, data[0]), data[1..]);
    }
  }

  lemma {:induction false} FeedAllConcat<R>(g: (R, Octet) -> R, c: R, a: Octets, b: Octets)
    ensures FeedAll(g, c, a + b) == FeedAll(g, FeedAll(g, c, a), b)
    decreases |a|
  {
    if a == [] {
      assert a + b == b;
    } else {
      assert (a + b)[1..] == a[1..] + b;
      FeedAllConcat(g, g(c, a[0]), a[1..], b);
    }
  }

  // ----- CRC-32 ------------------------------------------------------------------

  const POLY: bv32 := 0xedb88320

  /** One shift of the register. */
  function Shift(c: bv32): bv32 {
    if c & 1 != 0 then (c >> 1) ^ POLY else c >> 1
  }

  function Times(c: bv32, n: nat): bv32
    decreases n
  {
    if n == 0 then c else Shift(Times(c, n - 1))
  }

  /** Feeding one byte with `n` shifts. */
  function FeedOne(c: bv32, b: Octet, n: nat): bv32 { Times(c ^ (b as bv32), n) }

  function Feeder(n: nat): (bv32, Octet) -> bv32 { (c, b) => FeedOne(c, b, n) }

  function Crc(data: Octets): bv32 { !FeedAll(Feeder(8), 0xffffffff, data) }

  method EightShifts(c: bv32) returns (r: bv32)
    ensures r == Times(c, 8)
  {
    r := c;
    for k := 0 to 8
      invariant r == Times(c, k)
    {
      r := if r & 1 != 0 then (r >> 1) ^ 0xedb88320 else r >> 1;
    }
  }

  method Crc32(data: Octets) returns (r: bv32)
    ensures r == Crc(data)
  {
    var crc: bv32 := 0xffffffff;
    for i := 0 to |data|
      invariant FeedAll(Feeder(8), crc, data[i..]) == FeedAll(Feeder(8), 0xffffffff, data)
    {
      assert data[i..][1..] == data[i + 1..];
      crc := EightShifts(crc ^ (data[i] as bv32));
    }
    r := !crc;
  }

  lemma ShiftInjective(a: bv32, b: bv32)
    requires Shift(a) == Shift(b)
    ensures a == b
  {
  }

  lemma {:induction false} TimesInjective(a: bv32, b: bv32, n: nat)
    requires Times(a, n) == Times(b, n)
    ensures a == b
  {
    if n > 0 {
      ShiftInjective(Times(a, n - 1), Times(b, n - 1));
      TimesInjective(a, b, n - 1);
    }
  }

  lemma FeederInjective(n: nat)
    ensures Injective(Feeder(n))
  {
    forall c, d, x ensures InjectiveAt(Feeder(n), c, d, x) {
      FeedInjective(c, d, x, n);
      InjectiveThere(Feeder(n), c, d, x);
    }
  }

  lemma InjectiveThere<R>(g: (R, Octet) -> R, c: R, d: R, x: Octet)
    requires g(c, x) == g(d, x) ==> c == d
    ensures InjectiveAt(g, c, d, x)
  {
  }

  lemma FeedInjective(c: bv32, d: bv32, x: Octet, n: nat)
    ensures Feeder(n)(c, x) == Feeder(n)(d, x) ==> c == d
  {
    var w := x as bv32;
    var u, v := c ^ w, d ^ w;
    FeederIs(c, x, n, u);
    FeederIs(d, x, n, v);
    SameTimes(Feeder(n)(c, x), Feeder(n)(d, x), u, v, n);
    SameMix(c, d, w, u, v);
  }

  lemma SameMix(c: bv32, d: bv32, w: bv32, u: bv32, v: bv32)
    requires u == c ^ w && v == d ^ w
    ensures u == v ==> c == d
  {
    assert c == u ^ w && d == v ^ w;
  }

  lemma SameTimes(p: bv32, q: bv32, u: bv32, v: bv32, n: nat)
    requires p == Times(u, n) && q == Times(v, n)
    ensures p == q ==> u == v
  {
    if p == q { TimesInjective(u, v, n); }
  }

  lemma FeederIs(c: bv32, x: Octet, n: nat, u: bv32)
    requires u == c ^ (x as bv32)
    ensures Feeder(n)(c, x) == Times(u, n)
  {
  }

  /** Bits above the lowest pass through a shift unchanged. */
  lemma ShiftLinear(x: bv32, y: bv32, r: bv32)
    requires x == y ^ (r << 1) && r < 0x8000_0000
    ensures Shift(x) == Shift(y) ^ r
  {
    if y & 1 != 0 { OddShift(x, y, r); } else { EvenShift(x, y, r); }
  }

  lemma OddShift(x: bv32, y: bv32, r: bv32)
    requires x == y ^ (r << 1) && r < 0x8000_0000 && y & 1 != 0
    ensures x & 1 != 0 && (x >> 1) ^ POLY == ((y >> 1) ^ POLY) ^ r
  {
  }

  lemma EvenShift(x: bv32, y: bv32, r: bv32)
    requires x == y ^ (r << 1) && r < 0x8000_0000 && y & 1 == 0
    ensures x & 1 == 0 && x >> 1 == (y >> 1) ^ r
  {
  }

  /** `r` moved up by `n` bits. */
  function Up(r: bv32, n: nat): bv32
    decreases n
  {
    if n == 0 then r else Up(r << 1, n - 1)
  }

  predicate Fits(r: bv32, n: nat)
    decreases n
  {
    n == 0 || (r < 0x8000_0000 && Fits(r << 1, n - 1))
  }

  predicate Differ(x: bv32, y: bv32, d: bv32) { x == y ^ d }

  lemma {:induction false} TimesLinear(a: bv32, r: bv32, n: nat, u: bv32, s: bv32)
    requires Fits(r, n) && u == Up(r, n) && s == a ^ u
    ensures Differ(Times(s, n), Times(a, n), r)
    decreases n
  {
    if n == 0 {
      NoShift(a, r, n, u, s);
    } else {
      var q := r << 1;
      UpOne(r, n, q);
      TimesLinear(a, q, n - 1, u, s);
      LinearStep(a, r, n, s, q);
    }
  }

  lemma UpOne(r: bv32, n: nat, q: bv32)
    requires n > 0 && q == r << 1
    ensures Up(r, n) == Up(q, n - 1) && (Fits(r, n) ==> r < 0x8000_0000 && Fits(q, n - 1))
  {
  }

  lemma NoShift(a: bv32, r: bv32, n: nat, u: bv32, s: bv32)
    requires n == 0 && u == Up(r, n) && s == a ^ u
    ensures Differ(Times(s, n), Times(a, n), r)
  {
  }

  lemma LinearStep(a: bv32, r: bv32, n: nat, s: bv32, q: bv32)
    requires n > 0 && r < 0x8000_0000 && q == r << 1 && Differ(Times(s, n - 1), Times(a, n - 1), q)
    ensures Differ(Times(s, n), Times(a, n), r)
  {
    ShiftedStep(a, r, n, Times(s, n - 1), Times(a, n - 1), s);
  }

  lemma ShiftedStep(a: bv32, r: bv32, n: nat, x: bv32, y: bv32, s: bv32)
    requires n > 0 && r < 0x8000_0000
    requires x == Times(s, n - 1) && y == Times(a, n - 1) && x == y ^ (r << 1)
    ensures Differ(Times(s, n), Times(a, n), r)
  {
    ShiftLinear(x, y, r);
  }

  // ----- bursts ---------------------------------------------------------------------

  lemma {:induction false} TimesTimes(c: bv32, m: nat, n: nat)
    ensures Times(Times(c, m), n) == Times(c, m + n)
  {
    if n > 0 { TimesTimes(c, m, n - 1); }
  }

  /** Up to four bytes as the bits they are fed as, the first byte lowest. */
  function Word(x: Octets): bv32
    decreases |x|
  {
    if x == [] then 0 else Join(x[0], Word(x[1..]))
  }

  function Join(b: Octet, rest: bv32): bv32 { (b as bv32) ^ (rest << 8) }

  lemma JoinInjective(b: Octet, d: Octet, u: bv32, v: bv32)
    requires u < 0x100_0000 && v < 0x100_0000 && Join(b, u) == Join(d, v)
    ensures b == d && u == v
  {
  }

  lemma {:induction false} WordBound(x: Octets)
    requires |x| <= 3
    ensures Word(x) < 0x100_0000
    ensures |x| <= 2 ==> Word(x) < 0x1_0000
    ensures |x| <= 1 ==> Word(x) < 0x100
    decreases |x|
  {
    if x != [] {
      WordBound(x[1..]);
      JoinBound(x[0], Word(x[1..]));
    }
  }

  lemma JoinBound(b: Octet, u: bv32)
    ensures u < 0x1_0000 ==> Join(b, u) < 0x100_0000
    ensures u < 0x100 ==> Join(b, u) < 0x1_0000
    ensures u == 0 ==> Join(b, u) < 0x100
  {
  }

  lemma {:induction false} WordInjective(x: Octets, y: Octets)
    requires |x| == |y| <= 4 && Word(x) == Word(y)
    ensures x == y
    decreases |x|
  {
    if x != [] {
      WordBound(x[1..]);
      WordBound(y[1..]);
      JoinInjective(x[0], y[0], Word(x[1..]), Word(y[1..]));
      WordInjective(x[1..], y[1..]);
      assert x == [x[0]] + x[1..] && y == [y[0]] + y[1..];
    }
  }

  /** Eight shifts take the lowest byte in and leave the bits above it as they are. */
  lemma ByteLinear(a: bv32, r: bv32, n: nat, u: bv32, s: bv32)
    requires n == 8 && r < 0x100_0000 && u == r << 8 && s == a ^ u
    ensures Differ(Times(s, n), Times(a, n), r)
  {
    UpEight(r, n, u);
    TimesLinear(a, r, n, u, s);
  }

  lemma UpEight(r: bv32, n: nat, u: bv32)
    requires n == 8 && r < 0x100_0000 && u == r << 8
    ensures Fits(r, n) && u == Up(r, n)
  {
    UpByEight(r);
    FitsEight(r);
  }

  lemma UpByEight(r: bv32)
    ensures Up(r, 8) == r << 8
  {
  }

  lemma FitsEight(r: bv32)
    requires r < 0x100_0000
    ensures Fits(r, 8)
  {
  }

  lemma Regroup(c: bv32, b: Octet, w: bv32, a: bv32)
    requires a == c ^ (b as bv32)
    ensures c ^ Join(b, w) == a ^ (w << 8)
  {
  }

  /** The first byte of a word, and the register it leaves for the rest. */
  lemma FirstByte(c: bv32, b: Octet, w: bv32, n: nat, a: bv32, s: bv32)
    requires n == 8 && w < 0x100_0000 && a == c ^ (b as bv32) && s == c ^ Join(b, w)
    ensures Differ(Times(s, n), Times(a, n), w)
  {
    Regroup(c, b, w, a);
    ByteLinear(a, w, n, w << 8, s);
  }

  lemma AfterFirst(c: bv32, b: Octet, n: nat, s: bv32, w: bv32, a: bv32)
    requires a == c ^ (b as bv32) && Differ(Times(s, n), Times(a, n), w)
    ensures Times(s, n) == FeedOne(c, b, n) ^ w
  {
  }

  lemma WordStep(c: bv32, b: Octet, w: bv32, n: nat, a: bv32, s: bv32)
    requires n == 8 && w < 0x100_0000 && a == c ^ (b as bv32) && s == c ^ Join(b, w)
    ensures Times(s, n) == FeedOne(c, b, n) ^ w
  {
    FirstByte(c, b, w, n, a, s);
    AfterFirst(c, b, n, s, w, a);
  }

  /** Operations on registers: feed a byte, mix in a word, step on; and on words: put a
      byte below the others. */
  datatype Ops<!R, !W> = Ops(g: (R, Octet) -> R, mix: (R, W) -> R, t: R -> R, join: (Octet, W) -> W, zero: W,
    small: W -> bool)

  function Fold<R, W>(o: Ops<R, W>, x: Octets): W
    decreases |x|
  {
    if x == [] then o.zero else o.join(x[0], Fold(o, x[1..]))
  }

  predicate AllSmall<R, W>(o: Ops<R, W>, x: Octets)
    decreases |x|
  {
    x == [] || (o.small(Fold(o, x[1..])) && AllSmall(o, x[1..]))
  }

  predicate StepAt<R(==), W>(o: Ops<R, W>, c: R, b: Octet, w: W) {
    o.mix(c, o.zero) == c && (o.small(w) ==> o.t(o.mix(c, o.join(b, w))) == o.mix(o.g(c, b), w))
  }

  ghost predicate Lawful<R(!new), W(!new)>(o: Ops<R, W>) {
    && (forall c, b, w :: StepAt(o, c, b, w))
    && (forall c, d :: o.t(c) == o.t(d) ==> c == d)
  }

  function Iterate<R>(t: R -> R, c: R, k: nat): R
    decreases k
  {
    if k == 0 then c else Iterate(t, t(c), k - 1)
  }

  /** Feeding bytes one by one is mixing in their word and stepping on. */
  lemma {:induction false} FeedMixed<R(!new), W(!new)>(o: Ops<R, W>, c: R, x: Octets)
    requires Lawful(o) && AllSmall(o, x)
    ensures FeedAll(o.g, c, x) == Iterate(o.t, o.mix(c, Fold(o, x)), |x|)
    decreases |x|
  {
    if x == [] {
      assert forall b, w :: StepAt(o, c, b, w);
      var w := o.zero;
      assert StepAt(o, c, 0, w);
    } else {
      assert StepAt(o, c, x[0], Fold(o, x[1..]));
      FeedMixed(o, o.g(c, x[0]), x[1..]);
    }
  }

  lemma {:induction false} IterateInjective<R(!new)>(t: R -> R, c: R, d: R, k: nat)
    requires (forall c, d :: t(c) == t(d) ==> c == d) && Iterate(t, c, k) == Iterate(t, d, k)
    ensures c == d
    decreases k
  {
    if k > 0 { IterateInjective(t, t(c), t(d), k - 1); }
  }

  /** Inputs of equal length fed with equal results had equal words mixed in. */
  lemma SameMixed<R(!new), W(!new)>(o: Ops<R, W>, c: R, x: Octets, y: Octets)
    requires Lawful(o) && AllSmall(o, x) && AllSmall(o, y) && |x| == |y| && FeedAll(o.g, c, x) == FeedAll(o.g, c, y)
    ensures o.mix(c, Fold(o, x)) == o.mix(c, Fold(o, y))
  {
    FeedMixed(o, c, x);
    FeedMixed(o, c, y);
    IterateInjective(o.t, o.mix(c, Fold(o, x)), o.mix(c, Fold(o, y)), |x|);
  }

  function Xor(c: bv32, w: bv32): bv32 { c ^ w }

  function CrcOps(n: nat): Ops<bv32, bv32> {
    Ops(Feeder(n), (c, w) => Xor(c, w), c => Times(c, n), (b, w) => Join(b, w), 0, w => SmallWord(w))
  }

  predicate SmallWord(w: bv32) { w < 0x100_0000 }

  lemma StepAtCrc(c: bv32, b: Octet, w: bv32, n: nat)
    requires n == 8
    ensures SmallWord(w) ==> Times(Xor(c, Join(b, w)), n) == Xor(FeedOne(c, b, n), w)
  {
    if SmallWord(w) { WordStep(c, b, w, n, c ^ (b as bv32), c ^ Join(b, w)); }
  }

  lemma StepFrom(c: bv32, b: Octet, w: bv32, n: nat)
    requires Xor(c, 0) == c
    requires SmallWord(w) ==> Times(Xor(c, Join(b, w)), n) == Xor(FeedOne(c, b, n), w)
    ensures StepAt(CrcOps(n), c, b, w)
  {
  }

  lemma CrcLawful(n: nat)
    requires n == 8
    ensures Lawful(CrcOps(n))
  {
    forall c, b, w ensures StepAt(CrcOps(n), c, b, w) {
      MixNothing(c);
      StepAtCrc(c, b, w, n);
      StepFrom(c, b, w, n);
    }
    forall c, d | Times(c, n) == Times(d, n) ensures c == d { TimesInjective(c, d, n); }
  }

  lemma MixNothing(c: bv32)
    ensures Xor(c, 0) == c
  {
  }

  lemma {:induction false} FoldIsWord(x: Octets, n: nat)
    requires |x| <= 4
    ensures Fold(CrcOps(n), x) == Word(x) && AllSmall(CrcOps(n), x)
    decreases |x|
  {
    if x != [] {
      FoldIsWord(x[1..], n);
      WordBound(x[1..]);
    }
  }

  /** Two inputs of equal length that differ, but only within four consecutive bytes,
      have different checksums. */
  lemma BurstDetected(before: Octets, x: Octets, y: Octets, after: Octets)
    requires |x| == |y| <= 4 && x != y
    ensures Crc(before + (x + after)) != Crc(before + (y + after))
  {
    var c := FeedAll(Feeder(8), 0xffffffff, before);
    FeedAllConcat(Feeder(8), 0xffffffff, before, x + after);
    FeedAllConcat(Feeder(8), 0xffffffff, before, y + after);
    SameRegister(c, x, y, after, 8);
    Complement(FeedAll(Feeder(8), c, x + after), FeedAll(Feeder(8), c, y + after));
  }

  lemma SameRegister(c: bv32, x: Octets, y: Octets, after: Octets, n: nat)
    requires |x| == |y| <= 4 && n == 8
    ensures FeedAll(Feeder(n), c, x + after) == FeedAll(Feeder(n), c, y + after) ==> x == y
  {
    FeedAllConcat(Feeder(n), c, x, after);
    FeedAllConcat(Feeder(n), c, y, after);
    var cx, cy := FeedAll(Feeder(n), c, x), FeedAll(Feeder(n), c, y);
    if FeedAll(Feeder(n), cx, after) == FeedAll(Feeder(n), cy, after) {
      FeederInjective(n);
      FeedAllInjective(Feeder(n), cx, cy, after);
      SameWord(c, x, y, n);
    }
  }

  lemma SameWord(c: bv32, x: Octets, y: Octets, n: nat)
    requires |x| == |y| <= 4 && n == 8 && FeedAll(Feeder(n), c, x) == FeedAll(Feeder(n), c, y)
    ensures x == y
  {
    CrcLawful(n);
    LawfulWord(c, x, y, n);
  }

  lemma LawfulWord(c: bv32, x: Octets, y: Octets, n: nat)
    requires Lawful(CrcOps(n)) && |x| == |y| <= 4 && FeedAll(Feeder(n), c, x) == FeedAll(Feeder(n), c, y)
    ensures x == y
  {
    MixedWords(c, x, y, n);
    CancelLeft(c, Word(x), Word(y));
    WordInjective(x, y);
  }

  lemma MixedWords(c: bv32, x: Octets, y: Octets, n: nat)
    requires Lawful(CrcOps(n)) && |x| == |y| <= 4 && FeedAll(Feeder(n), c, x) == FeedAll(Feeder(n), c, y)
    ensures Xor(c, Word(x)) == Xor(c, Word(y))
  {
    FoldIsWord(x, n);
    FoldIsWord(y, n);
    SameMixed(CrcOps(n), c, x, y);
  }

  lemma CancelLeft(c: bv32, a: bv32, b: bv32)
    requires Xor(c, a) == Xor(c, b)
    ensures a == b
  {
  }

  lemma Complement(a: bv32, b: bv32)
    ensures !a == !b ==> a == b
  {
  }
}
