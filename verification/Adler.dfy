/** Adler-32 as the PNG encoder computes it, against the two sums of section 2.2 of RFC 1950. */
module Adler {
  import opened Checksums

  const BASE: nat := 65521

  /** The value of a byte. */
  function Num(b: Octet): (n: nat)
    ensures n < 256
  {
    b as nat
  }

  /** One more than the sum of the first `n` bytes. */
  function SumA(data: Octets, n: nat): (a: nat)
    requires n <= |data|
    ensures 1 <= a <= 1 + 255 * n
  {
    if n == 0 then 1 else SumA(data, n - 1) + Num(data[n - 1])
  }

  /** The sum of what `SumA` was after each of the first `n` bytes. */
  function SumB(data: Octets, n: nat): nat
    requires n <= |data|
  {
    if n == 0 then 0 else SumB(data, n - 1) + SumA(data, n)
  }

  function Adler32Of(data: Octets): (c: nat)
    ensures c < 0x1_0000_0000
    ensures c / 0x1_0000 == SumB(data, |data|) % BASE && c % 0x1_0000 == SumA(data, |data|) % BASE
  {
    (SumB(data, |data|) % BASE) * 0x1_0000 + SumA(data, |data|) % BASE
  }

  /** The bound below which every intermediate of the source stays: it never wraps a `u32`. */
  predicate FitsU32(n: int) { 0 <= n < 0x1_0000_0000 }

  lemma SmallMultiple(d: int, m: int)
    requires m > 0
    ensures -m < d * m < m ==> d == 0
  {
    if d >= 1 {
      assert (d - 1) * m >= 0;
    } else if d <= -1 {
      assert (-d - 1) * m >= 0;
    }
  }

  lemma ModUnique(x: nat, q: nat, r: nat, m: nat)
    requires x == q * m + r && r < m
    ensures x % m == r
  {
    assert x == (x / m) * m + x % m;
    assert (q - x / m) * m == x % m - r;
    SmallMultiple(q - x / m, m);
  }

  lemma ModAdd(x: nat, y: nat, m: nat)
    requires m > 0
    ensures (x % m + y) % m == (x + y) % m
  {
    var z := x % m + y;
    assert x == (x / m) * m + x % m && z == (z / m) * m + z % m;
    assert x + y == (x / m + z / m) * m + z % m;
    ModUnique(x + y, x / m + z / m, z % m, m);
  }

  method Adler32(data: Octets) returns (c: nat)
    ensures c == Adler32Of(data)
  {
    var a, b := 1, 0;
    for i := 0 to |data|
      invariant a == SumA(data, i) % BASE && b == SumB(data, i) % BASE
    {
      ModAdd(SumA(data, i), Num(data[i]), BASE);
      assert FitsU32(a + Num(data[i]));
      a := (a + Num(data[i])) % 65521;
      ModAdd(SumB(data, i), SumA(data, i + 1), BASE);
      ModAdd(SumA(data, i + 1), b, BASE);
      assert FitsU32(b + a);
      b := (b + a) % 65521;
    }
    // The low half is below 2^16, so the source's `(b << 16) | a` is this sum.
    assert a < 0x1_0000 && FitsU32(b * 0x1_0000 + a);
    c := b * 0x1_0000 + a;
  }

  /** The second sum weighs each byte by how many bytes are left from it on. */
  function Weighted(data: Octets, n: nat, k: nat): int
    requires k <= n <= |data|
  {
    if k == 0 then 0 else Weighted(data, n, k - 1) + (n - (k - 1)) * Num(data[k - 1])
  }

  lemma {:induction false} WeightedNext(data: Octets, n: nat, k: nat)
    requires k <= n < |data|
    ensures Weighted(data, n + 1, k) == Weighted(data, n, k) + SumA(data, k) - 1
  {
    if k > 0 {
      WeightedNext(data, n, k - 1);
      var x := Num(data[k - 1]);
      assert (n + 1 - (k - 1)) * x == (n - (k - 1)) * x + x;
    }
  }

  lemma WeightedLast(data: Octets, n: nat)
    requires 0 < n <= |data|
    ensures Weighted(data, n, n) == Weighted(data, n, n - 1) + Num(data[n - 1])
  {
  }

  lemma {:induction false} SumBWeighs(data: Octets, n: nat)
    requires n <= |data|
    ensures SumB(data, n) == n + Weighted(data, n, n)
  {
    if n > 0 {
      SumBWeighs(data, n - 1);
      WeightedNext(data, n - 1, n - 1);
      WeightedLast(data, n);
    }
  }

  /** The sum of all bytes. */
  function Total(data: Octets): nat {
    if data == [] then 0 else Num(data[0]) + Total(data[1..])
  }

  lemma {:induction false} TotalSnoc(data: Octets, b: Octet)
    ensures Total(data + [b]) == Total(data) + Num(b)
  {
    if data != [] {
      assert (data + [b])[1..] == data[1..] + [b];
      TotalSnoc(data[1..], b);
    }
  }

  lemma {:induction false} SumAIs(data: Octets, n: nat)
    requires n <= |data|
    ensures SumA(data, n) == 1 + Total(data[..n])
  {
    if n > 0 {
      assert data[..n] == data[..n - 1] + [data[n - 1]];
      TotalSnoc(data[..n - 1], data[n - 1]);
      SumAIs(data, n - 1);
    }
  }

  /** The check value of section 8.2 of RFC 1950 in closed form: the sum of the bytes plus
      one, and above it the sum of the bytes weighed by how many are left, plus their number,
      both modulo the largest prime below 65536. */
  predicate IsCheck(data: Octets, c: nat) {
    c % 0x1_0000 == (Total(data) + 1) % 65521 && c / 0x1_0000 == (Weighted(data, |data|, |data|) + |data|) % 65521
  }

  lemma AdlerIsCheck(data: Octets)
    ensures IsCheck(data, Adler32Of(data))
  {
    assert data[..|data|] == data;
    SumAIs(data, |data|);
    SumBWeighs(data, |data|);
  }

  lemma {:induction false} SumAChanged(x: Octets, y: Octets, k: nat, n: nat)
    requires |x| == |y| && k < |x| && n <= |x|
    requires forall j :: 0 <= j < |x| && j != k ==> x[j] == y[j]
    ensures SumA(x, n) - SumA(y, n) == if n <= k then 0 else Num(x[k]) - Num(y[k])
  {
    if n > 0 { SumAChanged(x, y, k, n - 1); }
  }

  /** Inputs of equal length that differ in exactly one byte have different checksums. */
  lemma OneByteDetected(x: Octets, y: Octets, k: nat)
    requires |x| == |y| && k < |x| && Num(x[k]) != Num(y[k])
    requires forall j :: 0 <= j < |x| && j != k ==> x[j] == y[j]
    ensures Adler32Of(x) != Adler32Of(y)
  {
    SumAChanged(x, y, k, |x|);
    LowHalves(x, y, SumA(x, |x|), SumA(y, |y|));
  }

  lemma LowHalves(x: Octets, y: Octets, a: nat, b: nat)
    requires a == SumA(x, |x|) && b == SumA(y, |y|) && a != b && -256 < a - b < 256
    ensures Adler32Of(x) != Adler32Of(y)
  {
    NearApart(a, b, BASE);
    assert Adler32Of(x) % 0x1_0000 == a % BASE;
    assert Adler32Of(y) % 0x1_0000 == b % BASE;
  }

  lemma NearApart(a: nat, b: nat, m: int)
    requires m > 0 && a != b && -m < a - b < m
    ensures a % m != b % m
  {
    if a % m == b % m {
      assert a == (a / m) * m + a % m && b == (b / m) * m + b % m;
      assert a - b == (a / m - b / m) * m;
      SmallMultiple(a / m - b / m, m);
    }
  }
}
