/** Line feeds in byte strings. */
module ByteLines {
  import opened Prelude

  const LF: Byte := 10

  /** The first line feed at or after `i`, or the end. */
  function LineEnd(b: Bytes, i: nat): (r: nat)
    requires i <= |b|
    ensures i <= r <= |b| && LF !in b[i..r] && (r < |b| ==> b[r] == LF)
    decreases |b| - i
  {
    if i == |b| || b[i] == LF then i
    else
      var r := LineEnd(b, i + 1);
      assert b[i..r] == [b[i]] + b[i + 1..r];
      r
  }

  lemma {:induction false} LineEndIs(b: Bytes, i: nat, e: nat)
    requires i <= e <= |b| && LF !in b[i..e] && (e < |b| ==> b[e] == LF)
    ensures LineEnd(b, i) == e
    decreases |b| - i
  {
    if i < e {
      assert b[i] == b[i..e][0];
      assert b[i + 1..e] == b[i..e][1..];
      LineEndIs(b, i + 1, e);
    }
  }

  lemma {:induction false} LineEndIn(a: Bytes, b: Bytes, i: nat)
    requires i <= |a| && LineEnd(a, i) < |a|
    ensures LineEnd(a + b, i) == LineEnd(a, i)
    decreases |a| - i
  {
    assert (a + b)[i] == a[i];
    if a[i] != LF { LineEndIn(a, b, i + 1); }
  }

  /** What a series of reads delivers in all. */
  function Flat(chunks: seq<Bytes>): Bytes
    decreases |chunks|
  {
    if chunks == [] then [] else chunks[0] + Flat(chunks[1..])
  }
}
