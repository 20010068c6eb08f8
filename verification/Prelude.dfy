/** Types and small list facts shared by the component models. */
module Prelude {

  datatype Option<+T> = None | Some(value: T)

  lemma Assoc<T>(a: seq<T>, b: seq<T>, c: seq<T>)
    ensures (a + b) + c == a + (b + c)
  {
  }

  lemma {:induction false} Subset<T>(a: set<T>, b: set<T>)
    requires a <= b
    ensures |a| <= |b|
  {
    if a != {} {
      var x :| x in a;
      Subset(a - {x}, b - {x});
    }
  }

  /** The value of a hexadecimal digit. */
  function HexDigit(c: char): Option<nat> {
    if '0' <= c <= '9' then Some(c as int - '0' as int)
    else if 'a' <= c <= 'f' then Some(c as int - 'a' as int + 10)
    else if 'A' <= c <= 'F' then Some(c as int - 'A' as int + 10)
    else None
  }

  type Byte = x: int | 0 <= x < 256
  type Bytes = seq<Byte>

  /** Number of UTF-8 bytes of one Unicode scalar value (RFC 3629, section 3). */
  function Utf8Len(c: char): (n: nat)
    ensures 1 <= n <= 4
  {
    var v := c as int;
    if v < 0x80 then 1 else if v < 0x800 then 2 else if v < 0x10000 then 3 else 4
  }

  /** The UTF-8 bytes of the first `n` characters. */
  function BytesTo(s: string, n: nat): (b: nat)
    requires n <= |s|
    ensures n <= b
  {
    if n == 0 then 0 else BytesTo(s, n - 1) + Utf8Len(s[n - 1])
  }

  /** The source's `str::len`: length in UTF-8 bytes. */
  function ByteLen(s: string): nat { BytesTo(s, |s|) }

  lemma {:induction false} BytesMonotone(s: string, n: nat, m: nat)
    requires n <= m <= |s|
    ensures BytesTo(s, n) <= BytesTo(s, m)
  {
    if n < m { BytesMonotone(s, n, m - 1); }
  }

  lemma {:induction false} BytesPrefix(s: string, t: string, n: nat)
    requires n <= |s|
    ensures BytesTo(s + t, n) == BytesTo(s, n)
  {
    if n > 0 { BytesPrefix(s, t, n - 1); }
  }

  lemma {:induction false} ByteLenConcat(s: string, t: string)
    ensures ByteLen(s + t) == ByteLen(s) + ByteLen(t)
  {
    ByteLenConcatTo(s, t, |t|);
  }

  lemma {:induction false} ByteLenConcatTo(s: string, t: string, n: nat)
    requires n <= |t|
    ensures BytesTo(s + t, |s| + n) == ByteLen(s) + BytesTo(t, n)
  {
    if n == 0 { BytesPrefix(s, t, |s|); } else { ByteLenConcatTo(s, t, n - 1); }
  }

  /** Unicode White_Space, the set `str::trim` removes. */
  predicate IsSpace(c: char) {
    var v := c as int;
    9 <= v <= 13 || v == 0x20 || v == 0x85 || v == 0xA0 || v == 0x1680 || 0x2000 <= v <= 0x200A
    || v == 0x2028 || v == 0x2029 || v == 0x202F || v == 0x205F || v == 0x3000
  }

  predicate AllSpace(s: string) {
    forall k :: 0 <= k < |s| ==> IsSpace(s[k])
  }

  /** The source's `str::trim_start`, `trim_end` and `trim`. */
  function TrimStart(s: string): string {
    if s != [] && IsSpace(s[0]) then TrimStart(s[1..]) else s
  }

  function TrimEnd(s: string): string {
    if s != [] && IsSpace(s[|s| - 1]) then TrimEnd(s[..|s| - 1]) else s
  }

  function Trim(s: string): string { TrimEnd(TrimStart(s)) }
}
