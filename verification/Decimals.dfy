/** Decimal numbers: printing them, and Rust's parser for 16-bit ones. */
module Decimals {
  import opened Prelude

  predicate AllDigits(s: string) { forall k :: 0 <= k < |s| ==> '0' <= s[k] <= '9' }

  function DigitsValue(s: string): nat
    requires AllDigits(s)
  {
    if s == [] then 0 else DigitsValue(s[..|s| - 1]) * 10 + (s[|s| - 1] as int - '0' as int)
  }

  /** Rust's `parse::<u16>`: digits, an optional plus sign, at most 65535. */
  function ParseU16(s: string): (r: Option<nat>)
    ensures r.Some? ==> r.value < 65536
  {
    var d := if s != [] && s[0] == '+' then s[1..] else s;
    if d == [] || !AllDigits(d) || DigitsValue(d) > 65535 then None else Some(DigitsValue(d))
  }

  function Digit(n: nat): char
    requires n < 10
  {
    (n + '0' as int) as char
  }

  function Decimal(n: nat): string { if n < 10 then [Digit(n)] else Decimal(n / 10) + [Digit(n % 10)] }

  lemma {:induction false} DecimalReads(n: nat)
    ensures var s := Decimal(n); s != [] && AllDigits(s) && DigitsValue(s) == n
    decreases n
  {
    if n >= 10 {
      DecimalReads(n / 10);
      var s := Decimal(n);
      assert s[..|s| - 1] == Decimal(n / 10);
    } else {
      assert Decimal(n)[..0] == [];
    }
  }
}
