/** strconv.FormatInt and strconv.ParseInt in base ten, for 64-bit signed integers. */
module Decimal {
  import opened Kube

  const MinInt64 := -0x8000_0000_0000_0000
  const MaxInt64 := 0x7fff_ffff_ffff_ffff

  predicate Int64(x: int) { MinInt64 <= x <= MaxInt64 }

  function DigitChar(d: nat): char
    requires d < 10
  {
    (d + '0' as int) as char
  }

  predicate IsDigit(c: char) { '0' <= c <= '9' }

  function DigitValue(c: char): nat
    requires IsDigit(c)
  {
    c as int - '0' as int
  }

  function FormatNat(n: nat): (s: string)
    ensures s != "" && forall i :: 0 <= i < |s| ==> IsDigit(s[i])
  {
    if n < 10 then [DigitChar(n)] else FormatNat(n / 10) + [DigitChar(n % 10)]
  }

  function FormatInt(x: int): string {
    if x < 0 then "-" + FormatNat(-x) else FormatNat(x)
  }

  predicate AllDigits(s: string) {
    forall i :: 0 <= i < |s| ==> IsDigit(s[i])
  }

  function NatValue(s: string): nat
    requires AllDigits(s)
  {
    if s == "" then 0 else NatValue(s[..|s| - 1]) * 10 + DigitValue(s[|s| - 1])
  }

  /** An optional sign, at least one digit, nothing else, and a value in range. */
  function ParseInt(s: string): (r: Option<int>)
    ensures r.Some? ==> Int64(r.value)
  {
    var negative := s != "" && s[0] == '-';
    var digits := if s != "" && (s[0] == '-' || s[0] == '+') then s[1..] else s;
    if digits == "" || !AllDigits(digits) then None
    else
      var x := if negative then 0 - NatValue(digits) else NatValue(digits);
      if Int64(x) then Some(x) else None
  }

  /** The digits are those of the decimal system, the last one last. */
  lemma FormatIsDecimal(n: nat, d: nat)
    requires d < 10
    ensures FormatNat(d) == ["0123456789"[d]]
    ensures n > 0 ==> FormatNat(10 * n + d) == FormatNat(n) + ["0123456789"[d]]
  {
    assert DigitChar(d) == "0123456789"[d];
    assert (10 * n + d) / 10 == n && (10 * n + d) % 10 == d;
  }

  lemma {:induction false} NatRoundTrip(n: nat)
    ensures NatValue(FormatNat(n)) == n
  {
    if n >= 10 {
      NatRoundTrip(n / 10);
      var s := FormatNat(n);
      assert s[..|s| - 1] == FormatNat(n / 10);
    } else {
      assert FormatNat(n)[..0] == "";
    }
  }

  /** What FormatInt writes, ParseInt reads back: every 64-bit integer, both signs, both bounds. */
  lemma RoundTrip(x: int)
    requires Int64(x)
    ensures ParseInt(FormatInt(x)) == Some(x)
  {
    var n := if x < 0 then -x else x;
    NatRoundTrip(n);
    var s := FormatNat(n);
    assert IsDigit(s[0]);
    if x < 0 {
      assert FormatInt(x)[1..] == s;
    }
  }
}
