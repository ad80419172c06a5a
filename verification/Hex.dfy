/** Fixed-width lower-case hexadecimal, as both printers write it and both readers read it. */
module Hex {
  import opened Options

  const DIGITS := "0123456789abcdef"

  function Power(width: nat): nat { if width == 0 then 1 else 16 * Power(width - 1) }

  function ToHex(n: nat, width: nat): (s: string)
    ensures |s| == width
  {
    if width == 0 then "" else ToHex(n / 16, width - 1) + [DIGITS[n % 16]]
  }

  function DigitValue(c: char): Option<nat> {
    if '0' <= c <= '9' then Some((c - '0') as nat)
    else if 'a' <= c <= 'f' then Some(10 + (c - 'a') as nat)
    else if 'A' <= c <= 'F' then Some(10 + (c - 'A') as nat)
    else None
  }

  function FromHex(s: string): Option<nat> {
    if s == "" then Some(0)
    else
      var high, low := FromHex(s[..|s| - 1]), DigitValue(s[|s| - 1]);
      if high.Some? && low.Some? then Some(16 * high.value + low.value) else None
  }

  lemma DigitRoundTrip(n: nat)
    requires n < 16
    ensures DigitValue(DIGITS[n]) == Some(n)
  {
    assert DIGITS[10..] == "abcdef" && DIGITS[..10] == "0123456789";
    assert n < 10 ==> DIGITS[n] == DIGITS[..10][n];
    assert n >= 10 ==> DIGITS[n] == DIGITS[10..][n - 10];
  }

  lemma FromHexAppend(s: string, c: char)
    ensures FromHex(s + [c]) ==
      if FromHex(s).Some? && DigitValue(c).Some? then Some(16 * FromHex(s).value + DigitValue(c).value) else None
  {
    assert (s + [c])[..|s + [c]| - 1] == s;
  }

  lemma {:induction false} HexRoundTrip(n: nat, width: nat)
    requires n < Power(width)
    ensures FromHex(ToHex(n, width)) == Some(n)
  {
    if width > 0 {
      var high, low := n / 16, n % 16;
      assert n == 16 * high + low && high < Power(width - 1);
      HexRoundTrip(high, width - 1);
      DigitRoundTrip(low);
      FromHexAppend(ToHex(high, width - 1), DIGITS[low]);
    }
  }
}
