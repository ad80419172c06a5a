/** Runs of decimal digits and the numbers they stand for. */
module Decimal {

  predicate IsDigit(c: char) { '0' <= c <= '9' }

  predicate AllDigits(s: string) { forall i | 0 <= i < |s| :: IsDigit(s[i]) }

  function Value(digits: string): nat
    requires AllDigits(digits)
  {
    if digits == "" then 0 else 10 * Value(digits[..|digits| - 1]) + (digits[|digits| - 1] - '0') as nat
  }

  /** No leading zero, but for zero itself. */
  predicate Canonical(digits: string) {
    digits != "" && AllDigits(digits) && (digits[0] == '0' ==> |digits| == 1)
  }

  lemma {:induction false} CanonicalIsPositive(s: string)
    requires Canonical(s) && s[0] != '0'
    ensures Value(s) >= 1
  {
    if |s| > 1 {
      CanonicalIsPositive(s[..|s| - 1]);
    }
  }

  /** Without leading zeros a number is written one way only. */
  lemma {:induction false} ValueDetermines(s: string, t: string)
    requires Canonical(s) && Canonical(t) && Value(s) == Value(t)
    ensures s == t
  {
    var p, q := s[..|s| - 1], t[..|t| - 1];
    assert AllDigits(p) && AllDigits(q);
    assert s == p + [s[|s| - 1]] && t == q + [t[|t| - 1]];
    assert Value(s) % 10 == (s[|s| - 1] - '0') as nat && Value(s) / 10 == Value(p);
    assert Value(t) % 10 == (t[|t| - 1] - '0') as nat && Value(t) / 10 == Value(q);
    if |s| > 1 {
      CanonicalIsPositive(p);
    }
    if |t| > 1 {
      CanonicalIsPositive(q);
    }
    if |s| > 1 && |t| > 1 {
      ValueDetermines(p, q);
    }
  }

  lemma {:induction false} LeadingZero(s: string)
    requires AllDigits(s)
    ensures AllDigits("0" + s) && Value("0" + s) == Value(s)
  {
    var z := "0" + s;
    if s == "" {
      assert z == "0" && z[..0] == "";
    } else {
      assert z[..|z| - 1] == "0" + s[..|s| - 1];
      LeadingZero(s[..|s| - 1]);
    }
  }

  // ----- Printing -----

  function Digit(d: nat): char
    requires d < 10
  {
    '0' + d as char
  }

  function Printed(n: nat): (s: string)
    ensures s != ""
  {
    if n < 10 then [Digit(n)] else Printed(n / 10) + [Digit(n % 10)]
  }

  /** A printed number is canonical and reads back as itself. */
  lemma {:induction false} PrintedReadsBack(n: nat)
    ensures AllDigits(Printed(n)) && Value(Printed(n)) == n
    ensures Canonical(Printed(n)) && (n > 0 ==> Printed(n)[0] != '0')
  {
    var s := Printed(n);
    if n < 10 {
      assert s[..0] == "";
    } else {
      PrintedReadsBack(n / 10);
      assert s[..|s| - 1] == Printed(n / 10);
    }
  }
}
