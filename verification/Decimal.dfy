// Decimal numerals, as the formatter writes them into labels and object paths.

module Decimals {
  function Digit(n: nat): char
    requires n < 10
  {
    "0123456789"[n]
  }

  function Decimal(n: nat): (s: string) {
    if n < 10 then [Digit(n)] else Decimal(n / 10) + [Digit(n % 10)]
  }

  function DigitValue(c: char): nat { if '0' <= c <= '9' then c as nat - '0' as nat else 0 }

  function Numeral(s: string): nat {
    if s == [] then 0 else Numeral(s[..|s| - 1]) * 10 + DigitValue(s[|s| - 1])
  }

  predicate IsDigit(c: char) { '0' <= c <= '9' }

  lemma DigitReadsBack(n: nat)
    requires n < 10
    ensures IsDigit(Digit(n)) && DigitValue(Digit(n)) == n
  {
  }

  lemma NumeralSnoc(s: string, c: char)
    ensures Numeral(s + [c]) == Numeral(s) * 10 + DigitValue(c)
  {
    assert (s + [c])[..|s|] == s;
  }

  lemma {:induction false} DecimalReadsBack(n: nat)
    ensures Numeral(Decimal(n)) == n
    ensures Decimal(n) != [] && forall k :: 0 <= k < |Decimal(n)| ==> IsDigit(Decimal(n)[k])
  {
    DigitReadsBack(n % 10);
    if n < 10 {
      NumeralSnoc([], Digit(n));
      assert [] + [Digit(n)] == [Digit(n)];
    } else {
      DecimalReadsBack(n / 10);
      NumeralSnoc(Decimal(n / 10), Digit(n % 10));
    }
  }

  // Different numbers have different numerals.
  lemma DecimalInjective(a: nat, b: nat)
    requires Decimal(a) == Decimal(b)
    ensures a == b
  {
    DecimalReadsBack(a);
    DecimalReadsBack(b);
  }

  function Zeros(k: nat): string { if k == 0 then [] else ['0'] + Zeros(k - 1) }

  // Padded with zeros on the left to a width, but never cut.
  function Padded(n: nat, width: nat): string {
    var d := Decimal(n);
    if |d| < width then Zeros(width - |d|) + d else d
  }

  lemma {:induction false} LeadingZeros(k: nat, s: string)
    ensures Numeral(Zeros(k) + s) == Numeral(s)
    decreases k, |s|
  {
    if s == [] {
      if k > 0 {
        LeadingZeros(k - 1, []);
        ZerosSnoc(k - 1);
        assert Zeros(k) + [] == Zeros(k) && Zeros(k - 1) + [] == Zeros(k - 1);
        assert Zeros(k)[..k - 1] == Zeros(k - 1);
      } else {
        assert Zeros(0) + s == s;
      }
    } else {
      var t := s[..|s| - 1];
      LeadingZeros(k, t);
      assert (Zeros(k) + s)[..|Zeros(k) + s| - 1] == Zeros(k) + t;
    }
  }

  lemma {:induction false} ZerosSnoc(k: nat)
    ensures Zeros(k + 1) == Zeros(k) + ['0'] && |Zeros(k)| == k
  {
    if k > 0 { ZerosSnoc(k - 1); }
  }

  lemma PaddedInjective(a: nat, b: nat, width: nat)
    requires Padded(a, width) == Padded(b, width)
    ensures a == b
  {
    DecimalReadsBack(a);
    DecimalReadsBack(b);
    if |Decimal(a)| < width { LeadingZeros(width - |Decimal(a)|, Decimal(a)); }
    if |Decimal(b)| < width { LeadingZeros(width - |Decimal(b)|, Decimal(b)); }
  }

  lemma PaddedStartsWithDigit(n: nat, width: nat)
    ensures Padded(n, width) != [] && IsDigit(Padded(n, width)[0])
  {
    DecimalReadsBack(n);
  }
}
