/** Decimal numerals, shared by the printers and readers of subtitles and of JSON. */
module Numerals {
  function Digit(d: nat): char
    requires d < 10
  {
    ('0' as int + d) as char
  }

  predicate IsDigit(c: char) { '0' <= c <= '9' }

  predicate Digits(s: string) { forall i | 0 <= i < |s| :: IsDigit(s[i]) }

  function Decimal(n: nat): string
  {
    if n < 10 then [Digit(n)] else Decimal(n / 10) + [Digit(n % 10)]
  }

  function Zeros(n: nat): string { seq(n, _ => '0') }

  /** At least `width` digits, as the format specification `0width` prints them. */
  function Padded(width: nat, n: nat): string
  {
    var digits := Decimal(n);
    if |digits| < width then Zeros(width - |digits|) + digits else digits
  }

  lemma {:induction false} DecimalIsDigits(n: nat)
    ensures Decimal(n) != "" && Digits(Decimal(n))
    decreases n
  {
    if n >= 10 { DecimalIsDigits(n / 10); }
  }

  lemma PaddedIsDigits(width: nat, n: nat)
    ensures Padded(width, n) != "" && Digits(Padded(width, n))
  {
    DecimalIsDigits(n);
  }

  function ValueOf(s: string): int
  {
    if s == "" then 0 else ValueOf(s[..|s| - 1]) * 10 + (s[|s| - 1] as int - '0' as int)
  }

  lemma {:induction false} DecimalValue(n: nat)
    ensures ValueOf(Decimal(n)) == n
    decreases n
  {
    var s := Decimal(n);
    if n < 10 {
      assert s[..|s| - 1] == "";
    } else {
      DecimalValue(n / 10);
      assert s[..|s| - 1] == Decimal(n / 10);
    }
  }

  lemma {:induction false} LeadingZeros(k: nat, s: string)
    ensures ValueOf(Zeros(k) + s) == ValueOf(s)
    decreases k + |s|
  {
    var z := Zeros(k) + s;
    if s != "" {
      assert z[..|z| - 1] == Zeros(k) + s[..|s| - 1];
      LeadingZeros(k, s[..|s| - 1]);
    } else if k > 0 {
      assert z[..|z| - 1] == Zeros(k - 1) + "";
      LeadingZeros(k - 1, "");
    }
  }

  lemma PaddedValue(width: nat, n: nat)
    ensures ValueOf(Padded(width, n)) == n
  {
    DecimalValue(n);
    if |Decimal(n)| < width { LeadingZeros(width - |Decimal(n)|, Decimal(n)); }
  }

  lemma PaddedWidth(n: nat)
    ensures n < 100 ==> |Padded(2, n)| == 2
    ensures n < 1000 ==> |Padded(3, n)| == 3
  {
    if n < 1000 {
      assert |Decimal(n)| == (if n < 10 then 1 else if n < 100 then 2 else 3) by {
        assert n >= 10 ==> |Decimal(n)| == |Decimal(n / 10)| + 1;
        assert n >= 100 ==> |Decimal(n / 10)| == |Decimal(n / 10 / 10)| + 1;
      }
    }
  }
}
