// Decimal digit strings: reading (`BigInt(s)`), printing (`n.toString()`) and
// padding, with the laws that make the two inverse to each other.
module Decimal {

  predicate IsDigit(c: char) { '0' <= c <= '9' }

  predicate IsDigits(s: string) { forall i | 0 <= i < |s| :: IsDigit(s[i]) }

  function DigitValue(c: char): (v: nat)
    requires IsDigit(c)
    ensures v < 10
  {
    (c as int) - ('0' as int)
  }

  function DigitChar(d: nat): (c: char)
    requires d < 10
    ensures IsDigit(c) && DigitValue(c) == d
  {
    ((('0' as int) + d) as char)
  }

  function Pow10(n: nat): (p: nat)
    ensures p >= 1
  {
    if n == 0 then 1 else 10 * Pow10(n - 1)
  }

  /** The number a digit string denotes; the empty string denotes zero. */
  function Value(s: string): nat
    requires IsDigits(s)
  {
    if s == [] then 0 else 10 * Value(s[..|s| - 1]) + DigitValue(s[|s| - 1])
  }

  function NatToString(n: nat): (s: string)
    ensures IsDigits(s) && |s| >= 1 && Value(s) == n
    ensures n > 0 ==> s[0] != '0'
  {
    if n < 10 then [DigitChar(n)]
    else
      var s := NatToString(n / 10) + [DigitChar(n % 10)];
      assert s[..|s| - 1] == NatToString(n / 10);
      s
  }

  function IntToString(n: int): string
  {
    if n < 0 then "-" + NatToString(-n) else NatToString(n)
  }

  function Zeros(n: nat): (z: string)
    ensures |z| == n && IsDigits(z) && forall i | 0 <= i < n :: z[i] == '0'
  {
    seq(n, _ => '0')
  }

  function PadStart(s: string, width: nat): string
  {
    if |s| >= width then s else Zeros(width - |s|) + s
  }

  /** `s.replace(/0+$/, "")` */
  function StripZeros(s: string): (r: string)
    ensures r <= s
    ensures forall i | |r| <= i < |s| :: s[i] == '0'
    ensures r != [] ==> r[|r| - 1] != '0'
    ensures IsDigits(s) ==> IsDigits(r)
  {
    if s != [] && s[|s| - 1] == '0' then StripZeros(s[..|s| - 1]) else s
  }

  /** `(s + "000…").slice(0, width)` */
  function FixWidth(s: string, width: nat): (r: string)
    ensures |r| == width
    ensures IsDigits(s) ==> IsDigits(r)
  {
    (s + Zeros(width))[..width]
  }

  lemma {:induction false} PowerOfSum(m: nat, n: nat)
    ensures Pow10(m + n) == Pow10(m) * Pow10(n)
    decreases n
  {
    if n > 0 { PowerOfSum(m, n - 1); }
  }

  lemma {:induction false} ValueOfSnoc(s: string, c: char)
    requires IsDigits(s) && IsDigit(c)
    ensures IsDigits(s + [c]) && Value(s + [c]) == 10 * Value(s) + DigitValue(c)
  {
  }

  lemma {:induction false} ValueOfConcat(a: string, b: string)
    requires IsDigits(a) && IsDigits(b)
    ensures IsDigits(a + b)
    ensures Value(a + b) == Value(a) * Pow10(|b|) + Value(b)
    decreases |b|
  {
    if b == [] {
      assert a + b == a;
    } else {
      var init, last := b[..|b| - 1], b[|b| - 1];
      ValueOfConcat(a, init);
      assert a + b == (a + init) + [last];
      ValueOfSnoc(a + init, last);
      ScaleByTen(Value(a), Pow10(|init|), Value(init));
    }
  }

  /** BigInt `/` and `%` of nonnegative operands. */
  function Quotient(v: nat, m: nat): (q: nat)
    requires m >= 1
    ensures q * m <= v < q * m + m
  {
    v / m
  }

  function Remainder(v: nat, m: nat): (r: nat)
    requires m >= 1
    ensures r < m && v == Quotient(v, m) * m + r
  {
    v % m
  }

  /** The defining property of truncating division by a positive divisor. */
  lemma {:induction false} DivideExactly(q: nat, r: nat, m: nat)
    requires r < m
    ensures Quotient(q * m + r, m) == q && Remainder(q * m + r, m) == r
  {
    var d := Quotient(q * m + r, m);
    if d > q {
      Multiply(q + 1, d, m);
    } else if d < q {
      Multiply(d + 1, q, m);
    }
  }

  lemma {:induction false} Multiply(a: int, b: int, m: nat)
    requires a <= b
    ensures a * m <= b * m
  {
  }

  lemma {:induction false} ScaleByTen(v: nat, p: nat, w: nat)
    ensures 10 * (v * p + w) == v * (10 * p) + 10 * w
  {
  }

  lemma {:induction false} ValueBound(s: string)
    requires IsDigits(s)
    ensures Value(s) < Pow10(|s|)
    decreases |s|
  {
    if s != [] { ValueBound(s[..|s| - 1]); }
  }

  lemma {:induction false} ValueOfZeros(n: nat)
    ensures Value(Zeros(n)) == 0
  {
    if n > 0 {
      assert Zeros(n)[..n - 1] == Zeros(n - 1);
      ValueOfZeros(n - 1);
    }
  }

  lemma {:induction false} ValueOfPadded(s: string, width: nat)
    requires IsDigits(s)
    ensures IsDigits(PadStart(s, width)) && Value(PadStart(s, width)) == Value(s)
  {
    if |s| < width {
      ValueOfConcat(Zeros(width - |s|), s);
      ValueOfZeros(width - |s|);
    }
  }

  /** Printing is the only way to write a number without a redundant leading zero. */
  lemma {:induction false} PrintedFormIsUnique(s: string)
    requires IsDigits(s) && |s| >= 1 && (|s| == 1 || s[0] != '0')
    ensures NatToString(Value(s)) == s
    decreases |s|
  {
    var init := s[..|s| - 1];
    if |s| > 1 {
      PrintedFormIsUnique(init);
      assert Value(s) == 10 * Value(init) + DigitValue(s[|s| - 1]);
      LeadingDigit(init);
      assert s == init + [s[|s| - 1]];
    } else {
      assert init == [];
    }
  }

  /** A leading nonzero digit makes the number positive. */
  lemma {:induction false} LeadingDigit(s: string)
    requires IsDigits(s) && |s| >= 1 && s[0] != '0'
    ensures Value(s) >= 1
    decreases |s|
  {
    if |s| > 1 { LeadingDigit(s[..|s| - 1]); }
  }

  lemma {:induction false} LeadingZeroIsWorthless(s: string)
    requires IsDigits(s) && |s| >= 1 && s[0] == '0'
    ensures Value(s) == Value(s[1..])
  {
    ValueOfConcat(s[..1], s[1..]);
    assert s[..1] + s[1..] == s && s[..1] == Zeros(1);
    ValueOfZeros(1);
  }

  /** Padding a printed number to the width of a digit string restores that string. */
  lemma {:induction false} PaddedFormIsUnique(s: string)
    requires IsDigits(s) && |s| >= 1
    ensures PadStart(NatToString(Value(s)), |s|) == s
    decreases |s|
  {
    if |s| == 1 || s[0] != '0' {
      PrintedFormIsUnique(s);
    } else {
      LeadingZeroIsWorthless(s);
      PaddedFormIsUnique(s[1..]);
      var t := NatToString(Value(s));
      assert s == [s[0]] + PadStart(t, |s| - 1);
      assert |t| <= |s| - 1;
      assert [s[0]] + Zeros(|s| - 1 - |t|) == Zeros(|s| - |t|);
    }
  }

  /** Cutting trailing zeros loses nothing once the width is restored. */
  lemma {:induction false} StripThenFix(s: string)
    ensures FixWidth(StripZeros(s), |s|) == s
  {
  }
}
