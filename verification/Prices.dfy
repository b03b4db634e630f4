// Decimal price strings and atomic amounts: the facilitator's codec
// (packages/x402-facilitator/src/challenge.ts), the quote engine's and the
// wallet UI's own copies, and the laws that connect them.
module Prices {
  import opened Prelude
  import opened Decimal

  function IndexOf(s: string, c: char): (k: nat)
    ensures k <= |s|
    ensures forall i | 0 <= i < k :: s[i] != c
    ensures k < |s| ==> s[k] == c
  {
    if s == [] || s[0] == c then 0 else 1 + IndexOf(s[1..], c)
  }

  /** `const [whole, frac = ""] = price.split(".")` */
  function Whole(p: string): string { p[..IndexOf(p, '.')] }

  function Frac(p: string): string
  {
    var dot := IndexOf(p, '.');
    if dot == |p| then "" else
      var rest := p[dot + 1..];
      rest[..IndexOf(rest, '.')]
  }

  /** The pattern `^[0-9]+(\.[0-9]+)?$`. */
  predicate WellFormed(p: string)
  {
    var dot := IndexOf(p, '.');
    dot >= 1 && IsDigits(p[..dot]) && (dot == |p| || (dot + 1 < |p| && IsDigits(p[dot + 1..])))
  }

  function PriceToAtomic(price: string, decimals: nat): Option<nat>
  {
    if WellFormed(price) then
      SplitOfWellFormed(price);
      Some(Value(Whole(price) + FixWidth(Frac(price), decimals)))
    else None
  }

  /** JavaScript's `slice(0, -d)` and `slice(-d)` cut at `length - d`, except
      that `-0` cuts at the start. */
  function AtomicToPrice(atomic: int, decimals: nat): string
  {
    var s := PadStart(IntToString(atomic), decimals + 1);
    var cut := if decimals == 0 then 0 else |s| - decimals;
    Join(s[..cut], StripZeros(s[cut..]))
  }

  function Join(whole: string, frac: string): string
  {
    if frac != "" then whole + "." + frac else whole
  }

  /** The quote engine's parser, fixed at six decimals. */
  function QuoteAtomic(p: string): Option<nat>
  {
    if WellFormed(p) then
      SplitOfWellFormed(p);
      Some(Value(Whole(p) + (Frac(p) + "000000")[..6]))
    else None
  }

  /** The rehearsal script's parser; it has no pattern check of its own. */
  function ArithmeticAtomic(p: string, decimals: nat): nat
    requires WellFormed(p)
  {
    SplitOfWellFormed(p);
    var frac := FixWidth(Frac(p), decimals);
    Value(Whole(p)) * Pow10(decimals) + Value(if frac == "" then "0" else frac)
  }

  /** The rational number a price denotes, times 10^decimals, rounded down: the
      reference every parser is compared with. */
  function ScaledFloor(p: string, decimals: nat): nat
    requires WellFormed(p)
  {
    SplitOfWellFormed(p);
    DigitsOfConcat(Whole(p), Frac(p));
    Quotient(Value(Whole(p) + Frac(p)) * Pow10(decimals), Pow10(|Frac(p)|))
  }

  /** White space and line terminators, as `String.prototype.trim` removes them. */
  predicate IsSpace(c: char)
  {
    var n := c as int;
    9 <= n <= 13 || n == 0x20 || n == 0xA0 || n == 0x1680 || 0x2000 <= n <= 0x200A || n == 0x2028 ||
    n == 0x2029 || n == 0x202F || n == 0x205F || n == 0x3000 || n == 0xFEFF
  }

  function TrimStart(s: string): string
  {
    if s != [] && IsSpace(s[0]) then TrimStart(s[1..]) else s
  }

  function TrimEnd(s: string): string
  {
    if s != [] && IsSpace(s[|s| - 1]) then TrimEnd(s[..|s| - 1]) else s
  }

  /** The wallet UI's parser: `trim`, `padEnd(decimals, "0")`, arithmetic. */
  function DecimalToAtomic(value: string, decimals: nat): Option<nat>
  {
    var clean := TrimEnd(TrimStart(value));
    if WellFormed(clean) then
      SplitOfWellFormed(clean);
      var frac := Frac(clean);
      var padded := if |frac| >= decimals then frac else frac + Zeros(decimals - |frac|);
      var fraction := padded[..decimals];
      assert IsDigits(fraction);
      Some(Value(Whole(clean)) * Pow10(decimals) + Value(if fraction == "" then "0" else fraction))
    else None
  }

  /** The wallet UI's printer: `digits` fractional characters at most. */
  function FormatUnits(value: nat, decimals: nat, digits: nat): string
  {
    var base := Pow10(decimals);
    var padded := PadStart(NatToString(Remainder(value, base)), decimals);
    NatToString(Quotient(value, base)) + "." + padded[..Min(digits, |padded|)]
  }

  /** Half of the base price, or the base price itself when half rounds to zero. */
  function PriceFloor(price: string): string
    requires WellFormed(price)
  {
    SplitOfWellFormed(price);
    var floor := Value(Whole(price) + (Frac(price) + "000000")[..6]) / 2;
    if floor == 0 then price else AtomicToPrice(floor, 6)
  }

  // ---- the shape of a price string ----

  lemma {:induction false} SplitOfWellFormed(p: string)
    requires WellFormed(p)
    ensures IsDigits(Whole(p)) && IsDigits(Frac(p)) && |Whole(p)| >= 1
    ensures p == Join(Whole(p), Frac(p))
  {
  }

  /** A string built from digits by `Join` splits back into its parts. */
  lemma {:induction false} SplitOfJoin(whole: string, frac: string)
    requires IsDigits(whole) && |whole| >= 1 && IsDigits(frac)
    ensures WellFormed(Join(whole, frac))
    ensures Whole(Join(whole, frac)) == whole && Frac(Join(whole, frac)) == frac
  {
    var p := Join(whole, frac);
    var dot := IndexOf(p, '.');
    assert forall i | 0 <= i < |whole| :: IsDigit(p[i]);
    assert |whole| < |p| ==> p[|whole|] == '.';
    assert dot == |whole|;
    assert p[..dot] == whole;
    if frac != "" {
      assert p[dot + 1..] == frac;
      DigitsHaveNoDot(frac);
    }
  }

  lemma {:induction false} DigitsHaveNoDot(s: string)
    requires IsDigits(s)
    ensures IndexOf(s, '.') == |s|
  {
  }

  // ---- round trips ----

  /** The codec is lossless exactly for the amounts and decimals it is meant for. */
  lemma {:induction false} RoundTrip(n: int, d: nat)
    ensures PriceToAtomic(AtomicToPrice(n, d), d) == Some(n) <==> n >= 0 && d >= 1
    ensures n >= 0 && d >= 1 ==> WellFormed(AtomicToPrice(n, d))
  {
    if d == 0 {
      NoDecimalsIsMalformed(n);
    } else if n < 0 {
      NegativeIsMalformed(n, d);
    } else {
      PrintsAndParses(n, d);
    }
  }

  lemma {:induction false} PrintsAndParses(n: nat, d: nat)
    requires d >= 1
    ensures WellFormed(AtomicToPrice(n, d)) && PriceToAtomic(AtomicToPrice(n, d), d) == Some(n)
  {
    hide IsDigits, Value, Pow10, FixWidth, NatToString, StripZeros, IndexOf;
    PrintedSplit(n, d);
    var s := PrintedDigits(n, d);
    StripThenFix(s[|s| - d..]);
    assert s[..|s| - d] + s[|s| - d..] == s;
  }

  /** The digits the printer cuts into whole and fraction. */
  function PrintedDigits(n: nat, d: nat): (s: string)
    ensures IsDigits(s) && |s| >= d + 1 && Value(s) == n
  {
    ValueOfPadded(NatToString(n), d + 1);
    PadStart(NatToString(n), d + 1)
  }

  lemma {:induction false} PrintedSplit(n: nat, d: nat)
    requires d >= 1
    ensures WellFormed(AtomicToPrice(n, d))
    ensures var s := PrintedDigits(n, d);
            Whole(AtomicToPrice(n, d)) == s[..|s| - d] && Frac(AtomicToPrice(n, d)) == StripZeros(s[|s| - d..])
  {
    hide IsDigits, Value, NatToString, StripZeros, IndexOf, WellFormed, Whole, Frac, Join;
    var s := PrintedDigits(n, d);
    SplitOfCut(s, |s| - d);
  }

  lemma {:induction false} SplitOfCut(s: string, cut: nat)
    requires IsDigits(s) && 1 <= cut <= |s|
    ensures var p := Join(s[..cut], StripZeros(s[cut..]));
            WellFormed(p) && Whole(p) == s[..cut] && Frac(p) == StripZeros(s[cut..])
  {
    assert IsDigits(s[..cut]) && IsDigits(s[cut..]);
    SplitOfJoin(s[..cut], StripZeros(s[cut..]));
  }

  lemma {:induction false} NoDecimalsIsMalformed(n: int)
    ensures !WellFormed(AtomicToPrice(n, 0))
  {
  }

  lemma {:induction false} NegativeIsMalformed(n: int, d: nat)
    requires n < 0 && d >= 1
    ensures !WellFormed(AtomicToPrice(n, d))
  {
    var text := IntToString(n);
    var s := PadStart(text, d + 1);
    var minus := |s| - |text|;
    assert text[0] == '-' && s[minus] == '-';
    var cut := |s| - d;
    var frac := StripZeros(s[cut..]);
    var p := AtomicToPrice(n, d);
    if minus < cut {
      assert p[minus] == '-';
    } else {
      assert s[cut..][minus - cut] == '-';
      assert frac[minus - cut] == '-';
      assert p[cut + 1 + (minus - cut)] == '-';
    }
    assert exists k :: 0 <= k < |p| && p[k] == '-';
    MinusIsMalformed(p);
  }

  lemma {:induction false} MinusIsMalformed(p: string)
    requires exists k :: 0 <= k < |p| && p[k] == '-'
    ensures !WellFormed(p)
  {
  }

  // ---- normal form ----

  /** What printing after parsing yields. */
  function Normalize(p: string, d: nat): string
    requires WellFormed(p)
  {
    AtomicToPrice(PriceToAtomic(p, d).value, d)
  }

  /** No redundant leading zero, no trailing fractional zero, no digit below the atomic unit. */
  predicate Canonical(p: string, d: nat)
  {
    WellFormed(p) &&
    (|Whole(p)| == 1 || Whole(p)[0] != '0') &&
    |Frac(p)| <= d &&
    (Frac(p) != "" ==> Frac(p)[|Frac(p)| - 1] != '0')
  }

  /** Normalizing is idempotent, and two prices share a normal form exactly when
      they denote the same atomic amount. */
  lemma {:induction false} NormalFormDecidesValue(p: string, q: string, d: nat)
    requires WellFormed(p) && WellFormed(q) && d >= 1
    ensures WellFormed(Normalize(p, d)) && Normalize(Normalize(p, d), d) == Normalize(p, d)
    ensures Normalize(p, d) == Normalize(q, d) <==> PriceToAtomic(p, d) == PriceToAtomic(q, d)
  {
    RoundTrip(PriceToAtomic(p, d).value, d);
    RoundTrip(PriceToAtomic(q, d).value, d);
  }

  /** The printer's outputs are exactly the canonical strings. */
  lemma {:induction false} FixedPointsAreCanonical(p: string, d: nat)
    requires WellFormed(p) && d >= 1
    ensures Normalize(p, d) == p <==> Canonical(p, d)
  {
    PrintedIsCanonical(PriceToAtomic(p, d).value, d);
    if Canonical(p, d) {
      SplitOfWellFormed(p);
      PrintedDigitsOfCanonical(Whole(p), FixWidth(Frac(p), d));
      FixThenStrip(Frac(p), d);
    }
  }

  lemma {:induction false} PrintedDigitsOfCanonical(whole: string, fixed: string)
    requires IsDigits(whole) && IsDigits(fixed) && |whole| >= 1 && |fixed| >= 1
    requires |whole| == 1 || whole[0] != '0'
    ensures IsDigits(whole + fixed) && PrintedDigits(Value(whole + fixed), |fixed|) == whole + fixed
    ensures (whole + fixed)[..|whole|] == whole && (whole + fixed)[|whole|..] == fixed
  {
    var s := whole + fixed;
    if |whole| == 1 {
      PaddedFormIsUnique(s);
    } else {
      PrintedFormIsUnique(s);
    }
  }

  lemma {:induction false} FixThenStrip(frac: string, d: nat)
    requires |frac| <= d && (frac != "" ==> frac[|frac| - 1] != '0')
    ensures StripZeros(FixWidth(frac, d)) == frac
  {
    var f := FixWidth(frac, d);
    assert f == frac + Zeros(d - |frac|);
    assert forall i | |frac| <= i < |f| :: f[i] == '0';
    assert frac != "" ==> f[|frac| - 1] == frac[|frac| - 1];
    var r := StripZeros(f);
    assert |r| == |frac|;
  }

  lemma {:induction false} PrintedIsCanonical(n: nat, d: nat)
    requires d >= 1
    ensures Canonical(AtomicToPrice(n, d), d)
  {
    PrintedSplit(n, d);
    LongIsPositive(n);
  }

  lemma {:induction false} LongIsPositive(n: nat)
    ensures |NatToString(n)| > 1 ==> n > 0 && NatToString(n)[0] != '0'
  {
  }

  // ---- the copies agree ----

  /** All copies of the parser compute the floor of the rational price scaled to
      atomic units. */
  lemma {:induction false} ParsersAgree(p: string, d: nat)
    requires WellFormed(p)
    ensures PriceToAtomic(p, d) == Some(ArithmeticAtomic(p, d))
    ensures DecimalToAtomic(p, d) == PriceToAtomic(p, d)
    ensures QuoteAtomic(p) == PriceToAtomic(p, 6)
    ensures ArithmeticAtomic(p, d) == ScaledFloor(p, d)
  {
    ParseIsArithmetic(p, d);
    ArithmeticIsFloor(p, d);
    TrimmedParse(p, d);
    QuoteParse(p);
  }

  lemma {:induction false} QuoteParse(p: string)
    ensures QuoteAtomic(p) == PriceToAtomic(p, 6)
  {
    assert "000000" == Zeros(6);
  }

  lemma {:induction false} ArithmeticIsFloor(p: string, d: nat)
    requires WellFormed(p)
    ensures ArithmeticAtomic(p, d) == ScaledFloor(p, d)
  {
    SplitOfWellFormed(p);
    ZeroReadsAsZero(FixWidth(Frac(p), d));
    FloorOfScaled(Whole(p), Frac(p), d);
  }

  lemma {:induction false} ParseIsArithmetic(p: string, d: nat)
    requires WellFormed(p)
    ensures PriceToAtomic(p, d) == Some(ArithmeticAtomic(p, d))
  {
    hide IsDigits, Value, Pow10, FixWidth, NatToString, StripZeros, IndexOf;
    SplitOfWellFormed(p);
    ValueOfConcat(Whole(p), FixWidth(Frac(p), d));
    ZeroReadsAsZero(FixWidth(Frac(p), d));
  }

  lemma {:induction false} TrimmedParse(p: string, d: nat)
    requires WellFormed(p)
    ensures DecimalToAtomic(p, d) == PriceToAtomic(p, d)
  {
    NothingToTrim(p);
    SplitOfWellFormed(p);
    ValueOfConcat(Whole(p), FixWidth(Frac(p), d));
    ZeroReadsAsZero(FixWidth(Frac(p), d));
    PadEndIsFixWidth(Frac(p), d);
  }

  lemma {:induction false} ZeroReadsAsZero(frac: string)
    requires IsDigits(frac)
    ensures Value(if frac == "" then "0" else frac) == Value(frac)
  {
  }

  lemma {:induction false} PadEndIsFixWidth(frac: string, d: nat)
    ensures (if |frac| >= d then frac else frac + Zeros(d - |frac|))[..d] == FixWidth(frac, d)
  {
  }

  lemma {:induction false} NothingToTrim(p: string)
    requires WellFormed(p)
    ensures TrimEnd(TrimStart(p)) == p
  {
  }

  /** White space around a price does not matter to the wallet's parser. */
  lemma {:induction false} PaddedPriceReads(before: string, p: string, after: string, d: nat)
    requires WellFormed(p) && (forall c | c in before :: IsSpace(c)) && (forall c | c in after :: IsSpace(c))
    ensures DecimalToAtomic(before + p + after, d) == PriceToAtomic(p, d)
  {
    TrimsBefore(before, p + after);
    assert before + p + after == before + (p + after);
    TrimsAfter(p, after);
    TrimmedParse(p, d);
    NothingToTrim(p);
  }

  /** The 25 characters trimmed: no digit, dot or sign is among them. */
  lemma {:induction false} SpacesExactly(c: char)
    ensures IsSpace(c) <==>
              c as int in {9, 10, 11, 12, 13, 32, 160, 5760, 8192, 8193, 8194, 8195, 8196, 8197, 8198, 8199, 8200, 8201, 8202,
                           8232, 8233, 8239, 8287, 12288, 65279}
    ensures IsDigit(c) || c == '.' || c == '-' ==> !IsSpace(c)
  {
  }

  lemma {:induction false} TrimsBefore(before: string, rest: string)
    requires forall c | c in before :: IsSpace(c)
    ensures TrimStart(before + rest) == TrimStart(rest)
    decreases |before|
  {
    if before == [] {
      assert before + rest == rest;
    } else {
      assert before[0] in before && (before + rest)[1..] == before[1..] + rest;
      TrimsBefore(before[1..], rest);
    }
  }

  lemma {:induction false} TrimsAfter(p: string, after: string)
    requires WellFormed(p) && forall c | c in after :: IsSpace(c)
    ensures TrimEnd(TrimStart(p + after)) == p
    decreases |after|
  {
    assert IsDigit(p[0]) && (p + after)[0] == p[0];
    if after == [] {
      assert p + after == p;
      NothingToTrim(p);
    } else {
      var n := |after| - 1;
      assert after[n] in after && (p + after)[..|p + after| - 1] == p + after[..n];
      TrimsAfter(p, after[..n]);
    }
  }

  lemma {:induction false} DigitsOfConcat(a: string, b: string)
    requires IsDigits(a) && IsDigits(b)
    ensures IsDigits(a + b)
  {
  }

  lemma {:induction false} FloorOfScaled(whole: string, frac: string, d: nat)
    requires IsDigits(whole) && IsDigits(frac)
    ensures IsDigits(whole + frac) && IsDigits(FixWidth(frac, d))
    ensures Value(whole) * Pow10(d) + Value(FixWidth(frac, d)) == Quotient(Value(whole + frac) * Pow10(d), Pow10(|frac|))
  {
    ValueOfConcat(whole, frac);
    var w := Value(whole);
    if |frac| <= d {
      var k := d - |frac|;
      assert FixWidth(frac, d) == frac + Zeros(k);
      ValueOfConcat(frac, Zeros(k));
      ValueOfZeros(k);
      PowerOfSum(|frac|, k);
      ScaleUp(w, Value(frac), Pow10(|frac|), Pow10(k));
    } else {
      var k := |frac| - d;
      assert frac == frac[..d] + frac[d..] && FixWidth(frac, d) == frac[..d];
      ValueOfConcat(frac[..d], frac[d..]);
      ValueBound(frac[d..]);
      PowerOfSum(d, k);
      ScaleDown(w, Value(frac[..d]), Value(frac[d..]), Pow10(d), Pow10(k));
    }
  }

  lemma {:induction false} ScaleUp(w: nat, f: nat, a: nat, b: nat)
    requires a >= 1 && b >= 1
    ensures Quotient((w * a + f) * (a * b), a) == w * (a * b) + f * b
  {
    var v := w * a + f;
    assert v * (a * b) == (v * b) * a + 0;
    DivideExactly(v * b, 0, a);
    assert v * b == w * (a * b) + f * b;
  }

  lemma {:induction false} Distribute(q: nat, b: nat, r: nat, a: nat)
    ensures (q * b + r) * a == q * (a * b) + r * a
    ensures (q * b + r) * a == q * (b * a) + r * a
  {
  }

  lemma {:induction false} ScaleDown(w: nat, hi: nat, lo: nat, a: nat, b: nat)
    requires a >= 1 && b >= 1 && lo < b
    ensures Quotient((w * (a * b) + (hi * b + lo)) * a, a * b) == w * a + hi
  {
    var q, r := w * a + hi, lo * a;
    Distribute(w, a, hi, b);
    Distribute(q, b, lo, a);
    Multiply(lo + 1, b, a);
    DivideExactly(q, r, a * b);
  }

  // ---- the wallet UI's pair ----

  /** Formatting with `g >= 1` digits and parsing back keeps the value when all
      decimals are shown and otherwise cuts it to a multiple of 10^(d-g). */
  lemma {:induction false} FormatThenParse(v: nat, d: nat, g: nat)
    ensures DecimalToAtomic(FormatUnits(v, d, g), d)
         == if g == 0 then None else Some(v - Remainder(v, Pow10(if g < d then d - g else 0)))
  {
    hide IsDigits, Value, Pow10, FixWidth, NatToString, StripZeros, IndexOf;
    var whole := NatToString(Quotient(v, Pow10(d)));
    var padded := PadStart(NatToString(Remainder(v, Pow10(d))), d);
    ValueOfPadded(NatToString(Remainder(v, Pow10(d))), d);
    if g == 0 {
      assert FormatUnits(v, d, g) == whole + ".";
      TrailingDot(whole, d);
    } else {
      ShownDigits(v, d, g, padded);
      ParseJoined(whole, padded[..Min(g, |padded|)], d);
    }
  }

  lemma {:induction false} ParseJoined(whole: string, frac: string, d: nat)
    requires IsDigits(whole) && |whole| >= 1 && IsDigits(frac) && frac != ""
    ensures DecimalToAtomic(Join(whole, frac), d) == Some(Value(whole) * Pow10(d) + Value(FixWidth(frac, d)))
  {
    hide IsDigits, Value, Pow10, FixWidth, NatToString, StripZeros, IndexOf;
    SplitOfJoin(whole, frac);
    ArithmeticOfJoined(whole, frac, d);
    TrimmedParse(Join(whole, frac), d);
    ParseIsArithmetic(Join(whole, frac), d);
  }

  lemma {:induction false} ArithmeticOfJoined(whole: string, frac: string, d: nat)
    requires IsDigits(whole) && IsDigits(frac) && WellFormed(Join(whole, frac))
    requires Whole(Join(whole, frac)) == whole && Frac(Join(whole, frac)) == frac
    ensures ArithmeticAtomic(Join(whole, frac), d) == Value(whole) * Pow10(d) + Value(FixWidth(frac, d))
  {
  }

  lemma {:induction false} TrailingDot(whole: string, d: nat)
    requires IsDigits(whole) && |whole| >= 1
    ensures DecimalToAtomic(whole + ".", d) == None
  {
  }

  lemma {:induction false} ShownDigits(v: nat, d: nat, g: nat, padded: string)
    requires g >= 1 && IsDigits(padded) && Value(padded) == Remainder(v, Pow10(d))
    requires padded == PadStart(NatToString(Remainder(v, Pow10(d))), d)
    ensures IsDigits(padded[..Min(g, |padded|)])
    ensures Quotient(v, Pow10(d)) * Pow10(d) + Value(FixWidth(padded[..Min(g, |padded|)], d))
         == v - Remainder(v, Pow10(if g < d then d - g else 0))
  {
    var rest := Remainder(v, Pow10(d));
    if d == 0 {
      assert FixWidth(padded[..Min(g, |padded|)], d) == "";
    } else if g >= d {
      PrintedWidth(rest, d);
      assert FixWidth(padded, d) == padded[..Min(g, |padded|)] == padded;
    } else {
      PrintedWidth(rest, d);
      CutDigits(v, Quotient(v, Pow10(d)), d, g, padded);
    }
  }

  lemma {:induction false} CutDigits(v: nat, q: nat, d: nat, g: nat, padded: string)
    requires g < d == |padded| && IsDigits(padded) && v == q * Pow10(d) + Value(padded)
    ensures IsDigits(padded[..g])
    ensures q * Pow10(d) + Value(FixWidth(padded[..g], d)) == v - Remainder(v, Pow10(d - g))
  {
    var hi, lo := padded[..g], padded[g..];
    assert padded == hi + lo && FixWidth(hi, d) == hi + Zeros(d - g);
    ValueOfConcat(hi, lo);
    ValueOfConcat(hi, Zeros(d - g));
    ValueOfZeros(d - g);
    ValueBound(lo);
    PowerOfSum(g, d - g);
    CutBelow(v, q, Value(hi), Value(lo), Pow10(g), Pow10(d - g));
  }

  lemma {:induction false} CutBelow(v: nat, q: nat, hi: nat, lo: nat, p: nat, unit: nat)
    requires unit >= 1 && lo < unit && v == q * (p * unit) + (hi * unit + lo)
    ensures v - Remainder(v, unit) == q * (p * unit) + hi * unit
  {
    assert q * (p * unit) == (q * p) * unit;
    var k := q * p + hi;
    assert v == k * unit + lo;
    DivideExactly(k, lo, unit);
  }

  lemma {:induction false} PrintedWidth(n: nat, d: nat)
    requires d >= 1 && n < Pow10(d)
    ensures |PadStart(NatToString(n), d)| == d
  {
    var t := NatToString(n);
    if |t| > d {
      LeadingDigitBound(t);
      PowerGrows(d, |t| - 1);
      assert false;
    }
  }

  lemma {:induction false} PowerGrows(m: nat, n: nat)
    requires m <= n
    ensures Pow10(m) <= Pow10(n)
    decreases n
  {
    if m < n { PowerGrows(m, n - 1); }
  }

  lemma {:induction false} LeadingDigitBound(s: string)
    requires IsDigits(s) && |s| >= 1 && s[0] != '0'
    ensures Value(s) >= Pow10(|s| - 1)
    decreases |s|
  {
    if |s| > 1 { LeadingDigitBound(s[..|s| - 1]); }
    else { LeadingDigit(s); }
  }

  /** The floor is half the price, never below half rounded down, and prints back. */
  lemma {:induction false} PriceFloorHalves(p: string)
    requires WellFormed(p)
    ensures WellFormed(PriceFloor(p))
    ensures var a := PriceToAtomic(p, 6).value;
            PriceToAtomic(PriceFloor(p), 6) == Some(if a < 2 then a else a / 2)
  {
    ParsersAgree(p, 6);
    var a := PriceToAtomic(p, 6).value;
    RoundTrip(a / 2, 6);
  }
}
