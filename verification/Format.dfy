/** Compact amounts: K, M, B and T with two decimals. The printed text reads back as the rounded
    amount, which is within half a hundredth of the true one. */
module Format {
  import opened Wrappers
  import opened Numeric

  // ---------------------------------------------------------------- decimal digits

  function DigitChar(d: nat): (c: char)
    requires d < 10
    ensures '0' <= c <= '9'
  {
    '0' + d as char
  }

  function DigitValue(c: char): (d: nat)
    requires '0' <= c <= '9'
    ensures d < 10
  {
    (c - '0') as nat
  }

  predicate IsDigit(c: char) { '0' <= c <= '9' }

  predicate AllDigits(s: string) {
    forall c | c in s :: IsDigit(c)
  }

  /** BigInt.toString. */
  function DigitsOf(n: nat): (s: string)
    ensures s != "" && AllDigits(s)
  {
    if n < 10 then [DigitChar(n)] else DigitsOf(n / 10) + [DigitChar(n % 10)]
  }

  function NumberOf(s: string): nat
    requires AllDigits(s)
    decreases |s|
  {
    if s == "" then 0
    else
      assert s[|s| - 1] in s;
      assert AllDigits(s[..|s| - 1]) by { assert forall c | c in s[..|s| - 1] :: c in s; }
      10 * NumberOf(s[..|s| - 1]) + DigitValue(s[|s| - 1])
  }

  lemma {:induction false} DigitsRoundTrip(n: nat)
    ensures NumberOf(DigitsOf(n)) == n
  {
    if n >= 10 {
      DigitsRoundTrip(n / 10);
      var s := DigitsOf(n);
      assert s[..|s| - 1] == DigitsOf(n / 10);
    }
  }

  /** groupInteger on digits: a comma before every last group of three. */
  function Grouped(s: string): string
    decreases |s|
  {
    if |s| <= 3 then s else Grouped(s[..|s| - 3]) + "," + s[|s| - 3..]
  }

  function WithoutCommas(s: string): string
    decreases |s|
  {
    if s == "" then ""
    else
      var init := WithoutCommas(s[..|s| - 1]);
      if s[|s| - 1] == ',' then init else init + [s[|s| - 1]]
  }

  lemma {:induction false} WithoutCommasJoin(a: string, b: string)
    ensures WithoutCommas(a + b) == WithoutCommas(a) + WithoutCommas(b)
    decreases |b|
  {
    if b == "" {
      assert a + b == a;
    } else {
      assert (a + b)[..|a + b| - 1] == a + b[..|b| - 1];
      WithoutCommasJoin(a, b[..|b| - 1]);
    }
  }

  lemma {:induction false} NoCommas(s: string)
    requires ',' !in s
    ensures WithoutCommas(s) == s
    decreases |s|
  {
    if s != "" {
      assert s == s[..|s| - 1] + [s[|s| - 1]];
      NoCommas(s[..|s| - 1]);
    }
  }

  /** Grouping only adds commas. */
  lemma {:induction false} GroupedRoundTrip(s: string)
    requires AllDigits(s)
    ensures WithoutCommas(Grouped(s)) == s
    ensures forall c | c in Grouped(s) :: IsDigit(c) || c == ','
    decreases |s|
  {
    if |s| <= 3 {
      NoCommas(s);
    } else {
      var front, back := s[..|s| - 3], s[|s| - 3..];
      assert forall c | c in front :: c in s;
      assert forall c | c in back :: c in s;
      GroupedRoundTrip(front);
      NoCommas(back);
      WithoutCommasJoin(Grouped(front) + ",", back);
      WithoutCommasJoin(Grouped(front), ",");
      assert WithoutCommas(",") == "";
      assert s == front + back;
    }
  }

  /** The character at this place, counted from the right. */
  function FromRight(s: string, i: nat): char
    requires i < |s|
  {
    s[|s| - 1 - i]
  }

  lemma {:induction false} NoCommaAt(s: string, i: nat)
    requires AllDigits(s) && i < |s|
    ensures FromRight(s, i) != ','
  {
    assert s[|s| - 1 - i] in s;
  }

  lemma {:induction false} JoinFromRight(a: string, b: string, i: nat)
    requires i < |a| + |b|
    ensures FromRight(a + b, i) == if i < |b| then FromRight(b, i) else FromRight(a, i - |b|)
  {
  }

  /** Every fourth place from the right. */
  ghost predicate Fourth(i: nat) {
    i % 4 == 3
  }

  lemma {:induction false} FourthAgain(i: nat)
    ensures Fourth(i + 4) <==> Fourth(i)
    ensures i < 3 ==> !Fourth(i)
    ensures Fourth(3)
  {
  }

  /** One more group of three. */
  lemma {:induction false} GroupAt(front: string, back: string, i: nat)
    requires AllDigits(back) && |back| == 3 && i < |front| + 4
    requires i >= 4 ==> (FromRight(front, i - 4) == ',' <==> Fourth(i - 4))
    ensures FromRight(front + "," + back, i) == ',' <==> Fourth(i)
  {
    JoinFromRight(front + ",", back, i);
    FourthAgain(if i >= 4 then i - 4 else i);
    if i < 3 { NoCommaAt(back, i); } else { JoinFromRight(front, ",", i - 3); }
  }

  /** Counted from the right, exactly every fourth character is a comma, and none comes first. */
  lemma {:induction false} CommasEveryThird(s: string)
    requires AllDigits(s)
    ensures forall i: nat | i < |Grouped(s)| :: FromRight(Grouped(s), i) == ',' <==> Fourth(i)
    ensures s != "" ==> Grouped(s) != "" && Grouped(s)[0] != ','
    decreases |s|
  {
    if |s| <= 3 {
      forall i: nat | i < |s| ensures FromRight(s, i) != ',' && !Fourth(i) { NoCommaAt(s, i); FourthAgain(i); }
      if s != "" { assert s[0] in s; }
    } else {
      var front, back := s[..|s| - 3], s[|s| - 3..];
      assert forall c | c in front :: c in s;
      assert forall c | c in back :: c in s;
      CommasEveryThird(front);
      forall i: nat | i < |Grouped(s)| ensures FromRight(Grouped(s), i) == ',' <==> Fourth(i) {
        GroupAt(Grouped(front), back, i);
      }
    }
  }

  // ---------------------------------------------------------------- what a text says

  /** Hundredths after the point, padded and with trailing zeros dropped. */
  function FractionText(cents: nat): string
    requires cents < 100
  {
    if cents == 0 then ""
    else if cents % 10 == 0 then [DigitChar(cents / 10)]
    else [DigitChar(cents / 10), DigitChar(cents % 10)]
  }

  const SUFFIXES: string := "KMBT"

  function SuffixText(scale: nat): string
    requires scale <= 4
  {
    if scale == 0 then "" else [SUFFIXES[scale - 1]]
  }

  function Shown(negative: bool, hundredths: nat, scale: nat): string
    requires scale <= 4
  {
    (if negative then "-" else "") + (Mantissa(hundredths) + SuffixText(scale))
  }

  /** The unsigned, unscaled part of a printed amount. */
  function Mantissa(hundredths: nat): string {
    var fraction := FractionText(hundredths % 100);
    Grouped(DigitsOf(hundredths / 100)) + (if fraction == "" then "" else "." + fraction)
  }

  lemma {:induction false} DigitsStart(n: nat)
    ensures DigitsOf(n)[0] == '0' ==> n == 0 && |DigitsOf(n)| == 1
  {
    if n >= 10 { DigitsStart(n / 10); }
  }

  lemma {:induction false} GroupedStart(s: string)
    requires s != ""
    ensures Grouped(s) != "" && Grouped(s)[0] == s[0] && (|s| == 1 ==> Grouped(s) == s)
    decreases |s|
  {
    if |s| > 3 { GroupedStart(s[..|s| - 3]); }
  }

  /** Amounts are printed as short as they go: a leading zero only before the point, a point only before decimals,
      no trailing zero among them, and never more than two. */
  lemma {:induction false} MantissaShort(hundredths: nat)
    ensures var m, whole := Mantissa(hundredths), Grouped(DigitsOf(hundredths / 100));
      whole <= m && (whole[0] == '0' ==> |whole| == 1) && |m| <= |whole| + 3
      && (|m| > |whole| ==> m[|whole|] == '.' && |m| > |whole| + 1 && m[|m| - 1] != '0')
  {
    DigitsStart(hundredths / 100);
    GroupedStart(DigitsOf(hundredths / 100));
  }

  datatype Reading = Reading(negative: bool, hundredths: nat, scale: nat)

  function SuffixScale(c: char): nat {
    if c == 'K' then 1 else if c == 'M' then 2 else if c == 'B' then 3 else if c == 'T' then 4 else 0
  }

  /** The text before and after the first decimal point. */
  function Split(s: string): (string, string) {
    if s == "" then ("", "")
    else if s[0] == '.' then ("", s[1..])
    else ([s[0]] + Split(s[1..]).0, Split(s[1..]).1)
  }

  /** An unsigned number with at most two decimals and commas anywhere, in hundredths. */
  function ReadNumber(s: string): Option<nat> {
    ReadParts(WithoutCommas(Split(s).0), Split(s).1)
  }

  function ReadParts(whole: string, fraction: string): Option<nat> {
    if !AllDigits(whole) || !AllDigits(fraction) || |fraction| > 2 then None
    else Some(100 * NumberOf(whole) + (if |fraction| == 1 then 10 * NumberOf(fraction) else NumberOf(fraction)))
  }

  /** How a person reads a compact amount: sign, number, suffix. */
  function Read(text: string): Option<Reading> {
    if text != "" && text[0] == '-' then ReadUnsigned(text[1..], true) else ReadUnsigned(text, false)
  }

  function ReadUnsigned(text: string, negative: bool): Option<Reading> {
    var scale := if text == "" then 0 else SuffixScale(text[|text| - 1]);
    match ReadNumber(if scale == 0 then text else text[..|text| - 1])
    case None => None
    case Some(h) => Some(Reading(negative, h, scale))
  }

  lemma {:induction false} SplitWhole(s: string)
    requires '.' !in s
    ensures Split(s) == (s, "")
  {
    if s != "" {
      SplitWhole(s[1..]);
      assert s == [s[0]] + s[1..];
    }
  }

  lemma {:induction false} SplitPointed(s: string, rest: string)
    requires '.' !in s && rest != "" && rest[0] == '.'
    ensures Split(s + rest) == (s, rest[1..])
  {
    if s == "" {
      assert s + rest == rest;
    } else {
      SplitPointed(s[1..], rest);
      assert (s + rest)[1..] == s[1..] + rest;
      assert s == [s[0]] + s[1..];
    }
  }

  lemma {:induction false} FractionReads(cents: nat)
    requires cents < 100
    ensures var f := FractionText(cents);
      AllDigits(f) && |f| <= 2 && (f == "" <==> cents == 0)
      && cents == (if |f| == 1 then 10 * NumberOf(f) else NumberOf(f))
  {
    var f := FractionText(cents);
    if |f| == 1 {
      assert f[..0] == "" && NumberOf("") == 0;
    } else if |f| == 2 {
      assert f[..1][..0] == "" && NumberOf("") == 0;
      assert f[..1] == [f[0]];
    }
  }

  lemma {:induction false} MantissaReads(hundredths: nat)
    ensures ReadNumber(Mantissa(hundredths)) == Some(hundredths)
  {
    var digits := DigitsOf(hundredths / 100);
    var whole, fraction := Grouped(digits), FractionText(hundredths % 100);
    GroupedRoundTrip(digits);
    DigitsRoundTrip(hundredths / 100);
    FractionReads(hundredths % 100);
    if fraction == "" {
      SplitWhole(whole);
      assert whole + "" == whole;
    } else {
      SplitPointed(whole, "." + fraction);
      assert ("." + fraction)[1..] == fraction;
    }
  }

  lemma {:induction false} MantissaShape(hundredths: nat)
    ensures Mantissa(hundredths) != "" && forall c | c in Mantissa(hundredths) :: IsDigit(c) || c == ',' || c == '.'
  {
    GroupedRoundTrip(DigitsOf(hundredths / 100));
    FractionReads(hundredths % 100);
  }

  lemma {:induction false} UnsignedReads(m: string, negative: bool, scale: nat)
    requires scale <= 4 && m != "" && m[|m| - 1] !in SUFFIXES && ReadNumber(m).Some?
    ensures ReadUnsigned(m + SuffixText(scale), negative) == Some(Reading(negative, ReadNumber(m).value, scale))
  {
    var text := m + SuffixText(scale);
    if scale == 0 {
      assert text == m;
      NotASuffix(m[|m| - 1]);
    } else {
      assert text[|text| - 1] == SUFFIXES[scale - 1] && text[..|text| - 1] == m;
    }
  }

  lemma {:induction false} NotASuffix(c: char)
    requires c !in SUFFIXES
    ensures SuffixScale(c) == 0
  {
    assert SUFFIXES[0] == 'K' && SUFFIXES[1] == 'M' && SUFFIXES[2] == 'B' && SUFFIXES[3] == 'T';
  }

  lemma {:induction false} Edges(m: string)
    requires m != "" && forall c | c in m :: IsDigit(c) || c == ',' || c == '.'
    ensures m[0] != '-' && m[|m| - 1] !in SUFFIXES
  {
    assert m[0] in m && m[|m| - 1] in m;
  }

  /** The printed text reads back as exactly what was printed. */
  lemma {:induction false} ShownReads(negative: bool, hundredths: nat, scale: nat)
    requires scale <= 4
    ensures Read(Shown(negative, hundredths, scale)) == Some(Reading(negative, hundredths, scale))
  {
    MantissaReads(hundredths);
    MantissaShape(hundredths);
    Edges(Mantissa(hundredths));
    UnsignedReads(Mantissa(hundredths), negative, scale);
    SignReads(Mantissa(hundredths) + SuffixText(scale), negative);
  }

  lemma {:induction false} SignReads(unsigned: string, negative: bool)
    requires unsigned != "" && unsigned[0] != '-'
    ensures Read((if negative then "-" else "") + unsigned) == ReadUnsigned(unsigned, negative)
  {
    var text := (if negative then "-" else "") + unsigned;
    if negative { assert text[1..] == unsigned; } else { assert text == unsigned; }
  }

  // ---------------------------------------------------------------- rounding

  function Pow1000(n: nat): (p: nat)
    ensures p > 0
  {
    if n == 0 then 1 else 1000 * Pow1000(n - 1)
  }

  /** One printed unit at a scale, in raw units. */
  function Denominator(decimals: nat, scale: nat): (d: nat)
    ensures d > 0
  {
    MulPos(Pow10(decimals), Pow1000(scale));
    Pow10(decimals) * Pow1000(scale)
  }

  lemma {:induction false} DenominatorStep(decimals: nat, scale: nat)
    ensures Denominator(decimals, scale + 1) == 1000 * Denominator(decimals, scale)
  {
    var u, p := Pow10(decimals), Pow1000(scale);
    assert u * (1000 * p) == 1000 * (u * p);
  }

  /** Thousands, millions, billions and trillions are three decimal places each. */
  lemma {:induction false} DenominatorIs(decimals: nat, scale: nat)
    ensures Denominator(decimals, scale) == Pow10(decimals + 3 * scale)
  {
    if scale > 0 {
      DenominatorIs(decimals, scale - 1);
      DenominatorStep(decimals, scale - 1);
      var p := Pow10(decimals + 3 * (scale - 1));
      assert Pow10(decimals + 3 * scale) == 10 * Pow10(decimals + 3 * scale - 1)
          == 100 * Pow10(decimals + 3 * scale - 2) == 1000 * p;
    }
  }

  /** The printed hundredths are within half a hundredth of the true amount. */
  predicate WithinHalf(absolute: nat, hundredths: nat, d: nat) {
    2 * (hundredths * d) <= 2 * (100 * absolute) + d && 2 * (100 * absolute) <= 2 * (hundredths * d) + d
  }

  lemma {:induction false} RoundingBound(absolute: nat, d: nat)
    requires d > 0
    ensures WithinHalf(absolute, Floor(absolute * 100 + d / 2, d), d)
    ensures Floor(absolute * 100 + d / 2, d) == 0 <==> 100 * absolute + d / 2 < d
  {
    var r := Floor(absolute * 100 + d / 2, d);
    if r > 0 { MulMono(1, r, d); }
  }

  /** A scale that the amount has reached, up to rounding. */
  predicate Reached(absolute: nat, d: nat) {
    200 * absolute >= 199 * d
  }

  lemma {:induction false} BumpReaches(absolute: nat, d: nat)
    requires d > 0 && Floor(absolute * 100 + d / 2, d) >= 100_000
    ensures Reached(absolute, 1000 * d)
  {
    MulMono(100_000, Floor(absolute * 100 + d / 2, d), d);
  }

  const DASH: string := "\U{2014}"

  function Tiny(negative: bool): string {
    if negative then ">-0.01" else "<0.01"
  }

  /** The text reads as these hundredths at this scale, which are right to half a hundredth; the
      scale is one the amount has reached, and the mantissa stays below 1000 while a larger one exists. */
  ghost predicate Prints(text: string, raw: int, decimals: nat, hundredths: nat, scale: nat) {
    scale <= 4 && Read(text) == Some(Reading(raw < 0, hundredths, scale))
    && WithinHalf(Size(raw), hundredths, Pow10(decimals + 3 * scale)) && (hundredths < 100_000 || scale == 4)
    && (scale > 0 ==> Reached(Size(raw), Pow10(decimals + 3 * scale)))
  }

  function Size(raw: int): nat {
    if raw < 0 then -raw else raw
  }

  /** What a formatted amount promises about the raw value. */
  ghost predicate Faithful(text: string, raw: int, decimals: nat) {
    (exists hundredths, scale :: Prints(text, raw, decimals, hundredths, scale))
    || (text == (if raw < 0 then ">-0.01" else "<0.01") && raw != 0 && 200 * Size(raw) < Pow10(decimals))
  }

  /** formatCompactAmount: terminates on every integer and prints a faithful text. */
  method FormatCompactAmount(value: Option<int>, decimals: int) returns (text: string)
    ensures value.None? || decimals < 0 ==> text == "\U{2014}"
    ensures value.Some? && decimals >= 0 ==> Faithful(text, value.value, decimals)
    ensures value == Some(0) && decimals >= 0 ==> text == "0"
  {
    if value.None? || decimals < 0 { return DASH; }
    var raw := value.value;
    var negative := raw < 0;
    var absolute := Size(raw);
    var scale: nat := 0;
    while scale < 4 && absolute >= Denominator(decimals, scale + 1)
      invariant scale <= 4 && (scale > 0 ==> absolute >= Denominator(decimals, scale))
      decreases 4 - scale
    {
      scale := scale + 1;
    }
    while true
      invariant scale <= 4 && (scale > 0 ==> Reached(absolute, Denominator(decimals, scale)))
      decreases 4 - scale
    {
      var denominator := Denominator(decimals, scale);
      var rounded := Floor(absolute * 100 + denominator / 2, denominator);
      RoundingBound(absolute, denominator);
      DenominatorIs(decimals, scale);
      if rounded == 0 && absolute > 0 { return Tiny(negative) + SuffixText(scale); }
      if rounded >= 100_000 && scale < 4 {
        BumpReaches(absolute, denominator);
        DenominatorStep(decimals, scale);
        scale := scale + 1;
      } else {
        ShownReads(negative, rounded, scale);
        assert Prints(Shown(negative, rounded, scale), raw, decimals, rounded, scale);
        return Shown(negative, rounded, scale);
      }
    }
  }
}
