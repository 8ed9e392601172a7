/**
 Rewards between decimal text and whole stroops. JavaScript's numbers are binary
 doubles; `rn` is rounding to the nearest of them, and nothing else about it is used.
 */
module Xlm {
  import opened Wrappers
  import opened Text

  const STROOPS_PER_XLM: nat := 10_000_000
  const DECIMAL_PLACES: nat := 7
  const TWO_53: int := 9_007_199_254_740_992

  // ------------------------------------------------------------- doubles

  function Pow2(n: nat): (p: real)
    ensures p >= 1.0
  {
    if n == 0 then 1.0 else 2.0 * Pow2(n - 1)
  }

  function Scaled(m: int, up: nat, down: nat): real {
    m as real * Pow2(up) / Pow2(down)
  }

  /** A significand of 53 bits at any binary scale; the range of the exponent is not bounded. */
  ghost predicate IsDouble(x: real) {
    exists m: int, up: nat, down: nat :: -TWO_53 <= m <= TWO_53 && x == Scaled(m, up, down)
  }

  function Distance(x: real, y: real): real {
    if x <= y then y - x else x - y
  }

  ghost predicate Nearest(x: real, d: real) {
    IsDouble(d) && forall e :: IsDouble(e) ==> Distance(x, d) <= Distance(x, e)
  }

  ghost predicate RoundsToNearest(rn: real -> real) {
    forall x :: Nearest(x, rn(x))
  }

  predicate IsSafe(n: int) { -MAX_SAFE_INTEGER <= n <= MAX_SAFE_INTEGER }

  lemma IntegersAreDoubles(n: int)
    requires -TWO_53 <= n <= TWO_53
    ensures IsDouble(n as real)
  {
    assert Scaled(n, 0, 0) == n as real;
  }

  /** Small integers are themselves, and what is beyond them stays beyond them. */
  lemma RoundingOfIntegers(rn: real -> real, n: nat)
    requires RoundsToNearest(rn)
    ensures n <= TWO_53 ==> rn(n as real) == n as real
    ensures n >= TWO_53 ==> rn(n as real) >= TWO_53 as real
  {
    var x := n as real;
    assert Nearest(x, rn(x));
    if n <= TWO_53 {
      IntegersAreDoubles(n);
      assert Distance(x, rn(x)) <= Distance(x, x);
    }
    if n >= TWO_53 {
      IntegersAreDoubles(TWO_53);
      assert Distance(x, rn(x)) <= Distance(x, TWO_53 as real);
    }
  }

  lemma EighthMillion()
    ensures Pow2(23) == 8_388_608.0
  {
    assert Pow2(8) == 256.0;
    assert Pow2(16) == 65_536.0;
  }

  /** Below 2^30 the doubles are at most 2^-23 apart. */
  lemma DoubleNearby(x: real) returns (e: real)
    requires 0.0 <= x < 1_073_741_824.0
    ensures IsDouble(e) && Distance(x, e) <= 0.5 / 8_388_608.0
  {
    EighthMillion();
    var y := x * 8_388_608.0;
    var k := (y + 0.5).Floor;
    e := Scaled(k, 0, 23);
    assert e == k as real / 8_388_608.0;
    assert k as real <= y + 0.5 < k as real + 1.0;
    assert x == y / 8_388_608.0;
  }

  lemma QuotientBounds(n: nat)
    requires n <= MAX_SAFE_INTEGER
    ensures var x, q := n as real / 10_000_000.0, n / STROOPS_PER_XLM;
            q < 1_000_000_000 && q as real <= x <= q as real + 1.0 - 0.000_000_1
  {
    var q, r := n / STROOPS_PER_XLM, n % STROOPS_PER_XLM;
    assert n == q * STROOPS_PER_XLM + r;
    assert n as real == q as real * 10_000_000.0 + r as real;
  }

  /** Dividing first and flooring the rounded quotient is still the true quotient, for every safe integer. */
  lemma FloorOfQuotientIsExact(rn: real -> real, n: nat)
    requires RoundsToNearest(rn) && n <= MAX_SAFE_INTEGER
    ensures rn(n as real / 10_000_000.0).Floor == n / STROOPS_PER_XLM
  {
    var x, q := n as real / 10_000_000.0, n / STROOPS_PER_XLM;
    QuotientBounds(n);
    var d := rn(x);
    assert Nearest(x, d);
    IntegersAreDoubles(q);
    assert Distance(x, d) <= Distance(x, q as real);
    var e := DoubleNearby(x);
    assert Distance(x, d) <= Distance(x, e);
    assert q as real <= d < q as real + 1.0;
  }

  // ------------------------------------------------------------- parsing

  datatype ParseError = Empty | NotAnAmount | TooManyDecimals | TooLarge | NotPositive

  /** The text up to the first dot, and after it. */
  function BeforeDot(s: string): string {
    if s == "" || s[0] == '.' then "" else [s[0]] + BeforeDot(s[1..])
  }

  function AfterDot(s: string): string {
    if s == "" then "" else if s[0] == '.' then s[1..] else AfterDot(s[1..])
  }

  /** `\d+(\.\d+)?`, matched in full. */
  predicate IsAmount(s: string) {
    && BeforeDot(s) != "" && AllDigits(BeforeDot(s))
    && AllDigits(AfterDot(s)) && ('.' in s ==> AfterDot(s) != "")
  }

  function Zeros(n: nat): (s: string)
    ensures |s| == n && forall c :: c in s ==> c == '0'
  {
    seq(n, _ => '0')
  }

  function PadEnd(s: string, width: nat): string {
    if |s| >= width then s else s + Zeros(width - |s|)
  }

  function XlmToStroops(rn: real -> real, input: string): Result<int, ParseError> {
    var trimmed := Trim(input);
    if trimmed == "" then Err(Empty)
    else if !IsAmount(trimmed) then Err(NotAnAmount)
    else
      var whole, fraction := BeforeDot(trimmed), AfterDot(trimmed);
      if |fraction| > DECIMAL_PLACES then Err(TooManyDecimals)
      else
        DigitsCountStroops(trimmed);
        var stroops := rn(NatOf(whole + PadEnd(fraction, DECIMAL_PLACES)) as real);
        if stroops != stroops.Floor as real || !IsSafe(stroops.Floor) then Err(TooLarge)
        else if stroops.Floor <= 0 then Err(NotPositive)
        else Ok(stroops.Floor)
  }

  /** The number of XLM a decimal denotes. */
  function AmountOf(s: string): real
    requires IsAmount(s)
  {
    NatOf(BeforeDot(s)) as real + NatOf(AfterDot(s)) as real / Power10(|AfterDot(s)|) as real
  }

  lemma {:induction false} ZerosAreNothing(n: nat)
    ensures AllDigits(Zeros(n)) && NatOf(Zeros(n)) == 0
  {
    if n > 0 {
      assert Zeros(n)[..n - 1] == Zeros(n - 1);
      ZerosAreNothing(n - 1);
    }
  }

  lemma {:induction false} Power10Splits(a: nat, b: nat)
    ensures Power10(a + b) == Power10(a) * Power10(b)
  {
    if a > 0 {
      Power10Splits(a - 1, b);
    }
  }

  lemma SevenPlaces()
    ensures Power10(7) == STROOPS_PER_XLM
  {
    assert Power10(4) == 10_000;
  }

  /** Padding the fraction to seven places and reading all the digits as one number counts stroops. */
  lemma DigitsCountStroops(s: string)
    requires IsAmount(s) && |AfterDot(s)| <= DECIMAL_PLACES
    ensures var digits := BeforeDot(s) + PadEnd(AfterDot(s), DECIMAL_PLACES);
            AllDigits(digits) && NatOf(digits) as real == AmountOf(s) * 10_000_000.0
  {
    var whole, fraction := BeforeDot(s), AfterDot(s);
    var k := DECIMAL_PLACES - |fraction|;
    ZerosAreNothing(k);
    NatOfConcat(fraction, Zeros(k));
    var padded := PadEnd(fraction, DECIMAL_PLACES);
    assert padded == fraction + Zeros(k);
    NatOfConcat(whole, padded);
    Power10Splits(|fraction|, k);
    Power10Splits(k, |fraction|);
    SevenPlaces();
    Rescale(NatOf(whole), NatOf(fraction), Power10(|fraction|), Power10(k), NatOf(whole + padded));
  }

  lemma Rescale(whole: nat, fraction: nat, p: nat, q: nat, digits: nat)
    requires p >= 1 && p * q == STROOPS_PER_XLM && digits == whole * STROOPS_PER_XLM + fraction * q
    ensures digits as real == (whole as real + fraction as real / p as real) * 10_000_000.0
  {
    var f := fraction as real / p as real;
    assert f * p as real == fraction as real;
    assert (p * q) as real == p as real * q as real;
    assert (fraction * q) as real == fraction as real * q as real;
    assert f * 10_000_000.0 == f * (p as real * q as real) == (f * p as real) * q as real;
  }

  /**
   Exactly the decimals of at most seven places worth 1 to 2^53 - 1 stroops are accepted,
   each as exactly its worth: rounding to doubles never shows.
   */
  lemma ParsesExactly(rn: real -> real, input: string, n: int)
    requires RoundsToNearest(rn)
    ensures XlmToStroops(rn, input) == Ok(n) <==>
            (var s := Trim(input);
             && IsAmount(s) && |AfterDot(s)| <= DECIMAL_PLACES
             && AmountOf(s) * 10_000_000.0 == n as real && 1 <= n <= MAX_SAFE_INTEGER)
  {
    var s := Trim(input);
    if IsAmount(s) && |AfterDot(s)| <= DECIMAL_PLACES {
      DigitsCountStroops(s);
      RoundingOfIntegers(rn, NatOf(BeforeDot(s) + PadEnd(AfterDot(s), DECIMAL_PLACES)));
    }
  }

  // ------------------------------------------------------------- printing

  /** Groups of three digits from the right, as `Intl.NumberFormat('en-US')` writes an integer. */
  function Grouped(s: string): string {
    if |s| <= 3 then s else Grouped(s[..|s| - 3]) + "," + s[|s| - 3..]
  }

  function PadStart(s: string, width: nat): string {
    if |s| >= width then s else Zeros(width - |s|) + s
  }

  function DropEndZeros(s: string): string {
    if s != "" && s[|s| - 1] == '0' then DropEndZeros(s[..|s| - 1]) else s
  }

  function Signed(n: int): string {
    if n < 0 then "-" + Decimal(-n) else Decimal(n)
  }

  /** The decimals of a number of stroops, without padding. */
  function FractionText(fraction: nat): string {
    if fraction == 0 then "" else "." + DropEndZeros(PadStart(Decimal(fraction), DECIMAL_PLACES))
  }

  function WholeXlm(rn: real -> real, stroops: nat): int {
    rn(stroops as real / 10_000_000.0).Floor
  }

  function FormatXlm(rn: real -> real, stroops: int): string {
    var absolute: nat := if stroops < 0 then -stroops else stroops;
    var text := Grouped(Signed(WholeXlm(rn, absolute))) + FractionText(absolute % STROOPS_PER_XLM);
    if stroops < 0 then "-" + text else text
  }

  function WithoutCommas(s: string): string {
    if s == "" then "" else (if s[0] == ',' then "" else [s[0]]) + WithoutCommas(s[1..])
  }

  lemma {:induction false} WithoutCommasConcat(a: string, b: string)
    ensures WithoutCommas(a + b) == WithoutCommas(a) + WithoutCommas(b)
  {
    if a == "" {
      assert a + b == b;
    } else {
      assert (a + b)[1..] == a[1..] + b;
      WithoutCommasConcat(a[1..], b);
    }
  }

  lemma {:induction false} NoCommas(s: string)
    requires ',' !in s
    ensures WithoutCommas(s) == s
  {
    if s != "" {
      NoCommas(s[1..]);
    }
  }

  /** A text that ungroups to `front`, and a group after it. */
  lemma UngroupsTo(grouped: string, front: string, back: string)
    requires WithoutCommas(grouped) == front && ',' !in back
    ensures WithoutCommas(grouped + back) == front + back
    ensures WithoutCommas(grouped + "," + back) == front + back
  {
    NoCommas(back);
    WithoutCommasConcat(grouped, back);
    WithoutCommasConcat(grouped + ",", back);
    WithoutCommasConcat(grouped, ",");
    assert WithoutCommas(",") == "";
    assert front + "" == front;
  }

  lemma {:induction false} UngroupsToItself(s: string)
    requires ',' !in s
    ensures WithoutCommas(Grouped(s)) == s
  {
    hide WithoutCommas;
    if |s| <= 3 {
      NoCommas(s);
    } else {
      var front, back := s[..|s| - 3], s[|s| - 3..];
      UngroupsToItself(front);
      UngroupsTo(Grouped(front), front, back);
      assert front + back == s;
    }
  }

  /** Counted from the right, every fourth character is a comma and no other is, and none leads. */
  lemma {:induction false} GroupsOfThree(s: string)
    requires ',' !in s && s != ""
    ensures var g := Grouped(s);
            && g != "" && g[0] != ','
            && forall k :: 0 <= k < |g| ==> (g[|g| - 1 - k] == ',' <==> k % 4 == 3)
  {
    if |s| > 3 {
      var front, back := s[..|s| - 3], s[|s| - 3..];
      GroupsOfThree(front);
      var g, h := Grouped(s), Grouped(front);
      assert g == h + "," + back && |g| == |h| + 4;
      forall k | 0 <= k < |g| ensures g[|g| - 1 - k] == ',' <==> k % 4 == 3 {
        if k < 3 {
          assert g[|g| - 1 - k] == back[2 - k] == s[|s| - 1 - k];
        } else if k > 3 {
          var j := k - 4;
          assert g[|g| - 1 - k] == h[|h| - 1 - j];
          assert k % 4 == j % 4;
        }
      }
    }
  }

  lemma {:induction false} DropsEveryZero(s: string)
    ensures DropEndZeros(s) == "" || DropEndZeros(s)[|DropEndZeros(s)| - 1] != '0'
  {
    if s != "" && s[|s| - 1] == '0' {
      DropsEveryZero(s[..|s| - 1]);
    }
  }

  /** Dropping trailing zeros and padding them back are inverse on text of that width. */
  lemma {:induction false} DropThenPad(s: string, width: nat)
    requires |s| <= width
    ensures |DropEndZeros(s)| <= width && PadEnd(DropEndZeros(s), width) == PadEnd(s, width)
    ensures forall c :: c in DropEndZeros(s) ==> c in s
  {
    if s != "" && s[|s| - 1] == '0' {
      var front := s[..|s| - 1];
      DropThenPad(front, width);
      assert s == front + "0";
      assert PadEnd(front, width) == front + Zeros(width - |front|);
      assert Zeros(width - |front|) == "0" + Zeros(width - |s|);
      assert front + ("0" + Zeros(width - |s|)) == (front + "0") + Zeros(width - |s|);
    }
  }

  lemma {:induction false} DropLeavesNonZero(s: string)
    requires AllDigits(s) && NatOf(s) > 0
    ensures DropEndZeros(s) != "" && AllDigits(DropEndZeros(s))
  {
    if s[|s| - 1] == '0' {
      assert forall c :: c in s[..|s| - 1] ==> c in s;
      DropLeavesNonZero(s[..|s| - 1]);
    }
  }

  lemma {:induction false} Power10Grows(a: nat, b: nat)
    requires a <= b
    ensures Power10(a) <= Power10(b)
  {
    if a < b {
      Power10Grows(a, b - 1);
    }
  }

  lemma {:induction false} DecimalIsLong(n: nat)
    ensures n >= Power10(|Decimal(n)| - 1) || |Decimal(n)| == 1
    ensures |Decimal(n)| >= 1
  {
    if n >= 10 {
      DecimalIsLong(n / 10);
      assert |Decimal(n)| == |Decimal(n / 10)| + 1;
    }
  }

  lemma FractionDigits(f: nat) returns (text: string)
    requires 0 < f < STROOPS_PER_XLM
    ensures text == PadStart(Decimal(f), DECIMAL_PLACES)
    ensures |text| == DECIMAL_PLACES && AllDigits(text) && NatOf(text) == f
  {
    text := PadStart(Decimal(f), DECIMAL_PLACES);
    DecimalRoundTrip(f);
    DecimalIsLong(f);
    SevenPlaces();
    if |Decimal(f)| > 7 {
      Power10Grows(7, |Decimal(f)| - 1);
    }
    var k := DECIMAL_PLACES - |Decimal(f)|;
    ZerosAreNothing(k);
    NatOfConcat(Zeros(k), Decimal(f));
    assert Zeros(k) + Decimal(f) == text;
  }

  lemma {:induction false} SplitAtDot(whole: string, rest: string)
    requires '.' !in whole
    ensures BeforeDot(whole) == whole && AfterDot(whole) == ""
    ensures BeforeDot(whole + "." + rest) == whole && AfterDot(whole + "." + rest) == rest
  {
    if whole == "" {
      assert whole + "." + rest == "." + rest;
    } else {
      assert (whole + "." + rest)[1..] == whole[1..] + "." + rest;
      SplitAtDot(whole[1..], rest);
    }
  }

  /** The plain decimal that stands behind the grouped one. */
  function PlainXlm(stroops: nat): string {
    Decimal(stroops / STROOPS_PER_XLM) + FractionText(stroops % STROOPS_PER_XLM)
  }

  lemma FractionHasNoCommas(f: nat)
    requires f < STROOPS_PER_XLM
    ensures ',' !in FractionText(f)
  {
    if f != 0 {
      var text := FractionDigits(f);
      DropThenPad(text, DECIMAL_PLACES);
      assert forall c :: c in DropEndZeros(text) ==> c in text;
    }
  }

  lemma FormatIsPlainGrouped(rn: real -> real, n: nat)
    requires RoundsToNearest(rn) && n <= MAX_SAFE_INTEGER
    ensures WithoutCommas(FormatXlm(rn, n)) == PlainXlm(n)
  {
    hide WithoutCommas, Grouped, Decimal, FractionText, RoundsToNearest;
    var q := n / STROOPS_PER_XLM;
    FloorOfQuotientIsExact(rn, n);
    DecimalRoundTrip(q);
    assert ',' !in Decimal(q);
    UngroupsToItself(Decimal(q));
    FractionHasNoCommas(n % STROOPS_PER_XLM);
    UngroupsTo(Grouped(Decimal(q)), Decimal(q), FractionText(n % STROOPS_PER_XLM));
  }

  lemma PlainIsAmount(n: nat)
    ensures var s := PlainXlm(n);
            && IsAmount(s) && |AfterDot(s)| <= DECIMAL_PLACES
            && s != "" && (forall c :: c in s ==> IsDigit(c) || c == '.')
            && AmountOf(s) * 10_000_000.0 == n as real
  {
    hide Decimal, DropEndZeros, Power10, PadStart;
    var q, f := n / STROOPS_PER_XLM, n % STROOPS_PER_XLM;
    var s := PlainXlm(n);
    DecimalRoundTrip(q);
    SevenPlaces();
    if f == 0 {
      assert s == Decimal(q);
      SplitAtDot(Decimal(q), "");
    } else {
      var text := FractionDigits(f);
      DropThenPad(text, DECIMAL_PLACES);
      DropLeavesNonZero(text);
      var fraction := DropEndZeros(text);
      assert s == Decimal(q) + "." + fraction;
      SplitAtDot(Decimal(q), fraction);
      NatOfConcat(Decimal(q), text);
    }
    DigitsCountStroops(s);
    if f == 0 {
      ZerosAreNothing(7);
      NatOfConcat(Decimal(q), Zeros(7));
      assert PadEnd("", 7) == Zeros(7);
    }
  }

  /** A minus sign is printed first, and refused. */
  lemma NegativeIsRefused(rn: real -> real, n: int)
    requires RoundsToNearest(rn) && -MAX_SAFE_INTEGER <= n < 0
    ensures XlmToStroops(rn, WithoutCommas(FormatXlm(rn, n))) == Err(NotAnAmount)
  {
    hide FormatXlm, WithoutCommas, XlmToStroops, IsAmount, RoundsToNearest, PlainXlm, AmountOf, AfterDot;
    FormatIsPlainGrouped(rn, -n);
    PlainIsAmount(-n);
    NegativeText(rn, n);
    MinusIsNoAmount(rn, PlainXlm(-n));
  }

  lemma MinusIsNoAmount(rn: real -> real, s: string)
    requires forall c :: c in s ==> IsDigit(c) || c == '.'
    ensures XlmToStroops(rn, "-" + s) == Err(NotAnAmount)
  {
    TrimNothing("-" + s);
    assert BeforeDot("-" + s)[0] == '-';
    assert '-' in BeforeDot("-" + s);
  }

  lemma NegativeText(rn: real -> real, n: int)
    requires n < 0
    ensures WithoutCommas(FormatXlm(rn, n)) == "-" + WithoutCommas(FormatXlm(rn, -n))
  {
    hide WithoutCommas, Grouped, FractionText, WholeXlm;
    NoCommas("-");
    WithoutCommasConcat("-", FormatXlm(rn, -n));
  }

  /**
   Read without its commas, what is printed for a safe number of stroops is that number
   exactly when it is positive; zero and negative amounts are refused as such.
   */
  lemma FormatThenParse(rn: real -> real, n: int)
    requires RoundsToNearest(rn) && -9_007_199_254_740_991 <= n <= 9_007_199_254_740_991
    ensures XlmToStroops(rn, WithoutCommas(FormatXlm(rn, n)))
         == if n > 0 then Ok(n) else if n == 0 then Err(NotPositive) else Err(NotAnAmount)
  {
    hide FormatXlm, WithoutCommas, RoundsToNearest;
    if n < 0 {
      NegativeIsRefused(rn, n);
    } else {
      FormatIsPlainGrouped(rn, n);
      PlainIsAmount(n);
      TrimNothing(PlainXlm(n));
      ParsesExactly(rn, PlainXlm(n), n);
      if n == 0 {
        DigitsCountStroops(PlainXlm(0));
        RoundingOfIntegers(rn, 0);
      }
    }
  }

  /** An amount's print: whole part in groups of three, no leading zeros; decimals without trailing ones. */
  lemma PrintedForm(rn: real -> real, n: nat)
    requires RoundsToNearest(rn) && n <= MAX_SAFE_INTEGER
    ensures var whole, fraction := Decimal(n / STROOPS_PER_XLM), FractionText(n % STROOPS_PER_XLM);
            && FormatXlm(rn, n) == Grouped(whole) + fraction
            && (whole == "0" || whole[0] != '0')
            && (forall k :: 0 <= k < |Grouped(whole)| ==>
                 (Grouped(whole)[|Grouped(whole)| - 1 - k] == ',' <==> k % 4 == 3))
            && (fraction == "" <==> n % STROOPS_PER_XLM == 0)
            && (fraction != "" ==> fraction[0] == '.' && |fraction| >= 2 && fraction[|fraction| - 1] != '0')
  {
    var q, f := n / STROOPS_PER_XLM, n % STROOPS_PER_XLM;
    FloorOfQuotientIsExact(rn, n);
    DecimalRoundTrip(q);
    hide RoundsToNearest, Grouped;
    assert ',' !in Decimal(q);
    GroupsOfThree(Decimal(q));
    if f != 0 {
      var text := FractionDigits(f);
      DropLeavesNonZero(text);
      DropsEveryZero(text);
    }
  }
}
