/** Money arithmetic (packages/shared/src/money.ts).

    A `Prisma.Decimal` is a `real`. Stored amounts have at most seven fraction digits, so the
    state machines of the other modules count whole stroops (1 stroop = 10^-7); `FeeOfStroops`
    shows that both views compute the same fee. */
module Money {
  import opened Wrappers

  const STROOPS_PER_UNIT: int := 10_000_000
  const BPS_DENOMINATOR: int := 10_000

  // ---------------------------------------------------------------- rounding

  /** The amount of `stroops` stroops. */
  function Amount(stroops: int): real { stroops as real / 10_000_000.0 }

  /** `decimalPlaces(7, ROUND_DOWN)`: cut towards zero after seven fraction digits. */
  function RoundDown7(v: real): real
  {
    if v >= 0.0 then Amount((v * 10_000_000.0).Floor) else -Amount((-v * 10_000_000.0).Floor)
  }

  /** `toFixed(7)` rounds half away from zero, as bignumber.js does by default. */
  function HalfUp7(v: real): real
  {
    if v >= 0.0 then Amount((v * 10_000_000.0 + 0.5).Floor) else -Amount((-v * 10_000_000.0 + 0.5).Floor)
  }

  // ---------------------------------------------------------------- fee and net

  function FeeAmount(gross: real, bps: int): real { RoundDown7(gross * bps as real / 10_000.0) }

  function NetAmount(gross: real, bps: int): real { RoundDown7(gross - FeeAmount(gross, bps)) }

  lemma FloorMonotone(a: real, b: real)
    requires a <= b
    ensures a.Floor <= b.Floor
  {}

  lemma FloorShift(a: real, k: int)
    ensures (a - k as real).Floor == a.Floor - k
  {}

  lemma ScaleMonotone(a: real, b: real, c: real)
    requires a <= b && 0.0 <= c
    ensures a * c <= b * c
  {}

  lemma FeeOfProduct(gross: real, bps: int, product: real)
    requires product == gross * bps as real
    ensures FeeAmount(gross, bps) == RoundDown7(product / 10_000.0)
  {}

  // A fee is a whole number of stroops, at most the share it is cut from.
  lemma FeeIsShare(gross: real, bps: int) returns (fee: int)
    requires 0.0 <= gross && 0 <= bps <= BPS_DENOMINATOR
    ensures FeeAmount(gross, bps) == Amount(fee) && 0 <= fee && Amount(fee) <= gross
  {
    var product := gross * bps as real;
    ProductMonotone(gross, gross, bps as real, 10_000.0);
    assert 0.0 <= product <= gross * 10_000.0;
    FeeOfProduct(gross, bps, product);
    fee := (product / 10_000.0 * 10_000_000.0).Floor;
  }

  // Taking whole stroops away commutes with rounding down.
  lemma RoundDownMinus(gross: real, fee: int)
    requires 0 <= fee && Amount(fee) <= gross
    ensures RoundDown7(gross - Amount(fee)) == RoundDown7(gross) - Amount(fee)
    ensures 0.0 <= RoundDown7(gross - Amount(fee)) && gross - Amount(1) < RoundDown7(gross) <= gross
  {
    assert (gross - Amount(fee)) * 10_000_000.0 == gross * 10_000_000.0 - fee as real;
    FloorShift(gross * 10_000_000.0, fee);
  }

  /** Nothing is lost between platform and recipient except the part below one stroop. */
  lemma FeeAndNetMakeGross(gross: real, bps: int)
    requires 0.0 <= gross && 0 <= bps <= BPS_DENOMINATOR
    ensures 0.0 <= FeeAmount(gross, bps) && 0.0 <= NetAmount(gross, bps)
    ensures FeeAmount(gross, bps) + NetAmount(gross, bps) == RoundDown7(gross)
    ensures gross - Amount(1) < RoundDown7(gross) <= gross
  {
    var fee := FeeIsShare(gross, bps);
    RoundDownMinus(gross, fee);
  }

  lemma ProductMonotone(a: real, a': real, b: real, b': real)
    requires 0.0 <= a <= a' && 0.0 <= b <= b'
    ensures 0.0 <= a * b <= a' * b'
  {
    ScaleMonotone(a, a', b);
    ScaleMonotone(b, b', a');
  }

  /** A dearer sale or a higher rate never lowers the fee. */
  lemma FeeMonotone(gross: real, gross': real, bps: int, bps': int)
    requires 0.0 <= gross <= gross' && 0 <= bps <= bps'
    ensures FeeAmount(gross, bps) <= FeeAmount(gross', bps')
  {
    ProductMonotone(gross, gross', bps as real, bps' as real);
    FeeOfProduct(gross, bps, gross * bps as real);
    FeeOfProduct(gross', bps', gross' * bps' as real);
    RoundDownMonotone(gross * bps as real, gross' * bps' as real);
  }

  lemma RoundDownMonotone(a: real, b: real)
    requires 0.0 <= a <= b
    ensures RoundDown7(a / 10_000.0) <= RoundDown7(b / 10_000.0)
  {
    FloorMonotone(a / 10_000.0 * 10_000_000.0, b / 10_000.0 * 10_000_000.0);
  }

  // ---------------------------------------------------------------- whole stroops

  /** The fee on a stored amount, in stroops. */
  function FeeStroops(gross: int, bps: int): int { gross * bps / BPS_DENOMINATOR }

  function NetStroops(gross: int, bps: int): int { gross - FeeStroops(gross, bps) }

  lemma MulOfReals(a: int, b: nat)
    ensures (a * b) as real == a as real * b as real
  {
    if b > 0 {
      MulOfReals(a, b - 1);
      assert a * b == a * (b - 1) + a;
    }
  }

  lemma FloorOfQuotient(n: int, d: int)
    requires d > 0
    ensures (n as real / d as real).Floor == n / d
  {
    var q, r := n / d, n % d;
    assert n == q * d + r;
    MulOfReals(q, d);
    assert n as real / d as real == q as real + r as real / d as real;
    assert 0.0 <= r as real / d as real < 1.0;
  }

  lemma RoundDownQuotient(n: nat)
    ensures RoundDown7(Amount(n) / 10_000.0) == Amount(n / BPS_DENOMINATOR)
  {
    FloorOfQuotient(n, BPS_DENOMINATOR);
    assert Amount(n) / 10_000.0 * 10_000_000.0 == n as real / 10_000.0;
  }

  lemma ScaledAmount(a: nat, b: nat)
    ensures Amount(a) * b as real == Amount(a * b)
  {
    MulOfReals(a, b);
    var x, y := a as real, b as real;
    assert x / 10_000_000.0 * y == x * y / 10_000_000.0;
  }

  lemma RoundDownStroops(n: nat)
    ensures RoundDown7(Amount(n)) == Amount(n)
  {
    assert Amount(n) * 10_000_000.0 == n as real;
  }

  lemma FeeWithinGross(gross: nat, bps: nat)
    requires bps <= BPS_DENOMINATOR
    ensures 0 <= FeeStroops(gross, bps) <= gross
  {
    assert 0 <= gross * bps <= gross * BPS_DENOMINATOR;
  }

  /** On stored amounts the decimal functions compute `FeeStroops` and `NetStroops`. */
  lemma FeeOfStroops(gross: nat, bps: nat)
    requires bps <= BPS_DENOMINATOR
    ensures FeeAmount(Amount(gross), bps) == Amount(FeeStroops(gross, bps))
    ensures NetAmount(Amount(gross), bps) == Amount(NetStroops(gross, bps))
  {
    ScaledAmount(gross, bps);
    FeeWithinGross(gross, bps);
    assert 0 <= gross * bps;
    RoundDownQuotient(gross * bps);
    var net := gross - FeeStroops(gross, bps);
    assert Amount(gross) - Amount(FeeStroops(gross, bps)) == Amount(net);
    RoundDownStroops(net);
  }

  /** The fee is the platform's share in basis points cut to whole stroops, and the recipient gets the rest. */
  lemma FeeBounds(gross: int, bps: int)
    ensures var fee := FeeStroops(gross, bps);
      fee * 10_000 <= gross * bps < (fee + 1) * 10_000 && NetStroops(gross, bps) == gross - fee
  {
    var product := gross * bps;
    assert product == product / 10_000 * 10_000 + product % 10_000;
  }

  /** The same for decimals of any precision. */
  lemma FeeIsCut(gross: real, bps: int) returns (fee: int)
    requires 0.0 <= gross && 0 <= bps <= BPS_DENOMINATOR
    ensures FeeAmount(gross, bps) == fee as real / 10_000_000.0
    ensures FeeAmount(gross, bps) * 10_000.0 <= gross * bps as real < (FeeAmount(gross, bps) + 0.000_000_1) * 10_000.0
  {
    fee := FeeIsShare(gross, bps);
    FeeOfProduct(gross, bps, gross * bps as real);
  }

  ghost function Total(parts: seq<int>): int { if parts == [] then 0 else parts[0] + Total(parts[1..]) }

  ghost function TotalFee(parts: seq<int>, bps: int): int
  {
    if parts == [] then 0 else FeeStroops(parts[0], bps) + TotalFee(parts[1..], bps)
  }

  lemma QuotientsOfSum(a: int, b: int, d: int)
    requires d > 0
    ensures a / d + b / d <= (a + b) / d <= a / d + b / d + 1
  {
    var q := a / d + b / d;
    assert a + b == q * d + (a % d + b % d);
    if a % d + b % d < d {
      assert (a + b) / d == q by { QuotientIs(a + b, d, q, a % d + b % d); }
    } else {
      assert a + b == (q + 1) * d + (a % d + b % d - d);
      QuotientIs(a + b, d, q + 1, a % d + b % d - d);
    }
  }

  lemma AtLeastOnce(k: int, d: int)
    requires k >= 1 && d > 0
    ensures k * d >= d
  {}

  lemma QuotientIs(n: int, d: int, q: int, r: int)
    requires d > 0 && n == q * d + r && 0 <= r < d
    ensures n / d == q
  {
    var p, s := n / d, n % d;
    QuotientUnique(p, q, d, r, s);
  }

  lemma QuotientUnique(p: int, q: int, d: int, r: int, s: int)
    requires d > 0 && 0 <= r < d && 0 <= s < d && p * d + s == q * d + r
    ensures p == q
  {
    assert (p - q) * d == r - s && (q - p) * d == s - r;
    if p > q { AtLeastOnce(p - q, d); }
    if q > p { AtLeastOnce(q - p, d); }
  }

  /** Splitting a sale into n parts never raises the fee and lowers it by fewer than n stroops. */
  lemma {:induction false} SplittingKeepsFee(parts: seq<int>, bps: int)
    requires parts != []
    ensures TotalFee(parts, bps) <= FeeStroops(Total(parts), bps) < TotalFee(parts, bps) + |parts|
  {
    var rest := Total(parts[1..]);
    assert (parts[0] + rest) * bps == parts[0] * bps + rest * bps;
    if |parts| == 1 {
      assert Total(parts) == parts[0];
    } else {
      SplittingKeepsFee(parts[1..], bps);
      QuotientsOfSum(parts[0] * bps, rest * bps, BPS_DENOMINATOR);
    }
  }

  // ---------------------------------------------------------------- decimal strings

  predicate IsDigit(c: char) { '0' <= c <= '9' }

  predicate AllDigits(s: string) { forall i :: 0 <= i < |s| ==> IsDigit(s[i]) }

  function DigitChar(d: int): (c: char)
    requires 0 <= d < 10
    ensures IsDigit(c) && c as int - '0' as int == d
  {
    ('0' as int + d) as char
  }

  function Pow10(k: nat): (p: int)
    ensures p > 0
  {
    if k == 0 then 1 else 10 * Pow10(k - 1)
  }

  /** The number a string of digits denotes. */
  function DigitsValue(s: string): (n: int)
    requires AllDigits(s)
    ensures 0 <= n < Pow10(|s|)
  {
    if s == "" then 0 else 10 * DigitsValue(s[..|s| - 1]) + (s[|s| - 1] as int - '0' as int)
  }

  function WholeDigits(n: nat): (s: string)
    ensures s != "" && AllDigits(s) && DigitsValue(s) == n
  {
    if n < 10 then [DigitChar(n)] else
      var s := WholeDigits(n / 10) + [DigitChar(n % 10)];
      assert s[..|s| - 1] == WholeDigits(n / 10);
      s
  }

  /** The last `width` digits of `n`, zero-padded. */
  function FractionDigits(n: nat, width: nat): (s: string)
    requires n < Pow10(width)
    ensures |s| == width && AllDigits(s) && DigitsValue(s) == n
  {
    if width == 0 then "" else
      var s := FractionDigits(n / 10, width - 1) + [DigitChar(n % 10)];
      assert s[..|s| - 1] == FractionDigits(n / 10, width - 1);
      s
  }

  /** Position of the decimal point, or the length when there is none. */
  function PointAt(s: string): (i: nat)
    ensures i <= |s|
    ensures forall j :: 0 <= j < i ==> s[j] != '.'
    ensures i < |s| ==> s[i] == '.'
  {
    if s == "" || s[0] == '.' then 0 else 1 + PointAt(s[1..])
  }

  predicate IsUnsignedDecimal(s: string)
  {
    var i := PointAt(s);
    i > 0 && AllDigits(s[..i]) && (i < |s| ==> i + 1 < |s| && AllDigits(s[i + 1..]))
  }

  function Quotient(n: nat, d: int): (q: real)
    requires d > 0
    ensures q >= 0.0
  {
    n as real / d as real
  }

  function UnsignedValue(s: string): (v: real)
    requires IsUnsignedDecimal(s)
    ensures v >= 0.0
  {
    var i := PointAt(s);
    DigitsValue(s[..i]) as real +
    (if i == |s| then 0.0 else Quotient(DigitsValue(s[i + 1..]), Pow10(|s| - i - 1)))
  }

  /** `new Decimal(s)`, for optional sign, digits and fraction; anything else is a failure. */
  function FromStellarAmount(s: string): Option<real>
  {
    if s != "" && s[0] == '-' then
      (if IsUnsignedDecimal(s[1..]) then Some(-UnsignedValue(s[1..])) else None)
    else if IsUnsignedDecimal(s) then Some(UnsignedValue(s))
    else None
  }

  /** `toFixed(7)` of a whole number of stroops. */
  function StroopsToString(k: nat): string
  {
    assert Pow10(7) == STROOPS_PER_UNIT;
    WholeDigits(k / STROOPS_PER_UNIT) + "." + FractionDigits(k % STROOPS_PER_UNIT, 7)
  }

  function ToStellarAmount(v: real): string
  {
    if v >= 0.0 then StroopsToString((v * 10_000_000.0 + 0.5).Floor)
    else "-" + StroopsToString((-v * 10_000_000.0 + 0.5).Floor)
  }

  /** The pattern `^\d+(\.\d{1,7})?$` that prices must match (packages/shared/src/zod/catalogue.ts:3). */
  predicate MatchesPricePattern(s: string)
  {
    IsUnsignedDecimal(s) && |s| - PointAt(s) <= 8
  }

  lemma PointAfterDigits(whole: string, rest: string)
    requires AllDigits(whole)
    ensures PointAt(whole + "." + rest) == |whole|
  {
    var s := whole + "." + rest;
    assert s[|whole|] == '.';
    assert forall j :: 0 <= j < |whole| ==> s[j] == whole[j] && IsDigit(s[j]);
  }

  lemma StroopsParse(k: nat)
    ensures IsUnsignedDecimal(StroopsToString(k))
    ensures UnsignedValue(StroopsToString(k)) == Amount(k)
    ensures StroopsToString(k)[0] != '-'
    ensures |StroopsToString(k)| >= 9 && PointAt(StroopsToString(k)) == |StroopsToString(k)| - 8
  {
    var whole, fraction := WholeDigits(k / STROOPS_PER_UNIT), FractionDigits(k % STROOPS_PER_UNIT, 7);
    var s := StroopsToString(k);
    PointAfterDigits(whole, fraction);
    assert s == whole + "." + fraction;
    assert s[..|whole|] == whole && s[|whole| + 1..] == fraction;
    assert IsDigit(whole[0]) && s[0] == whole[0];
    assert Pow10(7) == STROOPS_PER_UNIT;
    assert k == k / STROOPS_PER_UNIT * STROOPS_PER_UNIT + k % STROOPS_PER_UNIT;
  }

  /** From `start` on, digits up to `i`, where the text ends or a point and more digits follow. */
  predicate DecimalWithPoint(s: string, start: nat, i: nat)
  {
    && start < i <= |s|
    && (forall j :: start <= j < i ==> '0' <= s[j] <= '9')
    && (i < |s| ==> s[i] == '.' && i + 1 < |s| && forall j :: i < j < |s| ==> '0' <= s[j] <= '9')
  }

  ghost predicate IsDecimalFrom(s: string, start: nat) { exists i: nat :: DecimalWithPoint(s, start, i) }

  lemma UnsignedForm(s: string)
    ensures IsUnsignedDecimal(s) <==> IsDecimalFrom(s, 0)
  {
    var p := PointAt(s);
    if IsUnsignedDecimal(s) {
      assert forall j :: 0 <= j < p ==> s[j] == s[..p][j];
      assert p < |s| ==> forall j :: p < j < |s| ==> s[j] == s[p + 1..][j - p - 1];
      assert DecimalWithPoint(s, 0, p);
    }
    if i: nat :| DecimalWithPoint(s, 0, i) {
      assert p == i;
    }
  }

  lemma SignSkipped(s: string)
    requires s != ""
    ensures IsDecimalFrom(s, 1) <==> IsDecimalFrom(s[1..], 0)
  {
    var rest := s[1..];
    assert forall j :: 0 <= j < |rest| ==> rest[j] == s[j + 1];
    if i: nat :| DecimalWithPoint(rest, 0, i) {
      forall j | 1 <= j < |s| ensures s[j] == rest[j - 1] {}
      assert DecimalWithPoint(s, 1, i + 1);
    }
    if i: nat :| DecimalWithPoint(s, 1, i) {
      assert DecimalWithPoint(rest, 0, i - 1);
    }
  }

  /** Which strings are amounts: an optional minus sign, digits, and optionally a point with digits after it. */
  lemma AmountForm(s: string)
    ensures FromStellarAmount(s).Some? <==> IsDecimalFrom(s, 0) || (s != "" && s[0] == '-' && IsDecimalFrom(s, 1))
  {
    hide IsUnsignedDecimal, UnsignedValue;
    UnsignedForm(s);
    if s != "" {
      UnsignedForm(s[1..]);
      SignSkipped(s);
    }
  }

  /** Which strings are prices: digits, or digits, a point and one to seven digits. */
  lemma PriceForm(s: string)
    ensures MatchesPricePattern(s) <==> exists i: nat :: DecimalWithPoint(s, 0, i) && |s| - i - 1 <= 7
  {
    UnsignedForm(s);
    var p := PointAt(s);
    if MatchesPricePattern(s) {
      assert forall j :: p < j < |s| ==> s[j] == s[p + 1..][j - p - 1];
      assert DecimalWithPoint(s, 0, p);
    }
    if i: nat :| DecimalWithPoint(s, 0, i) && |s| - i - 1 <= 7 {
      assert p == i;
    }
  }

  lemma ShiftSum(x: int, p: int, v: int, d: int)
    ensures 10 * (x * p + v) + d == x * (10 * p) + (10 * v + d)
  {}

  lemma {:induction false} DigitsConcat(a: string, b: string)
    requires AllDigits(a) && AllDigits(b)
    ensures AllDigits(a + b) && DigitsValue(a + b) == DigitsValue(a) * Pow10(|b|) + DigitsValue(b)
  {
    if b == "" {
      assert a + b == a;
    } else {
      var n := |b| - 1;
      DigitsConcat(a, b[..n]);
      LastDigitOf(a + b);
      LastDigitOf(b);
      assert (a + b)[..|a + b| - 1] == a + b[..n] && (a + b)[|a + b| - 1] == b[n];
      assert Pow10(|b|) == 10 * Pow10(n);
      hide DigitsValue, Pow10;
      ShiftSum(DigitsValue(a), Pow10(n), DigitsValue(b[..n]), b[n] as int - '0' as int);
    }
  }

  lemma LastDigitOf(s: string)
    requires AllDigits(s) && s != ""
    ensures DigitsValue(s) == 10 * DigitsValue(s[..|s| - 1]) + (s[|s| - 1] as int - '0' as int)
  {}

  lemma DivideSum(a: nat, b: nat, d: int)
    requires d > 0
    ensures (a as real + Quotient(b, d)) * d as real == (a * d + b) as real
  {
    MulOfReals(a, d);
    var x, y, e := a as real, b as real, d as real;
    assert y / e * e == y;
    assert (x + y / e) * e == x * e + y / e * e;
  }

  lemma WholeValue(whole: string)
    requires whole != "" && AllDigits(whole)
    ensures IsUnsignedDecimal(whole) && UnsignedValue(whole) == DigitsValue(whole) as real
  {
    assert PointAt(whole) == |whole| && whole[..|whole|] == whole;
  }

  lemma PointValue(whole: string, fraction: string)
    requires whole != "" && AllDigits(whole) && AllDigits(fraction) && fraction != ""
    ensures IsUnsignedDecimal(whole + "." + fraction)
    ensures UnsignedValue(whole + "." + fraction) == DigitsValue(whole) as real + Quotient(DigitsValue(fraction), Pow10(|fraction|))
  {
    var s := whole + "." + fraction;
    PointAfterDigits(whole, fraction);
    assert s[..|whole|] == whole && s[|whole| + 1..] == fraction;
  }

  lemma Unsigned(s: string)
    requires IsUnsignedDecimal(s)
    ensures FromStellarAmount(s) == Some(UnsignedValue(s))
  {
    assert s[0] == s[..PointAt(s)][0] && IsDigit(s[0]);
    hide UnsignedValue, PointAt;
  }

  /** What such a string is worth: its digits without the point, divided by a power of ten. */
  lemma AmountValue(whole: string, fraction: string)
    requires whole != "" && AllDigits(whole) && AllDigits(fraction)
    ensures FromStellarAmount(whole) == Some(DigitsValue(whole) as real)
    ensures fraction != "" ==>
      var v := FromStellarAmount(whole + "." + fraction);
      v.Some? && AllDigits(whole + fraction) && v.value * Pow10(|fraction|) as real == DigitsValue(whole + fraction) as real
  {
    hide FromStellarAmount, IsUnsignedDecimal, UnsignedValue, DigitsValue, Pow10, Quotient, AllDigits;
    WholeValue(whole);
    Unsigned(whole);
    if fraction != "" {
      PointValue(whole, fraction);
      Unsigned(whole + "." + fraction);
      DigitsConcat(whole, fraction);
      DivideSum(DigitsValue(whole), DigitsValue(fraction), Pow10(|fraction|));
    }
  }

  /** A minus sign negates. */
  lemma MinusNegates(s: string)
    requires s != "" && s[0] != '-'
    ensures FromStellarAmount("-" + s) ==
      if FromStellarAmount(s).Some? then Some(-FromStellarAmount(s).value) else None
  {
    hide IsUnsignedDecimal, UnsignedValue;
    assert ("-" + s)[1..] == s;
  }

  lemma HalfUpIsClose(v: real)
    ensures v >= 0.0 ==> -0.000_000_1 < 2.0 * (HalfUp7(v) - v) <= 0.000_000_1
    ensures v < 0.0 ==> -0.000_000_1 <= 2.0 * (HalfUp7(v) - v) < 0.000_000_1
  {}

  lemma HalfUpIsWhole(v: real)
    ensures HalfUp7(v) * 10_000_000.0 == (HalfUp7(v) * 10_000_000.0).Floor as real
  {
    var k := if v >= 0.0 then (v * 10_000_000.0 + 0.5).Floor else -((-v * 10_000_000.0 + 0.5).Floor);
    assert HalfUp7(v) * 10_000_000.0 == k as real;
  }

  lemma ParseSigned(k: nat)
    ensures FromStellarAmount(StroopsToString(k)) == Some(Amount(k))
    ensures FromStellarAmount("-" + StroopsToString(k)) == Some(-Amount(k))
  {
    StroopsParse(k);
    assert ("-" + StroopsToString(k))[1..] == StroopsToString(k);
  }

  /** Printing then parsing gives the nearest amount with seven digits, the one farther from zero of two that are
      equally near. */
  lemma ParsePrinted(v: real)
    ensures FromStellarAmount(ToStellarAmount(v)) == Some(HalfUp7(v))
    ensures v >= 0.0 ==> -0.000_000_1 < 2.0 * (HalfUp7(v) - v) <= 0.000_000_1
    ensures v < 0.0 ==> -0.000_000_1 <= 2.0 * (HalfUp7(v) - v) < 0.000_000_1
    ensures HalfUp7(v) * 10_000_000.0 == (HalfUp7(v) * 10_000_000.0).Floor as real
  {
    HalfUpIsClose(v);
    HalfUpIsWhole(v);
    PrintedHalfUp(v);
    hide HalfUp7, ToStellarAmount, FromStellarAmount;
  }

  lemma PrintedHalfUp(v: real)
    ensures FromStellarAmount(ToStellarAmount(v)) == Some(HalfUp7(v))
  {
    hide FromStellarAmount, StroopsToString;
    ParseSigned(if v >= 0.0 then (v * 10_000_000.0 + 0.5).Floor else (-v * 10_000_000.0 + 0.5).Floor);
  }

  /** On amounts with at most seven fraction digits the two functions undo each other. */
  lemma RoundTrip(stroops: int)
    ensures FromStellarAmount(ToStellarAmount(Amount(stroops))) == Some(Amount(stroops))
  {
    hide FromStellarAmount, ToStellarAmount;
    ParsePrinted(Amount(stroops));
    if stroops >= 0 {
      assert (Amount(stroops) * 10_000_000.0 + 0.5).Floor == stroops;
    } else {
      assert (-Amount(stroops) * 10_000_000.0 + 0.5).Floor == -stroops;
    }
  }

  lemma Pow10Split(a: nat, b: nat)
    ensures Pow10(a + b) == Pow10(a) * Pow10(b)
  {
    if a > 0 { Pow10Split(a - 1, b); }
  }

  /** A price that passes the pattern is a whole number of stroops. */
  lemma PriceIsStroops(s: string) returns (k: nat)
    requires MatchesPricePattern(s)
    ensures FromStellarAmount(s) == Some(Amount(k))
  {
    var i := PointAt(s);
    assert s[0] == s[..i][0] && IsDigit(s[0]);
    var whole := DigitsValue(s[..i]);
    if i == |s| {
      k := whole * STROOPS_PER_UNIT;
      hide DigitsValue, AllDigits, PointAt, Pow10;
    } else {
      var width := |s| - i - 1;
      var fraction := DigitsValue(s[i + 1..]);
      var part := FractionStroops(fraction, width);
      k := whole * STROOPS_PER_UNIT + part;
      hide DigitsValue, AllDigits, PointAt, Pow10, Quotient;
    }
  }

  // A fraction of `width` digits in stroops.
  lemma FractionStroops(fraction: nat, width: nat) returns (k: nat)
    requires width <= 7
    ensures Quotient(fraction, Pow10(width)) == Amount(k)
  {
    var scale := Pow10(7 - width);
    Pow10Split(width, 7 - width);
    assert Pow10(7) == STROOPS_PER_UNIT;
    NatProduct(fraction, scale);
    k := fraction * scale;
    FractionScales(fraction, Pow10(width), scale);
  }

  lemma NatProduct(a: nat, b: nat)
    ensures 0 <= a * b
  {}

  lemma FractionScales(n: nat, d: int, scale: int)
    requires d > 0 && scale > 0 && d * scale == STROOPS_PER_UNIT
    ensures n as real / d as real == Amount(n * scale)
  {
    MulOfReals(n, scale);
    MulOfReals(d, scale);
    assert d as real * scale as real == 10_000_000.0;
    assert n as real / d as real * (d as real * scale as real) == n as real * scale as real;
  }

  /** A price that passes the pattern parses, and prints to the same value with seven fraction digits. */
  lemma PricePrints(s: string)
    requires MatchesPricePattern(s)
    ensures FromStellarAmount(s).Some?
    ensures var printed := ToStellarAmount(FromStellarAmount(s).value);
      && FromStellarAmount(printed) == FromStellarAmount(s)
      && MatchesPricePattern(printed) && PointAt(printed) == |printed| - 8
  {
    var k := PriceIsStroops(s);
    RoundTrip(k);
    assert (Amount(k) * 10_000_000.0 + 0.5).Floor == k;
    StroopsParse(k);
  }

  // ---------------------------------------------------------------- printing undoes parsing

  /** The form in which amounts are printed: no superfluous leading zero, seven fraction digits. */
  predicate IsPrinted(s: string)
  {
    IsUnsignedDecimal(s) && PointAt(s) == |s| - 8 && NoLeadingZero(s[..PointAt(s)])
  }

  predicate NoLeadingZero(s: string) { s != "" && (|s| == 1 || s[0] != '0') }

  lemma LastDigit(n: int, d: int, m: int, e: int)
    requires 10 * n + d == 10 * m + e && 0 <= d < 10 && 0 <= e < 10
    ensures n == m && d == e
  {}

  lemma {:induction false} SameDigits(a: string, b: string)
    requires AllDigits(a) && AllDigits(b) && |a| == |b| && DigitsValue(a) == DigitsValue(b)
    ensures a == b
  {
    if a != "" {
      var n := |a| - 1;
      var d, e := a[n] as int - '0' as int, b[n] as int - '0' as int;
      assert IsDigit(a[n]) && IsDigit(b[n]);
      LastDigit(DigitsValue(a[..n]), d, DigitsValue(b[..n]), e);
      SameDigits(a[..n], b[..n]);
      assert a == a[..n] + [a[n]] && b == b[..n] + [b[n]];
    }
  }

  lemma {:induction false} LeadingDigitCounts(s: string)
    requires AllDigits(s) && s != "" && s[0] != '0'
    ensures DigitsValue(s) >= 1
  {
    if |s| > 1 {
      LeadingDigitCounts(s[..|s| - 1]);
    }
  }

  lemma {:induction false} WholeIsUnique(s: string)
    requires AllDigits(s) && NoLeadingZero(s)
    ensures WholeDigits(DigitsValue(s)) == s
  {
    var n := |s| - 1;
    var last := s[n] as int - '0' as int;
    if n > 0 {
      WholeIsUnique(s[..n]);
      LeadingDigitCounts(s[..n]);
      assert DigitsValue(s) / 10 == DigitsValue(s[..n]) && DigitsValue(s) % 10 == last;
      assert s == s[..n] + [s[n]];
    } else {
      assert DigitsValue(s[..0]) == 0;
      assert s == [s[0]];
    }
  }

  lemma {:induction false} WholeHasNoLeadingZero(n: nat)
    ensures NoLeadingZero(WholeDigits(n))
    ensures n > 0 ==> WholeDigits(n)[0] != '0'
  {
    if n >= 10 {
      WholeHasNoLeadingZero(n / 10);
    }
  }

  lemma WholeAndFraction(whole: nat, fraction: nat)
    requires fraction < STROOPS_PER_UNIT
    ensures (whole * STROOPS_PER_UNIT + fraction) / STROOPS_PER_UNIT == whole
    ensures (whole * STROOPS_PER_UNIT + fraction) % STROOPS_PER_UNIT == fraction
    ensures whole as real + Quotient(fraction, STROOPS_PER_UNIT) == Amount(whole * STROOPS_PER_UNIT + fraction)
  {}

  // A printed string is its digits around the point.
  lemma PrintedParts(s: string) returns (whole: nat, fraction: nat)
    requires IsPrinted(s)
    ensures fraction < STROOPS_PER_UNIT && UnsignedValue(s) == whole as real + Quotient(fraction, STROOPS_PER_UNIT)
    ensures Pow10(7) == STROOPS_PER_UNIT && s == WholeDigits(whole) + "." + FractionDigits(fraction, 7)
  {
    var i := PointAt(s);
    whole, fraction := DigitsValue(s[..i]), DigitsValue(s[i + 1..]);
    assert Pow10(7) == STROOPS_PER_UNIT && |s[i + 1..]| == 7;
    WholeIsUnique(s[..i]);
    SameDigits(FractionDigits(fraction, 7), s[i + 1..]);
    hide WholeDigits, FractionDigits, DigitsValue, Pow10;
    assert s == s[..i] + "." + s[i + 1..];
  }

  // It denotes a whole number of stroops.
  lemma PrintedValue(s: string) returns (k: nat)
    requires IsPrinted(s)
    ensures FromStellarAmount(s) == Some(Amount(k)) && StroopsToString(k) == s
  {
    assert s[0] == s[..PointAt(s)][0] && IsDigit(s[0]);
    hide PointAt, WholeDigits, FractionDigits, DigitsValue, UnsignedValue, Pow10, Quotient, IsPrinted;
    var whole, fraction := PrintedParts(s);
    WholeAndFraction(whole, fraction);
    k := whole * STROOPS_PER_UNIT + fraction;
  }

  lemma PrintsStroops(k: nat)
    ensures ToStellarAmount(Amount(k)) == StroopsToString(k)
  {
    assert (Amount(k) * 10_000_000.0 + 0.5).Floor == k;
  }

  lemma StringIsPrinted(k: nat)
    ensures IsPrinted(StroopsToString(k))
  {
    StroopsParse(k);
    WholeHasNoLeadingZero(k / STROOPS_PER_UNIT);
    var s := StroopsToString(k);
    var whole := WholeDigits(k / STROOPS_PER_UNIT);
    assert Pow10(7) == STROOPS_PER_UNIT;
    assert |s| == |whole| + 8 && s[..|whole|] == whole;
  }

  /** Parsing an unsigned amount and printing it gives the same string exactly when it is in printed form. */
  lemma PrintParsed(s: string)
    requires IsUnsignedDecimal(s)
    ensures FromStellarAmount(s).Some?
    ensures ToStellarAmount(FromStellarAmount(s).value) == s <==> IsPrinted(s)
  {
    assert s[0] == s[..PointAt(s)][0] && IsDigit(s[0]);
    if IsPrinted(s) {
      var k := PrintedValue(s);
      PrintsStroops(k);
    } else {
      var v := FromStellarAmount(s).value;
      StringIsPrinted((v * 10_000_000.0 + 0.5).Floor);
    }
  }
}
