/** The least a swap may return, from the oracle's prices: the program's 128-bit arithmetic and the client's. */
module MinOut {
  import opened Numbers
  import opened Price

  const SLIPPAGE_BPS := 55
  const KEPT_BPS := 10_000 - SLIPPAGE_BPS

  function Pow10(n: nat): nat {
    if n == 0 then 1 else 10 * Pow10(n - 1)
  }

  /** The swap a minimum is asked for. */
  datatype Swap = Swap(amount: u64, payment: Quote, paymentDecimals: u8, asset: Quote, assetDecimals: u8)

  /** A product of `u128`s, unless it overflows. */
  function CheckedMul(a: int, b: int): Option<int> {
    if a * b > U128_MAX then None else Some(a * b)
  }

  function ProgramMinOut(swap: Swap): Result<u64> {
    var worth := swap.amount * SaturatingSub(swap.payment.price, swap.payment.confidence);
    var assetPrice := swap.asset.price + swap.asset.confidence;
    var scale := swap.payment.exponent - swap.asset.exponent + swap.assetDecimals - swap.paymentDecimals;
    var factor := Pow10(if scale < 0 then -scale else scale);
    if factor > U128_MAX then Err(InvalidPriceUpdate)
    else if scale >= 0 then ProgramFloor(swap.amount, CheckedMul(worth, factor), Some(assetPrice))
    else ProgramFloor(swap.amount, Some(worth), CheckedMul(assetPrice, factor))
  }

  function ProgramFloor(amount: u64, numerator: Option<int>, denominator: Option<int>): Result<u64> {
    if numerator.None? || denominator.None? || denominator.value <= 0 then Err(InvalidPriceUpdate)
    else
      var kept := CheckedMul(numerator.value / denominator.value, KEPT_BPS);
      if kept.None? then Err(InvalidPriceUpdate)
      else
        var out := kept.value / 10_000;
        if !(out > 0 || amount == 0) then Err(AmountTooSmall)
        else if 0 <= out <= U64_MAX then Ok(out)
        else Err(InvalidPriceUpdate)
  }

  function ClientMinOut(swap: Swap): Result<int> {
    var payment, asset := swap.payment, swap.asset;
    var worth := swap.amount * if payment.price > payment.confidence then payment.price - payment.confidence else 0;
    var assetPrice := asset.price + asset.confidence;
    var scale := payment.exponent - asset.exponent + swap.assetDecimals - swap.paymentDecimals;
    var factor := Pow10(if scale < 0 then -scale else scale);
    if factor > U128_MAX then Err(InvalidPriceUpdate)
    else if scale >= 0 then ClientFloor(swap.amount, worth * factor, assetPrice)
    else ClientFloor(swap.amount, worth, assetPrice * factor)
  }

  function ClientFloor(amount: u64, numerator: int, denominator: int): Result<int> {
    if numerator > U128_MAX || denominator > U128_MAX || denominator == 0 then Err(InvalidPriceUpdate)
    else
      var scaled := numerator / denominator * KEPT_BPS;
      if scaled > U128_MAX then Err(InvalidPriceUpdate)
      else
        var out := scaled / 10_000;
        if out == 0 && amount != 0 then Err(AmountTooSmall)
        else if out > U64_MAX then Err(InvalidPriceUpdate)
        else Ok(out)
  }

  // The exact worth: what is paid, at the low end of its price, over an asset's price at the high end, in raw units

  function Scale(swap: Swap): int {
    swap.payment.exponent - swap.asset.exponent + swap.assetDecimals - swap.paymentDecimals
  }

  function WorthNumerator(swap: Swap): nat {
    swap.amount * SaturatingSub(swap.payment.price, swap.payment.confidence)
    * Pow10(if Scale(swap) >= 0 then Scale(swap) else 0)
  }

  function WorthDenominator(swap: Swap): nat {
    (swap.asset.price + swap.asset.confidence) * Pow10(if Scale(swap) < 0 then -Scale(swap) else 0)
  }

  lemma ProductIsNatural(a: int, b: int)
    requires a >= 0 && b >= 0
    ensures a * b >= 0
  {
  }

  lemma ProgramDivides(swap: Swap)
    requires ProgramMinOut(swap).Ok?
    ensures WorthDenominator(swap) > 0
    ensures ProgramMinOut(swap).value == WorthNumerator(swap) / WorthDenominator(swap) * KEPT_BPS / 10_000
    ensures swap.amount > 0 ==> ProgramMinOut(swap).value > 0
  {
  }

  /** The minimum is never above 99.45% of the exact worth, is within two raw units of it, and is at least one raw unit
      for a positive amount. */
  lemma MinOutBoundsWorth(swap: Swap)
    requires ProgramMinOut(swap).Ok?
    ensures var out, n, d := ProgramMinOut(swap).value, WorthNumerator(swap), WorthDenominator(swap);
            && d > 0
            && out * 10_000 * d <= n * 9_945 < (out + 2) * 10_000 * d
            && (swap.amount > 0 ==> out >= 1)
  {
    hide ProgramMinOut, WorthNumerator, WorthDenominator;
    ProgramDivides(swap);
    var n, d := WorthNumerator(swap), WorthDenominator(swap);
    QuotientBounds(n, d);
    KeptBounds(n / d, n, d);
  }

  lemma KeptBounds(q: nat, n: nat, d: nat)
    requires q * d <= n < (q + 1) * d
    ensures var out := q * KEPT_BPS / 10_000;
            out * 10_000 * d <= n * 9_945 < (out + 2) * 10_000 * d
  {
    var out := q * KEPT_BPS / 10_000;
    ScaleBound(out * 10_000, q * 9_945, d);
    Regroup(q, d);
    Regroup(q + 1, d);
    ScaleBound((q + 1) * 9_945, (out + 2) * 10_000, d);
  }

  lemma Regroup(q: nat, d: nat)
    ensures q * 9_945 * d == q * d * 9_945
  {
  }

  lemma QuotientBounds(n: nat, d: nat)
    requires d > 0
    ensures n / d * d <= n < (n / d + 1) * d
  {
  }

  lemma ScaleBound(a: int, b: int, d: nat)
    requires a <= b
    ensures a * d <= b * d
  {
  }

  /** Both give the same minimum, or the same error, for every swap. */
  lemma MinOutsAgree(swap: Swap)
    ensures match ProgramMinOut(swap)
            case Ok(out) => ClientMinOut(swap) == Ok(out)
            case Err(e) => ClientMinOut(swap) == Err(e)
  {
    hide Pow10, ProgramFloor, ClientFloor;
    var worth := swap.amount * SaturatingSub(swap.payment.price, swap.payment.confidence);
    var assetPrice := swap.asset.price + swap.asset.confidence;
    var factor := Pow10(if Scale(swap) < 0 then -Scale(swap) else Scale(swap));
    ProductIsNatural(swap.amount, SaturatingSub(swap.payment.price, swap.payment.confidence));
    ProductFits(swap.amount, SaturatingSub(swap.payment.price, swap.payment.confidence));
    ProductIsNatural(worth, factor);
    ProductIsNatural(assetPrice, factor);
    if Scale(swap) >= 0 {
      FloorsAgree(swap.amount, worth * factor, assetPrice);
    } else {
      FloorsAgree(swap.amount, worth, assetPrice * factor);
    }
  }

  function Fitting(value: nat): Option<int> {
    if value > U128_MAX then None else Some(value)
  }

  lemma FloorsAgree(amount: u64, n: nat, d: nat)
    ensures match ProgramFloor(amount, Fitting(n), Fitting(d))
            case Ok(out) => ClientFloor(amount, n, d) == Ok(out)
            case Err(e) => ClientFloor(amount, n, d) == Err(e)
  {
    if d > 0 {
      QuotientBounds(n, d);
    }
  }

  lemma ProductFits(a: u64, b: u64)
    ensures a * b <= U128_MAX
  {
    ScaleBound(a, U64_MAX, b);
  }

  /** More to swap, a higher lowest payment price or a lower highest asset price never lowers the minimum. */
  lemma MinOutMonotone(less: Swap, more: Swap)
    requires ProgramMinOut(less).Ok? && ProgramMinOut(more).Ok?
    requires Scale(less) == Scale(more)
    requires less.amount <= more.amount
    requires SaturatingSub(less.payment.price, less.payment.confidence)
             <= SaturatingSub(more.payment.price, more.payment.confidence)
    requires less.asset.price + less.asset.confidence >= more.asset.price + more.asset.confidence
    ensures ProgramMinOut(less).value <= ProgramMinOut(more).value
  {
    ProgramDivides(less);
    ProgramDivides(more);
    var low, high := SaturatingSub(less.payment.price, less.payment.confidence),
                     SaturatingSub(more.payment.price, more.payment.confidence);
    ProductGrows(less.amount, more.amount, low, high);
    var up := Pow10(if Scale(less) >= 0 then Scale(less) else 0);
    var down := Pow10(if Scale(less) < 0 then -Scale(less) else 0);
    ProductGrows(less.amount * low, more.amount * high, up, up);
    ProductGrows(more.asset.price + more.asset.confidence, less.asset.price + less.asset.confidence, down, down);
    QuotientGrows(WorthNumerator(less), WorthNumerator(more), WorthDenominator(less), WorthDenominator(more));
  }

  lemma ProductGrows(a: nat, b: nat, c: nat, d: nat)
    requires a <= b && c <= d
    ensures 0 <= a * c <= b * d
  {
    ScaleBound(a, b, c);
    ScaleBound(c, d, b);
  }

  lemma QuotientGrows(n: nat, m: nat, d: nat, e: nat)
    requires n <= m && d >= e > 0
    ensures n / d <= m / e
  {
    QuotientBounds(n, d);
    QuotientBounds(m, e);
    var q, p := n / d, m / e;
    if q > p {
      ScaleBound(p + 1, q, e);
      ScaleBound(e, d, q);
    }
  }

  // In dollars

  /** Ten to the power of `n`. */
  ghost function TenTo(n: int): real
    decreases if n < 0 then -n else n
  {
    if n == 0 then 1.0 else if n > 0 then 10.0 * TenTo(n - 1) else TenTo(n + 1) / 10.0
  }

  lemma {:induction false} TenToNext(n: int)
    ensures TenTo(n + 1) == 10.0 * TenTo(n)
  {
  }

  lemma {:induction false} TenToPositive(n: int)
    ensures TenTo(n) > 0.0
    decreases if n < 0 then -n else n
  {
    if n > 0 {
      TenToPositive(n - 1);
    } else if n < 0 {
      TenToPositive(n + 1);
    }
  }

  lemma {:induction false} TenToAdds(a: int, n: nat)
    ensures TenTo(a + n) == TenTo(a) * Pow10(n) as real
  {
    if n > 0 {
      TenToAdds(a, n - 1);
      TenToNext(a + n - 1);
      assert Pow10(n) as real == 10.0 * Pow10(n - 1) as real;
    }
  }

  /** What is paid, in dollars, at the low end of its price. */
  ghost function PaidDollars(swap: Swap): real {
    var low := if swap.payment.price > swap.payment.confidence then swap.payment.price - swap.payment.confidence else 0;
    (swap.amount * low) as real * TenTo(swap.payment.exponent - swap.paymentDecimals)
  }

  /** What one raw unit of the asset costs, in dollars, at the high end of its price. */
  ghost function UnitDollars(swap: Swap): real {
    (swap.asset.price + swap.asset.confidence) as real * TenTo(swap.asset.exponent - swap.assetDecimals)
  }

  lemma {:induction false} RealProduct(a: nat, b: nat)
    ensures (a * b) as real == a as real * b as real
    decreases b
  {
    if b > 0 {
      RealProduct(a, b - 1);
      assert a * b == a * (b - 1) + a;
    }
  }

  /** The exact worth in dollars: numerator and denominator are what is paid and what a unit costs, on one scale. */
  lemma WorthInDollars(swap: Swap) returns (f: real)
    ensures f > 0.0
    ensures PaidDollars(swap) == WorthNumerator(swap) as real * f
    ensures UnitDollars(swap) == WorthDenominator(swap) as real * f
  {
    hide TenTo;
    var x, y := swap.payment.exponent - swap.paymentDecimals, swap.asset.exponent - swap.assetDecimals;
    var low := SaturatingSub(swap.payment.price, swap.payment.confidence);
    ProductIsNatural(swap.amount, low);
    assert Pow10(0) == 1;
    hide Pow10;
    if x >= y {
      f := TenTo(y);
      Rescaled(swap.amount * low, y, x - y);
    } else {
      f := TenTo(x);
      Rescaled(swap.asset.price + swap.asset.confidence, x, y - x);
    }
  }

  lemma Rescaled(a: nat, n: int, k: nat)
    ensures TenTo(n) > 0.0
    ensures a as real * TenTo(n + k) == (a * Pow10(k)) as real * TenTo(n)
  {
    hide TenTo, Pow10;
    TenToPositive(n);
    TenToAdds(n, k);
    RealProduct(a, Pow10(k));
    Regrouped(a as real, TenTo(n), Pow10(k) as real);
  }

  lemma Regrouped(a: real, b: real, c: real)
    ensures a * (b * c) == a * c * b
  {
  }

  lemma BoundsScaled(out: nat, n: nat, d: nat, f: real)
    requires d > 0 && f > 0.0
    requires out * 10_000 * d <= n * 9_945 < (out + 2) * 10_000 * d
    ensures var unit, paid := d as real * f, n as real * f;
            unit > 0.0 && out as real * unit <= 0.9945 * paid < (out as real + 2.0) * unit
  {
    RealProduct(out, d);
    assert out * 10_000 * d == 10_000 * (out * d);
    assert (out + 2) * 10_000 * d == 10_000 * (out * d) + 20_000 * d;
    var o, u, p := out as real, d as real, n as real;
    assert o * u <= 0.9945 * p < o * u + 2.0 * u;
    Grows(o * u, 0.9945 * p, f);
    GrowsStrictly(0.9945 * p, o * u + 2.0 * u, f);
  }

  lemma Grows(a: real, b: real, f: real)
    requires a <= b && f > 0.0
    ensures a * f <= b * f
  {
  }

  lemma GrowsStrictly(a: real, b: real, f: real)
    requires a < b && f > 0.0
    ensures a * f < b * f
  {
  }

  /** A swap's minimum costs at most 99.45% of what is paid, and two raw units more would cost more than that. */
  lemma MinOutInDollars(swap: Swap)
    requires ProgramMinOut(swap).Ok?
    ensures var out, paid, unit := ProgramMinOut(swap).value as real, PaidDollars(swap), UnitDollars(swap);
            && unit > 0.0
            && out * unit <= 0.9945 * paid < (out + 2.0) * unit
  {
    hide ProgramMinOut, PaidDollars, UnitDollars, WorthNumerator, WorthDenominator;
    MinOutBoundsWorth(swap);
    var f := WorthInDollars(swap);
    BoundsScaled(ProgramMinOut(swap).value, WorthNumerator(swap), WorthDenominator(swap), f);
  }

  // Refusals

  /** A minimum is refused as too small exactly if nothing would be left of a positive amount, and as unusable exactly
      if the asset has no price, or a number on the way does not fit 128 bits or the result 64. */
  lemma MinOutRefuses(swap: Swap)
    ensures var n, d := WorthNumerator(swap), WorthDenominator(swap);
            var size := 0x1_0000_0000_0000_0000_0000_0000_0000_0000;
            var fits := && Pow10(if Scale(swap) < 0 then -Scale(swap) else Scale(swap)) < size
                        && n < size && 0 < d < size && n / d * 9_945 < size;
            && (ProgramMinOut(swap) == Err(AmountTooSmall) <==> fits && n / d * 9_945 < 10_000 && swap.amount > 0)
            && (ProgramMinOut(swap) == Err(InvalidPriceUpdate)
                <==> !fits || n / d * 9_945 / 10_000 > 0xFFFF_FFFF_FFFF_FFFF)
  {
    hide ProgramMinOut, ProgramFloor, WorthNumerator, WorthDenominator, Pow10;
    FloorOfWorth(swap);
    FloorRefuses(swap.amount, WorthNumerator(swap), WorthDenominator(swap));
  }

  lemma FloorOfWorth(swap: Swap)
    ensures ProgramMinOut(swap)
            == if Pow10(if Scale(swap) < 0 then -Scale(swap) else Scale(swap)) > U128_MAX then Err(InvalidPriceUpdate)
               else ProgramFloor(swap.amount, Fitting(WorthNumerator(swap)), Fitting(WorthDenominator(swap)))
  {
    hide Pow10, ProgramFloor;
    PowerOfZero();
    var worth := swap.amount * SaturatingSub(swap.payment.price, swap.payment.confidence);
    ProductIsNatural(swap.amount, SaturatingSub(swap.payment.price, swap.payment.confidence));
    ProductFits(swap.amount, SaturatingSub(swap.payment.price, swap.payment.confidence));
    assert worth * 1 == worth;
  }

  lemma FloorRefuses(amount: u64, n: nat, d: nat)
    ensures var fits := n <= U128_MAX && 0 < d <= U128_MAX && n / d * 9_945 <= U128_MAX;
            var floor := ProgramFloor(amount, Fitting(n), Fitting(d));
            && (floor == Err(AmountTooSmall) <==> fits && n / d * 9_945 < 10_000 && amount > 0)
            && (floor == Err(InvalidPriceUpdate) <==> !fits || n / d * 9_945 / 10_000 > U64_MAX)
  {
    hide CheckedMul;
    if d > 0 {
      QuotientIsNatural(n, d);
      Kept(n / d);
    }
  }

  lemma QuotientIsNatural(n: nat, d: nat)
    requires d > 0
    ensures n / d >= 0
  {
  }

  lemma Kept(q: nat)
    ensures CheckedMul(q, KEPT_BPS) == if q * 9_945 > U128_MAX then None else Some(q * 9_945)
    ensures 0 <= q * 9_945 / 10_000 && (q * 9_945 / 10_000 == 0 <==> q * 9_945 < 10_000)
  {
  }

  lemma PowerOfZero()
    ensures Pow10(0) == 1
  {
  }
}
