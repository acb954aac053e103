/** Prices and estimates (canister.rs): cycles to ICP and back. */
module Pricing {
  import opened Types
  import opened Division

  function Pow10(n: nat): (r: nat)
    ensures r >= 1
  {
    if n == 0 then 1 else 10 * Pow10(n - 1)
  }

  function CheckedMul128(a: nat, b: nat): Option<nat> {
    if a * b <= U128_MAX then Some(a * b) else None
  }

  function CheckedDiv(a: nat, b: nat): Option<nat> {
    if b == 0 then None else Some(a / b)
  }

  function Then(x: Option<nat>, f: nat -> Option<nat>): Option<nat> {
    match x case None => None case Some(v) => f(v)
  }

  /** The ICP price (e8s) of an initial rental period, or None where a checked operation fails. */
  function CalculateSubnetPrice(dailyCostCycles: nat, days: nat, rate: nat, decimals: nat): Option<nat> {
    var needed := CheckedMul128(dailyCostCycles, days);
    var scaled := Then(needed, x => CheckedMul128(x, Wrap128(Pow10(decimals))));
    var perRate := Then(scaled, x => CheckedDiv(x, rate));
    var e8s := Then(perRate, x => CheckedDiv(x, 10_000));
    Then(e8s, x => Some(Wrap64(x)))
  }

  datatype Estimate = TooSmall | DivisionByZero | Estimated(cycles: nat, days: nat)

  function EstimatedDays(cycles: nat, dailyCostCycles: nat): nat
    requires dailyCostCycles > 0
  {
    Wrap64(Wrap128(cycles + dailyCostCycles / 2) / dailyCostCycles)
  }

  /** What `icp` e8s would buy at the given rate. */
  function SubnetTopUpEstimate(icp: nat, rate: nat, decimals: nat, dailyCostCycles: nat): Estimate {
    if icp < DEFAULT_FEE then TooSmall
    else
      var scale := Wrap128(Pow10(decimals)) / 10_000;
      if scale == 0 || dailyCostCycles == 0 then DivisionByZero
      else
        var cycles := SatSub(icp - DEFAULT_FEE, DEFAULT_FEE) * rate / scale;
        Estimated(cycles, EstimatedDays(cycles, dailyCostCycles))
  }

  lemma Pow10Split(decimals: nat)
    requires 4 <= decimals <= 19
    ensures Pow10(decimals) == 10_000 * Pow10(decimals - 4)
    ensures Pow10(decimals) <= U64_MAX
    ensures Wrap128(Pow10(decimals)) == Pow10(decimals)
    ensures Wrap128(Pow10(decimals)) / 10_000 == Pow10(decimals - 4)
  {
    var d := decimals - 4;
    assert Pow10(d + 1) == 10 * Pow10(d);
    assert Pow10(d + 2) == 10 * Pow10(d + 1);
    assert Pow10(d + 3) == 10 * Pow10(d + 2);
    assert Pow10(d + 4) == 10 * Pow10(d + 3);
    Pow10Bound(d);
  }

  lemma {:induction false} Pow10Bound(n: nat)
    requires n <= 15
    ensures Pow10(n) <= 1_000_000_000_000_000
  {
    Pow10AtMost(n, 15);
    assert Pow10(5) == 100_000 by { assert Pow10(2) == 100; assert Pow10(4) == 10_000; }
    assert Pow10(10) == 10_000_000_000 by { assert Pow10(7) == 10_000_000; assert Pow10(9) == 1_000_000_000; }
    assert Pow10(12) == 1_000_000_000_000;
    assert Pow10(14) == 100_000_000_000_000;
  }

  lemma {:induction false} Pow10AtMost(n: nat, m: nat)
    requires n <= m
    ensures Pow10(n) <= Pow10(m)
  {
    if n < m {
      Pow10AtMost(n, m - 1);
    }
  }

  lemma RoundingsCollapse(needed: nat, scale: nat, rate: nat)
    requires rate > 0
    ensures needed * (10_000 * scale) / rate / 10_000 == needed * scale / rate
  {
    var scaled := needed * scale;
    MulAssociative(needed, scale, 10_000);
    assert needed * (10_000 * scale) == scaled * 10_000;
    DivNested(scaled * 10_000, rate, 10_000);
    DivCancel(scaled, rate, 10_000);
  }

  lemma PriceOf(needed: nat, scale: nat, rate: nat, price: nat)
    requires rate > 0 && rate * price <= needed * scale < rate * price + rate
    ensures needed * (10_000 * scale) / rate / 10_000 == price
  {
    DivUnique(needed * scale, rate, price);
    RoundingsCollapse(needed, scale, rate);
  }

  /** The two roundings of the price collapse into one: it is cycles * 10^(decimals-4) / rate. */
  lemma PriceIsOneDivision(dailyCostCycles: nat, days: nat, rate: nat, decimals: nat, price: nat)
    requires rate > 0 && 4 <= decimals <= 19 && price <= U64_MAX
    requires dailyCostCycles * days * Pow10(decimals) <= U128_MAX
    requires rate * price <= dailyCostCycles * days * Pow10(decimals - 4) < rate * price + rate
    ensures CalculateSubnetPrice(dailyCostCycles, days, rate, decimals) == Some(price)
  {
    Pow10Split(decimals);
    var needed, scale := dailyCostCycles * days, Pow10(decimals - 4);
    MulMonotone(needed, 1, Pow10(decimals));
    PriceOf(needed, scale, rate, price);
  }

  lemma EstimateIsOneDivision(price: nat, rate: nat, decimals: nat, dailyCostCycles: nat, cycles: nat)
    requires 4 <= decimals <= 19 && price >= 2 * DEFAULT_FEE && dailyCostCycles > 0
    requires Pow10(decimals - 4) * cycles <= (price - 2 * DEFAULT_FEE) * rate
    requires (price - 2 * DEFAULT_FEE) * rate < Pow10(decimals - 4) * cycles + Pow10(decimals - 4)
    ensures SubnetTopUpEstimate(price, rate, decimals, dailyCostCycles)
         == Estimated(cycles, EstimatedDays(cycles, dailyCostCycles))
  {
    Pow10Split(decimals);
    DivUnique((price - 2 * DEFAULT_FEE) * rate, Pow10(decimals - 4), cycles);
  }

  /** The estimated cycles fall short of the cycles the price was made for by less than
      the two fees and one e8s are worth, plus one. */
  lemma EstimateShortfall(needed: nat, scale: nat, rate: nat, price: nat, cycles: nat)
    requires scale > 0 && price >= 2 * DEFAULT_FEE
    requires rate * price <= needed * scale < rate * price + rate
    requires scale * cycles <= (price - 2 * DEFAULT_FEE) * rate < scale * cycles + scale
    ensures cycles <= needed && needed * scale < cycles * scale + (2 * DEFAULT_FEE + 1) * rate + scale
  {
    MulDistributes(rate, price - 2 * DEFAULT_FEE, 2 * DEFAULT_FEE);
    MulCancel(scale, needed, cycles);
  }

  lemma NearestDay(needed: nat, cycles: nat, scale: nat, margin: nat, daily: nat, days: nat)
    requires needed == daily * days && daily > 0 && scale > 0
    requires cycles <= needed && needed * scale < cycles * scale + margin
    requires 2 * margin <= daily * scale
    ensures (cycles + daily / 2) / daily == days
  {
    var missing := needed - cycles;
    MulDistributes(scale, cycles, missing);
    MulAssociative(2, scale, missing);
    MulAssociative(scale, 2, missing);
    if 2 * missing >= daily {
      MulMonotone(scale, daily, 2 * missing);
      assert false;
    }
    DivUnique(cycles + daily / 2, daily, days);
  }

  /** A price above zero leaves room in u128 to add half a day to the cycles it was made for. */
  lemma RoomForHalfADay(daily: nat, days: nat, scale: nat)
    requires scale > 0 && days > 0
    requires (daily * days) * (10_000 * scale) <= U128_MAX
    ensures daily * days + daily / 2 <= U128_MAX
  {
    MulMonotone(daily, 1, days);
    MulMonotone(daily * days, 10_000, 10_000 * scale);
  }

  /** The round trip, with both quotients given by their bounds. */
  lemma EstimateFindsDays(daily: nat, days: nat, scale: nat, rate: nat, price: nat, cycles: nat)
    requires rate > 0 && scale > 0 && daily > 0 && price >= 2 * DEFAULT_FEE
    requires rate * price <= (daily * days) * scale < rate * price + rate
    requires scale * cycles <= (price - 2 * DEFAULT_FEE) * rate < scale * cycles + scale
    requires 2 * ((2 * DEFAULT_FEE + 1) * rate + scale) <= daily * scale
    requires (daily * days) * (10_000 * scale) <= U128_MAX
    ensures cycles + daily / 2 <= U128_MAX && (cycles + daily / 2) / daily == days
  {
    EstimateShortfall(daily * days, scale, rate, price, cycles);
    NearestDay(daily * days, cycles, scale, (2 * DEFAULT_FEE + 1) * rate + scale, daily, days);
    MulMonotone(rate, 1, price);
    if days == 0 {
      assert false;
    }
    RoomForHalfADay(daily, days, scale);
  }

  /** The quotients behind a price for `scaled` (cycles times scale) and the cycles estimated for it less `fees`. */
  lemma Quotes(scaled: nat, scale: nat, rate: nat, fees: nat, high: nat) returns (price: nat, cycles: nat)
    requires rate > 0 && scale > 0 && rate * fees <= scaled < rate * high
    ensures fees <= price < high && rate * price <= scaled < rate * price + rate
    ensures scale * cycles <= (price - fees) * rate < scale * cycles + scale
  {
    price := Quotient(scaled, rate);
    QuotientRange(scaled, rate, price, fees, high);
    cycles := Quotient((price - fees) * rate, scale);
  }

  /** Estimating the days that a freshly quoted price buys gives back the quoted period, as long as
      the price fits a u64, covers two fees, and two fees and one e8s, plus one cycle of rounding,
      are worth at most half a day. */
  lemma PriceEstimateRoundTrip(dailyCostCycles: nat, days: nat, rate: nat, decimals: nat)
    requires 0 < rate <= U64_MAX && 4 <= decimals <= 19 && days <= U64_MAX && dailyCostCycles > 0
    requires 2 * ((2 * DEFAULT_FEE + 1) * rate + Pow10(decimals - 4)) <= dailyCostCycles * Pow10(decimals - 4)
    requires dailyCostCycles * days * Pow10(decimals) <= U128_MAX
    requires rate * (2 * DEFAULT_FEE) <= dailyCostCycles * days * Pow10(decimals - 4) < rate * (U64_MAX + 1)
    ensures var price := CalculateSubnetPrice(dailyCostCycles, days, rate, decimals);
            && price.Some?
            && var estimate := SubnetTopUpEstimate(price.value, rate, decimals, dailyCostCycles);
            && estimate.Estimated?
            && estimate.days == days
  {
    var scale := Pow10(decimals - 4);
    var price, cycles := Quotes(dailyCostCycles * days * scale, scale, rate, 2 * DEFAULT_FEE, U64_MAX + 1);
    PriceIsOneDivision(dailyCostCycles, days, rate, decimals, price);
    EstimateIsOneDivision(price, rate, decimals, dailyCostCycles, cycles);
    assert EstimatedDays(cycles, dailyCostCycles) == days by {
      Pow10Split(decimals);
      EstimateFindsDays(dailyCostCycles, days, scale, rate, price, cycles);
    }
  }

  /** For the conditions on offer and the nine decimals the exchange rate canister uses, the initial period comes
      back exactly for every rate up to a million XDR per ICP at which the price fits a u64. */
  lemma RoundTripOfTheConditionsOnOffer(condition: ConditionId, rate: nat)
    requires (match condition case App13CH => 801 case App7CH => 430) <= rate <= 1_000_000_000_000_000
    ensures condition in INITIAL_CONDITIONS
    ensures var c := INITIAL_CONDITIONS[condition];
            var price := CalculateSubnetPrice(c.dailyCostCycles, c.initialRentalPeriodDays, rate, 9);
            && price.Some?
            && var estimate := SubnetTopUpEstimate(price.value, rate, 9, c.dailyCostCycles);
            && estimate.Estimated?
            && estimate.days == INITIAL_RENTAL_PERIOD_DAYS
  {
    assert condition in INITIAL_CONDITIONS by { match condition case App13CH => case App7CH => }
    var c := INITIAL_CONDITIONS[condition];
    assert Pow10(5) == 100_000 by { assert Pow10(2) == 100; assert Pow10(4) == 10_000; }
    assert Pow10(9) == 1_000_000_000 by { assert Pow10(7) == 10_000_000; }
    PriceEstimateRoundTrip(c.dailyCostCycles, c.initialRentalPeriodDays, rate, 9);
  }

  // ---------------------------------------------------------------- what is charged and estimated, exactly

  /** `cost` e8s are what `cycles` cost at `rate` / 10^decimals XDR per ICP, rounded down, unless that exceeds a u64. */
  predicate Quoted(cycles: nat, rate: nat, decimals: nat, cost: nat) {
    && rate > 0
    && var scaled := cycles * Pow10(decimals);
       scaled < 10_000 * rate * (U64_MAX + 1) ==> 10_000 * rate * cost <= scaled < 10_000 * rate * cost + 10_000 * rate
  }

  /** The same without the factor of 10^4 between cycles per XDR and e8s per ICP. */
  lemma QuotedInE8s(cycles: nat, rate: nat, decimals: nat, cost: nat)
    requires Quoted(cycles, rate, decimals, cost) && decimals >= 4
    requires cycles * Pow10(decimals - 4) < rate * (U64_MAX + 1)
    ensures rate * cost <= cycles * Pow10(decimals - 4) < rate * (cost + 1)
  {
    var scale := Pow10(decimals - 4);
    assert Pow10(decimals) == 10_000 * scale by { FourDigits(decimals - 4); }
    TenThousandfold(cycles, scale, rate, cost);
  }

  lemma TenThousandfold(cycles: nat, scale: nat, rate: nat, cost: nat)
    requires cycles * scale < rate * (U64_MAX + 1)
    requires cycles * (10_000 * scale) < 10_000 * rate * (U64_MAX + 1) ==>
               10_000 * rate * cost <= cycles * (10_000 * scale) < 10_000 * rate * cost + 10_000 * rate
    ensures rate * cost <= cycles * scale < rate * (cost + 1)
  {
    MulAssociative(10_000, cycles, scale);
    assert cycles * (10_000 * scale) == 10_000 * (cycles * scale);
    MulAssociative(10_000, rate, U64_MAX + 1);
    MulAssociative(10_000, rate, cost);
    MulDistributes(rate, cost, 1);
  }

  lemma FourDigits(n: nat)
    ensures Pow10(n + 4) == 10_000 * Pow10(n)
  {
    assert Pow10(n + 1) == 10 * Pow10(n);
    assert Pow10(n + 2) == 10 * Pow10(n + 1);
    assert Pow10(n + 3) == 10 * Pow10(n + 2);
    assert Pow10(n + 4) == 10 * Pow10(n + 3);
  }

  /** Up to 38 decimals the power of ten fits a u128. */
  lemma Pow10Fits(n: nat)
    requires n <= 38
    ensures Wrap128(Pow10(n)) == Pow10(n)
  {
    Pow10AtMost(n, 38);
    assert Pow10(2) == 100;
    FourDigits(2);
    FourDigits(6);
    FourDigits(10);
    FourDigits(14);
    FourDigits(18);
    FourDigits(22);
    FourDigits(26);
    FourDigits(30);
    FourDigits(34);
  }

  lemma TwoQuotients(scaled: nat, rate: nat) returns (q: nat)
    requires rate > 0
    ensures q == scaled / rate / 10_000
    ensures 10_000 * rate * q <= scaled < 10_000 * rate * q + 10_000 * rate
  {
    DivNested(scaled, rate, 10_000);
    assert rate * 10_000 == 10_000 * rate;
    q := Quotient(scaled, 10_000 * rate);
  }

  lemma WithinU64(q: nat, unit: nat, scaled: nat)
    requires unit * q <= scaled < unit * (U64_MAX + 1)
    ensures q <= U64_MAX
  {
    if q > U64_MAX {
      MulMonotone(unit, U64_MAX + 1, q);
    }
  }

  lemma FactorsFit(needed: nat, scale: nat)
    requires scale >= 1 && needed * scale <= U128_MAX
    ensures needed <= U128_MAX
  {
    MulMonotone(needed, 1, scale);
  }

  /** A price is refused exactly for a rate of zero or when the scaled cycles exceed a u128, and is the exact
      quotient otherwise. */
  lemma PriceIsExact(daily: nat, days: nat, rate: nat, decimals: nat)
    requires decimals <= 38
    ensures var price := CalculateSubnetPrice(daily, days, rate, decimals);
            && (price.None? <==> rate == 0 || daily * days * Pow10(decimals) > U128_MAX)
            && (price.Some? ==> Quoted(daily * days, rate, decimals, price.value) && price.value <= U64_MAX)
  {
    Pow10Fits(decimals);
    var scaled := daily * days * Pow10(decimals);
    if scaled <= U128_MAX {
      FactorsFit(daily * days, Pow10(decimals));
      if rate > 0 {
        var q := TwoQuotients(scaled, rate);
        if scaled < 10_000 * rate * (U64_MAX + 1) {
          WithinU64(q, 10_000 * rate, scaled);
        }
      }
    }
  }

  /** An estimate is refused exactly below one fee, and otherwise is for the cycles that the amount less two fees
      buys, rounded down. */
  lemma EstimateIsExact(icp: nat, rate: nat, decimals: nat, daily: nat)
    requires 4 <= decimals <= 38 && daily > 0
    ensures var estimate := SubnetTopUpEstimate(icp, rate, decimals, daily);
            && (estimate.TooSmall? <==> icp < DEFAULT_FEE)
            && (icp >= DEFAULT_FEE ==>
                  && estimate.Estimated? && estimate.days == EstimatedDays(estimate.cycles, daily)
                  && var scale := Pow10(decimals - 4);
                     scale * estimate.cycles <= SatSub(icp, 2 * DEFAULT_FEE) * rate < scale * estimate.cycles + scale)
  {
    hide Pow10, EstimatedDays;
    Pow10Fits(decimals);
    FourDigits(decimals - 4);
    assert SatSub(SatSub(icp, DEFAULT_FEE), DEFAULT_FEE) == SatSub(icp, 2 * DEFAULT_FEE);
    DivBounds(SatSub(icp, 2 * DEFAULT_FEE) * rate, Pow10(decimals - 4));
  }

  lemma WithinHalfADay(cycles: nat, daily: nat, days: nat)
    requires daily * days <= cycles + daily / 2 < daily * days + daily
    ensures 2 * (days * daily) <= 2 * cycles + daily && 2 * cycles < 2 * (days * daily) + daily
  {
    assert days * daily == daily * days;
  }

  /** Estimated days are the nearest number of days: off by half a day at most. */
  lemma EstimatedDaysAreNearest(cycles: nat, daily: nat)
    requires daily > 0 && cycles + daily / 2 <= U128_MAX && cycles + daily / 2 < daily * (U64_MAX + 1)
    ensures var bought := EstimatedDays(cycles, daily) * daily;
            2 * bought <= 2 * cycles + daily && 2 * cycles < 2 * bought + daily
  {
    var days := Quotient(cycles + daily / 2, daily);
    WithinU64(days, daily, cycles + daily / 2);
    WithinHalfADay(cycles, daily, days);
  }
}
