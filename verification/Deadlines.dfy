/** How far a number of cycles moves a deadline (canister.rs top-ups, migration.rs repricing). */
module Deadlines {
  import opened Types
  import opened Division
  import opened Pricing

  function CostPerSecond(dailyCostCycles: nat): nat {
    dailyCostCycles / SECONDS_PER_DAY
  }

  function SatMul128(a: nat, b: nat): nat {
    Min(a * b, U128_MAX)
  }

  /** The deadline after a top-up: u128 arithmetic that saturates, then a cap at the largest u64. */
  function TopUpDeadline(paidUntilNanos: nat, cycles: nat, dailyCostCycles: nat): nat
    requires CostPerSecond(dailyCostCycles) > 0
  {
    var seconds := cycles / CostPerSecond(dailyCostCycles);
    var nanos := SatMul128(seconds, BILLION);
    var deadline := SatAdd128(paidUntilNanos, nanos);
    if deadline <= U64_MAX then deadline else U64_MAX
  }

  /** The deadline after a switch of conditions: saturate, convert to u64, saturating add. */
  function Reprice(cyclesRemaining: nat, dailyCostCycles: nat, nowNanos: nat): nat {
    var cost := CostPerSecond(dailyCostCycles);
    if cost == 0 then U64_MAX
    else
      var nanos := SatMul128(cyclesRemaining / cost, BILLION);
      if nanos <= U64_MAX then SatAdd64(nowNanos, nanos) else U64_MAX
  }

  /** Whole days bought by a top-up. */
  function DaysAdded(cycles: nat, dailyCostCycles: nat): nat
    requires CostPerSecond(dailyCostCycles) > 0
  {
    Wrap64(cycles / CostPerSecond(dailyCostCycles) / SECONDS_PER_DAY)
  }

  /** The days a top-up reports are the whole days its cycles pay for at the price per second. */
  lemma DaysAddedAreWhole(cycles: nat, dailyCostCycles: nat, cost: nat)
    requires cost == CostPerSecond(dailyCostCycles) && cost > 0 && cycles < cost * SECONDS_PER_DAY * (U64_MAX + 1)
    ensures var days := DaysAdded(cycles, dailyCostCycles);
            cost * SECONDS_PER_DAY * days <= cycles < cost * SECONDS_PER_DAY * days + cost * SECONDS_PER_DAY
  {
    var seconds := Quotient(cycles, cost);
    var days := Quotient(seconds, SECONDS_PER_DAY);
    NestedBounds(cycles, cost, SECONDS_PER_DAY, seconds, days);
    WithinU64(days, cost * SECONDS_PER_DAY, cycles);
  }

  /** The whole days left on a deadline. */
  function DaysRemaining(paidUntilNanos: nat, now: nat): nat {
    if paidUntilNanos <= now then 0 else (paidUntilNanos - now) / (SECONDS_PER_DAY * BILLION)
  }

  /** Both paths compute one exact function of unbounded integers, capped at the largest u64. */
  lemma DeadlinesAreExact(base: nat, cycles: nat, dailyCostCycles: nat)
    requires CostPerSecond(dailyCostCycles) > 0
    ensures var exact := base + BILLION * (cycles / CostPerSecond(dailyCostCycles));
            && TopUpDeadline(base, cycles, dailyCostCycles) == Min(U64_MAX, exact)
            && Reprice(cycles, dailyCostCycles, base) == Min(U64_MAX, exact)
  {
    var seconds := cycles / CostPerSecond(dailyCostCycles);
    assert seconds * BILLION == BILLION * seconds;
  }

  /** Conditions that cost nothing are paid for as long as a u64 can say. */
  lemma FreeConditionsLast(cycles: nat, dailyCostCycles: nat, now: nat)
    requires CostPerSecond(dailyCostCycles) == 0
    ensures Reprice(cycles, dailyCostCycles, now) == U64_MAX
  {
  }

  function Total(payments: seq<nat>): nat {
    if payments == [] then 0 else payments[0] + Total(payments[1..])
  }

  /** The deadline after a list of top-ups. */
  function TopUps(paidUntilNanos: nat, payments: seq<nat>, dailyCostCycles: nat): nat
    requires CostPerSecond(dailyCostCycles) > 0
    decreases |payments|
  {
    if payments == [] then paidUntilNanos
    else TopUps(TopUpDeadline(paidUntilNanos, payments[0], dailyCostCycles), payments[1..], dailyCostCycles)
  }

  /** Splitting a payment never buys more time and costs less than one second per part. */
  lemma {:induction false} SplitTopUpsLoseUnderASecondEach(base: nat, payments: seq<nat>, dailyCostCycles: nat)
    requires CostPerSecond(dailyCostCycles) > 0 && |payments| >= 1
    requires base + BILLION * (Total(payments) / CostPerSecond(dailyCostCycles)) <= U64_MAX
    ensures var apart := TopUps(base, payments, dailyCostCycles);
            var together := TopUpDeadline(base, Total(payments), dailyCostCycles);
            apart <= together < apart + |payments| * BILLION
    decreases |payments|
  {
    var cost := CostPerSecond(dailyCostCycles);
    var first, rest := payments[0], payments[1..];
    DivSum(first, Total(rest), cost);
    DeadlinesAreExact(base, first, dailyCostCycles);
    DeadlinesAreExact(base, Total(payments), dailyCostCycles);
    var next := TopUpDeadline(base, first, dailyCostCycles);
    if rest == [] {
      assert Total(payments) == first;
      assert TopUps(next, rest, dailyCostCycles) == next;
    } else {
      DeadlinesAreExact(next, Total(rest), dailyCostCycles);
      SplitTopUpsLoseUnderASecondEach(next, rest, dailyCostCycles);
    }
  }

  lemma Undercharge(cycles: nat, cost: nat, daily: nat, days: nat)
    requires cost > 0 && cost * SECONDS_PER_DAY <= daily < cost * SECONDS_PER_DAY + SECONDS_PER_DAY
    requires cycles <= cost * daily && cycles < daily * days + daily
    ensures cycles < (cost * SECONDS_PER_DAY) * (days + 2)
  {
    var charged := cost * SECONDS_PER_DAY;
    var rest := daily - charged;
    if cycles >= charged * (days + 2) {
      // More than days + 2 charged days fit into cost nominal days, so cost is large ...
      MulAssociative(cost, SECONDS_PER_DAY, days + 2);
      MulCancel(cost, daily, SECONDS_PER_DAY * (days + 2));
      assert SECONDS_PER_DAY * (days + 2) <= daily < SECONDS_PER_DAY * (cost + 1);
      // ... but then the undercharged rest of days + 1 days is less than one charged day.
      MulDistributes(days + 1, charged, rest);
      MulMonotone(days + 1, rest, SECONDS_PER_DAY);
      assert false;
    }
  }

  lemma DaysWithinOne(cycles: nat, cost: nat, daily: nat, estimated: nat, actual: nat)
    requires cost > 0 && cost * SECONDS_PER_DAY <= daily < cost * SECONDS_PER_DAY + SECONDS_PER_DAY
    requires cycles <= cost * daily
    requires daily * estimated <= cycles + daily / 2 < daily * estimated + daily
    requires (cost * SECONDS_PER_DAY) * actual <= cycles < (cost * SECONDS_PER_DAY) * actual + cost * SECONDS_PER_DAY
    ensures estimated <= actual + 1 && actual <= estimated + 1
  {
    var charged := cost * SECONDS_PER_DAY;
    // Rounding adds at most half a day, and a charged day is never longer than a nominal one.
    if estimated > actual + 1 {
      MulMonotone(daily, actual + 2, estimated);
      MulMonotone(actual, charged, daily);
      assert false;
    }
    // Undercharging adds less than one cycle per second and charged second, so less than a day.
    if actual > estimated + 1 {
      MulMonotone(charged, estimated + 2, actual);
      Undercharge(cycles, cost, daily, estimated);
      assert false;
    }
  }

  /** The estimate rounds days to nearest, the top-up truncates seconds first; for the same cycles
      the two never differ by more than a day. */
  lemma EstimatedAndActualDaysAgree(cycles: nat, dailyCostCycles: nat, cost: nat)
    requires cost == CostPerSecond(dailyCostCycles) && cost > 0
    requires cycles <= cost * dailyCostCycles && cycles < cost * U64_MAX
    requires cycles + dailyCostCycles / 2 <= U128_MAX
    ensures var estimated := EstimatedDays(cycles, dailyCostCycles);
            var actual := DaysAdded(cycles, dailyCostCycles);
            estimated <= actual + 1 && actual <= estimated + 1
  {
    DivBounds(dailyCostCycles, SECONDS_PER_DAY);
    var seconds := Quotient(cycles, cost);
    var actual := Quotient(seconds, SECONDS_PER_DAY);
    var estimated := Quotient(cycles + dailyCostCycles / 2, dailyCostCycles);
    NestedBounds(cycles, cost, SECONDS_PER_DAY, seconds, actual);
    DaysWithinOne(cycles, cost, dailyCostCycles, estimated, actual);
    if seconds >= U64_MAX {
      MulMonotone(cost, U64_MAX, seconds);
    }
  }

  /** A top-up before the deadline adds the days it reports to the days left, or one more where the parts of days left
      and bought make up another. */
  lemma TopUpAddsItsDays(paidUntilNanos: nat, cycles: nat, dailyCostCycles: nat, now: nat)
    requires CostPerSecond(dailyCostCycles) > 0 && now <= paidUntilNanos
    requires paidUntilNanos + BILLION * (cycles / CostPerSecond(dailyCostCycles)) <= U64_MAX
    ensures var added := DaysAdded(cycles, dailyCostCycles);
            var before := DaysRemaining(paidUntilNanos, now);
            var after := DaysRemaining(TopUpDeadline(paidUntilNanos, cycles, dailyCostCycles), now);
            before + added <= after <= before + added + 1
  {
    var seconds := cycles / CostPerSecond(dailyCostCycles);
    DeadlinesAreExact(paidUntilNanos, cycles, dailyCostCycles);
    DivSum(paidUntilNanos - now, BILLION * seconds, SECONDS_PER_DAY * BILLION);
    DivCancel(seconds, SECONDS_PER_DAY, BILLION);
  }
}
