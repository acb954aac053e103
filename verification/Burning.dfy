/** The per-agreement step of `burn_cycles` (canister.rs) and how it paces an agreement's cycles
    towards the deadline. */
module Burning {
  import opened Types
  import opened Division

  const BURN_INTERVAL_SECONDS: nat := 60
  const BURN_INTERVAL_NANOS: nat := BURN_INTERVAL_SECONDS * BILLION

  /** Whole seconds until the agreement is no longer paid for. */
  function SecondsLeft(a: RentalAgreement, now: nat): nat {
    SatSub(a.paidUntilNanos, now) / BILLION
  }

  /** One minute's share of the remaining cycles, spread over the seconds left. */
  function MinuteShare(remaining: nat, secondsLeft: nat): nat
    requires secondsLeft > 0
  {
    Min(Wrap128(remaining / secondsLeft * BURN_INTERVAL_SECONDS), remaining)
  }

  /** The agreement and the canister's cycle balance after `ask` cycles were to be burned: the system
      burns no more than the balance. */
  datatype Burn = DivisionTrap | Burned(agreement: RentalAgreement, balance: nat)

  function BurnUpTo(a: RentalAgreement, balance: nat, ask: nat): Burn {
    var burned := Min(ask, balance);
    Burned(a.(totalCyclesBurned := SatAdd128(a.totalCyclesBurned, burned)), balance - burned)
  }

  function BurnOne(a: RentalAgreement, balance: nat, now: nat): Burn {
    if a.Remaining() == 0 then Burned(a, balance)
    else if now >= a.paidUntilNanos then BurnUpTo(a, balance, a.Remaining())
    else if SecondsLeft(a, now) == 0 then DivisionTrap
    else BurnUpTo(a, balance, MinuteShare(a.Remaining(), SecondsLeft(a, now)))
  }

  /** An agreement whose totals are u128 values, with at most what was created burned. */
  predicate Sound(a: RentalAgreement) {
    a.totalCyclesBurned <= a.totalCyclesCreated <= U128_MAX
  }

  /** The burn step traps exactly in the last second of a deadline with cycles left. */
  lemma BurnTrapsExactlyInTheLastSecond(a: RentalAgreement, balance: nat, now: nat)
    ensures BurnOne(a, balance, now).DivisionTrap?
       <==> a.Remaining() > 0 && now < a.paidUntilNanos < now + BILLION
  {
    if now < a.paidUntilNanos {
      DivAtLeast(a.paidUntilNanos - now, BILLION, 1);
    }
  }

  /** Every cycle that leaves the balance is booked as burned, and never more than was created. */
  lemma BurnConserves(a: RentalAgreement, balance: nat, now: nat)
    requires Sound(a) && BurnOne(a, balance, now).Burned?
    ensures var Burned(a', balance') := BurnOne(a, balance, now);
            && Sound(a')
            && a' == a.(totalCyclesBurned := a'.totalCyclesBurned)
            && balance' <= balance
            && a'.totalCyclesBurned - a.totalCyclesBurned == balance - balance'
            && a'.Remaining() == a.Remaining() - (balance - balance')
  {
  }

  /** The first burn at or after the deadline burns everything the balance can pay for. */
  lemma BurnAfterDeadlineSettles(a: RentalAgreement, balance: nat, now: nat)
    requires Sound(a) && now >= a.paidUntilNanos && balance >= a.Remaining()
    ensures BurnOne(a, balance, now).Burned?
    ensures BurnOne(a, balance, now).agreement.totalCyclesBurned == a.totalCyclesCreated
  {
  }

  // ---------------------------------------------------------------- pacing

  /** `remaining` is on or above the line of slope p/q through the deadline. */
  predicate AboveLine(remaining: nat, secondsLeft: nat, p: nat, q: nat) {
    p * secondsLeft <= remaining * q
  }

  lemma ShareKeepsRatio(remaining: nat, seconds: nat, secondsNext: nat, perSecond: nat, share: nat)
    requires secondsNext + BURN_INTERVAL_SECONDS <= seconds && perSecond * seconds <= remaining
    requires share <= perSecond * BURN_INTERVAL_SECONDS && share <= remaining
    ensures remaining * secondsNext <= (remaining - share) * seconds
  {
    MulMonotone(seconds, share, perSecond * BURN_INTERVAL_SECONDS);
    assert seconds * (perSecond * BURN_INTERVAL_SECONDS) <= remaining * BURN_INTERVAL_SECONDS;
    MulMonotone(remaining, secondsNext + BURN_INTERVAL_SECONDS, seconds);
    MulDistributes(remaining, secondsNext, BURN_INTERVAL_SECONDS);
    MulDistributes(seconds, remaining - share, share);
  }

  lemma ShareStaysAboveLine(remaining: nat, secondsLeft: nat, secondsNext: nat, p: nat, q: nat)
    requires secondsLeft > 0 && secondsNext + BURN_INTERVAL_SECONDS <= secondsLeft
    requires AboveLine(remaining, secondsLeft, p, q)
    ensures AboveLine(remaining - MinuteShare(remaining, secondsLeft), secondsNext, p, q)
  {
    var perSecond := Quotient(remaining, secondsLeft);
    var share := MinuteShare(remaining, secondsLeft);
    ShareKeepsRatio(remaining, secondsLeft, secondsNext, perSecond, share);
    ChainRatios(remaining, secondsLeft, remaining - share, secondsNext, p, q);
  }

  lemma ChainRatios(r: nat, s: nat, r': nat, s': nat, p: nat, q: nat)
    requires s > 0 && r * s' <= r' * s && p * s <= r * q
    ensures p * s' <= r' * q
  {
    MulMonotone(s', p * s, r * q);
    MulMonotone(q, r * s', r' * s);
    assert s * (p * s') <= s * (r' * q) by {
      assert s' * (p * s) == s * (p * s');
      assert s' * (r * q) == q * (r * s');
      assert q * (r' * s) == s * (r' * q);
    }
    MulCancel(s, r' * q, p * s');
  }

  lemma IntervalTakesItsSeconds(deadline: nat, now: nat, next: nat)
    requires now + BURN_INTERVAL_NANOS <= next <= deadline
    ensures (deadline - next) / BILLION + BURN_INTERVAL_SECONDS <= (deadline - now) / BILLION
    ensures now + BURN_INTERVAL_NANOS == next ==>
              (deadline - next) / BILLION + BURN_INTERVAL_SECONDS == (deadline - now) / BILLION
  {
  }

  /** `remaining` is on or at most `slack` cycles above the line of `perSecond` through the deadline. */
  predicate NearLine(remaining: nat, secondsLeft: nat, perSecond: nat, slack: nat) {
    perSecond * secondsLeft <= remaining <= perSecond * secondsLeft + slack
  }

  /** Sixty shares of a second do not exceed the largest u128. */
  predicate NoWrap(remaining: nat, secondsLeft: nat) {
    remaining <= U128_MAX && (secondsLeft >= BURN_INTERVAL_SECONDS || remaining * BURN_INTERVAL_SECONDS <= U128_MAX)
  }

  /** A minute's share is sixty whole shares of a second, or all there is; in the last minute it leaves no more than
      the remainder of the division. */
  lemma ShareIsExact(remaining: nat, secondsLeft: nat)
    requires secondsLeft > 0 && NoWrap(remaining, secondsLeft)
    ensures MinuteShare(remaining, secondsLeft) == Min(BURN_INTERVAL_SECONDS * (remaining / secondsLeft), remaining)
    ensures secondsLeft <= BURN_INTERVAL_SECONDS ==>
              remaining - MinuteShare(remaining, secondsLeft) <= remaining % secondsLeft
  {
    var rate := Quotient(remaining, secondsLeft);
    SixtyShares(remaining, secondsLeft, rate);
    assert remaining % secondsLeft == remaining - secondsLeft * rate;
    assert rate * BURN_INTERVAL_SECONDS == BURN_INTERVAL_SECONDS * rate;
  }

  lemma SixtyShares(remaining: nat, secondsLeft: nat, rate: nat)
    requires secondsLeft > 0 && NoWrap(remaining, secondsLeft) && secondsLeft * rate <= remaining
    ensures BURN_INTERVAL_SECONDS * rate <= U128_MAX
    ensures secondsLeft <= BURN_INTERVAL_SECONDS ==> secondsLeft * rate <= BURN_INTERVAL_SECONDS * rate
  {
    if secondsLeft >= BURN_INTERVAL_SECONDS {
      MulMonotone(rate, BURN_INTERVAL_SECONDS, secondsLeft);
    } else {
      MulMonotone(rate, 1, secondsLeft);
      MulMonotone(rate, secondsLeft, BURN_INTERVAL_SECONDS);
    }
  }

  /** Also in the last minute a share leaves no more than the line and its slack. */
  lemma ShareStaysBelowLine(remaining: nat, secondsLeft: nat, perSecond: nat, slack: nat)
    requires secondsLeft > 0 && NoWrap(remaining, secondsLeft)
    requires NearLine(remaining, secondsLeft, perSecond, slack)
    ensures remaining - MinuteShare(remaining, secondsLeft)
         <= perSecond * SatSub(secondsLeft, BURN_INTERVAL_SECONDS) + slack
  {
    hide MinuteShare;
    ShareIsExact(remaining, secondsLeft);
    DivAtLeast(remaining, secondsLeft, perSecond);
    var rate := Quotient(remaining, secondsLeft);
    MulMonotone(BURN_INTERVAL_SECONDS, perSecond, rate);
    MulMonotone(perSecond, secondsLeft, SatSub(secondsLeft, BURN_INTERVAL_SECONDS) + BURN_INTERVAL_SECONDS);
    MulDistributes(perSecond, SatSub(secondsLeft, BURN_INTERVAL_SECONDS), BURN_INTERVAL_SECONDS);
  }

  /** The line really is one of whole seconds: measured in nanoseconds it can be undercut, because the
      part of a second that is left over is not counted as time to spread the cycles over. */
  lemma NanosecondLineCanBeUndercut() returns (a: RentalAgreement, now: nat, next: nat)
    ensures Sound(a) && next == now + BURN_INTERVAL_NANOS <= a.paidUntilNanos
    ensures var burn := BurnOne(a, a.Remaining(), now);
            && burn.Burned?
            && burn.agreement.Remaining() * (a.paidUntilNanos - now)
               < a.Remaining() * (a.paidUntilNanos - next)
  {
    a := RentalAgreement(Id(0), 0, None, Id(1), App13CH, 0, 100 * BILLION + 990_000_000, 0, 100, 0);
    now, next := 0, BURN_INTERVAL_NANOS;
    assert SecondsLeft(a, now) == 100;
    assert BurnOne(a, a.Remaining(), now).agreement.Remaining() == 40;
  }

  /** A tick with a minute to go keeps the line in nanoseconds if and only if its rate, taken from the whole seconds
      left, would not use up the cycles before the deadline; it always does when no part of a second is left over. */
  lemma NanosecondLineHoldsExactlyIf(a: RentalAgreement, now: nat)
    requires Sound(a) && a.Remaining() > 0 && now + BURN_INTERVAL_NANOS <= a.paidUntilNanos
    ensures var burn := BurnOne(a, a.Remaining(), now);
            var time := a.paidUntilNanos - now;
            && burn.Burned?
            && (burn.agreement.Remaining() * time >= a.Remaining() * (time - BURN_INTERVAL_NANOS)
                <==> a.Remaining() / SecondsLeft(a, now) * time <= a.Remaining() * BILLION)
            && (time % BILLION == 0 ==> a.Remaining() / SecondsLeft(a, now) * time <= a.Remaining() * BILLION)
  {
    var r, time, s := a.Remaining(), a.paidUntilNanos - now, SecondsLeft(a, now);
    DivAtLeast(time, BILLION, BURN_INTERVAL_SECONDS);
    var q := Quotient(r, s);
    MulMonotone(q, BURN_INTERVAL_SECONDS, s);
    NanosecondAlgebra(r, q, s, time);
  }

  lemma NanosecondAlgebra(r: nat, q: nat, s: nat, time: nat)
    requires time >= BURN_INTERVAL_NANOS && q * BURN_INTERVAL_SECONDS <= r && s * q <= r && s == time / BILLION
    ensures (r - q * BURN_INTERVAL_SECONDS) * time >= r * (time - BURN_INTERVAL_NANOS) <==> q * time <= r * BILLION
    ensures time % BILLION == 0 ==> q * time <= r * BILLION
  {
    assert (r - q * BURN_INTERVAL_SECONDS) * time == r * time - BURN_INTERVAL_SECONDS * (q * time);
    assert r * (time - BURN_INTERVAL_NANOS) == r * time - BURN_INTERVAL_SECONDS * (r * BILLION);
    if time % BILLION == 0 {
      assert time == BILLION * s;
      MulMonotone(BILLION, s * q, r);
      assert q * time == BILLION * (s * q);
    }
  }
}
