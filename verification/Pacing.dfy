/** Burn pacing and the fairness of the migration over every run, whatever runs between the sweeps. */
module Pacing {
  import opened Types
  import opened Division
  import opened Deadlines
  import opened Burning
  import opened State
  import opened World
  import opened Invariant
  import opened AgreementWrites
  import opened Effects
  import opened Runs
  import opened AnyRun
  import opened Theorems
  import opened Money

  // ---------------------------------------------------------------- one step

  /** Only sweeps burn an agreement's cycles. */
  lemma OnlySweepsBurn(w: World, step: Step, s: Principal)
    requires Enabled(w, step) && !step.BurnAll?
    requires s in w.st.agreements && s in Apply(w, step).st.agreements
    ensures Apply(w, step).st.agreements[s].totalCyclesBurned == w.st.agreements[s].totalCyclesBurned
  {
    hide Apply, Enabled;
    AgreementStep(w, step, s);
  }

  /** An agreement changes only by a sweep, a top-up or a switch. */
  ghost predicate SameOrTopUpOrSwitch(w: World, step: Step, w': World, s: Principal)
    requires s in w.st.agreements && s in w'.st.agreements
  {
    var a, a' := w.st.agreements[s], w'.st.agreements[s];
    || a' == a
    || (step.Resume? && CanTopUp(w, step.id) && w.tasks[step.id].job.subnet == s && Paying(w, step.id)
        && a' == TopUpWrite(
             a, w.tasks[step.id].job.agreement, w.tasks[step.id].job.balance, w.tasks[step.id].reply.cycles, DailyCost(w, step.id)))
    || (step == DoUpgrade(s) && a.rentalConditionId == App13CH && a' == Switched(a, INITIAL_CONDITIONS[App7CH].dailyCostCycles, w.now))
  }

  lemma AgreementStep(w: World, step: Step, s: Principal)
    requires Enabled(w, step) && !step.BurnAll?
    requires s in w.st.agreements && s in Apply(w, step).st.agreements
    ensures SameOrTopUpOrSwitch(w, step, Apply(w, step), s)
  {
    hide Apply, Enabled, ApplyResume, Upgrade, SameTrails, RequestTrailBecomes, PaymentTrailBecomes;
    hide Moves, Leaves, GoesOn, TopUpWrite;
    StepEffect(w, step);
    match step
    case Resume(id) => ResumeEffect(w, id);
    case DoUpgrade(target) =>
      UpgradeChangesOnlyTheTarget(w.st, target, w.now, w.now);
      if target in w.st.agreements { UpgradedAgreement(w.st, target, w.now); }
    case _ =>
  }

  lemma UpgradedAgreement(st: State, s: Principal, now: nat)
    requires s in st.agreements
    ensures var st' := Upgrade(st, s, now);
            && s in st'.agreements
            && st'.agreements[s]
               == if st.agreements[s].rentalConditionId == App13CH
                  then Switched(st.agreements[s], INITIAL_CONDITIONS[App7CH].dailyCostCycles, now)
                  else st.agreements[s]
  {
    hide Reprice, SetInitialConditions;
    ConditionsEffect(st.(locks := {}), now);
  }

  /** However little the balance lets a sweep burn: it burns each agreement at most once, as its own rules say. */
  lemma {:induction false} SweepBurnsAtMostOnce(
      agreements: map<Principal, RentalAgreement>, locks: set<Guard>, balance: nat, order: seq<Principal>, now: nat, s: Principal)
    requires Distinct(order) && s in agreements && BurnSweep(agreements, locks, balance, order, now).Swept?
    ensures var agreements' := BurnSweep(agreements, locks, balance, order, now).agreements;
            && s in agreements'
            && (agreements'[s] == agreements[s]
                || (s in order && exists b: nat :: BurnOne(agreements[s], b, now).Burned?
                                        && agreements'[s] == BurnOne(agreements[s], b, now).agreement))
    decreases |order|
  {
    hide BurnOne;
    if order != [] {
      var t := order[0];
      assert order == [t] + order[1..];
      if Guard(t, AgreementTag) in locks || t !in agreements {
        SweepBurnsAtMostOnce(agreements, locks, balance, order[1..], now, s);
      } else {
        var burn := BurnOne(agreements[t], balance, now);
        SweepBurnsAtMostOnce(agreements[t := burn.agreement], locks, burn.balance, order[1..], now, s);
      }
    }
  }

  // ---------------------------------------------------------------- a run

  /** The agreement of `s` keeps its deadline and gets no cycles from the i-th to the j-th world. */
  ghost predicate Undisturbed(worlds: seq<World>, i: nat, j: nat, s: Principal)
    requires i <= j < |worlds|
  {
    forall k | i <= k <= j ::
      && s in worlds[k].st.agreements && s in worlds[i].st.agreements
      && worlds[k].st.agreements[s].paidUntilNanos == worlds[i].st.agreements[s].paidUntilNanos
      && worlds[k].st.agreements[s].totalCyclesCreated == worlds[i].st.agreements[s].totalCyclesCreated
  }

  /** The earliest time for the next sweep: one burn interval after the last sweep since the i-th world. */
  ghost function NextSweep(worlds: seq<World>, steps: seq<Step>, i: nat, j: nat): nat
    requires i <= j < |worlds| == |steps| + 1
    decreases j
  {
    if j == i then worlds[i].now
    else if steps[j - 1].BurnAll? then worlds[j - 1].now + BURN_INTERVAL_NANOS
    else NextSweep(worlds, steps, i, j - 1)
  }

  /** Sweeps come no earlier than that. */
  ghost predicate SweepsSpaced(worlds: seq<World>, steps: seq<Step>, i: nat, j: nat)
    requires i <= j < |worlds| == |steps| + 1
  {
    forall k | i <= k < j && steps[k].BurnAll? ::
      NextSweep(worlds, steps, i, k) <= worlds[k].now
  }

  ghost predicate FeesCovered(worlds: seq<World>, i: nat, j: nat)
    requires i <= j < |worlds|
  {
    forall k | i <= k <= j :: worlds[k].book.xrcPaid <= worlds[k].book.reserve
  }

  /** A burn takes one minute's share at most, or what is left after the deadline. */
  lemma BurnLeavesTheRest(a: RentalAgreement, balance: nat, now: nat)
    requires BurnOne(a, balance, now).Burned?
    ensures var a' := BurnOne(a, balance, now).agreement;
            && a' == a.(totalCyclesBurned := a'.totalCyclesBurned)
            && (now < a.paidUntilNanos && a.Remaining() > 0 ==>
                  SecondsLeft(a, now) > 0 && a'.Remaining() >= a.Remaining() - MinuteShare(a.Remaining(), SecondsLeft(a, now)))
  {
    hide MinuteShare, SecondsLeft;
    if now < a.paidUntilNanos && a.Remaining() > 0 {
      ShareIsAPart(a, now);
    }
  }

  /** One burn at or after `earliest` leaves the remaining cycles above the line one interval later. */
  lemma BurnStaysAbove(a: RentalAgreement, balance: nat, earliest: nat, now: nat, p: nat, q: nat)
    requires earliest <= now && BurnOne(a, balance, now).Burned?
    requires AboveLine(a.Remaining(), SecondsLeft(a, earliest), p, q)
    ensures var a' := BurnOne(a, balance, now).agreement;
            AboveLine(a'.Remaining(), SecondsLeft(a', now + BURN_INTERVAL_NANOS), p, q)
  {
    hide BurnOne, MinuteShare;
    var a' := BurnOne(a, balance, now).agreement;
    LaterIsBelow(a, earliest, now, p);
    BurnLeavesTheRest(a, balance, now);
    if now + BURN_INTERVAL_NANOS > a.paidUntilNanos {
      assert SecondsLeft(a', now + BURN_INTERVAL_NANOS) == 0;
    } else if a.Remaining() == 0 {
      LaterIsBelow(a, now, now + BURN_INTERVAL_NANOS, p);
    } else {
      IntervalTakesItsSeconds(a.paidUntilNanos, now, now + BURN_INTERVAL_NANOS);
      ShareStaysAboveLine(a.Remaining(), SecondsLeft(a, now), SecondsLeft(a, now + BURN_INTERVAL_NANOS), p, q);
      ShareIsAPart(a, now);
      MulMonotone(q, a.Remaining() - MinuteShare(a.Remaining(), SecondsLeft(a, now)), a'.Remaining());
    }
  }

  lemma LaterIsBelow(a: RentalAgreement, now: nat, later: nat, p: nat)
    requires now <= later
    ensures SecondsLeft(a, later) <= SecondsLeft(a, now) && p * SecondsLeft(a, later) <= p * SecondsLeft(a, now)
  {
    MulMonotone(p, SecondsLeft(a, later), SecondsLeft(a, now));
  }

  lemma StillAbove(a: RentalAgreement, now: nat, later: nat, p: nat, q: nat)
    requires now <= later && AboveLine(a.Remaining(), SecondsLeft(a, now), p, q)
    ensures AboveLine(a.Remaining(), SecondsLeft(a, later), p, q)
  {
    LaterIsBelow(a, now, later, p);
  }

  lemma SweepStaysAboveLine(w: World, step: Step, s: Principal, earliest: nat, p: nat, q: nat)
    requires Enabled(w, step) && step.BurnAll? && s in w.st.agreements
    requires earliest <= w.now
    requires AboveLine(w.st.agreements[s].Remaining(), SecondsLeft(w.st.agreements[s], earliest), p, q)
    ensures s in Apply(w, step).st.agreements
    ensures var a' := Apply(w, step).st.agreements[s];
            AboveLine(a'.Remaining(), SecondsLeft(a', w.now + BURN_INTERVAL_NANOS), p, q)
  {
    hide BurnSweep, BurnOne, AboveLine, Distinct, SecondsLeft;
    var a := w.st.agreements[s];
    SweepBurnsAtMostOnce(w.st.agreements, w.st.locks, w.cycles, step.order, w.now, s);
    var a' := Apply(w, step).st.agreements[s];
    if a' == a {
      StillAbove(a, earliest, w.now + BURN_INTERVAL_NANOS, p, q);
    } else {
      var b: nat :| BurnOne(a, b, w.now).Burned? && a' == BurnOne(a, b, w.now).agreement;
      BurnStaysAbove(a, b, earliest, w.now, p, q);
    }
  }

  lemma StepStaysAboveLine(w: World, step: Step, s: Principal, earliest: nat, p: nat, q: nat)
    requires Enabled(w, step)
    requires s in w.st.agreements && s in Apply(w, step).st.agreements
    requires var a, a' := w.st.agreements[s], Apply(w, step).st.agreements[s];
             a'.paidUntilNanos == a.paidUntilNanos && a'.totalCyclesCreated == a.totalCyclesCreated
    requires step.BurnAll? ==> earliest <= w.now
    requires AboveLine(w.st.agreements[s].Remaining(), SecondsLeft(w.st.agreements[s], earliest), p, q)
    ensures var a' := Apply(w, step).st.agreements[s];
            var next := if step.BurnAll? then w.now + BURN_INTERVAL_NANOS else earliest;
            AboveLine(a'.Remaining(), SecondsLeft(a', next), p, q)
  {
    hide Apply, Enabled, AboveLine;
    if step.BurnAll? {
      SweepStaysAboveLine(w, step, s, earliest, p, q);
    } else {
      OnlySweepsBurn(w, step, s);
    }
  }

  /** Whatever else happens in a run, whether or not a sweep finds the agreement locked, and however little the
      balance lets it burn: if its cycles start on or above a line through the deadline, they stay there up to the
      next sweep. */
  lemma {:induction false} RunStaysAboveLine(
      worlds: seq<World>, steps: seq<Step>, i: nat, j: nat, s: Principal, p: nat, q: nat)
    requires Run(worlds, steps) && i <= j <= |steps|
    requires Undisturbed(worlds, i, j, s) && SweepsSpaced(worlds, steps, i, j)
    requires var a := worlds[i].st.agreements[s]; AboveLine(a.Remaining(), SecondsLeft(a, worlds[i].now), p, q)
    ensures var a := worlds[j].st.agreements[s];
            AboveLine(a.Remaining(), SecondsLeft(a, NextSweep(worlds, steps, i, j)), p, q)
    decreases j
  {
    hide Init, Enabled, Apply, AboveLine, SecondsLeft;
    if j > i {
      assert SweepsSpaced(worlds, steps, i, j - 1);
      RunStaysAboveLine(worlds, steps, i, j - 1, s, p, q);
      var earliest := NextSweep(worlds, steps, i, j - 1);
      assert steps[j - 1].BurnAll? ==> earliest <= worlds[j - 1].now;
      assert worlds[j] == Apply(worlds[j - 1], steps[j - 1]);
      StepStaysAboveLine(worlds[j - 1], steps[j - 1], s, earliest, p, q);
    }
  }

  /** Pacing in every run: with sweeps a minute or more apart, the remaining cycles are never below the straight
      line (in whole seconds) from where they were at the start to zero at the deadline. */
  lemma PacingInEveryRun(worlds: seq<World>, steps: seq<Step>, i: nat, j: nat, s: Principal)
    requires Run(worlds, steps) && i <= j <= |steps|
    requires Undisturbed(worlds, i, j, s) && SweepsSpaced(worlds, steps, i, j)
    requires NextSweep(worlds, steps, i, j) <= worlds[j].now
    ensures var a, a' := worlds[i].st.agreements[s], worlds[j].st.agreements[s];
            a'.Remaining() * SecondsLeft(a, worlds[i].now) >= a.Remaining() * SecondsLeft(a, worlds[j].now)
  {
    hide Init, Apply, Enabled, SecondsLeft, SweepsSpaced, NextSweep;
    var a, a' := worlds[i].st.agreements[s], worlds[j].st.agreements[s];
    RunStaysAboveLine(worlds, steps, i, j, s, a.Remaining(), SecondsLeft(a, worlds[i].now));
    StillAbove(a', NextSweep(worlds, steps, i, j), worlds[j].now, a.Remaining(), SecondsLeft(a, worlds[i].now));
    SameDeadline(a, a', worlds[j].now);
  }

  lemma SameDeadline(a: RentalAgreement, a': RentalAgreement, now: nat)
    requires a.paidUntilNanos == a'.paidUntilNanos
    ensures SecondsLeft(a, now) == SecondsLeft(a', now)
  {
  }

  /** Every sweep comes exactly when it may, and finds the agreement unlocked. */
  ghost predicate SweptEveryMinute(worlds: seq<World>, steps: seq<Step>, i: nat, j: nat, s: Principal)
    requires i <= j < |worlds| == |steps| + 1
  {
    forall k | i <= k < j && steps[k].BurnAll? ::
      && NextSweep(worlds, steps, i, k) == worlds[k].now
      && Guard(s, AgreementTag) !in worlds[k].st.locks
  }

  /** Sixty times the cycles fit a u128, or the stretch ends a minute before the deadline. */
  ghost predicate Small(worlds: seq<World>, steps: seq<Step>, i: nat, j: nat, s: Principal)
    requires i <= j < |worlds| == |steps| + 1 && s in worlds[i].st.agreements
  {
    || worlds[i].st.agreements[s].Remaining() * BURN_INTERVAL_SECONDS <= U128_MAX
    || NextSweep(worlds, steps, i, j) <= worlds[i].st.agreements[s].paidUntilNanos
  }

  lemma StaysSmall(worlds: seq<World>, steps: seq<Step>, i: nat, j: nat, s: Principal)
    requires Reached(worlds, steps, j) && i < j && steps[j - 1].BurnAll? && Undisturbed(worlds, i, j, s)
    requires Small(worlds, steps, i, j, s)
    requires worlds[j - 1].st.agreements[s].Remaining() <= worlds[i].st.agreements[s].Remaining()
    ensures var a := worlds[j - 1].st.agreements[s]; NoWrap(a.Remaining(), SecondsLeft(a, worlds[j - 1].now))
  {
    hide Inv, Init, Enabled, Apply, Fresh;
    SafeRun(worlds, steps, j - 1);
    AgreementsAreSound(worlds[j - 1]);
    MulMonotone(BURN_INTERVAL_SECONDS, worlds[j - 1].st.agreements[s].Remaining(), worlds[i].st.agreements[s].Remaining());
  }

  lemma BurnStaysNear(a: RentalAgreement, now: nat, perSecond: nat, slack: nat)
    requires Sound(a) && BurnOne(a, a.Remaining(), now).Burned? && NoWrap(a.Remaining(), SecondsLeft(a, now))
    requires NearLine(a.Remaining(), SecondsLeft(a, now), perSecond, slack)
    ensures NearLine(
              BurnOne(a, a.Remaining(), now).agreement.Remaining(), SecondsLeft(a, now + BURN_INTERVAL_NANOS), perSecond, slack)
  {
    hide MinuteShare, NoWrap;
    var seconds := SecondsLeft(a, now);
    MinuteLater(a, now);
    LaterIsBelow(a, now, now + BURN_INTERVAL_NANOS, perSecond);
    if a.Remaining() > 0 && now < a.paidUntilNanos {
      ShareIsAPart(a, now);
      ShareStaysBelowLine(a.Remaining(), seconds, perSecond, slack);
      if seconds >= BURN_INTERVAL_SECONDS {
        ShareStaysAboveLine(a.Remaining(), seconds, seconds - BURN_INTERVAL_SECONDS, perSecond, 1);
      }
    }
  }

  lemma MinuteLater(a: RentalAgreement, now: nat)
    ensures SecondsLeft(a, now + BURN_INTERVAL_NANOS) == SatSub(SecondsLeft(a, now), BURN_INTERVAL_SECONDS)
  {
  }

  lemma {:induction false} RunStaysNearLine(
      worlds: seq<World>, steps: seq<Step>, i: nat, j: nat, s: Principal, perSecond: nat, slack: nat)
    requires Reached(worlds, steps, j) && i <= j
    requires Undisturbed(worlds, i, j, s) && SweptEveryMinute(worlds, steps, i, j, s) && FeesCovered(worlds, i, j)
    requires Small(worlds, steps, i, j, s)
    requires var a := worlds[i].st.agreements[s]; NearLine(a.Remaining(), SecondsLeft(a, worlds[i].now), perSecond, slack)
    ensures var a := worlds[j].st.agreements[s];
            && NearLine(a.Remaining(), SecondsLeft(a, NextSweep(worlds, steps, i, j)), perSecond, slack)
            && a.Remaining() <= worlds[i].st.agreements[s].Remaining()
    decreases j
  {
    hide Inv, Init, Enabled, Apply, Fresh, NearLine, SecondsLeft, NoWrap;
    if j > i {
      var w, step := worlds[j - 1], steps[j - 1];
      assert SweptEveryMinute(worlds, steps, i, j - 1, s);
      RunStaysNearLine(worlds, steps, i, j - 1, s, perSecond, slack);
      SafeRun(worlds, steps, j - 1);
      assert worlds[j] == Apply(w, step);
      if step.BurnAll? {
        StaysSmall(worlds, steps, i, j, s);
        SweepStaysNearLine(w, step, s, perSecond, slack);
      } else {
        OnlySweepsBurn(w, step, s);
        SameDeadline(w.st.agreements[s], worlds[j].st.agreements[s], NextSweep(worlds, steps, i, j));
      }
    }
  }

  lemma SweepStaysNearLine(w: World, step: Step, s: Principal, perSecond: nat, slack: nat)
    requires Inv(w) && Enabled(w, step) && w.book.xrcPaid <= w.book.reserve && step.BurnAll?
    requires s in w.st.agreements && Guard(s, AgreementTag) !in w.st.locks
    requires NoWrap(w.st.agreements[s].Remaining(), SecondsLeft(w.st.agreements[s], w.now))
    requires NearLine(w.st.agreements[s].Remaining(), SecondsLeft(w.st.agreements[s], w.now), perSecond, slack)
    ensures s in Apply(w, step).st.agreements
    ensures var a' := Apply(w, step).st.agreements[s];
            && NearLine(a'.Remaining(), SecondsLeft(a', w.now + BURN_INTERVAL_NANOS), perSecond, slack)
            && a'.Remaining() <= w.st.agreements[s].Remaining()
  {
    hide Inv, BurnSweep, BurnOne, NearLine, Distinct, NoWrap;
    var a := w.st.agreements[s];
    BalanceBacksRecords(w);
    AgreementsAreSound(w);
    SweepBurnsEach(w.st.agreements, w.st.locks, w.cycles, step.order, w.now, s);
    BurnStaysNear(a, w.now, perSecond, slack);
    BurnConserves(a, a.Remaining(), w.now);
  }

  /** With a sweep exactly every minute the remaining cycles also stay less than one cycle per second of the
      initial distance above the line of whole cycles per second, up to and after the deadline: the last sweep before
      it leaves no more than the remainder of the first division. */
  lemma PacingEveryMinuteInEveryRun(worlds: seq<World>, steps: seq<Step>, i: nat, j: nat, s: Principal)
    requires Reached(worlds, steps, j) && i <= j
    requires Undisturbed(worlds, i, j, s) && SweptEveryMinute(worlds, steps, i, j, s) && FeesCovered(worlds, i, j)
    requires worlds[j].now <= NextSweep(worlds, steps, i, j) && Small(worlds, steps, i, j, s)
    requires SecondsLeft(worlds[i].st.agreements[s], worlds[i].now) > 0
    ensures var a, a' := worlds[i].st.agreements[s], worlds[j].st.agreements[s];
            var seconds := SecondsLeft(a, worlds[i].now);
            a'.Remaining() <= a.Remaining() / seconds * SecondsLeft(a', worlds[j].now) + a.Remaining() % seconds
  {
    hide Init, Apply, Enabled, FreshRun, SecondsLeft, SweptEveryMinute, FeesCovered, NextSweep, Small;
    var a, a' := worlds[i].st.agreements[s], worlds[j].st.agreements[s];
    var seconds := SecondsLeft(a, worlds[i].now);
    var perSecond := a.Remaining() / seconds;
    assert a.Remaining() == perSecond * seconds + a.Remaining() % seconds;
    RunStaysNearLine(worlds, steps, i, j, s, perSecond, a.Remaining() % seconds);
    LaterIsBelow(a', worlds[j].now, NextSweep(worlds, steps, i, j), perSecond);
  }

  // ---------------------------------------------------------------- funded agreements and the switch

  function Price(c: ConditionId): nat
    requires c in INITIAL_CONDITIONS
  {
    CostPerSecond(INITIAL_CONDITIONS[c].dailyCostCycles)
  }

  /** The cycles cover the time left from `time` on, at the price of the agreement's conditions. */
  predicate Funded(a: RentalAgreement, time: nat) {
    a.rentalConditionId in INITIAL_CONDITIONS && AboveLine(a.Remaining(), SecondsLeft(a, time), Price(a.rentalConditionId), 1)
  }

  /** A top-up adds its cycles, and no more seconds than they pay for. */
  lemma PaymentStaysFunded(a: RentalAgreement, icp: nat, cycles: nat, daily: nat, time: nat)
    requires CostPerSecond(daily) > 0 && Sound(a) && a.totalCyclesCreated + cycles <= U128_MAX
    requires AboveLine(a.Remaining(), SecondsLeft(a, time), CostPerSecond(daily), 1)
    ensures var a' := TopUpWrite(a, a, icp, cycles, daily); AboveLine(a'.Remaining(), SecondsLeft(a', time), CostPerSecond(daily), 1)
  {
    hide TopUpDeadline;
    var cost := CostPerSecond(daily);
    var bought := Quotient(cycles, cost);
    var a' := TopUpWrite(a, a, icp, cycles, daily);
    DeadlinesAreExact(a.paidUntilNanos, cycles, daily);
    MoreSeconds(a.paidUntilNanos, a'.paidUntilNanos, time, bought);
    MulMonotone(cost, SecondsLeft(a', time), SecondsLeft(a, time) + bought);
    MulDistributes(cost, SecondsLeft(a, time), bought);
  }

  lemma MoreSeconds(deadline: nat, deadline': nat, time: nat, bought: nat)
    requires deadline' <= deadline + BILLION * bought
    ensures SatSub(deadline', time) / BILLION <= SatSub(deadline, time) / BILLION + bought
  {
    var before := SatSub(deadline, time) / BILLION;
    DivBounds(SatSub(deadline, time), BILLION);
    DivAtLeast(SatSub(deadline', time), BILLION, before + bought + 1);
  }

  /** A switch sets the deadline to what the cycles pay for. */
  lemma SwitchIsFunded(a: RentalAgreement, now: nat, time: nat)
    requires now <= time
    ensures Funded(Switched(a, INITIAL_CONDITIONS[App7CH].dailyCostCycles, now), time)
  {
    hide Reprice, CostPerSecond;
    var daily := INITIAL_CONDITIONS[App7CH].dailyCostCycles;
    InitialCostsAreCharged(App7CH);
    var bought := Quotient(a.Remaining(), CostPerSecond(daily));
    DeadlinesAreExact(now, a.Remaining(), daily);
    MoreSeconds(now, Reprice(a.Remaining(), daily, now), time, bought);
    MulMonotone(CostPerSecond(daily), SecondsLeft(Switched(a, daily, now), time), bought);
  }

  lemma StepStaysFunded(w: World, step: Step, s: Principal, next: nat)
    requires Solid(w) && Enabled(w, step)
    requires s in w.st.agreements && s in Apply(w, step).st.agreements
    requires Inv(w) || Apply(w, step).st.agreements[s].totalCyclesCreated < U128_MAX
    requires step.BurnAll? ==> next <= w.now
    requires Funded(w.st.agreements[s], Max(next, w.now))
    ensures var w' := Apply(w, step);
            Funded(w'.st.agreements[s], Max(if step.BurnAll? then w.now + BURN_INTERVAL_NANOS else next, w'.now))
  {
    hide Solid, Inv, Apply, Enabled, AboveLine, SecondsLeft, Sound, TopUpWrite, Switched, Price;
    var a, a' := w.st.agreements[s], Apply(w, step).st.agreements[s];
    TimeGoesOn(w, step);
    if step.BurnAll? {
      SweepStaysFunded(w, step, s);
    } else {
      AgreementStep(w, step, s);
      if a' == a {
        StillAbove(a, Max(next, w.now), Max(next, Apply(w, step).now), Price(a.rentalConditionId), 1);
      } else if step.Resume? {
        TopUpStaysFunded(w, step, s, Max(next, w.now));
      } else {
        SwitchIsFunded(a, w.now, Max(next, w.now));
      }
    }
  }

  lemma TimeGoesOn(w: World, step: Step)
    requires Enabled(w, step)
    ensures Apply(w, step).now == if step.Tick? then w.now + step.nanos else w.now
  {
    hide Apply, Enabled, ApplyResume, BurnSweep, Upgrade, SameRecords, Effect;
    StepEffect(w, step);
    if step.Resume? { ResumeEffect(w, step.id); }
  }

  lemma SweepStaysFunded(w: World, step: Step, s: Principal)
    requires Enabled(w, step) && step.BurnAll?
    requires s in w.st.agreements && Funded(w.st.agreements[s], w.now)
    ensures s in Apply(w, step).st.agreements && Funded(Apply(w, step).st.agreements[s], w.now + BURN_INTERVAL_NANOS)
  {
    hide BurnSweep, AboveLine, SecondsLeft, Distinct, Price;
    SweepStaysAboveLine(w, step, s, w.now, Price(w.st.agreements[s].rentalConditionId), 1);
    SweepKeepsConditions(w, step, s);
  }

  lemma SweepKeepsConditions(w: World, step: Step, s: Principal)
    requires Enabled(w, step) && step.BurnAll? && s in w.st.agreements
    ensures s in Apply(w, step).st.agreements
    ensures Apply(w, step).st.agreements[s].rentalConditionId == w.st.agreements[s].rentalConditionId
  {
    hide BurnSweep, Distinct, SecondsLeft, MinuteShare;
    SweepBurnsAtMostOnce(w.st.agreements, w.st.locks, w.cycles, step.order, w.now, s);
  }

  lemma TopUpStaysFunded(w: World, step: Step, s: Principal, time: nat)
    requires Solid(w) && Enabled(w, step) && s in w.st.agreements && s in Apply(w, step).st.agreements
    requires Inv(w) || Apply(w, step).st.agreements[s].totalCyclesCreated < U128_MAX
    requires step.Resume? && Apply(w, step).st.agreements[s] != w.st.agreements[s] && Funded(w.st.agreements[s], time)
    ensures Funded(Apply(w, step).st.agreements[s], time)
  {
    hide Solid, Inv, Apply, Enabled, AboveLine, SecondsLeft, TopUpDeadline, CostPerSecond;
    AgreementStep(w, step, s);
    var Task(TopUpJob(_, read, balance), _, reply) := w.tasks[step.id];
    CanPay(w, step.id);
    PartsOf(w);
    BornAgreement(w, s);
    if Inv(w) { PaidRecord(w, step.id); }
    PaymentStaysFunded(read, balance, reply.cycles, DailyCost(w, step.id), time);
  }

  ghost predicate Unsaturated(worlds: seq<World>, i: nat, j: nat, s: Principal)
    requires i <= j < |worlds|
  {
    forall k | i <= k <= j && s in worlds[k].st.agreements :: worlds[k].st.agreements[s].totalCyclesCreated < U128_MAX
  }

  /** Once an agreement's cycles cover the time it is paid for, they do so in every run, through sweeps a minute or
      more apart, top-ups and switches of its conditions (unless its total saturates in a run without F). */
  lemma {:induction false} FundedStaysFunded(worlds: seq<World>, steps: seq<Step>, i: nat, j: nat, s: Principal)
    requires Run(worlds, steps) && i <= j <= |steps| && s in worlds[i].st.agreements
    requires SweepsSpaced(worlds, steps, i, j) && (FreshRun(worlds, steps) || Unsaturated(worlds, i, j, s))
    requires Funded(worlds[i].st.agreements[s], worlds[i].now)
    ensures s in worlds[j].st.agreements
    ensures Funded(worlds[j].st.agreements[s], Max(NextSweep(worlds, steps, i, j), worlds[j].now))
    decreases j
  {
    hide Init, Enabled, Apply, Inv, Solid, Funded, FreshRun;
    if j > i {
      var w, step := worlds[j - 1], steps[j - 1];
      assert SweepsSpaced(worlds, steps, i, j - 1);
      FundedStaysFunded(worlds, steps, i, j - 1, s);
      SolidRun(worlds, steps, j - 1);
      BirthsAreKept(worlds, steps, j - 1, j, s);
      if FreshRun(worlds, steps) { SafeRun(worlds, steps, j - 1); }
      assert worlds[j] == Apply(w, step);
      StepStaysFunded(w, step, s, NextSweep(worlds, steps, i, j - 1));
    }
  }

  /** The new deadline after a switch, for cycles on or above the new price's line from `next` on. */
  lemma SwitchedDeadline(a: RentalAgreement, now: nat, next: nat)
    requires a.paidUntilNanos <= U64_MAX && AboveLine(a.Remaining(), SecondsLeft(a, next), Price(App7CH), 1)
    ensures Reprice(a.Remaining(), INITIAL_CONDITIONS[App7CH].dailyCostCycles, now) + BILLION + SatSub(next, now) > a.paidUntilNanos
  {
    hide Reprice;
    var daily := INITIAL_CONDITIONS[App7CH].dailyCostCycles;
    InitialCostsAreCharged(App7CH);
    DeadlinesAreExact(now, a.Remaining(), daily);
    DivAtLeast(a.Remaining(), CostPerSecond(daily), SecondsLeft(a, next));
    DivBounds(SatSub(a.paidUntilNanos, next), BILLION);
  }

  /** Switching the agreement in the last of the worlds, when the next sweep is due at `next`, takes less than a second
      (and the minute of the last sweep, if it is not over) off its deadline. */
  ghost predicate SwitchIsFair(w: World, s: Principal, next: nat) {
    && s in w.st.agreements && Enabled(w, DoUpgrade(s))
    && var w' := Apply(w, DoUpgrade(s));
       && s in w'.st.agreements
       && w'.st.agreements[s].paidUntilNanos + BILLION + SatSub(next, w.now) > w.st.agreements[s].paidUntilNanos
  }

  lemma FairFromTheLine(w: World, s: Principal, next: nat)
    requires Solid(w) && w.tasks == map[] && s in w.st.agreements
    requires AboveLine(w.st.agreements[s].Remaining(), SecondsLeft(w.st.agreements[s], next), Price(App7CH), 1)
    ensures SwitchIsFair(w, s, next)
  {
    hide Solid, Upgrade, AboveLine, Price, SecondsLeft, Reprice;
    BornAgreement(w, s);
    SwitchedDeadline(w.st.agreements[s], w.now, next);
    UpgradedAgreement(w.st, s, w.now);
  }

  /** Fairness of the migration in every run: an agreement that at some time had the cycles for its remaining
      time at the new price loses less than a second of it when an upgrade switches it later. */
  lemma MigrationIsFairInEveryRun(worlds: seq<World>, steps: seq<Step>, i: nat, j: nat, s: Principal)
    requires Run(worlds, steps) && i <= j <= |steps|
    requires Undisturbed(worlds, i, j, s) && SweepsSpaced(worlds, steps, i, j)
    requires worlds[j].tasks == map[]
    requires var a := worlds[i].st.agreements[s]; AboveLine(a.Remaining(), SecondsLeft(a, worlds[i].now), Price(App7CH), 1)
    ensures SwitchIsFair(worlds[j], s, NextSweep(worlds, steps, i, j))
  {
    hide Init, Apply, Enabled, Solid, SecondsLeft, SweepsSpaced, NextSweep, Price, AboveLine, SwitchIsFair;
    SolidRun(worlds, steps, j);
    RunStaysAboveLine(worlds, steps, i, j, s, Price(App7CH), 1);
    FairFromTheLine(worlds[j], s, NextSweep(worlds, steps, i, j));
  }

  /** The same for every agreement that was funded at its own price at some time, through top-ups as well. */
  lemma MigrationIsFairToTheFunded(worlds: seq<World>, steps: seq<Step>, i: nat, j: nat, s: Principal)
    requires Run(worlds, steps) && i <= j <= |steps| && s in worlds[i].st.agreements
    requires SweepsSpaced(worlds, steps, i, j) && (FreshRun(worlds, steps) || Unsaturated(worlds, i, j, s))
    requires Funded(worlds[i].st.agreements[s], worlds[i].now) && worlds[j].tasks == map[]
    ensures SwitchIsFair(worlds[j], s, NextSweep(worlds, steps, i, j))
  {
    hide Init, Apply, Enabled, Solid, FreshRun, Unsaturated, SecondsLeft, SweepsSpaced, NextSweep, Funded, SwitchIsFair, AboveLine;
    SolidRun(worlds, steps, j);
    FundedStaysFunded(worlds, steps, i, j, s);
    var next := NextSweep(worlds, steps, i, j);
    App7CHIsCheaper(worlds[j].st.agreements[s], Max(next, worlds[j].now));
    FairFromTheLine(worlds[j], s, Max(next, worlds[j].now));
    FairFromMax(worlds[j], s, next);
  }

  lemma FairFromMax(w: World, s: Principal, next: nat)
    requires SwitchIsFair(w, s, Max(next, w.now))
    ensures SwitchIsFair(w, s, next)
  {
    hide Apply, Enabled;
  }

  lemma App7CHIsCheaper(a: RentalAgreement, time: nat)
    requires Funded(a, time)
    ensures AboveLine(a.Remaining(), SecondsLeft(a, time), Price(App7CH), 1)
  {
    hide SecondsLeft;
    match a.rentalConditionId
    case App7CH =>
    case App13CH => MulMonotone(SecondsLeft(a, time), Price(App7CH), Price(App13CH));
  }
}
