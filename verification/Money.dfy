/** Cycles and ICP over every run: conservation, backing, and what an agreement has cost. */
module Money {
  import opened Types
  import opened History
  import opened Sums
  import opened Burning
  import opened State
  import opened World
  import opened Invariant
  import opened Blocks
  import opened Writes
  import opened AgreementWrites
  import opened Steps
  import opened Effects
  import opened Runs
  import opened Theorems

  // ---------------------------------------------------------------- cycles

  /** Every cycle is accounted for: the balance and what the exchange rate canister got make up the
      reserve, what is locked, created and unburned, in flight or lost, and what a refund failed to burn. */
  lemma CyclesAreConserved(worlds: seq<World>, steps: seq<Step>, n: nat)
    requires Reached(worlds, steps, n)
    ensures var World(st, _, cycles, _, tasks, book) := worlds[n];
            && cycles + book.xrcPaid
               == book.reserve + LockedCycles(st.requests) + UnburnedCycles(st.agreements)
                  + FlyingCycles(tasks) + book.lostCycles + book.unburned
            && book.minted
               == LockedCycles(st.requests) + CreatedCycles(st.agreements)
                  + FlyingCycles(tasks) + book.lostCycles + book.cancelled
            && (forall s | s in st.agreements :: st.agreements[s].totalCyclesBurned <= st.agreements[s].totalCyclesCreated)
  {
    hide LockedCycles, UnburnedCycles, CreatedCycles, FlyingCycles, Base, Lifecycle, ChecksHold, Backing, Spending, Audit;
    SafeRun(worlds, steps, n);
  }

  /** While the reserve covers the fees paid, the balance covers all records. */
  lemma BalanceBacksRecords(w: World)
    requires Inv(w) && w.book.xrcPaid <= w.book.reserve
    ensures w.cycles >= LockedCycles(w.st.requests) + UnburnedCycles(w.st.agreements)
    ensures forall u | u in w.st.requests :: w.cycles >= w.st.requests[u].lockedAmountCycles
  {
    hide LockedCycles, UnburnedCycles, CreatedCycles, FlyingCycles, Base, Lifecycle, ChecksHold, Backing, Spending, Audit, Sound;
    forall u | u in w.st.requests ensures w.cycles >= w.st.requests[u].lockedAmountCycles {
      RequestRemoved(w.st.requests, u);
    }
  }

  lemma StepLeavesNothingUnburned(w: World, s: Step)
    requires Inv(w) && Enabled(w, s) && w.book.xrcPaid <= w.book.reserve
    ensures Apply(w, s).book.unburned == w.book.unburned
  {
    hide Inv, Apply, Enabled, ApplyResume, BurnSweep, Upgrade, SameTrails, RequestTrailBecomes, PaymentTrailBecomes;
    hide Moves, Leaves, GoesOn, TopUpWrite, LockedOnce, LockedCycles, UnburnedCycles;
    StepEffect(w, s);
    if s.Resume? {
      BalanceBacksRecords(w);
      ResumeEffect(w, s.id);
    }
  }

  /** If the reserve covers the fees paid all along a run, no refund ever burns less than it asked
      for, and the balance covers all records at the end of it. */
  lemma {:induction false} ReserveCoversEverything(worlds: seq<World>, steps: seq<Step>, n: nat)
    requires Reached(worlds, steps, n)
    requires forall i | 0 <= i <= n :: worlds[i].book.xrcPaid <= worlds[i].book.reserve
    ensures worlds[n].book.unburned == 0
    ensures worlds[n].cycles >= LockedCycles(worlds[n].st.requests) + UnburnedCycles(worlds[n].st.agreements)
  {
    hide Inv, Enabled, Apply, Fresh, LockedCycles, UnburnedCycles, SetInitialConditions;
    SafeRun(worlds, steps, n);
    BalanceBacksRecords(worlds[n]);
    if n > 0 {
      ReserveCoversEverything(worlds, steps, n - 1);
      SafeRun(worlds, steps, n - 1);
      StepLeavesNothingUnburned(worlds[n - 1], steps[n - 1]);
    }
  }

  /** A balance that covers the unburned cycles never limits a sweep: with any more it would do the same. */
  lemma {:induction false} BalanceNeverLimitsSweep(
      agreements: map<Principal, RentalAgreement>, locks: set<Guard>, balance: nat, extra: nat, order: seq<Principal>, now: nat)
    requires forall s | s in agreements :: Sound(agreements[s])
    requires balance >= UnburnedCycles(agreements)
    requires BurnSweep(agreements, locks, balance, order, now).Swept?
    ensures var swept := BurnSweep(agreements, locks, balance, order, now);
            BurnSweep(agreements, locks, balance + extra, order, now) == Swept(swept.agreements, swept.balance + extra)
    decreases |order|
  {
    hide UnburnedCycles, BurnOne, Sound;
    if order != [] {
      var s := order[0];
      if Guard(s, AgreementTag) in locks || s !in agreements {
        BalanceNeverLimitsSweep(agreements, locks, balance, extra, order[1..], now);
      } else {
        var burn := BurnOne(agreements[s], balance, now);
        OneOfTheUnburned(agreements, s);
        BurnIsNotLimited(agreements[s], balance, extra, now);
        BurnConserves(agreements[s], balance, now);
        AgreementSet(agreements, s, burn.agreement);
        BalanceNeverLimitsSweep(agreements[s := burn.agreement], locks, burn.balance, extra, order[1..], now);
      }
    }
  }

  lemma OneOfTheUnburned(agreements: map<Principal, RentalAgreement>, s: Principal)
    requires s in agreements
    ensures agreements[s].Remaining() <= UnburnedCycles(agreements)
  {
    SumPoint(Unburned(agreements), s);
  }

  lemma BurnIsNotLimited(a: RentalAgreement, balance: nat, extra: nat, now: nat)
    requires balance >= a.Remaining()
    ensures BurnOne(a, balance, now).Burned? ==>
              BurnOne(a, balance + extra, now)
              == Burned(BurnOne(a, balance, now).agreement, BurnOne(a, balance, now).balance + extra)
  {
    hide MinuteShare, SecondsLeft;
    ShareIsAPart(a, now);
  }

  lemma ShareIsAPart(a: RentalAgreement, now: nat)
    ensures SecondsLeft(a, now) > 0 ==> MinuteShare(a.Remaining(), SecondsLeft(a, now)) <= a.Remaining()
  {
  }

  /** A covered sweep burns for each agreement as if it were the only one: the order does not matter. */
  lemma {:induction false} SweepBurnsEach(
      agreements: map<Principal, RentalAgreement>, locks: set<Guard>, balance: nat, order: seq<Principal>, now: nat, s: Principal)
    requires forall s | s in agreements :: Sound(agreements[s])
    requires balance >= UnburnedCycles(agreements) && Distinct(order) && s in agreements
    requires BurnSweep(agreements, locks, balance, order, now).Swept?
    ensures var a := agreements[s];
            var agreements' := BurnSweep(agreements, locks, balance, order, now).agreements;
            && s in agreements'
            && if s in order && Guard(s, AgreementTag) !in locks
               then BurnOne(a, a.Remaining(), now).Burned? && agreements'[s] == BurnOne(a, a.Remaining(), now).agreement
               else agreements'[s] == a
    decreases |order|
  {
    hide UnburnedCycles, BurnOne;
    if order != [] {
      var t := order[0];
      assert order == [t] + order[1..];
      if Guard(t, AgreementTag) in locks || t !in agreements {
        SweepBurnsEach(agreements, locks, balance, order[1..], now, s);
      } else {
        var burn := BurnOne(agreements[t], balance, now);
        OneOfTheUnburned(agreements, t);
        BurnConserves(agreements[t], balance, now);
        AgreementSet(agreements, t, burn.agreement);
        CoveredBurn(agreements[t], balance, now);
        SweepBurnsEach(agreements[t := burn.agreement], locks, burn.balance, order[1..], now, s);
      }
    }
  }

  lemma CoveredBurn(a: RentalAgreement, balance: nat, now: nat)
    requires balance >= a.Remaining() && BurnOne(a, balance, now).Burned?
    ensures BurnOne(a, a.Remaining(), now).Burned?
    ensures BurnOne(a, a.Remaining(), now).agreement == BurnOne(a, balance, now).agreement
  {
    hide MinuteShare, SecondsLeft;
    ShareIsAPart(a, now);
  }

  /** In every run whose fees are covered, no burn of a sweep is cut short by the balance. */
  lemma SweepsBurnInFull(worlds: seq<World>, steps: seq<Step>, n: nat, order: seq<Principal>, extra: nat)
    requires Reached(worlds, steps, n) && worlds[n].book.xrcPaid <= worlds[n].book.reserve
    requires Enabled(worlds[n], BurnAll(order))
    ensures var w := worlds[n];
            var swept := BurnSweep(w.st.agreements, w.st.locks, w.cycles, order, w.now);
            BurnSweep(w.st.agreements, w.st.locks, w.cycles + extra, order, w.now)
            == Swept(swept.agreements, swept.balance + extra)
  {
    hide Inv, Init, FreshRun, BurnSweep, Apply;
    SafeRun(worlds, steps, n);
    BalanceBacksRecords(worlds[n]);
    AgreementsAreSound(worlds[n]);
    BalanceNeverLimitsSweep(
      worlds[n].st.agreements, worlds[n].st.locks, worlds[n].cycles, extra, order, worlds[n].now);
  }

  /** In every run whose fees are covered: the first sweep at or after an agreement's deadline that finds it
      unlocked leaves nothing of it to burn. */
  lemma SweepAfterDeadlineSettles(worlds: seq<World>, steps: seq<Step>, n: nat, order: seq<Principal>, s: Principal)
    requires Reached(worlds, steps, n) && worlds[n].book.xrcPaid <= worlds[n].book.reserve
    requires Enabled(worlds[n], BurnAll(order))
    requires s in worlds[n].st.agreements && Guard(s, AgreementTag) !in worlds[n].st.locks
    requires worlds[n].now >= worlds[n].st.agreements[s].paidUntilNanos
    ensures var a, agreements' := worlds[n].st.agreements[s], Apply(worlds[n], BurnAll(order)).st.agreements;
            && s in agreements'
            && agreements'[s] == a.(totalCyclesBurned := a.totalCyclesCreated)
  {
    hide Inv, Init, FreshRun, BurnSweep, BurnOne;
    var w := worlds[n];
    SafeRun(worlds, steps, n);
    BalanceBacksRecords(w);
    AgreementsAreSound(w);
    SweepBurnsEach(w.st.agreements, w.st.locks, w.cycles, order, w.now, s);
    BurnAfterDeadlineSettles(w.st.agreements[s], w.st.agreements[s].Remaining(), w.now);
    BurnConserves(w.st.agreements[s], w.st.agreements[s].Remaining(), w.now);
  }

  lemma AgreementsAreSound(w: World)
    requires Inv(w)
    ensures forall s | s in w.st.agreements :: Sound(w.st.agreements[s])
  {
    hide Base, Lifecycle, ChecksHold, Backing, Spending, Audit, Clocks, Sound;
  }

  /** An agreement in the last second of its paid time, with cycles left to burn. */
  predicate InLastSecond(a: RentalAgreement, now: nat) {
    a.Remaining() > 0 && now < a.paidUntilNanos < now + BILLION
  }

  /** A sweep over distinct agreements traps (and is rolled back, so that nobody's cycles are burned that
      minute) exactly if one of them is unlocked and in its last second. */
  lemma {:induction false} SweepTrapsExactlyInALastSecond(
      agreements: map<Principal, RentalAgreement>, locks: set<Guard>, balance: nat, order: seq<Principal>, now: nat)
    requires Distinct(order)
    ensures BurnSweep(agreements, locks, balance, order, now).SweepTrap?
       <==> exists s :: s in order && s in agreements && Guard(s, AgreementTag) !in locks && InLastSecond(agreements[s], now)
    decreases |order|
  {
    hide BurnOne, InLastSecond;
    if order != [] {
      var t := order[0];
      assert order == [t] + order[1..];
      if Guard(t, AgreementTag) in locks || t !in agreements {
        SweepTrapsExactlyInALastSecond(agreements, locks, balance, order[1..], now);
      } else {
        TrapIsLastSecond(agreements[t], balance, now);
        if BurnOne(agreements[t], balance, now).Burned? {
          var burn := BurnOne(agreements[t], balance, now);
          SweepTrapsExactlyInALastSecond(agreements[t := burn.agreement], locks, burn.balance, order[1..], now);
          assert forall s | s in order[1..] :: s != t;
        }
      }
    }
  }

  lemma TrapIsLastSecond(a: RentalAgreement, balance: nat, now: nat)
    ensures BurnOne(a, balance, now).DivisionTrap? <==> InLastSecond(a, now)
  {
    BurnTrapsExactlyInTheLastSecond(a, balance, now);
  }

  // ---------------------------------------------------------------- ICP

  /** What a request still has to convert is on its user's subaccount, unless it is in flight or lost,
      or a refund has just been paid. */
  lemma RequestsAreBacked(worlds: seq<World>, steps: seq<Step>, n: nat, u: Principal)
    requires Reached(worlds, steps, n) && u in worlds[n].st.requests && !RefundPaid(worlds[n].tasks, u)
    ensures var w := worlds[n];
            var r := w.st.requests[u];
            r.initialCostIcp - r.lockedAmountIcp <= At(w.icp, u) + At(w.book.lost, u) + FlyingIcp(w.tasks, u)
  {
    hide Inv, RefundPaid, FlyingIcp;
    SafeRun(worlds, steps, n);
    BackingBefore(worlds[n], u);
    AgreementsAreBorn(worlds[n]);
  }

  /** Locking or creating an agreement: a request and its user's guard are in this task's hands. */
  predicate Spends(job: Job) {
    job.LockJob? || job.CreateJob?
  }

  function Spent(job: Job): RentalRequest
    requires Spends(job)
  {
    job.request
  }

  lemma StrangerConvertsNothing(
      t: Task, u: Principal, requests: map<Principal, RentalRequest>, agreements: map<Principal, RentalAgreement>)
    requires AtProgramPoint(t) && StillHolds(requests, agreements, t.job)
    requires Guard(u, RequestTag) !in Guards(t.job) && !HasAgreement(agreements, u)
    ensures IcpInFlight(t, u) == 0 && t.job != RefundJob(u)
  {
  }

  lemma SpenderHoldsItsRequest(w: World, id: nat)
    requires Inv(w) && id in w.tasks && Spends(w.tasks[id].job) && w.tasks[id].call.CmcTransfer?
    ensures var r := Spent(w.tasks[id].job);
            && r.user in w.st.requests && w.st.requests[r.user] == r && w.tasks[id].call.account == r.user
            && !HasAgreement(w.st.agreements, r.user)
            && Guard(r.user, RequestTag) in Guards(w.tasks[id].job)
  {
    hide LocksAreHeld, CyclesConserved, Backing, Spending, Audit, Clocks, HasAgreement;
    assert AtProgramPoint(w.tasks[id]) && StillHolds(w.st.requests, w.st.agreements, w.tasks[id].job);
  }

  lemma SpenderIsAlone(w: World, id: nat)
    requires Inv(w) && id in w.tasks && Spends(w.tasks[id].job) && w.tasks[id].call.CmcTransfer? && w.tasks[id].reply.Pending?
    ensures var r := Spent(w.tasks[id].job);
            && r.user in w.st.requests && w.st.requests[r.user] == r && w.tasks[id].call.account == r.user
            && !RefundPaid(w.tasks, r.user) && FlyingIcp(w.tasks, r.user) == 0
  {
    hide Inv, AtProgramPoint, StillHolds, Guards, FlyingIcp, HasAgreement;
    var u := Spent(w.tasks[id].job).user;
    SpenderHoldsItsRequest(w, id);
    GuardExcludesOthers(w, id, Guard(u, RequestTag));
    forall i | i in w.tasks ensures Converting(w.tasks, u)[i] == 0 && w.tasks[i].job != RefundJob(u) {
      if i != id {
        PointOf(w, i);
        StrangerConvertsNothing(w.tasks[i], u, w.st.requests, w.st.agreements);
      }
    }
    FlyingNothing(w.tasks, u);
  }

  lemma FlyingNothing(tasks: map<nat, Task>, u: Principal)
    requires forall i | i in tasks :: Converting(tasks, u)[i] == 0
    ensures FlyingIcp(tasks, u) == 0
  {
    SumOfZeros(Converting(tasks, u));
  }

  lemma SpenderAsksNoMoreThanTheRest(w: World, id: nat)
    requires Inv(w) && id in w.tasks && Spends(w.tasks[id].job) && w.tasks[id].call.CmcTransfer? && w.tasks[id].reply.Pending?
    ensures var r := Spent(w.tasks[id].job); w.tasks[id].call.amount <= SatSub(r.initialCostIcp, r.lockedAmountIcp)
  {
    hide LocksAreHeld, Lifecycle, CyclesConserved, Backing, Spending, RequestTrail, PaymentTrail, EventsOf;
    SpenderIsAlone(w, id);
    var r := Spent(w.tasks[id].job);
    assert AtProgramPoint(w.tasks[id]);
    assert RequestAudited(r, w.st.log, w.now);
    if w.tasks[id].job.LockJob? {
      var times := RequestTrail(EventsOf(w.st.log, Some(r.user))).times;
      DueForAnotherTenth(r, times, w.tasks[id].job.sweepNow, w.now);
    }
  }

  /** A locking or the creation of an agreement never lacks funds for its transfer, unless a conversion
      of the same request was lost before or the amount does not cover the ledger's fee. */
  lemma ConversionsAreFunded(worlds: seq<World>, steps: seq<Step>, n: nat, id: nat, block: nat)
    requires Reached(worlds, steps, n) && id in worlds[n].tasks && Spends(worlds[n].tasks[id].job)
    requires worlds[n].tasks[id].call.CmcTransfer? && worlds[n].tasks[id].reply.Pending?
    requires At(worlds[n].book.lost, Spent(worlds[n].tasks[id].job).user) == 0
    requires worlds[n].tasks[id].call.amount >= DEFAULT_FEE
    ensures Enabled(worlds[n], Serve(id, Block(block)))
  {
    hide Inv, FreshRun, RefundPaid, FlyingIcp, Init, Apply;
    var w := worlds[n];
    SafeRun(worlds, steps, n);
    SpenderIsAlone(w, id);
    SpenderAsksNoMoreThanTheRest(w, id);
    BackingBefore(w, Spent(w.tasks[id].job).user);
  }

  /** The creation of an agreement: what its user's conversions were debited since the proposal is
      exactly the request's initial cost, plus what was lost on the way. */
  lemma CreationSpendsTheInitialCost(worlds: seq<World>, steps: seq<Step>, n: nat, id: nat)
    requires Reached(worlds, steps, n) && id in worlds[n].tasks && CanFound(worlds[n], id)
    ensures var w := worlds[n];
            var CreateJob(u, s, _, r, _) := w.tasks[id].job;
            && Enabled(w, Resume(id))
            && var w' := Apply(w, Resume(id));
               && s in w'.st.agreements && w'.st.agreements[s].user == u
               && w'.st.agreements[s].totalIcpPaid == r.initialCostIcp
               && At(w'.book.spent, u) == r.initialCostIcp + At(w'.book.lost, u)
  {
    hide Inv, FlyingIcp, ResumeCreate, PaymentTrail, EventsOf, FreshRun, Init, Apply;
    var w := worlds[n];
    assert Inv(w) by { SafeRun(worlds, steps, n); }
    var s := w.tasks[id].job.subnet;
    CreateAtHand(w, id);
    FoundingEnds(w, id);
    FoundingIsResumed(w, id);
    SpentBefore(ResumeCreate(w, id), s);
    FounderIsAlone(w, id);
  }

  /** Nothing else is converted for the user of a creation. */
  lemma FounderIsAlone(w: World, id: nat)
    requires Inv(w) && CanFound(w, id) && w.tasks[id].job.request.rentalConditionId in w.st.conditions
    ensures FlyingIcp(ResumeCreate(w, id).tasks, w.tasks[id].job.user) == 0
  {
    hide Inv, AtProgramPoint, StillHolds, Guards, FlyingIcp, HasAgreement, ResumeCreate, Founds, SameRecords, DraftFits;
    var u := w.tasks[id].job.user;
    RequestGuard(w, id);
    FounderRentsNothing(w, id);
    GuardExcludesOthers(w, id, Guard(u, RequestTag));
    FoundingEffect(w, id);
    var tasks' := w.tasks - {id};
    forall i | i in tasks' ensures Converting(tasks', u)[i] == 0 {
      PointOf(w, i);
      StrangerConvertsNothing(w.tasks[i], u, w.st.requests, w.st.agreements);
    }
    FlyingNothing(tasks', u);
  }

  lemma RequestGuard(w: World, id: nat)
    requires CanFound(w, id)
    ensures Guard(w.tasks[id].job.user, RequestTag) in Guards(w.tasks[id].job)
  {
  }

  lemma FounderRentsNothing(w: World, id: nat)
    requires Inv(w) && CanFound(w, id)
    ensures !HasAgreement(w.st.agreements, w.tasks[id].job.user)
  {
    hide Inv, DraftFits, PaymentTrail, EventsOf;
    CreateAtHand(w, id);
  }

  lemma FoundingIsResumed(w: World, id: nat)
    requires CanFound(w, id) && w.tasks[id].job.request.rentalConditionId in w.st.conditions
    ensures Enabled(w, Resume(id)) && Apply(w, Resume(id)) == ResumeCreate(w, id)
  {
    hide ResumeCreate;
  }

  lemma FoundingEnds(w: World, id: nat)
    requires Inv(w) && CanFound(w, id)
    ensures w.tasks[id].job.request.rentalConditionId in w.st.conditions
    ensures var w' := ResumeCreate(w, id);
            var CreateJob(_, s, _, _, draft) := w.tasks[id].job;
            && Inv(w') && s in w'.st.agreements && w'.st.agreements[s] == draft.value
            && s in w'.book.births && w'.book.births[s].icp == draft.value.totalIcpPaid
            && PaymentTrail(EventsOf(w'.st.log, Some(s))) == Payments(0, 0, 0, None, 0)
  {
    hide Inv, Append, FlyingIcp, PaymentTrail, EventsOf;
    PointOf(w, id);
    InitialCostsAreCharged(w.tasks[id].job.request.rentalConditionId);
    CreateAtHand(w, id);
    OpenAgreementKeeps(w, id);
    EndKeeps(Founded(w, id), id);
    FoundedLog(w, id);
  }

  /** From then on: total_icp_paid is the request's initial cost and all top-ups (as far as a u64 goes), and all
      debits make up that total less one fee per top-up, which stays on the subaccount, plus losses and what is in
      flight. */
  lemma AgreementIcpAccounts(worlds: seq<World>, steps: seq<Step>, c: nat, n: nat, s: Principal)
    requires Reached(worlds, steps, n) && c < n && CreatedAt(worlds, steps, c, s)
    ensures s in worlds[n].st.agreements
    ensures var w := worlds[n];
            var u := w.st.agreements[s].user;
            && u in worlds[c].st.requests
            && var paid := PaymentTrail(EventsOf(w.st.log, Some(s)));
               var total := worlds[c].st.requests[u].initialCostIcp + paid.icp;
               && w.st.agreements[s].totalIcpPaid == Min(total, U64_MAX)
               && At(w.book.spent, u) + DEFAULT_FEE * paid.topUps == total + At(w.book.lost, u) + FlyingIcp(w.tasks, u)
  {
    hide Inv, Init, Apply, Enabled, FreshRun, FlyingIcp, PaymentTrail, EventsOf;
    AgreementContinuesRequest(worlds, steps, c, s);
    BirthsAreKept(worlds, steps, c + 1, n, s);
    SafeRun(worlds, steps, n);
    SpentBefore(worlds[n], s);
    AgreementsAreBorn(worlds[n]);
  }
}
