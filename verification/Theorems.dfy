/** Locks, lifecycle, `unwrap`s and writes over every run: what needs no hypothesis, and what F adds to it. */
module Theorems {
  import opened Types
  import opened History
  import opened Deadlines
  import opened Burning
  import opened State
  import opened World
  import opened Invariant
  import opened Blocks
  import opened Writes
  import opened AgreementWrites
  import opened Steps
  import opened Effects
  import opened Runs
  import opened AnyRun

  /** The n-th world of a run that meets F. */
  ghost predicate Reached(worlds: seq<World>, steps: seq<Step>, n: nat) {
    Run(worlds, steps) && FreshRun(worlds, steps) && n <= |steps|
  }

  // ---------------------------------------------------------------- locks and lifecycle

  /** In every run the lock set is the disjoint union of the guards of the live tasks; in particular it is
      empty whenever no task is live. */
  lemma LocksInEveryRun(worlds: seq<World>, steps: seq<Step>, n: nat)
    requires Run(worlds, steps) && n <= |steps|
    ensures LocksAreHeld(worlds[n].st.locks, worlds[n].tasks)
    ensures worlds[n].tasks == map[] ==> worlds[n].st.locks == {}
  {
    hide Solid, Init, Enabled, Apply;
    SolidRun(worlds, steps, n);
    PartsOf(worlds[n]);
  }

  /** Keys match the records under them, no user has both a request and an agreement, and no user
      has two agreements. */
  lemma LifecycleInEveryRun(worlds: seq<World>, steps: seq<Step>, n: nat)
    requires Run(worlds, steps) && n <= |steps|
    ensures var st := worlds[n].st;
            && (forall u | u in st.requests :: st.requests[u].user == u)
            && (forall s | s in st.agreements :: st.agreements[s].subnetId == s)
            && (forall u, s | u in st.requests && s in st.agreements :: st.agreements[s].user != u)
            && (forall s, s' | s in st.agreements && s' in st.agreements && st.agreements[s].user == st.agreements[s'].user :: s == s')
  {
    hide Solid, Init, Enabled, Apply, Records;
    SolidRun(worlds, steps, n);
    PartsOf(worlds[n]);
    LifecycleOf(worlds[n]);
  }

  /** What a task other than a sweep checked or read before its awaits still holds, at every moment until it
      ends; what a sweep copied, too, if F is met. */
  lemma ChecksHoldInEveryRun(worlds: seq<World>, steps: seq<Step>, n: nat, id: nat)
    requires Run(worlds, steps) && n <= |steps| && id in worlds[n].tasks
    ensures var st := worlds[n].st;
            match worlds[n].tasks[id].job
            case RentalJob(user, _, _, _) => user !in st.requests && !HasAgreement(st.agreements, user)
            case CreateJob(user, subnet, _, r, _) => user in st.requests && st.requests[user] == r && subnet !in st.agreements
            case TopUpJob(subnet, a, _) => subnet in st.agreements && st.agreements[subnet] == a
            case LockJob(r, _, _) => FreshRun(worlds, steps) ==> r.user in st.requests && st.requests[r.user] == r
            case _ => true
  {
    hide Inv, Solid, Init, Enabled, Apply, FreshRun, Carries;
    SolidRun(worlds, steps, n);
    TaskOf(worlds[n], id);
    if FreshRun(worlds, steps) {
      SafeRun(worlds, steps, n);
      PointOf(worlds[n], id);
    }
  }

  /** Only the creation of an agreement adds one, and in the same step it removes its user's request. */
  lemma AgreementReplacesRequest(w: World, step: Step, s: Principal)
    requires Enabled(w, step) && s in Apply(w, step).st.agreements && s !in w.st.agreements
    ensures step.Resume? && w.tasks[step.id].job.CreateJob? && Founds(w, Apply(w, step), step.id)
    ensures var u := Apply(w, step).st.agreements[s].user;
            u in w.st.requests && Apply(w, step).st.requests == w.st.requests - {u}
  {
    hide Apply, Enabled, ApplyResume, BurnSweep, Upgrade, SameTrails, RequestTrailBecomes, PaymentTrailBecomes;
    StepEffect(w, step);
    match step
    case Resume(id) => ResumeEffect(w, id);
    case BurnAll(order) => SweepKeepsKeys(w.st.agreements, w.st.locks, w.cycles, order, w.now);
    case DoUpgrade(target) => UpgradeChangesOnlyTheTarget(w.st, target, w.now, w.now);
    case _ =>
  }

  /** Only a proposal that checked its user adds a request: for that user, with a tenth of the cost and the
      cycles minted for it locked. */
  lemma RequestComesFromProposal(w: World, step: Step, u: Principal)
    requires Enabled(w, step) && u in Apply(w, step).st.requests && u !in w.st.requests
    ensures step.Resume? && w.tasks[step.id].job.RentalJob? && w.tasks[step.id].reply.Minted?
    ensures var RentalJob(user, condition, proposal, needed) := w.tasks[step.id].job;
            && user == u && Apply(w, step).st.agreements == w.st.agreements
            && Apply(w, step).st.requests
               == w.st.requests[u := RentalRequest(
                    u, needed, needed / 10, w.tasks[step.id].reply.cycles, proposal, w.now, condition, w.now)]
  {
    hide Apply, Enabled, ApplyResume, BurnSweep, Upgrade, SameTrails, RequestTrailBecomes, PaymentTrailBecomes, Leaves, Moves;
    StepEffect(w, step);
    match step
    case Resume(id) => ResumeEffect(w, id);
    case DoUpgrade(target) => UpgradeChangesOnlyTheTarget(w.st, target, w.now, w.now);
    case _ =>
  }

  // ---------------------------------------------------------------- agreements from their creation

  lemma NothingSaturates(w: World, id: nat)
    requires Inv(w) && CanFound(w, id)
    ensures w.tasks[id].call.cycles + w.tasks[id].job.request.lockedAmountCycles <= U128_MAX
  {
    hide Base, Lifecycle, ChecksHold, Clocks, Backing, Spending, Audit, Append;
    hide FlyingCycles, LockedCycles, CreatedCycles, UnburnedCycles;
    CreateAtHand(w, id);
    RequestRemoved(w.st.requests, w.tasks[id].job.user);
    TaskEnded(w.tasks, id);
  }

  /** An agreement continues its user's request: same conditions and proposal, the whole cost paid, and all
      cycles locked and converted for it (in a run that meets F, without saturation). The books record its
      totals as those of its birth. */
  lemma AgreementContinuesRequest(worlds: seq<World>, steps: seq<Step>, n: nat, s: Principal)
    requires Run(worlds, steps) && n < |steps|
    requires s in worlds[n + 1].st.agreements && s !in worlds[n].st.agreements
    ensures steps[n].Resume? && CanFound(worlds[n], steps[n].id)
    ensures var a := worlds[n + 1].st.agreements[s];
            && a.user in worlds[n].st.requests
            && var r := worlds[n].st.requests[a.user];
               var converted := worlds[n].tasks[steps[n].id].call.cycles;
               && a.rentalConditionId == r.rentalConditionId && a.rentalRequestProposalId == r.initialProposalId
               && a.totalIcpPaid == r.initialCostIcp && a.totalCyclesBurned == 0
               && a.totalCyclesCreated == SatAdd128(converted, r.lockedAmountCycles)
               && (FreshRun(worlds, steps) ==> a.totalCyclesCreated == converted + r.lockedAmountCycles)
               && PaidForAPeriod(a)
               && s in worlds[n + 1].book.births
               && worlds[n + 1].book.births[s] == Birth(r.initialCostIcp, a.totalCyclesCreated)
  {
    hide Inv, Solid, FreshRun, Init, Apply, Enabled;
    SolidRun(worlds, steps, n);
    DeadlineIsExact(worlds[n + 1].st.agreements[s].creationTimeNanos);
    AddedAgreement(worlds[n], steps[n], s);
    if FreshRun(worlds, steps) {
      SafeRun(worlds, steps, n);
      NothingSaturates(worlds[n], steps[n].id);
    }
  }

  /** The deadline is 180 days after the creation time, if that fits a u64. */
  predicate PaidForAPeriod(a: RentalAgreement) {
    a.creationTimeNanos + 180 * 86_400 * 1_000_000_000 <= U64_MAX ==>
      a.paidUntilNanos == a.creationTimeNanos + 180 * 86_400 * 1_000_000_000
  }

  lemma DeadlineIsExact(now: nat)
    ensures now + 180 * 86_400 * 1_000_000_000 <= U64_MAX ==>
              CreationDeadline(now, INITIAL_RENTAL_PERIOD_DAYS) == now + 180 * 86_400 * 1_000_000_000
  {
  }

  lemma AddedAgreement(w: World, step: Step, s: Principal)
    requires Solid(w) && Enabled(w, step) && s in Apply(w, step).st.agreements && s !in w.st.agreements
    ensures step.Resume? && CanFound(w, step.id)
    ensures var CreateJob(u, subnet, _, r, draft) := w.tasks[step.id].job;
            && u in w.st.requests && w.st.requests[u] == r && Apply(w, step).st.agreements[s] == draft.value
            && s == subnet && DraftFits(draft.value, u, subnet, r, w.tasks[step.id].call.cycles)
            && Apply(w, step).book.births == w.book.births[s := Birth(draft.value.totalIcpPaid, draft.value.totalCyclesCreated)]
  {
    hide Solid, Apply, Enabled, DraftFits, SameTrails, InTenths;
    AgreementReplacesRequest(w, step, s);
    assert step.id in w.tasks by { IsTask(w, step); }
    TaskOf(w, step.id);
    DraftKeys(w.tasks[step.id]);
  }

  lemma IsTask(w: World, step: Step)
    requires Enabled(w, step) && step.Resume?
    ensures step.id in w.tasks
  {
  }

  lemma DraftKeys(t: Task)
    requires t.job.CreateJob? && t.call.AuthorizeCall? && Carries(t)
    ensures t.job.draft.Some? && t.job.draft.value.subnetId == t.job.subnet && t.job.draft.value.user == t.job.user
  {
  }

  /** Agreements are never removed or handed over, and their births never rewritten. */
  lemma StepKeepsAgreement(w: World, step: Step, s: Principal)
    requires Solid(w) && Enabled(w, step) && s in w.st.agreements
    ensures var w' := Apply(w, step);
            && s in w'.st.agreements && w'.st.agreements[s].user == w.st.agreements[s].user
            && s in w.book.births && s in w'.book.births && w'.book.births[s] == w.book.births[s]
  {
    hide Solid, Apply, Enabled, ApplyResume, BurnSweep, Upgrade, SameTrails;
    BornAgreement(w, s);
    StepEffect(w, step);
    match step
    case Resume(id) => ResumeKeepsAgreement(w, id, s);
    case BurnAll(order) => SweepKeepsRenters(w.st.agreements, w.st.locks, w.cycles, order, w.now);
    case DoUpgrade(target) => UpgradeChangesOnlyTheTarget(w.st, target, w.now, w.now);
    case _ =>
  }

  lemma ResumeKeepsAgreement(w: World, id: nat, s: Principal)
    requires id in w.tasks && s in w.st.agreements && s in w.book.births
    ensures var w' := ApplyResume(w, id);
            && s in w'.st.agreements && w'.st.agreements[s].user == w.st.agreements[s].user
            && s in w'.book.births && w'.book.births[s] == w.book.births[s]
  {
    hide ApplyResume, SameTrails, RequestTrailBecomes, PaymentTrailBecomes, TopUpDeadline, LockedOnce, Moves, Leaves, GoesOn;
    hide CanFound, CanLock, CanCancel, CanTopUp;
    ResumeEffect(w, id);
  }

  lemma BornAgreement(w: World, s: Principal)
    requires Solid(w) && s in w.st.agreements
    ensures s in w.book.births && w.st.agreements[s].subnetId == s && AgreementKept(w.st.agreements[s], w.st.log, w.book.births)
  {
    hide LocksAreHeld, Records, Checked, AllCarry, PaymentTrail, EventsOf;
    KeyOf(w, s);
  }

  lemma {:induction false} SweepKeepsRenters(
      agreements: map<Principal, RentalAgreement>, locks: set<Guard>, balance: nat, order: seq<Principal>, now: nat)
    requires BurnSweep(agreements, locks, balance, order, now).Swept?
    ensures SameRenters(agreements, BurnSweep(agreements, locks, balance, order, now).agreements)
    decreases |order|
  {
    hide MinuteShare, SecondsLeft;
    if order != [] {
      if Guard(order[0], AgreementTag) in locks || order[0] !in agreements {
        SweepKeepsRenters(agreements, locks, balance, order[1..], now);
      } else {
        var burn := BurnOne(agreements[order[0]], balance, now);
        SweepKeepsRenters(agreements[order[0] := burn.agreement], locks, burn.balance, order[1..], now);
      }
    }
  }

  /** The c-th step of the run creates the agreement of `s`. */
  ghost predicate CreatedAt(worlds: seq<World>, steps: seq<Step>, c: nat, s: Principal)
    requires Run(worlds, steps) && c < |steps|
  {
    s !in worlds[c].st.agreements && s in worlds[c + 1].st.agreements
  }

  /** Every agreement has one such step. */
  lemma {:induction false} EveryAgreementIsCreated(worlds: seq<World>, steps: seq<Step>, n: nat, s: Principal) returns (c: nat)
    requires Run(worlds, steps) && n <= |steps| && s in worlds[n].st.agreements
    ensures c < n && CreatedAt(worlds, steps, c, s)
    ensures forall d: nat | d < |steps| && CreatedAt(worlds, steps, d, s) :: d == c
    decreases n
  {
    hide Init, Enabled, Apply;
    if n == 0 {
      assert false by { NothingAtFirst(worlds[0]) by { assert Init(worlds[0]); } }
    } else if s in worlds[n - 1].st.agreements {
      c := EveryAgreementIsCreated(worlds, steps, n - 1, s);
    } else {
      c := n - 1;
      forall d: nat | d < |steps| && CreatedAt(worlds, steps, d, s) ensures d == c {
        if d < c {
          BirthsAreKept(worlds, steps, d + 1, c, s);
        } else if d > c {
          BirthsAreKept(worlds, steps, c + 1, d, s);
        }
      }
    }
  }

  /** What the books call an agreement's birth is its totals at its creation, at all later times. */
  lemma {:induction false} BirthsAreKept(worlds: seq<World>, steps: seq<Step>, i: nat, j: nat, s: Principal)
    requires Run(worlds, steps) && i <= j <= |steps| && s in worlds[i].st.agreements
    ensures s in worlds[j].st.agreements && worlds[j].st.agreements[s].user == worlds[i].st.agreements[s].user
    ensures s in worlds[i].book.births && s in worlds[j].book.births && worlds[j].book.births[s] == worlds[i].book.births[s]
    decreases j
  {
    hide Solid, Init, Enabled, Apply;
    SolidRun(worlds, steps, i);
    BornAgreement(worlds[i], s);
    if i < j {
      BirthsAreKept(worlds, steps, i, j - 1, s);
      SolidRun(worlds, steps, j - 1);
      StepKeepsAgreement(worlds[j - 1], steps[j - 1], s);
    }
  }

  // ---------------------------------------------------------------- unwraps

  /** No `unwrap` of a map operation fails in any run, except that of a locking, which does not if F is met. */
  lemma NoUnwrapFails(worlds: seq<World>, steps: seq<Step>, n: nat, id: nat)
    requires Run(worlds, steps) && n <= |steps| && id in worlds[n].tasks
    ensures var w := worlds[n];
            var Task(job, call, reply) := w.tasks[id];
            match (job, call, reply)
            case (RentalJob(u, c, p, needed), NotifyCall(_, _, block), Minted(cycles)) =>
              FinishRequest(w.st, NewRequest(u, c, p, needed, cycles, w.now), block, w.now).Some?
            case (CreateJob(_, _, _, _, draft), AuthorizeCall(_, _, _), Done) =>
              draft.Some? && FinishCreate(w.st, draft.value, w.now).Some?
            case (TopUpJob(s, a, balance), NotifyCall(_, _, block), Minted(cycles)) =>
              FinishTopUp(w.st, s, a, balance, block, cycles, w.now).Some?
            case (LockJob(copy, sweepNow, _), NotifyCall(_, _, block), Minted(cycles)) =>
              FreshRun(worlds, steps) ==> FinishLocking(w.st, copy, sweepNow, block, cycles, w.now).Some?
            case _ => true
  {
    hide Init, Enabled, Apply, Solid, FreshRun;
    SolidRun(worlds, steps, n);
    ChecksHoldInEveryRun(worlds, steps, n, id);
    UnwrapsAtHand(worlds[n], id);
  }

  lemma UnwrapsAtHand(w: World, id: nat)
    requires Solid(w) && id in w.tasks
    ensures var Task(job, call, reply) := w.tasks[id];
            match (job, call, reply)
            case (RentalJob(u, c, p, needed), NotifyCall(_, _, block), Minted(cycles)) =>
              FinishRequest(w.st, NewRequest(u, c, p, needed, cycles, w.now), block, w.now).Some?
            case (CreateJob(_, _, _, _, draft), AuthorizeCall(_, _, _), Done) =>
              draft.Some? && FinishCreate(w.st, draft.value, w.now).Some?
            case (TopUpJob(s, a, balance), NotifyCall(_, _, block), Minted(cycles)) =>
              FinishTopUp(w.st, s, a, balance, block, cycles, w.now).Some?
            case (LockJob(copy, sweepNow, _), NotifyCall(_, _, block), Minted(cycles)) =>
              FinishLocking(w.st, copy, sweepNow, block, cycles, w.now).Some? <==> copy.user in w.st.requests
            case _ => true
  {
    hide Solid, Append, TopUpWrite, LockedOnce, InTenths, LockingDue, HasAgreement;
    TaskOf(w, id);
    PartsOf(w);
    if w.tasks[id].job.TopUpJob? {
      InitialCostsAreCharged(w.tasks[id].job.agreement.rentalConditionId);
    }
  }

  /** A top-up loses no update: what it writes from the copy it read two awaits ago is what an atomic
      top-up would make of the agreement as it stands at the write; if F is met, without saturation. */
  lemma TopUpIsAtomic(worlds: seq<World>, steps: seq<Step>, n: nat, id: nat)
    requires Run(worlds, steps) && n <= |steps| && CanTopUp(worlds[n], id)
    ensures var w := worlds[n];
            var TopUpJob(s, read, balance) := w.tasks[id].job;
            var cycles := w.tasks[id].reply.cycles;
            && s in w.st.agreements
            && var now := w.st.agreements[s];
               && now.rentalConditionId in w.st.conditions
               && var daily := w.st.conditions[now.rentalConditionId].dailyCostCycles;
               && CostPerSecond(daily) > 0
               && ResumeTopUp(w, id).st.agreements
                  == w.st.agreements[s := now.(
                       totalCyclesCreated := SatAdd128(now.totalCyclesCreated, cycles),
                       totalIcpPaid := SatAdd64(now.totalIcpPaid, balance),
                       paidUntilNanos := Min(U64_MAX, now.paidUntilNanos + BILLION * (cycles / CostPerSecond(daily))))]
               && (FreshRun(worlds, steps) ==> now.totalCyclesCreated + cycles <= U128_MAX)
  {
    hide Init, Enabled, Apply, Solid, Inv, FreshRun, Paying, ResumeTopUp, TopUpWrite;
    var w := worlds[n];
    SolidRun(worlds, steps, n);
    CanPay(w, id);
    TopUpWrites(w, id);
    var TopUpJob(_, read, balance) := w.tasks[id].job;
    TopUpFields(read, balance, w.tasks[id].reply.cycles, DailyCost(w, id));
    if FreshRun(worlds, steps) {
      SafeRun(worlds, steps, n);
      PaidRecord(w, id);
    }
  }

  lemma CanPay(w: World, id: nat)
    requires Solid(w) && CanTopUp(w, id)
    ensures Paying(w, id) && CostPerSecond(DailyCost(w, id)) > 0
    ensures var TopUpJob(s, a, _) := w.tasks[id].job;
            && s in w.st.agreements && w.st.agreements[s] == a
            && a.rentalConditionId in w.st.conditions && DailyCost(w, id) == w.st.conditions[a.rentalConditionId].dailyCostCycles
  {
    hide Solid, Carries;
    TaskOf(w, id);
    PartsOf(w);
    InitialCostsAreCharged(w.tasks[id].job.agreement.rentalConditionId);
  }

  lemma TopUpWrites(w: World, id: nat)
    requires CanTopUp(w, id) && Paying(w, id) && CostPerSecond(DailyCost(w, id)) > 0
    ensures var TopUpJob(s, read, balance) := w.tasks[id].job;
            && s in w.st.agreements
            && ResumeTopUp(w, id).st.agreements
               == w.st.agreements[s := TopUpWrite(w.st.agreements[s], read, balance, w.tasks[id].reply.cycles, DailyCost(w, id))]
  {
    hide ResumeTopUp, Leaves, PaymentTrailBecomes, TopUpWrite;
    PayingEffect(w, id);
  }

  lemma TopUpFields(a: RentalAgreement, icp: nat, cycles: nat, daily: nat)
    requires CostPerSecond(daily) > 0
    ensures TopUpWrite(a, a, icp, cycles, daily)
         == a.(totalCyclesCreated := SatAdd128(a.totalCyclesCreated, cycles),
               totalIcpPaid := SatAdd64(a.totalIcpPaid, icp),
               paidUntilNanos := Min(U64_MAX, a.paidUntilNanos + BILLION * (cycles / CostPerSecond(daily))))
  {
    hide TopUpDeadline;
    DeadlinesAreExact(a.paidUntilNanos, cycles, daily);
  }
}
