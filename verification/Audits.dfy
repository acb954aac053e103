/** The event log as an audit trail, the locking schedule, and the migration, over every run. */
module Audits {
  import opened Types
  import opened History
  import opened State
  import opened World
  import opened Invariant
  import opened Writes
  import opened AgreementWrites
  import opened Effects
  import opened Runs
  import opened AnyRun
  import opened Theorems

  // ---------------------------------------------------------------- replay

  /** Replaying a user's log from the last request created gives what the live request has locked. */
  lemma RequestsReplay(worlds: seq<World>, steps: seq<Step>, n: nat, u: Principal)
    requires Reached(worlds, steps, n) && u in worlds[n].st.requests
    ensures var st := worlds[n].st;
            var trail := RequestTrail(EventsOf(st.log, Some(u)));
            && trail.LockedUp?
            && trail.icp == st.requests[u].lockedAmountIcp
            && trail.cycles == st.requests[u].lockedAmountCycles
  {
    hide Inv, RequestTrail, EventsOf;
    SafeRun(worlds, steps, n);
    RequestOf(worlds[n], u);
  }

  /** In every run: the log shows a request that was not cancelled exactly for the users with a request or
      an agreement. */
  lemma LogKnowsCustomers(worlds: seq<World>, steps: seq<Step>, n: nat, u: Principal)
    requires Run(worlds, steps) && n <= |steps|
    ensures var st := worlds[n].st;
            u in st.requests || HasAgreement(st.agreements, u) <==> RequestTrail(EventsOf(st.log, Some(u))).LockedUp?
  {
    hide Solid, Init, Enabled, Apply, RequestTrail, EventsOf, HasAgreement;
    SolidRun(worlds, steps, n);
    TrailsOf(worlds[n]);
  }

  lemma TrailsOf(w: World)
    requires Solid(w)
    ensures TrailsAreLive(w.st.requests, w.st.agreements, w.st.log)
  {
    hide LocksAreHeld, Checked, AllCarry, Lifecycle, AllInTenths, AgreementsKept, TrailsAreLive;
  }

  lemma RequestOf(w: World, u: Principal)
    requires Inv(w) && u in w.st.requests
    ensures w.st.requests[u].user == u && RequestAudited(w.st.requests[u], w.st.log, w.now)
  {
    hide Base, ChecksHold, CyclesConserved, Backing, Spending, Clocks, RequestAudited, RequestTrail, PaymentTrail, EventsOf;
  }

  /** In every run, replaying a subnet's log from an agreement's creation gives its totals (the cycles capped at
      u128; exactly, if F is met) and its deadline. */
  lemma AgreementsReplay(worlds: seq<World>, steps: seq<Step>, c: nat, n: nat, s: Principal)
    requires Run(worlds, steps) && c < n <= |steps| && CreatedAt(worlds, steps, c, s)
    ensures s in worlds[n].st.agreements
    ensures var born, a := worlds[c + 1].st.agreements[s], worlds[n].st.agreements[s];
            var paid := PaymentTrail(EventsOf(worlds[n].st.log, Some(s)));
            && a.totalCyclesCreated == Min(born.totalCyclesCreated + paid.cycles, U128_MAX)
            && (FreshRun(worlds, steps) ==> a.totalCyclesCreated == born.totalCyclesCreated + paid.cycles)
            && a.totalIcpPaid == Min(born.totalIcpPaid + paid.icp, U64_MAX)
            && (match paid.deadline
                case None => PaidForAPeriod(a)
                case Some(d) => a.paidUntilNanos == d)
  {
    hide Inv, Solid, Init, Enabled, Apply, FreshRun, PaymentTrail, EventsOf;
    AgreementContinuesRequest(worlds, steps, c, s);
    BirthsAreKept(worlds, steps, c + 1, n, s);
    SolidRun(worlds, steps, n);
    BornAgreement(worlds[n], s);
    DeadlineIsExact(worlds[n].st.agreements[s].creationTimeNanos);
    if FreshRun(worlds, steps) {
      SafeRun(worlds, steps, n);
      SpentBefore(worlds[n], s);
    }
  }

  // ---------------------------------------------------------------- locking schedule

  /** After k lockings exactly k tenths (rounded down) are locked, never more than the whole cost and never
      more than ten; ten leave less than 10 e8s of it; and k lockings take k - 1 months at least. */
  lemma LockingSchedule(worlds: seq<World>, steps: seq<Step>, n: nat, u: Principal)
    requires Reached(worlds, steps, n) && u in worlds[n].st.requests
    ensures var r := worlds[n].st.requests[u];
            var trail := RequestTrail(EventsOf(worlds[n].st.log, Some(u)));
            && trail.LockedUp? && 1 <= trail.times <= 10 && (r.initialCostIcp < 10 ==> trail.times == 1)
            && r.lockedAmountIcp == trail.times * (r.initialCostIcp / 10) <= r.initialCostIcp
            && (r.initialCostIcp >= 10 && trail.times == 10 ==>
                  r.initialCostIcp - r.lockedAmountIcp == r.initialCostIcp % 10)
            && r.creationTimeNanos + (trail.times - 1) * MONTH_NANOS <= r.lastLockingTimeNanos <= worlds[n].now
  {
    hide Inv, RequestTrail, EventsOf;
    SafeRun(worlds, steps, n);
    RequestOf(worlds[n], u);
    TenthsAreNoMoreThanTheCost(
      worlds[n].st.requests[u], RequestTrail(EventsOf(worlds[n].st.log, Some(u))).times, worlds[n].now);
  }

  /** The end of a sweep's iteration makes `r` into `r'`. */
  predicate LocksATenth(w: World, id: nat, r: RentalRequest, r': RentalRequest) {
    && CanLock(w, id)
    && r' == r.(lockedAmountIcp := r.lockedAmountIcp + r.initialCostIcp / 10,
                lockedAmountCycles := r.lockedAmountCycles + w.tasks[id].reply.cycles,
                lastLockingTimeNanos := w.tasks[id].job.sweepNow)
    && r.lastLockingTimeNanos + MONTH_NANOS <= r'.lastLockingTimeNanos <= w.now
  }

  /** A live request only ever changes by a locking: one tenth and the cycles minted for it, exactly, a
      month or more after the locking before. */
  lemma RequestsChangeOnlyByLocking(worlds: seq<World>, steps: seq<Step>, n: nat, u: Principal)
    requires Reached(worlds, steps, n + 1)
    requires u in worlds[n].st.requests && u in worlds[n + 1].st.requests
    requires worlds[n + 1].st.requests[u] != worlds[n].st.requests[u]
    ensures steps[n].Resume?
    ensures LocksATenth(worlds[n], steps[n].id, worlds[n].st.requests[u], worlds[n + 1].st.requests[u])
  {
    hide Inv, FreshRun, Init, Apply, Enabled, LocksATenth;
    SafeRun(worlds, steps, n);
    StepChangesByLocking(worlds[n], steps[n], u);
  }

  lemma StepChangesByLocking(w: World, step: Step, u: Principal)
    requires Inv(w) && Enabled(w, step) && u in w.st.requests && u in Apply(w, step).st.requests
    requires Apply(w, step).st.requests[u] != w.st.requests[u]
    ensures step.Resume? && LocksATenth(w, step.id, w.st.requests[u], Apply(w, step).st.requests[u])
  {
    hide Inv, Apply, Enabled, ApplyResume, BurnSweep, Upgrade, LocksATenth, SameTrails;
    StepEffect(w, step);
    match step
    case Resume(id) => ResumeChangesByLocking(w, id, u);
    case DoUpgrade(target) => UpgradeChangesOnlyTheTarget(w.st, target, w.now, w.now);
    case _ =>
  }

  lemma ResumeChangesByLocking(w: World, id: nat, u: Principal)
    requires Inv(w) && id in w.tasks && u in w.st.requests && u in ApplyResume(w, id).st.requests
    requires ApplyResume(w, id).st.requests[u] != w.st.requests[u]
    ensures LocksATenth(w, id, w.st.requests[u], ApplyResume(w, id).st.requests[u])
  {
    hide Inv, ApplyResume, LocksATenth, Effect, SameRecords, LockedOnce;
    ResumeEffect(w, id);
    SameIsAnEffect(w, ApplyResume(w, id), id);
    OnlyLockingRewrites(w, ApplyResume(w, id), id, u);
    RelockingLocksATenth(w, id);
  }

  lemma OnlyLockingRewrites(w: World, w': World, id: nat, u: Principal)
    requires id in w.tasks && Effect(w, w', id)
    requires u in w.st.requests && u in w'.st.requests && w'.st.requests[u] != w.st.requests[u]
    ensures CanLock(w, id) && w.tasks[id].job.request.user == u
    ensures w'.st.requests[u] == LockedOnce(w.tasks[id].job.request, w.tasks[id].reply.cycles, w.tasks[id].job.sweepNow)
  {
    hide SameTrails, RequestTrailBecomes, PaymentTrailBecomes, LockedOnce;
  }

  lemma RelockingLocksATenth(w: World, id: nat)
    requires Inv(w) && CanLock(w, id)
    ensures var LockJob(r, sweepNow, _) := w.tasks[id].job;
            && r.user in w.st.requests && w.st.requests[r.user] == r
            && LocksATenth(w, id, r, LockedOnce(r, w.tasks[id].reply.cycles, sweepNow))
  {
    hide Inv, Append, LockingDue, RequestTrail, EventsOf;
    var r := w.tasks[id].job.request;
    LockAtHand(w, id);
    RelockedRecord(w, id);
    RequestOf(w, r.user);
    DueForAnotherTenth(r, RequestTrail(EventsOf(w.st.log, Some(r.user))).times, w.tasks[id].job.sweepNow, w.now);
  }

  // ---------------------------------------------------------------- migration

  /** In every run, however many upgrades it has, an agreement's conditions are switched at most once, and not
      at all while they are App13CH. */
  lemma SwitchedAtMostOnce(worlds: seq<World>, steps: seq<Step>, n: nat, s: Principal)
    requires Run(worlds, steps) && n <= |steps|
    ensures var st := worlds[n].st;
            var switches := PaymentTrail(EventsOf(st.log, Some(s))).switches;
            && switches <= 1
            && (switches == 1 ==> s in st.agreements && st.agreements[s].rentalConditionId == App7CH)
  {
    hide Solid, Init, Enabled, Apply, PaymentTrail, EventsOf;
    SolidRun(worlds, steps, n);
    if s in worlds[n].st.agreements {
      BornAgreement(worlds[n], s);
    } else {
      Strangers(worlds[n], s);
    }
  }
}
