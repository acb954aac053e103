/** A sweep's conversion in flight, in any run: nobody else writes its user's request, so that what becomes of it
    is decided when the guard is taken. */
module Flights {
  import opened Types
  import opened State
  import opened World
  import opened Writes
  import opened Effects
  import opened Runs
  import opened AnyRun

  ghost predicate SameAt(requests: map<Principal, RentalRequest>, requests': map<Principal, RentalRequest>, u: Principal) {
    (u in requests' <==> u in requests) && (u in requests' ==> requests'[u] == requests[u])
  }

  /** Every task that writes a user's request holds that user's guard. */
  lemma OnlyGuardedWrites(w: World, w': World, i: nat, u: Principal)
    requires i in w.tasks && Effect(w, w', i) && Carries(w.tasks[i]) && Guard(u, RequestTag) !in Guards(w.tasks[i].job)
    ensures SameAt(w.st.requests, w'.st.requests, u)
  {
    hide SameTrails, RequestTrailBecomes, PaymentTrailBecomes, LockedOnce, TopUpWrite, InTenths, LockingDue;
  }

  lemma ResumedFlightMoves(w: World, w': World, id: nat)
    requires id in w.tasks && w.tasks[id].job.LockJob? && Resumes(w, w', id)
    requires id in w'.tasks && w'.tasks[id].job == w.tasks[id].job
    ensures w'.st.requests == w.st.requests
  {
    hide Effect, SameTrails, LockingDue;
  }

  lemma ResumeSparesFlight(w: World, i: nat, id: nat)
    requires Solid(w) && i in w.tasks && id in w.tasks && w.tasks[id].job.LockJob?
    requires var w' := ApplyResume(w, i); id in w'.tasks && w'.tasks[id].job == w.tasks[id].job
    ensures SameAt(w.st.requests, ApplyResume(w, i).st.requests, w.tasks[id].job.request.user)
  {
    hide Solid, ApplyResume, Resumes, Effect, Carries;
    var u := w.tasks[id].job.request.user;
    ResumeEffect(w, i);
    if i == id {
      ResumedFlightMoves(w, ApplyResume(w, i), id);
    } else {
      SameIsAnEffect(w, ApplyResume(w, i), i);
      TaskOf(w, i);
      PartsOf(w);
      GuardExcludes(w.st.locks, w.tasks, id, Guard(u, RequestTag));
      OnlyGuardedWrites(w, ApplyResume(w, i), i, u);
    }
  }

  /** While the conversion is in flight, no step changes, removes or adds its user's request. */
  lemma StepSparesFlight(w: World, step: Step, id: nat)
    requires Solid(w) && Enabled(w, step) && id in w.tasks && w.tasks[id].job.LockJob?
    requires var w' := Apply(w, step); id in w'.tasks && w'.tasks[id].job == w.tasks[id].job
    ensures SameAt(w.st.requests, Apply(w, step).st.requests, w.tasks[id].job.request.user)
  {
    hide Solid, Apply, Enabled, ApplyResume, BurnSweep, Upgrade, SameTrails;
    StepEffect(w, step);
    match step
    case Resume(i) => ResumeSparesFlight(w, i, id);
    case DoUpgrade(target) => UpgradeChangesOnlyTheTarget(w.st, target, w.now, w.now);
    case _ =>
  }

  /** From the i-th to the j-th world, `id` is one and the same iteration of a sweep: the next one has fewer
      copies left. */
  ghost predicate InFlight(worlds: seq<World>, i: nat, j: nat, id: nat, job: Job)
    requires i <= j < |worlds|
  {
    job.LockJob? && forall k | i <= k <= j :: id in worlds[k].tasks && worlds[k].tasks[id].job == job
  }

  lemma {:induction false} RequestIsSpared(worlds: seq<World>, steps: seq<Step>, i: nat, j: nat, id: nat, job: Job)
    requires Run(worlds, steps) && i <= j <= |steps| && InFlight(worlds, i, j, id, job)
    ensures SameAt(worlds[i].st.requests, worlds[j].st.requests, job.request.user)
    decreases j
  {
    hide Solid, Init, Enabled, Apply;
    if i < j {
      RequestIsSpared(worlds, steps, i, j - 1, id, job);
      SolidRun(worlds, steps, j - 1);
      assert worlds[j] == Apply(worlds[j - 1], steps[j - 1]);
      StepSparesFlight(worlds[j - 1], steps[j - 1], id);
    }
  }

  /** In every run: the `unwrap` at the end of an iteration fails if and only if the request was gone when its guard
      was taken (or at any other moment of the flight). */
  lemma UnwrapFailsExactlyIfGone(worlds: seq<World>, steps: seq<Step>, i: nat, j: nat, id: nat, job: Job)
    requires Run(worlds, steps) && i <= j <= |steps| && InFlight(worlds, i, j, id, job)
    requires CanLock(worlds[j], id)
    ensures LockingTraps(worlds[j], id) <==> job.request.user !in worlds[i].st.requests
  {
    hide Init, Enabled, Apply;
    RequestIsSpared(worlds, steps, i, j, id, job);
  }

  lemma ModuloIsInjective(a: nat, b: nat, c: nat)
    requires a <= U128_MAX && b <= U128_MAX && Wrap128(a + c) == Wrap128(b + c)
    ensures a == b
  {
    var m := U128_MAX + 1;
    assert (a + c) % m == (b + c) % m;
    assert (a + c) - (b + c) == m * ((a + c) / m - (b + c) / m);
  }

  /** Saturation never hides a difference: ten tenths never are the largest u64. */
  lemma TenthsAreInjective(copy: RentalRequest, current: RentalRequest, sweepNow: nat)
    requires InTenths(copy) && LockingDue(copy, sweepNow) && copy.initialCostIcp == current.initialCostIcp
    requires LockedOnce(copy, 0, sweepNow).lockedAmountIcp == LockedOnce(current, 0, sweepNow).lockedAmountIcp
    ensures copy.lockedAmountIcp == current.lockedAmountIcp
  {
    var k: nat :| Tenths(copy, k);
    DueTenths(copy.initialCostIcp / 10, k);
  }

  lemma StaleWriteIsRightExactlyIfSame(copy: RentalRequest, current: RentalRequest, cycles: nat, sweepNow: nat)
    requires InTenths(copy) && LockingDue(copy, sweepNow) && InTenths(current)
    ensures LockedOnce(copy, cycles, sweepNow) == LockedOnce(current, cycles, sweepNow)
            <==> copy == current.(lastLockingTimeNanos := copy.lastLockingTimeNanos)
  {
    hide LockingDue;
    if LockedOnce(copy, cycles, sweepNow) == LockedOnce(current, cycles, sweepNow) {
      ModuloIsInjective(copy.lockedAmountCycles, current.lockedAmountCycles, cycles);
      TenthsAreInjective(copy, current, sweepNow);
    }
  }

  /** In every run: the record an iteration writes is what locking the stored request once makes of it if and only if
      the copy was that request when the guard was taken, up to the time of its last locking. */
  lemma LockingIsRightExactlyIfFresh(worlds: seq<World>, steps: seq<Step>, i: nat, j: nat, id: nat, job: Job)
    requires Run(worlds, steps) && i <= j <= |steps| && InFlight(worlds, i, j, id, job)
    requires CanLock(worlds[j], id) && job.request.user in worlds[i].st.requests
    ensures var u := job.request.user;
            var stored := worlds[i].st.requests[u];
            var w' := EndLocking(worlds[j], id);
            && u in w'.st.requests
            && (w'.st.requests[u] == LockedOnce(stored, worlds[j].tasks[id].reply.cycles, job.sweepNow)
                <==> job.request == stored.(lastLockingTimeNanos := job.request.lastLockingTimeNanos))
  {
    hide Init, Enabled, Apply, Solid, EndLocking, LockedOnce, RequestTrailBecomes, Leaves, InTenths, LockingDue;
    var w := worlds[j];
    RequestIsSpared(worlds, steps, i, j, id, job);
    SolidRun(worlds, steps, j);
    TaskOf(w, id);
    StoredInTenths(w, job.request.user);
    RelockingEffect(w, id);
    StaleWriteIsRightExactlyIfSame(
      job.request, w.st.requests[job.request.user], w.tasks[id].reply.cycles, job.sweepNow);
  }
}
