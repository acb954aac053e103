/** Runs of the system, and what holds all along them. */
module Runs {
  import opened Types
  import opened History
  import opened State
  import opened World
  import opened Invariant
  import opened Steps

  /** A finite run from an initial world; every prefix of a longer execution is one. */
  ghost predicate Run(worlds: seq<World>, steps: seq<Step>) {
    && |worlds| == |steps| + 1
    && Init(worlds[0])
    && forall i | 0 <= i < |steps| :: Enabled(worlds[i], steps[i]) && worlds[i + 1] == Apply(worlds[i], steps[i])
  }

  /** F along a run. */
  ghost predicate FreshRun(worlds: seq<World>, steps: seq<Step>)
    requires Run(worlds, steps)
  {
    forall i | 0 <= i < |steps| :: Fresh(worlds[i], steps[i])
  }

  /** G along a run. */
  ghost predicate OneProposalRun(worlds: seq<World>, steps: seq<Step>)
    requires Run(worlds, steps)
  {
    forall i | 0 <= i < |steps| :: OneProposal(worlds[i], steps[i])
  }

  // ---------------------------------------------------------------- the invariant

  lemma NothingAtFirst(w: World)
    requires Init(w)
    ensures w.st.requests == map[] && w.st.agreements == map[] && w.st.locks == {} && w.tasks == map[]
    ensures w.st.conditions == INITIAL_CONDITIONS
    ensures forall k | k != None :: EventsOf(w.st.log, k) == []
  {
  }

  lemma EmptyAudit(log: Log, now: nat)
    requires forall k | k != None :: EventsOf(log, k) == []
    ensures Audit(map[], map[], log, map[], now)
  {
    hide EventsOf;
    assert RequestTrail([]) == NoRequest && PaymentTrail([]) == Payments(0, 0, 0, None, 0);
  }

  lemma InitHolds(w: World)
    requires Init(w)
    ensures Inv(w)
  {
    hide SetInitialConditions, Audit, AtProgramPoint, EventsOf, StillHolds, RentalFunded, RentalSpending;
    NothingAtFirst(w);
    EmptyAudit(w.st.log, w.now);
    assert Sums.Sum(LockedBy(w.st.requests)) == 0;
    assert Sums.Sum(Created(w.st.agreements)) == 0;
    assert Sums.Sum(Unburned(w.st.agreements)) == 0;
    assert Sums.Sum(Flying(w.tasks)) == 0;
  }

  lemma {:induction false} SafeRun(worlds: seq<World>, steps: seq<Step>, n: nat)
    requires Run(worlds, steps) && FreshRun(worlds, steps) && n <= |steps|
    ensures Inv(worlds[n])
  {
    hide Inv, Init, Enabled, Apply, Fresh;
    if n == 0 {
      InitHolds(worlds[0]);
    } else {
      SafeRun(worlds, steps, n - 1);
      assert Fresh(worlds[n - 1], steps[n - 1]);
      StepKeeps(worlds[n - 1], steps[n - 1]);
    }
  }

  lemma StaleTaskBreaksInvariant(w: World, id: nat)
    requires id in w.tasks && !StillHolds(w.st.requests, w.st.agreements, w.tasks[id].job)
    ensures !Inv(w)
  {
    hide StillHolds, Base, Lifecycle, CyclesConserved, Backing, Spending, Audit, Clocks;
  }

  /** F is what the step needs, no more: a step of an invariant world that starts to work on a
      copy keeps the invariant if and only if the copy is the stored request. */
  lemma StepKeepsExactlyIfFresh(w: World, s: Step)
    requires Inv(w) && Enabled(w, s)
    ensures Inv(Apply(w, s)) <==> Fresh(w, s)
  {
    hide Inv, EndLocking, NextToLock, HasAgreement;
    if Fresh(w, s) {
      StepKeeps(w, s);
    } else {
      var LockJob(_, sweepNow, rest) := w.tasks[s.id].job;
      assert Apply(w, s) == ContinueSweep(EndLocking(w, s.id), s.id, sweepNow, rest);
      StaleTaskBreaksInvariant(Apply(w, s), s.id);
    }
  }
}
