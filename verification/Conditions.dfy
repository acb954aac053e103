/** Under F and G: every rental condition is in at most one live request or running proposal. */
module Conditions {
  import opened Types
  import opened Pricing
  import opened State
  import opened World
  import opened Invariant
  import opened Steps
  import opened Effects
  import opened Runs
  import opened AnyRun

  /** No request or proposal appears, and none changes its condition. */
  ghost predicate Narrower(w: World, w': World) {
    && (forall u | u in w'.st.requests ::
          u in w.st.requests && w'.st.requests[u].rentalConditionId == w.st.requests[u].rentalConditionId)
    && (forall id | id in w'.tasks && w'.tasks[id].job.RentalJob? ::
          id in w.tasks && w.tasks[id].job.RentalJob? && w'.tasks[id].job.condition == w.tasks[id].job.condition)
  }

  lemma NarrowerStaysApart(w: World, w': World)
    requires ConditionsApart(w.st.requests, w.tasks) && Narrower(w, w')
    ensures ConditionsApart(w'.st.requests, w'.tasks)
  {
  }

  /** A proposal that ends in a request hands its condition over. */
  lemma OpeningStaysApart(w: World, w': World, id: nat)
    requires id in w.tasks && w.tasks[id].job.RentalJob? && Opens(w, w', id) && Leaves(w, w', id)
    requires ConditionsApart(w.st.requests, w.tasks)
    ensures ConditionsApart(w'.st.requests, w'.tasks)
  {
    hide Guards, RequestTrailBecomes;
  }

  lemma OtherTasksAreNarrower(w: World, w': World, id: nat)
    requires id in w.tasks && (Moves(w, w', id) || Leaves(w, w', id) || GoesOn(w, w', id))
    ensures forall i | i in w'.tasks && w'.tasks[i].job.RentalJob? ::
              i in w.tasks && w.tasks[i].job.RentalJob? && w'.tasks[i].job.condition == w.tasks[i].job.condition
  {
    hide Guards;
  }

  lemma OtherRequestsAreNarrower(w: World, w': World, id: nat)
    requires id in w.tasks && Effect(w, w', id) && StillHolds(w.st.requests, w.st.agreements, w.tasks[id].job)
    requires w.tasks[id].job.RentalJob? ==> SameRecords(w, w')
    ensures forall u | u in w'.st.requests ::
              u in w.st.requests && w'.st.requests[u].rentalConditionId == w.st.requests[u].rentalConditionId
  {
    hide SameTrails, RequestTrailBecomes, PaymentTrailBecomes, HasAgreement;
  }

  lemma ResumeStaysApart(w: World, id: nat)
    requires Inv(w) && ConditionsApart(w.st.requests, w.tasks) && id in w.tasks
    ensures var w' := ApplyResume(w, id); ConditionsApart(w'.st.requests, w'.tasks)
  {
    hide Inv, ConditionsApart, ApplyResume, Moves, Leaves, GoesOn, SameRecords, Opens, StillHolds, AtProgramPoint;
    var w' := ApplyResume(w, id);
    ResumeEffect(w, id);
    PointOf(w, id);
    SameIsAnEffect(w, w', id);
    if w.tasks[id].job.RentalJob? && !SameRecords(w, w') {
      RentalDoesNotGoOn(w, w', id);
      OpeningStaysApart(w, w', id);
    } else {
      OtherTasksAreNarrower(w, w', id);
      OtherRequestsAreNarrower(w, w', id);
      NarrowerStaysApart(w, w');
    }
  }

  lemma RentalDoesNotGoOn(w: World, w': World, id: nat)
    requires id in w.tasks && w.tasks[id].job.RentalJob?
    ensures !GoesOn(w, w', id)
  {
  }

  /** The proposal passes its checks, and its price if the rate is known, and so goes on to an await. */
  predicate Proceeds(w: World, s: Step)
    requires Enabled(w, s) && s.StartRental?
  {
    && RequestAllowed(w.st, s.user, s.condition)
    && (s.rateTime in w.st.rates ==>
          var c := w.st.conditions[s.condition];
          var rate := w.st.rates[s.rateTime];
          CalculateSubnetPrice(c.dailyCostCycles, c.initialRentalPeriodDays, rate.0, rate.1).Some?)
  }

  /** No other proposal for the same condition is running when one goes on to its first await. */
  ghost predicate NoTwin(w: World, s: Step)
    requires Enabled(w, s)
  {
    s.StartRental? && Proceeds(w, s) ==>
      forall id | id in w.tasks && w.tasks[id].job.RentalJob? :: w.tasks[id].job.condition != s.condition
  }

  lemma OneProposalHasNoTwin(w: World, s: Step)
    requires Enabled(w, s) && OneProposal(w, s)
    ensures NoTwin(w, s)
  {
    hide Proceeds;
  }

  /** Exactly what the step needs: conditions stay apart if and only if no twin is running. G is enough for it,
      the (user, "request") guard is not. */
  lemma StepStaysApartExactlyIfNoTwin(w: World, s: Step)
    requires Inv(w) && ConditionsApart(w.st.requests, w.tasks) && Enabled(w, s)
    ensures var w' := Apply(w, s); ConditionsApart(w'.st.requests, w'.tasks) <==> NoTwin(w, s)
  {
    hide Inv, Apply, Enabled, ConditionsApart, Proceeds;
    if NoTwin(w, s) {
      StepStaysApart(w, s);
    } else {
      TwinsAreNotApart(w, s);
    }
  }

  lemma TwinsAreNotApart(w: World, s: Step)
    requires Enabled(w, s) && !NoTwin(w, s)
    ensures var w' := Apply(w, s); !ConditionsApart(w'.st.requests, w'.tasks)
  {
    hide CalculateSubnetPrice, RequestAllowed, Guards;
    var id :| id in w.tasks && w.tasks[id].job.RentalJob? && w.tasks[id].job.condition == s.condition;
    var w' := Apply(w, s);
    assert id in w'.tasks && s.id in w'.tasks && w'.tasks[id].job.condition == w'.tasks[s.id].job.condition;
  }

  lemma StepStaysApart(w: World, s: Step)
    requires Inv(w) && ConditionsApart(w.st.requests, w.tasks) && Enabled(w, s) && NoTwin(w, s)
    ensures var w' := Apply(w, s); ConditionsApart(w'.st.requests, w'.tasks)
  {
    hide Inv, ApplyResume, ApplyServe, ApplyRental, ContinueSweep, ApplyBurn, Upgrade, BurnSweep, RequestAllowed, ConditionsApart;
    hide NoTwin, Narrower, Guards;
    match s
    case Resume(id) => ResumeStaysApart(w, id);
    case StartRental(_, _, _, _, _) => StartRentalStaysApart(w, s);
    case _ =>
      OtherStepIsNarrower(w, s);
      NarrowerStaysApart(w, Apply(w, s));
  }

  lemma OtherStepIsNarrower(w: World, s: Step)
    requires Enabled(w, s) && !s.Resume? && !s.StartRental?
    ensures Narrower(w, Apply(w, s))
  {
    hide ApplyServe, ContinueSweep, ApplyBurn, Upgrade, BurnSweep, Guards;
    match s
    case StartSweep(id, snapshot) => ContinueSweepEffect(w, id, w.now, snapshot);
    case Serve(id, reply) => ServeChangesNoJob(w, id, reply);
    case BurnAll(order) => BurnChangesNoRequest(w, order);
    case DoUpgrade(target) => UpgradeChangesOnlyTheTarget(w.st, target, w.now, w.now);
    case _ =>
  }

  lemma ServeChangesNoJob(w: World, id: nat, reply: Reply)
    requires Enabled(w, Serve(id, reply))
    ensures ApplyServe(w, id, reply).st == w.st
    ensures ApplyServe(w, id, reply).tasks == w.tasks[id := w.tasks[id].(reply := reply)]
  {
  }

  lemma BurnChangesNoRequest(w: World, order: seq<Principal>)
    requires Enabled(w, BurnAll(order))
    ensures ApplyBurn(w, order).st.requests == w.st.requests && ApplyBurn(w, order).tasks == w.tasks
  {
    hide BurnSweep;
  }

  /** The proposal's own check, and G, keep its condition apart from all others. */
  lemma NewProposalIsApart(w: World, s: Step, t: Task)
    requires ConditionsApart(w.st.requests, w.tasks) && Enabled(w, s) && s.StartRental? && NoTwin(w, s) && Proceeds(w, s)
    requires t.job.RentalJob? && t.job.condition == s.condition
    ensures ConditionsApart(w.st.requests, w.tasks[s.id := t])
  {
    hide HasAgreement, CalculateSubnetPrice;
  }

  /** A proposal that is refused, or whose price cannot be calculated from the known rate, ends where it started. */
  lemma FailedAtOnce(w: World, s: Step)
    requires Enabled(w, s) && s.StartRental? && !Proceeds(w, s)
    ensures Apply(w, s).st.requests == w.st.requests && Apply(w, s).tasks == w.tasks
  {
    hide CalculateSubnetPrice, RequestAllowed, Guards, History.Append;
  }

  lemma StartRentalStaysApart(w: World, s: Step)
    requires ConditionsApart(w.st.requests, w.tasks) && Enabled(w, s) && s.StartRental? && NoTwin(w, s)
    ensures var w' := Apply(w, s); ConditionsApart(w'.st.requests, w'.tasks)
  {
    hide Apply, Enabled, ConditionsApart, NoTwin, Proceeds, RequestAllowed, SameTrails;
    if Proceeds(w, s) {
      StartRentalEffect(w, s);
      if Apply(w, s).tasks != w.tasks {
        NewProposalIsApart(w, s, Apply(w, s).tasks[s.id]);
      }
    } else {
      FailedAtOnce(w, s);
    }
  }

  lemma {:induction false} ConditionsApartInEveryRun(worlds: seq<World>, steps: seq<Step>, n: nat)
    requires Run(worlds, steps) && FreshRun(worlds, steps) && OneProposalRun(worlds, steps) && n <= |steps|
    ensures ConditionsApart(worlds[n].st.requests, worlds[n].tasks)
  {
    hide Init, Inv, Enabled, Apply, Fresh, OneProposal, ConditionsApart;
    if n == 0 {
      assert ConditionsApart(worlds[0].st.requests, worlds[0].tasks) by { NothingIsApart(worlds[0]); }
    } else {
      ConditionsApartInEveryRun(worlds, steps, n - 1);
      SafeRun(worlds, steps, n - 1);
      assert OneProposal(worlds[n - 1], steps[n - 1]);
      OneProposalHasNoTwin(worlds[n - 1], steps[n - 1]);
      StepStaysApart(worlds[n - 1], steps[n - 1]);
    }
  }

  lemma NothingIsApart(w: World)
    requires Init(w)
    ensures ConditionsApart(w.st.requests, w.tasks)
  {
    hide SetInitialConditions;
    NothingAtFirst(w);
  }

  /** There are never more live requests than rental conditions. */
  lemma NoMoreRequestsThanConditions(worlds: seq<World>, steps: seq<Step>, n: nat)
    requires Run(worlds, steps) && FreshRun(worlds, steps) && OneProposalRun(worlds, steps) && n <= |steps|
    ensures |worlds[n].st.requests| <= |worlds[n].st.conditions|
  {
    hide Inv, FreshRun, OneProposalRun, Apply, Enabled, Init;
    ConditionsApartInEveryRun(worlds, steps, n);
    SafeRun(worlds, steps, n);
    var st := worlds[n].st;
    assert st.conditions == INITIAL_CONDITIONS by { ConditionsAreInitial(worlds[n]); }
    TwoAtMost(st.requests);
    assert |INITIAL_CONDITIONS.Keys| == |{App13CH, App7CH}|;
  }

  lemma ConditionsAreInitial(w: World)
    requires Inv(w)
    ensures w.st.conditions == INITIAL_CONDITIONS
  {
    hide Base, Lifecycle, ChecksHold, CyclesConserved, Backing, Spending, Audit, Clocks;
  }

  lemma TwoAtMost(requests: map<Principal, RentalRequest>)
    requires forall u, v | u in requests && v in requests && requests[u].rentalConditionId == requests[v].rentalConditionId :: u == v
    ensures |requests| <= 2
  {
    var users := requests.Keys;
    if u :| u in users {
      if v :| v in users - {u} {
        assert requests[u].rentalConditionId != requests[v].rentalConditionId;
        assert users == {u, v} by {
          forall x | x in users ensures x == u || x == v {
            assert requests[x].rentalConditionId in {App13CH, App7CH};
          }
        }
      } else {
        assert users - {u} == {};
        assert users == {u};
      }
    } else {
      assert users == {};
    }
  }
}
