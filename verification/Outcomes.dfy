/** What each segment records in the log: exactly one outcome per task that ends, and nothing for a trap. */
module Outcomes {
  import opened Types
  import opened History
  import opened Pricing
  import opened Deadlines
  import opened State
  import opened World
  import opened Invariant
  import opened Writes
  import opened AgreementWrites
  import opened Effects
  import opened Runs
  import opened AnyRun
  import opened Theorems
  import opened Lives
  import opened Growth

  function Stamped(events: seq<EventType>, now: nat): (stamped: seq<Event>)
    ensures |stamped| == |events| && forall i | 0 <= i < |events| :: stamped[i] == Event(now, events[i])
  {
    seq(|events|, i requires 0 <= i < |events| => Event(now, events[i]))
  }

  /** The key's log gets these events, at the end and at this time; no other key's log changes. */
  ghost predicate Logs(w: World, w': World, key: Option<Principal>, events: seq<EventType>) {
    && EventsOf(w'.st.log, key) == EventsOf(w.st.log, key) + Stamped(events, w.now)
    && forall k | k != key :: EventsOf(w'.st.log, k) == EventsOf(w.st.log, k)
  }

  ghost predicate LogsNothing(w: World, w': World) {
    forall k :: EventsOf(w'.st.log, k) == EventsOf(w.st.log, k)
  }

  lemma OneEvent(log: Log, key: Option<Principal>, e: EventType, now: nat)
    ensures var log' := Append(log, key, e, now);
            && EventsOf(log', key) == EventsOf(log, key) + Stamped([e], now)
            && forall k | k != key :: EventsOf(log', k) == EventsOf(log, k)
  {
    assert Stamped([e], now) == [Event(now, e)];
  }

  lemma TwoEvents(log: Log, key: Option<Principal>, e: EventType, f: EventType, now: nat)
    ensures var log' := Append(Append(log, key, e, now), key, f, now);
            && EventsOf(log', key) == EventsOf(log, key) + Stamped([e, f], now)
            && forall k | k != key :: EventsOf(log', k) == EventsOf(log, k)
  {
    assert Stamped([e, f], now) == [Event(now, e)] + [Event(now, f)];
  }

  /** Ending after a write leaves the log as the write left it. */
  lemma EndLogs(w: World, w1: World, id: nat, key: Option<Principal>, events: seq<EventType>)
    requires id in w1.tasks && Logs(w, w1, key, events)
    ensures Logs(w, End(w1, id), key, events)
  {
    hide End;
    EndKeepsLog(w1, id);
  }

  lemma NoteLogs(w: World, id: nat, key: Option<Principal>, event: EventType)
    requires id in w.tasks
    ensures Logs(w, End(Note(w, key, event), id), key, [event])
  {
    hide End, Append;
    OneEvent(w.st.log, key, event, w.now);
    EndLogs(w, Note(w, key, event), id, key, [event]);
  }

  // ---------------------------------------------------------------- proposals

  /** A proposal that ends has opened a request, or logs its failure; one that traps logs nothing. */
  ghost predicate RentalOutcome(w: World, w': World, id: nat)
    requires id in w.tasks && w.tasks[id].job.RentalJob?
  {
    var Task(RentalJob(user, _, proposal, _), call, reply) := w.tasks[id];
    if id in w'.tasks || reply.CallFailed? then LogsNothing(w, w')
    else if call.NotifyCall? && reply.Minted? then
      if user in w.st.requests then LogsNothing(w, w')
      else
        && user in w'.st.requests
        && Logs(w, w', Some(user),
                [TransferSuccess(w'.st.requests[user].lockedAmountIcp, call.block), RentalRequestCreated(w'.st.requests[user])])
    else Logs(w, w', Some(user), [RentalRequestFailed(user, proposal)])
  }

  lemma PriceRentalLogs(w: World, id: nat, rate: nat, decimals: nat)
    requires id in w.tasks && w.tasks[id].job.RentalJob? && w.tasks[id].job.condition in w.st.conditions
    ensures var w' := PriceRental(w, id, rate, decimals);
            var job := w.tasks[id].job;
            if id in w'.tasks then LogsNothing(w, w')
            else Logs(w, w', Some(job.user), [RentalRequestFailed(job.user, job.proposal)])
  {
    hide CalculateSubnetPrice, End, EventsOf, Append;
    var job := w.tasks[id].job;
    NoteLogs(w, id, Some(job.user), RentalRequestFailed(job.user, job.proposal));
    EndLeaves(w, Note(w, Some(job.user), RentalRequestFailed(job.user, job.proposal)), id);
  }

  lemma OpeningLogs(w: World, id: nat)
    requires id in w.tasks && w.tasks[id].job.RentalJob? && w.tasks[id].job.condition in w.st.conditions
    requires w.tasks[id].call.NotifyCall? && w.tasks[id].reply.Minted?
    ensures RentalOutcome(w, ResumeRental(w, id), id)
  {
    hide Append, End, EventsOf;
    var Task(job, call, reply) := w.tasks[id];
    var r := NewRequest(job.user, job.condition, job.proposal, job.needed, reply.cycles, w.now);
    EndKeepsLog(w, id);
    EndLeaves(w, w, id);
    if job.user !in w.st.requests {
      TwoEvents(w.st.log, Some(job.user), TransferSuccess(r.lockedAmountIcp, call.block), RentalRequestCreated(r), w.now);
      ClosingLeaves(w, Opened(w, id, r), id);
      EndLogs(w, Opened(w, id, r), id, Some(job.user), [TransferSuccess(r.lockedAmountIcp, call.block), RentalRequestCreated(r)]);
    }
  }

  lemma RentalLogs(w: World, id: nat)
    requires id in w.tasks && w.tasks[id].job.RentalJob? && w.st.conditions == INITIAL_CONDITIONS
    ensures RentalOutcome(w, ApplyResume(w, id), id)
  {
    hide PriceRental, Append, End, EventsOf, FinishRequest, RentalOutcome;
    var Task(job, call, reply) := w.tasks[id];
    ConditionIsInitial(job.condition);
    if reply.CallFailed? {
      assert RentalOutcome(w, End(w, id), id) by { EndsSilently(w, id); }
    } else if call.NotifyCall? && reply.Minted? {
      OpeningLogs(w, id);
    } else {
      EarlyRentalLogs(w, id);
    }
  }

  lemma EndsSilently(w: World, id: nat)
    requires id in w.tasks
    ensures LogsNothing(w, End(w, id)) && id !in End(w, id).tasks
    ensures w.tasks[id].job.RentalJob? && w.tasks[id].reply.CallFailed? ==> RentalOutcome(w, End(w, id), id)
  {
    hide End, EventsOf;
    EndKeepsLog(w, id);
    EndLeaves(w, w, id);
  }

  lemma EarlyRentalLogs(w: World, id: nat)
    requires id in w.tasks && w.tasks[id].job.RentalJob? && w.tasks[id].job.condition in w.st.conditions
    requires !w.tasks[id].reply.CallFailed? && !(w.tasks[id].call.NotifyCall? && w.tasks[id].reply.Minted?)
    ensures RentalOutcome(w, ResumeRental(w, id), id)
  {
    hide PriceRental, Append, End, EventsOf, FinishRequest;
    var Task(job, call, reply) := w.tasks[id];
    NoteLogs(w, id, Some(job.user), RentalRequestFailed(job.user, job.proposal));
    EndLeaves(w, Note(w, Some(job.user), RentalRequestFailed(job.user, job.proposal)), id);
    if call.XrcCall? && reply.Rate? {
      PriceRentalLogs(w.(st := w.st.(rates := w.st.rates[call.time := (reply.rate, reply.decimals)])), id, reply.rate, reply.decimals);
    }
  }

  // ---------------------------------------------------------------- agreements, refunds, top-ups

  /** A creation logs its conversion, and later the agreement, and nothing else. */
  lemma CreateLogs(w: World, id: nat)
    requires id in w.tasks && w.tasks[id].job.CreateJob? && w.st.conditions == INITIAL_CONDITIONS
    ensures var Task(CreateJob(user, _, _, _, draft), call, reply) := w.tasks[id];
            var w' := ApplyResume(w, id);
            if call.NotifyCall? && reply.Minted? then Logs(w, w', Some(user), [TransferSuccess(call.amount, call.block)])
            else if Founding(w, id) then
              var a := draft.value;
              Logs(w, w', Some(a.subnetId),
                   [RentalAgreementCreated(a.user, a.rentalRequestProposalId, a.subnetCreationProposalId, a.rentalConditionId)])
            else LogsNothing(w, w')
  {
    hide Append, NewAgreement, End, EventsOf;
    var Task(job, call, reply) := w.tasks[id];
    ConditionIsInitial(job.request.rentalConditionId);
    EndKeepsLog(w, id);
    if call.NotifyCall? && reply.Minted? {
      OneEvent(w.st.log, Some(job.user), TransferSuccess(call.amount, call.block), w.now);
    } else if CanFound(w, id) {
      FoundingFinishes(w, id);
      if Founding(w, id) {
        var a := job.draft.value;
        var created := RentalAgreementCreated(a.user, a.rentalRequestProposalId, a.subnetCreationProposalId, a.rentalConditionId);
        OneEvent(w.st.log, Some(a.subnetId), created, w.now);
        EndLogs(w, Founded(w, id), id, Some(a.subnetId), [created]);
      }
    }
  }

  /** A paid refund logs what it paid, and the request it cancels if there is one. */
  lemma RefundLogs(w: World, id: nat)
    requires id in w.tasks && w.tasks[id].job.RefundJob?
    ensures var Task(RefundJob(user), call, reply) := w.tasks[id];
            var w' := ApplyResume(w, id);
            if call.RefundTransfer? && reply.Block? then
              var paid := TransferSuccess(call.amount, reply.index);
              Logs(w, w', Some(user),
                   if user in w.st.requests then [paid, RentalRequestCancelled(w.st.requests[user])] else [paid])
            else LogsNothing(w, w')
  {
    hide Append, End, EventsOf, Guards;
    var Task(job, call, reply) := w.tasks[id];
    EndKeepsLog(w, id);
    if call.RefundTransfer? && reply.Block? {
      var paid := TransferSuccess(call.amount, reply.index);
      OneEvent(w.st.log, Some(job.user), paid, w.now);
      if job.user in w.st.requests {
        TwoEvents(w.st.log, Some(job.user), paid, RentalRequestCancelled(w.st.requests[job.user]), w.now);
      }
      EndLogs(
        w, Cancelled(w, id), id, Some(job.user),
        if job.user in w.st.requests then [paid, RentalRequestCancelled(w.st.requests[job.user])] else [paid]);
    }
  }

  /** A top-up that ends logs what it bought, with the whole days paid for and the new deadline, or its failure. */
  lemma TopUpLogs(w: World, id: nat)
    requires Solid(w) && id in w.tasks && w.tasks[id].job.TopUpJob?
    ensures var Task(TopUpJob(s, a, balance), call, reply) := w.tasks[id];
            var w' := ApplyResume(w, id);
            if id in w'.tasks || reply.CallFailed? then LogsNothing(w, w')
            else if call.NotifyCall? && reply.Minted? then
              && s in w'.st.agreements
              && exists days: nat ::
                   && Logs(w, w', Some(s),
                           [TransferSuccess(SatSub(balance, DEFAULT_FEE), call.block),
                            SubnetTopUp(a.user, balance, reply.cycles, days, w'.st.agreements[s].paidUntilNanos)])
                   && a.rentalConditionId in INITIAL_CONDITIONS
                   && WholeDays(days, reply.cycles, CostPerSecond(INITIAL_CONDITIONS[a.rentalConditionId].dailyCostCycles))
            else Logs(w, w', Some(s), [SubnetTopUpFailed(a.user)])
  {
    hide Solid, ResumeTopUp, End, EventsOf, Append, Logs, WholeDays;
    var Task(job, call, reply) := w.tasks[id];
    if reply.CallFailed? {
      EndsSilently(w, id);
    } else if call.NotifyCall? && reply.Minted? {
      TopUpStages(w, id);
      PaidLogs(w, id);
    } else {
      EarlyTopUpLogs(w, id);
    }
  }

  /** `days` whole days at the price per second, if that many fit a u64. */
  predicate WholeDays(days: nat, cycles: nat, cost: nat) {
    cost > 0 && cycles < cost * SECONDS_PER_DAY * (U64_MAX + 1) ==>
      cost * SECONDS_PER_DAY * days <= cycles < cost * SECONDS_PER_DAY * days + cost * SECONDS_PER_DAY
  }

  lemma EarlyTopUpLogs(w: World, id: nat)
    requires id in w.tasks && w.tasks[id].job.TopUpJob?
    requires !(w.tasks[id].call.NotifyCall? && w.tasks[id].reply.Minted?)
    ensures var w' := ResumeTopUp(w, id);
            var job := w.tasks[id].job;
            if id in w'.tasks then LogsNothing(w, w') else Logs(w, w', Some(job.subnet), [SubnetTopUpFailed(job.agreement.user)])
  {
    hide End, EventsOf, Append, Logs;
    var job := w.tasks[id].job;
    NoteLogs(w, id, Some(job.subnet), SubnetTopUpFailed(job.agreement.user));
    EndLeaves(w, Note(w, Some(job.subnet), SubnetTopUpFailed(job.agreement.user)), id);
  }

  lemma PaidLogs(w: World, id: nat)
    requires Solid(w) && CanTopUp(w, id)
    ensures var Task(TopUpJob(s, a, balance), call, reply) := w.tasks[id];
            var w' := ResumeTopUp(w, id);
            && s in w'.st.agreements
            && exists days: nat ::
                 && Logs(w, w', Some(s),
                         [TransferSuccess(SatSub(balance, DEFAULT_FEE), call.block),
                          SubnetTopUp(a.user, balance, reply.cycles, days, w'.st.agreements[s].paidUntilNanos)])
                 && a.rentalConditionId in INITIAL_CONDITIONS
                 && WholeDays(days, reply.cycles, CostPerSecond(INITIAL_CONDITIONS[a.rentalConditionId].dailyCostCycles))
  {
    hide Solid, End, EventsOf, Append, Logs, TopUpWrite, DaysAdded, WholeDays, Paid, Paying, ResumeTopUp;
    var Task(TopUpJob(s, a, balance), call, reply) := w.tasks[id];
    CanPay(w, id);
    PartsOf(w);
    PaidAppends(w, id);
    var days := DaysAdded(reply.cycles, DailyCost(w, id));
    DaysAreWhole(reply.cycles, DailyCost(w, id));
    var paid := TransferSuccess(SatSub(balance, DEFAULT_FEE), call.block);
    var event := SubnetTopUp(a.user, balance, reply.cycles, days, Paid(w, id).st.agreements[s].paidUntilNanos);
    PaidIsLogged(w, id, paid, event);
    EndLogs(w, Paid(w, id), id, Some(s), [paid, event]);
    EndLeaves(Paid(w, id), Paid(w, id), id);
  }

  lemma PaidAppends(w: World, id: nat)
    requires Paying(w, id)
    ensures id in Paid(w, id).tasks && ResumeTopUp(w, id) == End(Paid(w, id), id)
    ensures var Task(TopUpJob(s, a, balance), call, reply) := w.tasks[id];
            && s in Paid(w, id).st.agreements
            && Paid(w, id).st.log
               == Append(
                    Append(w.st.log, Some(s), TransferSuccess(SatSub(balance, DEFAULT_FEE), call.block), w.now), Some(s),
                    SubnetTopUp(a.user, balance, reply.cycles, DaysAdded(reply.cycles, DailyCost(w, id)),
                                Paid(w, id).st.agreements[s].paidUntilNanos), w.now)
  {
    hide Append, End, TopUpWrite, DaysAdded, Guards;
  }

  lemma PaidIsLogged(w: World, id: nat, paid: EventType, event: EventType)
    requires Paying(w, id) && Paid(w, id).st.log == Append(Append(w.st.log, Some(w.tasks[id].job.subnet), paid, w.now), Some(w.tasks[id].job.subnet), event, w.now)
    ensures Logs(w, Paid(w, id), Some(w.tasks[id].job.subnet), [paid, event])
  {
    hide Paid, Append, EventsOf;
    TwoEvents(w.st.log, Some(w.tasks[id].job.subnet), paid, event, w.now);
  }

  lemma DaysAreWhole(cycles: nat, daily: nat)
    requires CostPerSecond(daily) > 0
    ensures WholeDays(DaysAdded(cycles, daily), cycles, CostPerSecond(daily))
  {
    hide DaysAdded, CostPerSecond;
    if cycles < CostPerSecond(daily) * SECONDS_PER_DAY * (U64_MAX + 1) {
      DaysAddedAreWhole(cycles, daily, CostPerSecond(daily));
    }
  }

  // ---------------------------------------------------------------- locking

  /** An iteration logs the tenth it locked, or its failure; one that traps logs nothing. */
  lemma LockingLogs(w: World, id: nat)
    requires id in w.tasks && w.tasks[id].job.LockJob?
    ensures var Task(LockJob(copy, _, _), call, reply) := w.tasks[id];
            var tenth := copy.initialCostIcp / 10;
            var w' := ApplyResume(w, id);
            if reply.CallFailed? || (call.CmcTransfer? && reply.Block?) then LogsNothing(w, w')
            else if call.NotifyCall? && reply.Minted? then
              if copy.user in w.st.requests then
                Logs(w, w', Some(copy.user), [TransferSuccess(tenth, call.block), LockingSuccess(copy.user, tenth, reply.cycles)])
              else LogsNothing(w, w')
            else Logs(w, w', Some(copy.user), [LockingFailure(copy.user)])
  {
    hide EndLocking, ContinueSweep, End, EventsOf, Append;
    var Task(LockJob(copy, sweepNow, rest), call, reply) := w.tasks[id];
    EndKeepsLog(w, id);
    if SweepGoesOn(w, id) {
      EndLockingLogs(w, id);
      ContinueSweepLogs(EndLocking(w, id), id, sweepNow, rest);
    }
  }

  lemma ContinueSweepLogs(w: World, id: nat, sweepNow: nat, rest: seq<RentalRequest>)
    ensures ContinueSweep(w, id, sweepNow, rest).st.log == w.st.log
  {
    hide NextToLock, Guards;
  }

  lemma EndLockingLogs(w: World, id: nat)
    requires id in w.tasks && SweepGoesOn(w, id)
    ensures var Task(LockJob(copy, _, _), call, reply) := w.tasks[id];
            var tenth := copy.initialCostIcp / 10;
            Logs(w, EndLocking(w, id), Some(copy.user),
                 if call.NotifyCall? && reply.Minted?
                 then [TransferSuccess(tenth, call.block), LockingSuccess(copy.user, tenth, reply.cycles)]
                 else [LockingFailure(copy.user)])
  {
    hide End, EventsOf, Append, LockedOnce;
    var Task(LockJob(copy, sweepNow, _), call, reply) := w.tasks[id];
    var tenth := copy.initialCostIcp / 10;
    NoteLogs(w, id, Some(copy.user), LockingFailure(copy.user));
    if CanLock(w, id) {
      var paid, locked := TransferSuccess(tenth, call.block), LockingSuccess(copy.user, tenth, reply.cycles);
      TwoEvents(w.st.log, Some(copy.user), paid, locked, w.now);
      EndLogs(w, Relocked(w, id), id, Some(copy.user), [paid, locked]);
    }
  }

  // ---------------------------------------------------------------- refusals

  /** In every run: a proposal is refused at once, with that one event and no other effect, exactly if the log shows
      its user as a customer or a live request is for its condition. */
  lemma ProposalIsRefusedExactlyIf(worlds: seq<World>, steps: seq<Step>, n: nat)
    requires Run(worlds, steps) && n < |steps| && steps[n].StartRental?
    ensures var StartRental(id, user, condition, proposal, time) := steps[n];
            var w, w' := worlds[n], worlds[n + 1];
            if RequestTrail(EventsOf(w.st.log, Some(user))).LockedUp?
               || exists u :: u in w.st.requests && w.st.requests[u].rentalConditionId == condition
            then w'.tasks == w.tasks && Logs(w, w', Some(user), [RentalRequestFailed(user, proposal)])
            else if time !in w.st.rates then id in w'.tasks && LogsNothing(w, w')
            else if id in w'.tasks then LogsNothing(w, w')
            else Logs(w, w', Some(user), [RentalRequestFailed(user, proposal)])
  {
    hide Init, Apply, Solid, RequestAllowed, RequestTrail, EventsOf, Logs, LogsNothing, HasAgreement;
    var w, s := worlds[n], steps[n];
    assert Enabled(w, s) && worlds[n + 1] == Apply(w, s);
    SolidRun(worlds, steps, n);
    AllowedExactlyIf(w, s.user, s.condition);
    StartLogs(w, s);
  }

  lemma AllowedExactlyIf(w: World, user: Principal, condition: ConditionId)
    requires Solid(w)
    ensures condition in w.st.conditions
    ensures RequestAllowed(w.st, user, condition)
       <==> !RequestTrail(EventsOf(w.st.log, Some(user))).LockedUp?
            && forall u | u in w.st.requests :: w.st.requests[u].rentalConditionId != condition
  {
    hide LocksAreHeld, Checked, AllCarry, Lifecycle, AllInTenths, AgreementsKept, RequestTrail, EventsOf, HasAgreement;
    ConditionIsInitial(condition);
    match condition
    case App13CH =>
    case App7CH =>
  }

  lemma StartLogs(w: World, s: Step)
    requires Enabled(w, s) && s.StartRental?
    ensures var w' := Apply(w, s);
            if !RequestAllowed(w.st, s.user, s.condition)
            then w'.tasks == w.tasks && Logs(w, w', Some(s.user), [RentalRequestFailed(s.user, s.proposal)])
            else if s.rateTime !in w.st.rates then s.id in w'.tasks && LogsNothing(w, w')
            else if s.id in w'.tasks then LogsNothing(w, w')
            else Logs(w, w', Some(s.user), [RentalRequestFailed(s.user, s.proposal)])
  {
    hide RequestAllowed, PriceRental, Guards, EventsOf, Append;
    OneEvent(w.st.log, Some(s.user), RentalRequestFailed(s.user, s.proposal), w.now);
    if RequestAllowed(w.st, s.user, s.condition) && s.rateTime in w.st.rates {
      var started := Start(w, s.id, RentalJob(s.user, s.condition, s.proposal, 0), XrcCall(s.rateTime));
      PriceRentalLogs(started, s.id, w.st.rates[s.rateTime].0, w.st.rates[s.rateTime].1);
    }
  }

  // ---------------------------------------------------------------- upgrades

  /** An upgrade logs the two sets of conditions, and the switch with the cycles and deadlines it was made from. The new
      deadline is now plus the whole seconds that the cycles pay for at App7CH's price, as far as a u64 goes. */
  lemma UpgradeIsExact(w: World, target: Principal)
    ensures var w' := w.(st := Upgrade(w.st, target, w.now));
            && EventsOf(w'.st.log, None)
               == EventsOf(w.st.log, None)
                  + Stamped([RentalConditionsChanged(App13CH, Some(RentalConditions(None, 820_000_000_000_000, 180))),
                             RentalConditionsChanged(App7CH, Some(RentalConditions(None, 440_000_000_000_000, 180)))], w.now)
            && if target in w.st.agreements && w.st.agreements[target].rentalConditionId == App13CH then
                 var a := w.st.agreements[target];
                 var left := SatSub(a.totalCyclesCreated, a.totalCyclesBurned);
                 var deadline := Min(U64_MAX, w.now + 1_000_000_000 * (left / (440_000_000_000_000 / 86_400)));
                 && w'.st.agreements == w.st.agreements[target := a.(rentalConditionId := App7CH, paidUntilNanos := deadline)]
                 && EventsOf(w'.st.log, Some(target))
                    == EventsOf(w.st.log, Some(target))
                       + Stamped([RentalConditionSwitched(a.user, App13CH, App7CH, left, a.paidUntilNanos, deadline)], w.now)
               else w'.st.agreements == w.st.agreements
  {
    hide Append, EventsOf, Reprice;
    var st0 := w.st.(locks := {});
    var st1 := SetInitialConditions(st0, w.now);
    var e, f := RentalConditionsChanged(App13CH, Some(INITIAL_CONDITIONS[App13CH])), RentalConditionsChanged(App7CH, Some(INITIAL_CONDITIONS[App7CH]));
    TwoEvents(w.st.log, None, e, f, w.now);
    if target in w.st.agreements && w.st.agreements[target].rentalConditionId == App13CH {
      var a := w.st.agreements[target];
      DeadlinesAreExact(w.now, a.Remaining(), INITIAL_CONDITIONS[App7CH].dailyCostCycles);
      OneEvent(
        st1.log, Some(target),
        RentalConditionSwitched(
          a.user, App13CH, App7CH, a.Remaining(), a.paidUntilNanos,
          Reprice(a.Remaining(), INITIAL_CONDITIONS[App7CH].dailyCostCycles, w.now)), w.now);
    }
  }

  // ---------------------------------------------------------------- fees

  /** A fee is paid exactly when a task starts that has to ask for a rate. */
  lemma FeesArePaidForFetches(w: World, s: Step)
    requires Enabled(w, s)
    ensures var w' := Apply(w, s);
            var asks := (s.StartRental? || s.StartPrice? || s.StartEstimate?)
                        && s.id in w'.tasks && w'.tasks[s.id].call.XrcCall?;
            && w'.book.xrcPaid == w.book.xrcPaid + (if asks then 1_000_000_000 else 0)
            && (asks ==> w'.cycles == w.cycles - 1_000_000_000 && w'.tasks[s.id].call.time !in w.st.rates)
  {
    hide ApplyResume, ApplyServe, BurnSweep, Upgrade, CalculateSubnetPrice, Append, NextToLock, RequestAllowed, Guards, IcpInFlight, CyclesInFlight;
    match s
    case Resume(id) => ResumePaysNothing(w, id);
    case Serve(id, reply) => ServePaysNothing(w, id, reply);
    case _ =>
  }

  lemma ResumePaysNothing(w: World, id: nat)
    requires id in w.tasks
    ensures ApplyResume(w, id).book.xrcPaid == w.book.xrcPaid
  {
    hide ApplyResume, SameRecords, Effect, LockingDue;
    ResumeEffect(w, id);
  }

  lemma ServePaysNothing(w: World, id: nat, reply: Reply)
    requires Enabled(w, Serve(id, reply))
    ensures ApplyServe(w, id, reply).book.xrcPaid == w.book.xrcPaid
  {
  }
}
