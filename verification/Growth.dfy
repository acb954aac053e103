/** The event log is append-only in every run, so that a reader may page through it while it grows. */
module Growth {
  import opened Types
  import opened History
  import opened State
  import opened World
  import opened Effects
  import opened Runs

  /** Each key's events stay as they are; new ones come after them and bear the time `now`. */
  ghost predicate Extends(log: Log, log': Log, now: nat) {
    forall k ::
      && EventsOf(log, k) <= EventsOf(log', k)
      && forall i | |EventsOf(log, k)| <= i < |EventsOf(log', k)| :: EventsOf(log', k)[i].timeNanos == now
  }

  lemma ExtendsOnwards(a: Log, b: Log, c: Log, now: nat)
    requires Extends(a, b, now) && Extends(b, c, now)
    ensures Extends(a, c, now)
  {
    hide EventsOf;
    forall k
      ensures EventsOf(a, k) <= EventsOf(c, k)
      ensures forall i | |EventsOf(a, k)| <= i < |EventsOf(c, k)| :: EventsOf(c, k)[i].timeNanos == now
    {
      assert EventsOf(a, k) <= EventsOf(b, k) <= EventsOf(c, k);
      forall i | |EventsOf(a, k)| <= i < |EventsOf(c, k)| ensures EventsOf(c, k)[i].timeNanos == now {
        if i < |EventsOf(b, k)| { assert EventsOf(c, k)[i] == EventsOf(b, k)[i]; }
      }
    }
  }

  /** Recording an event extends whatever log the state before extended. */
  lemma PersistExtends(log: Log, st: State, key: Option<Principal>, event: EventType, now: nat)
    requires Extends(log, st.log, now)
    ensures Extends(log, Persist(st, key, event, now).log, now)
  {
    AppendExtends(st.log, key, event, now);
    hide Extends, Append;
    ExtendsOnwards(log, st.log, Append(st.log, key, event, now), now);
  }

  lemma AppendExtends(log: Log, key: Option<Principal>, event: EventType, now: nat)
    ensures Extends(log, Append(log, key, event, now), now)
  {
  }

  // ---------------------------------------------------------------- segments

  lemma FinishRequestExtends(st: State, r: RentalRequest, block: nat, now: nat)
    ensures FinishRequest(st, r, block, now).Some? ==> Extends(st.log, FinishRequest(st, r, block, now).value.log, now)
  {
    hide Append, Extends;
    assert Extends(st.log, st.log, now) by { Itself(st.log, now); }
    PersistExtends(st.log, st, Some(r.user), TransferSuccess(r.lockedAmountIcp, block), now);
    var paid := Persist(st, Some(r.user), TransferSuccess(r.lockedAmountIcp, block), now);
    PersistExtends(
      st.log, paid.(requests := paid.requests[r.user := r]), Some(r.user), RentalRequestCreated(r), now);
  }

  lemma Itself(log: Log, now: nat)
    ensures Extends(log, log, now)
  {
  }

  lemma FinishCreateExtends(st: State, a: RentalAgreement, now: nat)
    ensures FinishCreate(st, a, now).Some? ==> Extends(st.log, FinishCreate(st, a, now).value.log, now)
  {
    hide Append, Extends;
    Itself(st.log, now);
    PersistExtends(
      st.log, st.(requests := st.requests - {a.user}, agreements := st.agreements[a.subnetId := a]), Some(a.subnetId),
      RentalAgreementCreated(a.user, a.rentalRequestProposalId, a.subnetCreationProposalId, a.rentalConditionId), now);
  }

  lemma FinishRefundExtends(st: State, user: Principal, amount: nat, block: nat, now: nat)
    ensures Extends(st.log, FinishRefund(st, user, amount, block, now).log, now)
  {
    hide Append, Extends;
    Itself(st.log, now);
    var paid := Persist(st, Some(user), TransferSuccess(amount, block), now);
    PersistExtends(st.log, st, Some(user), TransferSuccess(amount, block), now);
    if user in st.requests {
      PersistExtends(
        st.log, paid.(requests := paid.requests - {user}), Some(user), RentalRequestCancelled(st.requests[user]), now);
    }
  }

  lemma FinishTopUpExtends(
      st: State, subnet: Principal, read: RentalAgreement, icp: nat, block: nat, cycles: nat, now: nat)
    ensures var st' := FinishTopUp(st, subnet, read, icp, block, cycles, now);
            st'.Some? ==> Extends(st.log, st'.value.log, now)
  {
    hide Append, Extends, TopUpWrite;
    Itself(st.log, now);
    var st' := FinishTopUp(st, subnet, read, icp, block, cycles, now);
    if st'.Some? {
      var transfer := TransferSuccess(SatSub(icp, DEFAULT_FEE), block);
      PersistExtends(st.log, st, Some(subnet), transfer, now);
      var daily := st.conditions[read.rentalConditionId].dailyCostCycles;
      var written := TopUpWrite(st.agreements[subnet], read, icp, cycles, daily);
      var paid := Persist(st, Some(subnet), transfer, now);
      PersistExtends(
        st.log, paid.(agreements := paid.agreements[subnet := written]), Some(subnet),
        SubnetTopUp(read.user, icp, cycles, Deadlines.DaysAdded(cycles, daily), written.paidUntilNanos), now);
    }
  }

  lemma FinishLockingExtends(st: State, copy: RentalRequest, sweepNow: nat, block: nat, cycles: nat, now: nat)
    ensures var st' := FinishLocking(st, copy, sweepNow, block, cycles, now);
            st'.Some? ==> Extends(st.log, st'.value.log, now)
  {
    hide Append, Extends, LockedOnce;
    Itself(st.log, now);
    var tenth := copy.initialCostIcp / 10;
    var paid := Persist(st, Some(copy.user), TransferSuccess(tenth, block), now);
    PersistExtends(st.log, st, Some(copy.user), TransferSuccess(tenth, block), now);
    PersistExtends(st.log, paid, Some(copy.user), LockingSuccess(copy.user, tenth, cycles), now);
  }

  lemma UpgradeExtends(st: State, target: Principal, now: nat)
    ensures Extends(st.log, Upgrade(st, target, now).log, now)
  {
    hide Append, Extends, Deadlines.Reprice;
    Itself(st.log, now);
    var st0 := st.(locks := {});
    var st1 := WithCondition(st0, App13CH, now);
    var st2 := WithCondition(st1, App7CH, now);
    PersistExtends(
      st.log, st0.(conditions := st0.conditions[App13CH := INITIAL_CONDITIONS[App13CH]]), None,
      RentalConditionsChanged(App13CH, Some(INITIAL_CONDITIONS[App13CH])), now);
    PersistExtends(
      st.log, st1.(conditions := st1.conditions[App7CH := INITIAL_CONDITIONS[App7CH]]), None,
      RentalConditionsChanged(App7CH, Some(INITIAL_CONDITIONS[App7CH])), now);
    if Migrate(st2, target, now) != st2 {
      var a := st2.agreements[target];
      var a' := Switched(a, st2.conditions[App7CH].dailyCostCycles, now);
      PersistExtends(
        st.log, st2.(agreements := st2.agreements[target := a']), Some(target),
        RentalConditionSwitched(a.user, App13CH, App7CH, a.Remaining(), a.paidUntilNanos, a'.paidUntilNanos), now);
    }
  }

  // ---------------------------------------------------------------- steps

  lemma EndKeepsLog(w: World, id: nat)
    requires id in w.tasks
    ensures End(w, id).st.log == w.st.log
  {
    hide Guards, IcpInFlight, CyclesInFlight;
  }

  lemma NoteExtends(w: World, key: Option<Principal>, event: EventType)
    ensures Extends(w.st.log, Note(w, key, event).st.log, w.now)
  {
    hide Append, Extends;
    Itself(w.st.log, w.now);
    PersistExtends(w.st.log, w.st, key, event, w.now);
  }

  lemma FailRentalExtends(w: World, id: nat)
    requires id in w.tasks && w.tasks[id].job.RentalJob?
    ensures Extends(w.st.log, FailRental(w, id).st.log, w.now)
  {
    hide Append, Extends, End;
    var job := w.tasks[id].job;
    var noted := Note(w, Some(job.user), RentalRequestFailed(job.user, job.proposal));
    NoteExtends(w, Some(job.user), RentalRequestFailed(job.user, job.proposal));
    EndKeepsLog(noted, id);
  }

  lemma PriceRentalExtends(w: World, id: nat, rate: nat, decimals: nat)
    requires id in w.tasks && w.tasks[id].job.RentalJob? && w.tasks[id].job.condition in w.st.conditions
    ensures Extends(w.st.log, PriceRental(w, id, rate, decimals).st.log, w.now)
  {
    hide Extends, FailRental, Pricing.CalculateSubnetPrice;
    Itself(w.st.log, w.now);
    FailRentalExtends(w, id);
  }

  lemma ResumeRentalExtends(w: World, id: nat)
    requires id in w.tasks && w.tasks[id].job.RentalJob? && w.tasks[id].job.condition in w.st.conditions
    ensures Extends(w.st.log, ResumeRental(w, id).st.log, w.now)
  {
    hide Extends, FailRental, PriceRental, FinishRequest, End;
    var Task(job, call, reply) := w.tasks[id];
    Itself(w.st.log, w.now);
    FailRentalExtends(w, id);
    EndKeepsLog(w, id);
    if call.XrcCall? && reply.Rate? {
      PriceRentalExtends(
        w.(st := w.st.(rates := w.st.rates[call.time := (reply.rate, reply.decimals)])), id, reply.rate, reply.decimals);
    } else if call.NotifyCall? && reply.Minted? {
      var r := NewRequest(job.user, job.condition, job.proposal, job.needed, reply.cycles, w.now);
      FinishRequestExtends(w.st, r, call.block, w.now);
      var st := FinishRequest(w.st, r, call.block, w.now);
      if st.Some? { EndKeepsLog(OpenRequest(w, id, st.value), id); }
    }
  }

  lemma ResumeCreateExtends(w: World, id: nat)
    requires id in w.tasks && w.tasks[id].job.CreateJob? && w.tasks[id].job.request.rentalConditionId in w.st.conditions
    ensures Extends(w.st.log, ResumeCreate(w, id).st.log, w.now)
  {
    hide Extends, FinishCreate, End, Append, NewAgreement;
    var Task(job, call, reply) := w.tasks[id];
    Itself(w.st.log, w.now);
    EndKeepsLog(w, id);
    if call.NotifyCall? && reply.Minted? {
      NoteExtends(w, Some(job.user), TransferSuccess(call.amount, call.block));
    } else if call.AuthorizeCall? && reply.Done? && job.draft.Some? {
      FinishCreateExtends(w.st, job.draft.value, w.now);
      var st := FinishCreate(w.st, job.draft.value, w.now);
      if st.Some? { EndKeepsLog(OpenAgreement(w, id, st.value, job.draft.value), id); }
    }
  }

  lemma ResumeRefundExtends(w: World, id: nat)
    requires id in w.tasks && w.tasks[id].job.RefundJob?
    ensures Extends(w.st.log, ResumeRefund(w, id).st.log, w.now)
  {
    hide Extends, FinishRefund, End;
    var Task(job, call, reply) := w.tasks[id];
    Itself(w.st.log, w.now);
    EndKeepsLog(w, id);
    if call.RefundTransfer? && reply.Block? {
      FinishRefundExtends(w.st, job.user, call.amount, reply.index, w.now);
      EndKeepsLog(CancelRequest(w, id, call.amount, reply.index), id);
    }
  }

  lemma ResumeTopUpExtends(w: World, id: nat)
    requires id in w.tasks && w.tasks[id].job.TopUpJob?
    ensures Extends(w.st.log, ResumeTopUp(w, id).st.log, w.now)
  {
    hide Extends, FinishTopUp, End, Append;
    var Task(job, call, reply) := w.tasks[id];
    Itself(w.st.log, w.now);
    EndKeepsLog(w, id);
    var failed := SubnetTopUpFailed(job.agreement.user);
    NoteExtends(w, Some(job.subnet), failed);
    EndKeepsLog(Note(w, Some(job.subnet), failed), id);
    if call.NotifyCall? && reply.Minted? {
      FinishTopUpExtends(w.st, job.subnet, job.agreement, job.balance, call.block, reply.cycles, w.now);
      var st := FinishTopUp(w.st, job.subnet, job.agreement, job.balance, call.block, reply.cycles, w.now);
      if st.Some? { EndKeepsLog(BookTopUp(w, id, st.value), id); }
    }
  }

  lemma EndLockingExtends(w: World, id: nat)
    requires id in w.tasks && w.tasks[id].job.LockJob?
    ensures Extends(w.st.log, EndLocking(w, id).st.log, w.now)
  {
    hide Extends, FinishLocking, End, Append;
    var Task(job, call, reply) := w.tasks[id];
    var failed := LockingFailure(job.request.user);
    Itself(w.st.log, w.now);
    NoteExtends(w, Some(job.request.user), failed);
    EndKeepsLog(w, id);
    EndKeepsLog(Note(w, Some(job.request.user), failed), id);
    if call.NotifyCall? && reply.Minted? {
      FinishLockingExtends(w.st, job.request, job.sweepNow, call.block, reply.cycles, w.now);
      var st := FinishLocking(w.st, job.request, job.sweepNow, call.block, reply.cycles, w.now);
      if st.Some? { EndKeepsLog(BookLocking(w, id, st.value), id); }
    }
  }

  lemma ResumeExtends(w: World, id: nat)
    requires id in w.tasks
    ensures Extends(w.st.log, ApplyResume(w, id).st.log, w.now)
  {
    hide Extends, End, ResumeRental, ResumeCreate, ResumeRefund, ResumeTopUp, EndLocking, NextToLock, Guards;
    var Task(job, call, reply) := w.tasks[id];
    Itself(w.st.log, w.now);
    EndKeepsLog(w, id);
    if call.XrcCall? && reply.Rate? {
      EndKeepsLog(w.(st := w.st.(rates := w.st.rates[call.time := (reply.rate, reply.decimals)])), id);
    }
    match job
    case RentalJob(_, condition, _, _) => if condition in w.st.conditions { ResumeRentalExtends(w, id); }
    case CreateJob(_, _, _, r, _) => if r.rentalConditionId in w.st.conditions { ResumeCreateExtends(w, id); }
    case RefundJob(_) => ResumeRefundExtends(w, id);
    case TopUpJob(_, _, _) => ResumeTopUpExtends(w, id);
    case LockJob(_, _, _) => EndLockingExtends(w, id);
    case _ =>
  }

  lemma StartRentalExtends(w: World, s: Step)
    requires Enabled(w, s) && s.StartRental?
    ensures Extends(w.st.log, Apply(w, s).st.log, w.now)
  {
    hide Extends, Append, RequestAllowed, PriceRental, Guards;
    Itself(w.st.log, w.now);
    NoteExtends(w, Some(s.user), RentalRequestFailed(s.user, s.proposal));
    if RequestAllowed(w.st, s.user, s.condition) && s.rateTime in w.st.rates {
      var started := Start(w, s.id, RentalJob(s.user, s.condition, s.proposal, 0), XrcCall(s.rateTime));
      PriceRentalExtends(started, s.id, w.st.rates[s.rateTime].0, w.st.rates[s.rateTime].1);
    }
  }

  /** No step removes, changes or reorders an event. */
  lemma StepExtends(w: World, s: Step)
    requires Enabled(w, s)
    ensures Extends(w.st.log, Apply(w, s).st.log, w.now)
  {
    hide Extends, ApplyResume, ApplyRental, BurnSweep, Upgrade, NextToLock, RequestAllowed, Guards;
    Itself(w.st.log, w.now);
    match s
    case Resume(id) => ResumeExtends(w, id);
    case StartRental(_, _, _, _, _) => StartRentalExtends(w, s);
    case DoUpgrade(target) => UpgradeExtends(w.st, target, w.now);
    case _ =>
  }

  /** In every run, with or without F, G and traps, each key's events only grow at the end. */
  lemma {:induction false} LogIsAppendOnly(worlds: seq<World>, steps: seq<Step>, i: nat, j: nat, key: Option<Principal>)
    requires Run(worlds, steps) && i <= j <= |steps|
    ensures EventsOf(worlds[i].st.log, key) <= EventsOf(worlds[j].st.log, key)
    decreases j
  {
    hide Init, Enabled, Apply, EventsOf;
    if i < j {
      LogIsAppendOnly(worlds, steps, i, j - 1, key);
      StepExtends(worlds[j - 1], steps[j - 1]);
      assert worlds[j] == Apply(worlds[j - 1], steps[j - 1]);
    }
  }

  /** In every run each key's events are in the order of their times, none later than now. */
  lemma {:induction false} EventsAreInOrder(worlds: seq<World>, steps: seq<Step>, n: nat, key: Option<Principal>)
    requires Run(worlds, steps) && n <= |steps|
    ensures var events := EventsOf(worlds[n].st.log, key);
            && (forall i | 0 <= i < |events| :: events[i].timeNanos <= worlds[n].now)
            && (forall i, j | 0 <= i < j < |events| :: events[i].timeNanos <= events[j].timeNanos)
  {
    hide Init, Enabled, Apply, EventsOf;
    if n == 0 {
      FirstEvents(worlds[0], key) by { assert Init(worlds[0]); }
    } else {
      var w, s := worlds[n - 1], steps[n - 1];
      EventsAreInOrder(worlds, steps, n - 1, key);
      StepExtends(w, s);
      TimeDoesNotGoBack(w, s);
      assert worlds[n] == Apply(w, s);
      var before, after := EventsOf(w.st.log, key), EventsOf(worlds[n].st.log, key);
      assert forall i | 0 <= i < |before| :: after[i] == before[i];
    }
  }

  lemma FirstEvents(w: World, key: Option<Principal>)
    requires Init(w)
    ensures forall i | 0 <= i < |EventsOf(w.st.log, key)| :: EventsOf(w.st.log, key)[i].timeNanos == w.now
  {
  }

  lemma TimeDoesNotGoBack(w: World, s: Step)
    requires Enabled(w, s)
    ensures w.now <= Apply(w, s).now
  {
    hide Apply, Enabled, ApplyResume, SameRecords, Effect, BurnSweep, Upgrade, LockingDue;
    StepEffect(w, s);
    if s.Resume? { ResumeEffect(w, s.id); }
  }

  /** A reader whose i-th call finds the times(i)-th world of a run gets, by following continuations, exactly the
      key's events of its first call. */
  lemma WalkInEveryRun(
      worlds: seq<World>, steps: seq<Step>, times: nat -> nat, key: Option<Principal>, pageSize: nat)
    requires Run(worlds, steps) && pageSize >= 1
    requires forall i: nat :: times(i) <= |steps|
    requires forall i: nat, j: nat | i <= j :: times(i) <= times(j)
    ensures var view := (i: nat) => EventsOf(worlds[Min(times(i), |steps|)].st.log, key);
            var (page, continuation) := Page(view(0), None, pageSize);
            Walk(view, 1, continuation, pageSize) + page == EventsOf(worlds[times(0)].st.log, key)
  {
    hide Init, Enabled, Apply;
    var view := (i: nat) => EventsOf(worlds[Min(times(i), |steps|)].st.log, key);
    forall i: nat, j: nat | i <= j ensures view(i) <= view(j) {
      LogIsAppendOnly(worlds, steps, times(i), times(j), key);
    }
    HistoryWalkIsComplete(view, pageSize);
  }
}
