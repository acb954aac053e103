/** Every step keeps the invariant, and with it every run. */
module Steps {
  import opened Types
  import opened History
  import opened Pricing
  import opened Burning
  import opened State
  import opened World
  import opened Invariant
  import opened Blocks
  import opened Writes
  import opened AgreementWrites

  // ---------------------------------------------------------------- small steps

  lemma RatesKeep(w: World, rates: map<nat, (nat, nat)>)
    requires Inv(w)
    ensures Inv(w.(st := w.st.(rates := rates)))
  {
    hide Base, Lifecycle, ChecksHold, CyclesConserved, Backing, Spending, Audit, Clocks;
  }

  lemma PayXrcKeeps(w: World)
    requires Inv(w) && w.cycles >= XRC_FEE
    ensures Inv(PayXrc(w))
  {
    hide Base, Lifecycle, ChecksHold, Backing, Spending, Audit, Clocks;
    hide FlyingCycles, LockedCycles, CreatedCycles, UnburnedCycles, Sound;
    assert Spending(w.st.requests, w.st.agreements, w.st.log, PayXrc(w).book, w.tasks) by {
      SpendingOfSameBooks(w.st.requests, w.st.agreements, w.st.log, w.book, PayXrc(w).book, w.tasks);
    }
  }

  lemma SpendingOfSameBooks(
      requests: map<Principal, RentalRequest>, agreements: map<Principal, RentalAgreement>,
      log: Log, book: Book, book': Book, tasks: map<nat, Task>)
    requires Spending(requests, agreements, log, book, tasks)
    requires book'.spent == book.spent && book'.lost == book.lost && book'.births == book.births
    ensures Spending(requests, agreements, log, book', tasks)
  {
    hide Astray, At, PaymentTrail, EventsOf;
    forall i | i in tasks ensures RentalSpending(tasks[i], book', tasks) {
      assert RentalSpending(tasks[i], book, tasks);
    }
  }

  lemma DepositCyclesKeeps(w: World, amount: nat)
    requires Inv(w)
    ensures Inv(Apply(w, DepositCycles(amount)))
  {
    hide Base, Lifecycle, ChecksHold, Backing, Spending, Audit, Clocks;
    hide FlyingCycles, LockedCycles, CreatedCycles, UnburnedCycles, Sound;
    SpendingOfSameBooks(
      w.st.requests, w.st.agreements, w.st.log, w.book, w.book.(reserve := w.book.reserve + amount), w.tasks);
  }

  lemma DepositKeeps(w: World, account: Principal, amount: nat)
    requires Inv(w)
    ensures Inv(Apply(w, Deposit(account, amount)))
  {
    hide Base, Lifecycle, ChecksHold, CyclesConserved, Spending, Audit, Clocks, RefundPaid, Astray;
    var icp' := Plus(w.icp, account, amount);
    forall i | i in w.tasks ensures RentalFunded(w.tasks[i], icp') {
      assert RentalFunded(w.tasks[i], w.icp);
    }
    BackingKept(w.st.requests, w.icp, icp', w.book.lost, w.book.lost, w.tasks, w.tasks) by {
      AgreementsAreBorn(w);
    }
  }

  lemma TickKeeps(w: World, nanos: nat)
    requires Inv(w) && w.now + nanos <= U64_MAX
    ensures Inv(w.(now := w.now + nanos))
  {
    hide Base, Lifecycle, ChecksHold, CyclesConserved, Backing, Spending, RequestTrail, PaymentTrail, EventsOf;
    hide AgreementAudited;
    forall u | u in w.st.requests ensures RequestAudited(w.st.requests[u], w.st.log, w.now + nanos) {
      assert RequestAudited(w.st.requests[u], w.st.log, w.now);
    }
  }

  lemma ServeKeeps(w: World, id: nat, reply: Reply)
    requires Inv(w) && Enabled(w, Serve(id, reply))
    ensures Inv(ApplyServe(w, id, reply))
  {
    hide Inv;
    if !reply.Block? {
      ServeOtherKeeps(w, id, reply);
    } else if w.tasks[id].call.CmcTransfer? {
      ServeTransferKeeps(w, id, reply);
    } else {
      ServeRefundKeeps(w, id, reply);
    }
  }

  // ---------------------------------------------------------------- rental request

  lemma PointOf(w: World, id: nat)
    requires Inv(w) && id in w.tasks
    ensures AtProgramPoint(w.tasks[id]) && StillHolds(w.st.requests, w.st.agreements, w.tasks[id].job)
    ensures RentalFunded(w.tasks[id], w.icp) && RentalSpending(w.tasks[id], w.book, w.tasks)
    ensures w.tasks[id].job.LockJob? ==> w.tasks[id].job.sweepNow <= w.now
    ensures w.st.conditions == INITIAL_CONDITIONS
  {
    hide AtProgramPoint, StillHolds, RentalFunded, RentalSpending, LocksAreHeld, Lifecycle, CyclesConserved, Audit;
  }

  lemma FailRentalKeeps(w: World, id: nat)
    requires Inv(w) && id in w.tasks && w.tasks[id].job.RentalJob?
    ensures Inv(FailRental(w, id))
  {
    hide Inv;
    var job := w.tasks[id].job;
    NoteKeeps(w, Some(job.user), RentalRequestFailed(job.user, job.proposal));
    EndKeeps(Note(w, Some(job.user), RentalRequestFailed(job.user, job.proposal)), id);
  }

  lemma PriceFits(daily: nat, days: nat, rate: nat, decimals: nat)
    ensures var p := CalculateSubnetPrice(daily, days, rate, decimals); p.Some? ==> p.value <= U64_MAX
  {
    hide Pow10;
  }

  lemma PriceRentalKeeps(w: World, id: nat, rate: nat, decimals: nat)
    requires Inv(w) && id in w.tasks && w.tasks[id].job.RentalJob? && w.tasks[id].call.XrcCall?
    requires w.tasks[id].job.condition in w.st.conditions
    ensures Inv(PriceRental(w, id, rate, decimals))
  {
    hide Inv, CalculateSubnetPrice;
    var job := w.tasks[id].job;
    var c := w.st.conditions[job.condition];
    PriceFits(c.dailyCostCycles, c.initialRentalPeriodDays, rate, decimals);
    PointOf(w, id);
    match CalculateSubnetPrice(c.dailyCostCycles, c.initialRentalPeriodDays, rate, decimals)
    case None => FailRentalKeeps(w, id);
    case Some(price) => AdvanceKeeps(w, id, job.(needed := price), BalanceCall(job.user));
  }

  lemma LockFirstTenthKeeps(w: World, id: nat)
    requires Inv(w) && id in w.tasks && w.tasks[id].job.RentalJob? && w.tasks[id].call.BalanceCall?
    requires w.tasks[id].reply.Balance? && w.tasks[id].job.needed <= w.tasks[id].reply.e8s
    ensures Inv(LockFirstTenth(w, id))
  {
    hide Inv, Astray;
    var job := w.tasks[id].job;
    var book' := w.book.(spent := w.book.spent[job.user := 0], lost := w.book.lost[job.user := 0]);
    PointOf(w, id);
    FreshBooks(w, id, book');
    AdvanceKeeps(w.(book := book'), id, job, CmcTransfer(job.user, job.needed / 10));
  }

  lemma ToNotifyKeeps(w: World, id: nat)
    requires Inv(w) && id in w.tasks && w.tasks[id].call.CmcTransfer? && w.tasks[id].reply.Block?
    ensures var Task(job, call, reply) := w.tasks[id];
            Inv(Advance(w, id, job, NotifyCall(call.account, call.amount, reply.index)))
  {
    hide Inv, Astray, StillHolds;
    PointOf(w, id);
    var Task(job, call, reply) := w.tasks[id];
    AdvanceKeeps(w, id, job, NotifyCall(call.account, call.amount, reply.index));
  }

  lemma ResumeRentalKeeps(w: World, id: nat)
    requires Inv(w) && id in w.tasks && w.tasks[id].job.RentalJob? && w.tasks[id].job.condition in w.st.conditions
    ensures Inv(ResumeRental(w, id))
  {
    hide Inv, CalculateSubnetPrice;
    var Task(job, call, reply) := w.tasks[id];
    match (call, reply)
    case (XrcCall(time), Rate(rate, decimals)) =>
      RatesKeep(w, w.st.rates[time := (rate, decimals)]);
      PriceRentalKeeps(w.(st := w.st.(rates := w.st.rates[time := (rate, decimals)])), id, rate, decimals);
    case (BalanceCall(_), Balance(e8s)) =>
      if job.needed > e8s { FailRentalKeeps(w, id); } else { LockFirstTenthKeeps(w, id); }
    case (CmcTransfer(_, _), Block(_)) => ToNotifyKeeps(w, id);
    case (NotifyCall(_, _, _), Minted(cycles)) =>
      var r := NewRequest(job.user, job.condition, job.proposal, job.needed, cycles, w.now);
      OpenRequestKeeps(w, id, r);
      EndKeeps(Opened(w, id, r), id);
    case _ => FailRentalKeeps(w, id);
  }

  // ---------------------------------------------------------------- the other jobs

  lemma BeginAgreementKeeps(w: World, id: nat)
    requires Inv(w) && id in w.tasks && w.tasks[id].job.CreateJob? && w.tasks[id].job.request.rentalConditionId in w.st.conditions
    requires w.tasks[id].call.NotifyCall? && w.tasks[id].reply.Minted?
    ensures Inv(BeginAgreement(w, id))
  {
    hide Inv;
    var Task(job, call, reply) := w.tasks[id];
    var period := w.st.conditions[job.request.rentalConditionId].initialRentalPeriodDays;
    var a := NewAgreement(job.request, job.user, job.subnet, job.proposal, reply.cycles, period, w.now);
    var event := TransferSuccess(call.amount, call.block);
    NoteKeeps(w, Some(job.user), event);
    PointOf(w, id);
    PointOf(Note(w, Some(job.user), event), id);
    AdvanceKeeps(
      Note(w, Some(job.user), event), id, job.(draft := Some(a)), AuthorizeCall(job.user, call.amount, reply.cycles));
  }

  lemma ResumeCreateKeeps(w: World, id: nat)
    requires Inv(w) && id in w.tasks && w.tasks[id].job.CreateJob? && w.tasks[id].job.request.rentalConditionId in w.st.conditions
    ensures Inv(ResumeCreate(w, id))
  {
    hide Inv;
    var Task(job, call, reply) := w.tasks[id];
    match (call, reply)
    case (CmcTransfer(_, _), Block(_)) => ToNotifyKeeps(w, id);
    case (NotifyCall(_, _, _), Minted(_)) => BeginAgreementKeeps(w, id);
    case (AuthorizeCall(_, _, _), Done) =>
      if job.draft.None? {
        EndKeeps(w, id);
      } else {
        OpenAgreementKeeps(w, id);
        EndKeeps(Founded(w, id), id);
      }
    case _ => EndKeeps(w, id);
  }

  lemma ResumeRefundKeeps(w: World, id: nat)
    requires Inv(w) && id in w.tasks && w.tasks[id].job.RefundJob?
    ensures Inv(ResumeRefund(w, id))
  {
    hide Inv;
    var Task(job, call, reply) := w.tasks[id];
    match (call, reply)
    case (BalanceCall(_), Balance(e8s)) =>
      if e8s < DEFAULT_FEE {
        EndKeeps(w, id);
      } else {
        AdvanceKeeps(w, id, job, RefundTransfer(job.user, e8s - DEFAULT_FEE));
      }
    case (RefundTransfer(_, _), Block(_)) =>
      CancelRequestKeeps(w, id);
      EndKeeps(Cancelled(w, id), id);
    case _ => EndKeeps(w, id);
  }

  lemma FailTopUpKeeps(w: World, id: nat)
    requires Inv(w) && id in w.tasks && w.tasks[id].job.TopUpJob?
    ensures Inv(FailTopUp(w, id))
  {
    hide Inv;
    var job := w.tasks[id].job;
    NoteKeeps(w, Some(job.subnet), SubnetTopUpFailed(job.agreement.user));
    EndKeeps(Note(w, Some(job.subnet), SubnetTopUpFailed(job.agreement.user)), id);
  }

  lemma ResumeTopUpKeeps(w: World, id: nat)
    requires Inv(w) && id in w.tasks && w.tasks[id].job.TopUpJob?
    ensures Inv(ResumeTopUp(w, id))
  {
    hide Inv;
    var Task(job, call, reply) := w.tasks[id];
    match (call, reply)
    case (BalanceCall(_), Balance(e8s)) =>
      if e8s < DEFAULT_FEE {
        FailTopUpKeeps(w, id);
      } else {
        PointOf(w, id);
        AdvanceKeeps(w, id, job.(balance := e8s), CmcTransfer(job.agreement.user, e8s - DEFAULT_FEE));
      }
    case (CmcTransfer(_, _), Block(_)) => ToNotifyKeeps(w, id);
    case (NotifyCall(_, _, _), Minted(_)) =>
      BookTopUpKeeps(w, id);
      EndKeeps(Paid(w, id), id);
    case _ => FailTopUpKeeps(w, id);
  }

  // ---------------------------------------------------------------- locking

  /** One iteration ends without a failed `unwrap`, whatever its conversion came to. */
  lemma EndLockingKeeps(w: World, id: nat)
    requires Inv(w) && id in w.tasks && w.tasks[id].job.LockJob?
    ensures Inv(EndLocking(w, id)) && !LockingTraps(w, id)
  {
    hide Inv;
    var Task(job, call, reply) := w.tasks[id];
    if CanLock(w, id) {
      RelockKeeps(w, id);
      EndKeeps(Relocked(w, id), id);
    } else {
      NoteKeeps(w, Some(job.request.user), LockingFailure(job.request.user));
      EndKeeps(Note(w, Some(job.request.user), LockingFailure(job.request.user)), id);
    }
  }

  lemma ContinueSweepKeeps(w: World, id: nat, sweepNow: nat, rest: seq<RentalRequest>)
    requires Inv(w) && id !in w.tasks && sweepNow <= w.now
    requires forall c | c in rest :: c.lastLockingTimeNanos <= sweepNow
    requires IsCurrent(w, NextCopy(w, sweepNow, rest))
    ensures Inv(ContinueSweep(w, id, sweepNow, rest))
  {
    hide Inv, NextToLock, LockingDue;
    var i := NextToLock(w.st.locks, rest, sweepNow);
    if i < |rest| {
      StartKeeps(
        w, id, LockJob(rest[i], sweepNow, rest[i + 1..]), CmcTransfer(rest[i].user, rest[i].initialCostIcp / 10));
    }
  }

  lemma ResumeLockingKeeps(w: World, id: nat)
    requires Inv(w) && id in w.tasks && FreshResume(w, id)
    requires w.tasks[id].job.LockJob? && !w.tasks[id].reply.CallFailed?
    ensures Inv(ResumeLocking(w, id))
  {
    hide Inv, NextToLock;
    var Task(job, call, reply) := w.tasks[id];
    if call.CmcTransfer? && reply.Block? {
      ToNotifyKeeps(w, id);
    } else {
      PointOf(w, id);
      EndLockingKeeps(w, id);
      ContinueSweepKeeps(EndLocking(w, id), id, job.sweepNow, job.rest);
    }
  }

  lemma StartSweepKeeps(w: World, id: nat, snapshot: seq<RentalRequest>)
    requires Inv(w) && Enabled(w, StartSweep(id, snapshot))
    ensures Inv(Apply(w, StartSweep(id, snapshot)))
  {
    hide Inv, NextToLock;
    LockedInThePast(w);
    ContinueSweepKeeps(w, id, w.now, snapshot);
  }

  lemma LockedInThePast(w: World)
    requires Inv(w)
    ensures forall u | u in w.st.requests :: w.st.requests[u].lastLockingTimeNanos <= w.now
  {
    hide Base, Lifecycle, ChecksHold, CyclesConserved, Backing, Spending, RequestTrail, EventsOf;
    forall u | u in w.st.requests ensures w.st.requests[u].lastLockingTimeNanos <= w.now {
      assert RequestAudited(w.st.requests[u], w.st.log, w.now);
    }
  }

  // ---------------------------------------------------------------- starts

  lemma StartRentalKeeps(w: World, id: nat, user: Principal, condition: ConditionId, proposal: nat, rateTime: nat)
    requires Inv(w) && Enabled(w, StartRental(id, user, condition, proposal, rateTime))
    ensures Inv(ApplyRental(w, id, user, condition, proposal, rateTime))
  {
    hide Inv, HasAgreement;
    var job := RentalJob(user, condition, proposal, 0);
    if !RequestAllowed(w.st, user, condition) {
      NoteKeeps(w, Some(user), RentalRequestFailed(user, proposal));
    } else if rateTime in w.st.rates {
      StartKeeps(w, id, job, XrcCall(rateTime));
      PriceRentalKeeps(Start(w, id, job, XrcCall(rateTime)), id, w.st.rates[rateTime].0, w.st.rates[rateTime].1);
    } else {
      PayXrcKeeps(w);
      StartKeeps(PayXrc(w), id, job, XrcCall(rateTime));
    }
  }

  lemma StartCreateKeeps(w: World, s: Step)
    requires Inv(w) && Enabled(w, s) && s.StartCreate?
    ensures Inv(Apply(w, s))
  {
    hide Inv;
    var r := w.st.requests[s.user];
    StartKeeps(
      w, s.id, CreateJob(s.user, s.subnet, s.proposal, r, None),
      CmcTransfer(s.user, SatSub(r.initialCostIcp, r.lockedAmountIcp)));
  }

  lemma StartOtherKeeps(w: World, s: Step)
    requires Inv(w) && Enabled(w, s)
    requires s.StartRefund? || s.StartTopUp? || s.StartPrice? || s.StartEstimate? || s.StartAdmins?
    ensures Inv(Apply(w, s))
  {
    hide Inv;
    match s
    case StartRefund(id, user) => StartKeeps(w, id, RefundJob(user), BalanceCall(user));
    case StartTopUp(id, subnet) =>
      StartKeeps(w, id, TopUpJob(subnet, w.st.agreements[subnet], 0), BalanceCall(w.st.agreements[subnet].user));
    case StartPrice(id, time) =>
      PayXrcKeeps(w);
      StartKeeps(PayXrc(w), id, PriceJob, XrcCall(time));
    case StartEstimate(id, time) =>
      PayXrcKeeps(w);
      StartKeeps(PayXrc(w), id, EstimateJob, XrcCall(time));
    case StartAdmins(id, subnet) => StartKeeps(w, id, AdminsJob(subnet), AdminsCall);
  }

  // ---------------------------------------------------------------- all steps

  lemma ResumeKeeps(w: World, id: nat)
    requires Inv(w) && id in w.tasks && FreshResume(w, id)
    ensures Inv(ApplyResume(w, id))
  {
    hide Inv, FreshResume, ResumeRental, ResumeCreate, ResumeRefund, ResumeTopUp, ResumeLocking;
    var Task(job, call, reply) := w.tasks[id];
    if reply.CallFailed? {
      EndKeeps(w, id);
    } else {
      match job
      case RentalJob(_, condition, _, _) =>
        if condition in w.st.conditions { ResumeRentalKeeps(w, id); } else { EndKeeps(w, id); }
      case CreateJob(_, _, _, r, _) =>
        if r.rentalConditionId in w.st.conditions { ResumeCreateKeeps(w, id); } else { EndKeeps(w, id); }
      case RefundJob(_) => ResumeRefundKeeps(w, id);
      case TopUpJob(_, _, _) => ResumeTopUpKeeps(w, id);
      case LockJob(_, _, _) => ResumeLockingKeeps(w, id);
      case _ =>
        if call.XrcCall? && reply.Rate? {
          var rates := w.st.rates[call.time := (reply.rate, reply.decimals)];
          RatesKeep(w, rates);
          EndKeeps(w.(st := w.st.(rates := rates)), id);
        } else {
          EndKeeps(w, id);
        }
    }
  }

  lemma StepKeeps(w: World, s: Step)
    requires Inv(w) && Enabled(w, s) && Fresh(w, s)
    ensures Inv(Apply(w, s))
  {
    hide Inv, FreshResume, ApplyResume, ApplyServe, ApplyRental, ApplyBurn, Upgrade, RequestAllowed, BurnSweep;
    match s
    case Deposit(account, amount) => DepositKeeps(w, account, amount);
    case DepositCycles(amount) => DepositCyclesKeeps(w, amount);
    case Tick(nanos) => TickKeeps(w, nanos);
    case Serve(id, reply) => ServeKeeps(w, id, reply);
    case Resume(id) => ResumeKeeps(w, id);
    case StartRental(id, user, condition, proposal, rateTime) =>
      StartRentalKeeps(w, id, user, condition, proposal, rateTime);
    case StartCreate(_, _, _, _) => StartCreateKeeps(w, s);
    case StartSweep(id, snapshot) => StartSweepKeeps(w, id, snapshot);
    case BurnAll(order) => BurnAllKeeps(w, order);
    case DoUpgrade(target) => UpgradeKeeps(w, target);
    case _ => StartOtherKeeps(w, s);
  }
}
