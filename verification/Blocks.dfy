/** Each building block of a step keeps the invariant. */
module Blocks {
  import opened Types
  import opened History
  import opened Sums
  import opened Burning
  import opened State
  import opened World
  import opened Invariant

  // ---------------------------------------------------------------- totals

  lemma TaskSet(tasks: map<nat, Task>, id: nat, t: Task)
    ensures FlyingCycles(tasks[id := t]) + (if id in tasks then CyclesInFlight(tasks[id]) else 0)
         == FlyingCycles(tasks) + CyclesInFlight(t)
    ensures forall u ::
              FlyingIcp(tasks[id := t], u) + (if id in tasks then IcpInFlight(tasks[id], u) else 0)
              == FlyingIcp(tasks, u) + IcpInFlight(t, u)
  {
    assert Flying(tasks[id := t]) == Flying(tasks)[id := CyclesInFlight(t)];
    SumUpdate(Flying(tasks), id, CyclesInFlight(t));
    forall u
      ensures FlyingIcp(tasks[id := t], u) + (if id in tasks then IcpInFlight(tasks[id], u) else 0)
           == FlyingIcp(tasks, u) + IcpInFlight(t, u)
    {
      assert Converting(tasks[id := t], u) == Converting(tasks, u)[id := IcpInFlight(t, u)];
      SumUpdate(Converting(tasks, u), id, IcpInFlight(t, u));
    }
  }

  lemma TaskEnded(tasks: map<nat, Task>, id: nat)
    requires id in tasks
    ensures FlyingCycles(tasks - {id}) + CyclesInFlight(tasks[id]) == FlyingCycles(tasks)
    ensures forall u :: FlyingIcp(tasks - {id}, u) + IcpInFlight(tasks[id], u) == FlyingIcp(tasks, u)
  {
    assert Flying(tasks - {id}) == Flying(tasks) - {id};
    SumPoint(Flying(tasks), id);
    forall u ensures FlyingIcp(tasks - {id}, u) + IcpInFlight(tasks[id], u) == FlyingIcp(tasks, u) {
      assert Converting(tasks - {id}, u) == Converting(tasks, u) - {id};
      SumPoint(Converting(tasks, u), id);
    }
  }

  lemma RequestSet(requests: map<Principal, RentalRequest>, u: Principal, r: RentalRequest)
    ensures LockedCycles(requests[u := r]) + (if u in requests then requests[u].lockedAmountCycles else 0)
         == LockedCycles(requests) + r.lockedAmountCycles
  {
    assert LockedBy(requests[u := r]) == LockedBy(requests)[u := r.lockedAmountCycles];
    SumUpdate(LockedBy(requests), u, r.lockedAmountCycles);
  }

  lemma RequestRemoved(requests: map<Principal, RentalRequest>, u: Principal)
    requires u in requests
    ensures LockedCycles(requests - {u}) + requests[u].lockedAmountCycles == LockedCycles(requests)
  {
    assert LockedBy(requests - {u}) == LockedBy(requests) - {u};
    SumPoint(LockedBy(requests), u);
  }

  lemma AgreementSet(agreements: map<Principal, RentalAgreement>, s: Principal, a: RentalAgreement)
    ensures CreatedCycles(agreements[s := a]) + (if s in agreements then agreements[s].totalCyclesCreated else 0)
         == CreatedCycles(agreements) + a.totalCyclesCreated
    ensures UnburnedCycles(agreements[s := a]) + (if s in agreements then agreements[s].Remaining() else 0)
         == UnburnedCycles(agreements) + a.Remaining()
    ensures s in agreements ==> agreements[s].totalCyclesCreated <= CreatedCycles(agreements)
  {
    assert Created(agreements[s := a]) == Created(agreements)[s := a.totalCyclesCreated];
    SumUpdate(Created(agreements), s, a.totalCyclesCreated);
    assert Unburned(agreements[s := a]) == Unburned(agreements)[s := a.Remaining()];
    SumUpdate(Unburned(agreements), s, a.Remaining());
    if s in agreements {
      SumPoint(Created(agreements), s);
    }
  }

  // ---------------------------------------------------------------- blocks that write no record

  predicate NotReplayed(event: EventType) {
    && !event.RentalRequestCreated? && !event.LockingSuccess? && !event.RentalRequestCancelled?
    && !event.SubnetTopUp? && !event.RentalConditionSwitched?
  }

  /** Only the replays of the log matter. */
  lemma SameReplays(
      requests: map<Principal, RentalRequest>, agreements: map<Principal, RentalAgreement>,
      log: Log, log': Log, book: Book, tasks: map<nat, Task>, now: nat)
    requires forall k :: RequestTrail(EventsOf(log', k)) == RequestTrail(EventsOf(log, k))
    requires forall k :: PaymentTrail(EventsOf(log', k)) == PaymentTrail(EventsOf(log, k))
    requires Audit(requests, agreements, log, book.births, now) && Spending(requests, agreements, log, book, tasks)
    ensures Audit(requests, agreements, log', book.births, now) && Spending(requests, agreements, log', book, tasks)
  {
    hide RequestTrail, PaymentTrail, EventsOf, RequestAudited, AgreementAudited, RequestSpending, RentalSpending, Astray, TrailsAreLive;
    SameTrailsLive(requests, agreements, log, log');
    SameRecordsAudited(requests, agreements, log, log', book.births, now);
  }

  lemma SameRecordsAudited(
      requests: map<Principal, RentalRequest>, agreements: map<Principal, RentalAgreement>,
      log: Log, log': Log, births: map<Principal, Birth>, now: nat)
    requires forall k :: RequestTrail(EventsOf(log', k)) == RequestTrail(EventsOf(log, k))
    requires forall k :: PaymentTrail(EventsOf(log', k)) == PaymentTrail(EventsOf(log, k))
    requires Audit(requests, agreements, log, births, now)
    ensures forall u | u in requests :: RequestAudited(requests[u], log', now)
    ensures forall s | s in agreements :: AgreementAudited(agreements[s], log', births)
  {
    hide RequestTrail, PaymentTrail, EventsOf, OnSchedule, TrailsAreLive;
  }

  lemma SameTrailsLive(
      requests: map<Principal, RentalRequest>, agreements: map<Principal, RentalAgreement>, log: Log, log': Log)
    requires forall k :: RequestTrail(EventsOf(log', k)) == RequestTrail(EventsOf(log, k))
    requires TrailsAreLive(requests, agreements, log)
    ensures TrailsAreLive(requests, agreements, log')
  {
    hide RequestTrail, EventsOf, HasAgreement;
  }

  lemma NoteKeeps(w: World, key: Option<Principal>, event: EventType)
    requires Inv(w) && NotReplayed(event)
    ensures Inv(Note(w, key, event))
  {
    hide Base, Lifecycle, ChecksHold, CyclesConserved, Backing, Spending, Audit, Clocks;
    ReplayAppend(w.st.log, key, event, w.now);
    SameReplays(w.st.requests, w.st.agreements, w.st.log, Note(w, key, event).st.log, w.book, w.tasks, w.now);
  }

  lemma StartHoldsLocks(w: World, id: nat, job: Job, call: Call)
    requires LocksAreHeld(w.st.locks, w.tasks) && id !in w.tasks && Free(w, job)
    ensures var w' := Start(w, id, job, call); LocksAreHeld(w'.st.locks, w'.tasks)
  {
    hide Guards;
    var w' := Start(w, id, job, call);
    forall g | g in w'.st.locks
      ensures exists i :: i in w'.tasks && g in Guards(w'.tasks[i].job)
    {
      if g in w.st.locks {
        var i :| i in w.tasks && g in Guards(w.tasks[i].job);
        assert g in Guards(w'.tasks[i].job);
      } else {
        assert g in Guards(w'.tasks[id].job);
      }
    }
  }

  lemma LeavingFreesLocks(locks: set<Guard>, tasks: map<nat, Task>, id: nat)
    requires LocksAreHeld(locks, tasks) && id in tasks
    ensures LocksAreHeld(locks - Guards(tasks[id].job), tasks - {id})
  {
    hide Guards;
    var tasks' := tasks - {id};
    forall g | g in locks - Guards(tasks[id].job)
      ensures exists i :: i in tasks' && g in Guards(tasks'[i].job)
    {
      var i :| i in tasks && g in Guards(tasks[i].job);
      assert i != id;
      assert g in Guards(tasks'[i].job);
    }
  }

  lemma SwapKeepsLocks(locks: set<Guard>, tasks: map<nat, Task>, id: nat, t: Task)
    requires LocksAreHeld(locks, tasks) && id in tasks && Guards(t.job) == Guards(tasks[id].job)
    ensures LocksAreHeld(locks, tasks[id := t])
  {
    hide Guards;
    var tasks' := tasks[id := t];
    forall g | g in locks
      ensures exists i :: i in tasks' && g in Guards(tasks'[i].job)
    {
      var i :| i in tasks && g in Guards(tasks[i].job);
      assert g in Guards(tasks'[i].job);
    }
  }

  lemma BackingKept(
      requests: map<Principal, RentalRequest>, icp: map<Principal, nat>, icp': map<Principal, nat>,
      lost: map<Principal, nat>, lost': map<Principal, nat>, tasks: map<nat, Task>, tasks': map<nat, Task>)
    requires Backing(requests, icp, lost, tasks)
    requires forall u | u in requests && !RefundPaid(tasks', u) ::
               !RefundPaid(tasks, u)
               && At(icp, requests[u].user) + Astray(lost, tasks, requests[u].user)
                  <= At(icp', requests[u].user) + Astray(lost', tasks', requests[u].user)
    requires forall i | i in tasks' :: RentalFunded(tasks'[i], icp')
    ensures Backing(requests, icp', lost', tasks')
  {
    hide Astray, RefundPaid, RentalFunded, At;
  }

  /** What is spent and what is astray change by the same amount for every user. */
  lemma SpendingKept(
      requests: map<Principal, RentalRequest>, agreements: map<Principal, RentalAgreement>, log: Log,
      book: Book, book': Book, tasks: map<nat, Task>, tasks': map<nat, Task>)
    requires Spending(requests, agreements, log, book, tasks)
    requires book.births == book'.births
    requires forall u :: At(book'.spent, u) + Astray(book.lost, tasks, u)
                      == At(book.spent, u) + Astray(book'.lost, tasks', u)
    requires forall i | i in tasks' :: RentalSpending(tasks'[i], book', tasks')
    ensures Spending(requests, agreements, log, book', tasks')
  {
    hide Astray, RentalSpending, PaymentTrail, EventsOf, At;
  }

  /** A task changes, its guards and what it relies on do not. */
  lemma SwapKeepsPoints(w: World, id: nat, t: Task)
    requires Inv(w) && id in w.tasks && Guards(t.job) == Guards(w.tasks[id].job)
    requires AtProgramPoint(t) && StillHolds(w.st.requests, w.st.agreements, t.job)
    requires t.job.LockJob? ==> t.job.sweepNow <= w.now
    ensures Base(w.st.locks, w.tasks[id := t])
    ensures ChecksHold(w.st.requests, w.st.agreements, w.tasks[id := t])
    ensures Clocks(w.now, w.tasks[id := t])
  {
    hide AtProgramPoint, StillHolds, LocksAreHeld, Guards, Lifecycle, CyclesConserved, Backing, Spending, Audit;
    SwapKeepsLocks(w.st.locks, w.tasks, id, t);
  }

  predicate PaidRefund(t: Task) {
    t.job.RefundJob? && t.call.RefundTransfer? && t.reply.Block?
  }

  lemma RefundsStayPaid(tasks: map<nat, Task>, tasks': map<nat, Task>, id: nat)
    requires forall i | i in tasks && i != id :: i in tasks' && tasks'[i] == tasks[i]
    ensures forall u | !(id in tasks && PaidRefund(tasks[id]) && tasks[id].job.user == u) ::
              RefundPaid(tasks, u) ==> RefundPaid(tasks', u)
  {
    forall u | RefundPaid(tasks, u) && !(id in tasks && PaidRefund(tasks[id]) && tasks[id].job.user == u)
      ensures RefundPaid(tasks', u)
    {
      var i :| i in tasks && tasks[i].job == RefundJob(u) && tasks[i].call.RefundTransfer? && tasks[i].reply.Block?;
      assert tasks'[i] == tasks[i];
    }
  }

  lemma StartKeepsPoints(w: World, id: nat, job: Job, call: Call)
    requires Inv(w) && id !in w.tasks && Free(w, job)
    requires AtProgramPoint(Task(job, call, Pending)) && StillHolds(w.st.requests, w.st.agreements, job)
    requires job.LockJob? ==> job.sweepNow <= w.now
    ensures var w' := Start(w, id, job, call);
            && Base(w'.st.locks, w'.tasks) && Clocks(w'.now, w'.tasks)
            && ChecksHold(w'.st.requests, w'.st.agreements, w'.tasks)
  {
    hide AtProgramPoint, StillHolds, LocksAreHeld, Guards, Lifecycle, CyclesConserved, Backing, Spending, Audit;
    StartHoldsLocks(w, id, job, call);
  }

  lemma StartKeeps(w: World, id: nat, job: Job, call: Call)
    requires Inv(w) && id !in w.tasks && Free(w, job)
    requires AtProgramPoint(Task(job, call, Pending)) && !call.NotifyCall? && !call.AuthorizeCall?
    requires StillHolds(w.st.requests, w.st.agreements, job)
    requires job.RentalJob? ==> call.XrcCall?
    requires job.LockJob? ==> job.sweepNow <= w.now
    ensures Inv(Start(w, id, job, call))
  {
    hide Base, ChecksHold, Clocks, Lifecycle, Audit, Sound, AtProgramPoint, StillHolds, Guards;
    hide FlyingIcp, FlyingCycles, LockedCycles, CreatedCycles, UnburnedCycles, Backed, RequestSpending, AgreementSpending;
    var w' := Start(w, id, job, call);
    StartKeepsPoints(w, id, job, call);
    TaskSet(w.tasks, id, w'.tasks[id]);
    RefundsStayPaid(w.tasks, w'.tasks, id);
    BackingKept(w.st.requests, w.icp, w.icp, w.book.lost, w.book.lost, w.tasks, w'.tasks);
    SpendingKept(w.st.requests, w.st.agreements, w.st.log, w.book, w.book, w.tasks, w'.tasks);
  }

  /** A task moves on to its next call with the same amounts in flight. */
  lemma AdvanceKeeps(w: World, id: nat, job: Job, call: Call)
    requires Inv(w) && id in w.tasks
    requires Guards(job) == Guards(w.tasks[id].job) && !PaidRefund(w.tasks[id])
    requires AtProgramPoint(Task(job, call, Pending))
    requires StillHolds(w.st.requests, w.st.agreements, job)
    requires var t, t' := w.tasks[id], Task(job, call, Pending);
             && CyclesInFlight(t') == CyclesInFlight(t)
             && (forall u :: IcpInFlight(t', u) == IcpInFlight(t, u))
             && RentalFunded(t', w.icp) && RentalSpending(t', w.book, w.tasks)
    requires job.LockJob? ==> job.sweepNow <= w.now
    ensures Inv(Advance(w, id, job, call))
  {
    hide Base, ChecksHold, Clocks, Lifecycle, Audit, Sound, IcpInFlight, CyclesInFlight, AtProgramPoint, StillHolds, Guards;
    hide FlyingIcp, FlyingCycles, LockedCycles, CreatedCycles, UnburnedCycles, Backed, RequestSpending, AgreementSpending;
    var w' := Advance(w, id, job, call);
    SwapKeepsPoints(w, id, w'.tasks[id]);
    TaskSet(w.tasks, id, w'.tasks[id]);
    RefundsStayPaid(w.tasks, w'.tasks, id);
    BackingKept(w.st.requests, w.icp, w.icp, w.book.lost, w.book.lost, w.tasks, w'.tasks);
    SpendingKept(w.st.requests, w.st.agreements, w.st.log, w.book, w.book, w.tasks, w'.tasks);
  }

  lemma FlightIsOneAccounts(t: Task)
    ensures forall u :: u != Account(t.call) ==> IcpInFlight(t, u) == 0
  {
  }

  lemma EndKeepsPoints(w: World, id: nat)
    requires Inv(w) && id in w.tasks
    ensures var w' := End(w, id);
            && Base(w'.st.locks, w'.tasks) && Clocks(w'.now, w'.tasks)
            && ChecksHold(w'.st.requests, w'.st.agreements, w'.tasks)
  {
    hide AtProgramPoint, StillHolds, LocksAreHeld, Guards, Lifecycle, CyclesConserved, Backing, Spending, Audit;
    hide IcpInFlight, CyclesInFlight, Account;
    LeavingFreesLocks(w.st.locks, w.tasks, id);
  }

  lemma EndKeeps(w: World, id: nat)
    requires Inv(w) && id in w.tasks && !PaidRefund(w.tasks[id])
    ensures Inv(End(w, id))
  {
    hide Base, ChecksHold, Clocks, Lifecycle, Audit, Sound, IcpInFlight, CyclesInFlight, Account;
    hide FlyingIcp, FlyingCycles, LockedCycles, CreatedCycles, UnburnedCycles, Backed, RequestSpending, AgreementSpending;
    var w' := End(w, id);
    EndKeepsPoints(w, id);
    TaskEnded(w.tasks, id);
    FlightIsOneAccounts(w.tasks[id]);
    RefundsStayPaid(w.tasks, w'.tasks, id);
    assert forall u :: Astray(w'.book.lost, w'.tasks, u) == Astray(w.book.lost, w.tasks, u);
    BackingKept(w.st.requests, w.icp, w.icp, w.book.lost, w'.book.lost, w.tasks, w'.tasks);
    SpendingKept(w.st.requests, w.st.agreements, w.st.log, w.book, w'.book, w.tasks, w'.tasks);
  }

  // ---------------------------------------------------------------- the environment

  /** The subaccount that a served transfer of this task debits. */
  function Debtor(t: Task): Option<Principal> {
    match t.call
    case CmcTransfer(account, _) => Some(account)
    case RefundTransfer(account, _) => Some(account)
    case _ => None
  }

  /** While a rental proposal runs, no other task debits its user's subaccount. */
  lemma OnlyDebtor(w: World, i: nat, id: nat)
    requires Inv(w) && i in w.tasks && id in w.tasks && i != id && w.tasks[i].job.RentalJob?
    ensures Debtor(w.tasks[id]) != Some(w.tasks[i].job.user)
  {
    hide CyclesConserved, Backing, Spending, Audit, Clocks;
    var user := w.tasks[i].job.user;
    assert AtProgramPoint(w.tasks[id]) && StillHolds(w.st.requests, w.st.agreements, w.tasks[id].job);
    assert StillHolds(w.st.requests, w.st.agreements, w.tasks[i].job);
    assert Guard(user, RequestTag) in Guards(w.tasks[i].job);
    assert Guard(user, RequestTag) !in Guards(w.tasks[id].job);
  }

  lemma OthersStayFunded(w: World, id: nat, icp: map<Principal, nat>)
    requires Inv(w) && id in w.tasks
    requires forall u | Some(u) != Debtor(w.tasks[id]) :: At(icp, u) == At(w.icp, u)
    ensures forall i | i in w.tasks && i != id :: RentalFunded(w.tasks[i], icp)
  {
    hide Inv, Debtor, IcpInFlight;
    forall i | i in w.tasks && i != id ensures RentalFunded(w.tasks[i], icp) {
      assert RentalFunded(w.tasks[i], w.icp) by {
        BackingOf(w);
      }
      if w.tasks[i].job.RentalJob? {
        OnlyDebtor(w, i, id);
      }
    }
  }

  lemma BackingOf(w: World)
    requires Inv(w)
    ensures Backing(w.st.requests, w.icp, w.book.lost, w.tasks)
  {
  }

  lemma ServeKeepsPoints(w: World, id: nat, reply: Reply)
    requires Inv(w) && Enabled(w, Serve(id, reply))
    ensures var tasks' := w.tasks[id := w.tasks[id].(reply := reply)];
            && Base(w.st.locks, tasks') && Clocks(w.now, tasks')
            && ChecksHold(w.st.requests, w.st.agreements, tasks')
  {
    hide Guards, StillHolds, LocksAreHeld, Lifecycle, CyclesConserved, Backing, Spending, Audit;
    SwapKeepsPoints(w, id, w.tasks[id].(reply := reply));
  }

  lemma ServeTransferKeeps(w: World, id: nat, reply: Reply)
    requires Inv(w) && Enabled(w, Serve(id, reply)) && w.tasks[id].call.CmcTransfer? && reply.Block?
    ensures Inv(ApplyServe(w, id, reply))
  {
    hide Base, ChecksHold, Clocks, Lifecycle, Audit, Sound;
    hide FlyingIcp, FlyingCycles, LockedCycles, CreatedCycles, UnburnedCycles, RefundPaid, Backed, RequestSpending, AgreementSpending;
    var w' := ApplyServe(w, id, reply);
    ServeKeepsPoints(w, id, reply);
    TaskSet(w.tasks, id, w'.tasks[id]);
    RefundsStayPaid(w.tasks, w'.tasks, id);
    RefundsStayPaid(w'.tasks, w.tasks, id);
    OthersStayFunded(w, id, w'.icp);
    BackingKept(w.st.requests, w.icp, w'.icp, w.book.lost, w'.book.lost, w.tasks, w'.tasks);
    SpendingKept(w.st.requests, w.st.agreements, w.st.log, w.book, w'.book, w.tasks, w'.tasks);
  }

  lemma RefundIsOfItsCaller(w: World, id: nat)
    requires Inv(w) && id in w.tasks && w.tasks[id].call.RefundTransfer?
    ensures w.tasks[id].job == RefundJob(w.tasks[id].call.account)
    ensures forall u | u in w.st.requests :: w.st.requests[u].user == u
  {
    hide LocksAreHeld, ChecksHold, CyclesConserved, Backing, Spending, Audit;
    assert AtProgramPoint(w.tasks[id]);
  }

  lemma ServeRefundKeeps(w: World, id: nat, reply: Reply)
    requires Inv(w) && Enabled(w, Serve(id, reply)) && w.tasks[id].call.RefundTransfer? && reply.Block?
    ensures Inv(ApplyServe(w, id, reply))
  {
    hide Base, ChecksHold, Clocks, Lifecycle, Audit, Sound;
    hide FlyingIcp, FlyingCycles, LockedCycles, CreatedCycles, UnburnedCycles, Backed, RequestSpending, AgreementSpending;
    var w' := ApplyServe(w, id, reply);
    var t := w.tasks[id];
    ServeKeepsPoints(w, id, reply);
    RefundIsOfItsCaller(w, id);
    TaskSet(w.tasks, id, w'.tasks[id]);
    RefundsStayPaid(w.tasks, w'.tasks, id);
    OthersStayFunded(w, id, w'.icp);
    assert RefundPaid(w'.tasks, t.call.account) by {
      assert w'.tasks[id].job == RefundJob(t.call.account);
    }
    BackingKept(w.st.requests, w.icp, w'.icp, w.book.lost, w'.book.lost, w.tasks, w'.tasks);
    SpendingKept(w.st.requests, w.st.agreements, w.st.log, w.book, w'.book, w.tasks, w'.tasks);
  }

  lemma ServedTaskIsFunded(w: World, id: nat, reply: Reply)
    requires Inv(w) && Enabled(w, Serve(id, reply)) && !reply.Block?
    ensures RentalFunded(w.tasks[id].(reply := reply), w.icp)
    ensures forall u :: IcpInFlight(w.tasks[id].(reply := reply), u) == IcpInFlight(w.tasks[id], u)
  {
    hide LocksAreHeld, Lifecycle, ChecksHold, CyclesConserved, Spending, Audit, Backed, RefundPaid;
    assert AtProgramPoint(w.tasks[id]);
  }

  lemma ServeOtherKeepsCycles(w: World, id: nat, reply: Reply)
    requires Inv(w) && Enabled(w, Serve(id, reply)) && !reply.Block?
    ensures var w' := ApplyServe(w, id, reply);
            CyclesConserved(w'.st.requests, w'.st.agreements, w'.tasks, w'.cycles, w'.book)
  {
    hide Base, ChecksHold, Clocks, Lifecycle, Audit, Backing, Spending, Sound;
    hide FlyingCycles, LockedCycles, CreatedCycles, UnburnedCycles;
    TaskSet(w.tasks, id, w.tasks[id].(reply := reply));
    assert AtProgramPoint(w.tasks[id]) by { PointsOf(w, id); }
  }

  lemma PointsOf(w: World, id: nat)
    requires Inv(w) && id in w.tasks
    ensures AtProgramPoint(w.tasks[id])
  {
    hide AtProgramPoint, LocksAreHeld, ChecksHold, Clocks, Lifecycle, CyclesConserved, Audit, Backing, Spending;
  }

  /** All other replies: at most cycles are minted. */
  lemma ServeOtherKeeps(w: World, id: nat, reply: Reply)
    requires Inv(w) && Enabled(w, Serve(id, reply)) && !reply.Block?
    ensures Inv(ApplyServe(w, id, reply))
  {
    hide IcpInFlight, RentalFunded, Base, ChecksHold, Clocks, Lifecycle, Audit, CyclesConserved;
    hide FlyingIcp, RefundPaid, Backed, RequestSpending, AgreementSpending;
    var w' := ApplyServe(w, id, reply);
    ServeOtherKeepsCycles(w, id, reply);
    ServeKeepsPoints(w, id, reply);
    TaskSet(w.tasks, id, w'.tasks[id]);
    RefundsStayPaid(w.tasks, w'.tasks, id);
    RefundsStayPaid(w'.tasks, w.tasks, id);
    ServedTaskIsFunded(w, id, reply);
    OthersStayFunded(w, id, w.icp);
    BackingKept(w.st.requests, w.icp, w'.icp, w.book.lost, w'.book.lost, w.tasks, w'.tasks);
    SpendingKept(w.st.requests, w.st.agreements, w.st.log, w.book, w'.book, w.tasks, w'.tasks);
  }
}
