/** Each write to the stored requests and agreements keeps the invariant. */
module Writes {
  import opened Types
  import opened History
  import opened Sums
  import opened Division
  import opened Burning
  import opened State
  import opened World
  import opened Invariant
  import opened Blocks

  // ---------------------------------------------------------------- shared steps

  lemma GuardExcludesOthers(w: World, id: nat, g: Guard)
    requires Inv(w) && id in w.tasks && g in Guards(w.tasks[id].job)
    ensures forall i | i in w.tasks && i != id :: g !in Guards(w.tasks[i].job)
    ensures forall i | i in w.tasks :: StillHolds(w.st.requests, w.st.agreements, w.tasks[i].job)
  {
    hide Guards, StillHolds, Lifecycle, CyclesConserved, Backing, Spending, Audit, AtProgramPoint;
  }

  lemma StillHoldsAfterRequestWrite(
      job: Job, u: Principal, requests: map<Principal, RentalRequest>, requests': map<Principal, RentalRequest>,
      agreements: map<Principal, RentalAgreement>)
    requires StillHolds(requests, agreements, job) && Guard(u, RequestTag) !in Guards(job)
    requires forall v | v != u :: (v in requests' <==> v in requests) && (v in requests' ==> requests'[v] == requests[v])
    ensures StillHolds(requests', agreements, job)
  {
    hide HasAgreement;
  }

  /** A task that can write the request of `u` excludes all others that rely on it. */
  lemma RequestWriteKeepsChecks(w: World, id: nat, u: Principal, requests': map<Principal, RentalRequest>)
    requires Inv(w) && id in w.tasks && Guard(u, RequestTag) in Guards(w.tasks[id].job)
    requires forall v | v != u :: (v in requests' <==> v in w.st.requests) && (v in requests' ==> requests'[v] == w.st.requests[v])
    ensures forall i | i in w.tasks && i != id :: StillHolds(requests', w.st.agreements, w.tasks[i].job)
  {
    hide Inv, StillHolds, Guards;
    GuardExcludesOthers(w, id, Guard(u, RequestTag));
    forall i | i in w.tasks && i != id ensures StillHolds(requests', w.st.agreements, w.tasks[i].job) {
      StillHoldsAfterRequestWrite(w.tasks[i].job, u, w.st.requests, requests', w.st.agreements);
    }
  }

  /** The task that wrote is past its last await. */
  lemma CloseKeepsPoints(w: World, id: nat, requests': map<Principal, RentalRequest>, agreements': map<Principal, RentalAgreement>)
    requires Inv(w) && id in w.tasks
    requires forall i | i in w.tasks && i != id :: StillHolds(requests', agreements', w.tasks[i].job)
    ensures var tasks' := w.tasks[id := Task(Closing(Guards(w.tasks[id].job)), Returned, Pending)];
            Base(w.st.locks, tasks') && Clocks(w.now, tasks') && ChecksHold(requests', agreements', tasks')
  {
    hide LocksAreHeld, Lifecycle, CyclesConserved, Backing, Spending, Audit, ChecksHold, IcpInFlight, CyclesInFlight;
    var t := Task(Closing(Guards(w.tasks[id].job)), Returned, Pending);
    SwapKeepsPoints(w, id, t);
    assert ChecksHold(requests', agreements', w.tasks[id := t]) by {
      ChecksFrom(requests', agreements', w.tasks, id, t);
    }
  }

  lemma ChecksFrom(
      requests: map<Principal, RentalRequest>, agreements: map<Principal, RentalAgreement>, tasks: map<nat, Task>, id: nat, t: Task)
    requires forall i | i in tasks && i != id :: StillHolds(requests, agreements, tasks[i].job)
    requires StillHolds(requests, agreements, t.job)
    ensures ChecksHold(requests, agreements, tasks[id := t])
  {
    hide StillHolds;
  }

  /** Recording a conversion: it is no longer in flight, and all but the recorded amount is lost. */
  lemma CloseSettles(w: World, id: nat, account: Principal, amount: nat)
    requires id in w.tasks && Account(w.tasks[id].call) == account
    requires IcpInFlight(w.tasks[id], account) == Debit(amount)
    ensures var w' := Close(w, id, account, amount);
            && Astray(w'.book.lost, w'.tasks, account) + amount == Astray(w.book.lost, w.tasks, account)
            && (forall u | u != account :: Astray(w'.book.lost, w'.tasks, u) == Astray(w.book.lost, w.tasks, u))
            && FlyingCycles(w'.tasks) + CyclesInFlight(w.tasks[id]) == FlyingCycles(w.tasks)
            && At(w.book.lost, account) + Debit(amount) <= Astray(w.book.lost, w.tasks, account)
  {
    hide FlyingIcp, FlyingCycles, Guards;
    FlightIsOneAccounts(w.tasks[id]);
    TaskSet(w.tasks, id, Task(Closing(Guards(w.tasks[id].job)), Returned, Pending));
  }

  /** For users whose money is untouched, the spending equations carry over. */
  lemma SpendingOfOthers(w: World, w': World, u: Principal)
    requires Spending(w.st.requests, w.st.agreements, w.st.log, w.book, w.tasks)
    requires w'.book.spent == w.book.spent
    requires forall v | v != u :: Astray(w'.book.lost, w'.tasks, v) == Astray(w.book.lost, w.tasks, v)
    ensures forall v | v in w.st.requests && w.st.requests[v].user != u :: RequestSpending(w.st.requests[v], w'.book, w'.tasks)
    ensures forall s | s in w.st.agreements && w.st.agreements[s].user != u && s in w'.book.births
                       && s in w.book.births && w'.book.births[s] == w.book.births[s] && w.st.agreements[s].subnetId == s
                       && PaymentTrail(EventsOf(w'.st.log, Some(s))) == PaymentTrail(EventsOf(w.st.log, Some(s))) ::
              AgreementSpending(w.st.agreements[s], w'.st.log, w'.book, w'.tasks)
    ensures forall i | i in w.tasks && (w.tasks[i].job.RentalJob? ==> w.tasks[i].job.user != u) ::
              RentalSpending(w.tasks[i], w'.book, w'.tasks)
  {
    hide Astray, At, PaymentTrail, EventsOf;
    forall i | i in w.tasks && (w.tasks[i].job.RentalJob? ==> w.tasks[i].job.user != u)
      ensures RentalSpending(w.tasks[i], w'.book, w'.tasks)
    {
      assert RentalSpending(w.tasks[i], w.book, w.tasks);
    }
  }

  lemma BackingOfOthers(w: World, w': World, id: nat, u: Principal)
    requires Inv(w) && id in w.tasks && w'.icp == w.icp
    requires forall v | v != u :: Astray(w'.book.lost, w'.tasks, v) == Astray(w.book.lost, w.tasks, v)
    requires forall i | i in w.tasks && i != id :: i in w'.tasks && w'.tasks[i] == w.tasks[i]
    requires PaidRefund(w.tasks[id]) ==> w.tasks[id].job.user == u
    ensures forall v | v in w.st.requests && v != u && !RefundPaid(w'.tasks, v) :: Backed(w.st.requests[v], w'.icp, w'.book.lost, w'.tasks)
    ensures forall i | i in w.tasks && i != id :: RentalFunded(w'.tasks[i], w'.icp)
  {
    hide Base, ChecksHold, CyclesConserved, Spending, Audit, Clocks, Astray, At, RentalFunded, RefundPaid, HasAgreement;
    RefundsStayPaid(w.tasks, w'.tasks, id);
  }

  /** Writing one user's request: only that user's trail has to be looked at. */
  lemma AuditRequestWrite(
      requests: map<Principal, RentalRequest>, requests': map<Principal, RentalRequest>,
      agreements: map<Principal, RentalAgreement>, log: Log, log': Log,
      births: map<Principal, Birth>, now: nat, u: Principal)
    requires Audit(requests, agreements, log, births, now)
    requires forall v | v in requests :: requests[v].user == v
    requires forall v | v != u :: (v in requests' <==> v in requests) && (v in requests' ==> requests'[v] == requests[v])
    requires forall k | k != Some(u) :: RequestTrail(EventsOf(log', k)) == RequestTrail(EventsOf(log, k))
    requires forall k :: PaymentTrail(EventsOf(log', k)) == PaymentTrail(EventsOf(log, k))
    requires u in requests' ==> RequestAudited(requests'[u], log', now)
    requires RequestTrail(EventsOf(log', Some(u))).LockedUp? <==> u in requests' || HasAgreement(agreements, u)
    ensures Audit(requests', agreements, log', births, now)
  {
    hide RequestTrail, PaymentTrail, EventsOf, RequestAudited, AgreementAudited, TrailsAreLive;
    forall v | v in requests' ensures RequestAudited(requests'[v], log', now) {
      if v != u {
        OtherTrail(requests[v], log, log', now);
      }
    }
    forall s | s in agreements ensures AgreementAudited(agreements[s], log', births) {
      OtherPayments(agreements[s], log, log', births);
    }
    TrailsLiveAfterRequestWrite(requests, requests', agreements, log, log', u);
  }

  lemma OtherTrail(r: RentalRequest, log: Log, log': Log, now: nat)
    requires RequestTrail(EventsOf(log', Some(r.user))) == RequestTrail(EventsOf(log, Some(r.user)))
    requires RequestAudited(r, log, now)
    ensures RequestAudited(r, log', now)
  {
    hide RequestTrail, EventsOf, OnSchedule;
  }

  lemma OtherPayments(a: RentalAgreement, log: Log, log': Log, births: map<Principal, Birth>)
    requires PaymentTrail(EventsOf(log', Some(a.subnetId))) == PaymentTrail(EventsOf(log, Some(a.subnetId)))
    requires AgreementAudited(a, log, births)
    ensures AgreementAudited(a, log', births)
  {
    hide PaymentTrail, EventsOf;
  }

  lemma TrailsLiveAfterRequestWrite(
      requests: map<Principal, RentalRequest>, requests': map<Principal, RentalRequest>,
      agreements: map<Principal, RentalAgreement>, log: Log, log': Log, u: Principal)
    requires TrailsAreLive(requests, agreements, log)
    requires forall v | v != u :: v in requests' <==> v in requests
    requires forall k | k != Some(u) :: RequestTrail(EventsOf(log', k)) == RequestTrail(EventsOf(log, k))
    requires RequestTrail(EventsOf(log', Some(u))).LockedUp? <==> u in requests' || HasAgreement(agreements, u)
    ensures TrailsAreLive(requests', agreements, log')
  {
    hide RequestTrail, EventsOf, HasAgreement;
  }

  // ---------------------------------------------------------------- rental request

  lemma OnlyConverter(w: World, i: nat, id: nat)
    requires Inv(w) && i in w.tasks && id in w.tasks && i != id && w.tasks[i].job.RentalJob?
    ensures IcpInFlight(w.tasks[id], w.tasks[i].job.user) == 0
  {
    hide CyclesConserved, Backing, Spending, Audit, Clocks;
    var user := w.tasks[i].job.user;
    assert AtProgramPoint(w.tasks[id]) && StillHolds(w.st.requests, w.st.agreements, w.tasks[id].job);
    assert StillHolds(w.st.requests, w.st.agreements, w.tasks[i].job);
    assert Guard(user, RequestTag) in Guards(w.tasks[i].job);
    assert Guard(user, RequestTag) !in Guards(w.tasks[id].job);
  }

  lemma NothingInFlight(w: World, id: nat)
    requires Inv(w) && id in w.tasks && w.tasks[id].job.RentalJob? && w.tasks[id].call.BalanceCall?
    ensures FlyingIcp(w.tasks, w.tasks[id].job.user) == 0
  {
    hide Inv;
    var user := w.tasks[id].job.user;
    forall i | i in w.tasks ensures Converting(w.tasks, user)[i] == 0 {
      if i != id {
        OnlyConverter(w, id, i);
      }
    }
    SumOfZeros(Converting(w.tasks, user));
  }

  predicate BooksStartOver(w: World, id: nat, book': Book) {
    && id in w.tasks && w.tasks[id].job.RentalJob? && w.tasks[id].call.BalanceCall?
    && var u := w.tasks[id].job.user;
       book' == w.book.(spent := w.book.spent[u := 0], lost := w.book.lost[u := 0])
  }

  lemma FreshBooksSpending(w: World, id: nat, book': Book)
    requires Inv(w) && BooksStartOver(w, id, book')
    ensures Spending(w.st.requests, w.st.agreements, w.st.log, book', w.tasks)
    ensures RentalSpending(w.tasks[id].(call := CmcTransfer(w.tasks[id].job.user, 0)), book', w.tasks)
  {
    hide Base, CyclesConserved, Backing, Audit, Clocks, FlyingIcp, PaymentTrail, EventsOf;
    var u := w.tasks[id].job.user;
    NothingInFlight(w, id);
    assert StillHolds(w.st.requests, w.st.agreements, w.tasks[id].job);
    forall i | i in w.tasks ensures RentalSpending(w.tasks[i], book', w.tasks) {
      assert RentalSpending(w.tasks[i], w.book, w.tasks);
    }
  }

  lemma FreshBooksBacking(w: World, id: nat, book': Book)
    requires Inv(w) && BooksStartOver(w, id, book')
    ensures Backing(w.st.requests, w.icp, book'.lost, w.tasks)
  {
    hide Base, CyclesConserved, Spending, Audit, Clocks, FlyingIcp, RefundPaid, RentalFunded, HasAgreement;
    assert StillHolds(w.st.requests, w.st.agreements, w.tasks[id].job);
  }

  /** The books of a user who starts a proposal concern nobody else. */
  lemma FreshBooks(w: World, id: nat, book': Book)
    requires Inv(w) && BooksStartOver(w, id, book')
    ensures Inv(w.(book := book'))
    ensures RentalSpending(w.tasks[id].(call := CmcTransfer(w.tasks[id].job.user, 0)), book', w.tasks)
  {
    hide Base, Lifecycle, ChecksHold, Backing, Spending, Audit, Clocks, RentalSpending;
    FreshBooksSpending(w, id, book');
    FreshBooksBacking(w, id, book');
  }

  /** The facts a rental proposal has at hand when its first tenth has been minted. */
  lemma RentalAtHand(w: World, id: nat)
    requires Inv(w) && id in w.tasks && w.tasks[id].job.RentalJob? && w.tasks[id].call.NotifyCall?
    ensures var RentalJob(u, _, _, needed) := w.tasks[id].job;
            && w.tasks[id].call.account == u && w.tasks[id].call.amount == needed / 10 && needed <= U64_MAX
            && u !in w.st.requests && !HasAgreement(w.st.agreements, u)
            && needed <= At(w.icp, u) + Debit(needed / 10)
            && At(w.book.spent, u) == Astray(w.book.lost, w.tasks, u)
            && w.now <= U64_MAX
            && (forall v | v in w.st.requests :: w.st.requests[v].user == v)
            && (forall s | s in w.st.agreements :: w.st.agreements[s].subnetId == s && w.st.agreements[s].user != u)
            && (forall i | i in w.tasks && i != id && w.tasks[i].job.RentalJob? :: w.tasks[i].job.user != u)
  {
    hide CyclesConserved, Audit, Astray, Backed, RefundPaid, RequestSpending, AgreementSpending;
    assert AtProgramPoint(w.tasks[id]) && StillHolds(w.st.requests, w.st.agreements, w.tasks[id].job);
    assert RentalFunded(w.tasks[id], w.icp) && RentalSpending(w.tasks[id], w.book, w.tasks);
    assert Guard(w.tasks[id].job.user, RequestTag) in Guards(w.tasks[id].job);
  }

  predicate CanOpen(w: World, id: nat, r: RentalRequest) {
    && id in w.tasks && w.tasks[id].job.RentalJob?
    && w.tasks[id].call.NotifyCall? && w.tasks[id].reply.Minted?
    && var RentalJob(u, condition, proposal, needed) := w.tasks[id].job;
       r == NewRequest(u, condition, proposal, needed, w.tasks[id].reply.cycles, w.now)
  }

  function Opened(w: World, id: nat, r: RentalRequest): World
    requires CanOpen(w, id, r) && r.user !in w.st.requests
  {
    OpenRequest(w, id, FinishRequest(w.st, r, w.tasks[id].call.block, w.now).value)
  }

  lemma OpenedLog(w: World, id: nat, r: RentalRequest)
    requires CanOpen(w, id, r) && r.user !in w.st.requests
    ensures var log' := Opened(w, id, r).st.log;
            && RequestTrail(EventsOf(log', Some(r.user))) == LockedUp(r.lockedAmountIcp, r.lockedAmountCycles, 1)
            && (forall k | k != Some(r.user) :: RequestTrail(EventsOf(log', k)) == RequestTrail(EventsOf(w.st.log, k)))
            && (forall k :: PaymentTrail(EventsOf(log', k)) == PaymentTrail(EventsOf(w.st.log, k)))
  {
    hide RequestTrail, PaymentTrail, EventsOf, Append;
    var transfer := TransferSuccess(r.lockedAmountIcp, w.tasks[id].call.block);
    ReplayAppend(w.st.log, Some(r.user), transfer, w.now);
    ReplayAppend(Append(w.st.log, Some(r.user), transfer, w.now), Some(r.user), RentalRequestCreated(r), w.now);
  }

  lemma OpenKeepsPoints(w: World, id: nat, r: RentalRequest)
    requires Inv(w) && CanOpen(w, id, r) && r.user !in w.st.requests
    ensures var w' := Opened(w, id, r);
            && Base(w'.st.locks, w'.tasks) && Clocks(w'.now, w'.tasks)
            && ChecksHold(w'.st.requests, w'.st.agreements, w'.tasks)
  {
    hide Inv, Base, Clocks, ChecksHold, Append;
    RequestWriteKeepsChecks(w, id, r.user, w.st.requests[r.user := r]);
    CloseKeepsPoints(w, id, w.st.requests[r.user := r], w.st.agreements);
  }

  lemma OpenSettles(w: World, id: nat, r: RentalRequest)
    requires Inv(w) && CanOpen(w, id, r) && r.user !in w.st.requests
    ensures var w' := Opened(w, id, r);
            && Astray(w'.book.lost, w'.tasks, r.user) + r.lockedAmountIcp == Astray(w.book.lost, w.tasks, r.user)
            && (forall v | v != r.user :: Astray(w'.book.lost, w'.tasks, v) == Astray(w.book.lost, w.tasks, v))
            && FlyingCycles(w'.tasks) + r.lockedAmountCycles == FlyingCycles(w.tasks)
            && Debit(r.lockedAmountIcp) <= Astray(w.book.lost, w.tasks, r.user)
  {
    hide Inv, Append;
    RentalAtHand(w, id);
    CloseSettles(w, id, r.user, r.lockedAmountIcp);
  }

  lemma OpenKeepsCycles(w: World, id: nat, r: RentalRequest)
    requires Inv(w) && CanOpen(w, id, r) && r.user !in w.st.requests
    ensures var w' := Opened(w, id, r); CyclesConserved(w'.st.requests, w'.st.agreements, w'.tasks, w'.cycles, w'.book)
  {
    hide Base, Lifecycle, ChecksHold, Clocks, Backing, Spending, Audit, Sound, Append, Astray;
    hide FlyingCycles, LockedCycles, CreatedCycles, UnburnedCycles;
    OpenSettles(w, id, r);
    RequestSet(w.st.requests, r.user, r);
  }

  lemma OpenKeepsBacking(w: World, id: nat, r: RentalRequest)
    requires Inv(w) && CanOpen(w, id, r) && r.user !in w.st.requests
    ensures var w' := Opened(w, id, r);
            && Backing(w'.st.requests, w'.icp, w'.book.lost, w'.tasks)
            && Spending(w'.st.requests, w'.st.agreements, w'.st.log, w'.book, w'.tasks)
  {
    hide Inv, Audit, Lifecycle, Append, RequestTrail, PaymentTrail, EventsOf, HasAgreement, Astray, RefundPaid, RentalFunded;
    hide RentalSpending;
    var w' := Opened(w, id, r);
    RentalAtHand(w, id);
    OpenedLog(w, id, r);
    OpenSettles(w, id, r);
    SpendingOfOthers(w, w', r.user) by { Parts(w); }
    BackingOfOthers(w, w', id, r.user);
    ClosedHasNoConversion(w', id);
    AgreementsAreBorn(w);
  }

  lemma Parts(w: World)
    requires Inv(w)
    ensures Spending(w.st.requests, w.st.agreements, w.st.log, w.book, w.tasks)
    ensures Lifecycle(w.st.requests, w.st.agreements)
    ensures Audit(w.st.requests, w.st.agreements, w.st.log, w.book.births, w.now)
  {
    hide Spending, Lifecycle, Audit;
  }

  lemma AgreementsAreBorn(w: World)
    requires Inv(w)
    ensures forall s | s in w.st.agreements :: s in w.book.births && w.st.agreements[s].subnetId == s
    ensures forall u | u in w.st.requests :: w.st.requests[u].user == u
  {
    hide Base, ChecksHold, CyclesConserved, Backing, Spending, PaymentTrail, RequestTrail, EventsOf, OnSchedule, HasAgreement;
  }

  lemma ClosedHasNoConversion(w: World, id: nat)
    requires id in w.tasks && w.tasks[id].job.Closing?
    ensures RentalFunded(w.tasks[id], w.icp) && RentalSpending(w.tasks[id], w.book, w.tasks)
  {
  }

  lemma OpenKeepsAudit(w: World, id: nat, r: RentalRequest)
    requires Inv(w) && CanOpen(w, id, r) && r.user !in w.st.requests
    ensures var w' := Opened(w, id, r);
            && Lifecycle(w'.st.requests, w'.st.agreements)
            && Audit(w'.st.requests, w'.st.agreements, w'.st.log, w'.book.births, w'.now)
  {
    hide Inv, Audit, Append, RequestTrail, PaymentTrail, EventsOf;
    var w' := Opened(w, id, r);
    RentalAtHand(w, id);
    OpenedLog(w, id, r);
    Parts(w);
    assert RequestAudited(r, w'.st.log, w.now);
    AuditRequestWrite(
      w.st.requests, w'.st.requests, w.st.agreements, w.st.log, w'.st.log, w.book.births, w.now, r.user) by { hide HasAgreement; }
  }

  lemma OpenRequestKeeps(w: World, id: nat, r: RentalRequest)
    requires Inv(w) && CanOpen(w, id, r)
    ensures r.user !in w.st.requests && Inv(Opened(w, id, r))
  {
    hide Base, Lifecycle, ChecksHold, Clocks, CyclesConserved, Backing, Spending, Audit, Append, Debit;
    RentalAtHand(w, id);
    OpenKeepsPoints(w, id, r);
    OpenKeepsCycles(w, id, r);
    OpenKeepsBacking(w, id, r);
    OpenKeepsAudit(w, id, r);
  }

  // ---------------------------------------------------------------- locking

  /** A due request can take another tenth, and a month has passed. */
  lemma DueForAnotherTenth(r: RentalRequest, times: nat, sweepNow: nat, now: nat)
    requires OnSchedule(r, times, now) && LockingDue(r, sweepNow)
    requires r.lastLockingTimeNanos <= sweepNow <= now <= U64_MAX
    ensures times < 10 && r.initialCostIcp >= 10
    ensures r.lockedAmountIcp + r.initialCostIcp / 10 == (times + 1) * (r.initialCostIcp / 10) <= r.initialCostIcp
    ensures r.lastLockingTimeNanos + MONTH_NANOS <= sweepNow
  {
    MulMonotone(r.initialCostIcp / 10, times + 1, 10);
  }

  predicate CanLock(w: World, id: nat) {
    && id in w.tasks && w.tasks[id].job.LockJob?
    && w.tasks[id].call.NotifyCall? && w.tasks[id].reply.Minted?
  }

  lemma LockAtHand(w: World, id: nat)
    requires Inv(w) && CanLock(w, id)
    ensures var LockJob(r, sweepNow, _) := w.tasks[id].job;
            && w.tasks[id].call.account == r.user && w.tasks[id].call.amount == r.initialCostIcp / 10
            && r.user in w.st.requests && w.st.requests[r.user] == r
            && LockingDue(r, sweepNow) && r.lastLockingTimeNanos <= sweepNow <= w.now <= U64_MAX
            && (forall v | v in w.st.requests :: w.st.requests[v].user == v)
            && (forall s | s in w.st.agreements :: w.st.agreements[s].subnetId == s && w.st.agreements[s].user != r.user)
            && (forall i | i in w.tasks && w.tasks[i].job.RentalJob? :: w.tasks[i].job.user != r.user)
  {
    hide CyclesConserved, Audit, Spending, Backing, LocksAreHeld;
    assert AtProgramPoint(w.tasks[id]) && StillHolds(w.st.requests, w.st.agreements, w.tasks[id].job);
    forall i | i in w.tasks && w.tasks[i].job.RentalJob? ensures w.tasks[i].job.user != w.tasks[id].job.request.user {
      assert StillHolds(w.st.requests, w.st.agreements, w.tasks[i].job);
    }
  }

  function Relocked(w: World, id: nat): World
    requires CanLock(w, id) && w.tasks[id].job.request.user in w.st.requests
  {
    var LockJob(r, sweepNow, _) := w.tasks[id].job;
    BookLocking(w, id, FinishLocking(w.st, r, sweepNow, w.tasks[id].call.block, w.tasks[id].reply.cycles, w.now).value)
  }

  lemma RelockedLog(w: World, id: nat)
    requires CanLock(w, id) && w.tasks[id].job.request.user in w.st.requests
    ensures var r := w.tasks[id].job.request;
            var log' := Relocked(w, id).st.log;
            && RequestTrail(EventsOf(log', Some(r.user)))
               == TrailStep(RequestTrail(EventsOf(w.st.log, Some(r.user))),
                            LockingSuccess(r.user, r.initialCostIcp / 10, w.tasks[id].reply.cycles))
            && (forall k | k != Some(r.user) :: RequestTrail(EventsOf(log', k)) == RequestTrail(EventsOf(w.st.log, k)))
            && (forall k :: PaymentTrail(EventsOf(log', k)) == PaymentTrail(EventsOf(w.st.log, k)))
  {
    hide RequestTrail, PaymentTrail, EventsOf, Append;
    var r := w.tasks[id].job.request;
    var transfer := TransferSuccess(r.initialCostIcp / 10, w.tasks[id].call.block);
    ReplayAppend(w.st.log, Some(r.user), transfer, w.now);
    ReplayAppend(
      Append(w.st.log, Some(r.user), transfer, w.now), Some(r.user),
      LockingSuccess(r.user, r.initialCostIcp / 10, w.tasks[id].reply.cycles), w.now);
  }

  /** The new record adds one tenth and the minted cycles, without saturation or wrap-around. */
  lemma RelockedRecord(w: World, id: nat)
    requires Inv(w) && CanLock(w, id) && w.tasks[id].job.request.user in w.st.requests
    ensures var r := w.tasks[id].job.request;
            var r' := Relocked(w, id).st.requests[r.user];
            && r' == r.(lockedAmountIcp := r.lockedAmountIcp + r.initialCostIcp / 10,
                        lockedAmountCycles := r.lockedAmountCycles + w.tasks[id].reply.cycles,
                        lastLockingTimeNanos := w.tasks[id].job.sweepNow)
            && RequestAudited(r', Relocked(w, id).st.log, w.now)
            && Relocked(w, id).st.requests == w.st.requests[r.user := r']
  {
    hide Base, ChecksHold, Lifecycle, Spending, Backing, Clocks, RequestTrail, PaymentTrail, EventsOf, Append;
    hide FlyingCycles, LockedCycles, CreatedCycles, UnburnedCycles, Sound, LockingDue;
    LockAtHand(w, id);
    var r := w.tasks[id].job.request;
    var trail := RequestTrail(EventsOf(w.st.log, Some(r.user)));
    assert RequestAudited(r, w.st.log, w.now);
    DueForAnotherTenth(r, trail.times, w.tasks[id].job.sweepNow, w.now);
    RequestSet(w.st.requests, r.user, r.(lockedAmountCycles := 0));
    TaskSet(w.tasks, id, w.tasks[id].(reply := Pending));
    RelockedLog(w, id);
  }

  lemma RelockSettles(w: World, id: nat)
    requires Inv(w) && CanLock(w, id) && w.tasks[id].job.request.user in w.st.requests
    ensures var w' := Relocked(w, id);
            var r := w.tasks[id].job.request;
            && Astray(w'.book.lost, w'.tasks, r.user) + r.initialCostIcp / 10 == Astray(w.book.lost, w.tasks, r.user)
            && (forall v | v != r.user :: Astray(w'.book.lost, w'.tasks, v) == Astray(w.book.lost, w.tasks, v))
            && FlyingCycles(w'.tasks) + w.tasks[id].reply.cycles == FlyingCycles(w.tasks)
  {
    hide Inv, Append;
    LockAtHand(w, id);
    CloseSettles(w, id, w.tasks[id].job.request.user, w.tasks[id].job.request.initialCostIcp / 10);
  }

  lemma RelockKeepsPoints(w: World, id: nat)
    requires Inv(w) && CanLock(w, id) && w.tasks[id].job.request.user in w.st.requests
    ensures var w' := Relocked(w, id);
            && Base(w'.st.locks, w'.tasks) && Clocks(w'.now, w'.tasks)
            && ChecksHold(w'.st.requests, w'.st.agreements, w'.tasks)
  {
    hide Inv, Base, Clocks, ChecksHold, Append, LockedOnce;
    RequestWriteKeepsChecks(w, id, w.tasks[id].job.request.user, Relocked(w, id).st.requests);
    CloseKeepsPoints(w, id, Relocked(w, id).st.requests, w.st.agreements);
  }

  lemma RelockKeepsCycles(w: World, id: nat)
    requires Inv(w) && CanLock(w, id) && w.tasks[id].job.request.user in w.st.requests
    ensures var w' := Relocked(w, id); CyclesConserved(w'.st.requests, w'.st.agreements, w'.tasks, w'.cycles, w'.book)
  {
    hide Base, Lifecycle, ChecksHold, Clocks, Backing, Spending, Audit, Sound, Append, Astray, LockedOnce, RequestAudited;
    hide FlyingCycles, LockedCycles, CreatedCycles, UnburnedCycles;
    LockAtHand(w, id);
    RelockedRecord(w, id);
    RelockSettles(w, id);
    RequestSet(w.st.requests, w.tasks[id].job.request.user, Relocked(w, id).st.requests[w.tasks[id].job.request.user]);
  }

  lemma RelockKeepsBacking(w: World, id: nat)
    requires Inv(w) && CanLock(w, id) && w.tasks[id].job.request.user in w.st.requests
    ensures var w' := Relocked(w, id);
            && Backing(w'.st.requests, w'.icp, w'.book.lost, w'.tasks)
            && Spending(w'.st.requests, w'.st.agreements, w'.st.log, w'.book, w'.tasks)
  {
    hide Inv, Audit, Lifecycle, Append, RequestTrail, PaymentTrail, EventsOf, HasAgreement, Astray, RefundPaid, RentalFunded;
    hide RentalSpending, LockedOnce, RequestAudited, LockingDue, Guards, SatAdd64, Debit;
    var w' := Relocked(w, id);
    var u := w.tasks[id].job.request.user;
    LockAtHand(w, id);
    RelockedRecord(w, id);
    RelockedLog(w, id);
    RelockSettles(w, id);
    SpendingOfOthers(w, w', u) by { Parts(w); }
    BackingOfOthers(w, w', id, u);
    ClosedHasNoConversion(w', id);
    AgreementsAreBorn(w);
    BackingBefore(w, u);
    RefundsStayPaid(w.tasks, w'.tasks, id);
  }

  lemma BackingBefore(w: World, u: Principal)
    requires Inv(w) && u in w.st.requests
    ensures RefundPaid(w.tasks, u) || Backed(w.st.requests[u], w.icp, w.book.lost, w.tasks)
    ensures RequestSpending(w.st.requests[u], w.book, w.tasks)
  {
    hide Base, Lifecycle, ChecksHold, CyclesConserved, Audit, Clocks, Backed, RequestSpending, RefundPaid;
  }

  lemma RelockKeeps(w: World, id: nat)
    requires Inv(w) && CanLock(w, id)
    ensures w.tasks[id].job.request.user in w.st.requests && Inv(Relocked(w, id))
  {
    hide Base, ChecksHold, Clocks, CyclesConserved, Backing, Spending, Audit, Append, Debit, LockedOnce, RequestAudited, LockingDue;
    hide RequestTrail, PaymentTrail, EventsOf, HasAgreement;
    LockAtHand(w, id);
    var u := w.tasks[id].job.request.user;
    var w' := Relocked(w, id);
    RelockKeepsPoints(w, id);
    RelockKeepsCycles(w, id);
    RelockKeepsBacking(w, id);
    RelockedRecord(w, id);
    RelockedLog(w, id);
    LiveTrails(w);
    AuditRequestWrite(w.st.requests, w'.st.requests, w.st.agreements, w.st.log, w'.st.log, w.book.births, w.now, u);
  }

  // ---------------------------------------------------------------- refund

  predicate CanCancel(w: World, id: nat) {
    && id in w.tasks && w.tasks[id].job.RefundJob?
    && w.tasks[id].call.RefundTransfer? && w.tasks[id].reply.Block?
  }

  function Cancelled(w: World, id: nat): World
    requires CanCancel(w, id)
  {
    CancelRequest(w, id, w.tasks[id].call.amount, w.tasks[id].reply.index)
  }

  lemma CancelledLog(w: World, id: nat)
    requires CanCancel(w, id)
    ensures var u := w.tasks[id].job.user;
            var log' := Cancelled(w, id).st.log;
            && RequestTrail(EventsOf(log', Some(u)))
               == (if u in w.st.requests then NoRequest else RequestTrail(EventsOf(w.st.log, Some(u))))
            && (forall k | k != Some(u) :: RequestTrail(EventsOf(log', k)) == RequestTrail(EventsOf(w.st.log, k)))
            && (forall k :: PaymentTrail(EventsOf(log', k)) == PaymentTrail(EventsOf(w.st.log, k)))
  {
    hide RequestTrail, PaymentTrail, EventsOf, Append;
    var u := w.tasks[id].job.user;
    var transfer := TransferSuccess(w.tasks[id].call.amount, w.tasks[id].reply.index);
    ReplayAppend(w.st.log, Some(u), transfer, w.now);
    if u in w.st.requests {
      ReplayAppend(
        Append(w.st.log, Some(u), transfer, w.now), Some(u), RentalRequestCancelled(w.st.requests[u]), w.now);
    }
  }

  lemma CancelKeepsPoints(w: World, id: nat)
    requires Inv(w) && CanCancel(w, id)
    ensures var w' := Cancelled(w, id);
            && Base(w'.st.locks, w'.tasks) && Clocks(w'.now, w'.tasks)
            && ChecksHold(w'.st.requests, w'.st.agreements, w'.tasks)
  {
    hide Inv, Base, Clocks, ChecksHold, Append;
    RequestWriteKeepsChecks(w, id, w.tasks[id].job.user, Cancelled(w, id).st.requests);
    CloseKeepsPoints(w, id, Cancelled(w, id).st.requests, w.st.agreements);
  }

  lemma CancelKeepsMoney(w: World, id: nat)
    requires Inv(w) && CanCancel(w, id)
    ensures var w' := Cancelled(w, id);
            && CyclesConserved(w'.st.requests, w'.st.agreements, w'.tasks, w'.cycles, w'.book)
            && (forall v :: Astray(w'.book.lost, w'.tasks, v) == Astray(w.book.lost, w.tasks, v))
  {
    hide Base, Lifecycle, ChecksHold, Clocks, Backing, Spending, Audit, Sound, Append;
    hide FlyingCycles, FlyingIcp, LockedCycles, CreatedCycles, UnburnedCycles;
    TaskSet(w.tasks, id, Cancelled(w, id).tasks[id]);
    if w.tasks[id].job.user in w.st.requests {
      RequestRemoved(w.st.requests, w.tasks[id].job.user);
    }
  }

  lemma CancelKeepsBacking(w: World, id: nat)
    requires Inv(w) && CanCancel(w, id)
    ensures var w' := Cancelled(w, id);
            && Backing(w'.st.requests, w'.icp, w'.book.lost, w'.tasks)
            && Spending(w'.st.requests, w'.st.agreements, w'.st.log, w'.book, w'.tasks)
  {
    hide Inv, Audit, Lifecycle, Append, RequestTrail, PaymentTrail, EventsOf, HasAgreement, Astray, RefundPaid, RentalFunded;
    hide RentalSpending, CyclesConserved;
    var w' := Cancelled(w, id);
    CancelledLog(w, id);
    CancelKeepsMoney(w, id);
    BackingOfOthers(w, w', id, w.tasks[id].job.user);
    ClosedHasNoConversion(w', id);
    Parts(w);
    SpendingKept(w.st.requests, w.st.agreements, w.st.log, w.book, w'.book, w.tasks, w'.tasks) by {
      SpendingOfTasks(w, w');
    }
  }

  lemma SpendingOfTasks(w: World, w': World)
    requires Inv(w) && w'.book.spent == w.book.spent
    requires forall v :: Astray(w'.book.lost, w'.tasks, v) == Astray(w.book.lost, w.tasks, v)
    ensures forall i | i in w.tasks :: RentalSpending(w.tasks[i], w'.book, w'.tasks)
  {
    hide Base, Lifecycle, ChecksHold, CyclesConserved, Backing, Audit, Clocks, Astray;
    forall i | i in w.tasks ensures RentalSpending(w.tasks[i], w'.book, w'.tasks) {
      assert RentalSpending(w.tasks[i], w.book, w.tasks);
    }
  }

  lemma LiveTrails(w: World)
    requires Inv(w)
    ensures forall u ::
              RequestTrail(EventsOf(w.st.log, Some(u))).LockedUp?
              <==> u in w.st.requests || HasAgreement(w.st.agreements, u)
  {
    hide Base, Lifecycle, ChecksHold, CyclesConserved, Backing, Spending, Clocks, RequestAudited, AgreementAudited;
    hide RequestTrail, PaymentTrail, EventsOf, HasAgreement;
  }

  /** A request or an agreement of the user shows in the user's trail. */
  lemma CustomerHasTrail(w: World, u: Principal)
    requires Inv(w)
    requires u in w.st.requests || exists s :: s in w.st.agreements && w.st.agreements[s].user == u
    ensures RequestTrail(EventsOf(w.st.log, Some(u))).LockedUp?
  {
    hide Inv, RequestTrail, EventsOf;
    LiveTrails(w);
  }

  lemma CancelRequestKeeps(w: World, id: nat)
    requires Inv(w) && CanCancel(w, id)
    ensures Inv(Cancelled(w, id))
  {
    hide Base, ChecksHold, Clocks, CyclesConserved, Backing, Spending, Audit, Append;
    hide RequestTrail, PaymentTrail, EventsOf, HasAgreement;
    var u := w.tasks[id].job.user;
    var w' := Cancelled(w, id);
    CancelKeepsPoints(w, id);
    CancelKeepsMoney(w, id);
    CancelKeepsBacking(w, id);
    CancelledLog(w, id);
    LiveTrails(w);
    AuditRequestWrite(w.st.requests, w'.st.requests, w.st.agreements, w.st.log, w'.st.log, w.book.births, w.now, u);
  }
}
