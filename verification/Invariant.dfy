/** What holds of every reachable world, in parts. */
module Invariant {
  import opened Types
  import opened History
  import opened Sums
  import opened Burning
  import opened State
  import opened World

  // ---------------------------------------------------------------- totals

  function LockedBy(requests: map<Principal, RentalRequest>): map<Principal, nat> {
    map u | u in requests :: requests[u].lockedAmountCycles
  }

  function Created(agreements: map<Principal, RentalAgreement>): map<Principal, nat> {
    map s | s in agreements :: agreements[s].totalCyclesCreated
  }

  function Unburned(agreements: map<Principal, RentalAgreement>): map<Principal, nat> {
    map s | s in agreements :: agreements[s].Remaining()
  }

  function Flying(tasks: map<nat, Task>): map<nat, nat> {
    map id | id in tasks :: CyclesInFlight(tasks[id])
  }

  function Converting(tasks: map<nat, Task>, user: Principal): map<nat, nat> {
    map id | id in tasks :: IcpInFlight(tasks[id], user)
  }

  ghost function LockedCycles(requests: map<Principal, RentalRequest>): nat { Sum(LockedBy(requests)) }

  ghost function CreatedCycles(agreements: map<Principal, RentalAgreement>): nat { Sum(Created(agreements)) }

  ghost function UnburnedCycles(agreements: map<Principal, RentalAgreement>): nat { Sum(Unburned(agreements)) }

  /** Minted for a task in flight and not recorded yet. */
  ghost function FlyingCycles(tasks: map<nat, Task>): nat { Sum(Flying(tasks)) }

  /** Debited from the user's subaccount by conversions in flight. */
  ghost function FlyingIcp(tasks: map<nat, Task>, user: Principal): nat { Sum(Converting(tasks, user)) }

  // ---------------------------------------------------------------- locks and program points

  /** The lock set is the disjoint union of the guards of the live tasks. */
  ghost predicate LocksAreHeld(locks: set<Guard>, tasks: map<nat, Task>) {
    && (forall id | id in tasks :: Guards(tasks[id].job) <= locks)
    && (forall i, j | i in tasks && j in tasks && i != j :: Guards(tasks[i].job) !! Guards(tasks[j].job))
    && (forall g | g in locks :: exists id :: id in tasks && g in Guards(tasks[id].job))
  }

  predicate ReplyFits(call: Call, reply: Reply) {
    match reply
    case Pending => true
    case CallFailed => !call.Returned?
    case Rate(_, _) => call.XrcCall?
    case RateError => call.XrcCall?
    case Balance(_) => call.BalanceCall?
    case Block(_) => call.CmcTransfer? || call.RefundTransfer?
    case TransferError => call.CmcTransfer? || call.RefundTransfer?
    case Minted(_) => call.NotifyCall?
    case NotifyError => call.NotifyCall?
    case Done => call.AuthorizeCall? || call.AdminsCall?
  }

  predicate Converts(call: Call, account: Principal, amount: nat) {
    match call
    case CmcTransfer(a, n) => a == account && n == amount
    case NotifyCall(a, n, _) => a == account && n == amount
    case _ => false
  }

  /** The draft kept over the last await of an agreement's creation. */
  predicate DraftFits(a: RentalAgreement, user: Principal, subnet: Principal, r: RentalRequest, cycles: nat) {
    && a.user == user && a.subnetId == subnet
    && a.rentalRequestProposalId == r.initialProposalId && a.rentalConditionId == r.rentalConditionId
    && a.totalIcpPaid == r.initialCostIcp
    && a.totalCyclesCreated == SatAdd128(cycles, r.lockedAmountCycles)
    && a.totalCyclesBurned == 0
    && a.paidUntilNanos == CreationDeadline(a.creationTimeNanos, INITIAL_RENTAL_PERIOD_DAYS)
  }

  /** The calls a job can be suspended on, with the amounts it makes them for. */
  predicate AtProgramPoint(t: Task) {
    && ReplyFits(t.call, t.reply)
    && match t.job
       case RentalJob(user, _, _, needed) =>
         needed <= U64_MAX &&
         (t.call.XrcCall? || t.call == BalanceCall(user) || Converts(t.call, user, needed / 10))
       case CreateJob(user, subnet, _, r, draft) =>
         var rest := SatSub(r.initialCostIcp, r.lockedAmountIcp);
         || Converts(t.call, user, rest)
         || (t.call.AuthorizeCall? && t.call.account == user && t.call.amount == rest
             && draft.Some? && DraftFits(draft.value, user, subnet, r, t.call.cycles))
       case RefundJob(user) =>
         t.call == BalanceCall(user) || (t.call.RefundTransfer? && t.call.account == user)
       case TopUpJob(_, a, balance) =>
         t.call == BalanceCall(a.user) || (balance >= DEFAULT_FEE && Converts(t.call, a.user, balance - DEFAULT_FEE))
       case LockJob(r, sweepNow, rest) =>
         && Converts(t.call, r.user, r.initialCostIcp / 10)
         && LockingDue(r, sweepNow) && r.lastLockingTimeNanos <= sweepNow
         && (forall c | c in rest :: c.lastLockingTimeNanos <= sweepNow)
       case PriceJob => t.call.XrcCall?
       case EstimateJob => t.call.XrcCall?
       case AdminsJob(_) => t.call.AdminsCall?
       case Closing(_) => t.call.Returned?
  }

  ghost predicate Base(locks: set<Guard>, tasks: map<nat, Task>) {
    && LocksAreHeld(locks, tasks)
    && forall id | id in tasks :: AtProgramPoint(tasks[id])
  }

  // ---------------------------------------------------------------- lifecycle

  ghost predicate Lifecycle(requests: map<Principal, RentalRequest>, agreements: map<Principal, RentalAgreement>) {
    && (forall u | u in requests :: requests[u].user == u && !HasAgreement(agreements, u))
    && (forall s | s in agreements :: agreements[s].subnetId == s)
    && (forall s, s' | s in agreements && s' in agreements && agreements[s].user == agreements[s'].user :: s == s')
  }

  /** What a job checked or read before its awaits and may rely on after them. */
  ghost predicate StillHolds(requests: map<Principal, RentalRequest>, agreements: map<Principal, RentalAgreement>, job: Job) {
    match job
    case RentalJob(user, _, _, _) => user !in requests && !HasAgreement(agreements, user)
    case CreateJob(user, subnet, _, r, _) => user in requests && requests[user] == r && subnet !in agreements
    case TopUpJob(subnet, a, _) => subnet in agreements && agreements[subnet] == a
    case LockJob(r, _, _) => r.user in requests && requests[r.user] == r
    case _ => true
  }

  ghost predicate ChecksHold(requests: map<Principal, RentalRequest>, agreements: map<Principal, RentalAgreement>, tasks: map<nat, Task>) {
    forall id | id in tasks :: StillHolds(requests, agreements, tasks[id].job)
  }

  // ---------------------------------------------------------------- cycles

  ghost predicate CyclesConserved(
      requests: map<Principal, RentalRequest>, agreements: map<Principal, RentalAgreement>,
      tasks: map<nat, Task>, cycles: nat, book: Book)
  {
    var locked := LockedCycles(requests);
    var flying := FlyingCycles(tasks);
    && cycles + book.xrcPaid
       == book.reserve + locked + UnburnedCycles(agreements) + flying + book.lostCycles + book.unburned
    && book.minted == locked + CreatedCycles(agreements) + flying + book.lostCycles + book.cancelled
    && book.minted <= U128_MAX
    && forall s | s in agreements :: Sound(agreements[s])
  }

  // ---------------------------------------------------------------- ICP

  /** A refund has been paid to the user whose task has not been resumed yet. */
  ghost predicate RefundPaid(tasks: map<nat, Task>, user: Principal) {
    exists id :: id in tasks && tasks[id].job == RefundJob(user) && tasks[id].call.RefundTransfer? && tasks[id].reply.Block?
  }

  /** What a rental request task knows of its user's subaccount. */
  ghost predicate RentalFunded(t: Task, icp: map<Principal, nat>) {
    t.job.RentalJob? ==>
      var have := At(icp, t.job.user);
      && (t.reply.Balance? ==> t.reply.e8s <= have)
      && (t.call.CmcTransfer? || t.call.NotifyCall? ==> t.job.needed <= have + IcpInFlight(t, t.job.user))
  }

  /** ICP debited by the user's conversions that is in flight or lost. */
  ghost function Astray(lost: map<Principal, nat>, tasks: map<nat, Task>, user: Principal): nat {
    At(lost, user) + FlyingIcp(tasks, user)
  }

  /** What a request still needs is on the subaccount, in flight, or lost. */
  ghost predicate Backed(r: RentalRequest, icp: map<Principal, nat>, lost: map<Principal, nat>, tasks: map<nat, Task>) {
    r.initialCostIcp <= r.lockedAmountIcp + At(icp, r.user) + Astray(lost, tasks, r.user)
  }

  ghost predicate Backing(requests: map<Principal, RentalRequest>, icp: map<Principal, nat>, lost: map<Principal, nat>, tasks: map<nat, Task>) {
    && (forall u | u in requests && !RefundPaid(tasks, u) :: Backed(requests[u], icp, lost, tasks))
    && (forall id | id in tasks :: RentalFunded(tasks[id], icp))
  }

  ghost predicate RequestSpending(r: RentalRequest, book: Book, tasks: map<nat, Task>) {
    At(book.spent, r.user) == r.lockedAmountIcp + Astray(book.lost, tasks, r.user)
  }

  ghost predicate AgreementSpending(a: RentalAgreement, log: Log, book: Book, tasks: map<nat, Task>) {
    && a.subnetId in book.births
    && var paid := PaymentTrail(EventsOf(log, Some(a.subnetId)));
       At(book.spent, a.user) + DEFAULT_FEE * paid.topUps
         == book.births[a.subnetId].icp + paid.icp + Astray(book.lost, tasks, a.user)
  }

  ghost predicate RentalSpending(t: Task, book: Book, tasks: map<nat, Task>) {
    t.job.RentalJob? && (t.call.CmcTransfer? || t.call.NotifyCall?) ==>
      At(book.spent, t.job.user) == Astray(book.lost, tasks, t.job.user)
  }

  ghost predicate Spending(
      requests: map<Principal, RentalRequest>, agreements: map<Principal, RentalAgreement>, log: Log,
      book: Book, tasks: map<nat, Task>)
  {
    && (forall u | u in requests :: RequestSpending(requests[u], book, tasks))
    && (forall s | s in agreements :: AgreementSpending(agreements[s], log, book, tasks))
    && (forall id | id in tasks :: RentalSpending(tasks[id], book, tasks))
  }

  // ---------------------------------------------------------------- audit trail

  /** The locking schedule: `times` tenths (rounded down) are locked, a month apart. */
  predicate OnSchedule(r: RentalRequest, times: nat, now: nat) {
    && 1 <= times <= 10 && (r.initialCostIcp < 10 ==> times == 1)
    && r.lockedAmountIcp == times * (r.initialCostIcp / 10)
    && r.initialCostIcp <= U64_MAX
    && r.creationTimeNanos + (times - 1) * MONTH_NANOS <= r.lastLockingTimeNanos <= now
  }

  ghost predicate RequestAudited(r: RentalRequest, log: Log, now: nat) {
    var trail := RequestTrail(EventsOf(log, Some(r.user)));
    && trail.LockedUp?
    && trail.icp == r.lockedAmountIcp && trail.cycles == r.lockedAmountCycles
    && OnSchedule(r, trail.times, now)
  }

  ghost predicate AgreementAudited(a: RentalAgreement, log: Log, births: map<Principal, Birth>) {
    && a.subnetId in births
    && var paid := PaymentTrail(EventsOf(log, Some(a.subnetId)));
       var birth := births[a.subnetId];
       && a.totalCyclesCreated == birth.cycles + paid.cycles
       && a.totalIcpPaid == Min(birth.icp + paid.icp, U64_MAX)
       && a.paidUntilNanos == (match paid.deadline
                               case None => CreationDeadline(a.creationTimeNanos, INITIAL_RENTAL_PERIOD_DAYS)
                               case Some(d) => d)
       && paid.switches <= 1
       && (a.rentalConditionId == App13CH ==> paid.switches == 0)
  }

  /** Exactly the users with a request or an agreement have a request in their trail. */
  ghost predicate TrailsAreLive(
      requests: map<Principal, RentalRequest>, agreements: map<Principal, RentalAgreement>, log: Log)
  {
    forall u :: RequestTrail(EventsOf(log, Some(u))).LockedUp? <==> u in requests || HasAgreement(agreements, u)
  }

  ghost predicate Audit(
      requests: map<Principal, RentalRequest>, agreements: map<Principal, RentalAgreement>, log: Log,
      births: map<Principal, Birth>, now: nat)
  {
    && (forall u | u in requests :: RequestAudited(requests[u], log, now))
    && (forall s | s in agreements :: AgreementAudited(agreements[s], log, births))
    && (forall s | s !in agreements ::
          PaymentTrail(EventsOf(log, Some(s))) == Payments(0, 0, 0, None, 0))
    && TrailsAreLive(requests, agreements, log)
  }

  ghost predicate Clocks(now: nat, tasks: map<nat, Task>) {
    && now <= U64_MAX
    && forall id | id in tasks && tasks[id].job.LockJob? :: tasks[id].job.sweepNow <= now
  }

  ghost predicate Inv(w: World) {
    && Base(w.st.locks, w.tasks)
    && Lifecycle(w.st.requests, w.st.agreements)
    && ChecksHold(w.st.requests, w.st.agreements, w.tasks)
    && CyclesConserved(w.st.requests, w.st.agreements, w.tasks, w.cycles, w.book)
    && Backing(w.st.requests, w.icp, w.book.lost, w.tasks)
    && Spending(w.st.requests, w.st.agreements, w.st.log, w.book, w.tasks)
    && Audit(w.st.requests, w.st.agreements, w.st.log, w.book.births, w.now)
    && Clocks(w.now, w.tasks)
    && w.st.conditions == INITIAL_CONDITIONS
  }

  /** Under G as well: a condition is in at most one live request or proposal. */
  ghost predicate ConditionsApart(requests: map<Principal, RentalRequest>, tasks: map<nat, Task>) {
    && (forall u, v | u in requests && v in requests && requests[u].rentalConditionId == requests[v].rentalConditionId :: u == v)
    && (forall u, id | u in requests && id in tasks && tasks[id].job.RentalJob? ::
          requests[u].rentalConditionId != tasks[id].job.condition)
    && (forall i, j | i in tasks && j in tasks && tasks[i].job.RentalJob? && tasks[j].job.RentalJob?
                      && tasks[i].job.condition == tasks[j].job.condition :: i == j)
  }
}
