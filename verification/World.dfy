/** The canister among its callers and the canisters it calls, as a transition system. Code between two
    awaits is one atomic step; at an await a task is suspended on a call, and any other step may run
    until the call is served and the task resumed. */
module World {
  import opened Types
  import opened Pricing
  import opened State

  /** The outgoing call a task is suspended on. */
  datatype Call =
    | XrcCall(time: nat)
    | BalanceCall(account: Principal)
    | CmcTransfer(account: Principal, amount: nat)
    | NotifyCall(account: Principal, amount: nat, block: nat)
    | RefundTransfer(account: Principal, amount: nat)
    | AuthorizeCall(account: Principal, amount: nat, cycles: nat)
    | AdminsCall
    | Returned

  /** Pending until the call is served. CallFailed is a reject, on which the source's `expect` traps. */
  datatype Reply =
    | Pending
    | CallFailed
    | Rate(rate: nat, decimals: nat)
    | RateError
    | Balance(e8s: nat)
    | Block(index: nat)
    | TransferError
    | Minted(cycles: nat)
    | NotifyError
    | Done

  /** Which function a task runs and the locals it carries over its awaits. */
  datatype Job =
    | RentalJob(user: Principal, condition: ConditionId, proposal: nat, needed: nat)
    | CreateJob(user: Principal, subnet: Principal, proposal: nat, request: RentalRequest, draft: Option<RentalAgreement>)
    | RefundJob(user: Principal)
    | TopUpJob(subnet: Principal, agreement: RentalAgreement, balance: nat)
    | LockJob(request: RentalRequest, sweepNow: nat, rest: seq<RentalRequest>)
    | PriceJob
    | EstimateJob
    | AdminsJob(subnet: Principal)
    | Closing(guards: set<Guard>)

  datatype Task = Task(job: Job, call: Call, reply: Reply)

  /** The guards a running job holds. */
  function Guards(job: Job): set<Guard> {
    match job
    case RentalJob(user, _, _, _) => {Guard(user, RequestTag)}
    case CreateJob(user, subnet, _, _, _) => {Guard(user, RequestTag), Guard(subnet, NnsTag)}
    case RefundJob(user) => {Guard(Anonymous, RefundTag), Guard(user, RequestTag)}
    case TopUpJob(subnet, _, _) => {Guard(subnet, AgreementTag)}
    case LockJob(request, _, _) => {Guard(request.user, RequestTag)}
    case PriceJob => {Guard(Anonymous, XrcTag)}
    case EstimateJob => {}
    case AdminsJob(subnet) => {Guard(subnet, AgreementTag)}
    case Closing(guards) => guards
  }

  /** ICP already debited from `user`'s subaccount by a conversion that `t` has not recorded yet. */
  function IcpInFlight(t: Task, user: Principal): nat {
    match t.call
    case CmcTransfer(account, amount) => if account == user && t.reply.Block? then Debit(amount) else 0
    case NotifyCall(account, amount, _) => if account == user then Debit(amount) else 0
    case AuthorizeCall(account, amount, _) => if account == user then Debit(amount) else 0
    case _ => 0
  }

  /** Cycles already minted for `t` that it has not recorded yet. */
  function CyclesInFlight(t: Task): nat {
    match t.call
    case NotifyCall(_, _, _) => if t.reply.Minted? then t.reply.cycles else 0
    case AuthorizeCall(_, _, cycles) => cycles
    case _ => 0
  }

  /** The user whose subaccount the call converts ICP from. */
  function Account(call: Call): Principal {
    match call
    case CmcTransfer(account, _) => account
    case NotifyCall(account, _, _) => account
    case AuthorizeCall(account, _, _) => account
    case _ => Anonymous
  }

  datatype Birth = Birth(icp: nat, cycles: nat)

  /** Bookkeeping the canister does not do: it only records what happened.
      `spent` and `lost` are per user, since the conversion of the latest rental proposal started:
      ICP debited by conversions, and the part of it that no record will ever mention. */
  datatype Book = Book(
    reserve: nat,
    xrcPaid: nat,
    minted: nat,
    lostCycles: nat,
    cancelled: nat,
    unburned: nat,
    spent: map<Principal, nat>,
    lost: map<Principal, nat>,
    births: map<Principal, Birth>)

  datatype World = World(
    st: State,
    now: nat,
    cycles: nat,
    icp: map<Principal, nat>,
    tasks: map<nat, Task>,
    book: Book)

  function At(m: map<Principal, nat>, p: Principal): nat {
    if p in m then m[p] else 0
  }

  function Plus(m: map<Principal, nat>, p: Principal, amount: nat): map<Principal, nat> {
    m[p := At(m, p) + amount]
  }

  // ---------------------------------------------------------------- building blocks

  function Note(w: World, key: Option<Principal>, event: EventType): World {
    w.(st := Persist(w.st, key, event, w.now))
  }

  function Start(w: World, id: nat, job: Job, call: Call): World {
    w.(st := w.st.(locks := w.st.locks + Guards(job)),
       tasks := w.tasks[id := Task(job, call, Pending)])
  }

  function Advance(w: World, id: nat, job: Job, call: Call): World {
    w.(tasks := w.tasks[id := Task(job, call, Pending)])
  }

  /** The task ends, by return or trap: its guards are dropped, and what it had in flight is lost. */
  function End(w: World, id: nat): World
    requires id in w.tasks
  {
    var t := w.tasks[id];
    var account := Account(t.call);
    w.(st := w.st.(locks := w.st.locks - Guards(t.job)),
       tasks := w.tasks - {id},
       book := w.book.(lost := Plus(w.book.lost, account, IcpInFlight(t, account)),
                       lostCycles := w.book.lostCycles + CyclesInFlight(t)))
  }

  /** The task is past its last await: its conversion of `amount` is recorded, except for what the
      ledger debited beyond it. */
  function Close(w: World, id: nat, account: Principal, amount: nat): World
    requires id in w.tasks
  {
    w.(tasks := w.tasks[id := Task(Closing(Guards(w.tasks[id].job)), Returned, Pending)],
       book := w.book.(lost := Plus(w.book.lost, account, Debit(amount) - amount)))
  }

  /** Attaching the fee to a call of the exchange rate canister. */
  function PayXrc(w: World): World
    requires w.cycles >= XRC_FEE
  {
    w.(cycles := w.cycles - XRC_FEE, book := w.book.(xrcPaid := w.book.xrcPaid + XRC_FEE))
  }

  // ---------------------------------------------------------------- rental request

  function FailRental(w: World, id: nat): World
    requires id in w.tasks && w.tasks[id].job.RentalJob?
  {
    var job := w.tasks[id].job;
    End(Note(w, Some(job.user), RentalRequestFailed(job.user, job.proposal)), id)
  }

  function PriceRental(w: World, id: nat, rate: nat, decimals: nat): World
    requires id in w.tasks && w.tasks[id].job.RentalJob? && w.tasks[id].job.condition in w.st.conditions
  {
    var job := w.tasks[id].job;
    var c := w.st.conditions[job.condition];
    match CalculateSubnetPrice(c.dailyCostCycles, c.initialRentalPeriodDays, rate, decimals)
    case None => FailRental(w, id)
    case Some(price) => Advance(w, id, job.(needed := price), BalanceCall(job.user))
  }

  /** The conversion of the first tenth starts; the user's books start over. */
  function LockFirstTenth(w: World, id: nat): World
    requires id in w.tasks && w.tasks[id].job.RentalJob?
  {
    var job := w.tasks[id].job;
    var w' := w.(book := w.book.(spent := w.book.spent[job.user := 0], lost := w.book.lost[job.user := 0]));
    Advance(w', id, job, CmcTransfer(job.user, job.needed / 10))
  }

  function OpenRequest(w: World, id: nat, st: State): World
    requires id in w.tasks && w.tasks[id].job.RentalJob?
  {
    var job := w.tasks[id].job;
    Close(w.(st := st), id, job.user, job.needed / 10)
  }

  function ResumeRental(w: World, id: nat): World
    requires id in w.tasks && w.tasks[id].job.RentalJob? && w.tasks[id].job.condition in w.st.conditions
  {
    var Task(job, call, reply) := w.tasks[id];
    match (call, reply)
    case (XrcCall(time), Rate(rate, decimals)) =>
      PriceRental(w.(st := w.st.(rates := w.st.rates[time := (rate, decimals)])), id, rate, decimals)
    case (BalanceCall(_), Balance(e8s)) =>
      if job.needed > e8s then FailRental(w, id) else LockFirstTenth(w, id)
    case (CmcTransfer(user, amount), Block(index)) => Advance(w, id, job, NotifyCall(user, amount, index))
    case (NotifyCall(_, _, block), Minted(cycles)) =>
      var r := NewRequest(job.user, job.condition, job.proposal, job.needed, cycles, w.now);
      (match FinishRequest(w.st, r, block, w.now)
       case None => End(w, id)
       case Some(st) => End(OpenRequest(w, id, st), id))
    case _ => FailRental(w, id)
  }

  // ---------------------------------------------------------------- rental agreement

  function BeginAgreement(w: World, id: nat): World
    requires id in w.tasks && w.tasks[id].job.CreateJob? && w.tasks[id].job.request.rentalConditionId in w.st.conditions
    requires w.tasks[id].call.NotifyCall? && w.tasks[id].reply.Minted?
  {
    var Task(job, call, reply) := w.tasks[id];
    var period := w.st.conditions[job.request.rentalConditionId].initialRentalPeriodDays;
    var a := NewAgreement(job.request, job.user, job.subnet, job.proposal, reply.cycles, period, w.now);
    Advance(
      Note(w, Some(job.user), TransferSuccess(call.amount, call.block)),
      id, job.(draft := Some(a)), AuthorizeCall(job.user, call.amount, reply.cycles))
  }

  function OpenAgreement(w: World, id: nat, st: State, a: RentalAgreement): World
    requires id in w.tasks && w.tasks[id].call.AuthorizeCall?
  {
    var births := w.book.births[a.subnetId := Birth(a.totalIcpPaid, a.totalCyclesCreated)];
    var call := w.tasks[id].call;
    Close(w.(st := st, book := w.book.(births := births)), id, call.account, call.amount)
  }

  function ResumeCreate(w: World, id: nat): World
    requires id in w.tasks && w.tasks[id].job.CreateJob? && w.tasks[id].job.request.rentalConditionId in w.st.conditions
  {
    var Task(job, call, reply) := w.tasks[id];
    match (call, reply)
    case (CmcTransfer(user, amount), Block(index)) => Advance(w, id, job, NotifyCall(user, amount, index))
    case (NotifyCall(_, _, _), Minted(_)) => BeginAgreement(w, id)
    case (AuthorizeCall(_, _, _), Done) =>
      if job.draft.None? then End(w, id)
      else
        (match FinishCreate(w.st, job.draft.value, w.now)
         case None => End(w, id)
         case Some(st) => End(OpenAgreement(w, id, st, job.draft.value), id))
    case _ => End(w, id)
  }

  // ---------------------------------------------------------------- refund

  /** The refund is paid: a request of the user is cancelled and its locked cycles are burned, as far
      as the balance goes. */
  function CancelRequest(w: World, id: nat, amount: nat, block: nat): World
    requires id in w.tasks && w.tasks[id].job.RefundJob?
  {
    var job := w.tasks[id].job;
    var locked := if job.user in w.st.requests then w.st.requests[job.user].lockedAmountCycles else 0;
    var burned := Min(locked, w.cycles);
    w.(st := FinishRefund(w.st, job.user, amount, block, w.now),
       cycles := w.cycles - burned,
       tasks := w.tasks[id := Task(Closing(Guards(job)), Returned, Pending)],
       book := w.book.(cancelled := w.book.cancelled + locked, unburned := w.book.unburned + (locked - burned)))
  }

  function ResumeRefund(w: World, id: nat): World
    requires id in w.tasks && w.tasks[id].job.RefundJob?
  {
    var Task(job, call, reply) := w.tasks[id];
    match (call, reply)
    case (BalanceCall(_), Balance(e8s)) =>
      if e8s < DEFAULT_FEE then End(w, id)
      else Advance(w, id, job, RefundTransfer(job.user, e8s - DEFAULT_FEE))
    case (RefundTransfer(_, amount), Block(index)) => End(CancelRequest(w, id, amount, index), id)
    case _ => End(w, id)
  }

  // ---------------------------------------------------------------- top-up

  function FailTopUp(w: World, id: nat): World
    requires id in w.tasks && w.tasks[id].job.TopUpJob?
  {
    var job := w.tasks[id].job;
    End(Note(w, Some(job.subnet), SubnetTopUpFailed(job.agreement.user)), id)
  }

  function BookTopUp(w: World, id: nat, st: State): World
    requires id in w.tasks && w.tasks[id].call.NotifyCall?
  {
    var call := w.tasks[id].call;
    Close(w.(st := st), id, call.account, call.amount)
  }

  function ResumeTopUp(w: World, id: nat): World
    requires id in w.tasks && w.tasks[id].job.TopUpJob?
  {
    var Task(job, call, reply) := w.tasks[id];
    match (call, reply)
    case (BalanceCall(_), Balance(e8s)) =>
      if e8s < DEFAULT_FEE then FailTopUp(w, id)
      else Advance(w, id, job.(balance := e8s), CmcTransfer(job.agreement.user, e8s - DEFAULT_FEE))
    case (CmcTransfer(user, amount), Block(index)) => Advance(w, id, job, NotifyCall(user, amount, index))
    case (NotifyCall(_, _, block), Minted(cycles)) =>
      (match FinishTopUp(w.st, job.subnet, job.agreement, job.balance, block, cycles, w.now)
       case None => End(w, id)
       case Some(st) => End(BookTopUp(w, id, st), id))
    case _ => FailTopUp(w, id)
  }

  // ---------------------------------------------------------------- locking

  /** The rest of a locking sweep, up to the next conversion it starts. */
  function ContinueSweep(w: World, id: nat, sweepNow: nat, rest: seq<RentalRequest>): World {
    var i := NextToLock(w.st.locks, rest, sweepNow);
    if i == |rest| then w
    else Start(w, id, LockJob(rest[i], sweepNow, rest[i + 1..]), CmcTransfer(rest[i].user, rest[i].initialCostIcp / 10))
  }

  /** The copy a sweep is about to work on, if it starts another conversion. */
  function NextCopy(w: World, sweepNow: nat, rest: seq<RentalRequest>): Option<RentalRequest> {
    var i := NextToLock(w.st.locks, rest, sweepNow);
    if i == |rest| then None else Some(rest[i])
  }

  function BookLocking(w: World, id: nat, st: State): World
    requires id in w.tasks && w.tasks[id].job.LockJob?
  {
    var job := w.tasks[id].job;
    Close(w.(st := st), id, job.request.user, job.request.initialCostIcp / 10)
  }

  /** The end of one iteration. `trap` says whether it ended in the failed `unwrap` of the update. */
  function EndLocking(w: World, id: nat): World
    requires id in w.tasks && w.tasks[id].job.LockJob?
  {
    var Task(job, call, reply) := w.tasks[id];
    match (call, reply)
    case (NotifyCall(_, _, block), Minted(cycles)) =>
      (match FinishLocking(w.st, job.request, job.sweepNow, block, cycles, w.now)
       case None => End(w, id)
       case Some(st) => End(BookLocking(w, id, st), id))
    case _ => End(Note(w, Some(job.request.user), LockingFailure(job.request.user)), id)
  }

  predicate LockingTraps(w: World, id: nat)
    requires id in w.tasks && w.tasks[id].job.LockJob?
  {
    w.tasks[id].call.NotifyCall? && w.tasks[id].reply.Minted? && w.tasks[id].job.request.user !in w.st.requests
  }

  function ResumeLocking(w: World, id: nat): World
    requires id in w.tasks && w.tasks[id].job.LockJob?
  {
    var Task(job, call, reply) := w.tasks[id];
    match (call, reply)
    case (CmcTransfer(user, amount), Block(index)) => Advance(w, id, job, NotifyCall(user, amount, index))
    case _ =>
      if LockingTraps(w, id) then End(w, id)
      else ContinueSweep(EndLocking(w, id), id, job.sweepNow, job.rest)
  }

  // ---------------------------------------------------------------- steps

  datatype Step =
    | Deposit(account: Principal, amount: nat)
    | DepositCycles(amount: nat)
    | Tick(nanos: nat)
    | Serve(id: nat, reply: Reply)
    | Resume(id: nat)
    | StartRental(id: nat, user: Principal, condition: ConditionId, proposal: nat, rateTime: nat)
    | StartCreate(id: nat, user: Principal, subnet: Principal, proposal: nat)
    | StartRefund(id: nat, user: Principal)
    | StartTopUp(id: nat, subnet: Principal)
    | StartSweep(id: nat, snapshot: seq<RentalRequest>)
    | StartPrice(id: nat, rateTime: nat)
    | StartEstimate(id: nat, rateTime: nat)
    | StartAdmins(id: nat, subnet: Principal)
    | BurnAll(order: seq<Principal>)
    | DoUpgrade(target: Principal)

  predicate Free(w: World, job: Job) {
    Guards(job) !! w.st.locks
  }

  /** The replies a served call can get, given what the ledger holds and what can still be minted. */
  predicate Servable(w: World, call: Call, reply: Reply) {
    if reply.CallFailed? then !call.Returned?
    else
      match call
      case XrcCall(_) => reply.Rate? || reply.RateError?
      case BalanceCall(account) => reply == Balance(At(w.icp, account))
      case CmcTransfer(account, amount) =>
        reply.TransferError? || (reply.Block? && At(w.icp, account) >= Debit(amount))
      case NotifyCall(_, _, _) =>
        reply.NotifyError? || (reply.Minted? && w.book.minted + reply.cycles <= U128_MAX)
      case RefundTransfer(account, amount) =>
        reply.TransferError? || (reply.Block? && At(w.icp, account) >= amount + DEFAULT_FEE)
      case AuthorizeCall(_, _, _) => reply.Done?
      case AdminsCall => reply.Done?
      case Returned => false
  }

  predicate Distinct(order: seq<Principal>) {
    forall i, j | 0 <= i < j < |order| :: order[i] != order[j]
  }

  /** The stored agreements, each once, in some order. */
  predicate ListsAgreements(agreements: map<Principal, RentalAgreement>, order: seq<Principal>) {
    Distinct(order) && (forall s | s in order :: s in agreements) && (forall s | s in agreements :: s in order)
  }

  /** Copies of the stored requests, each once, in some order. */
  predicate ListsRequests(requests: map<Principal, RentalRequest>, copies: seq<RentalRequest>) {
    && (forall r | r in copies :: r.user in requests && requests[r.user] == r)
    && (forall u | u in requests :: requests[u] in copies)
    && (forall i, j | 0 <= i < j < |copies| :: copies[i].user != copies[j].user)
  }

  /** When a step does something. A message whose segment traps or returns without effect before its
      first await (a guard that is held, an unknown subnet) leaves the world as it is and is no step. */
  predicate Enabled(w: World, s: Step) {
    match s
    case Deposit(_, _) => true
    case DepositCycles(_) => true
    case Tick(nanos) => w.now + nanos <= U64_MAX
    case Serve(id, reply) =>
      id in w.tasks && w.tasks[id].reply.Pending? && Servable(w, w.tasks[id].call, reply)
    case Resume(id) =>
      id in w.tasks && !w.tasks[id].reply.Pending?
    case StartRental(id, user, condition, _, rateTime) =>
      && id !in w.tasks && Guard(user, RequestTag) !in w.st.locks
      && condition in w.st.conditions
      && (RequestAllowed(w.st, user, condition) && rateTime !in w.st.rates ==> w.cycles >= XRC_FEE)
    case StartCreate(id, user, subnet, proposal) =>
      && id !in w.tasks && Guard(user, RequestTag) !in w.st.locks && Guard(subnet, NnsTag) !in w.st.locks
      && user in w.st.requests && subnet !in w.st.agreements
      && w.st.requests[user].rentalConditionId in w.st.conditions
    case StartRefund(id, user) => id !in w.tasks && Free(w, RefundJob(user))
    case StartTopUp(id, subnet) =>
      id !in w.tasks && Guard(subnet, AgreementTag) !in w.st.locks && subnet in w.st.agreements
    case StartSweep(id, snapshot) =>
      id !in w.tasks && ListsRequests(w.st.requests, snapshot)
    case StartPrice(id, rateTime) =>
      id !in w.tasks && Free(w, PriceJob) && rateTime !in w.st.rates && w.cycles >= XRC_FEE
    case StartEstimate(id, rateTime) =>
      id !in w.tasks && rateTime !in w.st.rates && w.cycles >= XRC_FEE
    case StartAdmins(id, subnet) =>
      id !in w.tasks && Free(w, AdminsJob(subnet)) && subnet in w.st.agreements
    case BurnAll(order) =>
      ListsAgreements(w.st.agreements, order) && BurnSweep(w.st.agreements, w.st.locks, w.cycles, order, w.now).Swept?
    case DoUpgrade(_) => w.tasks == map[]
  }

  function ApplyServe(w: World, id: nat, reply: Reply): World
    requires Enabled(w, Serve(id, reply))
  {
    var t := w.tasks[id];
    var w' := w.(tasks := w.tasks[id := t.(reply := reply)]);
    match (t.call, reply)
    case (CmcTransfer(account, amount), Block(_)) =>
      w'.(icp := w.icp[account := At(w.icp, account) - Debit(amount)],
          book := w.book.(spent := Plus(w.book.spent, account, Debit(amount))))
    case (RefundTransfer(account, amount), Block(_)) =>
      w'.(icp := w.icp[account := At(w.icp, account) - amount - DEFAULT_FEE])
    case (NotifyCall(_, _, _), Minted(cycles)) =>
      w'.(cycles := w.cycles + cycles, book := w.book.(minted := w.book.minted + cycles))
    case _ => w'
  }

  function ApplyResume(w: World, id: nat): World
    requires id in w.tasks
  {
    var Task(job, call, reply) := w.tasks[id];
    if reply.CallFailed? then End(w, id)
    else
      match job
      case RentalJob(_, condition, _, _) => if condition in w.st.conditions then ResumeRental(w, id) else End(w, id)
      case CreateJob(_, _, _, r, _) => if r.rentalConditionId in w.st.conditions then ResumeCreate(w, id) else End(w, id)
      case RefundJob(_) => ResumeRefund(w, id)
      case TopUpJob(_, _, _) => ResumeTopUp(w, id)
      case LockJob(_, _, _) => ResumeLocking(w, id)
      case _ =>
        if call.XrcCall? && reply.Rate? then
          End(w.(st := w.st.(rates := w.st.rates[call.time := (reply.rate, reply.decimals)])), id)
        else End(w, id)
  }

  function ApplyRental(w: World, id: nat, user: Principal, condition: ConditionId, proposal: nat, rateTime: nat): World
    requires Enabled(w, StartRental(id, user, condition, proposal, rateTime))
  {
    if !RequestAllowed(w.st, user, condition) then Note(w, Some(user), RentalRequestFailed(user, proposal))
    else
      var job := RentalJob(user, condition, proposal, 0);
      if rateTime in w.st.rates then
        PriceRental(Start(w, id, job, XrcCall(rateTime)), id, w.st.rates[rateTime].0, w.st.rates[rateTime].1)
      else Start(PayXrc(w), id, job, XrcCall(rateTime))
  }

  function ApplyBurn(w: World, order: seq<Principal>): World
    requires Enabled(w, BurnAll(order))
  {
    var sweep := BurnSweep(w.st.agreements, w.st.locks, w.cycles, order, w.now);
    w.(st := w.st.(agreements := sweep.agreements), cycles := sweep.balance)
  }

  function Apply(w: World, s: Step): World
    requires Enabled(w, s)
  {
    match s
    case Deposit(account, amount) => w.(icp := Plus(w.icp, account, amount))
    case DepositCycles(amount) =>
      w.(cycles := w.cycles + amount, book := w.book.(reserve := w.book.reserve + amount))
    case Tick(nanos) => w.(now := w.now + nanos)
    case Serve(id, reply) => ApplyServe(w, id, reply)
    case Resume(id) => ApplyResume(w, id)
    case StartRental(id, user, condition, proposal, rateTime) => ApplyRental(w, id, user, condition, proposal, rateTime)
    case StartCreate(id, user, subnet, proposal) =>
      var r := w.st.requests[user];
      Start(w, id, CreateJob(user, subnet, proposal, r, None), CmcTransfer(user, SatSub(r.initialCostIcp, r.lockedAmountIcp)))
    case StartRefund(id, user) => Start(w, id, RefundJob(user), BalanceCall(user))
    case StartTopUp(id, subnet) =>
      var a := w.st.agreements[subnet];
      Start(w, id, TopUpJob(subnet, a, 0), BalanceCall(a.user))
    case StartSweep(id, snapshot) => ContinueSweep(w, id, w.now, snapshot)
    case StartPrice(id, rateTime) => Start(PayXrc(w), id, PriceJob, XrcCall(rateTime))
    case StartEstimate(id, rateTime) => Start(PayXrc(w), id, EstimateJob, XrcCall(rateTime))
    case StartAdmins(id, subnet) => Start(w, id, AdminsJob(subnet), AdminsCall)
    case BurnAll(order) => ApplyBurn(w, order)
    case DoUpgrade(target) => w.(st := Upgrade(w.st, target, w.now))
  }

  ghost predicate Init(w: World) {
    && w.st == SetInitialConditions(State(map[], {}, map[], map[], map[], map[]), w.now)
    && w.now <= U64_MAX
    && w.icp == map[] && w.tasks == map[]
    && w.book == Book(w.cycles, 0, 0, 0, 0, 0, map[], map[], map[])
  }

  // ---------------------------------------------------------------- hypotheses on runs

  /** Resuming the task ends one iteration of a sweep and goes on to the next. */
  predicate SweepGoesOn(w: World, id: nat)
    requires id in w.tasks
  {
    var Task(job, call, reply) := w.tasks[id];
    job.LockJob? && !reply.CallFailed? && !(call.CmcTransfer? && reply.Block?) && !LockingTraps(w, id)
  }

  predicate IsCurrent(w: World, copy: Option<RentalRequest>) {
    copy.Some? ==> copy.value.user in w.st.requests && w.st.requests[copy.value.user] == copy.value
  }

  predicate FreshResume(w: World, id: nat)
    requires id in w.tasks
  {
    SweepGoesOn(w, id) ==>
      var w' := EndLocking(w, id);
      IsCurrent(w', NextCopy(w', w.tasks[id].job.sweepNow, w.tasks[id].job.rest))
  }

  /** F: a request copy that a sweep goes on to lock still is the stored request. */
  predicate Fresh(w: World, s: Step)
    requires Enabled(w, s)
  {
    s.Resume? ==> FreshResume(w, s.id)
  }

  /** G: at most one rental request proposal is executed at a time. */
  ghost predicate OneProposal(w: World, s: Step) {
    s.StartRental? ==> forall id | id in w.tasks :: !w.tasks[id].job.RentalJob?
  }
}
