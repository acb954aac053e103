/** The canister's replicated state as one value, and what each atomic segment of the source (the code
    between two awaits) does to it. None stands for a trap: the platform discards the segment. */
module State {
  import opened Types
  import opened History
  import opened Deadlines
  import opened Burning

  datatype State = State(
    conditions: map<ConditionId, RentalConditions>,
    locks: set<Guard>,
    requests: map<Principal, RentalRequest>,
    agreements: map<Principal, RentalAgreement>,
    log: Log,
    rates: map<nat, (nat, nat)>)

  function Persist(st: State, key: Option<Principal>, event: EventType, now: nat): State {
    st.(log := Append(st.log, key, event, now))
  }

  predicate HasAgreement(agreements: map<Principal, RentalAgreement>, user: Principal) {
    exists s | s in agreements :: agreements[s].user == user
  }

  // ---------------------------------------------------------------- canister_state.rs

  function PersistRentalRequest(st: State, r: RentalRequest, now: nat): Option<State> {
    if r.user in st.requests then None
    else Some(Persist(st.(requests := st.requests[r.user := r]), Some(r.user), RentalRequestCreated(r), now))
  }

  function PersistRentalAgreement(st: State, a: RentalAgreement, now: nat): Option<State> {
    if a.subnetId in st.agreements then None
    else
      Some(Persist(
        st.(agreements := st.agreements[a.subnetId := a]),
        Some(a.subnetId),
        RentalAgreementCreated(a.user, a.rentalRequestProposalId, a.subnetCreationProposalId, a.rentalConditionId),
        now))
  }

  // ---------------------------------------------------------------- rental request

  /** The checks made before the first await of a rental request proposal. */
  predicate RequestAllowed(st: State, user: Principal, condition: ConditionId)
    requires condition in st.conditions
  {
    && user !in st.requests
    && !HasAgreement(st.agreements, user)
    && (st.conditions[condition].subnetId.Some? ==> st.conditions[condition].subnetId.value !in st.agreements)
    && forall u | u in st.requests :: st.requests[u].rentalConditionId != condition
  }

  function NewRequest(user: Principal, condition: ConditionId, proposal: nat, needed: nat, cycles: nat, now: nat): RentalRequest {
    RentalRequest(user, needed, needed / 10, cycles, proposal, now, condition, now)
  }

  function FinishRequest(st: State, r: RentalRequest, block: nat, now: nat): Option<State> {
    PersistRentalRequest(Persist(st, Some(r.user), TransferSuccess(r.lockedAmountIcp, block), now), r, now)
  }

  // ---------------------------------------------------------------- rental agreement

  function CreationDeadline(now: nat, periodDays: nat): nat {
    Wrap64(now + Wrap64(Wrap64(periodDays * SECONDS_PER_DAY) * BILLION))
  }

  function NewAgreement(
      r: RentalRequest, user: Principal, subnet: Principal, proposal: nat, cycles: nat, periodDays: nat, now: nat): RentalAgreement {
    RentalAgreement(
      user, r.initialProposalId, Some(proposal), subnet, r.rentalConditionId, now,
      CreationDeadline(now, periodDays),
      r.initialCostIcp, SatAdd128(cycles, r.lockedAmountCycles), 0)
  }

  function FinishCreate(st: State, a: RentalAgreement, now: nat): Option<State> {
    if a.user !in st.requests then None
    else PersistRentalAgreement(st.(requests := st.requests - {a.user}), a, now)
  }

  // ---------------------------------------------------------------- refund

  function FinishRefund(st: State, user: Principal, amount: nat, block: nat, now: nat): State {
    var paid := Persist(st, Some(user), TransferSuccess(amount, block), now);
    if user !in st.requests then paid
    else
      Persist(
        paid.(requests := paid.requests - {user}),
        Some(user), RentalRequestCancelled(st.requests[user]), now)
  }

  // ---------------------------------------------------------------- top-up

  /** The write at the end of a top-up: totals and deadline come from `read`, the copy of the agreement
      taken before the awaits; only the ICP total is added to the agreement as it stands now. */
  function TopUpWrite(current: RentalAgreement, read: RentalAgreement, icp: nat, cycles: nat, daily: nat): RentalAgreement
    requires CostPerSecond(daily) > 0
  {
    current.(
      totalCyclesCreated := SatAdd128(read.totalCyclesCreated, cycles),
      totalIcpPaid := SatAdd64(current.totalIcpPaid, icp),
      paidUntilNanos := TopUpDeadline(read.paidUntilNanos, cycles, daily))
  }

  function FinishTopUp(
      st: State, subnet: Principal, read: RentalAgreement, icp: nat, block: nat, cycles: nat, now: nat): Option<State> {
    var paid := Persist(st, Some(subnet), TransferSuccess(SatSub(icp, DEFAULT_FEE), block), now);
    if read.rentalConditionId !in st.conditions then None
    else
      var daily := st.conditions[read.rentalConditionId].dailyCostCycles;
      if CostPerSecond(daily) == 0 || subnet !in st.agreements then None
      else
        var written := TopUpWrite(st.agreements[subnet], read, icp, cycles, daily);
        Some(Persist(
          paid.(agreements := paid.agreements[subnet := written]),
          Some(subnet),
          SubnetTopUp(read.user, icp, cycles, DaysAdded(cycles, daily), written.paidUntilNanos),
          now))
  }

  // ---------------------------------------------------------------- locking

  /** A request is due when a month has passed since the last locking and less than ten tenths are locked. */
  predicate LockingDue(r: RentalRequest, now: nat) {
    && Wrap64(now - r.lastLockingTimeNanos) / BILLION / 60 / 60 / 24 >= 30
    && r.lockedAmountIcp < Wrap64(r.initialCostIcp / 10 * 10)
  }

  /** The first request of a sweep that is due and whose guard is free. */
  function NextToLock(locks: set<Guard>, rest: seq<RentalRequest>, now: nat): (i: nat)
    ensures i <= |rest|
    ensures i < |rest| ==> LockingDue(rest[i], now) && Guard(rest[i].user, RequestTag) !in locks
  {
    if rest == [] then 0
    else if LockingDue(rest[0], now) && Guard(rest[0].user, RequestTag) !in locks then 0
    else 1 + NextToLock(locks, rest[1..], now)
  }

  /** The request written after one locking: everything in it comes from the sweep's own copy. */
  function LockedOnce(copy: RentalRequest, cycles: nat, sweepNow: nat): RentalRequest {
    copy.(
      lockedAmountIcp := SatAdd64(copy.lockedAmountIcp, copy.initialCostIcp / 10),
      lockedAmountCycles := Wrap128(copy.lockedAmountCycles + cycles),
      lastLockingTimeNanos := sweepNow)
  }

  function FinishLocking(st: State, copy: RentalRequest, sweepNow: nat, block: nat, cycles: nat, now: nat): Option<State> {
    var tenth := copy.initialCostIcp / 10;
    var paid := Persist(st, Some(copy.user), TransferSuccess(tenth, block), now);
    var noted := Persist(paid, Some(copy.user), LockingSuccess(copy.user, tenth, cycles), now);
    if copy.user !in st.requests then None
    else Some(noted.(requests := noted.requests[copy.user := LockedOnce(copy, cycles, sweepNow)]))
  }

  // ---------------------------------------------------------------- burning

  datatype Sweep = SweepTrap | Swept(agreements: map<Principal, RentalAgreement>, balance: nat)

  /** One burn sweep over the agreements in the given order, skipping those that are locked or gone. */
  function BurnSweep(
      agreements: map<Principal, RentalAgreement>, locks: set<Guard>, balance: nat, order: seq<Principal>, now: nat): Sweep
    decreases |order|
  {
    if order == [] then Swept(agreements, balance)
    else if Guard(order[0], AgreementTag) in locks || order[0] !in agreements then
      BurnSweep(agreements, locks, balance, order[1..], now)
    else
      match BurnOne(agreements[order[0]], balance, now)
      case DivisionTrap => SweepTrap
      case Burned(a, left) => BurnSweep(agreements[order[0] := a], locks, left, order[1..], now)
  }

  // ---------------------------------------------------------------- upgrade

  function WithCondition(st: State, condition: ConditionId, now: nat): State
    requires condition in INITIAL_CONDITIONS
  {
    Persist(
      st.(conditions := st.conditions[condition := INITIAL_CONDITIONS[condition]]),
      None, RentalConditionsChanged(condition, Some(INITIAL_CONDITIONS[condition])), now)
  }

  function SetInitialConditions(st: State, now: nat): State {
    WithCondition(WithCondition(st, App13CH, now), App7CH, now)
  }

  function Switched(a: RentalAgreement, daily: nat, now: nat): RentalAgreement {
    a.(rentalConditionId := App7CH, paidUntilNanos := Reprice(a.Remaining(), daily, now))
  }

  function Migrate(st: State, target: Principal, now: nat): State {
    if target !in st.agreements || st.agreements[target].rentalConditionId != App13CH || App7CH !in st.conditions then st
    else
      var a := st.agreements[target];
      var a' := Switched(a, st.conditions[App7CH].dailyCostCycles, now);
      Persist(
        st.(agreements := st.agreements[target := a']),
        Some(target),
        RentalConditionSwitched(a.user, App13CH, App7CH, a.Remaining(), a.paidUntilNanos, a'.paidUntilNanos),
        now)
  }

  /** `post_upgrade`: the locks live on the heap and do not survive. */
  function Upgrade(st: State, target: Principal, now: nat): State {
    Migrate(SetInitialConditions(st.(locks := {}), now), target, now)
  }
}
