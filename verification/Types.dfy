/** The records of the rental canister (lib.rs, history.rs) and the machine integers they are made of. */
module Types {

  datatype Option<+T> = None | Some(value: T)

  /** An opaque identity: users, subnets and the canister's own callers. */
  datatype Principal = Anonymous | Id(n: nat)

  datatype ConditionId = App13CH | App7CH

  datatype RentalConditions = RentalConditions(
    subnetId: Option<Principal>,
    dailyCostCycles: nat,
    initialRentalPeriodDays: nat)

  datatype RentalRequest = RentalRequest(
    user: Principal,
    initialCostIcp: nat,
    lockedAmountIcp: nat,
    lockedAmountCycles: nat,
    initialProposalId: nat,
    creationTimeNanos: nat,
    rentalConditionId: ConditionId,
    lastLockingTimeNanos: nat)

  datatype RentalAgreement = RentalAgreement(
    user: Principal,
    rentalRequestProposalId: nat,
    subnetCreationProposalId: Option<nat>,
    subnetId: Principal,
    rentalConditionId: ConditionId,
    creationTimeNanos: nat,
    paidUntilNanos: nat,
    totalIcpPaid: nat,
    totalCyclesCreated: nat,
    totalCyclesBurned: nat)
  {
    /** Cycles created for this agreement and not yet burned. */
    function Remaining(): nat {
      SatSub(totalCyclesCreated, totalCyclesBurned)
    }
  }

  datatype EventType =
    | RentalConditionsChanged(changedId: ConditionId, conditions: Option<RentalConditions>)
    | RentalRequestCreated(created: RentalRequest)
    | RentalRequestFailed(failedUser: Principal, proposalId: nat)
    | RentalRequestCancelled(cancelled: RentalRequest)
    | RentalAgreementCreated(
        renter: Principal,
        rentalRequestProposalId: nat,
        subnetCreationProposalId: Option<nat>,
        rentalConditionId: ConditionId)
    | TransferSuccess(amount: nat, blockIndex: nat)
    | LockingSuccess(lockingUser: Principal, lockedIcp: nat, lockedCycles: nat)
    | LockingFailure(unlockedUser: Principal)
    | SubnetTopUp(
        toppedUpBy: Principal,
        icpAmount: nat,
        cyclesAdded: nat,
        daysAdded: nat,
        newPaidUntilNanos: nat)
    | SubnetTopUpFailed(notToppedUpBy: Principal)
    | RentalConditionSwitched(
        switchedUser: Principal,
        oldConditionId: ConditionId,
        newConditionId: ConditionId,
        cyclesRemaining: nat,
        oldPaidUntilNanos: nat,
        switchedPaidUntilNanos: nat)

  datatype Event = Event(timeNanos: nat, event: EventType)

  /** The tags under which a principal can be locked. */
  datatype Tag = RequestTag | AgreementTag | NnsTag | RefundTag | XrcTag

  datatype Guard = Guard(principal: Principal, tag: Tag)

  const BILLION: nat := 1_000_000_000
  const TRILLION: nat := 1_000_000_000_000
  const SECONDS_PER_DAY: nat := 86_400
  const MONTH_NANOS: nat := 30 * SECONDS_PER_DAY * BILLION
  /** The ICP ledger's transfer fee in e8s. */
  const DEFAULT_FEE: nat := 10_000
  /** Cycles attached to a call of the exchange rate canister. */
  const XRC_FEE: nat := 1_000_000_000

  const U64_MAX: nat := 0xFFFF_FFFF_FFFF_FFFF
  const U128_MAX: nat := 0xFFFF_FFFF_FFFF_FFFF_FFFF_FFFF_FFFF_FFFF

  function Min(a: nat, b: nat): nat {
    if a <= b then a else b
  }

  function Max(a: nat, b: nat): nat {
    if a >= b then a else b
  }

  function SatSub(a: nat, b: nat): nat {
    if a >= b then a - b else 0
  }

  /** Saturating addition of u64 (also of Tokens) and u128 values. */
  function SatAdd64(a: nat, b: nat): nat {
    Min(a + b, U64_MAX)
  }

  function SatAdd128(a: nat, b: nat): nat {
    Min(a + b, U128_MAX)
  }

  /** The value a u64 keeps of an out-of-range result in a build without overflow checks. */
  function Wrap64(n: int): nat {
    if 0 <= n <= U64_MAX then n else n % (U64_MAX + 1)
  }

  function Wrap128(n: int): nat {
    if 0 <= n <= U128_MAX then n else n % (U128_MAX + 1)
  }

  /** What a user's subaccount loses when `amount` is converted: `amount - DEFAULT_FEE` is
      transferred, saturating at zero, and the ledger takes its fee on top. */
  function Debit(amount: nat): (debit: nat)
    ensures debit >= amount && debit >= DEFAULT_FEE
    ensures amount >= DEFAULT_FEE ==> debit == amount
  {
    SatSub(amount, DEFAULT_FEE) + DEFAULT_FEE
  }

  const INITIAL_RENTAL_PERIOD_DAYS: nat := 180

  /** The conditions set by every install and upgrade. */
  const INITIAL_CONDITIONS: map<ConditionId, RentalConditions> :=
    map[App13CH := RentalConditions(None, 820 * TRILLION, INITIAL_RENTAL_PERIOD_DAYS),
        App7CH := RentalConditions(None, 440 * TRILLION, INITIAL_RENTAL_PERIOD_DAYS)]
}
