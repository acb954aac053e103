/** Each write to the stored agreements keeps the invariant: creation, top-up, burning, migration. */
module AgreementWrites {
  import opened Types
  import opened History
  import opened Deadlines
  import opened Burning
  import opened State
  import opened World
  import opened Invariant
  import opened Blocks
  import opened Writes

  /** Writing one agreement: only that subnet's trail has to be looked at. */
  lemma AuditAgreementWrite(
      requests: map<Principal, RentalRequest>, requests': map<Principal, RentalRequest>,
      agreements: map<Principal, RentalAgreement>, a: RentalAgreement, log: Log, log': Log,
      births: map<Principal, Birth>, births': map<Principal, Birth>, now: nat)
    requires Audit(requests, agreements, log, births, now)
    requires forall s | s in agreements :: agreements[s].subnetId == s
    requires forall v | v in requests' :: v in requests && requests'[v] == requests[v]
    requires forall v | v in requests && v != a.user :: v in requests'
    requires a.subnetId in agreements ==> agreements[a.subnetId].user == a.user
    requires RequestTrail(EventsOf(log, Some(a.user))).LockedUp?
    requires forall s | s in births && s != a.subnetId :: s in births' && births'[s] == births[s]
    requires forall k :: RequestTrail(EventsOf(log', k)) == RequestTrail(EventsOf(log, k))
    requires forall k | k != Some(a.subnetId) :: PaymentTrail(EventsOf(log', k)) == PaymentTrail(EventsOf(log, k))
    requires AgreementAudited(a, log', births')
    ensures Audit(requests', agreements[a.subnetId := a], log', births', now)
  {
    hide RequestTrail, PaymentTrail, EventsOf, RequestAudited, AgreementAudited, TrailsAreLive;
    AuditedAsBefore(requests, requests', agreements, a, log, log', births, births', now);
    TrailsLiveAfterAgreementWrite(requests, requests', agreements, a, log, log');
  }

  lemma TrailsLiveAfterAgreementWrite(
      requests: map<Principal, RentalRequest>, requests': map<Principal, RentalRequest>,
      agreements: map<Principal, RentalAgreement>, a: RentalAgreement, log: Log, log': Log)
    requires TrailsAreLive(requests, agreements, log)
    requires forall v | v != a.user :: v in requests' <==> v in requests
    requires a.subnetId in agreements ==> agreements[a.subnetId].user == a.user
    requires RequestTrail(EventsOf(log, Some(a.user))).LockedUp?
    requires forall k :: RequestTrail(EventsOf(log', k)) == RequestTrail(EventsOf(log, k))
    ensures TrailsAreLive(requests', agreements[a.subnetId := a], log')
  {
    hide RequestTrail, EventsOf, HasAgreement;
    RentersStay(agreements, a);
  }

  lemma RentersStay(agreements: map<Principal, RentalAgreement>, a: RentalAgreement)
    requires a.subnetId in agreements ==> agreements[a.subnetId].user == a.user
    ensures forall u :: HasAgreement(agreements[a.subnetId := a], u) <==> HasAgreement(agreements, u) || u == a.user
  {
    var agreements' := agreements[a.subnetId := a];
    forall u | HasAgreement(agreements, u) || u == a.user ensures HasAgreement(agreements', u) {
      if u == a.user {
        assert agreements'[a.subnetId].user == u;
      } else {
        var s :| s in agreements && agreements[s].user == u;
        assert agreements'[s].user == u;
      }
    }
  }

  lemma AuditedAsBefore(
      requests: map<Principal, RentalRequest>, requests': map<Principal, RentalRequest>,
      agreements: map<Principal, RentalAgreement>, a: RentalAgreement, log: Log, log': Log,
      births: map<Principal, Birth>, births': map<Principal, Birth>, now: nat)
    requires Audit(requests, agreements, log, births, now)
    requires forall s | s in agreements :: agreements[s].subnetId == s
    requires forall v | v in requests' :: v in requests && requests'[v] == requests[v]
    requires forall s | s in births && s != a.subnetId :: s in births' && births'[s] == births[s]
    requires forall k :: RequestTrail(EventsOf(log', k)) == RequestTrail(EventsOf(log, k))
    requires forall k | k != Some(a.subnetId) :: PaymentTrail(EventsOf(log', k)) == PaymentTrail(EventsOf(log, k))
    requires AgreementAudited(a, log', births')
    ensures forall v | v in requests' :: RequestAudited(requests'[v], log', now)
    ensures var agreements' := agreements[a.subnetId := a];
            forall s | s in agreements' :: AgreementAudited(agreements'[s], log', births')
  {
    hide RequestTrail, PaymentTrail, EventsOf, RequestAudited, TrailsAreLive;
    var agreements' := agreements[a.subnetId := a];
    forall v | v in requests' ensures RequestAudited(requests'[v], log', now) {
      OtherTrail(requests[v], log, log', now);
    }
    forall s | s in agreements' ensures AgreementAudited(agreements'[s], log', births') {
      if s != a.subnetId {
        assert AgreementAudited(agreements[s], log, births);
      }
    }
  }

  // ---------------------------------------------------------------- creation

  predicate CanFound(w: World, id: nat) {
    && id in w.tasks && w.tasks[id].job.CreateJob? && w.tasks[id].job.draft.Some?
    && w.tasks[id].call.AuthorizeCall? && w.tasks[id].reply.Done?
  }

  lemma CreateAtHand(w: World, id: nat)
    requires Inv(w) && CanFound(w, id)
    ensures var CreateJob(u, s, _, r, draft) := w.tasks[id].job;
            && w.tasks[id].call.account == u
            && w.tasks[id].call.amount == r.initialCostIcp - r.lockedAmountIcp && r.initialCostIcp <= U64_MAX
            && u in w.st.requests && w.st.requests[u] == r && r.user == u && s !in w.st.agreements
            && DraftFits(draft.value, u, s, r, w.tasks[id].call.cycles)
            && (forall s | s in w.st.agreements :: w.st.agreements[s].subnetId == s && w.st.agreements[s].user != u)
            && (forall i | i in w.tasks && w.tasks[i].job.RentalJob? :: w.tasks[i].job.user != u)
            && (forall v | v in w.st.requests :: w.st.requests[v].user == v)
            && PaymentTrail(EventsOf(w.st.log, Some(s))) == Payments(0, 0, 0, None, 0)
  {
    hide CyclesConserved, Spending, Backing, LocksAreHeld, RequestTrail, PaymentTrail, EventsOf;
    assert AtProgramPoint(w.tasks[id]) && StillHolds(w.st.requests, w.st.agreements, w.tasks[id].job);
    var r := w.tasks[id].job.request;
    assert RequestAudited(r, w.st.log, w.now);
    TenthsAreNoMoreThanTheCost(r, RequestTrail(EventsOf(w.st.log, Some(r.user))).times, w.now);
    forall i | i in w.tasks && w.tasks[i].job.RentalJob? ensures w.tasks[i].job.user != w.tasks[id].job.user {
      assert StillHolds(w.st.requests, w.st.agreements, w.tasks[i].job);
    }
  }

  lemma TenthsAreNoMoreThanTheCost(r: RentalRequest, times: nat, now: nat)
    requires OnSchedule(r, times, now)
    ensures r.lockedAmountIcp <= r.initialCostIcp
    ensures times == 10 && r.initialCostIcp >= 10 ==> r.initialCostIcp - r.lockedAmountIcp == r.initialCostIcp % 10
  {
    if r.initialCostIcp >= 10 {
      Division.MulMonotone(r.initialCostIcp / 10, times, 10);
    }
  }

  function Founded(w: World, id: nat): World
    requires CanFound(w, id) && w.tasks[id].job.draft.value.user in w.st.requests
    requires w.tasks[id].job.draft.value.subnetId !in w.st.agreements
  {
    var a := w.tasks[id].job.draft.value;
    OpenAgreement(w, id, FinishCreate(w.st, a, w.now).value, a)
  }

  predicate Founding(w: World, id: nat) {
    && CanFound(w, id) && w.tasks[id].job.draft.value.user in w.st.requests
    && w.tasks[id].job.draft.value.subnetId !in w.st.agreements
  }

  lemma FoundedLog(w: World, id: nat)
    requires Founding(w, id)
    ensures var log' := Founded(w, id).st.log;
            && (forall k :: RequestTrail(EventsOf(log', k)) == RequestTrail(EventsOf(w.st.log, k)))
            && (forall k :: PaymentTrail(EventsOf(log', k)) == PaymentTrail(EventsOf(w.st.log, k)))
  {
    hide RequestTrail, PaymentTrail, EventsOf, Append;
    var a := w.tasks[id].job.draft.value;
    ReplayAppend(
      w.st.log, Some(a.subnetId),
      RentalAgreementCreated(a.user, a.rentalRequestProposalId, a.subnetCreationProposalId, a.rentalConditionId), w.now);
  }

  lemma StillHoldsAfterFounding(
      job: Job, u: Principal, a: RentalAgreement,
      requests: map<Principal, RentalRequest>, agreements: map<Principal, RentalAgreement>)
    requires StillHolds(requests, agreements, job)
    requires Guard(u, RequestTag) !in Guards(job) && Guard(a.subnetId, NnsTag) !in Guards(job)
    requires a.user == u && a.subnetId !in agreements
    ensures StillHolds(requests - {u}, agreements[a.subnetId := a], job)
  {
  }

  lemma FoundingKeepsPoints(w: World, id: nat)
    requires Inv(w) && Founding(w, id)
    ensures var w' := Founded(w, id);
            && Base(w'.st.locks, w'.tasks) && Clocks(w'.now, w'.tasks)
            && ChecksHold(w'.st.requests, w'.st.agreements, w'.tasks)
  {
    hide Inv, Base, Clocks, ChecksHold, Append, StillHolds;
    CreateAtHand(w, id);
    var a := w.tasks[id].job.draft.value;
    GuardExcludesOthers(w, id, Guard(a.user, RequestTag));
    GuardExcludesOthers(w, id, Guard(a.subnetId, NnsTag));
    forall i | i in w.tasks && i != id
      ensures StillHolds(w.st.requests - {a.user}, w.st.agreements[a.subnetId := a], w.tasks[i].job)
    {
      StillHoldsAfterFounding(w.tasks[i].job, a.user, a, w.st.requests, w.st.agreements);
    }
    CloseKeepsPoints(w, id, w.st.requests - {a.user}, w.st.agreements[a.subnetId := a]);
  }

  lemma FoundingSettles(w: World, id: nat)
    requires Inv(w) && Founding(w, id)
    ensures var w' := Founded(w, id);
            var call := w.tasks[id].call;
            && Astray(w'.book.lost, w'.tasks, call.account) + call.amount == Astray(w.book.lost, w.tasks, call.account)
            && (forall v | v != call.account :: Astray(w'.book.lost, w'.tasks, v) == Astray(w.book.lost, w.tasks, v))
            && FlyingCycles(w'.tasks) + call.cycles == FlyingCycles(w.tasks)
  {
    hide Inv, Append;
    CloseSettles(w, id, w.tasks[id].call.account, w.tasks[id].call.amount);
  }

  lemma FoundingKeepsCycles(w: World, id: nat)
    requires Inv(w) && Founding(w, id)
    ensures var w' := Founded(w, id); CyclesConserved(w'.st.requests, w'.st.agreements, w'.tasks, w'.cycles, w'.book)
  {
    hide Base, Lifecycle, ChecksHold, Clocks, Backing, Spending, Audit, Append, Astray;
    hide FlyingCycles, LockedCycles, CreatedCycles, UnburnedCycles;
    CreateAtHand(w, id);
    var a := w.tasks[id].job.draft.value;
    FoundingSettles(w, id);
    RequestRemoved(w.st.requests, a.user);
    AgreementSet(w.st.agreements, a.subnetId, a);
  }

  lemma FoundingKeepsBacking(w: World, id: nat)
    requires Inv(w) && Founding(w, id)
    ensures var w' := Founded(w, id);
            && Backing(w'.st.requests, w'.icp, w'.book.lost, w'.tasks)
            && Spending(w'.st.requests, w'.st.agreements, w'.st.log, w'.book, w'.tasks)
  {
    hide Inv, Audit, Lifecycle, Append, RequestTrail, PaymentTrail, EventsOf, Astray, RefundPaid, RentalFunded, RentalSpending;
    var w' := Founded(w, id);
    var a := w.tasks[id].job.draft.value;
    CreateAtHand(w, id);
    FoundedLog(w, id);
    FoundingSettles(w, id);
    AgreementsAreBorn(w);
    BackingBefore(w, a.user);
    SpendingOfOthers(w, w', a.user) by { Parts(w); }
    BackingOfOthers(w, w', id, a.user);
    ClosedHasNoConversion(w', id);
  }

  lemma FoundingKeepsAudit(w: World, id: nat)
    requires Inv(w) && Founding(w, id)
    ensures var w' := Founded(w, id);
            Audit(w'.st.requests, w'.st.agreements, w'.st.log, w'.book.births, w'.now)
  {
    hide Inv, Audit, Append, RequestTrail, PaymentTrail, EventsOf, HasAgreement;
    var w' := Founded(w, id);
    var a := w.tasks[id].job.draft.value;
    CreateAtHand(w, id);
    FoundedLog(w, id);
    Parts(w);
    CustomerHasTrail(w, a.user);
    AuditAgreementWrite(
      w.st.requests, w'.st.requests, w.st.agreements, a, w.st.log, w'.st.log, w.book.births, w'.book.births, w.now);
  }

  lemma LifecycleAfterFounding(
      requests: map<Principal, RentalRequest>, agreements: map<Principal, RentalAgreement>, a: RentalAgreement)
    requires Lifecycle(requests, agreements) && a.user in requests && a.subnetId !in agreements
    ensures Lifecycle(requests - {a.user}, agreements[a.subnetId := a])
  {
  }

  lemma OpenAgreementKeeps(w: World, id: nat)
    requires Inv(w) && CanFound(w, id)
    ensures Founding(w, id) && Inv(Founded(w, id))
  {
    hide Base, Lifecycle, ChecksHold, Clocks, CyclesConserved, Backing, Spending, Audit, Append, Debit;
    CreateAtHand(w, id);
    FoundingKeepsPoints(w, id);
    FoundingKeepsCycles(w, id);
    FoundingKeepsBacking(w, id);
    FoundingKeepsAudit(w, id);
    LifecycleAfterFounding(w.st.requests, w.st.agreements, w.tasks[id].job.draft.value);
  }

  // ---------------------------------------------------------------- top-up

  predicate CanTopUp(w: World, id: nat) {
    && id in w.tasks && w.tasks[id].job.TopUpJob?
    && w.tasks[id].call.NotifyCall? && w.tasks[id].reply.Minted?
  }

  lemma InitialCostsAreCharged(c: ConditionId)
    ensures c in INITIAL_CONDITIONS && CostPerSecond(INITIAL_CONDITIONS[c].dailyCostCycles) > 0
  {
    match c
    case App13CH =>
    case App7CH =>
  }

  lemma TopUpAtHand(w: World, id: nat)
    requires Inv(w) && CanTopUp(w, id)
    ensures var TopUpJob(s, a, balance) := w.tasks[id].job;
            && w.tasks[id].call.account == a.user
            && balance >= DEFAULT_FEE && w.tasks[id].call.amount == balance - DEFAULT_FEE
            && s in w.st.agreements && w.st.agreements[s] == a && a.subnetId == s && Sound(a)
            && a.rentalConditionId in w.st.conditions
            && CostPerSecond(w.st.conditions[a.rentalConditionId].dailyCostCycles) > 0
            && (forall v | v in w.st.requests :: w.st.requests[v].user == v && v != a.user)
            && (forall s' | s' in w.st.agreements && s' != s :: w.st.agreements[s'].user != a.user)
            && (forall s' | s' in w.st.agreements :: w.st.agreements[s'].subnetId == s')
            && (forall i | i in w.tasks && w.tasks[i].job.RentalJob? :: w.tasks[i].job.user != a.user)
  {
    hide Spending, Backing, LocksAreHeld, Audit, FlyingCycles, LockedCycles, CreatedCycles, UnburnedCycles;
    InitialCostsAreCharged(w.tasks[id].job.agreement.rentalConditionId);
    assert AtProgramPoint(w.tasks[id]) && StillHolds(w.st.requests, w.st.agreements, w.tasks[id].job);
    forall i | i in w.tasks && w.tasks[i].job.RentalJob? ensures w.tasks[i].job.user != w.tasks[id].job.agreement.user {
      assert StillHolds(w.st.requests, w.st.agreements, w.tasks[i].job);
    }
  }

  predicate Paying(w: World, id: nat) {
    && CanTopUp(w, id) && w.tasks[id].job.subnet in w.st.agreements
    && w.tasks[id].job.agreement.rentalConditionId in w.st.conditions
    && CostPerSecond(w.st.conditions[w.tasks[id].job.agreement.rentalConditionId].dailyCostCycles) > 0
  }

  function DailyCost(w: World, id: nat): nat
    requires Paying(w, id)
  {
    w.st.conditions[w.tasks[id].job.agreement.rentalConditionId].dailyCostCycles
  }

  function Paid(w: World, id: nat): World
    requires Paying(w, id)
  {
    var Task(job, call, reply) := w.tasks[id];
    BookTopUp(w, id, FinishTopUp(w.st, job.subnet, job.agreement, job.balance, call.block, reply.cycles, w.now).value)
  }

  lemma PaidLog(w: World, id: nat)
    requires Paying(w, id)
    ensures var TopUpJob(s, a, balance) := w.tasks[id].job;
            var log' := Paid(w, id).st.log;
            && (forall k :: RequestTrail(EventsOf(log', k)) == RequestTrail(EventsOf(w.st.log, k)))
            && (forall k | k != Some(s) :: PaymentTrail(EventsOf(log', k)) == PaymentTrail(EventsOf(w.st.log, k)))
            && var p, p' := PaymentTrail(EventsOf(w.st.log, Some(s))), PaymentTrail(EventsOf(log', Some(s)));
               p' == Payments(p.cycles + w.tasks[id].reply.cycles, p.icp + balance, p.topUps + 1,
                              Some(Paid(w, id).st.agreements[s].paidUntilNanos), p.switches)
  {
    hide RequestTrail, PaymentTrail, EventsOf, Append, TopUpDeadline, DaysAdded;
    var Task(TopUpJob(s, a, balance), call, reply) := w.tasks[id];
    var transfer := TransferSuccess(SatSub(balance, DEFAULT_FEE), call.block);
    var written := TopUpWrite(w.st.agreements[s], a, balance, reply.cycles, DailyCost(w, id));
    var event := SubnetTopUp(a.user, balance, reply.cycles, DaysAdded(reply.cycles, DailyCost(w, id)), written.paidUntilNanos);
    ReplayAppend(w.st.log, Some(s), transfer, w.now);
    ReplayAppend(Append(w.st.log, Some(s), transfer, w.now), Some(s), event, w.now);
    assert Paid(w, id).st.log == Append(Append(w.st.log, Some(s), transfer, w.now), Some(s), event, w.now);
  }

  /** The write changes three fields of the agreement, and the totals do not saturate at u128. */
  lemma PaidRecord(w: World, id: nat)
    requires Inv(w) && Paying(w, id)
    ensures var TopUpJob(s, a, balance) := w.tasks[id].job;
            var a' := Paid(w, id).st.agreements[s];
            && a' == a.(totalCyclesCreated := a.totalCyclesCreated + w.tasks[id].reply.cycles,
                        totalIcpPaid := SatAdd64(a.totalIcpPaid, balance),
                        paidUntilNanos := a'.paidUntilNanos)
            && a'.totalCyclesCreated <= U128_MAX
            && Paid(w, id).st.agreements == w.st.agreements[s := a']
  {
    hide Base, ChecksHold, Lifecycle, Spending, Backing, Clocks, Audit, Append, TopUpDeadline, DaysAdded;
    hide FlyingCycles, LockedCycles, CreatedCycles, UnburnedCycles, Sound;
    TopUpAtHand(w, id);
    var s := w.tasks[id].job.subnet;
    AgreementSet(w.st.agreements, s, w.st.agreements[s]);
    TaskSet(w.tasks, id, w.tasks[id].(reply := Pending));
  }

  lemma PaySettles(w: World, id: nat)
    requires Inv(w) && Paying(w, id)
    ensures var w' := Paid(w, id);
            var call := w.tasks[id].call;
            && Astray(w'.book.lost, w'.tasks, call.account) + call.amount == Astray(w.book.lost, w.tasks, call.account)
            && (forall v | v != call.account :: Astray(w'.book.lost, w'.tasks, v) == Astray(w.book.lost, w.tasks, v))
            && FlyingCycles(w'.tasks) + w.tasks[id].reply.cycles == FlyingCycles(w.tasks)
  {
    hide Inv, Append, FinishTopUp;
    CloseSettles(w, id, w.tasks[id].call.account, w.tasks[id].call.amount);
  }

  lemma StillHoldsAfterAgreementWrite(
      job: Job, a: RentalAgreement, requests: map<Principal, RentalRequest>, agreements: map<Principal, RentalAgreement>)
    requires StillHolds(requests, agreements, job) && Guard(a.subnetId, AgreementTag) !in Guards(job)
    requires a.subnetId in agreements && agreements[a.subnetId].user == a.user
    ensures StillHolds(requests, agreements[a.subnetId := a], job)
  {
  }

  lemma PayKeepsPoints(w: World, id: nat)
    requires Inv(w) && Paying(w, id)
    ensures var w' := Paid(w, id);
            && Base(w'.st.locks, w'.tasks) && Clocks(w'.now, w'.tasks)
            && ChecksHold(w'.st.requests, w'.st.agreements, w'.tasks)
  {
    hide Inv, Base, Clocks, ChecksHold, StillHolds, Append, TopUpDeadline, DaysAdded;
    TopUpAtHand(w, id);
    PaidRecord(w, id);
    var a' := Paid(w, id).st.agreements[w.tasks[id].job.subnet];
    GuardExcludesOthers(w, id, Guard(a'.subnetId, AgreementTag));
    forall i | i in w.tasks && i != id
      ensures StillHolds(w.st.requests, w.st.agreements[a'.subnetId := a'], w.tasks[i].job)
    {
      StillHoldsAfterAgreementWrite(w.tasks[i].job, a', w.st.requests, w.st.agreements);
    }
    CloseKeepsPoints(w, id, w.st.requests, w.st.agreements[a'.subnetId := a']);
  }

  lemma PayKeepsCycles(w: World, id: nat)
    requires Inv(w) && Paying(w, id)
    ensures var w' := Paid(w, id); CyclesConserved(w'.st.requests, w'.st.agreements, w'.tasks, w'.cycles, w'.book)
  {
    hide Base, Lifecycle, ChecksHold, Clocks, Backing, Spending, Audit, Append, Astray, TopUpWrite, DaysAdded;
    hide FlyingCycles, LockedCycles, CreatedCycles, UnburnedCycles;
    TopUpAtHand(w, id);
    PaidRecord(w, id);
    PaySettles(w, id);
    AgreementSet(w.st.agreements, w.tasks[id].job.subnet, Paid(w, id).st.agreements[w.tasks[id].job.subnet]);
  }

  lemma PayKeepsBacking(w: World, id: nat)
    requires Inv(w) && Paying(w, id)
    ensures var w' := Paid(w, id);
            && Backing(w'.st.requests, w'.icp, w'.book.lost, w'.tasks)
            && Spending(w'.st.requests, w'.st.agreements, w'.st.log, w'.book, w'.tasks)
  {
    hide Inv, Audit, Lifecycle, Append, RequestTrail, PaymentTrail, EventsOf, Astray, RefundPaid, RentalFunded, RentalSpending;
    hide TopUpWrite, DaysAdded, Sound, HasAgreement;
    var w' := Paid(w, id);
    var a := w.tasks[id].job.agreement;
    TopUpAtHand(w, id);
    PaidRecord(w, id);
    PaidLog(w, id);
    PaySettles(w, id);
    AgreementsAreBorn(w);
    SpentBefore(w, w.tasks[id].job.subnet);
    SpendingOfOthers(w, w', a.user) by { Parts(w); }
    BackingOfOthers(w, w', id, a.user);
    ClosedHasNoConversion(w', id);
  }

  lemma SpentBefore(w: World, s: Principal)
    requires Inv(w) && s in w.st.agreements
    ensures AgreementSpending(w.st.agreements[s], w.st.log, w.book, w.tasks)
    ensures AgreementAudited(w.st.agreements[s], w.st.log, w.book.births)
  {
    hide Base, Lifecycle, ChecksHold, CyclesConserved, Clocks, Backing, AgreementSpending, AgreementAudited, PaymentTrail, EventsOf;
  }

  lemma PayKeepsAudit(w: World, id: nat)
    requires Inv(w) && Paying(w, id)
    ensures var w' := Paid(w, id);
            Audit(w'.st.requests, w'.st.agreements, w'.st.log, w'.book.births, w'.now)
  {
    hide Inv, Audit, Append, RequestTrail, PaymentTrail, EventsOf, HasAgreement, Sound, TopUpDeadline, DaysAdded;
    var w' := Paid(w, id);
    var s := w.tasks[id].job.subnet;
    TopUpAtHand(w, id);
    PaidRecord(w, id);
    PaidLog(w, id);
    SpentBefore(w, s);
    Parts(w);
    assert AgreementAudited(w'.st.agreements[s], w'.st.log, w.book.births);
    CustomerHasTrail(w, w.st.agreements[s].user);
    AuditAgreementWrite(
      w.st.requests, w'.st.requests, w.st.agreements, w'.st.agreements[s], w.st.log, w'.st.log, w.book.births, w.book.births, w.now);
  }

  lemma LifecycleAfterAgreementWrite(
      requests: map<Principal, RentalRequest>, agreements: map<Principal, RentalAgreement>, a: RentalAgreement)
    requires Lifecycle(requests, agreements)
    requires a.subnetId in agreements && agreements[a.subnetId].user == a.user
    ensures Lifecycle(requests, agreements[a.subnetId := a])
  {
  }

  lemma BookTopUpKeeps(w: World, id: nat)
    requires Inv(w) && CanTopUp(w, id)
    ensures Paying(w, id) && Inv(Paid(w, id))
  {
    hide Base, Lifecycle, ChecksHold, Clocks, CyclesConserved, Backing, Spending, Audit, Append, Debit, TopUpDeadline, DaysAdded;
    TopUpAtHand(w, id);
    PaidRecord(w, id);
    PayKeepsPoints(w, id);
    PayKeepsCycles(w, id);
    PayKeepsBacking(w, id);
    PayKeepsAudit(w, id);
    LifecycleAfterAgreementWrite(w.st.requests, w.st.agreements, Paid(w, id).st.agreements[w.tasks[id].job.subnet]);
  }

  // ---------------------------------------------------------------- burning

  /** A sweep touches only burned totals, and only of agreements whose guard is free; what leaves the
      balance is what the agreements have less to burn. */
  lemma {:induction false} SweepBurnsWhatItBooks(
      agreements: map<Principal, RentalAgreement>, locks: set<Guard>, balance: nat, order: seq<Principal>, now: nat)
    requires forall s | s in agreements :: Sound(agreements[s])
    requires BurnSweep(agreements, locks, balance, order, now).Swept?
    ensures var Swept(agreements', balance') := BurnSweep(agreements, locks, balance, order, now);
            && agreements'.Keys == agreements.Keys
            && (forall s | s in agreements ::
                  && Sound(agreements'[s])
                  && agreements'[s] == agreements[s].(totalCyclesBurned := agreements'[s].totalCyclesBurned)
                  && (Guard(s, AgreementTag) in locks ==> agreements'[s] == agreements[s]))
            && CreatedCycles(agreements') == CreatedCycles(agreements)
            && balance' <= balance
            && UnburnedCycles(agreements) - UnburnedCycles(agreements') == balance - balance'
    decreases |order|
  {
    hide CreatedCycles, UnburnedCycles, BurnOne;
    if order != [] {
      var s := order[0];
      if Guard(s, AgreementTag) in locks || s !in agreements {
        SweepBurnsWhatItBooks(agreements, locks, balance, order[1..], now);
      } else {
        var burn := BurnOne(agreements[s], balance, now);
        BurnConserves(agreements[s], balance, now);
        AgreementSet(agreements, s, burn.agreement);
        SweepBurnsWhatItBooks(agreements[s := burn.agreement], locks, burn.balance, order[1..], now);
      }
    }
  }

  /** Agreements rewritten without a change of subnet or renter. */
  ghost predicate SameRenters(agreements: map<Principal, RentalAgreement>, agreements': map<Principal, RentalAgreement>) {
    && agreements'.Keys == agreements.Keys
    && forall s | s in agreements ::
         agreements'[s].user == agreements[s].user && agreements'[s].subnetId == agreements[s].subnetId
  }

  lemma LifecycleOfSameRenters(
      requests: map<Principal, RentalRequest>, agreements: map<Principal, RentalAgreement>, agreements': map<Principal, RentalAgreement>)
    requires Lifecycle(requests, agreements) && SameRenters(agreements, agreements')
    ensures Lifecycle(requests, agreements')
  {
    assert forall s | s in agreements' :: s in agreements;
  }

  lemma StillHoldsAfterSweep(
      job: Job, requests: map<Principal, RentalRequest>, agreements: map<Principal, RentalAgreement>,
      agreements': map<Principal, RentalAgreement>, locks: set<Guard>)
    requires StillHolds(requests, agreements, job) && Guards(job) <= locks && SameRenters(agreements, agreements')
    requires forall s | s in agreements && Guard(s, AgreementTag) in locks :: agreements'[s] == agreements[s]
    ensures StillHolds(requests, agreements', job)
  {
    assert forall s | s in agreements' :: s in agreements;
  }

  lemma SpendingOfSameRenters(
      requests: map<Principal, RentalRequest>, agreements: map<Principal, RentalAgreement>, agreements': map<Principal, RentalAgreement>,
      log: Log, book: Book, tasks: map<nat, Task>)
    requires Spending(requests, agreements, log, book, tasks) && SameRenters(agreements, agreements')
    ensures Spending(requests, agreements', log, book, tasks)
  {
    hide Astray, RequestSpending, RentalSpending, PaymentTrail, EventsOf, At;
    forall s | s in agreements' ensures AgreementSpending(agreements'[s], log, book, tasks) {
      assert AgreementSpending(agreements[s], log, book, tasks);
    }
  }

  lemma SameAgreementsHeld(
      requests: map<Principal, RentalRequest>, agreements: map<Principal, RentalAgreement>, agreements': map<Principal, RentalAgreement>,
      log: Log)
    requires agreements'.Keys == agreements.Keys && forall s | s in agreements :: agreements'[s].user == agreements[s].user
    requires TrailsAreLive(requests, agreements, log)
    ensures TrailsAreLive(requests, agreements', log)
  {
    hide RequestTrail, EventsOf;
    forall u ensures HasAgreement(agreements', u) <==> HasAgreement(agreements, u) {
      if s :| s in agreements && agreements[s].user == u {
        assert s in agreements' && agreements'[s].user == u;
      }
      if s :| s in agreements' && agreements'[s].user == u {
        assert s in agreements && agreements[s].user == u;
      }
    }
  }

  lemma AuditOfBurns(
      requests: map<Principal, RentalRequest>, agreements: map<Principal, RentalAgreement>, agreements': map<Principal, RentalAgreement>,
      log: Log, births: map<Principal, Birth>, now: nat)
    requires Audit(requests, agreements, log, births, now) && agreements'.Keys == agreements.Keys
    requires forall s | s in agreements ::
               agreements'[s] == agreements[s].(totalCyclesBurned := agreements'[s].totalCyclesBurned)
    ensures Audit(requests, agreements', log, births, now)
  {
    hide RequestAudited, RequestTrail, PaymentTrail, EventsOf, TrailsAreLive;
    assert TrailsAreLive(requests, agreements', log) by { SameAgreementsHeld(requests, agreements, agreements', log); }
    forall s | s in agreements' ensures AgreementAudited(agreements'[s], log, births) {
      assert AgreementAudited(agreements[s], log, births);
    }
    assert forall s | s !in agreements' :: s !in agreements;
  }

  lemma SweepKeepsChecks(w: World, agreements': map<Principal, RentalAgreement>)
    requires Inv(w) && SameRenters(w.st.agreements, agreements')
    requires forall s | s in w.st.agreements && Guard(s, AgreementTag) in w.st.locks :: agreements'[s] == w.st.agreements[s]
    ensures ChecksHold(w.st.requests, agreements', w.tasks)
  {
    hide Lifecycle, CyclesConserved, Backing, Spending, Audit, AtProgramPoint, StillHolds, Guards, SameRenters;
    forall i | i in w.tasks ensures StillHolds(w.st.requests, agreements', w.tasks[i].job) {
      assert StillHolds(w.st.requests, w.st.agreements, w.tasks[i].job);
      StillHoldsAfterSweep(w.tasks[i].job, w.st.requests, w.st.agreements, agreements', w.st.locks);
    }
  }

  lemma BurnAllKeeps(w: World, order: seq<Principal>)
    requires Inv(w) && Enabled(w, BurnAll(order))
    ensures Inv(ApplyBurn(w, order))
  {
    hide Base, ChecksHold, Backing, Spending, Audit, Clocks, Lifecycle, BurnSweep;
    hide FlyingCycles, LockedCycles, CreatedCycles, UnburnedCycles;
    var w' := ApplyBurn(w, order);
    SweepBurnsWhatItBooks(w.st.agreements, w.st.locks, w.cycles, order, w.now);
    SweepKeepsChecks(w, w'.st.agreements);
    LifecycleOfSameRenters(w.st.requests, w.st.agreements, w'.st.agreements);
    SpendingOfSameRenters(w.st.requests, w.st.agreements, w'.st.agreements, w.st.log, w.book, w.tasks);
    AuditOfBurns(w.st.requests, w.st.agreements, w'.st.agreements, w.st.log, w.book.births, w.now);
  }

  // ---------------------------------------------------------------- upgrade

  lemma UpgradeRestoresConditions(w: World, target: Principal)
    requires Inv(w) && w.tasks == map[]
    ensures var first := Note(w, None, RentalConditionsChanged(App13CH, Some(INITIAL_CONDITIONS[App13CH])));
            var second := Note(first, None, RentalConditionsChanged(App7CH, Some(INITIAL_CONDITIONS[App7CH])));
            Inv(second) && SetInitialConditions(w.st.(locks := {}), w.now) == second.st
  {
    hide Lifecycle, CyclesConserved, Backing, Spending, Audit, ChecksHold;
    assert w.st.locks == {};
    assert w.st.conditions[App13CH := INITIAL_CONDITIONS[App13CH]] == w.st.conditions;
    assert w.st.conditions[App7CH := INITIAL_CONDITIONS[App7CH]] == w.st.conditions;
    NoteKeeps(w, None, RentalConditionsChanged(App13CH, Some(INITIAL_CONDITIONS[App13CH])));
    var first := Note(w, None, RentalConditionsChanged(App13CH, Some(INITIAL_CONDITIONS[App13CH])));
    NoteKeeps(first, None, RentalConditionsChanged(App7CH, Some(INITIAL_CONDITIONS[App7CH])));
  }

  predicate Migrates(w: World, target: Principal) {
    && w.tasks == map[] && target in w.st.agreements
    && w.st.agreements[target].rentalConditionId == App13CH && App7CH in w.st.conditions
  }

  lemma MigratedLog(w: World, target: Principal)
    requires Migrates(w, target)
    ensures var log' := Migrate(w.st, target, w.now).log;
            && (forall k :: RequestTrail(EventsOf(log', k)) == RequestTrail(EventsOf(w.st.log, k)))
            && (forall k | k != Some(target) :: PaymentTrail(EventsOf(log', k)) == PaymentTrail(EventsOf(w.st.log, k)))
            && var p, p' := PaymentTrail(EventsOf(w.st.log, Some(target))), PaymentTrail(EventsOf(log', Some(target)));
               p' == p.(deadline := Some(Migrate(w.st, target, w.now).agreements[target].paidUntilNanos),
                        switches := p.switches + 1)
  {
    hide RequestTrail, PaymentTrail, EventsOf, Append, Reprice;
    var a := w.st.agreements[target];
    var a' := Migrate(w.st, target, w.now).agreements[target];
    ReplayAppend(
      w.st.log, Some(target),
      RentalConditionSwitched(a.user, App13CH, App7CH, a.Remaining(), a.paidUntilNanos, a'.paidUntilNanos), w.now);
  }

  lemma MigrateKeepsAudit(w: World, target: Principal)
    requires Inv(w) && Migrates(w, target)
    ensures var st' := Migrate(w.st, target, w.now);
            && Audit(st'.requests, st'.agreements, st'.log, w.book.births, w.now)
            && Spending(st'.requests, st'.agreements, st'.log, w.book, w.tasks)
  {
    hide Inv, Audit, Append, RequestTrail, PaymentTrail, EventsOf, HasAgreement, Reprice, Astray;
    var st' := Migrate(w.st, target, w.now);
    MigratedLog(w, target);
    AgreementsAreBorn(w);
    SpentBefore(w, target);
    Parts(w);
    assert AgreementAudited(st'.agreements[target], st'.log, w.book.births);
    CustomerHasTrail(w, w.st.agreements[target].user);
    AuditAgreementWrite(
      w.st.requests, st'.requests, w.st.agreements, st'.agreements[target], w.st.log, st'.log, w.book.births, w.book.births, w.now);
  }

  lemma MigrateKeeps(w: World, target: Principal)
    requires Inv(w) && Migrates(w, target)
    ensures Inv(w.(st := Migrate(w.st, target, w.now)))
  {
    hide Base, Backing, Spending, Audit, Clocks, Lifecycle, Append, Reprice;
    hide FlyingCycles, LockedCycles, CreatedCycles, UnburnedCycles;
    var st' := Migrate(w.st, target, w.now);
    AgreementsAreBorn(w);
    MigrateKeepsAudit(w, target);
    AgreementSet(w.st.agreements, target, st'.agreements[target]);
    LifecycleOfSameRenters(w.st.requests, w.st.agreements, st'.agreements);
  }

  lemma UpgradeKeeps(w: World, target: Principal)
    requires Inv(w) && w.tasks == map[]
    ensures Inv(w.(st := Upgrade(w.st, target, w.now)))
  {
    hide Inv, Migrate, SetInitialConditions;
    UpgradeRestoresConditions(w, target);
    var first := Note(w, None, RentalConditionsChanged(App13CH, Some(INITIAL_CONDITIONS[App13CH])));
    var second := Note(first, None, RentalConditionsChanged(App7CH, Some(INITIAL_CONDITIONS[App7CH])));
    if Migrates(second, target) {
      MigrateKeeps(second, target);
    } else {
      MigrateSkips(second, target);
    }
  }

  lemma MigrateSkips(w: World, target: Principal)
    requires w.tasks == map[] && !Migrates(w, target)
    ensures Migrate(w.st, target, w.now) == w.st
  {
  }
}
