/** What holds of every run without F: all but the money and the copies that sweeps work on. */
module AnyRun {
  import opened Types
  import opened History
  import opened Deadlines
  import opened Burning
  import opened State
  import opened World
  import opened Invariant
  import opened Blocks
  import opened Writes
  import opened AgreementWrites
  import opened Effects
  import opened Runs

  // ---------------------------------------------------------------- the invariant

  predicate Tenths(r: RentalRequest, k: nat) {
    1 <= k <= 10 && r.lockedAmountIcp == k * (r.initialCostIcp / 10)
  }

  /** A request, stored or copied, has some number of tenths locked, and fits its machine integers. */
  ghost predicate InTenths(r: RentalRequest) {
    && r.initialCostIcp <= U64_MAX && r.lockedAmountCycles <= U128_MAX
    && exists k: nat :: Tenths(r, k)
  }

  /** What a task carries over its awaits, whatever happens to the records meanwhile. */
  ghost predicate Carries(t: Task) {
    && (t.reply.Minted? ==> t.reply.cycles <= U128_MAX)
    && match t.job
       case RentalJob(_, _, _, needed) => needed <= U64_MAX
       case CreateJob(user, subnet, _, r, draft) =>
         && InTenths(r)
         && (t.call.AuthorizeCall? ==> draft.Some? && DraftFits(draft.value, user, subnet, r, t.call.cycles))
       case LockJob(copy, sweepNow, rest) =>
         InTenths(copy) && LockingDue(copy, sweepNow) && forall c | c in rest :: InTenths(c)
       case _ => true
  }

  /** The agreement is what its log says, with the total of cycles capped at u128. */
  ghost predicate AgreementKept(a: RentalAgreement, log: Log, births: map<Principal, Birth>) {
    && Sound(a) && a.paidUntilNanos <= U64_MAX && a.subnetId in births
    && var paid := PaymentTrail(EventsOf(log, Some(a.subnetId)));
       var birth := births[a.subnetId];
       && a.totalCyclesCreated == Min(birth.cycles + paid.cycles, U128_MAX)
       && a.totalIcpPaid == Min(birth.icp + paid.icp, U64_MAX)
       && a.paidUntilNanos == (match paid.deadline
                               case None => CreationDeadline(a.creationTimeNanos, INITIAL_RENTAL_PERIOD_DAYS)
                               case Some(d) => d)
       && paid.switches <= 1
       && (a.rentalConditionId == App13CH ==> paid.switches == 0)
  }

  ghost predicate AgreementsKept(agreements: map<Principal, RentalAgreement>, log: Log, births: map<Principal, Birth>) {
    && (forall s | s in agreements :: AgreementKept(agreements[s], log, births))
    && (forall s | s !in agreements :: PaymentTrail(EventsOf(log, Some(s))) == Payments(0, 0, 0, None, 0))
  }

  ghost predicate AllInTenths(requests: map<Principal, RentalRequest>) {
    forall u | u in requests :: InTenths(requests[u])
  }

  ghost predicate Records(
      requests: map<Principal, RentalRequest>, agreements: map<Principal, RentalAgreement>, log: Log, births: map<Principal, Birth>)
  {
    && Lifecycle(requests, agreements) && AllInTenths(requests)
    && AgreementsKept(agreements, log, births) && TrailsAreLive(requests, agreements, log)
  }

  /** What tasks other than sweeps checked or read still holds. */
  ghost predicate Checked(requests: map<Principal, RentalRequest>, agreements: map<Principal, RentalAgreement>, tasks: map<nat, Task>) {
    forall id | id in tasks && !tasks[id].job.LockJob? :: StillHolds(requests, agreements, tasks[id].job)
  }

  ghost predicate AllCarry(tasks: map<nat, Task>) {
    forall id | id in tasks :: Carries(tasks[id])
  }

  ghost predicate Solid(w: World) {
    && LocksAreHeld(w.st.locks, w.tasks)
    && Records(w.st.requests, w.st.agreements, w.st.log, w.book.births)
    && Checked(w.st.requests, w.st.agreements, w.tasks)
    && AllCarry(w.tasks)
    && w.st.conditions == INITIAL_CONDITIONS
  }

  lemma GuardExcludes(locks: set<Guard>, tasks: map<nat, Task>, id: nat, g: Guard)
    requires LocksAreHeld(locks, tasks) && id in tasks && g in Guards(tasks[id].job)
    ensures forall i | i in tasks && i != id :: g !in Guards(tasks[i].job)
  {
    hide Guards;
  }

  // ---------------------------------------------------------------- records

  lemma SameRecordsKeep(w: World, w': World)
    requires Records(w.st.requests, w.st.agreements, w.st.log, w.book.births) && SameRecords(w, w')
    ensures Records(w'.st.requests, w'.st.agreements, w'.st.log, w'.book.births)
  {
    hide Lifecycle, AllInTenths, RequestTrail, PaymentTrail, EventsOf, HasAgreement, Sound;
  }

  lemma NewRequestInTenths(user: Principal, condition: ConditionId, proposal: nat, needed: nat, cycles: nat, now: nat)
    requires needed <= U64_MAX && cycles <= U128_MAX
    ensures InTenths(NewRequest(user, condition, proposal, needed, cycles, now))
  {
    assert Tenths(NewRequest(user, condition, proposal, needed, cycles, now), 1);
  }

  lemma LockedOnceInTenths(copy: RentalRequest, cycles: nat, sweepNow: nat)
    requires InTenths(copy) && LockingDue(copy, sweepNow)
    ensures InTenths(LockedOnce(copy, cycles, sweepNow))
    ensures LockedOnce(copy, cycles, sweepNow).lockedAmountIcp == copy.lockedAmountIcp + copy.initialCostIcp / 10
  {
    var k: nat :| Tenths(copy, k);
    DueTenths(copy.initialCostIcp / 10, k);
    assert Tenths(LockedOnce(copy, cycles, sweepNow), k + 1);
  }

  lemma DueTenths(tenth: nat, k: nat)
    requires k * tenth < tenth * 10
    ensures k < 10 && k * tenth + tenth == (k + 1) * tenth <= tenth * 10
  {
    if k >= 10 {
      Division.MulMonotone(tenth, 10, k);
    } else {
      Division.MulMonotone(tenth, k + 1, 10);
    }
  }

  lemma AgreementsKeptAlong(
      agreements: map<Principal, RentalAgreement>, log: Log, log': Log, births: map<Principal, Birth>)
    requires AgreementsKept(agreements, log, births)
    requires forall k :: PaymentTrail(EventsOf(log', k)) == PaymentTrail(EventsOf(log, k))
    ensures AgreementsKept(agreements, log', births)
  {
    hide PaymentTrail, EventsOf, Sound;
  }

  lemma PaymentsAlong(log: Log, log': Log, u: Principal, trail: Trail)
    requires RequestTrailBecomes(log, log', u, trail)
    ensures forall k :: PaymentTrail(EventsOf(log', k)) == PaymentTrail(EventsOf(log, k))
    ensures forall k | k != Some(u) :: RequestTrail(EventsOf(log', k)) == RequestTrail(EventsOf(log, k))
    ensures RequestTrail(EventsOf(log', Some(u))) == trail
  {
    hide RequestTrail, PaymentTrail, EventsOf;
    forall k ensures PaymentTrail(EventsOf(log', k)) == PaymentTrail(EventsOf(log, k)) {
      if k != Some(u) {
        assert RequestTrail(EventsOf(log', k)) == RequestTrail(EventsOf(log, k));
      }
    }
  }

  /** A write of one user's request. */
  lemma RequestWriteKeepsRecords(w: World, w': World, u: Principal, trail: Trail)
    requires Records(w.st.requests, w.st.agreements, w.st.log, w.book.births)
    requires w'.st.agreements == w.st.agreements && w'.book.births == w.book.births
    requires forall v | v != u :: (v in w'.st.requests <==> v in w.st.requests) && (v in w'.st.requests ==> w'.st.requests[v] == w.st.requests[v])
    requires u in w'.st.requests ==>
               w'.st.requests[u].user == u && InTenths(w'.st.requests[u]) && !HasAgreement(w.st.agreements, u)
    requires RequestTrailBecomes(w.st.log, w'.st.log, u, trail)
    requires trail.LockedUp? <==> u in w'.st.requests || HasAgreement(w.st.agreements, u)
    ensures Records(w'.st.requests, w'.st.agreements, w'.st.log, w'.book.births)
  {
    hide InTenths, AgreementsKept, TrailsAreLive, HasAgreement, RequestTrailBecomes, RequestTrail, PaymentTrail, EventsOf;
    PaymentsAlong(w.st.log, w'.st.log, u, trail);
    AgreementsKeptAlong(w.st.agreements, w.st.log, w'.st.log, w.book.births);
    TrailsLiveAfterRequestWrite(w.st.requests, w'.st.requests, w.st.agreements, w.st.log, w'.st.log, u);
  }

  lemma OpeningKeepsRecords(w: World, w': World, id: nat)
    requires Solid(w) && id in w.tasks && w.tasks[id].job.RentalJob? && Opens(w, w', id)
    ensures Records(w'.st.requests, w'.st.agreements, w'.st.log, w'.book.births)
  {
    hide LocksAreHeld, Records, InTenths, HasAgreement, RequestTrailBecomes, RequestTrail, PaymentTrail, EventsOf;
    var Task(job, _, reply) := w.tasks[id];
    assert Carries(w.tasks[id]) && StillHolds(w.st.requests, w.st.agreements, job);
    NewRequestInTenths(job.user, job.condition, job.proposal, job.needed, reply.cycles, w.now);
    RequestWriteKeepsRecords(w, w', job.user, LockedUp(job.needed / 10, reply.cycles, 1));
  }

  lemma RequestersRent(w: World, u: Principal)
    requires Solid(w) && u in w.st.requests
    ensures w.st.requests[u].user == u && !HasAgreement(w.st.agreements, u)
    ensures RequestTrail(EventsOf(w.st.log, Some(u))).LockedUp?
  {
    hide LocksAreHeld, Checked, AllCarry, AllInTenths, AgreementsKept, RequestTrail, EventsOf, HasAgreement;
  }

  lemma CancellingKeepsRecords(w: World, w': World, id: nat)
    requires Solid(w) && id in w.tasks && w.tasks[id].job.RefundJob? && Cancels(w, w', id)
    ensures Records(w'.st.requests, w'.st.agreements, w'.st.log, w'.book.births)
  {
    hide Solid, Records, InTenths, HasAgreement, RequestTrailBecomes, RequestTrail, PaymentTrail, EventsOf;
    var u := w.tasks[id].job.user;
    RequestersRent(w, u);
    assert Records(w.st.requests, w.st.agreements, w.st.log, w.book.births) by { PartsOf(w); }
    RequestWriteKeepsRecords(w, w', u, NoRequest);
  }

  lemma PartsOf(w: World)
    requires Solid(w)
    ensures LocksAreHeld(w.st.locks, w.tasks) && Records(w.st.requests, w.st.agreements, w.st.log, w.book.births)
    ensures Checked(w.st.requests, w.st.agreements, w.tasks) && AllCarry(w.tasks)
    ensures w.st.conditions == INITIAL_CONDITIONS
  {
    hide LocksAreHeld, Records, Checked, AllCarry;
  }

  lemma TaskOf(w: World, id: nat)
    requires Solid(w) && id in w.tasks
    ensures Carries(w.tasks[id])
    ensures !w.tasks[id].job.LockJob? ==> StillHolds(w.st.requests, w.st.agreements, w.tasks[id].job)
  {
    hide LocksAreHeld, Records, Carries, StillHolds;
  }

  lemma RelockingKeepsRecords(w: World, w': World, id: nat)
    requires Solid(w) && id in w.tasks && w.tasks[id].job.LockJob? && Relocks(w, w', id)
    ensures Records(w'.st.requests, w'.st.agreements, w'.st.log, w'.book.births)
  {
    hide Solid, Records, InTenths, HasAgreement, RequestTrailBecomes, RequestTrail, PaymentTrail, EventsOf, LockingDue;
    var Task(LockJob(copy, sweepNow, _), _, reply) := w.tasks[id];
    TaskOf(w, id);
    PartsOf(w);
    RequestersRent(w, copy.user);
    LockedOnceInTenths(copy, reply.cycles, sweepNow);
    var event := LockingSuccess(copy.user, copy.initialCostIcp / 10, reply.cycles);
    RequestWriteKeepsRecords(w, w', copy.user, TrailStep(RequestTrail(EventsOf(w.st.log, Some(copy.user))), event));
  }

  // ---------------------------------------------------------------- agreements

  /** A write of one agreement, of a user who is a customer already. */
  lemma AgreementWriteKeepsRecords(w: World, w': World, a: RentalAgreement)
    requires Records(w.st.requests, w.st.agreements, w.st.log, w.book.births)
    requires w'.st.agreements == w.st.agreements[a.subnetId := a]
    requires Lifecycle(w'.st.requests, w'.st.agreements)
    requires forall u | u in w'.st.requests :: u in w.st.requests && w'.st.requests[u] == w.st.requests[u]
    requires forall u | u in w.st.requests && u != a.user :: u in w'.st.requests
    requires a.subnetId in w.st.agreements ==> w.st.agreements[a.subnetId].user == a.user
    requires a.user in w.st.requests || HasAgreement(w.st.agreements, a.user)
    requires forall s | s in w.book.births && s != a.subnetId :: s in w'.book.births && w'.book.births[s] == w.book.births[s]
    requires forall k :: RequestTrail(EventsOf(w'.st.log, k)) == RequestTrail(EventsOf(w.st.log, k))
    requires forall k | k != Some(a.subnetId) :: PaymentTrail(EventsOf(w'.st.log, k)) == PaymentTrail(EventsOf(w.st.log, k))
    requires AgreementKept(a, w'.st.log, w'.book.births)
    ensures Records(w'.st.requests, w'.st.agreements, w'.st.log, w'.book.births)
  {
    hide InTenths, TrailsAreLive, HasAgreement, RequestTrail, PaymentTrail, EventsOf, AgreementKept, Lifecycle;
    assert RequestTrail(EventsOf(w.st.log, Some(a.user))).LockedUp? by { CustomersAreLive(w, a.user); }
    TrailsLiveAfterAgreementWrite(w.st.requests, w'.st.requests, w.st.agreements, a, w.st.log, w'.st.log);
    forall s | s in w'.st.agreements ensures AgreementKept(w'.st.agreements[s], w'.st.log, w'.book.births) {
      if s != a.subnetId {
        KeyOf(w, s);
        OtherAgreementKept(w.st.agreements[s], w.st.log, w'.st.log, w.book.births, w'.book.births);
      }
    }
  }

  lemma CustomersAreLive(w: World, u: Principal)
    requires Records(w.st.requests, w.st.agreements, w.st.log, w.book.births)
    requires u in w.st.requests || HasAgreement(w.st.agreements, u)
    ensures RequestTrail(EventsOf(w.st.log, Some(u))).LockedUp?
  {
    hide Lifecycle, AllInTenths, AgreementsKept, RequestTrail, EventsOf, HasAgreement;
  }

  lemma KeyOf(w: World, s: Principal)
    requires Records(w.st.requests, w.st.agreements, w.st.log, w.book.births) && s in w.st.agreements
    ensures w.st.agreements[s].subnetId == s && AgreementKept(w.st.agreements[s], w.st.log, w.book.births)
    ensures HasAgreement(w.st.agreements, w.st.agreements[s].user)
  {
    hide AllInTenths, TrailsAreLive, AgreementKept;
  }

  lemma OtherAgreementKept(a: RentalAgreement, log: Log, log': Log, births: map<Principal, Birth>, births': map<Principal, Birth>)
    requires AgreementKept(a, log, births)
    requires a.subnetId in births ==> a.subnetId in births' && births'[a.subnetId] == births[a.subnetId]
    requires PaymentTrail(EventsOf(log', Some(a.subnetId))) == PaymentTrail(EventsOf(log, Some(a.subnetId)))
    ensures AgreementKept(a, log', births')
  {
    hide PaymentTrail, EventsOf, Sound;
  }

  lemma FoundingKeepsRecords(w: World, w': World, id: nat)
    requires Solid(w) && id in w.tasks && w.tasks[id].job.CreateJob? && Founds(w, w', id)
    ensures Records(w'.st.requests, w'.st.agreements, w'.st.log, w'.book.births)
  {
    hide Solid, Records, InTenths, HasAgreement, RequestTrail, PaymentTrail, EventsOf, Lifecycle;
    var CreateJob(user, s, _, r, draft) := w.tasks[id].job;
    TaskOf(w, id);
    PartsOf(w);
    assert Lifecycle(w.st.requests, w.st.agreements) by { LifecycleOf(w); }
    LifecycleAfterFounding(w.st.requests, w.st.agreements, draft.value);
    Strangers(w, s);
    BornKept(draft.value, user, s, r, w.tasks[id].call.cycles, w'.st.log, w'.book.births);
    AgreementWriteKeepsRecords(w, w', draft.value);
  }

  lemma BornKept(
      a: RentalAgreement, user: Principal, s: Principal, r: RentalRequest, cycles: nat, log: Log, births: map<Principal, Birth>)
    requires DraftFits(a, user, s, r, cycles) && InTenths(r)
    requires s in births && births[s] == Birth(a.totalIcpPaid, a.totalCyclesCreated)
    requires PaymentTrail(EventsOf(log, Some(s))) == Payments(0, 0, 0, None, 0)
    ensures AgreementKept(a, log, births)
  {
    hide PaymentTrail, EventsOf;
  }

  lemma LifecycleOf(w: World)
    requires Records(w.st.requests, w.st.agreements, w.st.log, w.book.births)
    ensures Lifecycle(w.st.requests, w.st.agreements)
  {
    hide Lifecycle;
  }

  lemma Strangers(w: World, s: Principal)
    requires Solid(w) && s !in w.st.agreements
    ensures PaymentTrail(EventsOf(w.st.log, Some(s))) == Payments(0, 0, 0, None, 0)
  {
    hide LocksAreHeld, Checked, AllCarry, Lifecycle, AllInTenths, TrailsAreLive, AgreementKept, PaymentTrail, EventsOf;
  }

  lemma PaidUp(a: RentalAgreement, icp: nat, cycles: nat, daily: nat, log: Log, log': Log, births: map<Principal, Birth>)
    requires AgreementKept(a, log, births) && CostPerSecond(daily) > 0
    requires var p := PaymentTrail(EventsOf(log, Some(a.subnetId)));
             PaymentTrail(EventsOf(log', Some(a.subnetId)))
             == Payments(p.cycles + cycles, p.icp + icp, p.topUps + 1, Some(TopUpWrite(a, a, icp, cycles, daily).paidUntilNanos), p.switches)
    ensures AgreementKept(TopUpWrite(a, a, icp, cycles, daily), log', births)
  {
    hide PaymentTrail, EventsOf;
  }

  lemma PayingKeepsRecords(w: World, w': World, id: nat)
    requires Solid(w) && id in w.tasks && w.tasks[id].job.TopUpJob? && Pays(w, w', id)
    ensures Records(w'.st.requests, w'.st.agreements, w'.st.log, w'.book.births)
  {
    hide Solid, Records, InTenths, HasAgreement, RequestTrail, PaymentTrail, EventsOf, Lifecycle, AgreementKept, TopUpDeadline;
    var Task(TopUpJob(s, a, balance), _, reply) := w.tasks[id];
    TaskOf(w, id);
    PartsOf(w);
    KeyOf(w, s);
    LifecycleOf(w);
    PaidUp(a, balance, reply.cycles, DailyCost(w, id), w.st.log, w'.st.log, w.book.births);
    var a' := TopUpWrite(a, a, balance, reply.cycles, DailyCost(w, id));
    LifecycleAfterAgreementWrite(w.st.requests, w.st.agreements, a');
    AgreementWriteKeepsRecords(w, w', a');
  }

  // ---------------------------------------------------------------- checks

  ghost predicate OthersChecked(w: World, w': World, id: nat) {
    forall i | i in w.tasks && i != id && !w.tasks[i].job.LockJob? ::
      StillHolds(w'.st.requests, w'.st.agreements, w.tasks[i].job)
  }

  lemma RequestWriteChecksOthers(w: World, w': World, id: nat, u: Principal)
    requires Solid(w) && id in w.tasks && Guard(u, RequestTag) in Guards(w.tasks[id].job)
    requires w'.st.agreements == w.st.agreements
    requires forall v | v != u :: (v in w'.st.requests <==> v in w.st.requests) && (v in w'.st.requests ==> w'.st.requests[v] == w.st.requests[v])
    ensures OthersChecked(w, w', id)
  {
    hide Records, AllCarry, StillHolds, Guards, LocksAreHeld;
    GuardExcludes(w.st.locks, w.tasks, id, Guard(u, RequestTag));
    forall i | i in w.tasks && i != id && !w.tasks[i].job.LockJob?
      ensures StillHolds(w'.st.requests, w'.st.agreements, w.tasks[i].job)
    {
      StillHoldsAfterRequestWrite(w.tasks[i].job, u, w.st.requests, w'.st.requests, w.st.agreements);
    }
  }

  lemma FoundingChecksOthers(w: World, w': World, id: nat)
    requires Solid(w) && id in w.tasks && w.tasks[id].job.CreateJob? && Founds(w, w', id)
    ensures OthersChecked(w, w', id)
  {
    hide Records, AllCarry, StillHolds, LocksAreHeld, SameTrails;
    var CreateJob(u, s, _, _, draft) := w.tasks[id].job;
    TaskOf(w, id);
    GuardExcludes(w.st.locks, w.tasks, id, Guard(u, RequestTag));
    GuardExcludes(w.st.locks, w.tasks, id, Guard(s, NnsTag));
    forall i | i in w.tasks && i != id && !w.tasks[i].job.LockJob?
      ensures StillHolds(w'.st.requests, w'.st.agreements, w.tasks[i].job)
    {
      StillHoldsAfterFounding(w.tasks[i].job, u, draft.value, w.st.requests, w.st.agreements);
    }
  }

  lemma PayingChecksOthers(w: World, w': World, id: nat)
    requires Solid(w) && id in w.tasks && w.tasks[id].job.TopUpJob? && Pays(w, w', id)
    ensures OthersChecked(w, w', id)
  {
    hide Records, AllCarry, StillHolds, LocksAreHeld, PaymentTrailBecomes, TopUpDeadline;
    var TopUpJob(s, _, _) := w.tasks[id].job;
    KeyOf(w, s);
    GuardExcludes(w.st.locks, w.tasks, id, Guard(s, AgreementTag));
    forall i | i in w.tasks && i != id && !w.tasks[i].job.LockJob?
      ensures StillHolds(w'.st.requests, w'.st.agreements, w.tasks[i].job)
    {
      StillHoldsAfterAgreementWrite(w.tasks[i].job, w'.st.agreements[s], w.st.requests, w.st.agreements);
    }
  }

  /** Whatever a resumed task writes: the records stay in order and nobody else's checks are undone. */
  lemma EffectKeeps(w: World, w': World, id: nat)
    requires Solid(w) && id in w.tasks && Effect(w, w', id)
    ensures Records(w'.st.requests, w'.st.agreements, w'.st.log, w'.book.births) && OthersChecked(w, w', id)
    ensures w'.st.conditions == INITIAL_CONDITIONS
  {
    hide Solid, Records, SameTrails, RequestTrailBecomes, PaymentTrailBecomes, StillHolds, TopUpWrite, LockedOnce, Founding;
    PartsOf(w);
    if SameRecords(w, w') {
      SameRecordsKeep(w, w');
    } else {
      match w.tasks[id].job
      case RentalJob(u, _, _, _) =>
        OpeningKeepsRecords(w, w', id);
        RequestWriteChecksOthers(w, w', id, u);
      case CreateJob(_, _, _, _, _) =>
        FoundingKeepsRecords(w, w', id);
        FoundingChecksOthers(w, w', id);
      case RefundJob(u) =>
        CancellingKeepsRecords(w, w', id);
        RequestWriteChecksOthers(w, w', id, u);
      case TopUpJob(_, _, _) =>
        PayingKeepsRecords(w, w', id);
        PayingChecksOthers(w, w', id);
      case LockJob(copy, _, _) =>
        RelockingKeepsRecords(w, w', id);
        RequestWriteChecksOthers(w, w', id, copy.user);
      case _ =>
    }
  }

  // ---------------------------------------------------------------- what tasks carry

  lemma RentalCarries(w: World, id: nat)
    requires id in w.tasks && w.tasks[id].job.RentalJob? && w.tasks[id].job.condition in w.st.conditions
    requires Carries(w.tasks[id])
    ensures id in ResumeRental(w, id).tasks ==> Carries(ResumeRental(w, id).tasks[id])
  {
    hide Append, Pricing.CalculateSubnetPrice, FinishRequest, IcpInFlight, CyclesInFlight, Guards;
    var job := w.tasks[id].job;
    var c := w.st.conditions[job.condition];
    if w.tasks[id].call.XrcCall? && w.tasks[id].reply.Rate? {
      Steps.PriceFits(c.dailyCostCycles, c.initialRentalPeriodDays, w.tasks[id].reply.rate, w.tasks[id].reply.decimals);
    }
  }

  lemma CreateCarries(w: World, id: nat)
    requires id in w.tasks && w.tasks[id].job.CreateJob? && w.tasks[id].job.request.rentalConditionId in w.st.conditions
    requires Carries(w.tasks[id]) && StillHolds(w.st.requests, w.st.agreements, w.tasks[id].job)
    requires w.st.conditions == INITIAL_CONDITIONS
    ensures id in ResumeCreate(w, id).tasks ==> Carries(ResumeCreate(w, id).tasks[id])
  {
    hide Append, FinishCreate, IcpInFlight, CyclesInFlight, Guards, InTenths;
  }

  lemma ResumedCarries(w: World, id: nat)
    requires Solid(w) && id in w.tasks && id in ApplyResume(w, id).tasks
    ensures Carries(ApplyResume(w, id).tasks[id])
  {
    hide Solid, ResumeRental, ResumeCreate, ResumeRefund, ResumeTopUp, ResumeLocking, End, Effect, SameRecords, Leaves, InTenths, LockingDue;
    hide DraftFits;
    PartsOf(w);
    TaskOf(w, id);
    ResumeEffect(w, id);
    EndKeepsRecords(w, id);
    var Task(job, call, reply) := w.tasks[id];
    if !reply.CallFailed? && job.RentalJob? && job.condition in w.st.conditions {
      RentalCarries(w, id);
    } else if !reply.CallFailed? && job.CreateJob? && job.request.rentalConditionId in w.st.conditions {
      CreateCarries(w, id);
    } else {
      OthersCarry(w, id);
    }
  }

  lemma OthersCarry(w: World, id: nat)
    requires id in w.tasks && id in ApplyResume(w, id).tasks && Carries(w.tasks[id])
    requires var Task(job, _, reply) := w.tasks[id];
             || reply.CallFailed?
             || (job.RentalJob? && job.condition !in w.st.conditions)
             || (job.CreateJob? && job.request.rentalConditionId !in w.st.conditions)
             || (!job.RentalJob? && !job.CreateJob?)
    ensures Carries(ApplyResume(w, id).tasks[id])
  {
    hide ResumeRental, ResumeCreate, ResumeRefund, ResumeTopUp, ResumeLocking, End, Effect, SameRecords, InTenths, LockingDue, DraftFits;
    ResumeEffect(w, id);
    EndLeaves(w, w, id);
  }

  // ---------------------------------------------------------------- steps

  lemma ResumeKeepsSolid(w: World, id: nat)
    requires Solid(w) && id in w.tasks
    ensures Solid(ApplyResume(w, id))
  {
    hide Records, LocksAreHeld, ApplyResume, Effect, SameRecords, StillHolds, Carries, Guards;
    var w' := ApplyResume(w, id);
    ResumeEffect(w, id);
    ResumeHoldsLocks(w, id);
    EffectKeeps(w, w', id) by { SameIsAnEffect(w, w', id); }
    if id in w'.tasks { ResumedCarries(w, id); }
    if Moves(w, w', id) {
      TaskOf(w, id);
      FollowerReliesOnTheSame(w, w', w.tasks[id].job, w'.tasks[id].job);
    }
  }

  lemma SameIsAnEffect(w: World, w': World, id: nat)
    requires id in w.tasks && Resumes(w, w', id)
    ensures Effect(w, w', id)
  {
    hide SameRecords, Opens, Founds, Cancels, Pays, Relocks;
  }

  lemma FollowerReliesOnTheSame(w: World, w': World, job: Job, job': Job)
    requires Follows(job, job') && SameRecords(w, w')
    requires !job.LockJob? ==> StillHolds(w.st.requests, w.st.agreements, job)
    ensures !job'.LockJob? ==> StillHolds(w'.st.requests, w'.st.agreements, job')
  {
    hide SameTrails, HasAgreement;
  }

  /** A step that changes at most one task and no record. */
  lemma StartKeepsSolid(w: World, w': World, id: nat)
    requires Solid(w) && LocksAreHeld(w'.st.locks, w'.tasks) && SameRecords(w, w')
    requires id in w'.tasks && w'.tasks == w.tasks[id := w'.tasks[id]] && Carries(w'.tasks[id])
    requires !w'.tasks[id].job.LockJob? ==> StillHolds(w.st.requests, w.st.agreements, w'.tasks[id].job)
    ensures Solid(w')
  {
    hide LocksAreHeld, Records, SameTrails, Carries, StillHolds;
    SameRecordsKeep(w, w');
  }

  lemma ServeKeepsSolid(w: World, id: nat, reply: Reply)
    requires Solid(w) && Enabled(w, Serve(id, reply))
    ensures Solid(ApplyServe(w, id, reply))
  {
    hide Solid, LocksAreHeld, Guards, StillHolds, InTenths, LockingDue, DraftFits, RequestTrail, PaymentTrail;
    PartsOf(w);
    TaskOf(w, id);
    SwapKeepsLocks(w.st.locks, w.tasks, id, w.tasks[id].(reply := reply));
    StartKeepsSolid(w, ApplyServe(w, id, reply), id);
  }

  lemma SweepStartKeepsSolid(w: World, id: nat, copies: seq<RentalRequest>)
    requires Solid(w) && Enabled(w, StartSweep(id, copies))
    ensures Solid(ContinueSweep(w, id, w.now, copies))
  {
    hide Solid, LocksAreHeld, ContinueSweep, RequestTrail, PaymentTrail, LockingDue, InTenths, EventsOf;
    var w' := ContinueSweep(w, id, w.now, copies);
    PartsOf(w);
    ContinueSweepEffect(w, id, w.now, copies);
    SweepHoldsLocks(w, id, w.now, copies);
    forall c | c in copies ensures InTenths(c) { StoredInTenths(w, c.user); }
    if w' != w { StartKeepsSolid(w, w', id); }
  }

  lemma StoredInTenths(w: World, u: Principal)
    requires Solid(w) && u in w.st.requests
    ensures InTenths(w.st.requests[u])
  {
    hide LocksAreHeld, Checked, AllCarry, Lifecycle, AgreementsKept, TrailsAreLive, InTenths;
  }

  lemma StartRentalKeepsSolid(w: World, s: Step)
    requires Solid(w) && Enabled(w, s) && s.StartRental?
    ensures Solid(Apply(w, s))
  {
    hide Solid, Apply, SameRecords, LocksAreHeld, RequestAllowed, HasAgreement;
    var w' := Apply(w, s);
    PartsOf(w);
    StartRentalEffect(w, s);
    StepHoldsLocks(w, s);
    if w'.tasks == w.tasks {
      IdleKeepsSolid(w, w');
    } else {
      StartedRentalIsFine(w, s);
      StartKeepsSolid(w, w', s.id);
    }
  }

  lemma IdleKeepsSolid(w: World, w': World)
    requires Solid(w) && LocksAreHeld(w'.st.locks, w'.tasks) && SameRecords(w, w') && w'.tasks == w.tasks
    ensures Solid(w')
  {
    hide LocksAreHeld, Records, SameTrails, Carries, StillHolds;
    SameRecordsKeep(w, w');
  }

  lemma StartedRentalIsFine(w: World, s: Step)
    requires Enabled(w, s) && s.StartRental? && s.id in Apply(w, s).tasks
    ensures RequestAllowed(w.st, s.user, s.condition)
    ensures var t := Apply(w, s).tasks[s.id];
            t.job.RentalJob? && Carries(t) && StillHolds(w.st.requests, w.st.agreements, t.job)
  {
    hide Append, Pricing.CalculateSubnetPrice, Guards, HasAgreement;
    var c := w.st.conditions[s.condition];
    if s.rateTime in w.st.rates {
      Steps.PriceFits(
        c.dailyCostCycles, c.initialRentalPeriodDays, w.st.rates[s.rateTime].0, w.st.rates[s.rateTime].1);
    }
  }

  lemma StartOtherKeepsSolid(w: World, s: Step)
    requires Solid(w) && Enabled(w, s)
    requires s.StartCreate? || s.StartRefund? || s.StartTopUp? || s.StartPrice? || s.StartEstimate? || s.StartAdmins?
    ensures Solid(Apply(w, s))
  {
    hide Solid, LocksAreHeld, Apply, Enabled, SameRecords, Carries, StillHolds;
    PartsOf(w);
    StepHoldsLocks(w, s);
    StartedIsFine(w, s);
    StartKeepsSolid(w, Apply(w, s), s.id);
  }

  lemma StartedIsFine(w: World, s: Step)
    requires Solid(w) && Enabled(w, s)
    requires s.StartCreate? || s.StartRefund? || s.StartTopUp? || s.StartPrice? || s.StartEstimate? || s.StartAdmins?
    ensures var w' := Apply(w, s);
            && SameRecords(w, w') && s.id in w'.tasks && w'.tasks == w.tasks[s.id := w'.tasks[s.id]]
            && Carries(w'.tasks[s.id]) && !w'.tasks[s.id].job.LockJob?
            && StillHolds(w.st.requests, w.st.agreements, w'.tasks[s.id].job)
  {
    hide Solid, Guards, InTenths, RequestTrail, PaymentTrail, EventsOf, HasAgreement, RequestAllowed, BurnSweep, Free;
    if s.StartCreate? { StoredInTenths(w, s.user); }
  }

  lemma BurnKeepsSolid(w: World, order: seq<Principal>)
    requires Solid(w) && Enabled(w, BurnAll(order))
    ensures Solid(ApplyBurn(w, order))
  {
    hide LocksAreHeld, AllCarry, AllInTenths, Lifecycle, BurnSweep, TrailsAreLive, RequestTrail, PaymentTrail, EventsOf;
    hide CreatedCycles, UnburnedCycles, StillHolds, Guards;
    var w' := ApplyBurn(w, order);
    SweepBurnsWhatItBooks(w.st.agreements, w.st.locks, w.cycles, order, w.now);
    LifecycleOfSameRenters(w.st.requests, w.st.agreements, w'.st.agreements);
    SameAgreementsHeld(w.st.requests, w.st.agreements, w'.st.agreements, w.st.log);
    forall i | i in w.tasks && !w.tasks[i].job.LockJob? ensures StillHolds(w.st.requests, w'.st.agreements, w.tasks[i].job) {
      HeldBy(w.st.locks, w.tasks, i);
      StillHoldsAfterSweep(w.tasks[i].job, w.st.requests, w.st.agreements, w'.st.agreements, w.st.locks);
    }
    forall s | s in w'.st.agreements ensures AgreementKept(w'.st.agreements[s], w.st.log, w.book.births) {
      assert AgreementKept(w.st.agreements[s], w.st.log, w.book.births);
    }
    assert forall s | s !in w'.st.agreements :: s !in w.st.agreements;
  }

  lemma HeldBy(locks: set<Guard>, tasks: map<nat, Task>, i: nat)
    requires LocksAreHeld(locks, tasks) && i in tasks
    ensures Guards(tasks[i].job) <= locks
  {
    hide Guards;
  }

  lemma SwitchKeepsAgreement(a: RentalAgreement, daily: nat, now: nat, log: Log, log': Log, births: map<Principal, Birth>)
    requires AgreementKept(a, log, births) && a.rentalConditionId == App13CH
    requires var p := PaymentTrail(EventsOf(log, Some(a.subnetId)));
             PaymentTrail(EventsOf(log', Some(a.subnetId)))
             == p.(deadline := Some(Switched(a, daily, now).paidUntilNanos), switches := p.switches + 1)
    ensures AgreementKept(Switched(a, daily, now), log', births)
  {
    hide PaymentTrail, EventsOf;
  }

  lemma MigrateKeepsSolid(w: World, target: Principal)
    requires Solid(w) && Migrates(w, target)
    ensures Solid(w.(st := Migrate(w.st, target, w.now)))
  {
    hide Solid, LocksAreHeld, Records, Append, RequestTrail, PaymentTrail, EventsOf, HasAgreement, Reprice, AgreementKept, Lifecycle;
    var w' := w.(st := Migrate(w.st, target, w.now));
    var a := w.st.agreements[target];
    PartsOf(w);
    KeyOf(w, target);
    LifecycleOf(w);
    MigratedLog(w, target);
    var daily := w.st.conditions[App7CH].dailyCostCycles;
    SwitchKeepsAgreement(a, daily, w.now, w.st.log, w'.st.log, w.book.births);
    LifecycleAfterAgreementWrite(w.st.requests, w.st.agreements, Switched(a, daily, w.now));
    AgreementWriteKeepsRecords(w, w', Switched(a, daily, w.now));
    assert Solid(w') by { QuietIsSolid(w'); }
  }

  lemma QuietIsSolid(w: World)
    requires LocksAreHeld(w.st.locks, w.tasks) && w.tasks == map[] && w.st.conditions == INITIAL_CONDITIONS
    requires Records(w.st.requests, w.st.agreements, w.st.log, w.book.births)
    ensures Solid(w)
  {
    hide LocksAreHeld, Records;
  }

  lemma UpgradeKeepsSolid(w: World, target: Principal)
    requires Solid(w) && w.tasks == map[]
    ensures Solid(w.(st := Upgrade(w.st, target, w.now)))
  {
    hide Solid, Migrate, Records, RequestTrail, PaymentTrail, EventsOf, LocksAreHeld;
    var event13 := RentalConditionsChanged(App13CH, Some(INITIAL_CONDITIONS[App13CH]));
    var event7 := RentalConditionsChanged(App7CH, Some(INITIAL_CONDITIONS[App7CH]));
    PartsOf(w);
    assert w.st.locks == {} by { NoLocks(w); }
    assert w.st.conditions[App13CH := INITIAL_CONDITIONS[App13CH]] == w.st.conditions;
    assert w.st.conditions[App7CH := INITIAL_CONDITIONS[App7CH]] == w.st.conditions;
    var second := Note(Note(w, None, event13), None, event7);
    assert second.st == SetInitialConditions(w.st.(locks := {}), w.now);
    NoteKeepsRecords(w, None, event13);
    IdleKeepsSolid(w, Note(w, None, event13));
    NoteKeepsRecords(Note(w, None, event13), None, event7);
    IdleKeepsSolid(Note(w, None, event13), second);
    if Migrates(second, target) {
      MigrateKeepsSolid(second, target);
    } else {
      MigrateSkips(second, target);
    }
  }

  lemma NoLocks(w: World)
    requires LocksAreHeld(w.st.locks, w.tasks) && w.tasks == map[]
    ensures w.st.locks == {}
  {
  }

  /** Every step keeps it, with no hypothesis on copies or proposals. */
  lemma StepKeepsSolid(w: World, s: Step)
    requires Solid(w) && Enabled(w, s)
    ensures Solid(Apply(w, s))
  {
    hide Solid, LocksAreHeld, ApplyResume, ApplyServe, ApplyRental, ApplyBurn, ContinueSweep, Upgrade, RequestAllowed, BurnSweep;
    hide SameTrails;
    match s
    case Serve(id, reply) => ServeKeepsSolid(w, id, reply);
    case Resume(id) => ResumeKeepsSolid(w, id);
    case StartRental(_, _, _, _, _) => StartRentalKeepsSolid(w, s);
    case StartSweep(id, snapshot) => SweepStartKeepsSolid(w, id, snapshot);
    case BurnAll(order) => BurnKeepsSolid(w, order);
    case DoUpgrade(target) => UpgradeKeepsSolid(w, target);
    case Deposit(_, _) => QuietStepKeepsSolid(w, s);
    case DepositCycles(_) => QuietStepKeepsSolid(w, s);
    case Tick(_) => QuietStepKeepsSolid(w, s);
    case _ => StartOtherKeepsSolid(w, s);
  }

  lemma QuietStepKeepsSolid(w: World, s: Step)
    requires Solid(w) && Enabled(w, s) && (s.Deposit? || s.DepositCycles? || s.Tick?)
    ensures Solid(Apply(w, s))
  {
    hide LocksAreHeld, Records, Checked, AllCarry;
  }

  lemma FirstIsSolid(w: World)
    requires Init(w)
    ensures Solid(w)
  {
    hide SetInitialConditions, EventsOf;
    NothingAtFirst(w);
    assert RequestTrail([]) == NoRequest && PaymentTrail([]) == Payments(0, 0, 0, None, 0);
  }

  lemma {:induction false} SolidRun(worlds: seq<World>, steps: seq<Step>, n: nat)
    requires Run(worlds, steps) && n <= |steps|
    ensures Solid(worlds[n])
  {
    hide Solid, Init, Enabled, Apply;
    if n == 0 {
      FirstIsSolid(worlds[0]) by { assert Init(worlds[0]); }
    } else {
      SolidRun(worlds, steps, n - 1);
      StepKeepsSolid(worlds[n - 1], steps[n - 1]);
    }
  }
}
