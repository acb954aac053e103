/** What each step does to tasks, locks, records and trails, whether or not the invariant holds. */
module Effects {
  import opened Types
  import opened History
  import opened Deadlines
  import opened Burning
  import opened State
  import opened World
  import opened Invariant
  import opened Blocks
  import opened Writes
  import opened AgreementWrites

  // ---------------------------------------------------------------- tasks

  /** The same job, further on: only what it computes on the way has changed. */
  predicate Follows(job: Job, job': Job) {
    match job
    case RentalJob(_, _, _, _) => job'.RentalJob? && job' == job.(needed := job'.needed)
    case CreateJob(_, _, _, _, _) => job'.CreateJob? && job' == job.(draft := job'.draft)
    case TopUpJob(_, _, _) => job'.TopUpJob? && job' == job.(balance := job'.balance)
    case _ => job' == job
  }

  /** No time passes, no ICP moves, and no cycles are deposited, minted or paid as fees. */
  predicate SameOutside(w: World, w': World) {
    && w'.now == w.now && w'.icp == w.icp
    && w'.book.xrcPaid == w.book.xrcPaid && w'.book.reserve == w.book.reserve && w'.book.minted == w.book.minted
  }

  /** The task moves on to another await and keeps its guards ... */
  predicate Moves(w: World, w': World, id: nat)
    requires id in w.tasks
  {
    && w'.st.locks == w.st.locks && SameOutside(w, w')
    && id in w'.tasks && w'.tasks == w.tasks[id := w'.tasks[id]]
    && Follows(w.tasks[id].job, w'.tasks[id].job) && w'.tasks[id].reply.Pending?
  }

  /** ... or it ends and gives up exactly its own ... */
  predicate Leaves(w: World, w': World, id: nat)
    requires id in w.tasks
  {
    && w'.st.locks == w.st.locks - Guards(w.tasks[id].job) && SameOutside(w, w')
    && w'.tasks == w.tasks - {id}
  }

  /** ... or a sweep gives up its guard and goes on to the next copy it takes a guard for. */
  predicate GoesOn(w: World, w': World, id: nat)
    requires id in w.tasks
  {
    && w.tasks[id].job.LockJob? && SameOutside(w, w')
    && id in w'.tasks && w'.tasks == w.tasks[id := w'.tasks[id]]
    && var LockJob(_, sweepNow, rest) := w.tasks[id].job;
       exists i | 0 <= i < |rest| :: StartsAt(w'.tasks[id], rest, i, sweepNow)
  }

  predicate StartsAt(t: Task, copies: seq<RentalRequest>, i: nat, sweepNow: nat)
    requires i < |copies|
  {
    && t == Task(LockJob(copies[i], sweepNow, copies[i + 1..]), CmcTransfer(copies[i].user, copies[i].initialCostIcp / 10), Pending)
    && LockingDue(copies[i], sweepNow)
  }

  lemma FollowerHoldsTheSame(job: Job, job': Job)
    requires Follows(job, job')
    ensures Guards(job') == Guards(job)
  {
  }

  // ---------------------------------------------------------------- records and trails

  ghost predicate SameTrailsBut(log: Log, log': Log, key: Option<Principal>) {
    forall k | k != key ::
      && RequestTrail(EventsOf(log', k)) == RequestTrail(EventsOf(log, k))
      && PaymentTrail(EventsOf(log', k)) == PaymentTrail(EventsOf(log, k))
  }

  ghost predicate SameTrails(log: Log, log': Log) {
    forall k ::
      && RequestTrail(EventsOf(log', k)) == RequestTrail(EventsOf(log, k))
      && PaymentTrail(EventsOf(log', k)) == PaymentTrail(EventsOf(log, k))
  }

  /** The trails of one user's key change in what they say about requests. */
  ghost predicate RequestTrailBecomes(log: Log, log': Log, u: Principal, trail: Trail) {
    && SameTrailsBut(log, log', Some(u))
    && PaymentTrail(EventsOf(log', Some(u))) == PaymentTrail(EventsOf(log, Some(u)))
    && RequestTrail(EventsOf(log', Some(u))) == trail
  }

  ghost predicate PaymentTrailBecomes(log: Log, log': Log, s: Principal, trail: Payments) {
    && SameTrailsBut(log, log', Some(s))
    && RequestTrail(EventsOf(log', Some(s))) == RequestTrail(EventsOf(log, Some(s)))
    && PaymentTrail(EventsOf(log', Some(s))) == trail
  }

  ghost predicate SameRecords(w: World, w': World) {
    && w'.st.requests == w.st.requests && w'.st.agreements == w.st.agreements
    && w'.st.conditions == w.st.conditions
    && w'.book.births == w.book.births && w'.book.unburned == w.book.unburned
    && SameTrails(w.st.log, w'.st.log)
  }

  /** A proposal inserted its user's request. */
  ghost predicate Opens(w: World, w': World, id: nat)
    requires id in w.tasks && w.tasks[id].job.RentalJob?
  {
    var RentalJob(user, condition, proposal, needed) := w.tasks[id].job;
    && w.tasks[id].call.NotifyCall? && w.tasks[id].reply.Minted? && user !in w.st.requests
    && var r := NewRequest(user, condition, proposal, needed, w.tasks[id].reply.cycles, w.now);
    && w'.st.requests == w.st.requests[user := r]
    && w'.st.agreements == w.st.agreements && w'.st.conditions == w.st.conditions
    && w'.book.births == w.book.births && w'.book.unburned == w.book.unburned
    && RequestTrailBecomes(w.st.log, w'.st.log, user, LockedUp(r.lockedAmountIcp, r.lockedAmountCycles, 1))
  }

  /** A creation swapped its user's request for the agreement it drafted. */
  ghost predicate Founds(w: World, w': World, id: nat)
    requires id in w.tasks && w.tasks[id].job.CreateJob?
  {
    && Founding(w, id)
    && var a := w.tasks[id].job.draft.value;
    && w'.st.requests == w.st.requests - {a.user}
    && w'.st.agreements == w.st.agreements[a.subnetId := a] && w'.st.conditions == w.st.conditions
    && w'.book.births == w.book.births[a.subnetId := Birth(a.totalIcpPaid, a.totalCyclesCreated)]
    && w'.book.unburned == w.book.unburned
    && SameTrails(w.st.log, w'.st.log)
  }

  /** A refund cancelled its user's request. */
  ghost predicate Cancels(w: World, w': World, id: nat)
    requires id in w.tasks && w.tasks[id].job.RefundJob?
  {
    var u := w.tasks[id].job.user;
    && CanCancel(w, id) && u in w.st.requests
    && w'.st.requests == w.st.requests - {u}
    && w'.st.agreements == w.st.agreements && w'.st.conditions == w.st.conditions
    && w'.book.births == w.book.births
    && (w'.book.unburned == w.book.unburned || w.st.requests[u].lockedAmountCycles > w.cycles)
    && RequestTrailBecomes(w.st.log, w'.st.log, u, NoRequest)
  }

  /** A top-up wrote its subnet's agreement. */
  ghost predicate Pays(w: World, w': World, id: nat)
    requires id in w.tasks && w.tasks[id].job.TopUpJob?
  {
    var Task(TopUpJob(s, read, balance), _, reply) := w.tasks[id];
    && Paying(w, id)
    && var a' := TopUpWrite(w.st.agreements[s], read, balance, reply.cycles, DailyCost(w, id));
    && w'.st.agreements == w.st.agreements[s := a']
    && w'.st.requests == w.st.requests && w'.st.conditions == w.st.conditions
    && w'.book.births == w.book.births && w'.book.unburned == w.book.unburned
    && var p := PaymentTrail(EventsOf(w.st.log, Some(s)));
       PaymentTrailBecomes(
         w.st.log, w'.st.log, s,
         Payments(p.cycles + reply.cycles, p.icp + balance, p.topUps + 1, Some(a'.paidUntilNanos), p.switches))
  }

  /** A sweep overwrote the stored request of its copy's user. */
  ghost predicate Relocks(w: World, w': World, id: nat)
    requires id in w.tasks && w.tasks[id].job.LockJob?
  {
    var Task(LockJob(copy, sweepNow, _), _, reply) := w.tasks[id];
    && CanLock(w, id) && copy.user in w.st.requests
    && w'.st.requests == w.st.requests[copy.user := LockedOnce(copy, reply.cycles, sweepNow)]
    && w'.st.agreements == w.st.agreements && w'.st.conditions == w.st.conditions
    && w'.book.births == w.book.births && w'.book.unburned == w.book.unburned
    && RequestTrailBecomes(
         w.st.log, w'.st.log, copy.user,
         TrailStep(RequestTrail(EventsOf(w.st.log, Some(copy.user))),
                   LockingSuccess(copy.user, copy.initialCostIcp / 10, reply.cycles)))
  }

  /** What resuming a task can do to the records, job by job. */
  ghost predicate Effect(w: World, w': World, id: nat)
    requires id in w.tasks
  {
    SameRecords(w, w') ||
    match w.tasks[id].job
    case RentalJob(_, _, _, _) => Opens(w, w', id)
    case CreateJob(_, _, _, _, _) => Founds(w, w', id)
    case RefundJob(_) => Cancels(w, w', id)
    case TopUpJob(_, _, _) => Pays(w, w', id)
    case LockJob(_, _, _) => Relocks(w, w', id)
    case _ => false
  }

  /** All that resuming a task can do: on to another await without a change of records, or past its last one. */
  ghost predicate Resumes(w: World, w': World, id: nat)
    requires id in w.tasks
  {
    || (Moves(w, w', id) && SameRecords(w, w'))
    || ((Leaves(w, w', id) || GoesOn(w, w', id)) && Effect(w, w', id))
  }

  // ---------------------------------------------------------------- blocks

  /** Ending changes nothing but locks, tasks and what is booked as lost. */
  predicate EndsAs(w1: World, w': World) {
    && w'.st == w1.st.(locks := w'.st.locks)
    && w'.book == w1.book.(lost := w'.book.lost, lostCycles := w'.book.lostCycles)
    && SameOutside(w1, w')
  }

  /** Ending after any write that keeps locks and tasks. */
  lemma EndLeaves(w: World, w1: World, id: nat)
    requires id in w.tasks && w1.tasks == w.tasks && w1.st.locks == w.st.locks && SameOutside(w, w1)
    ensures Leaves(w, End(w1, id), id) && EndsAs(w1, End(w1, id))
  {
    hide Guards, IcpInFlight, CyclesInFlight;
  }

  lemma ClosingLeaves(w: World, w1: World, id: nat)
    requires id in w.tasks && w1.st.locks == w.st.locks && SameOutside(w, w1)
    requires w1.tasks == w.tasks[id := Task(Closing(Guards(w.tasks[id].job)), Returned, Pending)]
    ensures Leaves(w, End(w1, id), id) && EndsAs(w1, End(w1, id))
  {
    assert w1.tasks - {id} == w.tasks - {id};
  }

  lemma EndKeepsRecords(w: World, id: nat)
    requires id in w.tasks
    ensures Leaves(w, End(w, id), id) && SameRecords(w, End(w, id))
  {
    hide Leaves, End, RequestTrail, PaymentTrail;
    EndLeaves(w, w, id);
  }

  /** Recording a failure and ending. */
  lemma NotingLeaves(w: World, id: nat, key: Option<Principal>, event: EventType)
    requires id in w.tasks && NotReplayed(event)
    ensures var w' := End(Note(w, key, event), id); Leaves(w, w', id) && SameRecords(w, w')
  {
    hide Leaves, End, RequestTrail, PaymentTrail, EventsOf, Append;
    NoteKeepsRecords(w, key, event);
    EndLeaves(w, Note(w, key, event), id);
  }

  lemma NoteKeepsRecords(w: World, key: Option<Principal>, event: EventType)
    requires NotReplayed(event)
    ensures SameRecords(w, Note(w, key, event))
  {
    hide RequestTrail, PaymentTrail, EventsOf, Append;
    ReplayAppend(w.st.log, key, event, w.now);
  }

  // ---------------------------------------------------------------- job by job

  lemma PricingEffect(w: World, id: nat, rate: nat, decimals: nat)
    requires id in w.tasks && w.tasks[id].job.RentalJob? && w.tasks[id].job.condition in w.st.conditions
    ensures var w' := PriceRental(w, id, rate, decimals);
            SameRecords(w, w') && (Moves(w, w', id) || Leaves(w, w', id))
  {
    hide Pricing.CalculateSubnetPrice, Append, End, Leaves, RequestTrail, PaymentTrail;
    var job := w.tasks[id].job;
    NotingLeaves(w, id, Some(job.user), RentalRequestFailed(job.user, job.proposal));
  }

  lemma OpeningEffect(w: World, id: nat)
    requires id in w.tasks && w.tasks[id].job.RentalJob? && w.tasks[id].job.condition in w.st.conditions
    requires w.tasks[id].call.NotifyCall? && w.tasks[id].reply.Minted?
    ensures var w' := ResumeRental(w, id);
            && Leaves(w, w', id)
            && if w.tasks[id].job.user in w.st.requests then SameRecords(w, w') else Opens(w, w', id)
  {
    hide Append, End, Leaves, RequestTrail, PaymentTrail, EventsOf;
    var Task(job, call, reply) := w.tasks[id];
    var r := NewRequest(job.user, job.condition, job.proposal, job.needed, reply.cycles, w.now);
    EndKeepsRecords(w, id);
    if job.user !in w.st.requests {
      OpenedLog(w, id, r);
      ClosingLeaves(w, Opened(w, id, r), id);
    }
  }

  /** A resumed proposal changes no agreement, and inserts at most its user's request as it ends. */
  lemma RentalEffect(w: World, id: nat)
    requires id in w.tasks && w.tasks[id].job.RentalJob? && w.tasks[id].job.condition in w.st.conditions
    ensures var w' := ResumeRental(w, id);
            (Moves(w, w', id) && SameRecords(w, w')) || (Leaves(w, w', id) && (SameRecords(w, w') || Opens(w, w', id)))
  {
    hide PriceRental, Append, End, Leaves, Opens, RequestTrail, PaymentTrail;
    var Task(job, call, reply) := w.tasks[id];
    if call.NotifyCall? && reply.Minted? {
      OpeningEffect(w, id);
    } else if call.XrcCall? && reply.Rate? {
      PricedEffect(w, id);
    } else {
      NotingLeaves(w, id, Some(job.user), RentalRequestFailed(job.user, job.proposal));
    }
  }

  lemma PricedEffect(w: World, id: nat)
    requires id in w.tasks && w.tasks[id].job.RentalJob? && w.tasks[id].job.condition in w.st.conditions
    requires w.tasks[id].call.XrcCall? && w.tasks[id].reply.Rate?
    ensures var w' := ResumeRental(w, id); SameRecords(w, w') && (Moves(w, w', id) || Leaves(w, w', id))
  {
    hide PriceRental, RequestTrail, PaymentTrail;
    var Task(job, call, reply) := w.tasks[id];
    PricingEffect(w.(st := w.st.(rates := w.st.rates[call.time := (reply.rate, reply.decimals)])), id, reply.rate, reply.decimals);
  }

  lemma FoundingEffect(w: World, id: nat)
    requires CanFound(w, id) && w.tasks[id].job.request.rentalConditionId in w.st.conditions
    ensures var w' := ResumeCreate(w, id);
            Leaves(w, w', id) && if Founding(w, id) then Founds(w, w', id) else SameRecords(w, w')
  {
    hide FinishCreate, End, Leaves, RequestTrail, PaymentTrail, EventsOf, Guards;
    EndKeepsRecords(w, id);
    FoundingFinishes(w, id);
    if Founding(w, id) {
      FoundedRecords(w, id);
      ClosingLeaves(w, Founded(w, id), id);
    }
  }

  lemma FoundingFinishes(w: World, id: nat)
    requires CanFound(w, id)
    ensures FinishCreate(w.st, w.tasks[id].job.draft.value, w.now).Some? <==> Founding(w, id)
  {
    hide Append;
  }

  lemma FoundedRecords(w: World, id: nat)
    requires Founding(w, id)
    ensures Founds(w, Founded(w, id), id) && Founded(w, id).st.locks == w.st.locks && SameOutside(w, Founded(w, id))
    ensures Founded(w, id).tasks == w.tasks[id := Task(Closing(Guards(w.tasks[id].job)), Returned, Pending)]
  {
    hide Append, RequestTrail, PaymentTrail, EventsOf, Guards;
    FoundedLog(w, id);
  }

  /** A resumed creation changes no record, or swaps its user's request for an agreement. */
  lemma CreateEffect(w: World, id: nat)
    requires id in w.tasks && w.tasks[id].job.CreateJob? && w.tasks[id].job.request.rentalConditionId in w.st.conditions
    ensures var w' := ResumeCreate(w, id);
            (Moves(w, w', id) && SameRecords(w, w')) || (Leaves(w, w', id) && (SameRecords(w, w') || Founds(w, w', id)))
  {
    hide Append, NewAgreement, FinishCreate, End, Leaves, Founds, RequestTrail, PaymentTrail;
    var Task(job, call, reply) := w.tasks[id];
    EndKeepsRecords(w, id);
    if CanFound(w, id) {
      FoundingEffect(w, id);
    } else if call.NotifyCall? && reply.Minted? {
      NoteKeepsRecords(w, Some(job.user), TransferSuccess(call.amount, call.block));
    }
  }

  lemma CancellingEffect(w: World, id: nat)
    requires CanCancel(w, id)
    ensures var w' := ResumeRefund(w, id);
            Leaves(w, w', id) && if w.tasks[id].job.user in w.st.requests then Cancels(w, w', id) else SameRecords(w, w')
  {
    hide Append, End, Leaves, RequestTrail, PaymentTrail, EventsOf;
    CancelledLog(w, id);
    ClosingLeaves(w, Cancelled(w, id), id);
  }

  lemma RefundEffect(w: World, id: nat)
    requires id in w.tasks && w.tasks[id].job.RefundJob?
    ensures var w' := ResumeRefund(w, id);
            (Moves(w, w', id) && SameRecords(w, w')) || (Leaves(w, w', id) && (SameRecords(w, w') || Cancels(w, w', id)))
  {
    hide CancelRequest, End, Leaves, Cancels, RequestTrail, PaymentTrail;
    EndKeepsRecords(w, id);
    if CanCancel(w, id) {
      CancellingEffect(w, id);
    }
  }

  lemma PayingEffect(w: World, id: nat)
    requires CanTopUp(w, id)
    ensures var w' := ResumeTopUp(w, id);
            Leaves(w, w', id) && if Paying(w, id) then Pays(w, w', id) else SameRecords(w, w')
  {
    hide Append, End, Leaves, RequestTrail, PaymentTrail, EventsOf, TopUpWrite, DaysAdded;
    EndKeepsRecords(w, id);
    if Paying(w, id) {
      PaidLog(w, id);
      ClosingLeaves(w, Paid(w, id), id);
    }
  }

  lemma TopUpEffect(w: World, id: nat)
    requires id in w.tasks && w.tasks[id].job.TopUpJob?
    ensures var w' := ResumeTopUp(w, id);
            (Moves(w, w', id) && SameRecords(w, w')) || (Leaves(w, w', id) && (SameRecords(w, w') || Pays(w, w', id)))
  {
    hide Append, FinishTopUp, End, Leaves, Pays, RequestTrail, PaymentTrail;
    var job := w.tasks[id].job;
    NotingLeaves(w, id, Some(job.subnet), SubnetTopUpFailed(job.agreement.user));
    if CanTopUp(w, id) {
      PayingEffect(w, id);
    }
  }

  lemma RelockingEffect(w: World, id: nat)
    requires CanLock(w, id)
    ensures var w' := EndLocking(w, id);
            && Leaves(w, w', id)
            && if w.tasks[id].job.request.user in w.st.requests then Relocks(w, w', id) else SameRecords(w, w')
  {
    hide Append, End, Leaves, RequestTrail, PaymentTrail, EventsOf, LockedOnce;
    EndKeepsRecords(w, id);
    if w.tasks[id].job.request.user in w.st.requests {
      RelockedLog(w, id);
      ClosingLeaves(w, Relocked(w, id), id);
    }
  }

  /** An iteration of a sweep rewrites at most the request it copied. */
  lemma EndLockingEffect(w: World, id: nat)
    requires id in w.tasks && w.tasks[id].job.LockJob?
    ensures var w' := EndLocking(w, id); Leaves(w, w', id) && Effect(w, w', id)
  {
    hide Append, FinishLocking, End, Leaves, Relocks, RequestTrail, PaymentTrail;
    if CanLock(w, id) {
      RelockingEffect(w, id);
    } else {
      NotingLeaves(w, id, Some(w.tasks[id].job.request.user), LockingFailure(w.tasks[id].job.request.user));
    }
  }

  /** The rest of a sweep changes no record; it starts at most one conversion. */
  lemma ContinueSweepEffect(w: World, id: nat, sweepNow: nat, rest: seq<RentalRequest>)
    requires id !in w.tasks
    ensures var w' := ContinueSweep(w, id, sweepNow, rest);
            && w'.st == w.st.(locks := w'.st.locks) && w'.book == w.book && SameOutside(w, w')
            && (w' == w
                || (id in w'.tasks && w'.tasks == w.tasks[id := w'.tasks[id]]
                    && exists i | 0 <= i < |rest| :: StartsAt(w'.tasks[id], rest, i, sweepNow)))
  {
    hide NextToLock, LockingDue, Guards;
    var i := NextToLock(w.st.locks, rest, sweepNow);
    if i < |rest| {
      assert StartsAt(ContinueSweep(w, id, sweepNow, rest).tasks[id], rest, i, sweepNow);
    }
  }

  lemma ResumeLockingEffect(w: World, id: nat)
    requires id in w.tasks && w.tasks[id].job.LockJob?
    ensures Resumes(w, ResumeLocking(w, id), id)
  {
    hide EndLocking, ContinueSweep, End, RequestTrail, PaymentTrail, EventsOf, Guards, StartsAt;
    var Task(job, call, reply) := w.tasks[id];
    EndKeepsRecords(w, id);
    if !(call.CmcTransfer? && reply.Block?) && !LockingTraps(w, id) {
      EndLockingEffect(w, id);
      ContinueSweepEffect(EndLocking(w, id), id, job.sweepNow, job.rest);
    }
  }

  lemma ResumeEffect(w: World, id: nat)
    requires id in w.tasks
    ensures Resumes(w, ApplyResume(w, id), id)
  {
    hide ResumeRental, ResumeCreate, ResumeRefund, ResumeTopUp, ResumeLocking, End, Moves, Leaves, GoesOn;
    hide Opens, Founds, Cancels, Pays, Relocks, RequestTrail, PaymentTrail;
    var Task(job, call, reply) := w.tasks[id];
    EndKeepsRecords(w, id);
    if !reply.CallFailed? {
      match job
      case RentalJob(_, condition, _, _) => if condition in w.st.conditions { RentalEffect(w, id); }
      case CreateJob(_, _, _, r, _) => if r.rentalConditionId in w.st.conditions { CreateEffect(w, id); }
      case RefundJob(_) => RefundEffect(w, id);
      case TopUpJob(_, _, _) => TopUpEffect(w, id);
      case LockJob(_, _, _) => ResumeLockingEffect(w, id);
      case _ => OtherEffect(w, id);
    }
  }

  lemma OtherEffect(w: World, id: nat)
    requires id in w.tasks && !w.tasks[id].reply.CallFailed?
    requires var job := w.tasks[id].job;
             !job.RentalJob? && !job.CreateJob? && !job.RefundJob? && !job.TopUpJob? && !job.LockJob?
    ensures var w' := ApplyResume(w, id); Leaves(w, w', id) && SameRecords(w, w')
  {
    hide Leaves, End, RequestTrail, PaymentTrail, EventsOf;
    var Task(_, call, reply) := w.tasks[id];
    EndKeepsRecords(w, id);
    if call.XrcCall? && reply.Rate? {
      EndLeaves(w, w.(st := w.st.(rates := w.st.rates[call.time := (reply.rate, reply.decimals)])), id);
    }
  }

  // ---------------------------------------------------------------- steps that resume nothing

  lemma StartRentalEffect(w: World, s: Step)
    requires Enabled(w, s) && s.StartRental?
    ensures var w' := Apply(w, s);
            && SameRecords(w, w') && w'.now == w.now
            && (w'.tasks == w.tasks
                || (s.id in w'.tasks && w'.tasks == w.tasks[s.id := w'.tasks[s.id]]
                    && RequestAllowed(w.st, s.user, s.condition)
                    && Follows(RentalJob(s.user, s.condition, s.proposal, 0), w'.tasks[s.id].job)))
  {
    hide PriceRental, Append, RequestAllowed, RequestTrail, PaymentTrail;
    NoteKeepsRecords(w, Some(s.user), RentalRequestFailed(s.user, s.proposal));
    if RequestAllowed(w.st, s.user, s.condition) && s.rateTime in w.st.rates {
      var started := Start(w, s.id, RentalJob(s.user, s.condition, s.proposal, 0), XrcCall(s.rateTime));
      PricingEffect(started, s.id, w.st.rates[s.rateTime].0, w.st.rates[s.rateTime].1);
      assert started.tasks - {s.id} == w.tasks;
    }
  }

  lemma {:induction false} SweepKeepsKeys(
      agreements: map<Principal, RentalAgreement>, locks: set<Guard>, balance: nat, order: seq<Principal>, now: nat)
    requires BurnSweep(agreements, locks, balance, order, now).Swept?
    ensures BurnSweep(agreements, locks, balance, order, now).agreements.Keys == agreements.Keys
    decreases |order|
  {
    hide BurnOne;
    if order != [] {
      if Guard(order[0], AgreementTag) in locks || order[0] !in agreements {
        SweepKeepsKeys(agreements, locks, balance, order[1..], now);
      } else {
        var burn := BurnOne(agreements[order[0]], balance, now);
        SweepKeepsKeys(agreements[order[0] := burn.agreement], locks, burn.balance, order[1..], now);
      }
    }
  }

  // ---------------------------------------------------------------- upgrades

  lemma ConditionsEffect(st: State, now: nat)
    ensures var st' := SetInitialConditions(st, now);
            && st'.requests == st.requests && st'.agreements == st.agreements && st'.conditions == st.conditions + INITIAL_CONDITIONS
            && forall k | k != None :: EventsOf(st'.log, k) == EventsOf(st.log, k)
  {
  }

  lemma MigrateEffect(st: State, target: Principal, now: nat)
    ensures var st' := Migrate(st, target, now);
            && st'.requests == st.requests && st'.agreements.Keys == st.agreements.Keys
            && (forall s | s in st.agreements && s != target :: st'.agreements[s] == st.agreements[s])
            && (target in st.agreements ==>
                  st'.agreements[target]
                  == st.agreements[target].(rentalConditionId := st'.agreements[target].rentalConditionId,
                                            paidUntilNanos := st'.agreements[target].paidUntilNanos))
            && (forall k | k != Some(target) :: EventsOf(st'.log, k) == EventsOf(st.log, k))
            && (target in st.agreements && App7CH in st.conditions ==> st'.agreements[target].rentalConditionId != App13CH)
  {
    hide Deadlines.Reprice;
  }

  lemma MigrateOnce(st: State, target: Principal, now: nat)
    requires target in st.agreements ==> st.agreements[target].rentalConditionId != App13CH
    ensures Migrate(st, target, now) == st
  {
  }

  /** An upgrade changes no request, no other agreement, no total, and no other subnet's or user's log;
      a second one changes no agreement at all. */
  lemma UpgradeChangesOnlyTheTarget(st: State, target: Principal, now: nat, later: nat)
    ensures var st' := Upgrade(st, target, now);
            && st'.requests == st.requests && st'.agreements.Keys == st.agreements.Keys
            && (forall s | s in st.agreements && s != target :: st'.agreements[s] == st.agreements[s])
            && (target in st.agreements ==>
                  st'.agreements[target]
                  == st.agreements[target].(rentalConditionId := st'.agreements[target].rentalConditionId,
                                            paidUntilNanos := st'.agreements[target].paidUntilNanos))
            && (forall k | k != None && k != Some(target) :: EventsOf(st'.log, k) == EventsOf(st.log, k))
            && Upgrade(st', target, later).agreements == st'.agreements
            && EventsOf(Upgrade(st', target, later).log, Some(target)) == EventsOf(st'.log, Some(target))
  {
    hide SetInitialConditions, Migrate, EventsOf;
    var first := SetInitialConditions(st.(locks := {}), now);
    ConditionsEffect(st.(locks := {}), now);
    MigrateEffect(first, target, now);
    var st' := Upgrade(st, target, now);
    ConditionsEffect(st'.(locks := {}), later);
    MigrateOnce(SetInitialConditions(st'.(locks := {}), later), target, later);
  }

  // ---------------------------------------------------------------- all steps

  /** Only resumed tasks, sweeps and upgrades change records. */
  lemma StepEffect(w: World, s: Step)
    requires Enabled(w, s)
    ensures var w' := Apply(w, s);
            match s
            case Resume(id) => id in w.tasks && w' == ApplyResume(w, id)
            case BurnAll(order) =>
              && BurnSweep(w.st.agreements, w.st.locks, w.cycles, order, w.now).Swept?
              && w' == ApplyBurn(w, order)
            case DoUpgrade(target) => w' == w.(st := Upgrade(w.st, target, w.now))
            case _ => SameRecords(w, w') && w'.now == if s.Tick? then w.now + s.nanos else w.now
  {
    hide ApplyResume, ApplyBurn, ApplyRental, ContinueSweep, BurnSweep, Upgrade, RequestAllowed, Guards, RequestTrail, PaymentTrail;
    hide EventsOf;
    match s
    case StartRental(_, _, _, _, _) => StartRentalEffect(w, s);
    case StartSweep(id, snapshot) => ContinueSweepEffect(w, id, w.now, snapshot);
    case _ =>
  }

  // ---------------------------------------------------------------- locks

  lemma SweepHoldsLocks(w: World, id: nat, sweepNow: nat, rest: seq<RentalRequest>)
    requires LocksAreHeld(w.st.locks, w.tasks) && id !in w.tasks
    ensures var w' := ContinueSweep(w, id, sweepNow, rest); LocksAreHeld(w'.st.locks, w'.tasks)
  {
    hide LocksAreHeld, NextToLock, LockingDue;
    var i := NextToLock(w.st.locks, rest, sweepNow);
    if i < |rest| {
      StartHoldsLocks(
        w, id, LockJob(rest[i], sweepNow, rest[i + 1..]), CmcTransfer(rest[i].user, rest[i].initialCostIcp / 10));
    }
  }

  lemma MovingOrLeavingHoldsLocks(w: World, w': World, id: nat)
    requires LocksAreHeld(w.st.locks, w.tasks) && id in w.tasks
    requires Moves(w, w', id) || Leaves(w, w', id)
    ensures LocksAreHeld(w'.st.locks, w'.tasks)
  {
    hide LocksAreHeld, Guards, Follows;
    if Moves(w, w', id) {
      FollowerHoldsTheSame(w.tasks[id].job, w'.tasks[id].job);
      SwapKeepsLocks(w.st.locks, w.tasks, id, w'.tasks[id]);
    } else {
      LeavingFreesLocks(w.st.locks, w.tasks, id);
    }
  }

  /** Whatever a resumed task does, including a trap, the locks stay those of the live tasks. */
  lemma ResumeHoldsLocks(w: World, id: nat)
    requires LocksAreHeld(w.st.locks, w.tasks) && id in w.tasks
    ensures var w' := ApplyResume(w, id); LocksAreHeld(w'.st.locks, w'.tasks)
  {
    hide LocksAreHeld, ResumeRental, ResumeCreate, ResumeRefund, ResumeTopUp, ResumeLocking, Effect, Moves, Leaves;
    ResumeEffect(w, id);
    if w.tasks[id].job.LockJob? && !w.tasks[id].reply.CallFailed? {
      ResumeLockingHoldsLocks(w, id);
    } else if GoesOn(w, ApplyResume(w, id), id) {
      EndKeepsRecords(w, id);
      MovingOrLeavingHoldsLocks(w, ApplyResume(w, id), id);
    } else {
      MovingOrLeavingHoldsLocks(w, ApplyResume(w, id), id);
    }
  }

  lemma ResumeLockingHoldsLocks(w: World, id: nat)
    requires LocksAreHeld(w.st.locks, w.tasks) && id in w.tasks && w.tasks[id].job.LockJob?
    ensures var w' := ResumeLocking(w, id); LocksAreHeld(w'.st.locks, w'.tasks)
  {
    hide LocksAreHeld, EndLocking, ContinueSweep, Guards;
    var Task(job, call, reply) := w.tasks[id];
    if (call.CmcTransfer? && reply.Block?) || LockingTraps(w, id) {
      MovingOrLeavingHoldsLocks(w, ResumeLocking(w, id), id);
    } else {
      EndLockingEffect(w, id);
      MovingOrLeavingHoldsLocks(w, EndLocking(w, id), id);
      SweepHoldsLocks(EndLocking(w, id), id, job.sweepNow, job.rest);
    }
  }

  lemma StartRentalHoldsLocks(w: World, s: Step)
    requires LocksAreHeld(w.st.locks, w.tasks) && Enabled(w, s) && s.StartRental?
    ensures var w' := Apply(w, s); LocksAreHeld(w'.st.locks, w'.tasks)
  {
    hide LocksAreHeld, Pricing.CalculateSubnetPrice, Append, RequestAllowed, Guards;
    var job := RentalJob(s.user, s.condition, s.proposal, 0);
    assert Guards(job) == {Guard(s.user, RequestTag)} by { GuardOfRental(job); }
    if RequestAllowed(w.st, s.user, s.condition) {
      var started := Start(if s.rateTime in w.st.rates then w else PayXrc(w), s.id, job, XrcCall(s.rateTime));
      StartHoldsLocks(if s.rateTime in w.st.rates then w else PayXrc(w), s.id, job, XrcCall(s.rateTime));
      if s.rateTime in w.st.rates {
        var w' := Apply(w, s);
        PricingEffect(started, s.id, w.st.rates[s.rateTime].0, w.st.rates[s.rateTime].1);
        MovingOrLeavingHoldsLocks(started, w', s.id);
      }
    }
  }

  lemma GuardOfRental(job: Job)
    requires job.RentalJob?
    ensures Guards(job) == {Guard(job.user, RequestTag)}
  {
  }

  lemma StepHoldsLocks(w: World, s: Step)
    requires LocksAreHeld(w.st.locks, w.tasks) && Enabled(w, s)
    ensures var w' := Apply(w, s); LocksAreHeld(w'.st.locks, w'.tasks)
  {
    hide LocksAreHeld, ApplyResume, ApplyRental, ContinueSweep, BurnSweep, SetInitialConditions, Migrate, Append, RequestAllowed;
    match s
    case Serve(id, reply) => SwapKeepsLocks(w.st.locks, w.tasks, id, w.tasks[id].(reply := reply));
    case Resume(id) => ResumeHoldsLocks(w, id);
    case StartRental(_, _, _, _, _) => StartRentalHoldsLocks(w, s);
    case StartCreate(id, user, subnet, proposal) =>
      var r := w.st.requests[user];
      StartHoldsLocks(
        w, id, CreateJob(user, subnet, proposal, r, None),
        CmcTransfer(user, SatSub(r.initialCostIcp, r.lockedAmountIcp)));
    case StartRefund(id, user) => StartHoldsLocks(w, id, RefundJob(user), BalanceCall(user));
    case StartTopUp(id, subnet) =>
      StartHoldsLocks(w, id, TopUpJob(subnet, w.st.agreements[subnet], 0), BalanceCall(w.st.agreements[subnet].user));
    case StartSweep(id, snapshot) => SweepHoldsLocks(w, id, w.now, snapshot);
    case StartPrice(id, time) => StartHoldsLocks(PayXrc(w), id, PriceJob, XrcCall(time));
    case StartEstimate(id, time) => StartHoldsLocks(PayXrc(w), id, EstimateJob, XrcCall(time));
    case StartAdmins(id, subnet) => StartHoldsLocks(w, id, AdminsJob(subnet), AdminsCall);
    case DoUpgrade(target) => UpgradeHoldsLocks(w, target);
    case _ =>
  }

  lemma UpgradeHoldsLocks(w: World, target: Principal)
    requires w.tasks == map[]
    ensures LocksAreHeld(Upgrade(w.st, target, w.now).locks, w.tasks)
  {
    hide Append, Deadlines.Reprice;
  }
}
