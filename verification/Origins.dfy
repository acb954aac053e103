/** Where the amounts, times and prices that tasks work with come from, in any run. */
module Origins {
  import opened Types
  import opened History
  import opened Pricing
  import opened State
  import opened World
  import opened AgreementWrites
  import opened Effects
  import opened Runs
  import opened AnyRun
  import opened Theorems
  import opened Lives

  // ---------------------------------------------------------------- stages before

  lemma KindStays(w: World, id: nat)
    requires id in w.tasks && id in ApplyResume(w, id).tasks
    ensures var job, job' := w.tasks[id].job, ApplyResume(w, id).tasks[id].job;
            Follows(job, job') || (job.LockJob? && job'.LockJob? && ApplyResume(w, id).tasks[id].call.CmcTransfer?)
  {
    hide ApplyResume, SameRecords, Effect, LockingDue;
    ResumeEffect(w, id);
  }

  lemma InitialConditions(worlds: seq<World>, steps: seq<Step>, n: nat)
    requires Run(worlds, steps) && n <= |steps|
    ensures worlds[n].st.conditions == INITIAL_CONDITIONS
  {
    hide Solid, Init, Enabled, Apply;
    SolidRun(worlds, steps, n);
    PartsOf(worlds[n]);
  }

  lemma LockStages(w: World, id: nat)
    requires id in w.tasks && w.tasks[id].job.LockJob? && id in ApplyResume(w, id).tasks
    ensures var Task(job, call, reply) := w.tasks[id];
            || (call.CmcTransfer? && reply.Block? && CallsNext(w, id, job, NotifyCall(call.account, call.amount, reply.index)))
            || ApplyResume(w, id).tasks[id].call.CmcTransfer?
  {
    hide EndLocking, ContinueSweep, End, Effect;
    EndLeaves(w, w, id);
    EndLockingEffect(w, id);
    ContinueSweepEffect(EndLocking(w, id), id, w.tasks[id].job.sweepNow, w.tasks[id].job.rest);
  }

  /** A task that has notified the CMC did so for the transfer that it was given the block of. */
  lemma NotifiedStage(w: World, id: nat)
    requires id in w.tasks && w.st.conditions == INITIAL_CONDITIONS
    requires id in ApplyResume(w, id).tasks && ApplyResume(w, id).tasks[id].call.NotifyCall?
    ensures var Task(job, call, reply) := w.tasks[id];
            call.CmcTransfer? && reply.Block? && CallsNext(w, id, job, NotifyCall(call.account, call.amount, reply.index))
  {
    hide ApplyResume, Follows, Priced;
    match w.tasks[id].job
    case RentalJob(_, _, _, _) => RentalStages(w, id);
    case CreateJob(_, _, _, _, _) => CreateStages(w, id);
    case RefundJob(_) => RefundStages(w, id);
    case TopUpJob(_, _, _) => TopUpStages(w, id);
    case LockJob(_, _, _) => LockStages(w, id);
    case _ => OtherStages(w, id);
  }

  /** In every run: the block a task notifies the CMC of is the one the ledger returned for its transfer. */
  lemma BlockWasReturned(worlds: seq<World>, steps: seq<Step>, n: nat, id: nat) returns (k: nat)
    requires Run(worlds, steps) && n <= |steps| && id in worlds[n].tasks && worlds[n].tasks[id].call.NotifyCall?
    ensures var Task(job, NotifyCall(account, amount, block), _) := worlds[n].tasks[id];
            && k < n && steps[k] == Serve(id, Block(block)) && Enabled(worlds[k], steps[k])
            && id in worlds[k].tasks && worlds[k].tasks[id] == Task(job, CmcTransfer(account, amount), Pending)
  {
    hide Init, Enabled, Apply, ApplyResume, Servable;
    var b := CallWasMade(worlds, steps, n, id);
    InitialConditions(worlds, steps, b);
    NotifiedStage(worlds[b], id);
    k := ReplyWasGiven(worlds, steps, b, id);
  }

  // ---------------------------------------------------------------- refunds and top-ups

  /** In every run: a refund asks for what its user's subaccount held when it read the balance, less the fee. */
  lemma RefundAsksForTheBalance(worlds: seq<World>, steps: seq<Step>, n: nat, id: nat) returns (k: nat)
    requires Run(worlds, steps) && n <= |steps| && id in worlds[n].tasks
    requires worlds[n].tasks[id].job.RefundJob? && worlds[n].tasks[id].call.RefundTransfer?
    ensures var Task(RefundJob(u), RefundTransfer(account, amount), _) := worlds[n].tasks[id];
            && account == u && k < n
            && steps[k] == Serve(id, Balance(amount + DEFAULT_FEE)) && At(worlds[k].icp, u) == amount + DEFAULT_FEE
            && forall m | k <= m <= n :: id in worlds[m].tasks && worlds[m].tasks[id].job == RefundJob(u)
  {
    hide Init, Enabled, Apply, ApplyResume;
    var b := CallWasMade(worlds, steps, n, id);
    KindStays(worlds[b], id);
    RefundStages(worlds[b], id);
    k := ReplyWasGiven(worlds, steps, b, id);
    RefundReadsItsUser(worlds, steps, b, id);
  }

  lemma RefundReadsItsUser(worlds: seq<World>, steps: seq<Step>, n: nat, id: nat)
    requires Run(worlds, steps) && n <= |steps| && id in worlds[n].tasks
    requires worlds[n].tasks[id].job.RefundJob? && worlds[n].tasks[id].call.BalanceCall?
    ensures worlds[n].tasks[id].call.account == worlds[n].tasks[id].job.user
  {
    hide Init, Enabled, Apply, ApplyResume;
    var b := CallWasMade(worlds, steps, n, id);
    if id in worlds[b].tasks {
      KindStays(worlds[b], id);
      RefundStages(worlds[b], id);
    }
  }

  lemma TopUpReadsItsUser(worlds: seq<World>, steps: seq<Step>, n: nat, id: nat)
    requires Run(worlds, steps) && n <= |steps| && id in worlds[n].tasks
    requires worlds[n].tasks[id].job.TopUpJob? && worlds[n].tasks[id].call.BalanceCall?
    ensures worlds[n].tasks[id].call.account == worlds[n].tasks[id].job.agreement.user
  {
    hide Init, Enabled, Apply, ApplyResume;
    var b := CallWasMade(worlds, steps, n, id);
    if id in worlds[b].tasks {
      KindStays(worlds[b], id);
      TopUpStages(worlds[b], id);
    }
  }

  /** In every run: a top-up converts, and books, what its user's subaccount held when it read the balance. */
  lemma {:induction false} TopUpBooksTheBalance(worlds: seq<World>, steps: seq<Step>, n: nat, id: nat) returns (k: nat)
    requires Run(worlds, steps) && n <= |steps| && id in worlds[n].tasks && worlds[n].tasks[id].job.TopUpJob?
    requires worlds[n].tasks[id].call.CmcTransfer? || worlds[n].tasks[id].call.NotifyCall?
    ensures var Task(TopUpJob(_, a, balance), call, _) := worlds[n].tasks[id];
            && k < n && steps[k] == Serve(id, Balance(balance)) && At(worlds[k].icp, a.user) == balance
            && balance >= DEFAULT_FEE && call.account == a.user && call.amount == balance - DEFAULT_FEE
    decreases n
  {
    hide Init, Enabled, Apply, ApplyResume;
    var b := CallWasMade(worlds, steps, n, id);
    KindStays(worlds[b], id);
    TopUpStages(worlds[b], id);
    if worlds[n].tasks[id].call.NotifyCall? {
      k := TopUpBooksTheBalance(worlds, steps, b, id);
    } else {
      k := ReplyWasGiven(worlds, steps, b, id);
      TopUpReadsItsUser(worlds, steps, b, id);
    }
  }

  // ---------------------------------------------------------------- agreements

  /** In every run: an agreement is drafted, with its creation time and proposal, by the step that resumes its task
      after the minted cycles have come back. */
  lemma DraftIsMadeAfterMinting(worlds: seq<World>, steps: seq<Step>, n: nat, id: nat) returns (p: nat, k: nat)
    requires Run(worlds, steps) && n <= |steps| && id in worlds[n].tasks
    requires worlds[n].tasks[id].job.CreateJob? && worlds[n].tasks[id].call.AuthorizeCall?
    ensures var Task(CreateJob(user, subnet, proposal, r, draft), AuthorizeCall(account, amount, cycles), _) := worlds[n].tasks[id];
            && k < p < n && steps[p] == Resume(id) && steps[k] == Serve(id, Minted(cycles))
            && id in worlds[p].tasks && worlds[p].tasks[id].reply == Minted(cycles) && worlds[p].tasks[id].call.NotifyCall?
            && worlds[p].tasks[id].call.amount == amount
            && (forall m | p < m <= n :: id in worlds[m].tasks && worlds[m].tasks[id].job == worlds[n].tasks[id].job)
            && draft.Some? && draft.value.creationTimeNanos == worlds[p].now
            && draft.value.subnetCreationProposalId == Some(proposal)
  {
    hide Init, Enabled, Apply, ApplyResume, Servable;
    p := CallWasMade(worlds, steps, n, id);
    InitialConditions(worlds, steps, p);
    KindStays(worlds[p], id);
    CreateStages(worlds[p], id);
    k := ReplyWasGiven(worlds, steps, p, id);
  }

  /** In every run: a new agreement is paid for 180 days from the moment its last conversion was resumed. */
  lemma AgreementIsPaidFromItsDraft(worlds: seq<World>, steps: seq<Step>, n: nat, s: Principal) returns (p: nat)
    requires Run(worlds, steps) && n < |steps|
    requires s in worlds[n + 1].st.agreements && s !in worlds[n].st.agreements
    ensures p < n && steps[n].Resume? && steps[p] == steps[n]
    ensures var id := steps[n].id;
            && id in worlds[n].tasks && worlds[n].tasks[id].job.CreateJob?
            && id in worlds[p].tasks && worlds[p].tasks[id].call.NotifyCall? && worlds[p].tasks[id].reply.Minted?
            && var a := worlds[n + 1].st.agreements[s];
               && a.creationTimeNanos == worlds[p].now
               && a.subnetCreationProposalId == Some(worlds[n].tasks[id].job.proposal)
               && (worlds[p].now + 180 * 86_400 * 1_000_000_000 <= U64_MAX ==>
                     a.paidUntilNanos == worlds[p].now + 180 * 86_400 * 1_000_000_000)
  {
    hide Init, Enabled, Apply, Solid, CreationDeadline;
    SolidRun(worlds, steps, n);
    AddedAgreement(worlds[n], steps[n], s);
    var k;
    p, k := DraftIsMadeAfterMinting(worlds, steps, n, steps[n].id);
    DeadlineIsExact(worlds[p].now);
  }

  /** In every run: a creation works for the user, subnet and proposal it was started for. */
  lemma {:induction false} CreationWasStarted(worlds: seq<World>, steps: seq<Step>, n: nat, id: nat) returns (b: nat)
    requires Run(worlds, steps) && n <= |steps| && id in worlds[n].tasks && worlds[n].tasks[id].job.CreateJob?
    ensures var CreateJob(user, subnet, proposal, r, _) := worlds[n].tasks[id].job;
            && b < n && steps[b] == StartCreate(id, user, subnet, proposal)
            && user in worlds[b].st.requests && worlds[b].st.requests[user] == r
    decreases n
  {
    hide Init, Enabled, Apply, ApplyResume;
    b := CallWasMade(worlds, steps, n, id);
    if id in worlds[b].tasks {
      KindStays(worlds[b], id);
      b := CreationWasStarted(worlds, steps, b, id);
    }
  }

  // ---------------------------------------------------------------- rates and prices

  /** The rate a reply of the exchange rate canister carries is stored, and only then. */
  predicate Fetches(t: Task) {
    (t.job.RentalJob? || t.job.PriceJob? || t.job.EstimateJob?) && t.call.XrcCall? && t.reply.Rate?
  }

  lemma NoRatesAtFirst(w: World)
    requires Init(w)
    ensures w.st.rates == map[]
  {
    hide Append;
  }

  lemma EndRates(w: World, id: nat)
    requires id in w.tasks
    ensures End(w, id).st.rates == w.st.rates
  {
    hide Guards, IcpInFlight, CyclesInFlight;
  }

  lemma FailRentalRates(w: World, id: nat)
    requires id in w.tasks && w.tasks[id].job.RentalJob?
    ensures FailRental(w, id).st.rates == w.st.rates
  {
    hide Append, End;
    var job := w.tasks[id].job;
    EndRates(Note(w, Some(job.user), RentalRequestFailed(job.user, job.proposal)), id);
  }

  lemma PriceRentalRates(w: World, id: nat, rate: nat, decimals: nat)
    requires id in w.tasks && w.tasks[id].job.RentalJob? && w.tasks[id].job.condition in w.st.conditions
    ensures PriceRental(w, id, rate, decimals).st.rates == w.st.rates
  {
    hide FailRental, CalculateSubnetPrice;
    FailRentalRates(w, id);
  }

  lemma OpeningRates(w: World, id: nat, st: State)
    requires id in w.tasks && w.tasks[id].job.RentalJob?
    ensures End(OpenRequest(w, id, st), id).st.rates == st.rates
  {
    hide End, Guards;
    EndRates(OpenRequest(w, id, st), id);
  }

  lemma FinishRequestRates(st: State, r: RentalRequest, block: nat, now: nat)
    ensures FinishRequest(st, r, block, now).Some? ==> FinishRequest(st, r, block, now).value.rates == st.rates
  {
    hide Append;
  }

  lemma RentalRates(w: World, id: nat)
    requires id in w.tasks && w.tasks[id].job.RentalJob? && w.tasks[id].job.condition in w.st.conditions
    ensures var t := w.tasks[id];
            ResumeRental(w, id).st.rates
            == if Fetches(t) then w.st.rates[t.call.time := (t.reply.rate, t.reply.decimals)] else w.st.rates
  {
    hide FinishRequest, FailRental, PriceRental, OpenRequest, End;
    var Task(job, call, reply) := w.tasks[id];
    EndRates(w, id);
    FailRentalRates(w, id);
    if Fetches(w.tasks[id]) {
      var rates := w.st.rates[call.time := (reply.rate, reply.decimals)];
      PriceRentalRates(w.(st := w.st.(rates := rates)), id, reply.rate, reply.decimals);
    } else if call.NotifyCall? && reply.Minted? {
      var r := NewRequest(job.user, job.condition, job.proposal, job.needed, reply.cycles, w.now);
      FinishRequestRates(w.st, r, call.block, w.now);
      var st := FinishRequest(w.st, r, call.block, w.now);
      if st.Some? { OpeningRates(w, id, st.value); }
    }
  }

  lemma CreateRates(w: World, id: nat)
    requires id in w.tasks && w.tasks[id].job.CreateJob? && w.tasks[id].job.request.rentalConditionId in w.st.conditions
    ensures ResumeCreate(w, id).st.rates == w.st.rates
  {
    hide Append, NewAgreement, End, Guards;
    EndRates(w, id);
    var Task(job, call, reply) := w.tasks[id];
    if CanFound(w, id) {
      var st := FinishCreate(w.st, job.draft.value, w.now);
      if st.Some? { EndRates(OpenAgreement(w, id, st.value, job.draft.value), id); }
    }
  }

  lemma RefundRates(w: World, id: nat)
    requires id in w.tasks && w.tasks[id].job.RefundJob?
    ensures ResumeRefund(w, id).st.rates == w.st.rates
  {
    hide Append, End, Guards;
    EndRates(w, id);
    var Task(_, call, reply) := w.tasks[id];
    if call.RefundTransfer? && reply.Block? { EndRates(CancelRequest(w, id, call.amount, reply.index), id); }
  }

  lemma TopUpRates(w: World, id: nat)
    requires id in w.tasks && w.tasks[id].job.TopUpJob?
    ensures ResumeTopUp(w, id).st.rates == w.st.rates
  {
    hide Append, TopUpWrite, End, Guards;
    var Task(job, call, reply) := w.tasks[id];
    EndRates(w, id);
    EndRates(Note(w, Some(job.subnet), SubnetTopUpFailed(job.agreement.user)), id);
    if call.NotifyCall? && reply.Minted? {
      var st := FinishTopUp(w.st, job.subnet, job.agreement, job.balance, call.block, reply.cycles, w.now);
      if st.Some? { EndRates(BookTopUp(w, id, st.value), id); }
    }
  }

  lemma LockingRates(w: World, id: nat)
    requires id in w.tasks && w.tasks[id].job.LockJob?
    ensures ResumeLocking(w, id).st.rates == w.st.rates
  {
    hide EndLocking, ContinueSweep, End, Leaves, Effect;
    EndRates(w, id);
    EndLockingRates(w, id);
    ContinueSweepRates(EndLocking(w, id), id, w.tasks[id].job.sweepNow, w.tasks[id].job.rest);
  }

  lemma ContinueSweepRates(w: World, id: nat, sweepNow: nat, rest: seq<RentalRequest>)
    ensures ContinueSweep(w, id, sweepNow, rest).st.rates == w.st.rates
  {
    hide NextToLock, Guards;
  }

  lemma EndLockingRates(w: World, id: nat)
    requires id in w.tasks && w.tasks[id].job.LockJob?
    ensures EndLocking(w, id).st.rates == w.st.rates
  {
    hide Append, LockedOnce, End, Guards;
    var Task(job, call, reply) := w.tasks[id];
    EndRates(w, id);
    EndRates(Note(w, Some(job.request.user), LockingFailure(job.request.user)), id);
    if call.NotifyCall? && reply.Minted? {
      var st := FinishLocking(w.st, job.request, job.sweepNow, call.block, reply.cycles, w.now);
      if st.Some? { EndRates(BookLocking(w, id, st.value), id); }
    }
  }

  lemma ResumeRates(w: World, id: nat)
    requires id in w.tasks && w.st.conditions == INITIAL_CONDITIONS
    requires w.tasks[id].call.XrcCall? ==> AsksForRates(w.tasks[id].job)
    ensures var t := w.tasks[id];
            ApplyResume(w, id).st.rates
            == if Fetches(t) then w.st.rates[t.call.time := (t.reply.rate, t.reply.decimals)] else w.st.rates
  {
    hide ResumeRental, ResumeCreate, ResumeRefund, ResumeTopUp, ResumeLocking, Guards, IcpInFlight, CyclesInFlight;
    match w.tasks[id].job
    case RentalJob(_, c, _, _) =>
      ConditionIsInitial(c);
      RentalRates(w, id);
    case CreateJob(_, _, _, r, _) =>
      ConditionIsInitial(r.rentalConditionId);
      CreateRates(w, id);
    case RefundJob(_) => RefundRates(w, id);
    case TopUpJob(_, _, _) => TopUpRates(w, id);
    case LockJob(_, _, _) => LockingRates(w, id);
    case _ =>
  }

  predicate AsksForRates(job: Job) {
    job.RentalJob? || job.PriceJob? || job.EstimateJob?
  }

  lemma NextStage(w: World, id: nat)
    requires id in w.tasks && w.st.conditions == INITIAL_CONDITIONS && id in ApplyResume(w, id).tasks
    ensures !ApplyResume(w, id).tasks[id].call.XrcCall?
  {
    hide ApplyResume, Follows, Priced;
    match w.tasks[id].job
    case RentalJob(_, _, _, _) => RentalStages(w, id);
    case CreateJob(_, _, _, _, _) => CreateStages(w, id);
    case RefundJob(_) => RefundStages(w, id);
    case TopUpJob(_, _, _) => TopUpStages(w, id);
    case LockJob(_, _, _) => LockStages(w, id);
    case _ => OtherStages(w, id);
  }

  /** The exchange rate canister is only called as a task starts, for a rate that is not in the cache. */
  lemma RateIsAskedFirst(worlds: seq<World>, steps: seq<Step>, n: nat, id: nat) returns (b: nat)
    requires Run(worlds, steps) && n <= |steps| && id in worlds[n].tasks && worlds[n].tasks[id].call.XrcCall?
    ensures b < n && id !in worlds[b].tasks && id in worlds[b + 1].tasks && StartsAs(worlds[b], steps[b], id, worlds[b + 1].tasks[id])
    ensures worlds[n].tasks[id].job == worlds[b + 1].tasks[id].job && worlds[n].tasks[id].call == worlds[b + 1].tasks[id].call
    ensures AsksForRates(worlds[n].tasks[id].job)
  {
    hide Init, Enabled, Apply, ApplyResume, Priced;
    b := CallWasMade(worlds, steps, n, id);
    InitialConditions(worlds, steps, b);
    if id in worlds[b].tasks { NextStage(worlds[b], id); }
  }

  lemma StepRates(w: World, s: Step)
    requires Enabled(w, s)
    ensures !s.Resume? ==> Apply(w, s).st.rates == w.st.rates
  {
    hide ApplyResume, BurnSweep, Append, Pricing.CalculateSubnetPrice, NextToLock, RequestAllowed, Guards, Deadlines.Reprice;
    hide IcpInFlight, CyclesInFlight;
  }

  /** In every run: a rate in the cache is one that the exchange rate canister has replied for that time. */
  lemma {:induction false} CachedRateWasServed(worlds: seq<World>, steps: seq<Step>, n: nat, time: nat) returns (k: nat)
    requires Run(worlds, steps) && n <= |steps| && time in worlds[n].st.rates
    ensures k < n && steps[k].Serve? && steps[k].reply == Rate(worlds[n].st.rates[time].0, worlds[n].st.rates[time].1)
    ensures steps[k].id in worlds[k].tasks && worlds[k].tasks[steps[k].id].call == XrcCall(time)
    decreases n
  {
    hide Init, Enabled, Apply, ApplyResume, Priced, StartsAs, Servable;
    if n == 0 {
      assert false by { NoRatesAtFirst(worlds[0]) by { assert Init(worlds[0]); } }
    } else {
      var w, s := worlds[n - 1], steps[n - 1];
      assert worlds[n] == Apply(w, s);
      if s.Resume? {
        ResumeIsEnabled(w, s.id);
        InitialConditions(worlds, steps, n - 1);
        if w.tasks[s.id].call.XrcCall? { var b := RateIsAskedFirst(worlds, steps, n - 1, s.id); }
        ResumeRates(w, s.id);
        if Fetches(w.tasks[s.id]) && w.tasks[s.id].call.time == time {
          k := ReplyWasGiven(worlds, steps, n - 1, s.id);
        } else {
          k := CachedRateWasServed(worlds, steps, n - 1, time);
        }
      } else {
        StepRates(w, s);
        k := CachedRateWasServed(worlds, steps, n - 1, time);
      }
    }
  }

  /** In every run: a resumed task that was given a rate leaves it in the cache, and no step changes another rate. */
  lemma FetchedRateIsCached(worlds: seq<World>, steps: seq<Step>, n: nat)
    requires Run(worlds, steps) && n < |steps|
    ensures var w := worlds[n];
            worlds[n + 1].st.rates
            == if steps[n].Resume? && steps[n].id in w.tasks && w.tasks[steps[n].id].reply.Rate? && w.tasks[steps[n].id].call.XrcCall?
               then w.st.rates[w.tasks[steps[n].id].call.time :=
                                 (w.tasks[steps[n].id].reply.rate, w.tasks[steps[n].id].reply.decimals)]
               else w.st.rates
  {
    hide Init, Enabled, Apply, ApplyResume, StartsAs;
    var w, s := worlds[n], steps[n];
    assert worlds[n + 1] == Apply(w, s);
    if s.Resume? {
      ResumeIsEnabled(w, s.id);
      InitialConditions(worlds, steps, n);
      if w.tasks[s.id].call.XrcCall? { var b := RateIsAskedFirst(worlds, steps, n, s.id); }
      ResumeRates(w, s.id);
    } else {
      StepRates(w, s);
    }
  }

  // ---------------------------------------------------------------- the price of a proposal

  /** The cycles of an initial rental period under the conditions. */
  function PeriodCycles(condition: ConditionId): nat
    requires condition in INITIAL_CONDITIONS
  {
    INITIAL_CONDITIONS[condition].dailyCostCycles * INITIAL_CONDITIONS[condition].initialRentalPeriodDays
  }

  /** The cost was calculated from the rate for `time` that the exchange rate canister replied in the k-th step. */
  ghost predicate ChargedAt(worlds: seq<World>, steps: seq<Step>, k: nat, time: nat, condition: ConditionId, cost: nat)
    requires k < |steps| < |worlds|
  {
    && steps[k].Serve? && steps[k].id in worlds[k].tasks && worlds[k].tasks[steps[k].id].call == XrcCall(time)
    && steps[k].reply.Rate? && condition in INITIAL_CONDITIONS
    && var Rate(rate, decimals) := steps[k].reply;
       decimals <= 38 ==> Quoted(PeriodCycles(condition), rate, decimals, cost) && cost <= U64_MAX
  }

  lemma PricedIsQuoted(w: World, condition: ConditionId, rate: nat, decimals: nat)
    requires w.st.conditions == INITIAL_CONDITIONS && condition in INITIAL_CONDITIONS
    requires Priced(w, condition, rate, decimals).Some? && decimals <= 38
    ensures var cost := Priced(w, condition, rate, decimals).value;
            Quoted(PeriodCycles(condition), rate, decimals, cost) && cost <= U64_MAX
  {
    hide CalculateSubnetPrice, Quoted;
    var c := INITIAL_CONDITIONS[condition];
    PriceIsExact(c.dailyCostCycles, c.initialRentalPeriodDays, rate, decimals);
  }

  /** In every run: a proposal past its price charges the exact price, for its conditions, at the rate that the
      exchange rate canister replied for the time it was started with, whether it fetched that rate itself or not. */
  lemma {:induction false} ProposalChargesTheRate(worlds: seq<World>, steps: seq<Step>, n: nat, id: nat)
    returns (b: nat, k: nat, time: nat)
    requires Run(worlds, steps) && n <= |steps| && id in worlds[n].tasks
    requires worlds[n].tasks[id].job.RentalJob? && !worlds[n].tasks[id].call.XrcCall?
    ensures var RentalJob(user, condition, proposal, needed) := worlds[n].tasks[id].job;
            && b < n && steps[b] == StartRental(id, user, condition, proposal, time)
            && k < n && ChargedAt(worlds, steps, k, time, condition, needed)
    decreases n
  {
    hide Init, Enabled, Apply, ApplyResume, Priced, Servable, Quoted;
    var c := CallWasMade(worlds, steps, n, id);
    InitialConditions(worlds, steps, c);
    var w := worlds[c];
    if id in w.tasks {
      KindStays(w, id);
      RentalStages(w, id);
      if w.tasks[id].call.XrcCall? {
        b := RateIsAskedFirst(worlds, steps, c, id);
        time := w.tasks[id].call.time;
        k := ReplyWasGiven(worlds, steps, c, id);
        if w.tasks[id].reply.decimals <= 38 {
          PricedIsQuoted(w, w.tasks[id].job.condition, w.tasks[id].reply.rate, w.tasks[id].reply.decimals);
        }
      } else {
        b, k, time := ProposalChargesTheRate(worlds, steps, c, id);
      }
    } else {
      b := c;
      time := steps[c].rateTime;
      k := CachedRateWasServed(worlds, steps, c, time);
      if w.st.rates[time].1 <= 38 {
        PricedIsQuoted(w, steps[c].condition, w.st.rates[time].0, w.st.rates[time].1);
      }
    }
  }

  /** In every run: so does the request that the proposal opens, and a tenth of it is locked. */
  lemma RequestCostsTheRate(worlds: seq<World>, steps: seq<Step>, n: nat, u: Principal) returns (b: nat, k: nat, time: nat)
    requires Run(worlds, steps) && n < |steps| && u in worlds[n + 1].st.requests && u !in worlds[n].st.requests
    ensures steps[n].Resume?
    ensures var r := worlds[n + 1].st.requests[u];
            && r.user == u && r.lockedAmountIcp == r.initialCostIcp / 10
            && b < n && steps[b] == StartRental(steps[n].id, u, r.rentalConditionId, r.initialProposalId, time)
            && k < n && ChargedAt(worlds, steps, k, time, r.rentalConditionId, r.initialCostIcp)
  {
    hide Init, Enabled, Apply, ApplyResume, ChargedAt;
    RequestComesFromProposal(worlds[n], steps[n], u);
    ResumeIsEnabled(worlds[n], steps[n].id);
    OpenerHasPaid(worlds[n], steps[n].id, u);
    b, k, time := ProposalChargesTheRate(worlds, steps, n, steps[n].id);
  }

  lemma OpenerHasPaid(w: World, id: nat, u: Principal)
    requires id in w.tasks && w.tasks[id].job.RentalJob? && u in ApplyResume(w, id).st.requests && u !in w.st.requests
    ensures w.tasks[id].call.NotifyCall?
  {
    hide ApplyResume, Moves, Leaves, SameTrails, RequestTrailBecomes;
    ResumeEffect(w, id);
  }
}
