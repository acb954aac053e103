/** The lives of tasks in a run: how each call was made and each reply was given, in any run. */
module Lives {
  import opened Types
  import opened History
  import opened Pricing
  import opened State
  import opened World
  import opened Effects
  import opened Runs

  // ---------------------------------------------------------------- one step

  /** The task that a step starts, up to its first await. */
  predicate StartsAs(w: World, s: Step, id: nat, t: Task) {
    && t.reply.Pending?
    && match s
       case StartRental(i, user, condition, proposal, time) =>
         && i == id && t.job.RentalJob? && t.job == RentalJob(user, condition, proposal, t.job.needed)
         && if time in w.st.rates
            then t.call == BalanceCall(user) && condition in w.st.conditions
                 && Priced(w, condition, w.st.rates[time].0, w.st.rates[time].1) == Some(t.job.needed)
            else t.call == XrcCall(time)
       case StartCreate(i, user, subnet, proposal) =>
         && i == id && user in w.st.requests && subnet !in w.st.agreements
         && t.job == CreateJob(user, subnet, proposal, w.st.requests[user], None)
         && t.call == CmcTransfer(user, SatSub(w.st.requests[user].initialCostIcp, w.st.requests[user].lockedAmountIcp))
       case StartRefund(i, user) => i == id && t.job == RefundJob(user) && t.call == BalanceCall(user)
       case StartTopUp(i, subnet) =>
         && i == id && subnet in w.st.agreements && t.job == TopUpJob(subnet, w.st.agreements[subnet], 0)
         && t.call == BalanceCall(w.st.agreements[subnet].user)
       case StartSweep(i, copies) => i == id && exists c | 0 <= c < |copies| :: StartsAt(t, copies, c, w.now)
       case StartPrice(i, time) => i == id && t == Task(PriceJob, XrcCall(time), Pending)
       case StartEstimate(i, time) => i == id && t == Task(EstimateJob, XrcCall(time), Pending)
       case StartAdmins(i, subnet) => i == id && t == Task(AdminsJob(subnet), AdminsCall, Pending)
       case _ => false
  }

  function Priced(w: World, condition: ConditionId, rate: nat, decimals: nat): Option<nat>
    requires condition in w.st.conditions
  {
    var c := w.st.conditions[condition];
    CalculateSubnetPrice(c.dailyCostCycles, c.initialRentalPeriodDays, rate, decimals)
  }

  lemma StartedRental(w: World, s: Step)
    requires Enabled(w, s) && s.StartRental? && s.id in Apply(w, s).tasks
    ensures StartsAs(w, s, s.id, Apply(w, s).tasks[s.id])
  {
    hide CalculateSubnetPrice, Append, Guards, RequestAllowed, IcpInFlight, CyclesInFlight;
  }

  lemma StartedTask(w: World, s: Step, id: nat)
    requires Enabled(w, s) && id !in w.tasks && id in Apply(w, s).tasks
    ensures StartsAs(w, s, id, Apply(w, s).tasks[id])
  {
    hide ApplyResume, ApplyBurn, ApplyRental, ContinueSweep, BurnSweep, Upgrade, RequestAllowed, Guards, SameRecords, Effect, Priced;
    match s
    case Resume(i) => ResumeEffect(w, i);
    case StartRental(i, _, _, _, _) =>
      StartRentalEffect(w, s);
      StartedRental(w, s);
    case StartSweep(i, copies) => ContinueSweepEffect(w, i, w.now, copies);
    case BurnAll(_) => BurnKeepsTasks(w, s);
    case _ =>
  }

  lemma BurnKeepsTasks(w: World, s: Step)
    requires Enabled(w, s) && s.BurnAll?
    ensures Apply(w, s).tasks == w.tasks
  {
    hide BurnSweep;
  }

  predicate Touches(s: Step, id: nat) {
    (s.Resume? || s.Serve?) && s.id == id
  }

  /** Only its own replies and segments change a task. */
  lemma TaskWaits(w: World, s: Step, id: nat)
    requires Enabled(w, s) && id in w.tasks && !Touches(s, id)
    ensures id in Apply(w, s).tasks && Apply(w, s).tasks[id] == w.tasks[id]
  {
    hide ApplyResume, ApplyBurn, ApplyRental, ContinueSweep, BurnSweep, Upgrade, RequestAllowed, Guards, SameRecords, Effect;
    match s
    case Resume(i) => ResumeEffect(w, i);
    case Serve(i, reply) => ServeChangesReply(w, i, reply);
    case StartRental(_, _, _, _, _) => StartRentalEffect(w, s);
    case StartSweep(i, copies) => ContinueSweepEffect(w, i, w.now, copies);
    case BurnAll(_) => BurnKeepsTasks(w, s);
    case _ =>
  }

  lemma ServeChangesReply(w: World, id: nat, reply: Reply)
    requires Enabled(w, Serve(id, reply))
    ensures ApplyServe(w, id, reply).tasks == w.tasks[id := w.tasks[id].(reply := reply)]
    ensures ApplyServe(w, id, reply).st == w.st && ApplyServe(w, id, reply).now == w.now
  {
  }

  /** A resumed task that is not over waits for a new reply. */
  lemma ResumedWaits(w: World, id: nat)
    requires id in w.tasks && id in ApplyResume(w, id).tasks
    ensures ApplyResume(w, id).tasks[id].reply.Pending?
  {
    hide ApplyResume, SameRecords, Effect, LockingDue;
    ResumeEffect(w, id);
  }

  // ---------------------------------------------------------------- a run

  /** From the i-th to the j-th world the task is there, with one job and suspended on one call. */
  ghost predicate Waits(worlds: seq<World>, id: nat, i: nat, j: nat, job: Job, call: Call)
    requires i <= j < |worlds|
  {
    forall m | i <= m <= j :: id in worlds[m].tasks && worlds[m].tasks[id].job == job && worlds[m].tasks[id].call == call
  }

  /** The step in which the task made the call it is suspended on. */
  lemma {:induction false} CallWasMade(worlds: seq<World>, steps: seq<Step>, n: nat, id: nat) returns (b: nat)
    requires Run(worlds, steps) && n <= |steps| && id in worlds[n].tasks
    ensures b < n && Waits(worlds, id, b + 1, n, worlds[n].tasks[id].job, worlds[n].tasks[id].call)
    ensures worlds[b + 1].tasks[id].reply.Pending?
    ensures if id in worlds[b].tasks
            then steps[b] == Resume(id) && worlds[b + 1] == ApplyResume(worlds[b], id) && !worlds[b].tasks[id].reply.Pending?
            else StartsAs(worlds[b], steps[b], id, worlds[b + 1].tasks[id])
    decreases n
  {
    hide Init, Enabled, Apply, StartsAs;
    if n == 0 {
      assert false by { NothingAtFirst(worlds[0]) by { assert Init(worlds[0]); } }
    } else {
      var w, s := worlds[n - 1], steps[n - 1];
      assert worlds[n] == Apply(w, s);
      if id !in w.tasks {
        StartedTask(w, s, id);
        assert worlds[n].tasks[id].reply.Pending? by { StarterWaits(w, s, id, worlds[n].tasks[id]); }
        b := n - 1;
      } else if s == Resume(id) {
        ResumeIsEnabled(w, id);
        ResumedWaits(w, id);
        b := n - 1;
      } else {
        if Touches(s, id) { ServeWaits(w, s, id); } else { TaskWaits(w, s, id); }
        b := CallWasMade(worlds, steps, n - 1, id);
      }
    }
  }

  lemma StarterWaits(w: World, s: Step, id: nat, t: Task)
    requires StartsAs(w, s, id, t)
    ensures t.reply.Pending?
  {
  }

  lemma ResumeIsEnabled(w: World, id: nat)
    requires Enabled(w, Resume(id))
    ensures id in w.tasks && !w.tasks[id].reply.Pending? && Apply(w, Resume(id)) == ApplyResume(w, id)
  {
    hide ApplyResume;
  }

  lemma ServeWaits(w: World, s: Step, id: nat)
    requires Enabled(w, s) && Touches(s, id) && s.Serve?
    ensures id in w.tasks && w.tasks[id].reply.Pending? && Servable(w, w.tasks[id].call, s.reply)
    ensures id in Apply(w, s).tasks && Apply(w, s).tasks[id] == w.tasks[id].(reply := s.reply)
  {
    hide Servable;
    ServeChangesReply(w, id, s.reply);
  }

  /** The step in which the task was given the reply it has. */
  lemma {:induction false} ReplyWasGiven(worlds: seq<World>, steps: seq<Step>, n: nat, id: nat) returns (k: nat)
    requires Run(worlds, steps) && n <= |steps| && id in worlds[n].tasks && !worlds[n].tasks[id].reply.Pending?
    ensures k < n && steps[k] == Serve(id, worlds[n].tasks[id].reply)
    ensures id in worlds[k].tasks && worlds[k].tasks[id] == worlds[n].tasks[id].(reply := Pending)
    ensures Enabled(worlds[k], steps[k])
    ensures Servable(worlds[k], worlds[n].tasks[id].call, worlds[n].tasks[id].reply)
    ensures forall m | k < m <= n :: id in worlds[m].tasks && worlds[m].tasks[id] == worlds[n].tasks[id]
    decreases n
  {
    hide Init, Enabled, Apply, StartsAs, Servable;
    if n == 0 {
      assert false by { NothingAtFirst(worlds[0]) by { assert Init(worlds[0]); } }
    } else {
      var w, s := worlds[n - 1], steps[n - 1];
      assert worlds[n] == Apply(w, s);
      if id !in w.tasks {
        StartedTask(w, s, id);
        StarterWaits(w, s, id, worlds[n].tasks[id]);
        assert false;
      } else if s == Resume(id) {
        ResumeIsEnabled(w, id);
        ResumedWaits(w, id);
        assert false;
      } else if Touches(s, id) {
        ServeWaits(w, s, id);
        k := n - 1;
      } else {
        TaskWaits(w, s, id);
        k := ReplyWasGiven(worlds, steps, n - 1, id);
      }
    }
  }

  // ---------------------------------------------------------------- stages of the jobs

  /** The task goes on to the next call. */
  predicate CallsNext(w: World, id: nat, job: Job, call: Call)
    requires id in w.tasks
  {
    id in ApplyResume(w, id).tasks && ApplyResume(w, id).tasks[id] == Task(job, call, Pending)
  }

  /** A refund goes on exactly if the balance covers one fee, and asks for all of it but the fee. */
  lemma RefundStages(w: World, id: nat)
    requires id in w.tasks && w.tasks[id].job.RefundJob?
    ensures var Task(job, call, reply) := w.tasks[id];
            if call.BalanceCall? && reply.Balance? && reply.e8s >= DEFAULT_FEE
            then CallsNext(w, id, job, RefundTransfer(job.user, reply.e8s - DEFAULT_FEE))
            else id !in ApplyResume(w, id).tasks
  {
    hide FinishRefund, IcpInFlight, CyclesInFlight, Guards;
  }

  /** A top-up goes on exactly if the balance covers one fee, converts all of it but the fee, and then notifies the
      CMC of that very transfer. */
  lemma TopUpStages(w: World, id: nat)
    requires id in w.tasks && w.tasks[id].job.TopUpJob?
    ensures var Task(job, call, reply) := w.tasks[id];
            if call.BalanceCall? && reply.Balance? && reply.e8s >= DEFAULT_FEE
            then CallsNext(w, id, job.(balance := reply.e8s), CmcTransfer(job.agreement.user, reply.e8s - DEFAULT_FEE))
            else if call.CmcTransfer? && reply.Block?
            then CallsNext(w, id, job, NotifyCall(call.account, call.amount, reply.index))
            else id !in ApplyResume(w, id).tasks
  {
    hide FinishTopUp, Append, IcpInFlight, CyclesInFlight, Guards;
  }

  /** A creation notifies the CMC of its transfer, and drafts the agreement at the time the minted cycles come back. */
  lemma CreateStages(w: World, id: nat)
    requires id in w.tasks && w.tasks[id].job.CreateJob? && w.st.conditions == INITIAL_CONDITIONS
    ensures var Task(job, call, reply) := w.tasks[id];
            if call.CmcTransfer? && reply.Block?
            then CallsNext(w, id, job, NotifyCall(call.account, call.amount, reply.index))
            else if call.NotifyCall? && reply.Minted?
            then exists a :: CallsNext(w, id, job.(draft := Some(a)), AuthorizeCall(job.user, call.amount, reply.cycles))
                   && a.creationTimeNanos == w.now && a.subnetCreationProposalId == Some(job.proposal)
            else id !in ApplyResume(w, id).tasks
  {
    hide FinishCreate, Append, IcpInFlight, CyclesInFlight, Guards, CreationDeadline;
    var Task(job, call, reply) := w.tasks[id];
    ConditionIsInitial(job.request.rentalConditionId);
    if call.NotifyCall? && reply.Minted? {
      assert CallsNext(
        w, id,
        job.(draft := Some(NewAgreement(
          job.request, job.user, job.subnet, job.proposal, reply.cycles,
          w.st.conditions[job.request.rentalConditionId].initialRentalPeriodDays, w.now))),
        AuthorizeCall(job.user, call.amount, reply.cycles));
    }
  }

  lemma ConditionIsInitial(c: ConditionId)
    ensures c in INITIAL_CONDITIONS
  {
    match c
    case App13CH =>
    case App7CH =>
  }

  /** A proposal goes on exactly if its price can be calculated, the balance covers it, and the transfer succeeds. */
  lemma RentalStages(w: World, id: nat)
    requires id in w.tasks && w.tasks[id].job.RentalJob? && w.st.conditions == INITIAL_CONDITIONS
    ensures w.tasks[id].job.condition in w.st.conditions
    ensures var Task(job, call, reply) := w.tasks[id];
            if call.XrcCall? && reply.Rate? && Priced(w, job.condition, reply.rate, reply.decimals).Some?
            then CallsNext(w, id, job.(needed := Priced(w, job.condition, reply.rate, reply.decimals).value), BalanceCall(job.user))
            else if call.BalanceCall? && reply.Balance? && job.needed <= reply.e8s
            then CallsNext(w, id, job, CmcTransfer(job.user, job.needed / 10))
            else if call.CmcTransfer? && reply.Block?
            then CallsNext(w, id, job, NotifyCall(call.account, call.amount, reply.index))
            else id !in ApplyResume(w, id).tasks
  {
    hide FinishRequest, Append, IcpInFlight, CyclesInFlight, Guards, CalculateSubnetPrice;
    ConditionIsInitial(w.tasks[id].job.condition);
  }

  lemma OtherStages(w: World, id: nat)
    requires id in w.tasks
    requires var job := w.tasks[id].job; job.PriceJob? || job.EstimateJob? || job.AdminsJob? || job.Closing?
    ensures id !in ApplyResume(w, id).tasks
  {
    hide IcpInFlight, CyclesInFlight, Guards;
  }
}
