/** What flows in and out of a user's subaccount, and what a refund leaves on it, in any run. */
module Accounts {
  import opened Types
  import opened State
  import opened World
  import opened Invariant
  import opened Effects
  import opened Runs
  import opened AnyRun
  import opened Theorems
  import opened Lives
  import opened Origins

  /** What a step puts on the subaccount of `u`. */
  function Deposited(s: Step, u: Principal): nat {
    if s.Deposit? && s.account == u then s.amount else 0
  }

  /** What a step takes off it for a conversion: the transfer to the CMC and the ledger's fee. */
  function Converted(w: World, s: Step, u: Principal): nat {
    if s.Serve? && s.id in w.tasks && s.reply.Block? && w.tasks[s.id].call.CmcTransfer? && w.tasks[s.id].call.account == u
    then SatSub(w.tasks[s.id].call.amount, DEFAULT_FEE) + DEFAULT_FEE
    else 0
  }

  /** What a step takes off it for a refund: the amount refunded and the ledger's fee. */
  function Refunded(w: World, s: Step, u: Principal): nat {
    if s.Serve? && s.id in w.tasks && s.reply.Block? && w.tasks[s.id].call.RefundTransfer? && w.tasks[s.id].call.account == u
    then w.tasks[s.id].call.amount + DEFAULT_FEE
    else 0
  }

  lemma ResumeMovesNoIcp(w: World, id: nat)
    requires id in w.tasks
    ensures ApplyResume(w, id).icp == w.icp
  {
    hide ApplyResume, SameRecords, Effect, LockingDue;
    ResumeEffect(w, id);
  }

  lemma StartsMoveNoIcp(w: World, s: Step)
    requires Enabled(w, s) && !s.Deposit? && !s.Serve? && !s.Resume?
    ensures Apply(w, s).icp == w.icp
  {
    hide BurnSweep, Upgrade, Pricing.CalculateSubnetPrice, History.Append, NextToLock, RequestAllowed, Guards, IcpInFlight, CyclesInFlight;
  }

  lemma ServeMovesIcp(w: World, s: Step, u: Principal)
    requires Enabled(w, s) && s.Serve?
    ensures At(Apply(w, s).icp, u) + Converted(w, s, u) + Refunded(w, s, u) == At(w.icp, u)
  {
  }

  lemma StepMovesIcp(w: World, s: Step, u: Principal)
    requires Enabled(w, s)
    ensures At(Apply(w, s).icp, u) + Converted(w, s, u) + Refunded(w, s, u) == At(w.icp, u) + Deposited(s, u)
  {
    hide Converted, Refunded;
    if s.Serve? {
      ServeMovesIcp(w, s, u);
    } else {
      NoTransfer(w, s, u);
      if s.Resume? {
        ResumeIsEnabled(w, s.id);
        ResumeMovesNoIcp(w, s.id);
      } else if !s.Deposit? {
        StartsMoveNoIcp(w, s);
      }
    }
  }

  lemma NoTransfer(w: World, s: Step, u: Principal)
    requires !s.Serve?
    ensures Converted(w, s, u) == 0 && Refunded(w, s, u) == 0
  {
  }

  // ---------------------------------------------------------------- over a run

  function AllDeposited(steps: seq<Step>, i: nat, j: nat, u: Principal): nat
    requires i <= j <= |steps|
    decreases j
  {
    if i == j then 0 else AllDeposited(steps, i, j - 1, u) + Deposited(steps[j - 1], u)
  }

  ghost function AllConverted(worlds: seq<World>, steps: seq<Step>, i: nat, j: nat, u: Principal): nat
    requires i <= j <= |steps| <= |worlds|
    decreases j
  {
    if i == j then 0 else AllConverted(worlds, steps, i, j - 1, u) + Converted(worlds[j - 1], steps[j - 1], u)
  }

  ghost function AllRefunded(worlds: seq<World>, steps: seq<Step>, i: nat, j: nat, u: Principal): nat
    requires i <= j <= |steps| <= |worlds|
    decreases j
  {
    if i == j then 0 else AllRefunded(worlds, steps, i, j - 1, u) + Refunded(worlds[j - 1], steps[j - 1], u)
  }

  /** In every run: what is on a subaccount is what was there, plus deposits, less conversions and refunds. */
  lemma {:induction false} SubaccountAddsUp(worlds: seq<World>, steps: seq<Step>, i: nat, j: nat, u: Principal)
    requires Run(worlds, steps) && i <= j <= |steps|
    ensures At(worlds[j].icp, u) + AllConverted(worlds, steps, i, j, u) + AllRefunded(worlds, steps, i, j, u)
         == At(worlds[i].icp, u) + AllDeposited(steps, i, j, u)
    decreases j
  {
    hide Init, Enabled, Apply, Converted, Refunded, Deposited;
    if i < j {
      SubaccountAddsUp(worlds, steps, i, j - 1, u);
      StepMovesIcp(worlds[j - 1], steps[j - 1], u);
      assert worlds[j] == Apply(worlds[j - 1], steps[j - 1]);
    }
  }

  // ---------------------------------------------------------------- one refund at a time

  /** In every run there is at most one refund. */
  lemma OneRefund(worlds: seq<World>, steps: seq<Step>, n: nat, i: nat, j: nat)
    requires Run(worlds, steps) && n <= |steps| && i in worlds[n].tasks && j in worlds[n].tasks
    requires worlds[n].tasks[i].job.RefundJob? && worlds[n].tasks[j].job.RefundJob?
    ensures i == j
  {
    hide Init, Enabled, Apply, LocksAreHeld;
    LocksInEveryRun(worlds, steps, n);
    if i != j {
      GuardExcludes(worlds[n].st.locks, worlds[n].tasks, i, Guard(Anonymous, RefundTag)) by { RefundGuard(worlds[n].tasks[i].job); }
      RefundGuard(worlds[n].tasks[j].job);
    }
  }

  lemma RefundGuard(job: Job)
    requires job.RefundJob?
    ensures Guard(Anonymous, RefundTag) in Guards(job)
  {
  }

  /** Only refunds make refund transfers. */
  lemma TransferIsARefund(worlds: seq<World>, steps: seq<Step>, n: nat, id: nat)
    requires Run(worlds, steps) && n <= |steps| && id in worlds[n].tasks && worlds[n].tasks[id].call.RefundTransfer?
    ensures worlds[n].tasks[id].job.RefundJob?
  {
    hide Init, Enabled, Apply, ApplyResume, Priced;
    var b := CallWasMade(worlds, steps, n, id);
    InitialConditions(worlds, steps, b);
    if id in worlds[b].tasks {
      KindStays(worlds[b], id);
      match worlds[b].tasks[id].job
      case RentalJob(_, _, _, _) => RentalStages(worlds[b], id);
      case CreateJob(_, _, _, _, _) => CreateStages(worlds[b], id);
      case RefundJob(_) =>
      case TopUpJob(_, _, _) => TopUpStages(worlds[b], id);
      case LockJob(_, _, _) => LockStages(worlds[b], id);
      case _ => OtherStages(worlds[b], id);
    }
  }

  predicate Paid(t: Task) {
    t.call.RefundTransfer? && t.reply.Block?
  }

  /** Until a refund is paid, no refund is. */
  lemma {:induction false} NothingRefundedBefore(
      worlds: seq<World>, steps: seq<Step>, i: nat, j: nat, id: nat, u: Principal)
    requires Run(worlds, steps) && i <= j <= |steps|
    requires forall m | i <= m <= j :: id in worlds[m].tasks && worlds[m].tasks[id].job == RefundJob(u)
    requires !Paid(worlds[j].tasks[id])
    ensures AllRefunded(worlds, steps, i, j, u) == 0
    decreases j
  {
    hide Init, Enabled, Apply, ApplyResume;
    if i < j {
      var w, s := worlds[j - 1], steps[j - 1];
      assert worlds[j] == Apply(w, s);
      assert id in w.tasks && w.tasks[id].job == RefundJob(u);
      if s == Resume(id) {
        ResumeIsEnabled(w, id);
        RefundStages(w, id);
      } else if Touches(s, id) {
        ServeWaits(w, s, id);
      } else {
        TaskWaits(w, s, id);
        if s.Serve? && s.id in w.tasks && w.tasks[s.id].call.RefundTransfer? {
          TransferIsARefund(worlds, steps, j - 1, s.id);
          OneRefund(worlds, steps, j - 1, id, s.id);
        }
      }
      NothingRefundedBefore(worlds, steps, i, j - 1, id, u);
    }
  }

  /** In every run: when a refund is paid, what is left on the user's subaccount is what was deposited since the
      refund read the balance, less what was converted since; so nothing, if neither happened. */
  lemma RefundLeavesNothing(worlds: seq<World>, steps: seq<Step>, p: nat, id: nat, block: nat) returns (k: nat)
    requires Run(worlds, steps) && p < |steps| && steps[p] == Serve(id, Block(block))
    requires id in worlds[p].tasks && worlds[p].tasks[id].job.RefundJob? && worlds[p].tasks[id].call.RefundTransfer?
    ensures var u := worlds[p].tasks[id].job.user;
            && k < p && steps[k] == Serve(id, Balance(At(worlds[k].icp, u)))
            && At(worlds[p + 1].icp, u) + AllConverted(worlds, steps, k, p + 1, u) == AllDeposited(steps, k, p + 1, u)
  {
    hide Init, Enabled, Apply;
    var u := worlds[p].tasks[id].job.user;
    k := RefundAsksForTheBalance(worlds, steps, p, id);
    ServeWaits(worlds[p], steps[p], id);
    NothingRefundedBefore(worlds, steps, k, p, id, u);
    SubaccountAddsUp(worlds, steps, k, p + 1, u);
    assert Refunded(worlds[p], steps[p], u) == At(worlds[k].icp, u);
  }
}
