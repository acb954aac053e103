/** The canister's own code (canister.rs, migration.rs), segment by segment, on the state it updates in
    place. A result `false` or `trapped` stands for a trap, whose changes the platform discards. */
module Canisters {
  import opened Types
  import opened Deadlines
  import opened Burning
  import opened Segments = State
  import opened CanisterStates

  datatype Begun = Busy | Refused | Proceeds

  class Canister {
    const state: CanisterState
    var cycles: nat

    ghost predicate Valid()
      reads this, state
    {
      state.Valid()
    }

    ghost function Abs(): State
      requires Valid()
      reads this, state
    {
      state.Abs()
    }

    constructor (cycles: nat, now: nat)
      ensures Valid() && fresh(state)
      ensures Abs() == Segments.SetInitialConditions(State(map[], {}, map[], map[], map[], map[]), now)
      ensures this.cycles == cycles
    {
      state := new CanisterState();
      this.cycles := cycles;
      new;
      SetInitialConditions(now);
    }

    /** The system burns no more cycles than the canister has. */
    method CyclesBurn(amount: nat) returns (burned: nat)
      modifies this`cycles
      ensures burned == Min(amount, old(cycles)) && cycles == old(cycles) - burned
    {
      burned := Min(amount, cycles);
      cycles := cycles - burned;
    }

    // ---------------------------------------------------------------- install and upgrade

    method SetInitialConditions(now: nat)
      requires Valid()
      modifies state
      ensures Valid() && Abs() == Segments.SetInitialConditions(old(Abs()), now)
    {
      var initial := [App13CH, App7CH];
      for i := 0 to |initial|
        invariant Valid()
        invariant i == 0 ==> Abs() == old(Abs())
        invariant i == 1 ==> Abs() == WithCondition(old(Abs()), App13CH, now)
        invariant i == 2 ==> Abs() == Segments.SetInitialConditions(old(Abs()), now)
      {
        state.InsertRentalCondition(initial[i], INITIAL_CONDITIONS[initial[i]]);
        state.PersistEvent(RentalConditionsChanged(initial[i], Some(INITIAL_CONDITIONS[initial[i]])), None, now);
      }
    }

    method App13chToApp7ch(target: Principal, now: nat)
      requires Valid()
      modifies state
      ensures Valid() && Abs() == Migrate(old(Abs()), target, now)
    {
      if target !in state.agreements {
        return;
      }
      var agreement := state.agreements[target];
      if agreement.rentalConditionId != App13CH || App7CH !in state.conditions {
        return;
      }
      var remaining := SatSub(agreement.totalCyclesCreated, agreement.totalCyclesBurned);
      var deadline := Reprice(remaining, state.conditions[App7CH].dailyCostCycles, now);
      var ok := state.UpdateRentalAgreement(
        target, (a: RentalAgreement) => a.(rentalConditionId := App7CH, paidUntilNanos := deadline));
      if !ok {
        return;
      }
      state.PersistEvent(
        RentalConditionSwitched(agreement.user, App13CH, App7CH, remaining, agreement.paidUntilNanos, deadline),
        Some(target), now);
    }

    /** The heap, and the locks with it, does not survive an upgrade. */
    method PostUpgrade(target: Principal, now: nat)
      requires Valid()
      modifies state
      ensures Valid() && Abs() == Upgrade(old(Abs()), target, now)
    {
      state.locks := {};
      assert Abs() == old(Abs()).(locks := {});
      SetInitialConditions(now);
      App13chToApp7ch(target, now);
    }

    // ---------------------------------------------------------------- burning

    method BurnForAgreement(subnet: Principal, now: nat) returns (trapped: bool)
      requires Valid() && subnet in state.agreements && state.agreements[subnet].subnetId == subnet
      modifies this`cycles, state`agreements
      ensures Valid()
      ensures var burn := BurnOne(old(state.agreements)[subnet], old(cycles), now);
              && trapped == burn.DivisionTrap?
              && (!trapped ==>
                    && cycles == burn.balance
                    && Abs() == old(Abs()).(agreements := old(state.agreements)[subnet := burn.agreement]))
    {
      var agreement := state.agreements[subnet];
      var remaining := SatSub(agreement.totalCyclesCreated, agreement.totalCyclesBurned);
      if remaining == 0 {
        assert state.agreements[subnet := agreement] == state.agreements;
        return false;
      }
      if now >= agreement.paidUntilNanos {
        var burned := CyclesBurn(remaining);
        var _ := state.UpdateRentalAgreement(
          agreement.subnetId, (a: RentalAgreement) => a.(totalCyclesBurned := SatAdd128(a.totalCyclesBurned, burned)));
        return false;
      }
      var secondsLeft := (agreement.paidUntilNanos - now) / BILLION;
      if secondsLeft == 0 {
        return true;
      }
      var perMinute := Wrap128(remaining / secondsLeft * BURN_INTERVAL_SECONDS);
      var burned := CyclesBurn(Min(perMinute, remaining));
      var _ := state.UpdateRentalAgreement(
        agreement.subnetId, (a: RentalAgreement) => a.(totalCyclesBurned := SatAdd128(a.totalCyclesBurned, burned)));
      return false;
    }

    /** One burn sweep; `order` lists the agreements in the order the map gives them. */
    method BurnCycles(order: seq<Principal>, now: nat) returns (trapped: bool)
      requires Valid()
      requires forall s | s in order :: s in state.agreements
      requires forall s | s in state.agreements :: state.agreements[s].subnetId == s
      modifies this`cycles, state`agreements, state`locks
      ensures Valid()
      ensures var sweep := BurnSweep(old(state.agreements), old(state.locks), old(cycles), order, now);
              && trapped == sweep.SweepTrap?
              && (!trapped ==> cycles == sweep.balance && Abs() == old(Abs()).(agreements := sweep.agreements))
    {
      ghost var before := Abs();
      var stored := state.agreements;
      var copies := seq(|order|, i requires 0 <= i < |order| => stored[order[i]]);
      for i := 0 to |copies|
        invariant Valid() && Abs() == before.(agreements := state.agreements)
        invariant forall s | s in state.agreements :: state.agreements[s].subnetId == s
        invariant BurnSweep(before.agreements, before.locks, old(cycles), order, now)
               == BurnSweep(state.agreements, before.locks, cycles, order[i..], now)
      {
        var subnet := copies[i].subnetId;
        assert subnet == order[i] == order[i..][0] && order[i..][1..] == order[i + 1..];
        var ok := state.Acquire(subnet, AgreementTag);
        if !ok {
          continue;
        }
        if subnet in state.agreements {
          trapped := BurnForAgreement(subnet, now);
          if trapped {
            return;
          }
        }
        state.Release(subnet, AgreementTag);
        assert state.locks == before.locks;
      }
      trapped := false;
    }

    // ---------------------------------------------------------------- locking

    /** A sweep over its own copies of the requests, up to the next one to convert for. */
    method NextLocking(copies: seq<RentalRequest>, now: nat) returns (next: nat)
      requires Valid()
      modifies state`locks
      ensures Valid() && next == NextToLock(old(state.locks), copies, now)
      ensures Abs() ==
        if next == |copies| then old(Abs())
        else old(Abs()).(locks := old(state.locks) + {Guard(copies[next].user, RequestTag)})
    {
      for i := 0 to |copies|
        invariant Valid() && Abs() == old(Abs())
        invariant NextToLock(state.locks, copies, now) == i + NextToLock(state.locks, copies[i..], now)
      {
        var r := copies[i];
        assert copies[i..][0] == r && copies[i..][1..] == copies[i + 1..];
        var days := Wrap64(now - r.lastLockingTimeNanos) / BILLION / 60 / 60 / 24;
        if days < 30 {
          continue;
        }
        var tenth := r.initialCostIcp / 10;
        if r.lockedAmountIcp >= Wrap64(tenth * 10) {
          continue;
        }
        var ok := state.Acquire(r.user, RequestTag);
        if !ok {
          continue;
        }
        return i;
      }
      return |copies|;
    }

    method CompleteLocking(copy: RentalRequest, sweepNow: nat, block: nat, lockedCycles: nat, now: nat) returns (ok: bool)
      requires Valid()
      modifies state
      ensures Valid()
      ensures var after := FinishLocking(old(Abs()), copy, sweepNow, block, lockedCycles, now);
              && ok == after.Some?
              && (ok ==> Abs() == after.value.(locks := old(state.locks) - {Guard(copy.user, RequestTag)}))
    {
      var tenth := copy.initialCostIcp / 10;
      state.PersistEvent(TransferSuccess(tenth, block), Some(copy.user), now);
      state.PersistEvent(LockingSuccess(copy.user, tenth, lockedCycles), Some(copy.user), now);
      var lockedIcp := SatAdd64(copy.lockedAmountIcp, tenth);
      var allCycles := Wrap128(copy.lockedAmountCycles + lockedCycles);
      var written := RentalRequest(
        copy.user, copy.initialCostIcp, lockedIcp, allCycles, copy.initialProposalId,
        copy.creationTimeNanos, copy.rentalConditionId, sweepNow);
      ok := state.UpdateRentalRequest(copy.user, _ => written);
      if ok {
        state.Release(copy.user, RequestTag);
      }
    }

    method FailLocking(user: Principal, now: nat)
      requires Valid()
      modifies state
      ensures Valid()
      ensures Abs() == Persist(old(Abs()), Some(user), LockingFailure(user), now)
                         .(locks := old(state.locks) - {Guard(user, RequestTag)})
    {
      state.PersistEvent(LockingFailure(user), Some(user), now);
      state.Release(user, RequestTag);
    }

    // ---------------------------------------------------------------- rental request

    method IsRenting(user: Principal) returns (renting: bool)
      requires Valid()
      ensures renting == HasAgreement(state.agreements, user)
    {
      var rest := state.agreements.Keys;
      while rest != {}
        invariant rest <= state.agreements.Keys
        invariant forall s | s in state.agreements && s !in rest :: state.agreements[s].user != user
      {
        var s :| s in rest;
        if state.agreements[s].user == user {
          return true;
        }
        rest := rest - {s};
      }
      return false;
    }

    method IsRequested(condition: ConditionId) returns (requested: bool)
      requires Valid()
      ensures requested <==> exists u :: u in state.requests && state.requests[u].rentalConditionId == condition
    {
      var rest := state.requests.Keys;
      while rest != {}
        invariant rest <= state.requests.Keys
        invariant forall u | u in state.requests && u !in rest :: state.requests[u].rentalConditionId != condition
      {
        var u :| u in rest;
        if state.requests[u].rentalConditionId == condition {
          return true;
        }
        rest := rest - {u};
      }
      return false;
    }

    /** The segment before the first await; a held guard is a trap. */
    method BeginRental(user: Principal, condition: ConditionId, proposal: nat, now: nat) returns (begun: Begun)
      requires Valid() && condition in state.conditions
      modifies state
      ensures Valid()
      ensures begun == if Guard(user, RequestTag) in old(state.locks) then Busy
                       else if RequestAllowed(old(Abs()), user, condition) then Proceeds else Refused
      ensures Abs() == match begun
                       case Busy => old(Abs())
                       case Refused => Persist(old(Abs()), Some(user), RentalRequestFailed(user, proposal), now)
                       case Proceeds => old(Abs()).(locks := old(state.locks) + {Guard(user, RequestTag)})
    {
      var ok := state.Acquire(user, RequestTag);
      if !ok {
        return Busy;
      }
      var refused := user in state.requests;
      if !refused {
        refused := IsRenting(user);
      }
      if !refused && state.conditions[condition].subnetId.Some? {
        refused := state.conditions[condition].subnetId.value in state.agreements;
      }
      if !refused {
        refused := IsRequested(condition);
      }
      if !refused {
        return Proceeds;
      }
      FailRental(user, proposal, now);
      assert state.locks == old(state.locks);
      return Refused;
    }

    method FailRental(user: Principal, proposal: nat, now: nat)
      requires Valid()
      modifies state
      ensures Valid()
      ensures Abs() == Persist(old(Abs()), Some(user), RentalRequestFailed(user, proposal), now)
                         .(locks := old(state.locks) - {Guard(user, RequestTag)})
    {
      state.PersistEvent(RentalRequestFailed(user, proposal), Some(user), now);
      state.Release(user, RequestTag);
    }

    method CompleteRental(
        user: Principal, condition: ConditionId, proposal: nat, needed: nat, block: nat, lockedCycles: nat, now: nat)
      returns (ok: bool)
      requires Valid()
      modifies state
      ensures Valid()
      ensures var after := FinishRequest(
                old(Abs()), NewRequest(user, condition, proposal, needed, lockedCycles, now), block, now);
              && ok == after.Some?
              && (ok ==> Abs() == after.value.(locks := old(state.locks) - {Guard(user, RequestTag)}))
    {
      var lockAmount := needed / 10;
      state.PersistEvent(TransferSuccess(lockAmount, block), Some(user), now);
      var r := RentalRequest(user, needed, lockAmount, lockedCycles, proposal, now, condition, now);
      ok := state.PersistRentalRequest(r, now);
      if ok {
        state.Release(user, RequestTag);
      }
    }

    // ---------------------------------------------------------------- rental agreement

    /** The segment before the first await; held guards are traps. */
    method BeginAgreement(user: Principal, subnet: Principal) returns (begun: Begun, toConvert: nat)
      requires Valid()
      requires forall u | u in state.requests :: state.requests[u].rentalConditionId in state.conditions
      modifies state`locks
      ensures Valid()
      ensures begun == if Guard(user, RequestTag) in old(state.locks) || Guard(subnet, NnsTag) in old(state.locks) then Busy
                       else if user !in state.requests || subnet in state.agreements then Refused else Proceeds
      ensures begun == Refused ==> Abs() == old(Abs())
      ensures begun == Proceeds ==>
                && Abs() == old(Abs()).(locks := old(state.locks) + {Guard(user, RequestTag), Guard(subnet, NnsTag)})
                && toConvert == SatSub(state.requests[user].initialCostIcp, state.requests[user].lockedAmountIcp)
    {
      toConvert := 0;
      var ok := state.Acquire(user, RequestTag);
      if !ok {
        return Busy, 0;
      }
      ok := state.Acquire(subnet, NnsTag);
      if !ok {
        return Busy, 0;
      }
      if user !in state.requests || subnet in state.agreements {
        state.Release(subnet, NnsTag);
        state.Release(user, RequestTag);
        assert state.locks == old(state.locks);
        return Refused, 0;
      }
      var r := state.requests[user];
      assert state.locks == old(state.locks) + {Guard(user, RequestTag), Guard(subnet, NnsTag)};
      return Proceeds, SatSub(r.initialCostIcp, r.lockedAmountIcp);
    }

    /** The segment between the conversion and the call that authorizes the subnet. */
    method DraftAgreement(
        r: RentalRequest, user: Principal, subnet: Principal, proposal: nat, block: nat, converted: nat, now: nat)
      returns (a: RentalAgreement)
      requires Valid() && r.rentalConditionId in state.conditions
      modifies state
      ensures Valid()
      ensures Abs() == Persist(
                old(Abs()), Some(user), TransferSuccess(SatSub(r.initialCostIcp, r.lockedAmountIcp), block), now)
      ensures a == NewAgreement(
                r, user, subnet, proposal, converted, old(state.conditions)[r.rentalConditionId].initialRentalPeriodDays, now)
    {
      var days := state.conditions[r.rentalConditionId].initialRentalPeriodDays;
      var periodNanos := Wrap64(Wrap64(days * SECONDS_PER_DAY) * BILLION);
      var remaining := SatSub(r.initialCostIcp, r.lockedAmountIcp);
      state.PersistEvent(TransferSuccess(remaining, block), Some(user), now);
      var created := SatAdd128(converted, r.lockedAmountCycles);
      a := RentalAgreement(
        user, r.initialProposalId, Some(proposal), subnet, r.rentalConditionId, now,
        Wrap64(now + periodNanos), r.initialCostIcp, created, 0);
    }

    method CompleteAgreement(a: RentalAgreement, now: nat) returns (ok: bool)
      requires Valid()
      modifies state
      ensures Valid()
      ensures var after := FinishCreate(old(Abs()), a, now);
              && ok == after.Some?
              && (ok ==> Abs() == after.value.(
                    locks := old(state.locks) - {Guard(a.user, RequestTag), Guard(a.subnetId, NnsTag)}))
    {
      var removed := state.RemoveRentalRequest(a.user);
      if removed.None? {
        return false;
      }
      ok := state.PersistRentalAgreement(a, now);
      if ok {
        state.Release(a.subnetId, NnsTag);
        state.Release(a.user, RequestTag);
        assert state.locks == old(state.locks) - {Guard(a.user, RequestTag), Guard(a.subnetId, NnsTag)};
      }
    }

    // ---------------------------------------------------------------- refund

    method BeginRefund(caller: Principal) returns (begun: Begun)
      requires Valid()
      modifies state`locks
      ensures Valid()
      ensures var guards := {Guard(Anonymous, RefundTag), Guard(caller, RequestTag)};
              && begun == (if guards !! old(state.locks) then Proceeds else Busy)
              && Abs() == (if begun.Proceeds? then old(Abs()).(locks := old(state.locks) + guards) else old(Abs()))
    {
      var ok := state.Acquire(Anonymous, RefundTag);
      if !ok {
        return Busy;
      }
      ok := state.Acquire(caller, RequestTag);
      if !ok {
        state.Release(Anonymous, RefundTag);
        assert state.locks == old(state.locks);
        return Busy;
      }
      assert state.locks == old(state.locks) + {Guard(Anonymous, RefundTag), Guard(caller, RequestTag)};
      return Proceeds;
    }

    method CompleteRefund(caller: Principal, amount: nat, block: nat, now: nat)
      requires Valid()
      modifies this`cycles, state
      ensures Valid()
      ensures Abs() == FinishRefund(old(Abs()), caller, amount, block, now)
                         .(locks := old(state.locks) - {Guard(Anonymous, RefundTag), Guard(caller, RequestTag)})
      ensures var locked := if caller in old(state.requests) then old(state.requests)[caller].lockedAmountCycles else 0;
              cycles == old(cycles) - Min(locked, old(cycles))
    {
      state.PersistEvent(TransferSuccess(amount, block), Some(caller), now);
      if caller in state.requests {
        var r := state.requests[caller];
        var _ := CyclesBurn(r.lockedAmountCycles);
        var _ := state.RemoveRentalRequest(caller);
        state.PersistEvent(RentalRequestCancelled(r), Some(caller), now);
      }
      state.Release(caller, RequestTag);
      state.Release(Anonymous, RefundTag);
      assert state.locks == old(state.locks) - {Guard(Anonymous, RefundTag), Guard(caller, RequestTag)};
    }

    // ---------------------------------------------------------------- top-up

    method BeginTopUp(subnet: Principal) returns (read: Option<RentalAgreement>)
      requires Valid()
      modifies state`locks
      ensures Valid()
      ensures read == if Guard(subnet, AgreementTag) !in old(state.locks) && subnet in state.agreements
                      then Some(state.agreements[subnet]) else None
      ensures Abs() == if read.Some? then old(Abs()).(locks := old(state.locks) + {Guard(subnet, AgreementTag)}) else old(Abs())
    {
      var ok := state.Acquire(subnet, AgreementTag);
      if !ok {
        return None;
      }
      if subnet !in state.agreements {
        state.Release(subnet, AgreementTag);
        assert state.locks == old(state.locks);
        return None;
      }
      return Some(state.agreements[subnet]);
    }

    method FailTopUp(subnet: Principal, read: RentalAgreement, now: nat)
      requires Valid()
      modifies state
      ensures Valid()
      ensures Abs() == Persist(old(Abs()), Some(subnet), SubnetTopUpFailed(read.user), now)
                         .(locks := old(state.locks) - {Guard(subnet, AgreementTag)})
    {
      state.PersistEvent(SubnetTopUpFailed(read.user), Some(subnet), now);
      state.Release(subnet, AgreementTag);
    }

    /** The segment after the conversion: deadline and totals are computed from the copy read before it. */
    method CompleteTopUp(subnet: Principal, read: RentalAgreement, icp: nat, block: nat, converted: nat, now: nat)
      returns (ok: bool)
      requires Valid()
      modifies state
      ensures Valid()
      ensures var after := FinishTopUp(old(Abs()), subnet, read, icp, block, converted, now);
              && ok == after.Some?
              && (ok ==> Abs() == after.value.(locks := old(state.locks) - {Guard(subnet, AgreementTag)}))
    {
      state.PersistEvent(TransferSuccess(SatSub(icp, DEFAULT_FEE), block), Some(subnet), now);
      if read.rentalConditionId !in state.conditions {
        return false;
      }
      var perSecond := state.conditions[read.rentalConditionId].dailyCostCycles / SECONDS_PER_DAY;
      if perSecond == 0 {
        return false;
      }
      var seconds := converted / perSecond;
      var nanos := SatMul128(seconds, BILLION);
      var deadline := SatAdd128(read.paidUntilNanos, nanos);
      if deadline > U64_MAX {
        deadline := U64_MAX;
      }
      var created := SatAdd128(read.totalCyclesCreated, converted);
      var days := Wrap64(seconds / SECONDS_PER_DAY);
      ok := state.UpdateRentalAgreement(subnet, (a: RentalAgreement) => a.(
        totalCyclesCreated := created,
        totalIcpPaid := SatAdd64(a.totalIcpPaid, icp),
        paidUntilNanos := deadline));
      if ok {
        state.PersistEvent(SubnetTopUp(read.user, icp, converted, days, deadline), Some(subnet), now);
        state.Release(subnet, AgreementTag);
      }
    }

    // ---------------------------------------------------------------- exchange rates

    /** The cached rate, or None once the exchange rate canister is asked with the fee attached; without
        the cycles for it the call fails, which is a trap. */
    method CachedRate(time: nat) returns (rate: Option<(nat, nat)>, ok: bool)
      requires Valid()
      modifies this`cycles
      ensures rate == if time in state.rates then Some(state.rates[time]) else None
      ensures ok == (rate.Some? || old(cycles) >= XRC_FEE)
      ensures ok ==> cycles == if rate.Some? then old(cycles) else old(cycles) - XRC_FEE
    {
      if time in state.rates {
        return Some(state.rates[time]), true;
      }
      if cycles < XRC_FEE {
        return None, false;
      }
      cycles := cycles - XRC_FEE;
      return None, true;
    }
  }
}
