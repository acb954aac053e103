/** The hypotheses on runs are needed: reachable steps that break F and G, and what comes of them. */
module Hypotheses {
  import opened Types
  import opened History
  import opened Pricing
  import opened State
  import opened World
  import opened Invariant
  import opened Writes
  import opened Effects
  import opened Runs

  /** Which of the hypotheses a run has met. */
  datatype Met = Met(f: bool, g: bool)

  ghost predicate Reachable(w: World, met: Met) {
    exists worlds, steps ::
      && Run(worlds, steps) && worlds[|steps|] == w
      && (met.f ==> FreshRun(worlds, steps)) && (met.g ==> OneProposalRun(worlds, steps))
  }

  lemma StepIsReachable(w: World, s: Step, met: Met)
    requires Reachable(w, met) && Enabled(w, s) && (met.f ==> Fresh(w, s)) && (met.g ==> OneProposal(w, s))
    ensures Reachable(Apply(w, s), met)
  {
    hide Init, Enabled, Apply, Fresh, OneProposal;
    var worlds, steps :|
      && Run(worlds, steps) && worlds[|steps|] == w
      && (met.f ==> FreshRun(worlds, steps)) && (met.g ==> OneProposalRun(worlds, steps));
    var worlds', steps' := worlds + [Apply(w, s)], steps + [s];
    assert Run(worlds', steps');
    forall i | 0 <= i < |steps'|
      ensures (met.f ==> Fresh(worlds'[i], steps'[i])) && (met.g ==> OneProposal(worlds'[i], steps'[i]))
    {
      if i < |steps| {
        assert met.f ==> Fresh(worlds[i], steps[i]);
        assert met.g ==> OneProposal(worlds[i], steps[i]);
      }
    }
  }

  lemma WithoutG(w: World)
    requires Reachable(w, Met(true, true))
    ensures Reachable(w, Met(true, false))
  {
    hide Run, FreshRun, OneProposalRun;
  }

  lemma WithoutF(w: World)
    requires Reachable(w, Met(true, true))
    ensures Reachable(w, Met(false, true))
  {
    hide Run, FreshRun, OneProposalRun;
  }

  ghost function Do(w: World, s: Step, met: Met): World
    requires Reachable(w, met) && Enabled(w, s) && (met.f ==> Fresh(w, s)) && (met.g ==> OneProposal(w, s))
    ensures Reachable(Do(w, s, met), met)
  {
    StepIsReachable(w, s, met);
    Apply(w, s)
  }

  // ---------------------------------------------------------------- a proposal, await by await

  const RATE: nat := 1_000_000

  function Price(condition: ConditionId): nat {
    match condition case App13CH => 14_760_000 case App7CH => 7_920_000
  }

  lemma PriceAtRate(condition: ConditionId)
    ensures condition in INITIAL_CONDITIONS
    ensures var c := INITIAL_CONDITIONS[condition];
            CalculateSubnetPrice(c.dailyCostCycles, c.initialRentalPeriodDays, RATE, 0) == Some(Price(condition))
  {
  }

  function Asking(user: Principal, condition: ConditionId, needed: nat): Job {
    RentalJob(user, condition, 0, needed)
  }

  /** The proposal of `user` is suspended on `call`. */
  predicate Proposing(w: World, id: nat, user: Principal, condition: ConditionId, needed: nat, call: Call) {
    && id in w.tasks && w.tasks[id] == Task(Asking(user, condition, needed), call, Pending)
    && w.st.conditions == INITIAL_CONDITIONS
  }

  /** Nothing but the task, the rates and the user's account has changed. */
  ghost predicate Onward(w: World, w': World, id: nat, user: Principal) {
    && id in w'.tasks && w'.tasks == w.tasks[id := w'.tasks[id]]
    && w'.st == w.st.(rates := w'.st.rates)
    && w'.now == w.now && w'.book.minted == w.book.minted
    && forall u | u != user :: At(w'.icp, u) == At(w.icp, u)
  }

  lemma CanBePriced(w: World, met: Met, id: nat, user: Principal, condition: ConditionId, time: nat) returns (w': World)
    requires Reachable(w, met) && Proposing(w, id, user, condition, 0, XrcCall(time))
    ensures Reachable(w', met) && Proposing(w', id, user, condition, Price(condition), BalanceCall(user))
    ensures Onward(w, w', id, user) && w'.st.rates == w.st.rates[time := (RATE, 0)] && At(w'.icp, user) == At(w.icp, user)
  {
    hide Reachable, CalculateSubnetPrice;
    PriceAtRate(condition);
    var w1 := Do(w, Serve(id, Rate(RATE, 0)), met);
    w' := Do(w1, Resume(id), met);
  }

  lemma CanBeCharged(w: World, met: Met, id: nat, user: Principal, condition: ConditionId) returns (w': World)
    requires Reachable(w, met) && Proposing(w, id, user, condition, Price(condition), BalanceCall(user))
    requires At(w.icp, user) >= Price(condition)
    ensures Reachable(w', met) && Proposing(w', id, user, condition, Price(condition), CmcTransfer(user, Price(condition) / 10))
    ensures Onward(w, w', id, user) && w'.st.rates == w.st.rates && At(w'.icp, user) == At(w.icp, user)
  {
    hide Reachable;
    var w1 := Do(w, Serve(id, Balance(At(w.icp, user))), met);
    w' := Do(w1, Resume(id), met);
  }

  lemma CanConvert(w: World, met: Met, id: nat, user: Principal, condition: ConditionId) returns (w': World)
    requires Reachable(w, met) && Proposing(w, id, user, condition, Price(condition), CmcTransfer(user, Price(condition) / 10))
    requires At(w.icp, user) >= Price(condition)
    ensures Reachable(w', met) && Proposing(w', id, user, condition, Price(condition), NotifyCall(user, Price(condition) / 10, 0))
    ensures Onward(w, w', id, user) && w'.st.rates == w.st.rates
    ensures At(w'.icp, user) == At(w.icp, user) - Price(condition) / 10
  {
    hide Reachable;
    var w1 := Do(w, Serve(id, Block(0)), met);
    w' := Do(w1, Resume(id), met);
  }

  /** The first tenth is converted; the proposal has only to be resumed. */
  predicate Succeeding(w: World, id: nat, user: Principal, condition: ConditionId) {
    && id in w.tasks && w.st.conditions == INITIAL_CONDITIONS
    && w.tasks[id] == Task(Asking(user, condition, Price(condition)), NotifyCall(user, Price(condition) / 10, 0), Minted(0))
  }

  lemma CanSucceed(w: World, met: Met, id: nat, user: Principal, condition: ConditionId, time: nat) returns (w': World)
    requires Reachable(w, met) && Proposing(w, id, user, condition, 0, XrcCall(time))
    requires At(w.icp, user) >= Price(condition) && w.book.minted == 0
    ensures Reachable(w', met) && Succeeding(w', id, user, condition)
    ensures Onward(w, w', id, user) && w'.st.rates == w.st.rates[time := (RATE, 0)]
    ensures At(w'.icp, user) == At(w.icp, user) - Price(condition) / 10
  {
    hide Reachable;
    w' := CanBePriced(w, met, id, user, condition, time);
    w' := CanBeCharged(w', met, id, user, condition);
    w' := CanConvert(w', met, id, user, condition);
    w' := Do(w', Serve(id, Minted(0)), met);
  }

  function Opened(now: nat, user: Principal, condition: ConditionId): RentalRequest {
    NewRequest(user, condition, 0, Price(condition), 0, now)
  }

  lemma ResumeAddsRequest(w: World, id: nat, user: Principal, condition: ConditionId)
    requires Succeeding(w, id, user, condition) && user !in w.st.requests
    ensures Enabled(w, Resume(id))
    ensures var w' := Apply(w, Resume(id));
            && w'.tasks == w.tasks - {id} && w'.st.locks == w.st.locks - {Guard(user, RequestTag)}
            && w'.st.agreements == w.st.agreements
            && w'.st.conditions == w.st.conditions && w'.st.rates == w.st.rates
            && w'.st.requests == w.st.requests[user := Opened(w.now, user, condition)]
            && w'.now == w.now && w'.book.minted == w.book.minted && w'.icp == w.icp
  {
    hide Append, IcpInFlight, CyclesInFlight;
  }

  // ---------------------------------------------------------------- two requests

  /** Nothing runs, nothing is rented, and nobody else wants the condition. */
  predicate Quiet(w: World, user: Principal, condition: ConditionId, time: nat) {
    && w.tasks == map[] && w.st.locks == {} && w.st.agreements == map[]
    && w.st.conditions == INITIAL_CONDITIONS && time !in w.st.rates
    && user !in w.st.requests && forall u | u in w.st.requests :: w.st.requests[u].rentalConditionId != condition
  }

  lemma CanPropose(w: World, user: Principal, condition: ConditionId, time: nat) returns (w': World)
    requires Reachable(w, Met(true, true)) && Quiet(w, user, condition, time)
    ensures Reachable(w', Met(true, true)) && Proposing(w', 0, user, condition, 0, XrcCall(time))
    ensures w'.tasks.Keys == {0} && w'.st == w.st.(locks := {Guard(user, RequestTag)})
    ensures w'.now == w.now && w'.book.minted == w.book.minted && w'.icp == Plus(w.icp, user, Price(condition))
  {
    hide Reachable;
    var w1 := Do(w, Deposit(user, Price(condition)), Met(true, true));
    var w2 := Do(w1, DepositCycles(XRC_FEE), Met(true, true));
    w' := Do(w2, StartRental(0, user, condition, 0, time), Met(true, true));
  }

  /** Only the request of `user` has been added; nothing runs. */
  predicate Added(w: World, w': World, user: Principal, condition: ConditionId) {
    && w'.tasks == map[] && w'.st.locks == {} && w'.st.agreements == w.st.agreements
    && w'.st.conditions == INITIAL_CONDITIONS
    && w'.st.requests == w.st.requests[user := Opened(w.now, user, condition)]
    && w'.now == w.now && w'.book.minted == w.book.minted
  }

  lemma CanOpenRequest(w: World, user: Principal, condition: ConditionId, time: nat) returns (w': World)
    requires Reachable(w, Met(true, true)) && Quiet(w, user, condition, time) && w.book.minted == 0
    ensures Reachable(w', Met(true, true)) && Added(w, w', user, condition)
    ensures w'.st.rates == w.st.rates[time := (RATE, 0)]
    ensures At(w'.icp, user) >= DEFAULT_FEE && forall u | u != user :: At(w'.icp, u) == At(w.icp, u)
  {
    hide Reachable, Apply;
    w' := CanPropose(w, user, condition, time);
    w' := CanSucceed(w', Met(true, true), 0, user, condition, time);
    ResumeAddsRequest(w', 0, user, condition);
    w' := Do(w', Resume(0), Met(true, true));
  }

  const A: Principal := Id(1)
  const B: Principal := Id(2)

  lemma NewCanister(cycles: nat) returns (w: World)
    ensures Reachable(w, Met(true, true)) && w.tasks == map[] && w.st.locks == {} && w.st.agreements == map[] && w.st.requests == map[]
    ensures w.st.conditions == INITIAL_CONDITIONS && w.st.rates == map[] && w.now == 0 && w.book.minted == 0 && w.icp == map[]
    ensures w.cycles == cycles
  {
    var empty := State(map[], {}, map[], map[], map[], map[]);
    w := World(SetInitialConditions(empty, 0), 0, cycles, map[], map[], Book(cycles, 0, 0, 0, 0, 0, map[], map[], map[]));
    assert Run([w], []);
  }

  /** Two open requests, a month old. */
  lemma TwoRequests() returns (w: World)
    ensures Reachable(w, Met(true, true)) && w.tasks == map[] && w.st.locks == {} && w.now == MONTH_NANOS
    ensures w.st.requests == map[A := Opened(0, A, App13CH), B := Opened(0, B, App7CH)]
    ensures At(w.icp, B) >= DEFAULT_FEE && w.book.minted == 0
  {
    hide Reachable;
    var w0 := NewCanister(0);
    w := CanOpenRequest(w0, A, App13CH, 0);
    w := CanOpenRequest(w, B, App7CH, 1);
    assert w.st.requests == map[A := Opened(0, A, App13CH), B := Opened(0, B, App7CH)];
    w := Do(w, Tick(MONTH_NANOS), Met(true, true));
  }

  // ---------------------------------------------------------------- a stale copy

  /** A's request is being locked while B's waits in the sweep. */
  predicate Sweeping(w: World) {
    && 0 in w.tasks
    && w.tasks[0] == Task(
         LockJob(Opened(0, A, App13CH), MONTH_NANOS, [Opened(0, B, App7CH)]),
         CmcTransfer(A, Price(App13CH) / 10), Pending)
    && Guard(A, RequestTag) in w.st.locks
  }

  lemma BothAreDue(locks: set<Guard>)
    requires locks == {}
    ensures NextToLock(locks, [Opened(0, A, App13CH), Opened(0, B, App7CH)], MONTH_NANOS) == 0
  {
  }

  lemma SweepUnderWay() returns (w: World)
    ensures Reachable(w, Met(true, true)) && w.tasks.Keys == {0} && w.st.locks == {Guard(A, RequestTag)} && Sweeping(w)
    ensures B in w.st.requests && At(w.icp, B) >= DEFAULT_FEE && w.book.minted == 0
  {
    hide Reachable, NextToLock;
    w := TwoRequests();
    BothAreDue(w.st.locks);
    var copies := [Opened(0, A, App13CH), Opened(0, B, App7CH)];
    assert copies[1..] == [Opened(0, B, App7CH)];
    w := Do(w, StartSweep(0, copies), Met(true, true));
  }

  lemma RefundUnderWay() returns (w: World)
    ensures Reachable(w, Met(true, true)) && w.tasks.Keys == {0, 1} && Sweeping(w) && w.book.minted == 0
    ensures w.st.locks == {Guard(A, RequestTag)} + {Guard(Anonymous, RefundTag), Guard(B, RequestTag)}
    ensures w.tasks[1].job == RefundJob(B) && w.tasks[1].call.RefundTransfer? && w.tasks[1].reply.Block?
  {
    hide Reachable, NextToLock, CancelRequest;
    w := SweepUnderWay();
    w := Do(w, StartRefund(1, B), Met(true, true));
    w := Do(w, Serve(1, Balance(At(w.icp, B))), Met(true, true));
    w := Do(w, Resume(1), Met(true, true));
    w := Do(w, Serve(1, Block(0)), Met(true, true));
  }

  /** Meanwhile B takes a refund. */
  lemma RefundInBetween() returns (w: World)
    ensures Reachable(w, Met(true, true)) && w.tasks.Keys == {0} && w.st.locks == {Guard(A, RequestTag)} && Sweeping(w)
    ensures B !in w.st.requests && w.book.minted == 0
  {
    hide Reachable, NextToLock, ResumeRefund;
    w := RefundUnderWay();
    RefundCancels(w, 1);
    w := Do(w, Resume(1), Met(true, true));
  }

  lemma RefundCancels(w: World, id: nat)
    requires id in w.tasks && w.tasks[id].job == RefundJob(B) && w.tasks[id].call.RefundTransfer? && w.tasks[id].reply.Block?
    requires w.st.locks == {Guard(A, RequestTag)} + {Guard(Anonymous, RefundTag), Guard(B, RequestTag)}
    ensures var w' := ResumeRefund(w, id);
            && B !in w'.st.requests && w'.tasks == w.tasks - {id} && w'.st.locks == {Guard(A, RequestTag)}
            && w'.book.minted == w.book.minted
  {
    hide Append, End;
    ClosingLeaves(w, CancelRequest(w, id, w.tasks[id].call.amount, w.tasks[id].reply.index), id);
  }

  lemma NextIsB(w: World)
    requires w.st.locks == {} && B !in w.st.requests
    ensures NextToLock(w.st.locks, [Opened(0, B, App7CH)], MONTH_NANOS) == 0
    ensures NextCopy(w, MONTH_NANOS, [Opened(0, B, App7CH)]) == Some(Opened(0, B, App7CH))
    ensures !IsCurrent(w, NextCopy(w, MONTH_NANOS, [Opened(0, B, App7CH)]))
  {
  }

  /** A sweep that is about to lock B's request, which is gone. */
  predicate LockingB(w: World) {
    && 0 in w.tasks && B !in w.st.requests && w.book.minted == 0
    && w.tasks[0] == Task(LockJob(Opened(0, B, App7CH), MONTH_NANOS, []), CmcTransfer(B, Price(App7CH) / 10), Pending)
  }

  lemma SweepGoesOnToB(w: World)
    requires 0 in w.tasks && B !in w.st.requests && w.st.locks == {Guard(A, RequestTag)} && w.book.minted == 0
    requires w.tasks[0] == Task(
               LockJob(Opened(0, A, App13CH), MONTH_NANOS, [Opened(0, B, App7CH)]),
               CmcTransfer(A, Price(App13CH) / 10), TransferError)
    ensures Enabled(w, Resume(0)) && !Fresh(w, Resume(0)) && LockingB(Apply(w, Resume(0)))
  {
    hide NextToLock, Append, IcpInFlight, CyclesInFlight, LockingDue;
    var w' := EndLocking(w, 0);
    assert w'.st.locks == {};
    NextIsB(w');
  }

  /** F is a real hypothesis: a run that met F and G so far, and its invariant, can reach a sweep that goes on
      to lock a request that is gone; the invariant does not survive that step. */
  lemma SweepCanMeetAGoneRequest() returns (w: World, step: Step)
    ensures Reachable(w, Met(true, true)) && Inv(w) && Enabled(w, step) && OneProposal(w, step)
    ensures !Fresh(w, step) && !Inv(Apply(w, step)) && LockingB(Apply(w, step))
  {
    hide Reachable, Inv, Apply, Fresh, NextToLock;
    w := RefundInBetween();
    w := ConversionFails(w);
    step := Resume(0);
    ReachableIsSafe(w);
    SweepGoesOnToB(w);
    StepKeepsExactlyIfFresh(w, step);
  }

  lemma ConversionFails(w: World) returns (w': World)
    requires Reachable(w, Met(true, true)) && Sweeping(w)
    ensures Reachable(w', Met(true, true)) && w'.st == w.st && w'.book.minted == w.book.minted
    ensures 0 in w'.tasks && w'.tasks[0] == w.tasks[0].(reply := TransferError)
  {
    hide Reachable;
    w' := Do(w, Serve(0, TransferError), Met(true, true));
  }

  lemma ReachableIsSafe(w: World)
    requires Reachable(w, Met(true, true))
    ensures Inv(w)
  {
    hide Init, Apply, Enabled, FreshRun, OneProposalRun, Inv;
    var worlds, steps :|
      Run(worlds, steps) && FreshRun(worlds, steps) && OneProposalRun(worlds, steps) && worlds[|steps|] == w;
    SafeRun(worlds, steps, |steps|);
  }

  /** What can become of it. B pays in again, the conversion succeeds, and the `unwrap` of the update traps: the ICP
      is gone from B's subaccount, and neither a record nor an event says so. */
  lemma LockingAGoneRequestLosesIt() returns (paid: World, w: World)
    ensures Reachable(paid, Met(false, true)) && LockingB(paid) && At(paid.icp, B) >= Price(App7CH) / 10
    ensures Reachable(w, Met(false, true)) && CanLock(w, 0) && Enabled(w, Resume(0)) && LockingTraps(w, 0)
    ensures var w' := Apply(w, Resume(0));
            && Reachable(w', Met(false, true)) && 0 !in w'.tasks
            && w'.st.requests == paid.st.requests && w'.st.agreements == paid.st.agreements && w'.st.log == paid.st.log
            && At(w'.icp, B) == At(paid.icp, B) - Price(App7CH) / 10
            && At(w'.book.lost, B) == At(paid.book.lost, B) + Price(App7CH) / 10
  {
    hide Reachable, Inv, Apply, Enabled, Fresh, OneProposal;
    var before, step := SweepCanMeetAGoneRequest();
    WithoutF(before);
    var stale := Do(before, step, Met(false, true));
    paid := CanPayIn(stale);
    w := CanMint(paid);
    TrapLoses(w);
    StepIsReachable(w, Resume(0), Met(false, true)) by { NoProposal(w); }
  }

  lemma NoProposal(w: World)
    ensures OneProposal(w, Resume(0))
  {
  }

  lemma CanPayIn(w: World) returns (w': World)
    requires Reachable(w, Met(false, true)) && LockingB(w)
    ensures Reachable(w', Met(false, true)) && LockingB(w') && At(w'.icp, B) >= Price(App7CH) / 10
  {
    hide Reachable;
    w' := Do(w, Deposit(B, Price(App7CH)), Met(false, true));
  }

  /** The conversion for B is over, and the task has only to be resumed. */
  predicate MintedForB(paid: World, w: World) {
    && 0 in w.tasks && w.st == paid.st && B !in w.st.requests
    && w.tasks[0] == Task(
         LockJob(Opened(0, B, App7CH), MONTH_NANOS, []), NotifyCall(B, Price(App7CH) / 10, 0), Minted(0))
    && At(w.icp, B) == At(paid.icp, B) - Price(App7CH) / 10
    && At(w.book.lost, B) == At(paid.book.lost, B)
  }

  lemma CanMint(w: World) returns (w': World)
    requires Reachable(w, Met(false, true)) && LockingB(w) && At(w.icp, B) >= Price(App7CH) / 10
    ensures Reachable(w', Met(false, true)) && MintedForB(w, w')
  {
    hide Reachable;
    var w1 := Do(w, Serve(0, Block(0)), Met(false, true));
    var w2 := Do(w1, Resume(0), Met(false, true));
    w' := Do(w2, Serve(0, Minted(0)), Met(false, true));
  }

  lemma TrapLoses(w: World)
    requires 0 in w.tasks && B !in w.st.requests
    requires w.tasks[0] == Task(
               LockJob(Opened(0, B, App7CH), MONTH_NANOS, []), NotifyCall(B, Price(App7CH) / 10, 0), Minted(0))
    ensures Enabled(w, Resume(0)) && CanLock(w, 0) && LockingTraps(w, 0)
    ensures var w' := Apply(w, Resume(0));
            && 0 !in w'.tasks && w'.st == w.st.(locks := w'.st.locks) && w'.icp == w.icp
            && At(w'.book.lost, B) == At(w.book.lost, B) + Price(App7CH) / 10
  {
    hide EndLocking, ContinueSweep;
  }

  // ---------------------------------------------------------------- two proposals at once

  lemma OneUnderWay() returns (w: World)
    ensures Reachable(w, Met(true, true)) && Proposing(w, 0, A, App7CH, 0, XrcCall(0)) && w.tasks.Keys == {0}
    ensures w.st.requests == map[] && w.st.agreements == map[] && w.st.rates == map[]
    ensures w.st.locks == {Guard(A, RequestTag)} && w.cycles >= XRC_FEE && w.book.minted == 0
    ensures At(w.icp, A) >= Price(App7CH) && At(w.icp, B) >= Price(App7CH)
  {
    hide Reachable, Append;
    w := NewCanister(2 * XRC_FEE);
    w := Do(w, Deposit(A, Price(App7CH)), Met(true, true));
    w := Do(w, Deposit(B, Price(App7CH)), Met(true, true));
    w := Do(w, StartRental(0, A, App7CH, 0, 0), Met(true, true));
  }

  lemma SecondStarts(w: World)
    requires Proposing(w, 0, A, App7CH, 0, XrcCall(0)) && w.tasks.Keys == {0}
    requires w.st.requests == map[] && w.st.agreements == map[] && w.st.rates == map[]
    requires w.st.locks == {Guard(A, RequestTag)} && w.cycles >= XRC_FEE
    ensures var step := StartRental(1, B, App7CH, 0, 1);
            && ConditionsApart(w.st.requests, w.tasks) && Enabled(w, step) && Fresh(w, step) && !OneProposal(w, step)
            && var w' := Apply(w, step);
            && Proposing(w', 0, A, App7CH, 0, XrcCall(0)) && Proposing(w', 1, B, App7CH, 0, XrcCall(1))
            && w'.tasks.Keys == {0, 1} && w'.icp == w.icp && w'.st.requests == map[] && w'.book.minted == w.book.minted
            && w'.st.rates == w.st.rates && !ConditionsApart(w'.st.requests, w'.tasks)
  {
    hide Append;
    var step := StartRental(1, B, App7CH, 0, 1);
    var w' := Apply(w, step);
    assert 0 in w'.tasks && 1 in w'.tasks && w'.tasks[0].job.condition == w'.tasks[1].job.condition;
  }

  /** G is a real hypothesis, too: the guard is per user, so that it does not keep two users' proposals for the same
      condition apart once both have passed their checks. Both can end in live requests. */
  lemma ProposalsCanCollide() returns (w: World, step: Step, w': World)
    ensures Reachable(w, Met(true, true)) && ConditionsApart(w.st.requests, w.tasks) && Enabled(w, step)
    ensures Fresh(w, step) && !OneProposal(w, step) && !ConditionsApart(Apply(w, step).st.requests, Apply(w, step).tasks)
    ensures Reachable(w', Met(true, false)) && w'.tasks == map[]
    ensures w'.st.requests == map[A := Opened(w'.now, A, App7CH), B := Opened(w'.now, B, App7CH)]
  {
    hide Reachable, Apply, Enabled, Fresh, OneProposal, ConditionsApart;
    w := OneUnderWay();
    step := StartRental(1, B, App7CH, 0, 1);
    SecondStarts(w);
    WithoutG(w);
    var both := Do(w, step, Met(true, false));
    both := CanSucceed(both, Met(true, false), 0, A, App7CH, 0);
    both := CanSucceed(both, Met(true, false), 1, B, App7CH, 1);
    w' := BothEnd(both);
  }

  lemma BothEnd(w: World) returns (w': World)
    requires Reachable(w, Met(true, false)) && Succeeding(w, 0, A, App7CH) && Succeeding(w, 1, B, App7CH)
    requires w.tasks.Keys == {0, 1} && w.st.requests == map[]
    ensures Reachable(w', Met(true, false)) && w'.tasks == map[]
    ensures w'.st.requests == map[A := Opened(w'.now, A, App7CH), B := Opened(w'.now, B, App7CH)]
  {
    hide Reachable, Apply;
    ResumeAddsRequest(w, 0, A, App7CH);
    var w1 := Do(w, Resume(0), Met(true, false));
    ResumeAddsRequest(w1, 1, B, App7CH);
    w' := Do(w1, Resume(1), Met(true, false));
    assert w'.st.requests == map[A := Opened(w'.now, A, App7CH), B := Opened(w'.now, B, App7CH)];
  }
}
