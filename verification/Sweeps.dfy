/** Locking sweeps in any run: which requests are due, and that a sweep passes over none of them. */
module Sweeps {
  import opened Types
  import opened Division
  import opened State
  import opened World
  import opened Effects
  import opened Runs
  import opened AnyRun
  import opened Lives
  import opened Origins

  // ---------------------------------------------------------------- what is due

  /** A month or more has passed since the last locking, and there is another tenth to lock. */
  predicate Overdue(r: RentalRequest, now: nat) {
    && r.lastLockingTimeNanos + 30 * 86_400 * 1_000_000_000 <= now
    && r.initialCostIcp >= 10 && r.lockedAmountIcp < 10 * (r.initialCostIcp / 10)
  }

  /** The sweep's test, in whole days and with wrapping integers, is exactly that. */
  lemma DueExactlyIfOverdue(r: RentalRequest, now: nat)
    requires r.lastLockingTimeNanos <= now <= U64_MAX && r.initialCostIcp <= U64_MAX
    ensures LockingDue(r, now) <==> Overdue(r, now)
  {
  }

  /** With k tenths locked there is another one exactly if k is less than ten and a tenth is not nothing. */
  lemma TenthsToGo(r: RentalRequest, k: nat)
    requires Tenths(r, k)
    ensures r.initialCostIcp >= 10 && r.lockedAmountIcp < 10 * (r.initialCostIcp / 10) <==> r.initialCostIcp >= 10 && k < 10
  {
    if k < 10 {
      MulMonotone(r.initialCostIcp / 10, k + 1, 10);
    }
  }

  /** A sweep stops at the first copy that is due and whose guard is free: it passes over no such copy. */
  lemma {:induction false} PassedOverNone(locks: set<Guard>, copies: seq<RentalRequest>, now: nat)
    ensures forall c | 0 <= c < NextToLock(locks, copies, now) ::
              !LockingDue(copies[c], now) || Guard(copies[c].user, RequestTag) in locks
  {
    hide LockingDue;
    if copies != [] {
      PassedOverNone(locks, copies[1..], now);
      forall c | 0 <= c < NextToLock(locks, copies, now)
        ensures !LockingDue(copies[c], now) || Guard(copies[c].user, RequestTag) in locks
      {
        if c > 0 { assert copies[c] == copies[1..][c - 1]; }
      }
    }
  }

  // ---------------------------------------------------------------- times

  predicate CopiedInTime(copies: seq<RentalRequest>, now: nat) {
    forall r | r in copies :: r.lastLockingTimeNanos <= now
  }

  /** No request, stored or copied, was locked in the future of the sweep that may lock it. */
  ghost predicate Timely(w: World) {
    && w.now <= U64_MAX
    && (forall u | u in w.st.requests :: w.st.requests[u].lastLockingTimeNanos <= w.now)
    && forall id | id in w.tasks && w.tasks[id].job.LockJob? ::
         w.tasks[id].job.sweepNow <= w.now && CopiedInTime(w.tasks[id].job.rest, w.tasks[id].job.sweepNow)
  }

  lemma EffectIsTimely(w: World, w': World, id: nat)
    requires Timely(w) && id in w.tasks && Effect(w, w', id)
    ensures forall u | u in w'.st.requests :: w'.st.requests[u].lastLockingTimeNanos <= w.now
  {
    hide SameTrails, RequestTrailBecomes, PaymentTrailBecomes;
  }

  lemma ResumeIsTimely(w: World, id: nat)
    requires Timely(w) && id in w.tasks
    ensures Timely(ApplyResume(w, id))
  {
    hide ApplyResume, SameRecords, Effect, LockingDue;
    ResumeEffect(w, id);
    SameIsAnEffect(w, ApplyResume(w, id), id);
    EffectIsTimely(w, ApplyResume(w, id), id);
  }

  lemma OtherIsTimely(w: World, s: Step)
    requires Timely(w) && Enabled(w, s) && !s.Resume? && !s.StartSweep?
    ensures Timely(Apply(w, s))
  {
    hide Apply, Enabled, BurnSweep, Upgrade, SameTrails, Priced, ListsAgreements;
    StepEffect(w, s);
    EarlierThanU64(w, s);
    if s.DoUpgrade? { UpgradeChangesOnlyTheTarget(w.st, s.target, w.now, w.now); }
    forall id | id in Apply(w, s).tasks && Apply(w, s).tasks[id].job.LockJob?
      ensures id in w.tasks && Apply(w, s).tasks[id].job == w.tasks[id].job
    {
      if id !in w.tasks {
        StartedTask(w, s, id);
      } else if Touches(s, id) {
        ServeWaits(w, s, id);
      } else {
        TaskWaits(w, s, id);
      }
    }
  }

  lemma EarlierThanU64(w: World, s: Step)
    requires w.now <= U64_MAX && Enabled(w, s) && !s.Resume?
    ensures w.now <= Apply(w, s).now <= U64_MAX
  {
    hide BurnSweep, Upgrade, Pricing.CalculateSubnetPrice, History.Append, NextToLock, RequestAllowed, Guards, IcpInFlight, CyclesInFlight;
  }

  lemma SweepIsTimely(w: World, s: Step)
    requires Timely(w) && Enabled(w, s) && s.StartSweep?
    ensures Timely(Apply(w, s))
  {
    hide NextToLock, LockingDue, Guards;
    ContinueSweepEffect(w, s.id, w.now, s.snapshot);
  }

  lemma {:induction false} TimelyRun(worlds: seq<World>, steps: seq<Step>, n: nat)
    requires Run(worlds, steps) && n <= |steps|
    ensures Timely(worlds[n])
  {
    hide Timely, Init, Enabled, Apply;
    if n == 0 {
      assert Timely(worlds[0]) by { assert Init(worlds[0]); NothingAtFirst(worlds[0]); TimelyAtFirst(worlds[0]); }
    } else {
      var w, s := worlds[n - 1], steps[n - 1];
      TimelyRun(worlds, steps, n - 1);
      assert worlds[n] == Apply(w, s);
      if s.Resume? {
        ResumeIsEnabled(w, s.id);
        ResumeIsTimely(w, s.id);
      } else if s.StartSweep? {
        SweepIsTimely(w, s);
      } else {
        OtherIsTimely(w, s);
      }
    }
  }

  lemma TimelyAtFirst(w: World)
    requires Init(w)
    ensures Timely(w)
  {
    hide SetInitialConditions;
    NothingAtFirst(w);
  }

  // ---------------------------------------------------------------- the turns of a sweep

  /** In the j-th step the sweep that was started in the a-th looks for its next copy. */
  predicate LooksOn(steps: seq<Step>, a: nat, j: nat, id: nat)
    requires j < |steps|
  {
    j == a || steps[j] == Resume(id)
  }

  /** The world it finds then: that of its start, or the one its last iteration leaves behind. */
  function Found(worlds: seq<World>, a: nat, j: nat, id: nat): World
    requires j < |worlds| && (j != a ==> id in worlds[j].tasks && worlds[j].tasks[id].job.LockJob?)
  {
    if j == a then worlds[j] else EndLocking(worlds[j], id)
  }

  /** The c-th copy has had its turn before the b-th world: when the sweep came to it, it was not due, or its guard was
      held, or its conversion was started. */
  ghost predicate HadItsTurn(
      worlds: seq<World>, steps: seq<Step>, a: nat, b: nat, id: nat, copies: seq<RentalRequest>, c: nat)
    requires a < b <= |steps| && |worlds| == |steps| + 1 && c < |copies|
  {
    exists j | a <= j < b :: TurnAt(worlds, steps, a, j, id, copies, c)
  }

  ghost predicate TurnAt(worlds: seq<World>, steps: seq<Step>, a: nat, j: nat, id: nat, copies: seq<RentalRequest>, c: nat)
    requires a <= j < |steps| && |worlds| == |steps| + 1 && c < |copies|
  {
    && LooksOn(steps, a, j, id) && (j != a ==> id in worlds[j].tasks && worlds[j].tasks[id].job.LockJob?)
    // The copy is still to come before the step, and not after it.
    && (j != a ==> |copies| - c <= |worlds[j].tasks[id].job.rest|)
    && (id in worlds[j + 1].tasks && worlds[j + 1].tasks[id].job.LockJob? ==> |worlds[j + 1].tasks[id].job.rest| < |copies| - c)
    && (Overdue(copies[c], worlds[a].now) && Guard(copies[c].user, RequestTag) !in Found(worlds, a, j, id).st.locks ==>
          && id in worlds[j + 1].tasks
          && worlds[j + 1].tasks[id]
             == Task(LockJob(copies[c], worlds[a].now, copies[c + 1..]),
                     CmcTransfer(copies[c].user, copies[c].initialCostIcp / 10), Pending))
  }

  /** So have the copies numbered from..to. */
  ghost predicate HadTheirTurns(
      worlds: seq<World>, steps: seq<Step>, a: nat, b: nat, id: nat, copies: seq<RentalRequest>, from: nat, to: nat)
    requires a < b <= |steps| && |worlds| == |steps| + 1 && to <= |copies|
  {
    forall c | from <= c < to :: HadItsTurn(worlds, steps, a, b, id, copies, c)
  }

  /** One look: every copy from the p-th on that the sweep passes or stops at has its turn. */
  lemma LookingOn(w: World, id: nat, copies: seq<RentalRequest>, p: nat, now: nat) returns (q: nat)
    requires id !in w.tasks && p <= |copies| && now <= U64_MAX && CopiedInTime(copies, now)
    requires forall c | c in copies :: c.initialCostIcp <= U64_MAX
    ensures p <= q <= |copies|
    ensures var w' := ContinueSweep(w, id, now, copies[p..]);
            && (forall c | p <= c < q :: Overdue(copies[c], now) ==> Guard(copies[c].user, RequestTag) in w.st.locks)
            && if q == |copies| then w' == w
               else id in w'.tasks
                    && w'.tasks[id] == Task(LockJob(copies[q], now, copies[q + 1..]),
                                            CmcTransfer(copies[q].user, copies[q].initialCostIcp / 10), Pending)
  {
    hide NextToLock, LockingDue, Overdue, Guards;
    var rest := copies[p..];
    q := p + NextToLock(w.st.locks, rest, now);
    PassedOverNone(w.st.locks, rest, now);
    forall c | p <= c < q ensures Overdue(copies[c], now) ==> Guard(copies[c].user, RequestTag) in w.st.locks {
      assert rest[c - p] == copies[c];
      DueExactlyIfOverdue(copies[c], now);
    }
    if q < |copies| {
      assert rest[q - p] == copies[q] && rest[q - p + 1..] == copies[q + 1..];
    }
  }

  /** The sweep started in the a-th step is there in all the worlds up to the n-th. */
  ghost predicate Sweeping(worlds: seq<World>, steps: seq<Step>, a: nat, n: nat, id: nat, copies: seq<RentalRequest>)
    requires a < |steps| && n < |worlds|
  {
    steps[a] == StartSweep(id, copies) && forall m | a < m <= n :: id in worlds[m].tasks
  }

  /** Copies of a snapshot are in range and were locked before it. */
  lemma SnapshotIsInOrder(worlds: seq<World>, steps: seq<Step>, a: nat, id: nat, copies: seq<RentalRequest>)
    requires Run(worlds, steps) && a < |steps| && steps[a] == StartSweep(id, copies)
    ensures ListsRequests(worlds[a].st.requests, copies) && id !in worlds[a].tasks
    ensures worlds[a].now <= U64_MAX && CopiedInTime(copies, worlds[a].now)
    ensures forall c | c in copies :: c.initialCostIcp <= U64_MAX
  {
    hide Solid, Timely, Init, Apply, InTenths;
    TimelyRun(worlds, steps, a);
    SolidRun(worlds, steps, a);
    assert Enabled(worlds[a], steps[a]);
    forall c | c in copies ensures c.initialCostIcp <= U64_MAX && c.lastLockingTimeNanos <= worlds[a].now {
      StoredInTenths(worlds[a], c.user);
      InTenthsFits(c);
      StoredInTime(worlds[a], c.user);
    }
    assert worlds[a].now <= U64_MAX by { TimeFits(worlds[a]); }
  }

  lemma InTenthsFits(r: RentalRequest)
    requires InTenths(r)
    ensures r.initialCostIcp <= U64_MAX
  {
  }

  lemma StoredInTime(w: World, u: Principal)
    requires Timely(w) && u in w.st.requests
    ensures w.st.requests[u].lastLockingTimeNanos <= w.now
  {
  }

  lemma TimeFits(w: World)
    requires Timely(w)
    ensures w.now <= U64_MAX
  {
  }

  /** What the sweep is working on, and that all copies up to it have had their turn. */
  lemma {:induction false} SweepIsAt(
      worlds: seq<World>, steps: seq<Step>, a: nat, n: nat, id: nat, copies: seq<RentalRequest>) returns (p: nat)
    requires Run(worlds, steps) && a < n <= |steps| && Sweeping(worlds, steps, a, n, id, copies)
    ensures p < |copies| && worlds[n].tasks[id].job == LockJob(copies[p], worlds[a].now, copies[p + 1..])
    ensures HadTheirTurns(worlds, steps, a, n, id, copies, 0, p + 1)
    decreases n
  {
    hide Init, Enabled, Apply, ApplyResume, ContinueSweep, Overdue, EndLocking, Timely, CopiedInTime;
    SnapshotIsInOrder(worlds, steps, a, id, copies);
    var w, s := worlds[n - 1], steps[n - 1];
    assert worlds[n] == Apply(w, s);
    if n == a + 1 {
      StartLooks(w, id, copies);
      assert copies[0..] == copies;
      p := LookingOn(w, id, copies, 0, w.now);
      forall c | 0 <= c <= p ensures HadItsTurn(worlds, steps, a, n, id, copies, c) {
        assert TurnAt(worlds, steps, a, a, id, copies, c);
      }
    } else {
      var before := SweepIsAt(worlds, steps, a, n - 1, id, copies);
      if s == Resume(id) {
        ResumeIsEnabled(w, id);
        p := ResumedSweep(worlds, steps, a, n, id, copies, before);
      } else {
        if Touches(s, id) { ServeWaits(w, s, id); } else { TaskWaits(w, s, id); }
        p := before;
      }
      TurnsStay(worlds, steps, a, n - 1, n, id, copies, before);
    }
  }

  lemma TurnsStay(
      worlds: seq<World>, steps: seq<Step>, a: nat, n: nat, n': nat, id: nat, copies: seq<RentalRequest>, p: nat)
    requires a < n <= n' <= |steps| && |worlds| == |steps| + 1 && p < |copies|
    requires HadTheirTurns(worlds, steps, a, n, id, copies, 0, p + 1)
    ensures HadTheirTurns(worlds, steps, a, n', id, copies, 0, p + 1)
  {
    hide TurnAt;
    forall c | 0 <= c <= p ensures HadItsTurn(worlds, steps, a, n', id, copies, c) {
      assert HadItsTurn(worlds, steps, a, n, id, copies, c);
      var j :| a <= j < n && TurnAt(worlds, steps, a, j, id, copies, c);
    }
  }

  lemma StartLooks(w: World, id: nat, copies: seq<RentalRequest>)
    requires Enabled(w, StartSweep(id, copies))
    ensures Apply(w, StartSweep(id, copies)) == ContinueSweep(w, id, w.now, copies)
  {
    hide ContinueSweep, ListsRequests;
  }

  /** The iteration ends without a trap and looks on. */
  lemma ResumeLooks(w: World, id: nat)
    requires id in w.tasks && w.tasks[id].job.LockJob?
    ensures SweepGoesOn(w, id) ==>
              && id !in EndLocking(w, id).tasks
              && ApplyResume(w, id) == ContinueSweep(EndLocking(w, id), id, w.tasks[id].job.sweepNow, w.tasks[id].job.rest)
    ensures !SweepGoesOn(w, id) && id in ApplyResume(w, id).tasks ==> ApplyResume(w, id).tasks[id].job == w.tasks[id].job
  {
    hide ContinueSweep, EndLocking, End, Effect;
    EndLeaves(w, w, id);
    EndLockingEffect(w, id);
  }

  lemma LooksFrom(
      worlds: seq<World>, steps: seq<Step>, a: nat, n: nat, id: nat, copies: seq<RentalRequest>, before: nat) returns (q: nat)
    requires Run(worlds, steps) && a < n < |steps| && steps[a] == StartSweep(id, copies) && steps[n] == Resume(id)
    requires id in worlds[n].tasks && before < |copies|
    requires worlds[n].tasks[id].job == LockJob(copies[before], worlds[a].now, copies[before + 1..])
    requires worlds[n + 1] == ApplyResume(worlds[n], id) && SweepGoesOn(worlds[n], id)
    ensures before + 1 <= q <= |copies|
    ensures HadTheirTurns(worlds, steps, a, n + 1, id, copies, before + 1, Min(q + 1, |copies|))
    ensures q == |copies| ==> id !in worlds[n + 1].tasks
    ensures q < |copies| ==> id in worlds[n + 1].tasks && worlds[n + 1].tasks[id].job == LockJob(copies[q], worlds[a].now, copies[q + 1..])
  {
    hide Init, Enabled, Apply, ApplyResume, ContinueSweep, Overdue, EndLocking, CopiedInTime, SweepGoesOn;
    SnapshotIsInOrder(worlds, steps, a, id, copies);
    ResumeLooks(worlds[n], id);
    q := LookingOn(EndLocking(worlds[n], id), id, copies, before + 1, worlds[a].now);
    var b := n + 1;
    forall c | before + 1 <= c < Min(q + 1, |copies|) ensures HadItsTurn(worlds, steps, a, b, id, copies, c) {
      assert TurnAt(worlds, steps, a, n, id, copies, c);
    }
  }

  lemma ResumedSweep(
      worlds: seq<World>, steps: seq<Step>, a: nat, n: nat, id: nat, copies: seq<RentalRequest>, before: nat) returns (p: nat)
    requires Run(worlds, steps) && a + 1 < n <= |steps| && steps[a] == StartSweep(id, copies) && steps[n - 1] == Resume(id)
    requires id in worlds[n - 1].tasks && id in worlds[n].tasks && before < |copies|
    requires worlds[n - 1].tasks[id].job == LockJob(copies[before], worlds[a].now, copies[before + 1..])
    requires worlds[n] == ApplyResume(worlds[n - 1], id)
    requires HadTheirTurns(worlds, steps, a, n - 1, id, copies, 0, before + 1)
    ensures before <= p < |copies| && worlds[n].tasks[id].job == LockJob(copies[p], worlds[a].now, copies[p + 1..])
    ensures HadTheirTurns(worlds, steps, a, n, id, copies, 0, p + 1)
  {
    hide Init, Enabled, Apply, ApplyResume, SweepGoesOn, HadItsTurn;
    TurnsStay(worlds, steps, a, n - 1, n, id, copies, before);
    if SweepGoesOn(worlds[n - 1], id) {
      p := LooksFrom(worlds, steps, a, n - 1, id, copies, before);
    } else {
      ResumeLooks(worlds[n - 1], id);
      p := before;
    }
  }

  /** In every run: a sweep that comes to its end without a trap has started a conversion for each of the requests
      stored at its start that was due then, unless the request's guard was held when its turn came. */
  lemma SweepPassesOverNone(worlds: seq<World>, steps: seq<Step>, a: nat, n: nat, id: nat, copies: seq<RentalRequest>)
    requires Run(worlds, steps) && a <= n < |steps| && Sweeping(worlds, steps, a, n, id, copies)
    requires id !in worlds[n + 1].tasks && (n != a ==> steps[n] == Resume(id) && SweepGoesOn(worlds[n], id))
    ensures ListsRequests(worlds[a].st.requests, copies)
    ensures HadTheirTurns(worlds, steps, a, n + 1, id, copies, 0, |copies|)
  {
    hide Init, Enabled, Apply, ApplyResume, ContinueSweep, Overdue, EndLocking, CopiedInTime, SweepGoesOn, HadItsTurn;
    SnapshotIsInOrder(worlds, steps, a, id, copies);
    assert worlds[n + 1] == Apply(worlds[n], steps[n]);
    if n == a {
      StartLooks(worlds[a], id, copies);
      assert copies[0..] == copies;
      var q := LookingOn(worlds[a], id, copies, 0, worlds[a].now);
      var b := n + 1;
      forall c | 0 <= c < |copies| ensures HadItsTurn(worlds, steps, a, b, id, copies, c) {
        FirstTurn(worlds, steps, a, id, copies, c);
      }
    } else {
      ResumeIsEnabled(worlds[n], id);
      var p := SweepIsAt(worlds, steps, a, n, id, copies);
      TurnsStay(worlds, steps, a, n, n + 1, id, copies, p);
      var q := LooksFrom(worlds, steps, a, n, id, copies, p);
    }
  }

  lemma FirstTurn(worlds: seq<World>, steps: seq<Step>, a: nat, id: nat, copies: seq<RentalRequest>, c: nat)
    requires a < |steps| && |worlds| == |steps| + 1 && c < |copies|
    requires Overdue(copies[c], worlds[a].now) ==> Guard(copies[c].user, RequestTag) in worlds[a].st.locks
    requires id !in worlds[a + 1].tasks
    ensures HadItsTurn(worlds, steps, a, a + 1, id, copies, c)
  {
    assert TurnAt(worlds, steps, a, a, id, copies, c);
  }

  /** In every run: the locking time that an iteration writes is the time its sweep was started. */
  lemma {:induction false} SweepTimeIsItsStart(worlds: seq<World>, steps: seq<Step>, n: nat, id: nat) returns (a: nat)
    requires Run(worlds, steps) && n <= |steps| && id in worlds[n].tasks && worlds[n].tasks[id].job.LockJob?
    ensures a < n && steps[a].StartSweep? && steps[a].id == id && worlds[n].tasks[id].job.sweepNow == worlds[a].now
    decreases n
  {
    hide Init, Enabled, Apply, ApplyResume, LockingDue;
    a := CallWasMade(worlds, steps, n, id);
    if id in worlds[a].tasks {
      KindStays(worlds[a], id);
      SweepKeepsItsTime(worlds[a], id);
      a := SweepTimeIsItsStart(worlds, steps, a, id);
    }
  }

  lemma SweepKeepsItsTime(w: World, id: nat)
    requires id in w.tasks && w.tasks[id].job.LockJob? && id in ApplyResume(w, id).tasks
    ensures ApplyResume(w, id).tasks[id].job.LockJob? && ApplyResume(w, id).tasks[id].job.sweepNow == w.tasks[id].job.sweepNow
  {
    hide ApplyResume, SameRecords, Effect, LockingDue;
    ResumeEffect(w, id);
  }
}
