/** Which tasks exclude each other, and that a task can start exactly if none of those is running, in any run. */
module Exclusion {
  import opened Types
  import opened State
  import opened World
  import opened Invariant
  import opened Runs
  import opened Theorems
  import opened Lives
  import opened Origins

  /** The user whose request the task may open, turn, cancel or lock. */
  function RequestUser(job: Job): Option<Principal> {
    match job
    case RentalJob(user, _, _, _) => Some(user)
    case CreateJob(user, _, _, _, _) => Some(user)
    case RefundJob(user) => Some(user)
    case LockJob(copy, _, _) => Some(copy.user)
    case _ => None
  }

  /** The subnet whose agreement or admins the task is changing. */
  function AgreementSubnet(job: Job): Option<Principal> {
    match job
    case TopUpJob(subnet, _, _) => Some(subnet)
    case AdminsJob(subnet) => Some(subnet)
    case _ => None
  }

  /** Two jobs that must not run at the same time. */
  predicate Conflict(job: Job, job': Job) {
    || (RequestUser(job).Some? && RequestUser(job) == RequestUser(job'))
    || (AgreementSubnet(job).Some? && AgreementSubnet(job) == AgreementSubnet(job'))
    || (job.CreateJob? && job'.CreateJob? && job.subnet == job'.subnet)
    || (job.RefundJob? && job'.RefundJob?)
    || (job.PriceJob? && job'.PriceJob?)
  }

  lemma ConflictIsACommonGuard(job: Job, job': Job)
    requires !job.Closing? && !job'.Closing?
    ensures Conflict(job, job') <==> exists g :: g in Guards(job) && g in Guards(job')
  {
    if Conflict(job, job') {
      if RequestUser(job).Some? && RequestUser(job) == RequestUser(job') {
        assert Guard(RequestUser(job).value, RequestTag) in Guards(job) && Guard(RequestUser(job).value, RequestTag) in Guards(job');
      } else if AgreementSubnet(job).Some? && AgreementSubnet(job) == AgreementSubnet(job') {
        var g := Guard(AgreementSubnet(job).value, AgreementTag);
        assert g in Guards(job) && g in Guards(job');
      } else if job.CreateJob? {
        assert Guard(job.subnet, NnsTag) in Guards(job) && Guard(job.subnet, NnsTag) in Guards(job');
      } else if job.RefundJob? {
        assert Guard(Anonymous, RefundTag) in Guards(job) && Guard(Anonymous, RefundTag) in Guards(job');
      } else {
        assert Guard(Anonymous, XrcTag) in Guards(job) && Guard(Anonymous, XrcTag) in Guards(job');
      }
    }
  }

  /** Between steps no task is past its last await. */
  lemma {:induction false} NoneIsClosing(worlds: seq<World>, steps: seq<Step>, n: nat, id: nat)
    requires Run(worlds, steps) && n <= |steps| && id in worlds[n].tasks
    ensures !worlds[n].tasks[id].job.Closing?
    decreases n
  {
    hide Init, Enabled, Apply, ApplyResume, Priced, LockingDue;
    var b := CallWasMade(worlds, steps, n, id);
    if id in worlds[b].tasks {
      KindStays(worlds[b], id);
      NoneIsClosing(worlds, steps, b, id);
    }
  }

  /** In every run no two tasks conflict. */
  lemma TasksExcludeEachOther(worlds: seq<World>, steps: seq<Step>, n: nat, i: nat, j: nat)
    requires Run(worlds, steps) && n <= |steps| && i in worlds[n].tasks && j in worlds[n].tasks && i != j
    ensures !Conflict(worlds[n].tasks[i].job, worlds[n].tasks[j].job)
  {
    hide Init, Enabled, Apply, LocksAreHeld, Guards, Conflict;
    LocksInEveryRun(worlds, steps, n);
    NoneIsClosing(worlds, steps, n, i);
    NoneIsClosing(worlds, steps, n, j);
    ConflictIsACommonGuard(worlds[n].tasks[i].job, worlds[n].tasks[j].job);
    DisjointGuards(worlds[n].st.locks, worlds[n].tasks, i, j);
  }

  lemma DisjointGuards(locks: set<Guard>, tasks: map<nat, Task>, i: nat, j: nat)
    requires LocksAreHeld(locks, tasks) && i in tasks && j in tasks && i != j
    ensures forall g | g in Guards(tasks[i].job) :: g !in Guards(tasks[j].job)
  {
    hide Guards;
  }

  /** The job conflicts with none that is running. */
  ghost predicate Unopposed(w: World, job: Job) {
    forall i | i in w.tasks :: !Conflict(job, w.tasks[i].job)
  }

  /** In every run the guards of a job are free exactly if it is unopposed. */
  lemma FreeExactlyIfUnopposed(worlds: seq<World>, steps: seq<Step>, n: nat, job: Job)
    requires Run(worlds, steps) && n <= |steps| && !job.Closing?
    ensures Guards(job) !! worlds[n].st.locks <==> Unopposed(worlds[n], job)
  {
    hide Init, Enabled, Apply, LocksAreHeld, Guards, Conflict;
    var w := worlds[n];
    LocksInEveryRun(worlds, steps, n);
    forall i | i in w.tasks
      ensures Conflict(job, w.tasks[i].job) <==> exists g :: g in Guards(job) && g in Guards(w.tasks[i].job)
    {
      NoneIsClosing(worlds, steps, n, i);
      ConflictIsACommonGuard(job, w.tasks[i].job);
    }
    LocksOfTasks(w.st.locks, w.tasks);
  }

  lemma LocksOfTasks(locks: set<Guard>, tasks: map<nat, Task>)
    requires LocksAreHeld(locks, tasks)
    ensures forall g :: g in locks <==> exists i :: i in tasks && g in Guards(tasks[i].job)
  {
    hide Guards;
  }

  /** In every run a message gets past its guards and its first checks exactly if its job is unopposed and what it is
      about exists: a request to create an agreement from, an agreement to top up. */
  lemma StartsExactlyIf(worlds: seq<World>, steps: seq<Step>, n: nat, id: nat)
    requires Run(worlds, steps) && n <= |steps| && id !in worlds[n].tasks
    ensures var w := worlds[n];
            && (forall u :: Enabled(w, StartRefund(id, u)) <==> Unopposed(w, RefundJob(u)))
            && (forall u, s, p ::
                  Enabled(w, StartCreate(id, u, s, p))
                  <==> u in w.st.requests && s !in w.st.agreements && Unopposed(w, CreateJob(u, s, p, w.st.requests[u], None)))
            && (forall s :: Enabled(w, StartTopUp(id, s)) <==> s in w.st.agreements && Unopposed(w, TopUpJob(s, w.st.agreements[s], 0)))
            && (forall s :: Enabled(w, StartAdmins(id, s)) <==> s in w.st.agreements && Unopposed(w, AdminsJob(s)))
            && (forall time ::
                  Enabled(w, StartPrice(id, time))
                  <==> time !in w.st.rates && w.cycles >= 1_000_000_000 && Unopposed(w, PriceJob))
  {
    hide Init, Apply, Unopposed;
    var w := worlds[n];
    forall u ensures Enabled(w, StartRefund(id, u)) <==> Unopposed(w, RefundJob(u)) {
      FreeExactlyIfUnopposed(worlds, steps, n, RefundJob(u));
    }
    forall u, s, p
      ensures Enabled(w, StartCreate(id, u, s, p))
         <==> u in w.st.requests && s !in w.st.agreements && Unopposed(w, CreateJob(u, s, p, w.st.requests[u], None))
    {
      InitialConditions(worlds, steps, n);
      if u in w.st.requests {
        ConditionIsInitial(w.st.requests[u].rentalConditionId);
        FreeExactlyIfUnopposed(worlds, steps, n, CreateJob(u, s, p, w.st.requests[u], None));
      }
    }
    forall s ensures Enabled(w, StartTopUp(id, s)) <==> s in w.st.agreements && Unopposed(w, TopUpJob(s, w.st.agreements[s], 0)) {
      if s in w.st.agreements { FreeExactlyIfUnopposed(worlds, steps, n, TopUpJob(s, w.st.agreements[s], 0)); }
    }
    forall s ensures Enabled(w, StartAdmins(id, s)) <==> s in w.st.agreements && Unopposed(w, AdminsJob(s)) {
      FreeExactlyIfUnopposed(worlds, steps, n, AdminsJob(s));
    }
    forall time ensures Enabled(w, StartPrice(id, time)) <==> time !in w.st.rates && w.cycles >= 1_000_000_000 && Unopposed(w, PriceJob) {
      FreeExactlyIfUnopposed(worlds, steps, n, PriceJob);
    }
  }
}
