# Verification of the subnet rental canister

The subnet rental canister (SRC) lets users rent whole subnets. A user's rental request locks a tenth of the initial
cost in ICP as cycles when its proposal is executed and another tenth every month; a second proposal turns the request
into a rental agreement and converts the rest; cycles of agreements are burned every minute towards the deadline they
are paid for; top-ups move the deadline; a user may refund what is on its subaccount, which cancels a request. An
upgrade moves one agreement to cheaper conditions.

On the Internet Computer the code between two awaits is atomic and other messages run at every await. So the model is
a transition system of interleaved tasks, and the properties are statements about every run of it.

| files | contents |
|---|---|
| `Types`, `Division`, `Pricing`, `Deadlines`, `Burning`, `History` | records and machine integers; the arithmetic of prices, deadlines and burns; the event log, its pages and its replay |
| `State` | the replicated state as a value, and what each atomic segment does to it |
| `CanisterState`, `Canister` | the same state and segments as the source has them: maps, counters and balance updated in place, loops over copies, guards taken and dropped. Every segment is proved to do what the function in `State` that the transition system uses does |
| `World` | tasks with their program points, captured locals and guards; outgoing calls served nondeterministically; the steps |
| `Invariant`, `Sums`, `Blocks`, `Writes`, `AgreementWrites`, `Steps` | the inductive invariant under F and its preservation, step by step |
| `Effects`, `Runs`, `AnyRun` | what each step does whether or not F is met, runs, and the part of the invariant that needs no hypothesis |
| `Lives`, `Origins`, `Accounts`, `Sweeps`, `Outcomes`, `Exclusion` | the lives of tasks in a run: what each reply, amount, time and price comes from, what each segment logs, whom sweeps pass, what may run together |
| `Theorems`, `Flights`, `Pacing`, `Audits`, `Growth`, `Money`, `Conditions` | what follows for every run; where F, G or covered fees are needed, they are stated |
| `Hypotheses` | reachable worlds in which F and G fail, and what comes of it |

`dafny verify dfyconfig.toml` checks the whole project.

## Steps and assumptions

A task is suspended on a call to the ledger, the CMC, the exchange rate canister (XRC) or the registry. `Serve` lets
that canister execute the call: it may fail, reject, or succeed with the effect on balances it has; `Resume` runs the
task's next segment. Callers, timers, deposits, the clock and upgrades are further steps, at arbitrary times and in any
order. A sweep lists all stored requests, or agreements, each once.

- **F (fresh copies).** `locking` copies all requests once and takes each guard later without re-reading. After an
  await in the same sweep the copy can be stale. F says that a copy the sweep goes on to work on still is the stored
  request. It is required only of iterations that follow another one of their sweep; the first needs nothing.
  Locks, lifecycle, `unwrap`s other than a locking's, top-ups, agreements, switches, pacing and the log do not need it;
  the money and the request records do. Without it, `UnwrapFailsExactlyIfGone` and `LockingIsRightExactlyIfFresh` say
  when an iteration fails or writes the wrong record, and `LockingAGoneRequestLosesIt` is a run in which it fails.
- **G (one proposal).** At most one rental request proposal is executed at a time, as governance promises. Only the
  module `Conditions` uses it. The source's comment says that its guard rules out concurrent calls as well; the guard
  is per user, so that it rules out only calls for the same user: `ProposalsCanCollide` is a run that ends with two live
  requests for one condition.
- **U (quiet upgrades).** An upgrade happens with no task in flight. The target subnet of the migration is a parameter.
- **Reserve.** "The fees are covered" says that the canister's own cycles (initial ones, deposits, fees the XRC pays
  back) are at least the fees it has attached to XRC calls. It is a hypothesis of the results about full burns only
  (`ReserveCoversEverything`, `SweepsBurnInFull`, `SweepAfterDeadlineSettles`, `PacingEveryMinuteInEveryRun`).
- **Traps.** A trap discards its segment and ends the task: its guards are dropped, and what it had in flight is booked
  as lost. A message that traps or returns unchanged before its first await changes nothing and is no step.
- **Machine integers.** Built without overflow checks: saturating, checked, wrapping and capped operations are written
  out one by one. The clock stays within u64 and all cycles ever minted within u128.
- **Token amounts.** `Tokens` subtraction saturates, so that a conversion of less than one ledger fee is charged the fee
  all the same; the surplus is booked as lost. `ic_ledger_types` is not part of this model. "The amount covers the fee"
  is a hypothesis of `ConversionsAreFunded`: a fully locked request has less than 10 e8s left to convert.
- **Bookkeeping.** `Book` is not in the source. It records what happened to cycles and ICP (minted, paid to the XRC, in
  flight, lost, cancelled) so that conservation can be stated.

Where the source and its own words differ, the model follows the code: besides G above, pacing holds in whole seconds
and not in nanoseconds (`NanosecondLineCanBeUndercut`, with the exact condition), and a burn sweep traps for all
agreements if one of them is in the last second before its deadline (`SweepTrapsExactlyInALastSecond`).

## Model

| member | source | states |
|---|---|---|
| `Runs.SafeRun` | src/subnet_rental_canister/src/canister.rs:171-256 | Every world of every run that meets F satisfies the whole invariant: locks, program points, lifecycle, checks made before an await, cycle conservation, ICP backing, audit trail |
| `AnyRun.SolidRun` | src/subnet_rental_canister/src/canister.rs:97-961 | Every world of every run, with no hypothesis, satisfies the part of it that concerns locks, lifecycle, the checks of all tasks but sweeps, what tasks carry over awaits, agreements and trails |
| `AnyRun.StepKeepsSolid` | src/subnet_rental_canister/src/canister.rs:97-961 | Every step keeps that part (the induction step of `SolidRun`) |
| `Effects.ResumeEffect` | src/subnet_rental_canister/src/canister.rs:97-961 | All that a resumed task can do: move on to another await with its guards and no change of records, or end (a sweep: go on to a later copy) with at most the one write its job makes, told field by field and trail by trail |
| `Effects.StepEffect` | src/subnet_rental_canister/src/canister.rs:97-961 | No other steps than resumed tasks, burn sweeps and upgrades change records or trails |
| `Runs.StepKeepsExactlyIfFresh` | src/subnet_rental_canister/src/canister.rs:173-205 | A step from an invariant world keeps the invariant if and only if the request copy a sweep goes on to lock is the stored request: the invariant says that copies in work are current, and this step is the only one that can break it; `Flights` tells what a stale copy then does |
| `Steps.StepKeeps` | src/subnet_rental_canister/src/canister.rs:97-961 | Every step of every task, served call, timer and upgrade keeps the invariant (the induction step of `SafeRun`) |
| `Theorems.LocksInEveryRun` | src/subnet_rental_canister/src/canister_state.rs:63-92 | In every run, without F or G: the lock set is the disjoint union of the guards of the live tasks (so every exit, error or trap releases exactly its own), and is empty when nothing is live |
| `Theorems.LifecycleInEveryRun` | src/subnet_rental_canister/src/canister.rs:468-513 | In every run, without F or G: map keys match the records, no user has both a request and an agreement, no user has two agreements |
| `Theorems.ChecksHoldInEveryRun` | src/subnet_rental_canister/src/canister.rs:468-482 | In every run: what a task checked or read before its awaits (no request, no agreement, the request or agreement it copied, a free subnet) is still true at every later moment until it ends; under F the same of a sweep's copy |
| `Theorems.AgreementReplacesRequest` | src/subnet_rental_canister/src/canister.rs:643-666 | An agreement appears only at the end of a creation task, in the same atomic step that removes its user's request |
| `Theorems.AgreementContinuesRequest` | src/subnet_rental_canister/src/canister.rs:629-659 | In every run: a new agreement has its request's conditions and proposal, the whole initial cost as ICP paid, the cycles locked and converted for it (capped at u128; exactly under F), nothing burned, and is paid for 180 * 86,400 * 10^9 ns after its creation time, if that fits a u64; the books note these totals as its birth |
| `Origins.AgreementIsPaidFromItsDraft` | src/subnet_rental_canister/src/canister.rs:629-659 | In every run: its creation time, and so its deadline, counts from the step that resumed the task with the minted cycles, and it bears the creating proposal's number |
| `Origins.DraftIsMadeAfterMinting` | src/subnet_rental_canister/src/canister.rs:633-659 | In every run: a creation that waits for the CMC's authorization drafted its agreement in that step, for the cycles the CMC replied, and has not changed the draft since |
| `Origins.CreationWasStarted` | src/subnet_rental_canister/src/canister.rs:610-625 | In every run: a creation works for the user, subnet and proposal of the message that started it and the request stored then |
| `Theorems.BirthsAreKept` | src/subnet_rental_canister/src/canister.rs:651-666 | In every run: an agreement is never removed or handed to another user, and its noted birth is never rewritten |
| `Theorems.EveryAgreementIsCreated` | src/subnet_rental_canister/src/canister.rs:663-666 | In every run: every agreement has exactly one step that created it |
| `Theorems.RequestComesFromProposal` | src/subnet_rental_canister/src/canister.rs:556-591 | A request appears only at the end of a proposal task, for its user, with a tenth of the cost and the minted cycles locked, and no agreement changes |
| `Origins.RequestCostsTheRate` | src/subnet_rental_canister/src/canister.rs:515-586 | In every run: a new request costs exactly cycles per period * 10^decimals / (10^4 * rate) e8s, rounded down (if a u64 holds it), for its own conditions and the rate and decimals that the exchange rate canister replied for the time its proposal was started with, cached or fetched; a tenth of it is locked |
| `Origins.ProposalChargesTheRate` | src/subnet_rental_canister/src/canister.rs:515-533 | In every run: the same of a proposal from its price on |
| `Origins.CachedRateWasServed` | src/subnet_rental_canister/src/external_calls.rs:94-139 | In every run: a cached rate is one that the exchange rate canister replied for that time |
| `Origins.FetchedRateIsCached` | src/subnet_rental_canister/src/external_calls.rs:125-137 | In every run: a task that resumes with a rate caches it, and no other step changes a cached rate |
| `Origins.RateIsAskedFirst` | src/subnet_rental_canister/src/external_calls.rs:94-121 | In every run: the exchange rate canister is only asked as a task starts, for a rate not in the cache |
| `Outcomes.FeesArePaidForFetches` | src/subnet_rental_canister/src/external_calls.rs:114-121 | The fee of 10^9 cycles is paid exactly when a task starts that asks for a rate |
| `Outcomes.ProposalIsRefusedExactlyIf` | src/subnet_rental_canister/src/canister.rs:470-513 | In every run: a proposal is refused at once, with one event and no other effect, exactly if the log shows its user as a customer or a live request has its conditions; else it goes on, or fails on a price that cannot be calculated |
| `Outcomes.RentalLogs` | src/subnet_rental_canister/src/canister.rs:450-464 | A proposal that ends logs the transfer and the request it opened, or its failure, and nothing else; one that traps logs nothing |
| `Outcomes.CreateLogs` | src/subnet_rental_canister/src/canister.rs:645-666 | A creation logs its conversion under its user and later the agreement under its subnet, and nothing else |
| `Outcomes.RefundLogs` | src/subnet_rental_canister/src/canister.rs:703-724 | A paid refund logs what it paid and the request it cancelled, if any; any other end logs nothing |
| `Outcomes.TopUpLogs` | src/subnet_rental_canister/src/canister.rs:806-896 | A top-up that ends logs its transfer and what it bought, with the whole days paid for at the price per second and the deadline it wrote, or its failure; a trap logs nothing |
| `Outcomes.LockingLogs` | src/subnet_rental_canister/src/canister.rs:208-240 | An iteration logs its transfer and the tenth it locked, or its failure; one that traps logs nothing |
| `Lives.RentalStages` | src/subnet_rental_canister/src/canister.rs:526-565 | A proposal goes on exactly if its price can be calculated, its balance covers the price, and its transfer of a tenth succeeds |
| `Lives.ReplyWasGiven` | src/subnet_rental_canister/src/external_calls.rs:166-175 | In every run: a task's reply was given by a step that served its call, in the world of that step, and it waited unchanged before and after |
| `Theorems.NoUnwrapFails` | src/subnet_rental_canister/src/canister.rs:577-591 | In every run, without F or G, none of these `unwrap`s after an await fails: inserting a request, removing it, inserting an agreement, updating an agreement after a top-up; under F also updating a request after a locking |
| `Theorems.TopUpIsAtomic` | src/subnet_rental_canister/src/canister.rs:787-896 | In every run, without F or G: a top-up, although computed from a copy read two awaits earlier, writes what an atomic top-up of the agreement as it stands at the write would: saturating totals, deadline min(u64 max, deadline + 10^9 * (cycles / cost per second)); under F the cycles do not saturate |
| `Origins.TopUpBooksTheBalance` | src/subnet_rental_canister/src/canister.rs:796-813 | In every run: a top-up converts, and books as paid, exactly what its user's subaccount held when it read the balance, less the fee for the transfer |
| `Lives.TopUpStages` | src/subnet_rental_canister/src/canister.rs:798-839 | A top-up goes on exactly if the balance covers one fee, and notifies the CMC exactly if the transfer succeeds |
| `Origins.BlockWasReturned` | src/subnet_rental_canister/src/external_calls.rs:143-163 | In every run: the block a task notifies the CMC of is the one the ledger returned for that task's transfer |
| `Accounts.RefundLeavesNothing` | src/subnet_rental_canister/src/canister.rs:689-702 | In every run: when a refund is paid, its user's subaccount holds what was deposited since the refund read the balance less what was converted since, so nothing if neither happened |
| `Origins.RefundAsksForTheBalance` | src/subnet_rental_canister/src/canister.rs:689-697 | In every run: the amount a refund asks for and one fee are what its user's subaccount held when it read the balance |
| `Lives.RefundStages` | src/subnet_rental_canister/src/canister.rs:689-697 | A refund goes on exactly if the balance covers one fee |
| `Accounts.SubaccountAddsUp` | src/subnet_rental_canister/src/external_calls.rs:56-89 | Over any stretch of any run a subaccount changes by deposits, conversions and refunds, fees included, and nothing else |
| `Accounts.OneRefund` | src/subnet_rental_canister/src/canister.rs:680-683 | In every run there is at most one refund at a time |
| `Exclusion.TasksExcludeEachOther` | src/subnet_rental_canister/src/canister_state.rs:63-92 | In every run no two tasks work on the same user's request, on the same subnet's agreement or admins, or create an agreement for the same subnet, and there is one refund and one price query at most |
| `Exclusion.StartsExactlyIf` | src/subnet_rental_canister/src/canister.rs:610-794 | In every run a refund, creation, top-up, change of admins or price query gets past its guards and first checks exactly if no such task is running and what it is about exists |
| `Money.CyclesAreConserved` | src/subnet_rental_canister/src/canister.rs:116-167 | Balance + fees paid for rates = reserve + locked by requests + created and unburned by agreements + in flight + lost + not burned by refunds; minted cycles split the same way; burned <= created |
| `Money.ReserveCoversEverything` | src/subnet_rental_canister/src/canister.rs:711-718 | While the reserve covers the rate fees, no refund burns less than the locked cycles it asks for (its ignored result is safe) and the balance covers all records |
| `Money.SweepsBurnInFull` | src/subnet_rental_canister/src/canister.rs:132-161 | While the reserve covers the rate fees, no burn of any sweep is cut short by the balance: with any more cycles the sweep does the same |
| `Money.BalanceNeverLimitsSweep` | src/subnet_rental_canister/src/canister.rs:97-169 | The same of any sweep over sound agreements whose unburned cycles the balance covers |
| `Money.SweepBurnsEach` | src/subnet_rental_canister/src/canister.rs:97-169 | A covered sweep in any order burns of each unlocked agreement what it would if it were the only one, and leaves locked ones alone |
| `Money.SweepAfterDeadlineSettles` | src/subnet_rental_canister/src/canister.rs:126-147 | In every run: the first sweep at or after a deadline that finds the agreement unlocked leaves created == burned and changes nothing else of it |
| `Money.SweepTrapsExactlyInALastSecond` | src/subnet_rental_canister/src/canister.rs:149-153 | A whole sweep traps (and is rolled back for everybody) if and only if some unlocked agreement with cycles left is in the last second before its deadline |
| `Money.RequestsAreBacked` | src/subnet_rental_canister/src/canister.rs:541-590 | Unless a refund of the user has just been paid: what a request still has to convert is on its user's subaccount, in flight in a conversion, or lost by one |
| `Money.ConversionsAreFunded` | src/subnet_rental_canister/src/canister.rs:633-644 | Locking and agreement creation never lack the ICP for their transfer, unless a conversion of the request was lost before or the amount does not cover the ledger fee |
| `Money.CreationSpendsTheInitialCost` | src/subnet_rental_canister/src/canister.rs:632-666 | At an agreement's creation all debits since its proposal sum to the initial cost, which becomes its ICP total, plus what was lost on the way; nothing of its user is in flight |
| `Money.AgreementIcpAccounts` | src/subnet_rental_canister/src/canister.rs:878-896 | From its creation on: `total_icp_paid` is the request's initial cost and all top-ups (capped at u64), and the debits make up that total less one fee per top-up, plus losses and what is in flight |
| `Pacing.PacingInEveryRun` | src/subnet_rental_canister/src/canister.rs:149-161 | In every run, without F and however short the balance, over any stretch with sweeps at least 60 s apart and no payment or repricing: R_j * T_i >= R_i * T_j, the remaining cycles never fall below the straight line to the deadline, in whole seconds |
| `Pacing.PacingEveryMinuteInEveryRun` | src/subnet_rental_canister/src/canister.rs:149-161 | With exact 60 s sweeps, F, and the rate fees covered they also stay at most R_i mod T_i cycles above the line of R_i / T_i cycles per second, through the last minute and after: the last sweep before the deadline leaves no more than R_i mod T_i |
| `Pacing.RunStaysAboveLine` | src/subnet_rental_canister/src/canister.rs:97-169 | The general form, in every run: any line through the deadline that the cycles start on or above is never undercut, whatever is interleaved and however little the balance lets a sweep burn |
| `Pacing.FundedStaysFunded` | src/subnet_rental_canister/src/canister.rs:848-885 | In every run: once an agreement's cycles cover the time it is paid for at its own price, they do so through sweeps 60 s apart, top-ups and switches of its conditions (under F, or while its total of cycles is below the largest u128) |
| `Pacing.MigrationIsFairToTheFunded` | src/subnet_rental_canister/src/migration.rs:67-82 | An upgrade takes less than a second (and the unfinished minute of the last sweep) off the deadline of every agreement that was ever funded at its own price, through top-ups as well |
| `Pacing.AgreementStep` | src/subnet_rental_canister/src/canister.rs:97-961 | No step but a sweep, a top-up's write and a switch changes an agreement, and the last two change it as said |
| `Pacing.MigrationIsFairInEveryRun` | src/subnet_rental_canister/src/migration.rs:67-82 | In every run: if at some time the cycles covered the time left at App7CH's price, an upgrade later takes less than a second (and the unfinished minute of the last sweep) off the deadline |
| `Pacing.OnlySweepsBurn` | src/subnet_rental_canister/src/canister.rs:97-169 | No step but a sweep changes how many cycles an agreement has burned |
| `Burning.NanosecondLineCanBeUndercut` | src/subnet_rental_canister/src/canister.rs:152-154 | A concrete agreement and tick for which the same line measured in nanoseconds is undercut |
| `Burning.NanosecondLineHoldsExactlyIf` | src/subnet_rental_canister/src/canister.rs:152-154 | A tick keeps the line in nanoseconds if and only if (R / whole seconds) * time <= R * 10^9, which holds whenever no part of a second is left over |
| `Burning.BurnTrapsExactlyInTheLastSecond` | src/subnet_rental_canister/src/canister.rs:149-153 | The burn of one agreement divides by zero exactly in the last second before the deadline with cycles left |
| `Burning.BurnConserves` | src/subnet_rental_canister/src/canister.rs:116-167 | A burn books exactly the cycles that left the balance, changes nothing else, and keeps burned <= created |
| `Burning.ShareStaysAboveLine` | src/subnet_rental_canister/src/canister.rs:149-161 | One minute's share keeps the remaining cycles on or above any line through the deadline they were on or above |
| `Burning.ShareStaysBelowLine` | src/subnet_rental_canister/src/canister.rs:149-161 | One minute's share takes at least the line's 60 s worth, or in the last minute all but the distance above the line |
| `Burning.ShareIsExact` | src/subnet_rental_canister/src/canister.rs:152-158 | The share is sixty times the whole cycles per second, or all that is left; with at most 60 s to go it leaves no more than the remainder of that division |
| `Audits.RequestsReplay` | src/subnet_rental_canister/src/canister.rs:224-254 | Replaying a user's events from the last request created gives the ICP and cycles the live request has locked |
| `Audits.LogKnowsCustomers` | src/subnet_rental_canister/src/canister.rs:711-724 | In every run, without F or G: the log shows an uncancelled request exactly for the users that have a request or an agreement |
| `Audits.AgreementsReplay` | src/subnet_rental_canister/src/canister.rs:879-896 | In every run: replaying a subnet's events gives an agreement's created cycles (those of its creation plus top-ups, capped at u128; exactly under F), ICP paid, and the deadline (latest top-up or switch, else creation plus 180 days) |
| `Audits.LockingSchedule` | src/subnet_rental_canister/src/canister.rs:185-200 | After k lockings exactly k * (cost / 10) is locked, 1 <= k <= 10, never more than the cost, less than 10 e8s short at k = 10, in at least k - 1 months; k stays 1 for costs under 10 e8s |
| `Sweeps.SweepPassesOverNone` | src/subnet_rental_canister/src/canister.rs:171-205 | In every run: a sweep that comes to its end without a trap has started a conversion for every request stored at its start that was due, unless its guard was held when its turn came |
| `Sweeps.PassedOverNone` | src/subnet_rental_canister/src/canister.rs:171-205 | All copies before the one a sweep stops at are not due or locked |
| `Sweeps.DueExactlyIfOverdue` | src/subnet_rental_canister/src/canister.rs:185-200 | The test of whole days and wrapping integers holds exactly if 30 * 86,400 * 10^9 ns have passed since the last locking and less than ten tenths of a cost of at least 10 e8s are locked |
| `Sweeps.TenthsToGo` | src/subnet_rental_canister/src/canister.rs:190-200 | With k tenths locked that is k < 10 |
| `Sweeps.SweepTimeIsItsStart` | src/subnet_rental_canister/src/canister.rs:172-252 | In every run: the locking time an iteration writes is the time its sweep was started |
| `Audits.RequestsChangeOnlyByLocking` | src/subnet_rental_canister/src/canister.rs:241-254 | A live request changes only by a locking: one tenth and the cycles minted, exactly, at least 30 days after the one before, with the sweep's time as its new locking time |
| `Audits.SwitchedAtMostOnce` | src/subnet_rental_canister/src/migration.rs:57-98 | In every run, without F or G and with any number of upgrades: each subnet's log has at most one switch of conditions, and one only if its agreement is on App7CH |
| `Effects.UpgradeChangesOnlyTheTarget` | src/subnet_rental_canister/src/migration.rs:46-98 | An upgrade changes no request, no other agreement, no total, no other log; a second one changes no agreement |
| `Outcomes.UpgradeIsExact` | src/subnet_rental_canister/src/migration.rs:46-119 | An upgrade logs the two sets of conditions, and switches the target exactly if it is on App13CH: deadline min(u64 max, now + 10^9 * (unburned / 5,092,592,592)), with the event that tells both deadlines |
| `Conditions.ConditionsApartInEveryRun` | src/subnet_rental_canister/src/canister.rs:504-513 | Under F and G no two live requests or running proposals are for the same condition |
| `Conditions.NoMoreRequestsThanConditions` | src/subnet_rental_canister/src/canister.rs:504-513 | There are never more live requests than rental conditions |
| `Conditions.StepStaysApartExactlyIfNoTwin` | src/subnet_rental_canister/src/canister.rs:467-513 | A step keeps them apart if and only if it does not let a proposal go on while another one for the same condition is running |
| `Flights.StepSparesFlight` | src/subnet_rental_canister/src/canister.rs:202-254 | While a sweep's conversion is in flight, no step of any run changes, removes or adds its user's request: all writers hold the same guard |
| `Flights.UnwrapFailsExactlyIfGone` | src/subnet_rental_canister/src/canister.rs:202-254 | In every run: the `unwrap` that ends an iteration fails if and only if the request was absent when its guard was taken |
| `Flights.LockingIsRightExactlyIfFresh` | src/subnet_rental_canister/src/canister.rs:173-254 | In every run: the record an iteration writes is the stored request locked once more if and only if the sweep's copy was the stored request when the guard was taken, up to its last locking time |
| `Flights.StaleWriteIsRightExactlyIfSame` | src/subnet_rental_canister/src/canister.rs:241-254 | Neither saturation nor wrap-around hides a difference between copy and request in what is written |
| `Hypotheses.SweepCanMeetAGoneRequest` | src/subnet_rental_canister/src/canister.rs:173-205 | F is not implied by the code: a run (opened requests, a sweep, a refund in between) that met F and G so far reaches a step that breaks F and the invariant |
| `Hypotheses.LockingAGoneRequestLosesIt` | src/subnet_rental_canister/src/canister.rs:208-254 | That run goes on to the trap: the user pays in again, the ICP is debited, the update's `unwrap` fails, and no record and no event mentions it |
| `Hypotheses.ProposalsCanCollide` | src/subnet_rental_canister/src/canister.rs:430-591 | G is not implied by the code: the guard is per user; a run that meets F has two users' proposals for one condition side by side and ends with two live requests for it |
| `Pricing.PriceEstimateRoundTrip` | src/subnet_rental_canister/src/canister.rs:759-769 | For any rate, 4 to 19 decimals and any conditions: estimating the days a freshly quoted price buys gives back the quoted period exactly, if two fees and one e8s, plus a cycle, are worth at most half a day and the price fits |
| `Pricing.RoundTripOfTheConditionsOnOffer` | src/subnet_rental_canister/tests/integration_tests.rs:1288-1319 | For either condition on offer and nine decimals: exactly 180 days for every rate up to a million XDR per ICP at which its price fits a u64 |
| `Pricing.PriceIsOneDivision` | src/subnet_rental_canister/src/canister.rs:392-427 | The two truncating divisions of the price equal one division of cycles * 10^(decimals - 4) by the rate |
| `Pricing.PriceIsExact` | src/subnet_rental_canister/src/canister.rs:392-427 | Up to 38 decimals a price is refused exactly for a rate of zero or when the scaled cycles exceed a u128, and is the exact quotient, rounded down, otherwise |
| `Pricing.QuotedInE8s` | src/subnet_rental_canister/src/canister.rs:392-427 | For 4 decimals and more that is rate * cost <= cycles * 10^(decimals - 4) < rate * (cost + 1) |
| `Pricing.EstimateIsExact` | src/subnet_rental_canister/src/canister.rs:753-763 | An estimate is refused exactly below one fee, and otherwise is for the cycles that the amount less two fees buys, rounded down |
| `Pricing.EstimatedDaysAreNearest` | src/subnet_rental_canister/src/canister.rs:768-769 | The estimated days are the nearest number of days: twice the distance to the cycles is at most a day |
| `Deadlines.DeadlinesAreExact` | src/subnet_rental_canister/src/migration.rs:110-119 | Top-up (saturate in u128, then cap) and repricing (saturate, convert, saturating add) both equal min(u64 max, base + 10^9 * (cycles / cost per second)) |
| `Deadlines.SplitTopUpsLoseUnderASecondEach` | src/subnet_rental_canister/src/canister.rs:848-869 | n top-ups extend the deadline by less than n seconds less than one of their sum, and never by more |
| `Deadlines.EstimatedAndActualDaysAgree` | src/subnet_rental_canister/src/canister.rs:768-769 | Rounded estimated days and truncated added days differ by at most one for the same cycles |
| `Deadlines.TopUpAddsItsDays` | src/subnet_rental_canister/src/canister.rs:994-1000 | A top-up before the deadline raises the whole days remaining by the days it reports, or by one more |
| `Deadlines.FreeConditionsLast` | src/subnet_rental_canister/src/migration.rs:110-114 | A switch to conditions that cost less than a cycle per second sets the largest u64 as deadline |
| `Deadlines.DaysAddedAreWhole` | src/subnet_rental_canister/src/canister.rs:848-876 | The days a top-up reports are the whole days its cycles pay for at the price per second |
| `History.HistoryWalkIsComplete` | src/subnet_rental_canister/src/canister_state.rs:201-218 | Following the continuation from None until 0 yields exactly the events present at the first call, once and in order, whatever is appended meanwhile |
| `History.PageIsExact` | src/subnet_rental_canister/src/canister_state.rs:201-218 | A page holds the events numbered from its continuation up to where it ends: exactly page size many while that many older ones exist, never more |
| `Growth.LogIsAppendOnly` | src/subnet_rental_canister/src/canister_state.rs:166-195 | In every run, without F or G: each key's events at any time are a prefix of its events at any later time |
| `Growth.EventsAreInOrder` | src/subnet_rental_canister/src/canister_state.rs:188-195 | In every run: each key's events are in the order of their times, none later than now |
| `Growth.StepExtends` | src/subnet_rental_canister/src/canister_state.rs:188-195 | No step, trap or upgrade removes, changes or reorders an event; what it adds bears the time of the step |
| `Growth.WalkInEveryRun` | src/subnet_rental_canister/src/canister_state.rs:201-218 | A reader paging through a key's events while the run goes on gets exactly the events of its first call |
| `History.ReplayAppend` | src/subnet_rental_canister/src/canister_state.rs:188-195 | An appended event is one replay step for its key and none for any other |
| `CanisterStates.NumberingAppends` | src/subnet_rental_canister/src/canister_state.rs:166-195 | Numbering an event with its key's counter keeps sequence numbers dense (0 .. counter - 1) and appends it to that key's log only |
| `CanisterStates.CanisterState.Acquire` | src/subnet_rental_canister/src/canister_state.rs:74-86 | Takes a guard if and only if it is free |
| `CanisterStates.CanisterState.Release` | src/subnet_rental_canister/src/canister_state.rs:88-92 | Drops that guard and no other |
| `CanisterStates.CanisterState.UpdateRentalRequest` | src/subnet_rental_canister/src/canister_state.rs:113-124 | Transforms the stored request, or fails and changes nothing |
| `CanisterStates.CanisterState.RemoveRentalRequest` | src/subnet_rental_canister/src/canister_state.rs:126-128 | Removes and returns the stored request |
| `CanisterStates.CanisterState.UpdateRentalAgreement` | src/subnet_rental_canister/src/canister_state.rs:143-154 | Transforms the stored agreement, or fails and changes nothing |
| `CanisterStates.CanisterState.CacheRate` | src/subnet_rental_canister/src/canister_state.rs:160-162 | Stores the rate of a time |
| `CanisterStates.CanisterState.NextSeq` | src/subnet_rental_canister/src/canister_state.rs:166-172 | Draws the next number, from 0 |
| `CanisterStates.CanisterState.GetCurrentSeq` | src/subnet_rental_canister/src/canister_state.rs:176-186 | The number of the newest event of the key, None if it has none |
| `CanisterStates.CanisterState.PersistEvent` | src/subnet_rental_canister/src/canister_state.rs:188-195 | Counter and map entry together append the event to the key's log; numbers stay dense |
| `CanisterStates.CanisterState.GetHistoryPage` | src/subnet_rental_canister/src/canister_state.rs:201-218 | The range scan returns the page of the abstract log that `HistoryWalkIsComplete` is about |
| `CanisterStates.CanisterState.PersistRentalRequest` | src/subnet_rental_canister/src/canister_state.rs:221-235 | Inserts the request and its event, or fails and changes nothing if the user has one |
| `CanisterStates.CanisterState.PersistRentalAgreement` | src/subnet_rental_canister/src/canister_state.rs:238-259 | Inserts the agreement and its event, or fails and changes nothing if the subnet has one |
| `Canisters.Canister.constructor` | src/subnet_rental_canister/src/canister.rs:35-40 | A new canister has only the initial conditions and their two events |
| `Canisters.Canister.SetInitialConditions` | src/subnet_rental_canister/src/canister.rs:50-84 | The loop refines the two writes and events |
| `Canisters.Canister.App13chToApp7ch` | src/subnet_rental_canister/src/migration.rs:46-103 | Refines the migration step of the transition system |
| `Canisters.Canister.PostUpgrade` | src/subnet_rental_canister/src/canister.rs:42-47 | Refines the upgrade step: locks gone, conditions reset, target migrated |
| `Canisters.Canister.BurnForAgreement` | src/subnet_rental_canister/src/canister.rs:116-167 | The body of the burn loop, with its early exits, refines the burn of one agreement or traps exactly when that does |
| `Canisters.Canister.BurnCycles` | src/subnet_rental_canister/src/canister.rs:97-169 | The loop over copies, taking and dropping each guard and re-reading, refines the sweep or traps exactly when that does |
| `Canisters.Canister.NextLocking` | src/subnet_rental_canister/src/canister.rs:171-205 | The scan over the copied requests stops at the first that is due and unlocked, holding exactly its guard |
| `Canisters.Canister.CompleteLocking` | src/subnet_rental_canister/src/canister.rs:224-255 | Events, record and released guard after a locking's conversion, or the trap of its `unwrap` |
| `Canisters.Canister.FailLocking` | src/subnet_rental_canister/src/canister.rs:208-222 | Failure event and released guard |
| `Canisters.Canister.IsRenting` | src/subnet_rental_canister/src/canister.rs:477-481 | The scan finds an agreement of the user if and only if there is one |
| `Canisters.Canister.IsRequested` | src/subnet_rental_canister/src/canister.rs:504-513 | The scan finds a request for the condition if and only if there is one |
| `Canisters.Canister.BeginRental` | src/subnet_rental_canister/src/canister.rs:466-514 | Guard and checks of a proposal: busy, refused with an event, or going on with exactly its guard |
| `Canisters.Canister.FailRental` | src/subnet_rental_canister/src/canister.rs:450-464 | Failure event and released guard |
| `Canisters.Canister.CompleteRental` | src/subnet_rental_canister/src/canister.rs:567-593 | Transfer event, new request with its event, released guard; fails exactly if the user has a request |
| `Canisters.Canister.BeginAgreement` | src/subnet_rental_canister/src/canister.rs:614-632 | Two guards and two checks; the amount to convert is the cost less what is locked |
| `Canisters.Canister.DraftAgreement` | src/subnet_rental_canister/src/canister.rs:645-659 | Transfer event and the agreement drafted from the copied request |
| `Canisters.Canister.CompleteAgreement` | src/subnet_rental_canister/src/canister.rs:663-669 | Request removed and agreement inserted in one segment, both guards released; fails exactly if one `unwrap` would |
| `Canisters.Canister.BeginRefund` | src/subnet_rental_canister/src/canister.rs:678-687 | Takes both guards, or none if one is held |
| `Canisters.Canister.CompleteRefund` | src/subnet_rental_canister/src/canister.rs:703-729 | Transfer event; a live request is removed with its event and its locked cycles are burned as far as the balance goes |
| `Canisters.Canister.BeginTopUp` | src/subnet_rental_canister/src/canister.rs:787-794 | Guard and copy of the agreement, or nothing changed |
| `Canisters.Canister.FailTopUp` | src/subnet_rental_canister/src/canister.rs:822-838 | Failure event and released guard |
| `Canisters.Canister.CompleteTopUp` | src/subnet_rental_canister/src/canister.rs:839-896 | Events, totals and deadline after a top-up's conversion, or the trap of a lookup, division or `unwrap` |
| `Canisters.Canister.CachedRate` | src/subnet_rental_canister/src/external_calls.rs:97-121 | A cached rate costs nothing; otherwise the fee is attached to a call, or the call fails for lack of cycles |
| `Writes.OpenRequestKeeps` | src/subnet_rental_canister/src/canister.rs:567-591 | Opening a request keeps the whole invariant |
| `Writes.RelockedRecord` | src/subnet_rental_canister/src/canister.rs:241-254 | Under F a locking adds exactly one tenth and the minted cycles, without saturation or wrap-around |
| `Writes.RelockKeeps` | src/subnet_rental_canister/src/canister.rs:224-254 | A successful locking keeps the whole invariant |
| `Writes.CancelRequestKeeps` | src/subnet_rental_canister/src/canister.rs:703-724 | A paid refund keeps the whole invariant |
| `AgreementWrites.OpenAgreementKeeps` | src/subnet_rental_canister/src/canister.rs:661-666 | Replacing a request by its agreement keeps the whole invariant |
| `AgreementWrites.BookTopUpKeeps` | src/subnet_rental_canister/src/canister.rs:839-896 | Booking a top-up keeps the whole invariant |
| `AgreementWrites.BurnAllKeeps` | src/subnet_rental_canister/src/canister.rs:97-169 | A burn sweep keeps the whole invariant |
| `AgreementWrites.UpgradeKeeps` | src/subnet_rental_canister/src/canister.rs:42-47 | An upgrade with no task in flight keeps the whole invariant |
| `Blocks.EndKeeps` | src/subnet_rental_canister/src/canister_state.rs:88-92 | Ending a task by return or trap keeps the whole invariant: its guards are dropped and what it had in flight is booked as lost (a refund whose transfer was paid does not end that way: `CancelRequestKeeps`) |
| `Blocks.ServeTransferKeeps` | src/subnet_rental_canister/src/external_calls.rs:56-73 | A debited transfer to the CMC keeps the whole invariant |
| `Blocks.ServeRefundKeeps` | src/subnet_rental_canister/src/external_calls.rs:75-89 | A paid refund transfer keeps the whole invariant while its task is not resumed |

## Left out

- Candid encoding, stable memory regions, the text form of principals and account hashing: principals are opaque and maps are maps.
- The internals of ledger, CMC, XRC, registry and governance: only success, failure and the effect on balances.
- Caller checks (governance, renter) and the midnight rounding of rate times: each is one branch or one subtraction, and rate times are arbitrary in the model.
- `update_subnet_admins`: only its guard and its await; not the validation and forwarding of its payload.
- `rental_agreement_status`, query wrappers, replies, descriptions, reasons in events, and all printing.
- Timer scheduling and execution cost: sweeps are steps at arbitrary times, and gaps between them are hypotheses where needed.
- Removal of rental agreements, and conditions with a fixed subnet: the source has neither; the check for such a subnet is modelled all the same.
- Event counters are unbounded: 2^64 events of one key are not reached.
- Key order of the maps: sweeps are proved for every order in which they may list the records.
- Canisters.Canister.BurnCycles, Canisters.Canister.CompleteLocking, Canisters.Canister.CompleteTopUp and the other methods that can trap: say nothing of the state after a trap, because the platform discards it.
- Pacing.PacingInEveryRun: says nothing of a stretch with a top-up or a switch in it, because each starts a new line; Pacing.FundedStaysFunded goes through them.
- Theorems.NoUnwrapFails: does not cover the sixth `unwrap`, the removal in `refund`, which directly follows its own lookup in the same segment.
