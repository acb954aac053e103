/** The append-only event log (canister_state.rs) as one sequence of events per key, its pages, and
    what an auditor reads out of it. */
module History {
  import opened Types

  type Log = map<Option<Principal>, seq<Event>>

  function EventsOf(log: Log, key: Option<Principal>): seq<Event> {
    if key in log then log[key] else []
  }

  function Append(log: Log, key: Option<Principal>, event: EventType, now: nat): Log {
    log[key := EventsOf(log, key) + [Event(now, event)]]
  }

  // ---------------------------------------------------------------- pages

  /** The events with numbers `low..high`, clipped to the events that exist. */
  function Slice(events: seq<Event>, low: nat, high: nat): seq<Event>
    requires low <= high
  {
    events[Min(low, |events|)..Min(high, |events|)]
  }

  /** One page: the events just older than `olderThan` (or the newest ones) and the number of the
      oldest slot of the page. */
  function Page(events: seq<Event>, olderThan: Option<nat>, pageSize: nat): (seq<Event>, nat) {
    var high := match olderThan case None => |events| case Some(n) => n;
    var low := SatSub(high, pageSize);
    (Slice(events, low, high), low)
  }

  /** A page holds the events numbered from its continuation up to where it ends: exactly `pageSize` of them as long
      as that many older ones exist, never more, and all of them otherwise. */
  lemma PageIsExact(events: seq<Event>, olderThan: Option<nat>, pageSize: nat)
    ensures var (page, low) := Page(events, olderThan, pageSize);
            var high := match olderThan case None => |events| case Some(n) => n;
            && |page| <= pageSize
            && (high <= |events| ==> |page| == Min(pageSize, high) && low == high - |page|)
            && (forall i | 0 <= i < |page| :: low + i < |events| && page[i] == events[low + i])
            && (high > |events| ==> |page| == SatSub(|events|, low))
  {
  }

  /** A reader that follows the continuation token until it is 0. `view(i)` is the log as the
      reader's i-th call finds it; pages are put back in order. */
  ghost function Walk(view: nat -> seq<Event>, call: nat, token: nat, pageSize: nat): seq<Event>
    requires pageSize >= 1
    decreases token
  {
    if token == 0 then []
    else
      var (page, continuation) := Page(view(call), Some(token), pageSize);
      Walk(view, call + 1, continuation, pageSize) + page
  }

  ghost predicate Growing(view: nat -> seq<Event>) {
    forall i: nat, j: nat | i <= j :: view(i) <= view(j)
  }

  lemma {:induction false} WalkReadsPrefix(view: nat -> seq<Event>, call: nat, token: nat, pageSize: nat)
    requires pageSize >= 1 && Growing(view) && token <= |view(call)|
    ensures Walk(view, call, token, pageSize) == view(call)[..token]
    decreases token
  {
    if token > 0 {
      var low := SatSub(token, pageSize);
      assert view(call) <= view(call + 1);
      WalkReadsPrefix(view, call + 1, low, pageSize);
      assert view(call)[..token] == view(call)[..low] + view(call)[low..token];
    }
  }

  /** Starting without a token and following continuations returns exactly the events that were
      there at the first call, each once and in order, whatever is appended between the calls. */
  lemma HistoryWalkIsComplete(view: nat -> seq<Event>, pageSize: nat)
    requires pageSize >= 1 && Growing(view)
    ensures var (page, continuation) := Page(view(0), None, pageSize);
            Walk(view, 1, continuation, pageSize) + page == view(0)
  {
    var low := SatSub(|view(0)|, pageSize);
    assert view(0) <= view(1);
    WalkReadsPrefix(view, 1, low, pageSize);
    assert view(0) == view(0)[..low] + view(0)[low..];
  }

  // ---------------------------------------------------------------- replay

  /** What a user's log says about the ICP locked so far: in total, in cycles, and in how many steps. */
  datatype Trail = NoRequest | LockedUp(icp: nat, cycles: nat, times: nat)

  function TrailStep(trail: Trail, event: EventType): Trail {
    match event
    case RentalRequestCreated(r) => LockedUp(r.lockedAmountIcp, r.lockedAmountCycles, 1)
    case LockingSuccess(_, icp, cycles) =>
      if trail.LockedUp? then LockedUp(trail.icp + icp, trail.cycles + cycles, trail.times + 1) else trail
    case RentalRequestCancelled(_) => NoRequest
    case _ => trail
  }

  function RequestTrail(events: seq<Event>): Trail {
    if |events| == 0 then NoRequest
    else TrailStep(RequestTrail(events[..|events| - 1]), events[|events| - 1].event)
  }

  /** What a subnet's log says about the payments made after the agreement was created. */
  datatype Payments = Payments(
    cycles: nat,
    icp: nat,
    topUps: nat,
    deadline: Option<nat>,
    switches: nat)

  function PaymentsStep(p: Payments, event: EventType): Payments {
    match event
    case SubnetTopUp(_, icp, cycles, _, deadline) =>
      Payments(p.cycles + cycles, p.icp + icp, p.topUps + 1, Some(deadline), p.switches)
    case RentalConditionSwitched(_, _, _, _, _, deadline) =>
      p.(deadline := Some(deadline), switches := p.switches + 1)
    case _ => p
  }

  function PaymentTrail(events: seq<Event>): Payments {
    if |events| == 0 then Payments(0, 0, 0, None, 0)
    else PaymentsStep(PaymentTrail(events[..|events| - 1]), events[|events| - 1].event)
  }

  /** Appending an event is one replay step for its key and none for the others. */
  lemma ReplayAppend(log: Log, key: Option<Principal>, event: EventType, now: nat)
    ensures var log' := Append(log, key, event, now);
            && RequestTrail(EventsOf(log', key)) == TrailStep(RequestTrail(EventsOf(log, key)), event)
            && PaymentTrail(EventsOf(log', key)) == PaymentsStep(PaymentTrail(EventsOf(log, key)), event)
            && forall k | k != key :: EventsOf(log', k) == EventsOf(log, k)
  {
    var events := EventsOf(log, key);
    assert (events + [Event(now, event)])[..|events|] == events;
  }
}
