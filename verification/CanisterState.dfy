/** The canister's replicated state as the source keeps it (canister_state.rs): maps that are inserted
    into and removed from in place, with one counter and one history entry per event. */
module CanisterStates {
  import opened Types
  import opened History
  import opened Segments = State

  type Counters = map<Option<Principal>, nat>
  type Entries = map<(Option<Principal>, nat), Event>

  /** Sequence numbers are dense: a key's events are numbered from 0 up to its counter. */
  ghost predicate Dense(counters: Counters, entries: Entries) {
    && (forall k, i: nat :: (k, i) in entries <==> k in counters && i < counters[k])
    && forall k | k in counters :: counters[k] >= 1
  }

  function EventsIn(counters: Counters, entries: Entries, key: Option<Principal>): (events: seq<Event>)
    requires Dense(counters, entries)
    ensures |events| == if key in counters then counters[key] else 0
    ensures forall i | 0 <= i < |events| :: (key, i) in entries && events[i] == entries[(key, i)]
  {
    if key !in counters then []
    else
      assert forall i: nat | i < counters[key] :: (key, i) in entries;
      seq(counters[key], i requires 0 <= i < counters[key] => entries[(key, i)])
  }

  function LogIn(counters: Counters, entries: Entries): Log
    requires Dense(counters, entries)
  {
    map k | k in counters :: EventsIn(counters, entries, k)
  }

  /** Numbering an event with its key's counter appends it to the key's events and to no others. */
  lemma NumberingAppends(counters: Counters, entries: Entries, key: Option<Principal>, event: EventType, now: nat)
    requires Dense(counters, entries)
    ensures var n := if key in counters then counters[key] else 0;
            var counters', entries' := counters[key := n + 1], entries[(key, n) := Event(now, event)];
            && Dense(counters', entries')
            && LogIn(counters', entries') == Append(LogIn(counters, entries), key, event, now)
  {
    var n := if key in counters then counters[key] else 0;
    var counters', entries' := counters[key := n + 1], entries[(key, n) := Event(now, event)];
    assert Dense(counters', entries');
    forall k | k in counters' ensures LogIn(counters', entries')[k] == Append(LogIn(counters, entries), key, event, now)[k] {
      if k == key {
        assert EventsIn(counters', entries', k) == EventsOf(LogIn(counters, entries), k) + [Event(now, event)];
      } else {
        assert EventsIn(counters', entries', k) == EventsIn(counters, entries, k);
      }
    }
  }

  lemma SliceGrows(events: seq<Event>, low: nat, i: nat)
    requires low <= i
    ensures Slice(events, low, i + 1) == Slice(events, low, i) + if i < |events| then [events[i]] else []
  {
  }

  class CanisterState {
    var conditions: map<ConditionId, RentalConditions>
    var locks: set<Guard>
    var requests: map<Principal, RentalRequest>
    var agreements: map<Principal, RentalAgreement>
    var counters: Counters
    var history: Entries
    var rates: map<nat, (nat, nat)>

    ghost predicate Valid()
      reads this
    {
      Dense(counters, history)
    }

    ghost function Log(): Log
      requires Valid()
      reads this
    {
      LogIn(counters, history)
    }

    ghost function Abs(): State
      requires Valid()
      reads this
    {
      State(conditions, locks, requests, agreements, Log(), rates)
    }

    constructor ()
      ensures Valid() && Abs() == State(map[], {}, map[], map[], map[], map[])
    {
      conditions, locks, requests, agreements := map[], {}, map[], map[];
      counters, history, rates := map[], map[], map[];
    }

    // ---------------------------------------------------------------- guards

    /** `CallerGuard::new` */
    method Acquire(principal: Principal, tag: Tag) returns (ok: bool)
      requires Valid()
      modifies this`locks
      ensures Valid()
      ensures ok == (Guard(principal, tag) !in old(locks))
      ensures Abs() == if ok then old(Abs()).(locks := old(locks) + {Guard(principal, tag)}) else old(Abs())
    {
      ok := Guard(principal, tag) !in locks;
      if ok {
        locks := locks + {Guard(principal, tag)};
      }
    }

    /** `CallerGuard::drop` */
    method Release(principal: Principal, tag: Tag)
      requires Valid()
      modifies this`locks
      ensures Valid() && Abs() == old(Abs()).(locks := old(locks) - {Guard(principal, tag)})
    {
      locks := locks - {Guard(principal, tag)};
    }

    // ---------------------------------------------------------------- records

    method InsertRentalCondition(key: ConditionId, value: RentalConditions)
      requires Valid()
      modifies this`conditions
      ensures Valid() && Abs() == old(Abs()).(conditions := old(conditions)[key := value])
    {
      conditions := conditions[key := value];
    }

    method UpdateRentalRequest(requester: Principal, transform: RentalRequest -> RentalRequest) returns (ok: bool)
      requires Valid()
      modifies this`requests
      ensures Valid() && ok == (requester in old(requests))
      ensures Abs() ==
        if ok then old(Abs()).(requests := old(requests)[requester := transform(old(requests)[requester])])
        else old(Abs())
    {
      ok := requester in requests;
      if ok {
        requests := requests[requester := transform(requests[requester])];
      }
    }

    method RemoveRentalRequest(requester: Principal) returns (removed: Option<RentalRequest>)
      requires Valid()
      modifies this`requests
      ensures Valid() && Abs() == old(Abs()).(requests := old(requests) - {requester})
      ensures removed == if requester in old(requests) then Some(old(requests)[requester]) else None
    {
      removed := None;
      if requester in requests {
        removed := Some(requests[requester]);
        requests := requests - {requester};
      }
    }

    method UpdateRentalAgreement(subnet: Principal, transform: RentalAgreement -> RentalAgreement) returns (ok: bool)
      requires Valid()
      modifies this`agreements
      ensures Valid() && ok == (subnet in old(agreements))
      ensures Abs() ==
        if ok then old(Abs()).(agreements := old(agreements)[subnet := transform(old(agreements)[subnet])])
        else old(Abs())
    {
      ok := subnet in agreements;
      if ok {
        agreements := agreements[subnet := transform(agreements[subnet])];
      }
    }

    method CacheRate(time: nat, rate: nat, decimals: nat)
      requires Valid()
      modifies this`rates
      ensures Valid() && Abs() == old(Abs()).(rates := old(rates)[time := (rate, decimals)])
    {
      rates := rates[time := (rate, decimals)];
    }

    // ---------------------------------------------------------------- history

    /** Draws the next unused number, starting at 0. */
    method NextSeq(key: Option<Principal>) returns (seqNo: nat)
      modifies this`counters
      ensures seqNo == (if key in old(counters) then old(counters)[key] else 0)
      ensures counters == old(counters)[key := seqNo + 1]
    {
      seqNo := if key in counters then counters[key] else 0;
      counters := counters[key := seqNo + 1];
    }

    /** The largest number drawn for the key so far. */
    method GetCurrentSeq(key: Option<Principal>) returns (seqNo: Option<nat>)
      requires Valid()
      ensures seqNo == (var n := |EventsOf(Log(), key)|; if n == 0 then None else Some(n - 1))
    {
      seqNo := if key in counters && counters[key] >= 1 then Some(counters[key] - 1) else None;
    }

    method PersistEvent(event: EventType, key: Option<Principal>, now: nat)
      requires Valid()
      modifies this`counters, this`history
      ensures Valid() && Abs() == Persist(old(Abs()), key, event, now)
    {
      NumberingAppends(counters, history, key, event, now);
      var n := NextSeq(key);
      history := history[(key, n) := Event(now, event)];
    }

    /** One page of a key's events, read out of the range of numbers `low..high`. */
    method GetHistoryPage(key: Option<Principal>, olderThan: Option<nat>, pageSize: nat)
      returns (page: seq<Event>, low: nat)
      requires Valid()
      ensures (page, low) == Page(EventsOf(Log(), key), olderThan, pageSize)
    {
      var high;
      match olderThan {
        case Some(n) => high := n;
        case None =>
          var current := GetCurrentSeq(key);
          high := if current.Some? then current.value + 1 else 0;
      }
      low := SatSub(high, pageSize);
      page := [];
      var i := low;
      while i < high
        invariant low <= i <= high
        invariant page == Slice(EventsOf(Log(), key), low, i)
      {
        if (key, i) in history {
          page := page + [history[(key, i)]];
        }
        SliceGrows(EventsOf(Log(), key), low, i);
        i := i + 1;
      }
    }

    // ---------------------------------------------------------------- persisting records

    method PersistRentalRequest(r: RentalRequest, now: nat) returns (ok: bool)
      requires Valid()
      modifies this`requests, this`counters, this`history
      ensures Valid()
      ensures var after := Segments.PersistRentalRequest(old(Abs()), r, now);
              ok == after.Some? && Abs() == if ok then after.value else old(Abs())
    {
      if r.user in requests {
        return false;
      }
      requests := requests[r.user := r];
      PersistEvent(RentalRequestCreated(r), Some(r.user), now);
      return true;
    }

    method PersistRentalAgreement(a: RentalAgreement, now: nat) returns (ok: bool)
      requires Valid()
      modifies this`agreements, this`counters, this`history
      ensures Valid()
      ensures var after := Segments.PersistRentalAgreement(old(Abs()), a, now);
              ok == after.Some? && Abs() == if ok then after.value else old(Abs())
    {
      if a.subnetId in agreements {
        return false;
      }
      agreements := agreements[a.subnetId := a];
      PersistEvent(
        RentalAgreementCreated(a.user, a.rentalRequestProposalId, a.subnetCreationProposalId, a.rentalConditionId),
        Some(a.subnetId), now);
      return true;
    }
  }
}
