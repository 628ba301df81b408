/**
  The market lease in Redis: one key that several API processes set and delete through one
  script.  A process is its instance id; `start` gives the start time each publishes.
 */
module MarketLease {
  datatype Slot = Absent | Unreadable | Held(owner: string, startedAt: int, session: nat)

  datatype Operation = Put(session: nat) | Delete

  /** One call of the script. */
  function Script(slot: Slot, owner: string, startedAt: int, op: Operation): Slot {
    match op
    case Delete => if slot.Held? && slot.owner == owner then Absent else slot
    case Put(session) =>
      if slot.Held? && slot.owner != owner && slot.startedAt >= startedAt then slot
      else Held(owner, startedAt, session)
  }

  class LeaseKey {
    var slot: Slot

    constructor ()
      ensures slot == Absent
    {
      slot := Absent;
    }

    /** 1 when the key was written or deleted, 0 when the call left it alone. */
    method Update(owner: string, startedAt: int, op: Operation) returns (code: int)
      modifies this
      ensures slot == Script(old(slot), owner, startedAt, op)
      ensures code == 1 <==> (op.Put? && slot == Held(owner, startedAt, op.session) && !Refused(old(slot), owner, startedAt))
                             || (op.Delete? && old(slot) != Absent && slot == Absent)
      ensures code == 0 || code == 1
      ensures code == 0 ==> slot == old(slot)
    {
      if op.Delete? {
        if slot.Absent? {
          return 0;
        }
        if slot.Held? && slot.owner == owner {
          slot := Absent;
          return 1;
        }
        return 0;
      }
      if slot.Held? {
        if slot.owner != owner && slot.startedAt >= startedAt {
          return 0;
        }
      }
      slot := Held(owner, startedAt, op.session);
      code := 1;
    }
  }

  predicate Refused(slot: Slot, owner: string, startedAt: int) {
    slot.Held? && slot.owner != owner && slot.startedAt >= startedAt
  }

  // ---------------------------------------------------------------------------------------
  // Any interleaving of processes

  datatype Event = Call(owner: string, op: Operation) | Expire

  function Step(start: string -> int, slot: Slot, e: Event): Slot {
    match e
    case Call(owner, op) => Script(slot, owner, start(owner), op)
    case Expire => Absent
  }

  function Run(start: string -> int, slot: Slot, events: seq<Event>): Slot
    decreases |events|
  {
    if events == [] then slot else Step(start, Run(start, slot, events[..|events| - 1]), events[|events| - 1])
  }

  /** Written by the processes themselves. */
  predicate Authored(start: string -> int, slot: Slot) {
    slot.Absent? || (slot.Held? && slot.startedAt == start(slot.owner))
  }

  lemma {:induction false} AuthoredAlways(start: string -> int, slot: Slot, events: seq<Event>)
    requires Authored(start, slot)
    ensures Authored(start, Run(start, slot, events))
    decreases |events|
  {
    if events != [] {
      AuthoredAlways(start, slot, events[..|events| - 1]);
    }
  }

  /** A lease is freed only by expiry or by its owner, and changes hands only to a strictly later start. */
  lemma LeaseStep(start: string -> int, slot: Slot, e: Event)
    requires Authored(start, slot) && slot.Held?
    ensures Step(start, slot, e).Absent? <==> e.Expire? || (e.op.Delete? && e.owner == slot.owner)
    ensures Step(start, slot, e).Held? && Step(start, slot, e).owner != slot.owner
            <==> e.Call? && e.op.Put? && e.owner != slot.owner && start(e.owner) > start(slot.owner)
  {
  }

  /** The key is held throughout the run. */
  ghost predicate Unbroken(start: string -> int, slot: Slot, events: seq<Event>)
    decreases |events|
  {
    && Run(start, slot, events).Held?
    && (events != [] ==> Unbroken(start, slot, events[..|events| - 1]))
  }

  /** While the lease is not freed its start never goes back, and a new owner started strictly later. */
  lemma {:induction false} LeaseOnlyAdvances(start: string -> int, slot: Slot, events: seq<Event>)
    requires Authored(start, slot) && Unbroken(start, slot, events)
    ensures slot.Held? && Run(start, slot, events).startedAt >= slot.startedAt
    ensures Run(start, slot, events).owner == slot.owner || Run(start, slot, events).startedAt > slot.startedAt
    decreases |events|
  {
    if events != [] {
      var front := events[..|events| - 1];
      LeaseOnlyAdvances(start, slot, front);
      AuthoredAlways(start, slot, front);
    }
  }

  /** A process that lost the lease does not get it back before it is freed. */
  lemma {:induction false} LostLeaseStaysLost(start: string -> int, slot: Slot, events: seq<Event>, more: seq<Event>)
    requires Authored(start, slot) && Unbroken(start, slot, events)
    requires slot.Held? && Run(start, slot, events).owner != slot.owner
    requires Unbroken(start, Run(start, slot, events), more)
    ensures Run(start, Run(start, slot, events), more).owner != slot.owner
  {
    AuthoredAlways(start, slot, events);
    LeaseOnlyAdvances(start, slot, events);
    LeaseOnlyAdvances(start, Run(start, slot, events), more);
    AuthoredAlways(start, Run(start, slot, events), more);
  }
}
