/**
  The trade-command outbox of all devices: expiry in bounded batches and the choice of the next
  command one device is sent.
 */
module Outbox {
  import opened Prelude
  import opened TradeRows
  import opened PlaceOrderTransition
  import opened Lifecycle
  import opened LockedOrderModel

  predicate HighPriority(c: Command) {
    c.kind.CancelOrder? || c.kind.EmergencyStop?
  }

  ghost function DueSet(orders: seq<Rows>, now: int): set<nat> {
    set k: nat | k < |orders| && Due(orders[k].command, now)
  }

  /** A queued order past its expiry whose finished T lifecycle already carries the sweep's outcome. */
  ghost predicate Stuck(r: Rows, now: int) {
    && r.command.kind.PlaceOrder? && r.command.status.Queued? && r.command.expiresAt <= now
    && OwnerChainValid(r) && FinishedReplay(r, Expired, ExpiredBeforeDelivery)
  }

  ghost function StuckSet(orders: seq<Rows>, now: int): set<nat> {
    set k: nat | k < |orders| && Stuck(orders[k], now)
  }

  predicate Sooner(a: Command, b: Command) {
    a.expiresAt < b.expiresAt || (a.expiresAt == b.expiresAt && a.createdAt <= b.createdAt)
  }

  /** The candidates of one batch: due, soonest first, and as many as the limit allows. */
  ghost predicate BatchOf(orders: seq<Rows>, now: int, limit: nat, chosen: seq<nat>) {
    && (forall i :: 0 <= i < |chosen| ==> chosen[i] in DueSet(orders, now))
    && (forall i, j :: 0 <= i < j < |chosen| ==> chosen[i] != chosen[j])
    && (forall i, k :: 0 <= i < |chosen| && k in DueSet(orders, now) && k !in chosen
          ==> Sooner(orders[chosen[i]].command, orders[k].command))
    && (|chosen| == limit || forall k :: k in DueSet(orders, now) ==> k in chosen)
    && |chosen| <= limit
  }

  /** The outbox after the chosen rows were converged and all others left alone. */
  ghost predicate SweptOnly(before: seq<Rows>, after: seq<Rows>, now: int, chosen: seq<nat>) {
    && |after| == |before|
    && (forall k :: 0 <= k < |before| ==> after[k] == if k in chosen then SweepStep(before[k], now) else before[k])
  }

  /** One batch: what `ExpireBatch` did and how many rows it reported. */
  ghost predicate BatchStep(before: seq<Rows>, after: seq<Rows>, now: int, limit: nat, count: nat) {
    exists chosen: seq<nat> ::
      BatchOf(before, now, limit, chosen) && SweptOnly(before, after, now, chosen) && count == |chosen|
  }

  /** A command this device could be sent now, in its priority class. */
  predicate Candidate(c: Command, device: string, now: int, high: bool) {
    c.deviceId == device && Deliverable(c, now) && HighPriority(c) == high
  }

  ghost predicate OldestCandidate(orders: seq<Rows>, device: string, now: int, high: bool, k: nat) {
    && k < |orders|
    && Candidate(orders[k].command, device, now, high)
    && (forall j :: 0 <= j < |orders| && Candidate(orders[j].command, device, now, high)
          ==> orders[k].command.createdAt <= orders[j].command.createdAt)
  }

  predicate FreshlyDelivered(c: Command, device: string, now: int) {
    && c.deviceId == device && c.status.Delivered? && c.expiresAt > now
    && c.deliveredAt.Some? && c.deliveredAt.value > now - REDELIVERY_MICROS
  }

  /** Which row a delivery poll may claim: any pressing command first, else the oldest while none is in flight. */
  ghost predicate Claimable(orders: seq<Rows>, device: string, now: int, k: nat) {
    || OldestCandidate(orders, device, now, true, k)
    || (&& (forall j :: 0 <= j < |orders| ==> !Candidate(orders[j].command, device, now, true))
        && (forall j :: 0 <= j < |orders| ==> !FreshlyDelivered(orders[j].command, device, now))
        && OldestCandidate(orders, device, now, false, k))
  }

  class CommandOutbox {
    var orders: seq<Rows>

    constructor ()
      ensures orders == []
    {
      orders := [];
    }

    /** Choose the rows of one batch, soonest expiry first. */
    method SelectDue(now: int, limit: nat) returns (chosen: seq<nat>)
      ensures BatchOf(orders, now, limit, chosen)
    {
      chosen := [];
      while |chosen| < limit
        invariant BatchOf(orders, now, limit, chosen) || (|chosen| < limit && Partial(orders, now, chosen))
        invariant Partial(orders, now, chosen) && |chosen| <= limit
        decreases limit - |chosen|
      {
        var next := NextDue(now, chosen);
        if next.None? {
          return;
        }
        chosen := chosen + [next.value];
      }
    }

    /** The soonest due row not chosen yet. */
    method NextDue(now: int, chosen: seq<nat>) returns (next: Option<nat>)
      ensures next.None? ==> forall k :: k in DueSet(orders, now) ==> k in chosen
      ensures next.Some? ==> next.value in DueSet(orders, now) && next.value !in chosen
      ensures next.Some? ==> forall k :: k in DueSet(orders, now) && k !in chosen
                               ==> Sooner(orders[next.value].command, orders[k].command)
    {
      next := None;
      var k := 0;
      while k < |orders|
        invariant 0 <= k <= |orders|
        invariant next.None? ==> forall j :: 0 <= j < k && j in DueSet(orders, now) ==> j in chosen
        invariant next.Some? ==> next.value < k && next.value in DueSet(orders, now) && next.value !in chosen
        invariant next.Some? ==> forall j :: 0 <= j < k && j in DueSet(orders, now) && j !in chosen
                                   ==> Sooner(orders[next.value].command, orders[j].command)
      {
        if Due(orders[k].command, now) && k !in chosen
           && (next.None? || !Sooner(orders[next.value].command, orders[k].command)) {
          next := Some(k);
        }
        k := k + 1;
      }
    }

    /** Lock and converge one bounded batch of expired rows. */
    method ExpireBatch(now: int, limit: nat) returns (count: nat)
      modifies this
      ensures BatchStep(old(orders), orders, now, limit, count)
    {
      ghost var before := orders;
      var chosen := SelectDue(now, limit);
      count := 0;
      var i := 0;
      while i < |chosen|
        invariant 0 <= i <= |chosen| && count == i
        invariant |orders| == |before|
        invariant forall k :: 0 <= k < |before| ==>
                    orders[k] == if k in chosen[..i] then SweepStep(before[k], now) else before[k]
      {
        var row := chosen[i];
        assert row !in chosen[..i];
        assert row in DueSet(before, now);
        var locked := new LockedOrder(orders[row]);
        var counted := locked.ExpireIfDue(now);
        orders := orders[row := Rows(locked.command, locked.pending, locked.correlation, locked.intent, locked.batch, locked.events)];
        if counted {
          count := count + 1;
        }
        assert chosen[..i + 1] == chosen[..i] + [row];
        i := i + 1;
      }
      assert chosen[..|chosen|] == chosen;
      assert SweptOnly(before, orders, now, chosen);
    }

    /**
      Repeat batches until one comes back short, each at the time the clock then shows; watched for at
      most as many batches as there are times.  The batch that ends it finds fewer rows stuck than it
      holds, and leaves nothing due but those.
     */
    method SweepExpired(times: seq<int>, batchSize: int) returns (total: nat, batches: nat, ended: bool)
      modifies this
      ensures batches <= |times| && (!ended ==> batches == |times|)
      ensures SweepProgress(old(orders), orders, times[..batches], total, ended, EffectiveBatch(batchSize))
      ensures |times| > |LiveSet(old(orders))| && NeverFull(old(orders), times, EffectiveBatch(batchSize)) ==> ended
    {
      ghost var start := orders;
      var limit := EffectiveBatch(batchSize);
      NothingSweptYet(start, limit);
      ProgressIsKept(start, limit);
      total, batches, ended := SweepLoop(times, limit, Progress(start, limit));
      assert times[..|times|] == times;
    }

    /** The loop itself, for anything that every batch keeps. */
    method SweepLoop(times: seq<int>, limit: nat, ghost progress: (seq<Rows>, seq<int>, nat, bool) -> bool)
      returns (total: nat, batches: nat, ended: bool)
      requires progress(orders, [], 0, false)
      requires Kept(progress, Batching(limit), limit)
      modifies this
      ensures batches <= |times| && (!ended ==> batches == |times|)
      ensures progress(orders, times[..batches], total, ended)
    {
      total, batches, ended := 0, 0, false;
      assert times[..0] == [];
      while batches < |times| && !ended
        invariant batches <= |times|
        invariant progress(orders, times[..batches], total, ended)
        decreases |times| - batches
      {
        assert times[..batches + 1] == times[..batches] + [times[batches]];
        var count := ExpireSession(times[batches], limit, times[..batches], total, progress);
        total := total + count;
        ended := count < limit;
        batches := batches + 1;
      }
    }

    /** One transaction of the loop. */
    method ExpireSession(
      now: int, limit: nat, ghost seen: seq<int>, ghost counted: nat, ghost progress: (seq<Rows>, seq<int>, nat, bool) -> bool)
      returns (count: nat)
      requires progress(orders, seen, counted, false)
      requires Kept(progress, Batching(limit), limit)
      modifies this
      ensures progress(orders, seen + [now], counted + count, count < limit)
    {
      ghost var before := orders;
      count := ExpireBatch(now, limit);
      assert Batching(limit)(before, orders, now, count);
      OneKept(progress, Batching(limit), before, orders, seen, now, limit, counted, count);
    }

    /** The oldest command of one class this device could be sent. */
    method FindOldest(device: string, now: int, high: bool) returns (found: Option<nat>)
      ensures found.None? ==> forall j :: 0 <= j < |orders| ==> !Candidate(orders[j].command, device, now, high)
      ensures found.Some? ==> OldestCandidate(orders, device, now, high, found.value)
    {
      found := None;
      var k := 0;
      while k < |orders|
        invariant 0 <= k <= |orders|
        invariant found.None? ==> forall j :: 0 <= j < k ==> !Candidate(orders[j].command, device, now, high)
        invariant found.Some? ==> found.value < k && Candidate(orders[found.value].command, device, now, high)
        invariant found.Some? ==> forall j :: 0 <= j < k && Candidate(orders[j].command, device, now, high)
                                    ==> orders[found.value].command.createdAt <= orders[j].command.createdAt
      {
        if Candidate(orders[k].command, device, now, high)
           && (found.None? || orders[k].command.createdAt < orders[found.value].command.createdAt) {
          found := Some(k);
        }
        k := k + 1;
      }
    }

    method AnyFresh(device: string, now: int) returns (inFlight: bool)
      ensures inFlight <==> exists j :: 0 <= j < |orders| && FreshlyDelivered(orders[j].command, device, now)
    {
      inFlight := false;
      var k := 0;
      while k < |orders|
        invariant 0 <= k <= |orders|
        invariant inFlight <==> exists j :: 0 <= j < k && FreshlyDelivered(orders[j].command, device, now)
      {
        if FreshlyDelivered(orders[k].command, device, now) {
          return true;
        }
        k := k + 1;
      }
    }

    /** Claim the next command for one device, if the gate lets it go. */
    method ClaimNext(device: string, now: int, accountReady: bool, gate: DeliveryGate) returns (sent: Option<nat>)
      modifies this
      ensures |orders| == |old(orders)|
      ensures sent.Some? ==> Claimable(old(orders), device, now, sent.value) && orders[sent.value].command.status.Delivered?
      ensures orders == old(orders)
              || exists k: nat :: Claimable(old(orders), device, now, k)
                             && orders == old(orders)[k := DeliverStep(old(orders)[k], now, gate)]
      ensures sent.None? && accountReady && gate.payloadValid && gate.deviceLive && gate.sessionCurrent ==>
                forall k: nat :: !Claimable(old(orders), device, now, k)
    {
      var found := FindOldest(device, now, true);
      if found.None? {
        var inFlight := AnyFresh(device, now);
        if inFlight {
          return None;
        }
        found := FindOldest(device, now, false);
        if found.None? || (!accountReady && orders[found.value].command.kind.PlaceOrder? && orders[found.value].command.live) {
          return None;
        }
      }
      var k := found.value;
      assert Claimable(orders, device, now, k);
      var locked := new LockedOrder(orders[k]);
      var claimed := locked.ClaimForDelivery(now, gate);
      orders := orders[k := Rows(locked.command, locked.pending, locked.correlation, locked.intent, locked.batch, locked.events)];
      sent := if claimed then Some(k) else None;
    }
  }

  // ---------------------------------------------------------------------------------------
  // Batches

  /** A prefix of the sorted candidates. */
  ghost predicate Partial(orders: seq<Rows>, now: int, chosen: seq<nat>) {
    && (forall i :: 0 <= i < |chosen| ==> chosen[i] in DueSet(orders, now))
    && (forall i, j :: 0 <= i < j < |chosen| ==> chosen[i] != chosen[j])
    && (forall i, k :: 0 <= i < |chosen| && k in DueSet(orders, now) && k !in chosen
          ==> Sooner(orders[chosen[i]].command, orders[k].command))
  }

  /** Exactly the stuck rows are still due after a sweep, which leaves them as they were. */
  lemma StuckExact(r: Rows, now: int)
    ensures Stuck(r, now) <==> Due(r.command, now) && Due(SweepStep(r, now).command, now)
    ensures Stuck(r, now) ==> SweepStep(r, now) == r
  {
    if Due(r.command, now) && r.command.kind.PlaceOrder? {
      SweepKeepsOnlyReplays(r, now);
    }
  }

  lemma SweepKeepsOnlyReplays(r: Rows, now: int)
    requires Due(r.command, now) && r.command.kind.PlaceOrder?
    ensures var q := ExpiryRequest(r.command.status, now);
            if OwnerChainValid(r) && FinishedReplay(r, q.status, q.reason) then Transition(r, q) == r
            else Settled(Transition(r, q).command.status)
  {
  }

  /** Sweeping a row once more at the same time changes nothing. */
  lemma SweepIdempotent(r: Rows, now: int)
    ensures SweepStep(SweepStep(r, now), now) == SweepStep(r, now)
  {
    StuckExact(r, now);
    if Due(r.command, now) && r.command.kind.PlaceOrder? {
      SweepKeepsOnlyReplays(r, now);
    }
  }

  lemma DistinctCover(s: set<nat>, chosen: seq<nat>)
    requires forall i, j :: 0 <= i < j < |chosen| ==> chosen[i] != chosen[j]
    requires forall k :: k in s <==> k in chosen
    ensures |s| == |chosen|
  {
    if chosen != [] {
      var last := chosen[|chosen| - 1];
      var rest := chosen[..|chosen| - 1];
      assert chosen == rest + [last];
      forall k ensures k in s - {last} <==> k in rest {}
      DistinctCover(s - {last}, rest);
    } else {
      assert s == {};
    }
  }

  /** What a sweep does to one row, as far as batches care. */
  lemma RowCleared(r: Rows, now: int)
    ensures Stuck(SweepStep(r, now), now) <==> Stuck(r, now)
    ensures Due(SweepStep(r, now).command, now) <==> Stuck(r, now)
  {
    SweepIdempotent(r, now);
    StuckExact(r, now);
    StuckExact(SweepStep(r, now), now);
  }

  /** A batch clears exactly its rows that are not stuck. */
  lemma BatchClearsRows(before: seq<Rows>, after: seq<Rows>, now: int, chosen: seq<nat>)
    requires forall i :: 0 <= i < |chosen| ==> chosen[i] in DueSet(before, now)
    requires SweptOnly(before, after, now, chosen)
    ensures StuckSet(after, now) == StuckSet(before, now)
    ensures DueSet(after, now) == DueSet(before, now) - ((set k | k in chosen) - StuckSet(before, now))
  {
    forall k: nat | k < |before|
      ensures k in StuckSet(after, now) <==> k in StuckSet(before, now)
      ensures k in DueSet(after, now) <==> k in DueSet(before, now) && (k !in chosen || k in StuckSet(before, now))
    {
      if k in chosen {
        RowCleared(before[k], now);
      }
    }
  }

  lemma BatchArithmetic(due: set<nat>, stuck: set<nat>, picked: set<nat>, limit: nat)
    requires picked <= due && stuck <= due
    requires |picked| == limit || due <= picked
    requires |picked| <= limit
    ensures |due - (picked - stuck)| + |picked| >= |due|
    ensures |picked| < limit ==> due - (picked - stuck) == stuck && |picked| == |due|
    ensures |picked| == limit && |stuck| < limit ==> |due - (picked - stuck)| < |due|
    ensures |stuck| >= limit ==> |picked| == limit
  {
    var cleared := picked - stuck;
    assert due == (due - cleared) + cleared;
    SubsetSmaller(cleared, picked);
    if |picked| == limit && |stuck| < limit && cleared == {} {
      SubsetSmaller(picked, stuck);
    }
    if |picked| < limit {
      assert picked == due;
      SubsetSmaller(stuck, picked);
    }
  }

  lemma BatchClears(before: seq<Rows>, after: seq<Rows>, now: int, limit: nat, count: nat)
    requires BatchStep(before, after, now, limit, count)
    ensures |after| == |before|
    ensures StuckSet(after, now) == StuckSet(before, now)
    ensures DueSet(after, now) <= DueSet(before, now)
    ensures |DueSet(after, now)| + count >= |DueSet(before, now)|
    ensures count < limit ==> DueSet(after, now) == StuckSet(before, now) && count == |DueSet(before, now)|
    ensures count == limit && |StuckSet(before, now)| < limit ==> |DueSet(after, now)| < |DueSet(before, now)|
    ensures |StuckSet(before, now)| >= limit ==> count == limit
  {
    var chosen :| BatchOf(before, now, limit, chosen) && SweptOnly(before, after, now, chosen) && count == |chosen|;
    var picked := set k | k in chosen;
    DistinctCover(picked, chosen);
    BatchClearsRows(before, after, now, chosen);
    BatchArithmetic(DueSet(before, now), StuckSet(before, now), picked, limit);
  }

  lemma SubsetSmaller(a: set<nat>, b: set<nat>)
    requires a <= b
    ensures |a| <= |b|
  {
    assert b == a + (b - a);
  }

  /** Whatever this says of the rows, the times and the count, every batch keeps it. */
  ghost predicate Kept<R(!new)>(progress: (R, seq<int>, nat, bool) -> bool, batch: (R, R, int, nat) -> bool, limit: nat) {
    forall before: R, after: R, seen, now, counted: nat, count: nat ::
      progress(before, seen, counted, false) && batch(before, after, now, count)
      ==> progress(after, seen + [now], counted + count, count < limit)
  }

  lemma OneKept<R(!new)>(
    progress: (R, seq<int>, nat, bool) -> bool, batch: (R, R, int, nat) -> bool, before: R, after: R, seen: seq<int>, now: int,
    limit: nat, counted: nat, count: nat)
    requires Kept(progress, batch, limit)
    requires progress(before, seen, counted, false) && batch(before, after, now, count)
    ensures progress(after, seen + [now], counted + count, count < limit)
  {
  }

  ghost function Batching(limit: nat): (seq<Rows>, seq<Rows>, int, nat) -> bool {
    (before: seq<Rows>, after: seq<Rows>, now: int, count: nat) => BatchStep(before, after, now, limit, count)
  }

  ghost function Progress(start: seq<Rows>, limit: nat): (seq<Rows>, seq<int>, nat, bool) -> bool {
    (current: seq<Rows>, seen: seq<int>, counted: nat, over: bool) => SweepProgress(start, current, seen, counted, over, limit)
  }

  lemma ProgressIsKept(start: seq<Rows>, limit: nat)
    ensures Kept(Progress(start, limit), Batching(limit), limit)
  {
    var progress, batch := Progress(start, limit), Batching(limit);
    forall before: seq<Rows>, after: seq<Rows>, seen, now, counted: nat, count: nat |
      progress(before, seen, counted, false) && batch(before, after, now, count)
      ensures progress(after, seen + [now], counted + count, count < limit)
    {
      OneMoreBatch(start, before, after, seen, now, counted, limit, count);
    }
  }

  /** A batch holds at least one row. */
  function EffectiveBatch(batchSize: int): nat {
    if batchSize > 1 then batchSize else 1
  }

  ghost function LiveSet(orders: seq<Rows>): set<nat> {
    set k: nat | k < |orders| && Live(orders[k].command.status)
  }

  /** At no time of the sweep are as many rows stuck as a batch holds. */
  ghost predicate NeverFull(orders: seq<Rows>, times: seq<int>, limit: nat) {
    forall i :: 0 <= i < |times| ==> |StuckSet(orders, times[i])| < limit
  }

  /** The row was due at one of the times, was swept then, and is settled since. */
  ghost predicate SweptOnce(before: Rows, after: Rows, times: seq<int>) {
    exists i :: 0 <= i < |times| && Due(before.command, times[i]) && after == SweepStep(before, times[i]) && !Live(after.command.status)
  }

  /** Every row is untouched or was swept exactly once. */
  ghost predicate SweptSome(start: seq<Rows>, current: seq<Rows>, times: seq<int>) {
    |current| == |start| && forall k :: 0 <= k < |start| ==> current[k] == start[k] || SweptOnce(start[k], current[k], times)
  }

  /** At `now` nothing is due but the stuck rows, and every other row due by then was swept. */
  ghost predicate SweptAt(start: seq<Rows>, current: seq<Rows>, times: seq<int>, now: int) {
    && |current| == |start| && DueSet(current, now) == StuckSet(start, now)
    && forall k :: 0 <= k < |start| && Due(start[k].command, now) && !Stuck(start[k], now) ==> SweptOnce(start[k], current[k], times)
  }

  /** Where a sweep stands after batches at these times. */
  ghost predicate SweepProgress(start: seq<Rows>, current: seq<Rows>, times: seq<int>, total: nat, ended: bool, limit: nat) {
    && SweptSome(start, current, times)
    && total + |LiveSet(current)| >= |LiveSet(start)|
    && (ended ==> times != [] && SweptAt(start, current, times, times[|times| - 1]) && |StuckSet(start, times[|times| - 1])| < limit)
    && (!ended && NeverFull(start, times, limit) ==> |times| + |LiveSet(current)| <= |LiveSet(start)|)
  }

  lemma NothingSweptYet(start: seq<Rows>, limit: nat)
    ensures SweepProgress(start, start, [], 0, false, limit)
  {
  }

  lemma OneMoreBatch(
    start: seq<Rows>, before: seq<Rows>, after: seq<Rows>, times: seq<int>, now: int, total: nat, limit: nat, count: nat)
    requires SweepProgress(start, before, times, total, false, limit) && BatchStep(before, after, now, limit, count)
    ensures SweepProgress(start, after, times + [now], total + count, count < limit, limit)
  {
    SweptMore(start, before, after, times, now, limit, count);
    NeverFullSoFar(start, times, now, limit);
  }

  lemma NeverFullSoFar(start: seq<Rows>, times: seq<int>, now: int, limit: nat)
    ensures NeverFull(start, times + [now], limit) <==> NeverFull(start, times, limit) && |StuckSet(start, now)| < limit
  {
    var all := times + [now];
    assert all[|times|] == now;
    assert forall i :: 0 <= i < |times| ==> all[i] == times[i];
  }

  /** A row swept once was not stuck then, and is never stuck after. */
  lemma SweptIsNotStuck(before: Rows, after: Rows, times: seq<int>, t: int)
    requires SweptOnce(before, after, times)
    ensures !Stuck(before, t) && !Stuck(after, t)
  {
    var i :| 0 <= i < |times| && Due(before.command, times[i]) && after == SweepStep(before, times[i]) && !Live(after.command.status);
    StuckExact(before, times[i]);
  }

  lemma SweptSameStuck(start: seq<Rows>, current: seq<Rows>, times: seq<int>, t: int)
    requires SweptSome(start, current, times)
    ensures StuckSet(current, t) == StuckSet(start, t)
  {
    forall k: nat | k < |start| ensures Stuck(current[k], t) <==> Stuck(start[k], t) {
      if current[k] != start[k] {
        SweptIsNotStuck(start[k], current[k], times, t);
      }
    }
  }

  /** A later time finds at least as many rows stuck. */
  lemma StuckGrows(orders: seq<Rows>, earlier: int, later: int)
    requires earlier <= later
    ensures StuckSet(orders, earlier) <= StuckSet(orders, later)
    ensures |StuckSet(orders, earlier)| <= |StuckSet(orders, later)|
  {
    SubsetSmaller(StuckSet(orders, earlier), StuckSet(orders, later));
  }

  lemma SweptOnceLater(before: Rows, after: Rows, times: seq<int>, now: int)
    requires SweptOnce(before, after, times)
    ensures SweptOnce(before, after, times + [now])
  {
    var i :| 0 <= i < |times| && Due(before.command, times[i]) && after == SweepStep(before, times[i]) && !Live(after.command.status);
    assert (times + [now])[i] == times[i];
  }

  lemma SweptNow(before: Rows, times: seq<int>, now: int)
    requires Due(before.command, now) && !Stuck(before, now)
    ensures SweptOnce(before, SweepStep(before, now), times + [now])
  {
    RowCleared(before, now);
    SweepKeepsIdentity(before, now);
    assert (times + [now])[|times|] == now;
  }

  /** What one more batch does to the rows the sweep started with. */
  lemma SweptMore(start: seq<Rows>, before: seq<Rows>, after: seq<Rows>, times: seq<int>, now: int, limit: nat, count: nat)
    requires SweptSome(start, before, times) && BatchStep(before, after, now, limit, count)
    ensures SweptSome(start, after, times + [now])
    ensures |LiveSet(after)| + count >= |LiveSet(before)|
    ensures count < limit ==> SweptAt(start, after, times + [now], now) && |StuckSet(start, now)| < limit
    ensures count >= limit && |StuckSet(start, now)| < limit ==> |LiveSet(after)| < |LiveSet(before)|
  {
    BatchClears(before, after, now, limit, count);
    BatchLive(before, after, now, limit, count);
    SweptSameStuck(start, before, times, now);
    SweptRows(start, before, after, times, now, limit, count);
    if count < limit {
      SweptSameStuck(start, after, times + [now], now);
      AllDueSwept(start, after, times + [now], now);
    }
  }

  lemma SweptRows(start: seq<Rows>, before: seq<Rows>, after: seq<Rows>, times: seq<int>, now: int, limit: nat, count: nat)
    requires SweptSome(start, before, times) && BatchStep(before, after, now, limit, count)
    ensures SweptSome(start, after, times + [now])
  {
    var chosen :| BatchOf(before, now, limit, chosen) && SweptOnly(before, after, now, chosen) && count == |chosen|;
    forall k: nat | k < |start| ensures after[k] == start[k] || SweptOnce(start[k], after[k], times + [now]) {
      if before[k] != start[k] {
        SweptOnceLater(start[k], before[k], times, now);
        assert k !in DueSet(before, now);
      } else if k in chosen {
        assert k in DueSet(before, now);
        if Stuck(start[k], now) {
          StuckExact(start[k], now);
        } else {
          SweptNow(start[k], times, now);
        }
      }
    }
  }

  lemma AllDueSwept(start: seq<Rows>, current: seq<Rows>, times: seq<int>, now: int)
    requires SweptSome(start, current, times) && DueSet(current, now) == StuckSet(start, now)
    ensures SweptAt(start, current, times, now)
  {
    forall k: nat | k < |start| && Due(start[k].command, now) && !Stuck(start[k], now) ensures SweptOnce(start[k], current[k], times) {
      assert k !in StuckSet(start, now);
      assert k in DueSet(current, now) <==> Due(current[k].command, now);
    }
  }

  /** A batch settles exactly the rows it takes out of the due ones. */
  lemma BatchLive(before: seq<Rows>, after: seq<Rows>, now: int, limit: nat, count: nat)
    requires BatchStep(before, after, now, limit, count)
    ensures |LiveSet(before)| - |LiveSet(after)| == |DueSet(before, now)| - |DueSet(after, now)|
  {
    var chosen :| BatchOf(before, now, limit, chosen) && SweptOnly(before, after, now, chosen) && count == |chosen|;
    var cleared := DueSet(before, now) - DueSet(after, now);
    forall k: nat | k < |before|
      ensures k in LiveSet(after) <==> k in LiveSet(before) && k !in cleared
      ensures k in DueSet(after, now) ==> k in DueSet(before, now)
    {
      if k in chosen {
        assert k in DueSet(before, now);
        RowCleared(before[k], now);
        SweepKeepsIdentity(before[k], now);
      }
    }
    assert LiveSet(before) == LiveSet(after) + cleared;
    assert DueSet(before, now) == DueSet(after, now) + cleared;
    assert LiveSet(after) !! cleared;
  }

  /** With at least a batch of stuck rows, every batch comes back full: the sweep loop never ends. */
  lemma {:induction false} StuckRowsKeepSweeping(states: seq<seq<Rows>>, counts: seq<nat>, now: int, limit: nat)
    requires |states| == |counts| + 1
    requires forall i :: 0 <= i < |counts| ==> BatchStep(states[i], states[i + 1], now, limit, counts[i])
    requires |StuckSet(states[0], now)| >= limit
    ensures forall i :: 0 <= i < |counts| ==> counts[i] == limit
  {
    if counts != [] {
      BatchClears(states[0], states[1], now, limit, counts[0]);
      StuckRowsKeepSweeping(states[1..], counts[1..], now, limit);
      assert forall i :: 1 <= i < |counts| ==> counts[i] == counts[1..][i - 1];
    }
  }

  /** A stuck row of a strategy: queued past its expiry, its pending order settled by another writer. */
  function StuckExample(now: int): Rows {
    var owner := Owner(Some(STRATEGY_RUN), "run", Some(LIVE), "run");
    Rows(Command("m", "c", "d", PlaceOrder, true, owner, now - 2, now - 1, Queued, None, None, 0, NoReason),
         Some(Pending(owner, Expired, ExpiredBeforeDelivery, "", "i", "", NoRole, true, true, None, None, Buy, "a", "x", false)),
         Some(Correlation(owner, "", "i", "a", None)),
         Some(Intent("i", owner, Expired, Volume(0), Finite(0.0), false, Buy, "a", "x", "", None, NoReason)),
         None, [])
  }

  lemma ExampleIsStuck(now: int)
    ensures Stuck(StuckExample(now), now)
  {
    var r := StuckExample(now);
    var owner := r.command.owner;
    assert OwnerTriple(owner) == Some(Triple(STRATEGY_RUN, "run", LIVE));
    assert ChainOwners(r) == [owner, owner, owner, owner];
    assert OneOwner(ChainOwners(r));
  }

  /** For every batch size there is an outbox on which the sweep never ends. */
  lemma SweepCanRunForever(now: int, limit: nat) returns (orders: seq<Rows>)
    ensures |orders| == limit && |StuckSet(orders, now)| >= limit
    ensures BatchStep(orders, orders, now, limit, limit)
  {
    orders := seq(limit, i => StuckExample(now));
    ExampleIsStuck(now);
    var all := StuckSet(orders, now);
    var chosen: seq<nat> := seq(limit, i requires 0 <= i < limit => i);
    forall k: nat ensures k in all <==> k in chosen {
      if k < limit {
        assert orders[k] == StuckExample(now) && chosen[k] == k;
      }
    }
    DistinctCover(all, chosen);
    StuckExact(StuckExample(now), now);
    assert BatchOf(orders, now, limit, chosen);
    assert SweptOnly(orders, orders, now, chosen);
  }

  // ---------------------------------------------------------------------------------------
  // The expiry that precedes a claim

  /** A delivery poll expires the device's due rows first; that changes nothing a claim may choose from. */
  lemma ExpiryLeavesClaims(before: seq<Rows>, after: seq<Rows>, now: int, chosen: seq<nat>, device: string, k: nat)
    requires SweptOnly(before, after, now, chosen)
    ensures Claimable(after, device, now, k) <==> Claimable(before, device, now, k)
    ensures Claimable(before, device, now, k) ==> after[k] == before[k]
  {
    forall j | 0 <= j < |before|
      ensures forall high :: Candidate(after[j].command, device, now, high) <==> Candidate(before[j].command, device, now, high)
      ensures FreshlyDelivered(after[j].command, device, now) <==> FreshlyDelivered(before[j].command, device, now)
      ensures before[j].command.expiresAt > now ==> after[j] == before[j]
    {
      SweepKeepsIdentity(before[j], now);
    }
  }

  lemma SweepKeepsIdentity(r: Rows, now: int)
    ensures SweepStep(r, now).command.expiresAt == r.command.expiresAt
    ensures r.command.expiresAt > now ==> SweepStep(r, now) == r
  {
  }
}
