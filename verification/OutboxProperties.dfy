/**
  Orders leave one at a time, oldest first.  Every device has at most one order in flight, over
  every run in which creation times increase, the clock does not go back and the Agent reports no
  order as processing before its turn.
 */
module OutboxProperties {
  import opened Prelude
  import opened TradeRows
  import opened PlaceOrderTransition
  import opened Lifecycle
  import opened LifecycleProperties
  import opened Outbox

  datatype State = State(orders: seq<Rows>, clock: int)

  datatype Move =
    | Enqueue(order: Rows)
    | Acknowledge(k: nat, a: Ack)
    | Expire(k: nat, at: int)
    | Claim(k: nat, device: string, at: int, gate: DeliveryGate)
    | Send(k: nat, send: SendGate)
    | WriteElsewhere(k: nat, foreign: Step)

  function TimeOf(m: Move, clock: int): int {
    match m
    case Enqueue(_) => clock
    case Acknowledge(_, a) => a.now
    case Expire(_, at) => at
    case Claim(_, _, at, _) => at
    case Send(_, send) => send.now
    case WriteElsewhere(_, _) => clock
  }

  /** Another order of the same device that is outstanding with k at that time. */
  predicate Rivals(s: State, k: nat, j: nat, now: int)
    requires k < |s.orders|
  {
    && j < |s.orders| && j != k
    && Outstanding(s.orders[k].command, s.orders[k].command.deviceId, now)
    && Outstanding(s.orders[j].command, s.orders[k].command.deviceId, now)
  }

  predicate BehindOf(first: Command, later: Command) {
    !later.status.Delivered? && (later.status.Queued? ==> first.createdAt < later.createdAt)
  }

  /** No outstanding order of its device is in flight, and none queued is older. */
  ghost predicate NextInLine(s: State, k: nat, now: int)
    requires k < |s.orders|
  {
    forall j: nat :: Rivals(s, k, j, now) ==> BehindOf(s.orders[k].command, s.orders[j].command)
  }

  /** What may happen next; only the Agent and the producer are constrained. */
  ghost predicate Legal(s: State, m: Move) {
    && TimeOf(m, s.clock) >= s.clock
    && (!m.Enqueue? ==> m.k < |s.orders|)
    && match m
       case Enqueue(order) =>
         && order.command.status.Queued? && order.command.attempts == 0
         && forall j :: 0 <= j < |s.orders| ==> s.orders[j].command.createdAt < order.command.createdAt
       case Acknowledge(k, a) => a.reason.CommandProcessing? && s.orders[k].command.status.Queued? ==> NextInLine(s, k, a.now)
       case Expire(k, _) => true
       case Claim(k, device, at, _) => Claimable(s.orders, device, at, k)
       case Send(k, _) => true
       case WriteElsewhere(k, foreign) => foreign.Elsewhere?
  }

  ghost function Next(s: State, m: Move): State
    requires Legal(s, m)
  {
    var orders := match m
      case Enqueue(order) => s.orders + [order]
      case Acknowledge(k, a) => s.orders[k := AckStep(s.orders[k], a)]
      case Expire(k, at) => s.orders[k := SweepStep(s.orders[k], at)]
      case Claim(k, _, at, gate) => s.orders[k := DeliverStep(s.orders[k], at, gate)]
      case Send(k, send) => s.orders[k := SendStep(s.orders[k], send)]
      case WriteElsewhere(k, foreign) => s.orders[k := Apply(s.orders[k], foreign)];
    State(orders, TimeOf(m, s.clock))
  }

  /** An order, not a cancel or emergency stop, of this device that has not expired. */
  predicate Outstanding(c: Command, device: string, clock: int) {
    c.deviceId == device && !HighPriority(c) && c.expiresAt > clock
  }

  /** The one in flight, if any, is alone and older than everything still queued. */
  ghost predicate OneInFlight(s: State) {
    forall device, i, j :: 0 <= i < |s.orders| && 0 <= j < |s.orders| && i != j
      && Outstanding(s.orders[i].command, device, s.clock) && Outstanding(s.orders[j].command, device, s.clock)
      && s.orders[i].command.status.Delivered?
      ==> !s.orders[j].command.status.Delivered?
          && (s.orders[j].command.status.Queued? ==> s.orders[i].command.createdAt < s.orders[j].command.createdAt)
  }

  ghost predicate CreatedInOrder(s: State) {
    forall i, j :: 0 <= i < j < |s.orders| ==> s.orders[i].command.createdAt < s.orders[j].command.createdAt
  }

  ghost predicate QueuedUnsent(s: State) {
    forall i :: 0 <= i < |s.orders| && s.orders[i].command.status.Queued? ==> s.orders[i].command.attempts == 0
  }

  ghost predicate Ordered(s: State) {
    CreatedInOrder(s) && QueuedUnsent(s) && OneInFlight(s)
  }

  /** A command that keeps its identity and either its status or loses its claim on delivery. */
  ghost predicate Quiet(before: Command, after: Command) {
    && after.deviceId == before.deviceId && after.kind == before.kind
    && after.createdAt == before.createdAt && after.expiresAt == before.expiresAt
    && after.attempts == before.attempts
    && (after.status == before.status || !Live(after.status))
  }

  lemma TransitionQuiet(r: Rows, q: Request)
    requires Settled(q.status)
    ensures Quiet(r.command, Transition(r, q).command)
  {
  }

  lemma AckQuiet(r: Rows, a: Ack)
    requires a.reason.CommandProcessing? ==> !r.command.status.Queued?
    ensures Quiet(r.command, AckStep(r, a).command)
  {
    var stamped := r.(command := r.command.(acknowledgedAt := Some(a.now)));
    if AckRequest(r.command.status, a).Some? {
      TransitionQuiet(stamped, AckRequest(r.command.status, a).value);
    }
  }

  lemma SweepQuiet(r: Rows, now: int)
    ensures Quiet(r.command, SweepStep(r, now).command)
  {
    TransitionQuiet(r, ExpiryRequest(r.command.status, now));
  }

  lemma SendQuiet(r: Rows, g: SendGate)
    ensures Quiet(r.command, SendStep(r, g).command)
  {
    TransitionQuiet(r, Request(Expired, PhysicalSendCancelled, true, g.now));
  }

  /** Replacing one row by a quiet one, with time moving on, keeps the order of delivery. */
  lemma QuietKeepsOrder(s: State, k: nat, row: Rows, clock: int)
    requires Ordered(s) && k < |s.orders| && clock >= s.clock
    requires Quiet(s.orders[k].command, row.command)
    ensures Ordered(State(s.orders[k := row], clock))
  {
    var after := s.orders[k := row];
    forall device, i, j | 0 <= i < |after| && 0 <= j < |after| && i != j
      && Outstanding(after[i].command, device, clock) && Outstanding(after[j].command, device, clock)
      && after[i].command.status.Delivered?
      ensures !after[j].command.status.Delivered?
      ensures after[j].command.status.Queued? ==> after[i].command.createdAt < after[j].command.createdAt
    {
      assert Outstanding(s.orders[i].command, device, s.clock) && Outstanding(s.orders[j].command, device, s.clock);
    }
  }

  /** Claiming a row the poll may claim keeps the order of delivery. */
  lemma ClaimKeepsOrder(s: State, k: nat, device: string, at: int, gate: DeliveryGate)
    requires Ordered(s) && at >= s.clock && Claimable(s.orders, device, at, k)
    ensures Ordered(State(s.orders[k := DeliverStep(s.orders[k], at, gate)], at))
  {
    var row := DeliverStep(s.orders[k], at, gate);
    var after := s.orders[k := row];
    if Quiet(s.orders[k].command, row.command) {
      QuietKeepsOrder(s, k, row, at);
    } else {
      forall d, i, j | 0 <= i < |after| && 0 <= j < |after| && i != j
        && Outstanding(after[i].command, d, at) && Outstanding(after[j].command, d, at)
        && after[i].command.status.Delivered?
        ensures !after[j].command.status.Delivered?
        ensures after[j].command.status.Queued? ==> after[i].command.createdAt < after[j].command.createdAt
      {
        assert Outstanding(s.orders[i].command, d, s.clock) && Outstanding(s.orders[j].command, d, s.clock);
        if i == k {
          ClaimedIsOldest(s, k, j, device, at);
        } else if j == k {
          ClaimedIsOldest(s, k, i, device, at);
        }
      }
    }
  }

  lemma ClaimedIsOldest(s: State, k: nat, j: nat, device: string, at: int)
    requires Ordered(s) && at >= s.clock && OldestCandidate(s.orders, device, at, false, k)
    requires forall i :: 0 <= i < |s.orders| ==> !FreshlyDelivered(s.orders[i].command, device, at)
    requires j < |s.orders| && j != k && Outstanding(s.orders[j].command, device, at)
    ensures !s.orders[j].command.status.Delivered?
    ensures s.orders[j].command.status.Queued? ==> s.orders[k].command.createdAt < s.orders[j].command.createdAt
  {
    var a, b := s.orders[k].command, s.orders[j].command;
    assert a.createdAt != b.createdAt by {
      if k < j { assert a.createdAt < b.createdAt; } else { assert b.createdAt < a.createdAt; }
    }
    assert Outstanding(a, device, s.clock) && Outstanding(b, device, s.clock);
    assert Live(b.status) ==> Candidate(b, device, at, false);
  }

  lemma MoveKeepsOrder(s: State, m: Move)
    requires Ordered(s) && Legal(s, m)
    ensures Ordered(Next(s, m))
  {
    match m
    case Enqueue(order) =>
    case Acknowledge(k, a) =>
      if a.reason.CommandProcessing? && s.orders[k].command.status.Queued? {
        ProcessingExact(s, k, a);
      } else {
        AckQuiet(s.orders[k], a);
        QuietKeepsOrder(s, k, AckStep(s.orders[k], a), a.now);
      }
    case Expire(k, at) =>
      SweepQuiet(s.orders[k], at);
      QuietKeepsOrder(s, k, SweepStep(s.orders[k], at), at);
    case Claim(k, device, at, gate) =>
      ClaimKeepsOrder(s, k, device, at, gate);
    case Send(k, send) =>
      SendQuiet(s.orders[k], send);
      QuietKeepsOrder(s, k, SendStep(s.orders[k], send), send.now);
    case WriteElsewhere(k, foreign) =>
      QuietKeepsOrder(s, k, Apply(s.orders[k], foreign), s.clock);
  }

  ghost predicate IsRun(states: seq<State>, moves: seq<Move>) {
    && |states| == |moves| + 1
    && forall i :: 0 <= i < |moves| ==> Legal(states[i], moves[i]) && states[i + 1] == Next(states[i], moves[i])
  }

  /** Over every legal run from an empty outbox, at every moment, each device has at most one order in flight. */
  lemma {:induction false} OneInFlightAlways(states: seq<State>, moves: seq<Move>, n: nat)
    requires IsRun(states, moves) && n < |states|
    requires states[0].orders == []
    ensures Ordered(states[n])
  {
    if n > 0 {
      OneInFlightAlways(states, moves, n - 1);
      MoveKeepsOrder(states[n - 1], moves[n - 1]);
    }
  }

  /** An Agent that acknowledges only what it was sent never breaks the rule. */
  lemma SentAckIsLegal(s: State, k: nat, a: Ack)
    requires Ordered(s) && k < |s.orders| && s.orders[k].command.attempts > 0 && a.now >= s.clock
    ensures Legal(s, Acknowledge(k, a))
  {
  }

  /** Reporting a queued order as processing keeps one order in flight exactly when it is the next in line. */
  lemma ProcessingExact(s: State, k: nat, a: Ack)
    requires Ordered(s) && k < |s.orders| && s.orders[k].command.status.Queued?
    requires a.reason.CommandProcessing? && a.now >= s.clock
    ensures Ordered(State(s.orders[k := AckStep(s.orders[k], a)], a.now)) <==> NextInLine(s, k, a.now)
    ensures OneInFlight(State(s.orders[k := AckStep(s.orders[k], a)], a.now)) <==> NextInLine(s, k, a.now)
  {
    var row := AckStep(s.orders[k], a);
    var after := State(s.orders[k := row], a.now);
    ProcessingDelivers(s.orders[k], a);
    if NextInLine(s, k, a.now) {
      NextInLineKeepsOrder(s, k, row, a.now);
    } else {
      JumpingTheQueue(s, k, row, a.now);
    }
  }

  lemma ProcessingDelivers(r: Rows, a: Ack)
    requires r.command.status.Queued? && a.reason.CommandProcessing?
    ensures var c := AckStep(r, a).command;
            c.status.Delivered? && c.deviceId == r.command.deviceId && c.kind == r.command.kind
            && c.createdAt == r.command.createdAt && c.expiresAt == r.command.expiresAt
  {
  }

  /** The same order, now counted as delivered. */
  predicate NowDelivered(before: Command, after: Command) {
    && after.status.Delivered? && after.deviceId == before.deviceId && after.kind == before.kind
    && after.createdAt == before.createdAt && after.expiresAt == before.expiresAt
  }

  lemma NextInLineKeepsOrder(s: State, k: nat, row: Rows, now: int)
    requires Ordered(s) && k < |s.orders| && now >= s.clock && NowDelivered(s.orders[k].command, row.command)
    requires NextInLine(s, k, now)
    ensures Ordered(State(s.orders[k := row], now))
  {
    var after := s.orders[k := row];
    forall device, i, j | 0 <= i < |after| && 0 <= j < |after| && i != j
      && Outstanding(after[i].command, device, now) && Outstanding(after[j].command, device, now)
      && after[i].command.status.Delivered?
      ensures !after[j].command.status.Delivered?
      ensures after[j].command.status.Queued? ==> after[i].command.createdAt < after[j].command.createdAt
    {
      assert Outstanding(s.orders[i].command, device, s.clock) && Outstanding(s.orders[j].command, device, s.clock);
      if i == k {
        assert Rivals(s, k, j, now);
      } else if j == k {
        assert Rivals(s, k, i, now);
      }
    }
  }

  lemma JumpingTheQueue(s: State, k: nat, row: Rows, now: int)
    requires Ordered(s) && k < |s.orders| && NowDelivered(s.orders[k].command, row.command) && !NextInLine(s, k, now)
    ensures !OneInFlight(State(s.orders[k := row], now))
  {
    var j :| 0 <= j < |s.orders| && Rivals(s, k, j, now) && !BehindOf(s.orders[k].command, s.orders[j].command);
    var after := s.orders[k := row];
    var device := s.orders[k].command.deviceId;
    assert Outstanding(after[k].command, device, now) && Outstanding(after[j].command, device, now);
    assert after[j] == s.orders[j];
    assert s.orders[k].command.createdAt != s.orders[j].command.createdAt;
  }

  function SampleOrder(createdAt: int): Rows {
    var owner := Owner(Some(MANUAL_COMMAND), "m", Some(PAPER), "");
    Rows(Command("m", "c", "d", PlaceOrder, false, owner, createdAt, 100, Queued, None, None, 0, NoReason), None, None, None, None, [])
  }

  /** Such a report can come in a run from the empty outbox: the first of two orders was sent, the second is reported. */
  lemma UnsentAckPutsTwoInFlight(a: Ack) returns (states: seq<State>, moves: seq<Move>, k: nat)
    requires a.reason.CommandProcessing? && a.now == 3
    ensures IsRun(states, moves) && states[0] == State([], 0)
    ensures var s := states[|moves|];
            && s.clock == a.now && k < |s.orders| && s.orders[k].command.status.Queued?
            && !OneInFlight(State(s.orders[k := AckStep(s.orders[k], a)], a.now))
  {
    var first, second := SampleOrder(1), SampleOrder(2);
    var gate := DeliveryGate(true, true, true);
    var sent := DeliverStep(first, 3, gate);
    states := [State([], 0), State([first], 0), State([sent], 3), State([sent, second], 3)];
    moves := [Enqueue(first), Claim(0, "d", 3, gate), Enqueue(second)];
    assert OldestCandidate([first], "d", 3, false, 0);
    assert [first][0 := sent] == [sent] && [] + [first] == [first] && [sent] + [second] == [sent, second];
    k := 1;
    var s := states[3];
    var row := AckStep(second, a);
    ProcessingDelivers(second, a);
    var after := s.orders[1 := row];
    assert Outstanding(after[0].command, "d", 3) && Outstanding(after[1].command, "d", 3);
    assert after[0].command.status.Delivered? && after[1].command.status.Delivered?;
  }

  // ---------------------------------------------------------------------------------------
  // The sweep is never stuck on rows only the server wrote

  /** A settled pending order belongs to a command settled the same way. */
  ghost predicate Mirrored(r: Rows) {
    r.command.kind.PlaceOrder?
    && (r.pending.Some? && PreExecutionStatus(r.pending.value.status) ==> r.command.status == r.pending.value.status)
  }

  lemma TransitionMirrors(r: Rows, q: Request)
    requires Mirrored(r)
    ensures Mirrored(Transition(r, q))
  {
  }

  lemma {:induction false} OwnRunsAreMirrored(r: Rows, steps: seq<Step>)
    requires Mirrored(r)
    requires forall i :: 0 <= i < |steps| ==> !steps[i].Elsewhere?
    ensures Mirrored(Run(r, steps))
    ensures forall now :: !Stuck(Run(r, steps), now)
  {
    if steps != [] {
      var before := Run(r, steps[..|steps| - 1]);
      var s := steps[|steps| - 1];
      OwnRunsAreMirrored(r, steps[..|steps| - 1]);
      MirrorStep(before, s);
    }
    forall now ensures !Stuck(Run(r, steps), now) {
      MirroredIsNotStuck(Run(r, steps), now);
    }
  }

  lemma MirrorStep(r: Rows, s: Step)
    requires Mirrored(r) && !s.Elsewhere?
    ensures Mirrored(Apply(r, s))
  {
    match s
    case Acked(a) =>
      var stamped := r.(command := r.command.(acknowledgedAt := Some(a.now)));
      assert Mirrored(stamped);
      if AckRequest(r.command.status, a).Some? {
        TransitionMirrors(stamped, AckRequest(r.command.status, a).value);
      }
    case Swept(now) =>
      TransitionMirrors(r, ExpiryRequest(r.command.status, now));
    case Claimed(now, gate) =>
    case Sent(gate) =>
      TransitionMirrors(r, Request(Expired, PhysicalSendCancelled, true, gate.now));
  }

  lemma MirroredIsNotStuck(r: Rows, now: int)
    requires Mirrored(r)
    ensures !Stuck(r, now)
  {
    if Due(r.command, now) {
      var q := ExpiryRequest(r.command.status, now);
      assert !Decide(r, q).Keep?;
    }
  }
}
