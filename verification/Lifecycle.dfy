/**
  The four ways the server itself moves a command: an Agent acknowledgement, the expiry sweep,
  a delivery claim and the physical-send gate.  Each is a function of the order's rows; class
  `LockedOrder` performs it on the locked rows.
 */
module Lifecycle {
  import opened Prelude
  import opened TradeRows
  import opened PlaceOrderTransition

  /** Microseconds between two delivery attempts of one unacknowledged command. */
  const REDELIVERY_MICROS := 10_000_000

  datatype Ack = Ack(accepted: bool, reason: Reason, now: int)

  datatype DeliveryGate = DeliveryGate(payloadValid: bool, deviceLive: bool, sessionCurrent: bool)

  /** What the account, payload and exit-plan checks answer at the physical send. */
  datatype SendGate = SendGate(
    payloadUnchanged: bool, accountReady: bool, exactPlace: bool, bindingExact: bool, exitPlanOpen: bool, now: int)

  predicate Live(s: Status) {
    s.Queued? || s.Delivered?
  }

  predicate Settled(s: Status) {
    s.ReconcileRequired? || s.Expired? || s.Rejected?
  }

  // ---------------------------------------------------------------------------------------
  // Acknowledgement

  /** The outcome an acknowledgement asks the transition for, if it asks for one. */
  function AckRequest(previous: Status, a: Ack): Option<Request> {
    if a.accepted then
      if previous.Acknowledged? || previous.ReconcileRequired? || Live(previous) then None
      else Some(Request(ReconcileRequired, AcceptedAckConflict, false, a.now))
    else if previous.Acknowledged? then
      Some(Request(ReconcileRequired, if a.reason.NoReason? then RejectedAckConflict else a.reason, false, a.now))
    else if (previous.Expired? && a.reason.CommandExpired?)
         || (previous.Rejected? && PreExecutionRejection(a.reason) && !a.reason.CommandExpired?) then None
    else if PreExecutionRejection(a.reason) then
      Some(Request(if a.reason.CommandExpired? then Expired else Rejected, a.reason, true, a.now))
    else
      Some(Request(ReconcileRequired, if a.reason.NoReason? then IndeterminateRejection else a.reason, false, a.now))
  }

  /** A command that is not a PLACE_ORDER takes the Agent's word. */
  function AckControl(c: Command, a: Ack): Command {
    if a.accepted then c.(status := Acknowledged, lastError := a.reason)
    else if PreExecutionRejection(a.reason) then
      c.(status := if a.reason.CommandExpired? then Expired else Rejected, lastError := a.reason)
    else
      c.(status := ReconcileRequired,
         lastError := if a.reason.NoReason? then IndeterminateCancelRejection else a.reason)
  }

  ghost function AckStep(r: Rows, a: Ack): Rows {
    var c := r.command;
    if a.reason.CommandProcessing? then
      if Live(c.status)
      then r.(command := c.(status := Delivered, deliveredAt := Some(a.now), acknowledgedAt := None, lastError := a.reason))
      else r
    else
      var stamped := r.(command := c.(acknowledgedAt := Some(a.now)));
      if !c.kind.PlaceOrder? then stamped.(command := AckControl(stamped.command, a))
      else if AckRequest(c.status, a).Some? then Transition(stamped, AckRequest(c.status, a).value)
      else if a.accepted && c.status.ReconcileRequired? then stamped
      else if a.accepted && Live(c.status) then
        stamped.(command := stamped.command.(status := Acknowledged, lastError := a.reason))
      else stamped.(command := stamped.command.(lastError := a.reason))
  }

  // ---------------------------------------------------------------------------------------
  // Expiry

  predicate Due(c: Command, now: int) {
    Live(c.status) && c.expiresAt <= now
  }

  function ExpiryRequest(previous: Status, now: int): Request {
    if previous.Queued? then Request(Expired, ExpiredBeforeDelivery, true, now)
    else Request(ReconcileRequired, DeliveredExpiredWithoutAck, false, now)
  }

  ghost function SweepStep(r: Rows, now: int): Rows {
    var c := r.command;
    if !Due(c, now) then r
    else
      var q := ExpiryRequest(c.status, now);
      if c.kind.PlaceOrder? then Transition(r, q)
      else r.(command := c.(status := q.status, lastError := q.reason))
  }

  // ---------------------------------------------------------------------------------------
  // Delivery

  predicate Deliverable(c: Command, now: int) {
    && c.expiresAt > now
    && (|| c.status.Queued?
        || (c.status.Delivered? && (c.deliveredAt.None? || c.deliveredAt.value <= now - REDELIVERY_MICROS)))
  }

  function DeliverStep(r: Rows, now: int, gate: DeliveryGate): Rows {
    var c := r.command;
    if !Deliverable(c, now) then r
    else if !gate.payloadValid then
      if c.status.Queued? then r.(command := c.(status := ReconcileRequired, lastError := InvalidCommandPayload)) else r
    else if !gate.deviceLive || !gate.sessionCurrent then r
    else r.(command := c.(status := Delivered, deliveredAt := Some(now), attempts := c.attempts + 1))
  }

  // ---------------------------------------------------------------------------------------
  // Physical send

  /** The only claim of this command was withdrawn before any byte or broker report. */
  predicate FirstClaimUnsent(c: Command, p: Pending) {
    && c.attempts == 1
    && c.deliveredAt.Some?
    && c.acknowledgedAt.None?
    && p.brokerOrderId == ""
    && !p.brokerEvidence
  }

  function Seal(r: Rows, why: Reason): Rows {
    r.(command := r.command.(status := ReconcileRequired, lastError := PhysicalBindingMissing),
       pending := if r.pending.None? then None
                  else Some(r.pending.value.(status := ReconcileRequired, statusReason := why)))
  }

  function GateReject(r: Rows): Rows
    requires r.pending.Some?
  {
    r.(command := r.command.(status := ReconcileRequired, lastError := PhysicalGateRejected),
       pending := Some(r.pending.value.(status := CancelRequested, statusReason := PhysicalGateRejected)))
  }

  /** A live PLACE_ORDER frame passes the gate unless some durable row forbids it. */
  ghost function SendStep(r: Rows, g: SendGate): Rows {
    var c := r.command;
    if !c.kind.PlaceOrder? || !c.live then r
    else if !g.payloadUnchanged || !c.status.Delivered? || !g.accountReady then r
    else if r.pending.None? || !g.exactPlace then Seal(r, PhysicalBindingMissing)
    else if r.pending.value.status.CancelRequested? then
      if FirstClaimUnsent(c, r.pending.value)
      then Transition(r, Request(Expired, PhysicalSendCancelled, true, g.now))
      else r
    else if !g.bindingExact then Seal(r, PhysicalBindingMissing)
    else if r.pending.value.side.Sell? && !g.exitPlanOpen then GateReject(r)
    else r
  }

  /** The frame is written to the socket. */
  predicate Transmits(r: Rows, g: SendGate) {
    var c := r.command;
    || !c.kind.PlaceOrder? || !c.live
    || (&& g.payloadUnchanged && c.status.Delivered? && g.accountReady && r.pending.Some? && g.exactPlace
        && !r.pending.value.status.CancelRequested? && g.bindingExact
        && (r.pending.value.side.Buy? || (r.pending.value.side.Sell? && g.exitPlanOpen)))
  }
}
