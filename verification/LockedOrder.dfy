/**
  The lifecycle performed in place on one order's locked rows.  Every method is tied to the
  step function of the same name, so what is proved of step sequences holds of call sequences.
 */
module LockedOrderModel {
  import opened Prelude
  import opened TradeRows
  import opened PlaceOrderTransition
  import opened Lifecycle

  datatype AckError = ClientOrderMismatch

  class LockedOrder {
    var command: Command
    var pending: Option<Pending>
    var correlation: Option<Correlation>
    var intent: Option<Intent>
    var batch: Option<Batch>
    var events: seq<Event>

    ghost function Current(): Rows
      reads this
    {
      Rows(command, pending, correlation, intent, batch, events)
    }

    constructor (rows: Rows)
      ensures Current() == rows
    {
      command, pending, correlation := rows.command, rows.pending, rows.correlation;
      intent, batch, events := rows.intent, rows.batch, rows.events;
    }

    method OwnerChain() returns (valid: bool)
      ensures valid <==> OwnerChainValid(Current())
    {
      if pending.None? || correlation.None? {
        return false;
      }
      var owners := [command.owner, pending.value.owner, correlation.value.owner];
      if pending.value.intentId != "" && intent.Some? {
        owners := owners + [intent.value.owner];
      }
      assert owners == ChainOwners(Current());
      valid := DurableOwnerChainMatches(owners);
      valid := valid && (correlation.value.intentId != "" || correlation.value.owner.ownerType == Some(MANUAL_COMMAND));
    }

    method StageRuntimeEvent(status: Status) returns (staged: bool)
      modifies `events
      ensures events == EventsAfter(old(Current()), status)
      ensures staged <==> MayStage(old(Current()), status)
    {
      staged := false;
      if pending.None? || correlation.None? {
        return;
      }
      if correlation.value.intentId != "" && (pending.value.intentId == "" || intent.None?) {
        return;
      }
      var valid := OwnerChain();
      if !valid {
        return;
      }
      assert ChainOwners(Current())[2] == correlation.value.owner;
      var key := KeyOf(status);
      var i := 0;
      while i < |events|
        invariant 0 <= i <= |events|
        invariant forall k :: 0 <= k < i ==> events[k].key != key
      {
        if events[i].key == key {
          return;
        }
        i := i + 1;
      }
      events := events + [Event(key, OwnerTriple(correlation.value.owner).value)];
      staged := true;
    }

    method ProjectBatchStatus(status: Status, reason: Reason)
      requires pending.Some?
      modifies `batch
      ensures batch == if LoadedBatch(old(Current())).Some?
                       then Some(ProjectedBatch(old(batch).value, pending.value.role, status, reason))
                       else old(batch)
    {
      if pending.value.batchId == "" || batch.None? {
        return;
      }
      var row := batch.value;
      if status.ReconcileRequired? {
        row := row.(status := BatchReconcileRequired, exceptionReason := reason);
      } else if pending.value.role.Entry? {
        row := row.(status := if status.Expired? then EntryExpired else EntryRejected, exceptionReason := reason);
      } else if pending.value.role.Exit? {
        row := row.(status := ExitRejected, exceptionReason := reason);
      }
      batch := Some(row);
    }

    /** Whether the rows still prove that this attempt never executed. */
    method PreExecutionProof(ownerValid: bool, status: Status, reason: Reason, proven: bool) returns (safe: bool)
      requires ownerValid <==> OwnerChainValid(Current())
      ensures safe <==> SafeBeforeExecution(Current(), status, reason, proven)
    {
      if LifecycleOpen(pending) {
        safe := AttemptProven(ownerValid, reason, proven);
      } else {
        safe := ProvenOnce(status, reason, proven);
      }
    }

    /** Outside an open T order: the same outcome again, or a first proof. */
    method ProvenOnce(status: Status, reason: Reason, proven: bool) returns (safe: bool)
      ensures safe <==> SameOutcomeAgain(Current(), status, reason) || FirstProof(Current(), status, reason, proven)
    {
      var rows := Rows(command, pending, correlation, intent, batch, events);
      safe := SameOutcomeAgain(rows, status, reason);
      if !safe {
        safe := FirstProof(rows, status, reason, proven);
      }
    }

    /** For an open T order only this attempt's own proof counts. */
    method AttemptProven(ownerValid: bool, reason: Reason, proven: bool) returns (safe: bool)
      requires pending.Some? && (ownerValid <==> OwnerChainValid(Current()))
      ensures safe <==> AttemptProof(Current(), reason, proven)
    {
      var rows := Rows(command, pending, correlation, intent, batch, events);
      var p := pending.value;
      safe := p.status.Queued? || p.status.CancelRequested?;
      if PreExecutionStatus(p.status) && p.statusReason == reason && p.terminalSource.Some? {
        safe := safe || LocalSource(p.terminalSource.value);
      }
      safe := safe && ownerValid && proven && NoBrokerOrder(rows);
    }

    /** Quarantine an unattributable or unproven outcome before anything is written. */
    method DecideOutcome(q: Request) returns (keep: bool, status: Status, reason: Reason, safe: bool)
      ensures keep <==> Decide(Current(), q).Keep?
      ensures !keep ==> Decide(Current(), q) == Land(status, reason)
      ensures !keep ==>
                safe == SafeBeforeExecution(Current(), Attributed(Current(), q).0, Attributed(Current(), q).1, q.proven)
    {
      status, reason, safe := q.status, q.reason, false;
      var ownerValid := OwnerChain();
      if !ownerValid {
        status, reason := ReconcileRequired, OwnerBindingConflict;
      }
      keep := pending.Some? && pending.value.hasOriginalTime && !LifecycleOpen(pending) && PreExecutionStatus(status)
        && pending.value.status == status && pending.value.statusReason == reason;
      if keep {
        return;
      }
      safe := PreExecutionProof(ownerValid, status, reason, q.proven);
      if PreExecutionStatus(status) && !safe {
        status, reason := ReconcileRequired, ProofMissing(reason);
      }
    }

    /** Converge one outcome into command, pending, intent and batch, then stage its event. */
    method TransitionPlaceOrder(q: Request) returns (staged: bool)
      modifies this
      ensures Current() == Transition(old(Current()), q)
    {
      var keep, status, reason, safe := DecideOutcome(q);
      if keep {
        return false;
      }
      staged := LandOutcome(status, reason, safe, q.now);
    }

    method LandOutcome(status: Status, reason: Reason, safe: bool, now: int) returns (staged: bool)
      modifies this
      ensures Current() == LandOn(old(Current()), status, reason, safe, now)
    {
      ghost var before := Current();
      var rows := Rows(command, pending, correlation, intent, batch, events);
      var open := LifecycleOpen(pending);
      var strategyStatus := StrategyStatus(rows, status, reason, safe);
      var proof := NewProof(rows, status, reason, safe, now);
      WriteOrder(status, reason, safe);
      if pending.None? {
        return false;
      }
      if pending.value.intentId != "" && intent.Some? {
        IntentIsWritten(before, status, reason, safe, now);
        WriteIntent(status, reason, if open && !status.ReconcileRequired? then None else Some(strategyStatus), proof);
      }
      BatchOutcome(open, status, reason, before);
      SameStaging(before, Current(), strategyStatus);
      staged := StageRuntimeEvent(strategyStatus);
    }

    /** Write the outcome to the batch of the order. */
    method BatchOutcome(open: bool, status: Status, reason: Reason, ghost before: Rows)
      requires pending.Some? && before.pending.Some?
      requires pending.value.batchId == before.pending.value.batchId && pending.value.role == before.pending.value.role
      requires open <==> LifecycleOpen(before.pending)
      requires batch == before.batch
      modifies `batch
      ensures batch == BatchAfter(before, status, reason)
    {
      if !open || status.ReconcileRequired? {
        ProjectBatchStatus(status, reason);
      }
    }

    /** Write the outcome to the command and, when it exists, to the pending order. */
    method WriteOrder(status: Status, reason: Reason, safe: bool)
      modifies `command, `pending
      ensures command == old(command).(status := status, lastError := reason)
      ensures pending == PendingAfter(old(Current()), status, reason, safe)
    {
      var open := LifecycleOpen(pending);
      var attemptSource := AttemptSource(command, reason);
      command := command.(status := status, lastError := reason);
      if pending.None? {
        return;
      }
      pending := Some(pending.value.(status := status, statusReason := reason));
      if open && PreExecutionStatus(status) && safe {
        pending := Some(pending.value.(terminalSource := Some(attemptSource)));
      }
    }

    /** Write the intent's status, note and terminal proof; no status means the T attempt stays open. */
    method WriteIntent(status: Status, reason: Reason, settled: Option<Status>, proof: Option<Terminal>)
      requires intent.Some?
      requires proof.Some? ==> !status.ReconcileRequired?
      modifies `intent
      ensures intent == Some(WrittenIntent(old(intent).value, status, reason, settled, proof))
    {
      var row := intent.value;
      if settled.Some? {
        row := row.(status := settled.value);
      } else if !row.status.IntentPending? && !row.status.Approved?
                && !row.status.ExecutionReady? && !row.status.ExecutionPending? {
        var volume := if row.executedVolume.Volume? && !row.executedPrice.UnreadablePrice? then row.executedVolume.value else -1;
        row := row.(status := if volume > 0 then PartialFilled else Queued);
      }
      if !reason.NoReason? {
        row := row.(notes := reason);
      }
      if status.ReconcileRequired? && LocallyProven(row) {
        row := row.(terminal := None);
      }
      if proof.Some? {
        row := row.(terminal := proof);
      }
      intent := Some(row);
    }

    // -------------------------------------------------------------------------------------
    // Steps

    method RecordAck(clientOrderId: string, a: Ack) returns (outcome: Result<bool, AckError>)
      modifies this
      ensures outcome.Err? <==> clientOrderId != old(command).clientOrderId
      ensures Current() == if outcome.Err? then old(Current()) else AckStep(old(Current()), a)
    {
      if command.clientOrderId != clientOrderId {
        return Err(ClientOrderMismatch);
      }
      var previous := command.status;
      if a.reason.CommandProcessing? {
        if previous.Queued? || previous.Delivered? {
          command := command.(status := Delivered, deliveredAt := Some(a.now), acknowledgedAt := None, lastError := a.reason);
        }
        return Ok(false);
      }
      command := command.(acknowledgedAt := Some(a.now));
      var staged := false;
      if !command.kind.PlaceOrder? {
        if a.accepted {
          command := command.(status := Acknowledged, lastError := a.reason);
        } else if PreExecutionRejection(a.reason) {
          command := command.(status := if a.reason.CommandExpired? then Expired else Rejected, lastError := a.reason);
        } else {
          command := command.(status := ReconcileRequired,
                              lastError := if a.reason.NoReason? then IndeterminateCancelRejection else a.reason);
        }
      } else if a.accepted && previous.Acknowledged? {
        command := command.(lastError := a.reason);
      } else if a.accepted && previous.ReconcileRequired? {
      } else if a.accepted && (previous.Queued? || previous.Delivered?) {
        command := command.(status := Acknowledged, lastError := a.reason);
      } else if a.accepted {
        staged := TransitionPlaceOrder(Request(ReconcileRequired, AcceptedAckConflict, false, a.now));
      } else if previous.Acknowledged? {
        staged := TransitionPlaceOrder(
          Request(ReconcileRequired, if a.reason.NoReason? then RejectedAckConflict else a.reason, false, a.now));
      } else if (previous.Expired? && a.reason.CommandExpired?)
             || (previous.Rejected? && PreExecutionRejection(a.reason) && !a.reason.CommandExpired?) {
        command := command.(lastError := a.reason);
      } else if PreExecutionRejection(a.reason) {
        staged := TransitionPlaceOrder(
          Request(if a.reason.CommandExpired? then Expired else Rejected, a.reason, true, a.now));
      } else {
        staged := TransitionPlaceOrder(
          Request(ReconcileRequired, if a.reason.NoReason? then IndeterminateRejection else a.reason, false, a.now));
      }
      outcome := Ok(staged);
    }

    method ExpireIfDue(now: int) returns (counted: bool)
      modifies this
      ensures Current() == SweepStep(old(Current()), now)
      ensures counted <==> Due(old(command), now)
    {
      if !(command.status.Queued? || command.status.Delivered?) || command.expiresAt > now {
        return false;
      }
      var previous := command.status;
      if command.kind.PlaceOrder? {
        if previous.Queued? {
          var _ := TransitionPlaceOrder(Request(Expired, ExpiredBeforeDelivery, true, now));
        } else {
          var _ := TransitionPlaceOrder(Request(ReconcileRequired, DeliveredExpiredWithoutAck, false, now));
        }
      } else {
        command := command.(status := if previous.Queued? then Expired else ReconcileRequired,
                            lastError := if previous.Queued? then ExpiredBeforeDelivery else DeliveredExpiredWithoutAck);
      }
      counted := true;
    }

    method ClaimForDelivery(now: int, gate: DeliveryGate) returns (claimed: bool)
      modifies `command
      ensures Current() == DeliverStep(old(Current()), now, gate)
      ensures claimed ==> command.status.Delivered? && command.deliveredAt == Some(now) && old(command).expiresAt > now
      ensures !claimed ==> command == old(command) || command.status.ReconcileRequired?
    {
      claimed := false;
      if command.expiresAt <= now {
        return;
      }
      if !command.status.Queued?
         && !(command.status.Delivered? && (command.deliveredAt.None? || command.deliveredAt.value <= now - REDELIVERY_MICROS)) {
        return;
      }
      if !gate.payloadValid {
        if command.status.Queued? {
          command := command.(status := ReconcileRequired, lastError := InvalidCommandPayload);
        }
        return;
      }
      if !gate.deviceLive || !gate.sessionCurrent {
        return;
      }
      command := command.(status := Delivered, deliveredAt := Some(now), attempts := command.attempts + 1);
      claimed := true;
    }

    method PhysicalSend(g: SendGate) returns (written: bool)
      modifies this
      ensures Current() == SendStep(old(Current()), g)
      ensures written <==> Transmits(old(Current()), g)
      ensures written ==> Current() == old(Current())
    {
      written := false;
      if !command.kind.PlaceOrder? || !command.live {
        return true;
      }
      if !g.payloadUnchanged || !command.status.Delivered? || !g.accountReady {
        return;
      }
      if pending.None? || !g.exactPlace {
        SealUnproven();
        return;
      }
      if pending.value.status.CancelRequested? {
        if FirstClaimUnsent(command, pending.value) {
          var _ := TransitionPlaceOrder(Request(Expired, PhysicalSendCancelled, true, g.now));
        }
        return;
      }
      if !g.bindingExact {
        SealUnproven();
        return;
      }
      if pending.value.side.Buy? {
        return true;
      }
      if !pending.value.side.Sell? {
        return;
      }
      if !g.exitPlanOpen {
        command := command.(status := ReconcileRequired, lastError := PhysicalGateRejected);
        pending := Some(pending.value.(status := CancelRequested, statusReason := PhysicalGateRejected));
        return;
      }
      written := true;
    }

    method SealUnproven()
      modifies `command, `pending
      ensures Current() == Seal(old(Current()), PhysicalBindingMissing)
    {
      command := command.(status := ReconcileRequired, lastError := PhysicalBindingMissing);
      if pending.Some? {
        pending := Some(pending.value.(status := ReconcileRequired, statusReason := PhysicalBindingMissing));
      }
    }
  }

  /** Staging an event reads only owners and identities, which no outcome changes. */
  lemma SameStaging(before: Rows, after: Rows, status: Status)
    requires before.pending.Some? && after.pending.Some?
    requires after.pending.value.owner == before.pending.value.owner
    requires after.pending.value.intentId == before.pending.value.intentId
    requires after.command.owner == before.command.owner
    requires after.correlation == before.correlation && after.events == before.events
    requires LoadedIntent(before).Some? <==> LoadedIntent(after).Some?
    requires LoadedIntent(before).Some? ==> LoadedIntent(after).value.owner == LoadedIntent(before).value.owner
    ensures EventsAfter(after, status) == EventsAfter(before, status)
    ensures MayStage(after, status) <==> MayStage(before, status)
  {
    if before.correlation.Some? {
      assert ChainOwners(after) == ChainOwners(before);
    }
  }
}
