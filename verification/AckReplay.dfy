/** Replayed acknowledgements converge: the Agent may repeat its journal after every reconnect. */
module AckReplay {
  import opened Prelude
  import opened TradeRows
  import opened PlaceOrderTransition
  import opened Lifecycle
  import opened LifecycleProperties

  predicate SamePending(p: Option<Pending>, u: Option<Pending>) {
    && (p.Some? <==> u.Some?)
    && (p.Some? ==>
          && u.value.owner == p.value.owner && u.value.brokerOrderId == p.value.brokerOrderId
          && u.value.intentId == p.value.intentId && u.value.batchId == p.value.batchId && u.value.role == p.value.role
          && u.value.hasOriginalTime == p.value.hasOriginalTime && u.value.lifecycleFinished == p.value.lifecycleFinished)
  }

  predicate SameIntent(i: Option<Intent>, j: Option<Intent>) {
    && (i.Some? <==> j.Some?)
    && (i.Some? ==>
          && j.value.owner == i.value.owner && j.value.executedVolume == i.value.executedVolume
          && j.value.executedPrice == i.value.executedPrice && j.value.hasExecutedTime == i.value.hasExecutedTime)
  }

  predicate SameBatch(b: Option<Batch>, c: Option<Batch>) {
    && (b.Some? <==> c.Some?)
    && (b.Some? ==> c.value.entryFilled == b.value.entryFilled && c.value.exitFilled == b.value.exitFilled)
  }

  /** The columns no outcome ever writes. */
  ghost predicate SameEvidence(r: Rows, s: Rows) {
    && s.command.owner == r.command.owner && s.command.kind == r.command.kind
    && s.correlation == r.correlation
    && SamePending(r.pending, s.pending) && SameIntent(r.intent, s.intent) && SameBatch(r.batch, s.batch)
  }

  lemma TransitionKeepsEvidence(r: Rows, q: Request)
    ensures SameEvidence(r, Transition(r, q))
  {
    match Decide(r, q)
    case Keep =>
    case Land(status, reason) =>
      var (asked, why) := Attributed(r, q);
      LandingKeepsEvidence(r, status, reason, SafeBeforeExecution(r, asked, why, q.proven), q.now);
  }

  lemma LandingKeepsEvidence(r: Rows, status: Status, reason: Reason, safe: bool, now: int)
    ensures SameEvidence(r, LandOn(r, status, reason, safe, now))
  {
    PendingKeepsEvidence(r, status, reason, safe);
    IntentKeepsEvidence(r, status, reason, safe, now);
    BatchKeepsEvidence(r, status, reason);
  }

  lemma PendingKeepsEvidence(r: Rows, status: Status, reason: Reason, safe: bool)
    ensures SamePending(r.pending, PendingAfter(r, status, reason, safe))
  {
  }

  lemma IntentKeepsEvidence(r: Rows, status: Status, reason: Reason, safe: bool, now: int)
    ensures SameIntent(r.intent, IntentAfter(r, status, reason, safe, now))
  {
  }

  lemma BatchKeepsEvidence(r: Rows, status: Status, reason: Reason)
    ensures SameBatch(r.batch, BatchAfter(r, status, reason))
  {
    if LoadedBatch(r).Some? {
      ProjectionKeepsFills(r.batch.value, r.pending.value.role, status, reason);
    }
  }

  lemma ProjectionKeepsFills(b: Batch, role: Role, status: Status, reason: Reason)
    ensures var c := ProjectedBatch(b, role, status, reason); c.entryFilled == b.entryFilled && c.exitFilled == b.exitFilled
  {
  }

  /** Execution evidence is a function of those columns. */
  lemma EvidenceDecides(r: Rows, s: Rows)
    requires SameEvidence(r, s)
    ensures LifecycleOpen(s.pending) == LifecycleOpen(r.pending)
    ensures Unexecuted(s) <==> Unexecuted(r)
    ensures Attributable(s) <==> Attributable(r)
    ensures OwnerChainValid(s) <==> OwnerChainValid(r)
  {
    if r.pending.Some? && r.correlation.Some? {
      assert ChainOwners(s) == ChainOwners(r);
    }
  }

  /** After quarantine, a rejection other than expiry finds nothing left to prove. */
  lemma QuarantineHolds(r: Rows, reason: Reason, now: int)
    requires r.pending.Some? ==> r.pending.value.status.ReconcileRequired?
    requires !reason.CommandExpired?
    ensures Transition(r, Request(Rejected, reason, true, now)).command.status.ReconcileRequired?
  {
    TransitionGrants(r, Request(Rejected, reason, true, now));
  }

  /** The order is quarantined as a whole: pending and batch carry the quarantine too. */
  ghost predicate FullyQuarantined(r: Rows) {
    && r.pending.Some? ==>
      && r.pending.value.status.ReconcileRequired?
      && (LoadedBatch(r).Some? ==> LoadedBatch(r).value.status.BatchReconcileRequired?)
  }

  lemma AckQuarantines(r: Rows, a: Ack)
    requires r.command.kind.PlaceOrder?
    requires AckRequest(r.command.status, a).Some? && !a.reason.CommandProcessing?
    requires AckStep(r, a).command.status.ReconcileRequired?
    ensures FullyQuarantined(AckStep(r, a))
            || (&& r.command.status.ReconcileRequired?
                && AckStep(r, a).pending == r.pending
                && FinishedReplay(r, AckRequest(r.command.status, a).value.status, a.reason))
  {
  }

  /** A rejection other than expiry, repeated on the order it quarantined. */
  lemma RejectedTwice(r: Rows, reason: Reason, first: int, second: int)
    requires r.command.kind.PlaceOrder?
    requires PreExecutionRejection(reason) && !reason.CommandExpired?
    requires AckStep(r, Ack(false, reason, first)).command.status.ReconcileRequired?
    ensures AckStep(AckStep(r, Ack(false, reason, first)), Ack(false, reason, second)).command.status.ReconcileRequired?
  {
    var s := AckStep(r, Ack(false, reason, first));
    var stamped := s.(command := s.command.(acknowledgedAt := Some(second)));
    AckQuarantines(r, Ack(false, reason, first));
    if FullyQuarantined(s) {
      QuarantineHolds(stamped, reason, second);
    } else {
      var q := Request(Rejected, reason, true, second);
      assert Attributed(stamped, q) == (Rejected, reason) ==> Decide(stamped, q).Keep?;
    }
  }

  /** Twice is once: for every reason but `command_expired`, whatever the rows hold. */
  lemma AckReplayConverges(r: Rows, accepted: bool, reason: Reason, first: int, second: int)
    requires r.command.kind.PlaceOrder?
    requires accepted || !reason.CommandExpired?
    ensures AckStep(AckStep(r, Ack(accepted, reason, first)), Ack(accepted, reason, second)).command.status
         == AckStep(r, Ack(accepted, reason, first)).command.status
  {
    if reason.CommandProcessing? {
    } else if accepted {
      AcceptedSettles(r, reason, first);
    } else if !PreExecutionRejection(reason) {
      IndeterminateQuarantines(r, reason, first);
      IndeterminateQuarantines(AckStep(r, Ack(false, reason, first)), reason, second);
    } else if AckStep(r, Ack(false, reason, first)).command.status.ReconcileRequired? {
      RejectedTwice(r, reason, first, second);
    } else {
      RejectedOnce(r, reason, first, second);
    }
  }

  /** An accepted acknowledgement leaves a status that accepts it again unchanged. */
  lemma AcceptedSettles(r: Rows, reason: Reason, now: int)
    requires r.command.kind.PlaceOrder? && !reason.CommandProcessing?
    ensures var s := AckStep(r, Ack(true, reason, now)).command;
            s.kind.PlaceOrder? && (s.status.Acknowledged? || s.status.ReconcileRequired?)
  {
  }

  /** A granted or already finished rejection is not transitioned again. */
  lemma RejectedOnce(r: Rows, reason: Reason, first: int, second: int)
    requires r.command.kind.PlaceOrder?
    requires PreExecutionRejection(reason) && !reason.CommandExpired?
    requires !AckStep(r, Ack(false, reason, first)).command.status.ReconcileRequired?
    ensures AckStep(AckStep(r, Ack(false, reason, first)), Ack(false, reason, second)).command.status
         == AckStep(r, Ack(false, reason, first)).command.status
  {
    var s := AckStep(r, Ack(false, reason, first));
    if s.command.status.Rejected? {
      RejectedStays(s, reason, second);
    } else {
      KeptRejection(r, reason, first);
      KeptAgain(s, reason, second);
    }
  }

  lemma RejectedStays(s: Rows, reason: Reason, now: int)
    requires s.command.kind.PlaceOrder? && s.command.status.Rejected?
    requires PreExecutionRejection(reason) && !reason.CommandExpired?
    ensures AckStep(s, Ack(false, reason, now)).command.status.Rejected?
  {
  }

  /** A rejection that neither rejects nor quarantines met a finished replay and changed no row but the stamp. */
  lemma KeptRejection(r: Rows, reason: Reason, now: int)
    requires r.command.kind.PlaceOrder?
    requires PreExecutionRejection(reason) && !reason.CommandExpired?
    requires !AckStep(r, Ack(false, reason, now)).command.status.ReconcileRequired?
    requires !AckStep(r, Ack(false, reason, now)).command.status.Rejected?
    ensures AckStep(r, Ack(false, reason, now)) == r.(command := r.command.(acknowledgedAt := Some(now)))
    ensures !r.command.status.Acknowledged? && OwnerChainValid(r) && FinishedReplay(r, Rejected, reason)
  {
    var stamped := r.(command := r.command.(acknowledgedAt := Some(now)));
    EvidenceDecides(r, stamped);
  }

  lemma KeptAgain(s: Rows, reason: Reason, now: int)
    requires s.command.kind.PlaceOrder? && !s.command.status.Acknowledged? && !s.command.status.Rejected?
    requires PreExecutionRejection(reason) && !reason.CommandExpired?
    requires FinishedReplay(s, Rejected, reason) && OwnerChainValid(s)
    ensures AckStep(s, Ack(false, reason, now)).command.status == s.command.status
  {
    var stamped := s.(command := s.command.(acknowledgedAt := Some(now)));
    EvidenceDecides(s, stamped);
  }

  /** A rejection that proves nothing always quarantines. */
  lemma IndeterminateQuarantines(r: Rows, reason: Reason, now: int)
    requires r.command.kind.PlaceOrder?
    requires !PreExecutionRejection(reason) && !reason.CommandProcessing?
    ensures AckStep(r, Ack(false, reason, now)).command.status.ReconcileRequired?
    ensures AckStep(r, Ack(false, reason, now)).command.kind.PlaceOrder?
  {
  }

  /** A quarantined order that a repeated `command_expired` can still release. */
  ghost predicate Recoverable(r: Rows) {
    && Unexecuted(r) && Attributable(r)
    && !LifecycleOpen(r.pending)
    && r.pending.value.batchId == ""
    && (r.pending.value.intentId != "" ==> r.intent.Some?)
    && !(r.command.status.ReconcileRequired? && FinishedReplay(r, Expired, CommandExpired))
  }

  lemma RepeatedExpiry(r: Rows, s: Rows, now: int)
    requires SameEvidence(r, s)
    requires s.command.status.ReconcileRequired? && FullyQuarantined(s)
    requires !(r.command.status.ReconcileRequired? && FinishedReplay(r, Expired, CommandExpired))
    ensures Transition(s, Request(Expired, CommandExpired, true, now)).command.status
         == if Recoverable(r) then Expired else ReconcileRequired
  {
    EvidenceDecides(r, s);
    TransitionGrants(s, Request(Expired, CommandExpired, true, now));
  }

  /** The second `command_expired` moves the order exactly when the first quarantined a recoverable one. */
  lemma SecondExpiredAck(r: Rows, first: int, second: int)
    requires r.command.kind.PlaceOrder?
    ensures var s := AckStep(r, Ack(false, CommandExpired, first));
            AckStep(s, Ack(false, CommandExpired, second)).command.status
            == if s.command.status.ReconcileRequired? && Recoverable(r) then Expired else s.command.status
  {
    if FinishedReplay(r, Expired, CommandExpired) && !r.command.status.Acknowledged? && OwnerChainValid(r) {
      KeptTwice(r, first, second);
      assert r.command.status.ReconcileRequired? ==> !Recoverable(r);
    } else {
      FirstExpiredAck(r, first);
      var s := AckStep(r, Ack(false, CommandExpired, first));
      if s.command.status.ReconcileRequired? {
        QuarantinedOnce(r, first, second);
      } else {
        ExpiredStays(s, second);
      }
    }
  }

  /** Outside a finished replay the first `command_expired` settles the order one way or the other. */
  lemma FirstExpiredAck(r: Rows, now: int)
    requires r.command.kind.PlaceOrder?
    requires !(FinishedReplay(r, Expired, CommandExpired) && !r.command.status.Acknowledged? && OwnerChainValid(r))
    ensures var s := AckStep(r, Ack(false, CommandExpired, now)).command;
            s.kind.PlaceOrder? && (s.status.ReconcileRequired? || s.status.Expired?)
  {
  }

  lemma ExpiredStays(s: Rows, now: int)
    requires s.command.kind.PlaceOrder? && s.command.status.Expired?
    ensures AckStep(s, Ack(false, CommandExpired, now)).command.status.Expired?
  {
  }

  lemma KeptTwice(r: Rows, first: int, second: int)
    requires r.command.kind.PlaceOrder? && !r.command.status.Acknowledged?
    requires FinishedReplay(r, Expired, CommandExpired) && OwnerChainValid(r)
    ensures AckStep(r, Ack(false, CommandExpired, first)).command.status == r.command.status
    ensures AckStep(AckStep(r, Ack(false, CommandExpired, first)), Ack(false, CommandExpired, second)).command.status
            == r.command.status
  {
    var stamped := r.(command := r.command.(acknowledgedAt := Some(first)));
    EvidenceDecides(r, stamped);
    var s := AckStep(r, Ack(false, CommandExpired, first));
    assert s.(command := r.command) == r;
    var again := s.(command := s.command.(acknowledgedAt := Some(second)));
    EvidenceDecides(r, again);
  }

  lemma QuarantinedOnce(r: Rows, first: int, second: int)
    requires r.command.kind.PlaceOrder?
    requires !(FinishedReplay(r, Expired, CommandExpired) && !r.command.status.Acknowledged? && OwnerChainValid(r))
    requires AckStep(r, Ack(false, CommandExpired, first)).command.status.ReconcileRequired?
    ensures AckStep(AckStep(r, Ack(false, CommandExpired, first)), Ack(false, CommandExpired, second)).command.status
         == if Recoverable(r) then Expired else ReconcileRequired
  {
    var s := AckStep(r, Ack(false, CommandExpired, first));
    QuarantinedEvidence(r, first);
    RepeatedAckIs(s, second);
    var again := s.(command := s.command.(acknowledgedAt := Some(second)));
    if FinishedReplay(r, Expired, CommandExpired) && r.command.status.ReconcileRequired? {
      assert !OwnerChainValid(r);
      EvidenceDecides(r, again);
    } else {
      RepeatedExpiry(r, again, second);
    }
  }

  /** What a quarantining `command_expired` leaves of the evidence, and that it quarantines as a whole. */
  lemma QuarantinedEvidence(r: Rows, now: int)
    requires r.command.kind.PlaceOrder?
    requires !(FinishedReplay(r, Expired, CommandExpired) && !r.command.status.Acknowledged? && OwnerChainValid(r))
    requires AckStep(r, Ack(false, CommandExpired, now)).command.status.ReconcileRequired?
    ensures SameEvidence(r, AckStep(r, Ack(false, CommandExpired, now)))
    ensures FullyQuarantined(AckStep(r, Ack(false, CommandExpired, now)))
            || (r.command.status.ReconcileRequired? && FinishedReplay(r, Expired, CommandExpired))
  {
    var a := Ack(false, CommandExpired, now);
    var stamped := r.(command := r.command.(acknowledgedAt := Some(now)));
    TransitionKeepsEvidence(stamped, AckRequest(r.command.status, a).value);
    AckQuarantines(r, a);
  }

  /** On a quarantined order `command_expired` asks the transition for EXPIRED. */
  lemma RepeatedAckIs(s: Rows, now: int)
    requires s.command.kind.PlaceOrder? && s.command.status.ReconcileRequired?
    ensures AckStep(s, Ack(false, CommandExpired, now))
         == Transition(s.(command := s.command.(acknowledgedAt := Some(now))), Request(Expired, CommandExpired, true, now))
  {
  }

  lemma UnrecoverableStays(r: Rows, now: int)
    requires r.command.kind.PlaceOrder?
    requires AckStep(r, Ack(false, CommandExpired, now)).command.status.ReconcileRequired?
    requires !Recoverable(r)
    ensures !Recoverable(AckStep(r, Ack(false, CommandExpired, now)))
  {
    var a := Ack(false, CommandExpired, now);
    var stamped := r.(command := r.command.(acknowledgedAt := Some(now)));
    var s := AckStep(r, a);
    TransitionKeepsEvidence(stamped, AckRequest(r.command.status, a).value);
    assert SameEvidence(r, s);
    EvidenceDecides(r, s);
    EvidenceDecides(r, stamped);
    AckQuarantines(r, a);
  }

  /** Three times is twice, for `command_expired` too. */
  lemma ExpiredAckConverges(r: Rows, first: int, second: int, third: int)
    requires r.command.kind.PlaceOrder?
    ensures var s := AckStep(AckStep(r, Ack(false, CommandExpired, first)), Ack(false, CommandExpired, second));
            AckStep(s, Ack(false, CommandExpired, third)).command.status == s.command.status
  {
    var once := AckStep(r, Ack(false, CommandExpired, first));
    SecondExpiredAck(r, first, second);
    KindKept(r, [Acked(Ack(false, CommandExpired, first))]);
    assert Run(r, [Acked(Ack(false, CommandExpired, first))]) == once;
    SecondExpiredAck(once, second, third);
    if once.command.status.ReconcileRequired? && !Recoverable(r) {
      UnrecoverableStays(r, first);
    }
  }
}
