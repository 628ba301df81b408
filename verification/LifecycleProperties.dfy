/** What every step, and every run of steps, keeps about one PLACE_ORDER. */
module LifecycleProperties {
  import opened Prelude
  import opened TradeRows
  import opened PlaceOrderTransition
  import opened Lifecycle

  /** The server's own steps, and any other writer replacing the four rows beside the command. */
  datatype Step =
    | Acked(a: Ack)
    | Swept(now: int)
    | Claimed(now: int, delivery: DeliveryGate)
    | Sent(send: SendGate)
    | Elsewhere(pending: Option<Pending>, correlation: Option<Correlation>, intent: Option<Intent>, batch: Option<Batch>)

  ghost function Apply(r: Rows, s: Step): Rows {
    match s
    case Acked(a) => AckStep(r, a)
    case Swept(now) => SweepStep(r, now)
    case Claimed(now, gate) => DeliverStep(r, now, gate)
    case Sent(gate) => SendStep(r, gate)
    case Elsewhere(p, c, i, b) => r.(pending := p, correlation := c, intent := i, batch := b)
  }

  ghost function Run(r: Rows, steps: seq<Step>): Rows {
    if steps == [] then r
    else Apply(Run(r, steps[..|steps| - 1]), steps[|steps| - 1])
  }

  // ---------------------------------------------------------------------------------------
  // A terminal outcome needs proof

  /** No durable row contradicts "this order never executed", and all of them name one owner. */
  ghost predicate Unexecuted(r: Rows) {
    && r.pending.Some? && r.correlation.Some?
    && OneOwner(ChainOwners(r))
    && r.pending.value.brokerOrderId == ""
    && r.correlation.value.brokerOrderId == ""
    && (!LifecycleOpen(r.pending) ==> RoleFill(r) == 0 && IntentUnexecuted(r))
  }

  /** What the request adds: the pending order is in a state the outcome may follow. */
  ghost predicate Admits(r: Rows, q: Request)
    requires r.pending.Some?
  {
    var p := r.pending.value;
    if LifecycleOpen(r.pending) then
      q.proven
      && (p.status.Queued? || p.status.CancelRequested?
          || (PreExecutionStatus(p.status) && p.statusReason == q.reason
              && p.terminalSource.Some? && LocalSource(p.terminalSource.value)))
    else
      && (p.batchId != "" ==> r.batch.Some?)
      && (p.intentId != "" ==> r.intent.Some?)
      && (|| (p.status == q.status && p.statusReason == q.reason)
          || (q.proven && PendingAllows(p, q.status, q.reason) && BatchBeforeExecution(r)))
  }

  ghost predicate Attributable(r: Rows) {
    r.correlation.Some?
    && (r.correlation.value.intentId != "" || r.correlation.value.owner.ownerType == Some(MANUAL_COMMAND))
  }

  /** A finished T order of one owner that already carries the outcome asked for. */
  ghost predicate AlreadyFinished(r: Rows, q: Request) {
    OwnerChainValid(r) && FinishedReplay(r, q.status, q.reason)
  }

  /**
    Exactly when a requested EXPIRED or REJECTED is granted.  A finished order that already carries
    it is left as it is; every other request is quarantined.
   */
  lemma TransitionGrants(r: Rows, q: Request)
    requires PreExecutionStatus(q.status)
    ensures AlreadyFinished(r, q) ==> Transition(r, q) == r
    ensures !AlreadyFinished(r, q) ==>
              && Transition(r, q).command.status
                 == (if Unexecuted(r) && Attributable(r) && Admits(r, q) then q.status else ReconcileRequired)
              && (r.pending.Some? ==> Transition(r, q).pending.value.status == Transition(r, q).command.status)
  {
    assert Attributed(r, q) == if OwnerChainValid(r) then (q.status, q.reason) else (ReconcileRequired, OwnerBindingConflict);
    if OwnerChainValid(r) {
      assert NoBrokerOrder(r) <==> r.pending.value.brokerOrderId == "" && r.correlation.value.brokerOrderId == "";
      if !LifecycleOpen(r.pending) && SafeBeforeExecution(r, q.status, q.reason, q.proven) {
        assert Admits(r, q);
      }
    }
  }

  /** Any step that moves a PLACE_ORDER to EXPIRED or REJECTED finds it provably unexecuted. */
  lemma TerminalNeedsProof(r: Rows, s: Step)
    requires r.command.kind.PlaceOrder?
    requires PreExecutionStatus(Apply(r, s).command.status)
    requires Apply(r, s).command.status != r.command.status
    ensures Unexecuted(r)
  {
    match s
    case Acked(a) =>
      var stamped := r.(command := r.command.(acknowledgedAt := Some(a.now)));
      var q := AckRequest(r.command.status, a);
      assert Unexecuted(stamped) ==> Unexecuted(r) by {
        if Unexecuted(stamped) {
          assert ChainOwners(stamped) == ChainOwners(r);
        }
      }
      if q.Some? {
        TransitionLandsProven(stamped, q.value);
      }
    case Swept(now) =>
      TransitionLandsProven(r, ExpiryRequest(r.command.status, now));
    case Claimed(now, gate) =>
    case Sent(gate) =>
      TransitionLandsProven(r, Request(Expired, PhysicalSendCancelled, true, gate.now));
    case Elsewhere(p, c, i, b) =>
  }

  lemma TransitionLandsProven(r: Rows, q: Request)
    ensures PreExecutionStatus(Transition(r, q).command.status) && Transition(r, q).command.status != r.command.status
            ==> Unexecuted(r)
  {
    var (status, reason) := Attributed(r, q);
    if PreExecutionStatus(Transition(r, q).command.status) && Transition(r, q).command.status != r.command.status {
      assert OwnerChainValid(r);
      TransitionGrants(r, q);
    }
  }

  /**
    Whatever other writers do in between, a PLACE_ORDER that ends EXPIRED or REJECTED was provably
    unexecuted at the step that decided it, and has kept that status ever since.
   */
  lemma TerminalWasProven(r: Rows, steps: seq<Step>) returns (k: nat)
    requires r.command.kind.PlaceOrder?
    requires !PreExecutionStatus(r.command.status)
    requires PreExecutionStatus(Run(r, steps).command.status)
    ensures k < |steps|
    ensures Unexecuted(Run(r, steps[..k]))
    ensures Run(r, steps[..k]).command.status != Run(r, steps).command.status
    ensures forall j :: k < j <= |steps| ==> Run(r, steps[..j]).command.status == Run(r, steps).command.status
  {
    assert steps[..|steps|] == steps && steps[..0] == [];
    var status := (j: nat) => StatusAt(r, steps, j);
    assert status(0) == r.command.status && status(|steps|) == Run(r, steps).command.status;
    k := LastChange(status, |steps|);
    assert status(k) == StatusAt(r, steps, k) && status(k + 1) == StatusAt(r, steps, k + 1);
    forall j | k < j <= |steps| ensures Run(r, steps[..j]).command.status == Run(r, steps).command.status {
      assert status(j) == StatusAt(r, steps, j);
    }
    assert steps[..k + 1][..k] == steps[..k];
    LastStepProves(r, steps[..k], steps[k]);
  }

  ghost function StatusAt(r: Rows, steps: seq<Step>, j: nat): Status {
    if j <= |steps| then Run(r, steps[..j]).command.status else r.command.status
  }

  /** The last moment before a value that differs from the first one was reached for good. */
  lemma {:induction false} LastChange(status: nat -> Status, n: nat) returns (k: nat)
    requires status(0) != status(n)
    ensures k < n && status(k) != status(n)
    ensures forall j :: k < j <= n ==> status(j) == status(n)
  {
    k := LastOther(status, n, n);
  }

  lemma {:induction false} LastOther(status: nat -> Status, m: nat, n: nat) returns (k: nat)
    requires m <= n && status(0) != status(n)
    requires forall j :: m <= j <= n ==> status(j) == status(n)
    ensures k < n && status(k) != status(n)
    ensures forall j :: k < j <= n ==> status(j) == status(n)
    decreases m
  {
    if status(m - 1) != status(n) {
      k := m - 1;
    } else {
      k := LastOther(status, m - 1, n);
    }
  }

  lemma LastStepProves(r: Rows, prefix: seq<Step>, s: Step)
    requires r.command.kind.PlaceOrder?
    requires PreExecutionStatus(Apply(Run(r, prefix), s).command.status)
    requires Apply(Run(r, prefix), s).command.status != Run(r, prefix).command.status
    ensures Unexecuted(Run(r, prefix))
  {
    KindKept(r, prefix);
    TerminalNeedsProof(Run(r, prefix), s);
  }

  lemma {:induction false} KindKept(r: Rows, steps: seq<Step>)
    ensures Run(r, steps).command.kind == r.command.kind
    ensures Run(r, steps).command.owner == r.command.owner
  {
    if steps != [] {
      KindKept(r, steps[..|steps| - 1]);
      KindStep(Run(r, steps[..|steps| - 1]), steps[|steps| - 1]);
    }
  }

  lemma KindStep(r: Rows, s: Step)
    ensures Apply(r, s).command.kind == r.command.kind && Apply(r, s).command.owner == r.command.owner
  {
    match s
    case Acked(a) => AckKind(r, a);
    case Swept(now) => TransitionKind(r, ExpiryRequest(r.command.status, now));
    case Claimed(now, gate) =>
    case Sent(gate) => TransitionKind(r, Request(Expired, PhysicalSendCancelled, true, gate.now));
    case Elsewhere(p, c, i, b) =>
  }

  lemma TransitionKind(r: Rows, q: Request)
    ensures Transition(r, q).command.kind == r.command.kind && Transition(r, q).command.owner == r.command.owner
  {
  }

  lemma AckKind(r: Rows, a: Ack)
    ensures AckStep(r, a).command.kind == r.command.kind && AckStep(r, a).command.owner == r.command.owner
  {
    var stamped := r.(command := r.command.(acknowledgedAt := Some(a.now)));
    if AckRequest(r.command.status, a).Some? {
      TransitionKind(stamped, AckRequest(r.command.status, a).value);
    }
  }

  // ---------------------------------------------------------------------------------------
  // Settled commands stay settled

  lemma TransitionSettles(r: Rows, q: Request)
    requires Settled(q.status)
    ensures Settled(Transition(r, q).command.status) || Transition(r, q) == r
  {
  }

  lemma SettledStep(r: Rows, s: Step)
    requires r.command.kind.PlaceOrder?
    requires Settled(r.command.status)
    ensures Settled(Apply(r, s).command.status)
  {
    match s
    case Acked(a) =>
      var stamped := r.(command := r.command.(acknowledgedAt := Some(a.now)));
      if AckRequest(r.command.status, a).Some? {
        TransitionSettles(stamped, AckRequest(r.command.status, a).value);
      }
    case Swept(now) =>
    case Claimed(now, gate) =>
    case Sent(gate) =>
    case Elsewhere(p, c, i, b) =>
  }

  /** No run of acknowledgements, sweeps, claims, sends and foreign writes revives a PLACE_ORDER. */
  lemma {:induction false} SettledForever(r: Rows, steps: seq<Step>)
    requires r.command.kind.PlaceOrder?
    requires Settled(r.command.status)
    ensures Settled(Run(r, steps).command.status)
  {
    if steps != [] {
      var prefix := steps[..|steps| - 1];
      SettledForever(r, prefix);
      KindKept(r, prefix);
      SettledStep(Run(r, prefix), steps[|steps| - 1]);
    }
  }

  /** A cancel or emergency command is different: an accepted acknowledgement, and only that, revives it. */
  lemma ControlRevival(r: Rows, s: Step)
    requires !r.command.kind.PlaceOrder?
    requires Settled(r.command.status)
    ensures !Settled(Apply(r, s).command.status) <==> s.Acked? && s.a.accepted && !s.a.reason.CommandProcessing?
    ensures !Settled(Apply(r, s).command.status) ==> Apply(r, s).command.status.Acknowledged?
  {
  }

  /** A delivered order that expires without an acknowledgement is always reconciled, never expired. */
  lemma DeliveredExpiryReconciles(r: Rows, now: int)
    requires r.command.status.Delivered? && r.command.expiresAt <= now
    ensures SweepStep(r, now).command.status.ReconcileRequired?
    ensures r.command.kind.PlaceOrder? && r.pending.Some? ==> SweepStep(r, now).pending.value.status.ReconcileRequired?
  {
    assert !FinishedReplay(r, ReconcileRequired, DeliveredExpiredWithoutAck);
  }

  // ---------------------------------------------------------------------------------------
  // Runtime events

  ghost predicate EventsConsistent(r: Rows) {
    && (forall i, j :: 0 <= i < j < |r.events| ==> r.events[i].key != r.events[j].key)
    && (forall i :: 0 <= i < |r.events| ==> OwnerTriple(r.command.owner) == Some(r.events[i].owner))
  }

  lemma TransitionEvents(r: Rows, q: Request)
    requires EventsConsistent(r)
    ensures EventsConsistent(Transition(r, q))
    ensures r.events <= Transition(r, q).events
  {
    if Decide(r, q).Land? && OwnerChainValid(r) {
      assert ChainOwners(r)[0] == r.command.owner && ChainOwners(r)[2] == r.correlation.value.owner;
    }
  }

  /** Over any run each outcome key is staged at most once, always for the command's own owner. */
  lemma {:induction false} EventsStagedOnce(r: Rows, steps: seq<Step>)
    requires EventsConsistent(r)
    ensures EventsConsistent(Run(r, steps))
    ensures r.events <= Run(r, steps).events
  {
    if steps != [] {
      var prefix := steps[..|steps| - 1];
      EventsStagedOnce(r, prefix);
      EventsStep(Run(r, prefix), steps[|steps| - 1]);
    }
  }

  lemma EventsStep(r: Rows, s: Step)
    requires EventsConsistent(r)
    ensures EventsConsistent(Apply(r, s))
    ensures r.events <= Apply(r, s).events
  {
    match s
    case Acked(a) => AckEvents(r, a);
    case Swept(now) => TransitionEvents(r, ExpiryRequest(r.command.status, now));
    case Claimed(now, gate) =>
    case Sent(gate) => SendEvents(r, gate);
    case Elsewhere(p, c, i, b) =>
  }

  lemma AckEvents(r: Rows, a: Ack)
    requires EventsConsistent(r)
    ensures EventsConsistent(AckStep(r, a))
    ensures r.events <= AckStep(r, a).events
  {
    var stamped := r.(command := r.command.(acknowledgedAt := Some(a.now)));
    if AckRequest(r.command.status, a).Some? {
      TransitionEvents(stamped, AckRequest(r.command.status, a).value);
    }
  }

  lemma SendEvents(r: Rows, g: SendGate)
    requires EventsConsistent(r)
    ensures EventsConsistent(SendStep(r, g))
    ensures r.events <= SendStep(r, g).events
  {
    TransitionEvents(r, Request(Expired, PhysicalSendCancelled, true, g.now));
  }
}
