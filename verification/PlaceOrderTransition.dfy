/**
  The atomic convergence of one PLACE_ORDER outcome into its five durable rows.  `Transition`
  specifies it as a function of the rows; class `LockedOrder` performs it on the locked rows.
 */
module PlaceOrderTransition {
  import opened Prelude
  import opened TradeRows

  /** A requested outcome and whether the caller proves that nothing reached the broker. */
  datatype Request = Request(status: Status, reason: Reason, proven: bool, now: int)

  predicate PreExecutionStatus(s: Status) {
    s.Expired? || s.Rejected?
  }

  predicate LocalSource(s: Source) {
    s.LocalOutboxExpired? || s.LocalAgentRejection?
  }

  // ---------------------------------------------------------------------------------------
  // Reading the rows

  /** The intent row is loaded through the pending order that names it. */
  function LoadedIntent(r: Rows): Option<Intent> {
    if r.pending.Some? && r.pending.value.intentId != "" then r.intent else None
  }

  function LoadedBatch(r: Rows): Option<Batch> {
    if r.pending.Some? && r.pending.value.batchId != "" then r.batch else None
  }

  /** A T order whose bounded attempts are still open. */
  predicate LifecycleOpen(p: Option<Pending>) {
    p.Some? && !p.value.role.NoRole? && p.value.hasOriginalTime && !p.value.lifecycleFinished
  }

  function ChainOwners(r: Rows): seq<Owner>
    requires r.pending.Some? && r.correlation.Some?
  {
    [r.command.owner, r.pending.value.owner, r.correlation.value.owner]
    + (if LoadedIntent(r).Some? then [LoadedIntent(r).value.owner] else [])
  }

  /** Every loaded row names one owner, and the correlation is an intent's or a manual one. */
  ghost predicate OwnerChainValid(r: Rows) {
    && r.pending.Some?
    && r.correlation.Some?
    && OneOwner(ChainOwners(r))
    && (r.correlation.value.intentId != "" || r.correlation.value.owner.ownerType == Some(MANUAL_COMMAND))
  }

  /** Fill volume of the side of the batch this order works for. */
  function RoleFill(r: Rows): int {
    var b := LoadedBatch(r);
    if b.None? || r.pending.None? then 0
    else match r.pending.value.role
      case Entry => b.value.entryFilled
      case Exit => b.value.exitFilled
      case NoRole => 0
  }

  predicate BatchBeforeExecution(r: Rows) {
    var b := LoadedBatch(r);
    || b.None?
    || (r.pending.Some? && r.pending.value.role.Entry? && b.value.status.EntryQueued?)
    || (r.pending.Some? && r.pending.value.role.Exit? && b.value.status.ExitTriggered?)
  }

  predicate ZeroExecution(i: Intent) {
    && i.executedVolume == Volume(0)
    && i.executedPrice.Finite?
    && i.executedPrice.value <= 0.0
    && !i.hasExecutedTime
  }

  predicate IntentUnexecuted(r: Rows) {
    LoadedIntent(r).None? || ZeroExecution(LoadedIntent(r).value)
  }

  predicate NoBrokerOrder(r: Rows) {
    && (r.pending.Some? ==> r.pending.value.brokerOrderId == "")
    && (r.correlation.Some? ==> r.correlation.value.brokerOrderId == "")
  }

  predicate NamedRowsPresent(r: Rows)
    requires r.pending.Some?
  {
    var p := r.pending.value;
    && (p.owner.strategyRunId != "" ==> r.correlation.Some?)
    && (p.batchId != "" ==> LoadedBatch(r).Some?)
  }

  // ---------------------------------------------------------------------------------------
  // Deciding the outcome

  /** The pending order already carries exactly this outcome and nothing contradicts it. */
  predicate SameOutcomeAgain(r: Rows, status: Status, reason: Reason) {
    && r.pending.Some?
    && PreExecutionStatus(status)
    && r.pending.value.status == status
    && r.pending.value.statusReason == reason
    && NoBrokerOrder(r)
    && NamedRowsPresent(r)
    && (r.pending.value.intentId != "" ==> LoadedIntent(r).Some?)
    && RoleFill(r) == 0
    && IntentUnexecuted(r)
  }

  predicate PendingAllows(p: Pending, status: Status, reason: Reason) {
    || p.status.Queued?
    || (status.Expired? && reason.PhysicalSendCancelled? && p.status.CancelRequested?)
    || (status.Expired? && reason.CommandExpired? && p.status.ReconcileRequired?)
  }

  /** First proof that this order never executed. */
  predicate FirstProof(r: Rows, status: Status, reason: Reason, proven: bool) {
    && proven
    && r.pending.Some?
    && PendingAllows(r.pending.value, status, reason)
    && NoBrokerOrder(r)
    && NamedRowsPresent(r)
    && RoleFill(r) == 0
    && BatchBeforeExecution(r)
    && (r.pending.value.intentId != "" ==> LoadedIntent(r).Some? && IntentUnexecuted(r))
  }

  /** For an open T order only this attempt's own proof counts. */
  ghost predicate AttemptProof(r: Rows, reason: Reason, proven: bool) {
    && OwnerChainValid(r)
    && proven
    && NoBrokerOrder(r)
    && (var p := r.pending.value;
        || p.status.Queued? || p.status.CancelRequested?
        || (PreExecutionStatus(p.status) && p.statusReason == reason
            && p.terminalSource.Some? && LocalSource(p.terminalSource.value)))
  }

  ghost predicate SafeBeforeExecution(r: Rows, status: Status, reason: Reason, proven: bool) {
    if LifecycleOpen(r.pending) then AttemptProof(r, reason, proven)
    else SameOutcomeAgain(r, status, reason) || FirstProof(r, status, reason, proven)
  }

  datatype Decision = Keep | Land(status: Status, reason: Reason)

  /** The outcome asked for once an unattributable owner chain has been quarantined. */
  ghost function Attributed(r: Rows, q: Request): (Status, Reason) {
    if OwnerChainValid(r) then (q.status, q.reason) else (ReconcileRequired, OwnerBindingConflict)
  }

  ghost predicate FinishedReplay(r: Rows, status: Status, reason: Reason) {
    && r.pending.Some?
    && r.pending.value.hasOriginalTime
    && !LifecycleOpen(r.pending)
    && PreExecutionStatus(status)
    && r.pending.value.status == status
    && r.pending.value.statusReason == reason
  }

  ghost function Decide(r: Rows, q: Request): Decision {
    var (status, reason) := Attributed(r, q);
    if FinishedReplay(r, status, reason) then Keep
    else if PreExecutionStatus(status) && !SafeBeforeExecution(r, status, reason, q.proven) then
      Land(ReconcileRequired, ProofMissing(reason))
    else Land(status, reason)
  }

  // ---------------------------------------------------------------------------------------
  // Zero-fill proofs

  function RequestEntryPlan(r: Rows): string {
    var fromRequest :=
      if r.correlation.Some? && r.correlation.value.entryPlanId.Some? then r.correlation.value.entryPlanId.value
      else if r.pending.Some? && r.pending.value.entryPlanId.Some? then r.pending.value.entryPlanId.value
      else "";
    Strip(if fromRequest != "" then fromRequest
          else if LoadedIntent(r).Some? then LoadedIntent(r).value.entryPlanId
          else "")
  }

  /** A managed entry bought nothing: its intent becomes RECONCILED_ZERO_FILL. */
  predicate ManagedEntry(r: Rows) {
    && r.pending.Some? && r.correlation.Some? && LoadedIntent(r).Some?
    && (var p, c, i := r.pending.value, r.correlation.value, LoadedIntent(r).value;
        && RequestEntryPlan(r) != ""
        && p.side.Buy? && i.direction.Buy?
        && p.owner.strategyRunId != ""
        && c.owner.strategyRunId == p.owner.strategyRunId
        && i.owner.strategyRunId == p.owner.strategyRunId
        && i.entryPlanId == RequestEntryPlan(r)
        && ZeroExecution(i))
  }

  /** Order, intent and correlation all belong to one EXIT_PLAN and describe one sell. */
  predicate ExactExitPlan(r: Rows) {
    && r.pending.Some? && LoadedIntent(r).Some?
    && (var p, i := r.pending.value, LoadedIntent(r).value;
        && OwnerTriple(p.owner).Some?
        && OwnerTriple(p.owner).value.ownerType == EXIT_PLAN
        && OwnerTriple(i.owner) == OwnerTriple(p.owner)
        && p.side.Sell? && i.direction.Sell?
        && i.accountId == p.accountId
        && i.instrument == p.instrument
        && i.owner.strategyRunId == p.owner.strategyRunId
        && ZeroExecution(i)
        && (r.correlation.Some? ==>
              var c := r.correlation.value;
              && (OwnerTriple(c.owner).None? || OwnerTriple(c.owner) == OwnerTriple(p.owner))
              && c.intentId == i.id
              && c.accountId == p.accountId
              && c.owner.strategyRunId == p.owner.strategyRunId))
  }

  predicate FirstOutboxExpiry(r: Rows, status: Status, reason: Reason, safe: bool) {
    && status.Expired? && reason.ExpiredBeforeDelivery?
    && r.command.status.Queued? && r.command.deliveredAt.None?
    && safe && ExactExitPlan(r)
  }

  predicate FirstAgentRejection(r: Rows, status: Status, reason: Reason, safe: bool) {
    PreExecutionStatus(status) && PreExecutionRejection(reason) && safe && ExactExitPlan(r)
  }

  predicate ReplayedZeroFill(r: Rows, status: Status, safe: bool) {
    && !status.ReconcileRequired? && safe && ExactExitPlan(r)
    && LoadedIntent(r).value.status.ReconciledZeroFill?
    && LoadedIntent(r).value.terminal.Some?
    && ReplayMatches(LoadedIntent(r).value.terminal.value.source, r.command, r.pending.value)
  }

  /** A stored local proof still describes the command and order it was written for. */
  predicate ReplayMatches(source: Source, c: Command, p: Pending) {
    || (source.LocalOutboxExpired? && c.status.Expired? && c.deliveredAt.None? && p.status.Expired?)
    || (source.LocalAgentRejection? && PreExecutionStatus(c.status) && PreExecutionStatus(p.status))
  }

  predicate ManagedZeroFill(r: Rows, status: Status, safe: bool) {
    status.Expired? && safe && ManagedEntry(r)
  }

  predicate ZeroFill(r: Rows, status: Status, reason: Reason, safe: bool) {
    || ManagedZeroFill(r, status, safe)
    || FirstOutboxExpiry(r, status, reason, safe)
    || FirstAgentRejection(r, status, reason, safe)
    || ReplayedZeroFill(r, status, safe)
  }

  // ---------------------------------------------------------------------------------------
  // Writing the rows

  function StrategyStatus(r: Rows, status: Status, reason: Reason, safe: bool): Status {
    if ZeroFill(r, status, reason, safe) then ReconciledZeroFill else status
  }

  function AttemptSource(c: Command, reason: Reason): Source {
    if c.deliveredAt.None? && reason.ExpiredBeforeDelivery? then LocalOutboxExpired else LocalAgentRejection
  }

  function PendingAfter(r: Rows, status: Status, reason: Reason, safe: bool): Option<Pending> {
    if r.pending.None? then None
    else
      var p := r.pending.value.(status := status, statusReason := reason);
      Some(if LifecycleOpen(r.pending) && PreExecutionStatus(status) && safe
           then p.(terminalSource := Some(AttemptSource(r.command, reason)))
           else p)
  }

  /** The intent status kept for a T order whose next attempt may still follow. */
  function OpenAttemptStatus(i: Intent): Status {
    if i.status.IntentPending? || i.status.Approved? || i.status.ExecutionReady? || i.status.ExecutionPending?
    then i.status
    else if i.executedVolume.Volume? && i.executedVolume.value > 0 && !i.executedPrice.UnreadablePrice?
    then PartialFilled
    else Queued
  }

  function IntentStatusAfter(r: Rows, i: Intent, status: Status, reason: Reason, safe: bool): Status {
    if LifecycleOpen(r.pending) && !status.ReconcileRequired? then OpenAttemptStatus(i)
    else StrategyStatus(r, status, reason, safe)
  }

  /** The intent carries a zero-fill proof made from local evidence alone. */
  predicate LocallyProven(i: Intent) {
    i.terminal.Some? && LocalSource(i.terminal.value.source)
  }

  function ProofSource(r: Rows, status: Status, reason: Reason, safe: bool): Source {
    if FirstOutboxExpiry(r, status, reason, safe) then LocalOutboxExpired
    else if FirstAgentRejection(r, status, reason, safe) then LocalAgentRejection
    else AgentCommandLifecycle
  }

  /** The proof this outcome adds to the intent; a replayed one is kept as it was written. */
  function NewProof(r: Rows, status: Status, reason: Reason, safe: bool, now: int): (t: Option<Terminal>)
    ensures t.Some? ==> !status.ReconcileRequired?
  {
    if !LifecycleOpen(r.pending) && ZeroFill(r, status, reason, safe) && !ReplayedZeroFill(r, status, safe)
    then Some(Terminal(ProofSource(r, status, reason, safe), reason, status, r.command.status, r.command.messageId, now))
    else None
  }

  function TerminalAfter(r: Rows, i: Intent, status: Status, reason: Reason, safe: bool, now: int): Option<Terminal> {
    if NewProof(r, status, reason, safe, now).Some? then NewProof(r, status, reason, safe, now)
    else if status.ReconcileRequired? && LocallyProven(i) then None
    else i.terminal
  }

  ghost function IntentAfter(r: Rows, status: Status, reason: Reason, safe: bool, now: int): Option<Intent> {
    if LoadedIntent(r).None? then r.intent
    else
      var i := LoadedIntent(r).value;
      Some(i.(status := IntentStatusAfter(r, i, status, reason, safe),
              notes := if reason.NoReason? then i.notes else reason,
              terminal := TerminalAfter(r, i, status, reason, safe, now)))
  }

  /** An intent with a settled status (none keeps a T attempt open), a note and possibly a new proof. */
  function WrittenIntent(i: Intent, status: Status, reason: Reason, settled: Option<Status>, proof: Option<Terminal>): Intent {
    i.(status := if settled.Some? then settled.value else OpenAttemptStatus(i),
       notes := if reason.NoReason? then i.notes else reason,
       terminal := if proof.Some? then proof else if status.ReconcileRequired? && LocallyProven(i) then None else i.terminal)
  }

  lemma IntentIsWritten(r: Rows, status: Status, reason: Reason, safe: bool, now: int)
    requires LoadedIntent(r).Some?
    ensures IntentAfter(r, status, reason, safe, now)
         == Some(WrittenIntent(LoadedIntent(r).value, status, reason,
                               if LifecycleOpen(r.pending) && !status.ReconcileRequired? then None
                               else Some(StrategyStatus(r, status, reason, safe)),
                               NewProof(r, status, reason, safe, now)))
  {
  }

  function ProjectedBatch(b: Batch, role: Role, status: Status, reason: Reason): Batch {
    if status.ReconcileRequired? then b.(status := BatchReconcileRequired, exceptionReason := reason)
    else match role
      case Entry => b.(status := if status.Expired? then EntryExpired else EntryRejected, exceptionReason := reason)
      case Exit => b.(status := ExitRejected, exceptionReason := reason)
      case NoRole => b
  }

  function BatchAfter(r: Rows, status: Status, reason: Reason): Option<Batch> {
    if LoadedBatch(r).Some? && (!LifecycleOpen(r.pending) || status.ReconcileRequired?)
    then Some(ProjectedBatch(LoadedBatch(r).value, r.pending.value.role, status, reason))
    else r.batch
  }

  function KeyOf(status: Status): EventKey {
    if status.ReconcileRequired? then ReconcileEvent else OrderEvent(status)
  }

  predicate Staged(events: seq<Event>, key: EventKey) {
    exists i :: 0 <= i < |events| && events[i].key == key
  }

  /** A runtime event leaves only for an attributable order, once per outcome key. */
  ghost predicate MayStage(r: Rows, status: Status) {
    && OwnerChainValid(r)
    && (r.correlation.value.intentId != "" ==> LoadedIntent(r).Some?)
    && !Staged(r.events, KeyOf(status))
  }

  ghost function EventsAfter(r: Rows, status: Status): seq<Event> {
    if MayStage(r, status)
    then
      assert ChainOwners(r)[2] == r.correlation.value.owner;
      r.events + [Event(KeyOf(status), OwnerTriple(r.correlation.value.owner).value)]
    else r.events
  }

  ghost function LandOn(r: Rows, status: Status, reason: Reason, safe: bool, now: int): Rows {
    r.(command := r.command.(status := status, lastError := reason),
       pending := PendingAfter(r, status, reason, safe),
       intent := if r.pending.None? then r.intent else IntentAfter(r, status, reason, safe, now),
       batch := BatchAfter(r, status, reason),
       events := if r.pending.None? then r.events
                 else EventsAfter(r, StrategyStatus(r, status, reason, safe)))
  }

  ghost function Transition(r: Rows, q: Request): Rows {
    var (status, reason) := Attributed(r, q);
    match Decide(r, q)
    case Keep => r
    case Land(landed, why) => LandOn(r, landed, why, SafeBeforeExecution(r, status, reason, q.proven), q.now)
  }
}
