/**
  The durable rows behind one trade command: the outbox command itself, the pending order,
  the order correlation, the trade intent and the T batch.  Columns that no lifecycle decision
  reads (prices, traces, JSON audit context) are left out.
 */
module TradeRows {
  import opened Prelude

  datatype OwnerType =
    | STRATEGY_RUN | T_ASSISTANT_EXECUTION | ENTRY_PLAN
    | BOARD_ASSISTANT_EXECUTION | EXIT_PLAN | MANUAL_COMMAND

  datatype Environment = PAPER | LIVE | BACKTEST

  /** Typed owner columns; `None` stands for a value outside the closed enumerations. */
  datatype Owner = Owner(
    ownerType: Option<OwnerType>,
    ownerId: string,
    environment: Option<Environment>,
    strategyRunId: string)

  datatype Triple = Triple(ownerType: OwnerType, ownerId: string, environment: Environment)

  datatype Kind = PlaceOrder | CancelOrder | EmergencyStop | OtherKind

  datatype Side = Buy | Sell | OtherSide

  datatype Role = Entry | Exit | NoRole

  /** Status words of the command, pending and intent rows; they share one vocabulary. */
  datatype Status =
    | Queued | Delivered | Acknowledged | Rejected | Expired | ReconcileRequired
    | CancelRequested | ReconciledZeroFill
    | IntentPending | Approved | ExecutionReady | ExecutionPending | PartialFilled
    | OtherStatus(name: string)

  datatype BatchStatus =
    | EntryQueued | ExitTriggered | EntryExpired | EntryRejected | ExitRejected
    | BatchReconcileRequired | OtherBatch(name: string)

  /** Reason texts, one constructor per text the lifecycle tells apart. */
  datatype Reason =
    | NoReason
    | CommandProcessing
    | CommandExpired
    | PhysicalSendCancelled
    | PreBrokerGate(gate: string)
    | ExpiredBeforeDelivery
    | DeliveredExpiredWithoutAck
    | AcceptedAckConflict
    | RejectedAckConflict
    | IndeterminateRejection
    | IndeterminateCancelRejection
    | OwnerBindingConflict
    | InvalidCommandPayload
    | PhysicalBindingMissing
    | PhysicalGateRejected
    | ProofMissing(requested: Reason)
    | FreeText(text: string)

  datatype Source = LocalOutboxExpired | LocalAgentRejection | AgentCommandLifecycle | OtherSource(name: string)

  datatype Terminal = Terminal(
    source: Source, reason: Reason, status: Status, previous: Status, messageId: string, at: int)

  /** A numeric column as `int()` or `float()` reads it. */
  datatype Volume = Volume(value: int) | UnreadableVolume
  datatype Price = Finite(value: real) | NotFinite | UnreadablePrice

  datatype Command = Command(
    messageId: string,
    clientOrderId: string,
    deviceId: string,
    kind: Kind,
    live: bool,
    owner: Owner,
    createdAt: int,
    expiresAt: int,
    status: Status,
    deliveredAt: Option<int>,
    acknowledgedAt: Option<int>,
    attempts: nat,
    lastError: Reason)

  datatype Pending = Pending(
    owner: Owner,
    status: Status,
    statusReason: Reason,
    brokerOrderId: string,
    intentId: string,
    batchId: string,
    role: Role,
    hasOriginalTime: bool,
    lifecycleFinished: bool,
    terminalSource: Option<Source>,
    entryPlanId: Option<string>,
    side: Side,
    accountId: string,
    instrument: string,
    brokerEvidence: bool)

  datatype Correlation = Correlation(
    owner: Owner,
    brokerOrderId: string,
    intentId: string,
    accountId: string,
    entryPlanId: Option<string>)

  datatype Intent = Intent(
    id: string,
    owner: Owner,
    status: Status,
    executedVolume: Volume,
    executedPrice: Price,
    hasExecutedTime: bool,
    direction: Side,
    accountId: string,
    instrument: string,
    entryPlanId: string,
    terminal: Option<Terminal>,
    notes: Reason)

  datatype Batch = Batch(status: BatchStatus, entryFilled: int, exitFilled: int, exceptionReason: Reason)

  datatype EventKey = ReconcileEvent | OrderEvent(status: Status)

  datatype Event = Event(key: EventKey, owner: Triple)

  /** One order's rows.  The intent and batch are the rows its pending order names. */
  datatype Rows = Rows(
    command: Command,
    pending: Option<Pending>,
    correlation: Option<Correlation>,
    intent: Option<Intent>,
    batch: Option<Batch>,
    events: seq<Event>)

  // ---------------------------------------------------------------------------------------
  // Owner identity

  predicate IsSpace(c: char) {
    c == ' ' || c == '\t' || c == '\n' || c == '\r'
  }

  predicate Trimmed(s: string) {
    s != "" ==> !IsSpace(s[0]) && !IsSpace(s[|s| - 1])
  }

  function Strip(s: string): (r: string)
    ensures Trimmed(r)
    ensures Trimmed(s) ==> r == s
    decreases |s|
  {
    if s == "" then s
    else if IsSpace(s[0]) then Strip(s[1..])
    else if IsSpace(s[|s| - 1]) then Strip(s[..|s| - 1])
    else s
  }

  /** The canonical owner of a row, read from typed columns only; malformed columns have none. */
  function OwnerTriple(o: Owner): (t: Option<Triple>) {
    if o.ownerType.None? || o.environment.None? then None
    else if o.ownerId == "" || !Trimmed(o.ownerId) then None
    else
      var run := Strip(o.strategyRunId);
      if run != "" && (o.ownerType.value != STRATEGY_RUN || run != o.ownerId) then None
      else Some(Triple(o.ownerType.value, o.ownerId, o.environment.value))
  }

  /** All rows share one canonical owner. */
  ghost predicate OneOwner(owners: seq<Owner>) {
    exists t: Triple :: owners != [] && forall i :: 0 <= i < |owners| ==> OwnerTriple(owners[i]) == Some(t)
  }

  /** The owner-chain check collects triples and compares each with the first one. */
  method DurableOwnerChainMatches(owners: seq<Owner>) returns (matches: bool)
    ensures matches <==> OneOwner(owners)
  {
    var triples: seq<Triple> := [];
    var i := 0;
    while i < |owners|
      invariant 0 <= i <= |owners|
      invariant |triples| == i
      invariant forall k :: 0 <= k < i ==> OwnerTriple(owners[k]) == Some(triples[k])
    {
      var triple := OwnerTriple(owners[i]);
      if triple.None? {
        return false;
      }
      triples := triples + [triple.value];
      i := i + 1;
    }
    if triples == [] {
      return false;
    }
    i := 1;
    while i < |triples|
      invariant 1 <= i <= |triples|
      invariant forall k :: 0 <= k < i ==> triples[k] == triples[0]
    {
      if triples[i] != triples[0] {
        assert OwnerTriple(owners[i]) != OwnerTriple(owners[0]);
        return false;
      }
      i := i + 1;
    }
    assert forall k :: 0 <= k < |owners| ==> OwnerTriple(owners[k]) == Some(triples[0]);
    return true;
  }

  // ---------------------------------------------------------------------------------------
  // Reason texts

  const COMMAND_EXPIRED := "command_expired"
  const PHYSICAL_SEND_CANCELLED := "command_cancelled_before_physical_send"
  const COMMAND_PROCESSING := "command_processing"
  const EXPIRED_BEFORE_DELIVERY := "command_expired_before_delivery"

  /** The pre-execution rejections other than the two above. */
  const PRE_BROKER_GATES: seq<string> := [
    "account_not_whitelisted", "data_only_agent", "execution_mode_mismatch",
    "local_emergency_stop", "invalid_command_payload", "invalid_command_expiry",
    "miniQMT trading connection unavailable", "miniQMT disconnected", "broker report stale",
    "invalid order command", "invalid A-share code", "invalid order side",
    "buy volume must be a board lot", "invalid protected limit price", "outside trading session",
    "insufficient cash", "insufficient available volume", "live market metadata unavailable",
    "live quote or instrument metadata unavailable", "market_stream_not_ready",
    "instrument suspended", "quote timestamp unavailable", "stale live quote",
    "incomplete live trading limits", "invalid price tick", "price outside daily limits",
    "limit-up buy blocked", "limit-down sell blocked"]

  /** The reason an Agent's acknowledgement text stands for. */
  function ReasonOf(text: string): (r: Reason) {
    if text == "" then NoReason
    else if text == COMMAND_PROCESSING then CommandProcessing
    else if text == COMMAND_EXPIRED then CommandExpired
    else if text == PHYSICAL_SEND_CANCELLED then PhysicalSendCancelled
    else if text == EXPIRED_BEFORE_DELIVERY then ExpiredBeforeDelivery
    else if text in PRE_BROKER_GATES then PreBrokerGate(text)
    else FreeText(text)
  }

  /** No two texts are read as the same reason. */
  lemma ReasonOfIsInjective(a: string, b: string)
    requires ReasonOf(a) == ReasonOf(b)
    ensures a == b
  {
    match ReasonOf(a)
    case NoReason =>
    case CommandProcessing => assert b == COMMAND_PROCESSING;
    case CommandExpired => assert b == COMMAND_EXPIRED;
    case PhysicalSendCancelled => assert b == PHYSICAL_SEND_CANCELLED;
    case ExpiredBeforeDelivery => assert b == EXPIRED_BEFORE_DELIVERY;
    case PreBrokerGate(gate) => assert a == gate == b;
    case FreeText(text) => assert a == text == b;
  }

  predicate PreExecutionRejection(r: Reason) {
    r.CommandExpired? || r.PhysicalSendCancelled? || r.PreBrokerGate?
  }
}
