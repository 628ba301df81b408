# QuantX: durable and replay-heavy behaviour, modelled and proved in Dafny

The project models the parts of QuantX whose correctness depends on whole runs, and proves what
holds of every run. `dafny verify dfyconfig.toml` checks all of it.

**Trade-command lifecycle.** `TradeRows` holds the five durable rows behind one command.
`PlaceOrderTransition` and `Lifecycle` say what a transition, an acknowledgement, an expiry, a
delivery claim and a physical-send gate do to them; class `LockedOrder` does it in place, branch by
branch. `LifecycleProperties`, `AckReplay` and `ZeroFillProofs` prove what runs of these steps keep.
`Outbox` and `OutboxProperties` put many orders together: bounded expiry batches and delivery order.

**Agent control pipeline.** `InboundBuffer` and `OutboundBuffer` are the two bounded buffers of a
connection, as classes and as worlds that interleave producers and consumers. `ReportPipeline`
joins them with report persistence, retries, resends and reconnects; `ReportConservation` counts the
copies of every report through it.

**Daily backfill.** `Calendar` has Gregorian arithmetic on day ordinals and the year and month
windows. `DailyJobs`, `DailyTiling` and `DailyCampaign` cut a campaign into rectangles of codes by
days, split them, and drive them to completion across restarts. `InfluxVerification`, `StoredBars`
and `InfluxVerdict` decide acceptance from month-chunked reads, and `CampaignAcceptance` joins the
verdicts with the campaign.

**Factor backfill.** `FactorCampaign` has attempts, idempotency keys, limits, histories and the
final verification.

**Leadership and fencing.** `HubControls`, `Hub` and `HubProperties` model the connection hub,
`MarketLease` the Redis lease script, `ApiGeneration` the API generation row.

**Smaller cores.** `JsonPointer` and `Pruning` (component closure), `Admission` (the two-semaphore
gate) and `RotatingLog`. `CodeOrder` has the order of codes and device ids.

## Reading the model

- Locks and transactions are atomic steps, and the hub's Redis calls succeed. Clocks, gates over
  services, verification verdicts and the answers of other systems are parameters, so every theorem
  holds for all of them.
- Reasons are a datatype with one constructor per text that a branch compares against; other texts
  are kept as free text. `ReasonOf` reads a text, injectively.
- Times are integers (microseconds), days are proleptic Gregorian ordinals. `InfluxVerdict` takes the
  local day of an instant as any nondecreasing function, stored rows as listed in time order, and reads
  that are exact for the requested codes; the table may hold any others.
- Digests (job ids, key digests, payload hashes) are injective: the daily job id carries the codes
  themselves, and the key digest is any injective function. Trimming and upper-casing of codes is any
  function.
- A control session is named by the number the hub gave it, so object identity is number equality.
  Dictionaries whose order matters carry that order.
- `Step`, `Next` and `Run` functions describe whole systems. Where the source updates objects in
  place, a class does so and its methods are proved equal to those functions.

## What the code does that its promises do not say

- Acknowledgement replay converges for T orders as well (`AckReplay.AckReplayConverges`). For
  `command_expired` the second application can still release a quarantined order;
  `AckReplay.SecondExpiredAck` gives the exact condition.
- The sweep leaves a queued order past its expiry unchanged when its pending row is a finished T replay
  of the same outcome (`Outbox.StuckExact`). At one time for all its batches the sweep loop ends if and only if
  there are fewer such rows than a batch holds; `Outbox.SweepCanRunForever` builds an outbox on which it does not. Runs of the
  server's own steps never produce such a row (`OutboxProperties.OwnRunsAreMirrored`).
- A report whose id is the heartbeats' shared key, or starts with the prefix of acknowledgement keys, can
  be dropped unanswered. `ReportPipeline.AccountedExact` shows that exactly these ids are not accounted for
  in every run. Deduplication fails for the heartbeats' key alone
  (`InboundBuffer.DeduplicationExact`).
- A queued heartbeat's key need not be pending, exactly after an earlier heartbeat finished while it was
  queued (`InboundBuffer.QueuedPendingStep`).
- An Agent that reports a queued order as processing keeps one order in flight if and only if it is the
  next in line (`OutboxProperties.ProcessingExact`).
- The outbound reply reserve is a promise if and only if it fits the capacity
  (`OutboundBuffer.ReplyPromiseExact`).
- The initial daily jobs tile the plan if and only if the benchmark is not also listed as a stock.
- A daily ledger can read `completed` while a job waits for re-verification, between the write that
  queues it and the write that sets the running status (`DailyCampaign.DoneWhileReverifying`). That is
  the only way: `DailyCampaign.StaysResolvedExact` and `DailyCampaign.DoneMeansResolved`.
- Annual windows fail for a range ending on 9999-12-31, monthly ones from 9999-12-01 on.
- A standby's registration can leave the leader without a reloaded control, and a registration that
  moves leadership gives the new leader no snapshot. `HubProperties.RegistrationExact` says exactly when,
  in terms of the hub before the registration.
- A process whose first heartbeat is not ready claims an absent generation row; its later ready
  heartbeat then retires no session (`ApiGeneration.EarlyClaimSkipsRetirement`).
- With a single connection the heartbeat reserve is empty (`Admission.ReserveExact`).

## Model

| member | source | states |
|---|---|---|
| `TradeRows.DurableOwnerChainMatches` | apps/api/src/quantx_api/agent_api.py:912-925 | true exactly when there is at least one row and all rows read as one canonical owner triple; a malformed row matches nothing |
| `TradeRows.ReasonOfIsInjective` | apps/api/src/quantx_api/agent_api.py:843-878 | no two acknowledgement texts are read as the same reason, so reasons may be compared in place of texts |
| `LockedOrderModel.LockedOrder.StageRuntimeEvent` | apps/api/src/quantx_api/agent_api.py:1006-1132 | stages at most one event per outcome key, for the chain's owner, and nothing for a broken chain |
| `LockedOrderModel.LockedOrder.ProjectBatchStatus` | apps/api/src/quantx_api/agent_api.py:1135-1159 | the batch takes the status its order's role and outcome call for; an order without a batch changes none |
| `LockedOrderModel.LockedOrder.PreExecutionProof` | apps/api/src/quantx_api/agent_api.py:1228-1318 | the proof expression, for open T orders and others, equals the specified notion of proven before execution |
| `LockedOrderModel.LockedOrder.DecideOutcome` | apps/api/src/quantx_api/agent_api.py:1178-1338 | keeps a finished T replay, else lands on the requested outcome or on quarantine as the specified decision says |
| `LockedOrderModel.LockedOrder.TransitionPlaceOrder` | apps/api/src/quantx_api/agent_api.py:1162-1555 | the method over the five locked rows and the event list has the effect of the transition function the lemmas below are about |
| `LockedOrderModel.LockedOrder.RecordAck` | apps/api/src/quantx_api/agent_api.py:1724-1834 | one acknowledgement in place has the effect of the acknowledgement step; a foreign client order id is refused and changes nothing |
| `LockedOrderModel.LockedOrder.ExpireIfDue` | apps/api/src/quantx_api/agent_api.py:1606-1672 | one row of the sweep has the effect of the sweep step and is counted only when it was due |
| `LockedOrderModel.LockedOrder.ClaimForDelivery` | apps/api/src/quantx_api/agent_api.py:2164-2236 | the claim has the effect of the delivery step: quarantine of a malformed queued payload, refusal, or a counted delivery |
| `LockedOrderModel.LockedOrder.PhysicalSend` | packages/infrastructure/src/quantx_infrastructure/services/account_execution_quarantine_service.py:985-1217 | the gate before the socket write has the effect of the send step; a frame is written only when no row changed and every gate passed |
| `LifecycleProperties.TransitionGrants` | apps/api/src/quantx_api/agent_api.py:1201-1338 | for every request for EXPIRED or REJECTED: a finished T order of one owner that already carries it is left as it is; else it is granted if and only if all rows share one owner, no broker order id, fill or execution exists and the pending row admits it; else RECONCILE_REQUIRED, and pending follows the command |
| `LifecycleProperties.TerminalNeedsProof` | apps/api/src/quantx_api/agent_api.py:1201-1338 | any step (acknowledgement, sweep, claim, send, or a write of the rows beside the command) that makes a PLACE_ORDER EXPIRED or REJECTED finds it provably unexecuted |
| `LifecycleProperties.TerminalWasProven` | apps/api/src/quantx_api/agent_api.py:1162-1555 | over every run of the server's steps and of writers of the rows beside the command, a terminal PLACE_ORDER was provably unexecuted at the step that decided it and has kept that status since |
| `LifecycleProperties.SettledForever` | apps/api/src/quantx_api/agent_api.py:1743-1831 | no run of steps returns a RECONCILE_REQUIRED, EXPIRED or REJECTED PLACE_ORDER to QUEUED, DELIVERED or ACKNOWLEDGED |
| `LifecycleProperties.ControlRevival` | apps/api/src/quantx_api/agent_api.py:1750-1776 | a settled cancel or emergency command is revived exactly by an accepted acknowledgement, and only to ACKNOWLEDGED |
| `LifecycleProperties.DeliveredExpiryReconciles` | apps/api/src/quantx_api/agent_api.py:1625-1672 | a DELIVERED command that expires un-acknowledged becomes RECONCILE_REQUIRED, pending row included, never EXPIRED |
| `LifecycleProperties.EventsStagedOnce` | apps/api/src/quantx_api/agent_api.py:1006-1132 | over every run each outcome key is staged at most once, always for the command's own owner, and no staged event disappears |
| `AckReplay.AckReplayConverges` | apps/api/src/quantx_api/agent_api.py:1724-1834 | for every reason but `command_expired` the same acknowledgement twice leaves the status once leaves, whatever the rows hold, T orders included |
| `AckReplay.SecondExpiredAck` | apps/api/src/quantx_api/agent_api.py:1724-1834 | a second `command_expired` changes the status exactly when the first one quarantined an order that is unexecuted, attributable, outside an open T lifecycle and without a batch; then it becomes EXPIRED |
| `AckReplay.ExpiredAckConverges` | apps/api/src/quantx_api/agent_api.py:1724-1834 | a third `command_expired` never changes what the second left |
| `ZeroFillProofs.ReconciliationErases` | apps/api/src/quantx_api/agent_api.py:1498-1517 | every landing on RECONCILE_REQUIRED leaves no locally sourced zero-fill proof on the intent |
| `ZeroFillProofs.GrantWritesSoundProof` | apps/api/src/quantx_api/agent_api.py:1349-1534 | a grant writes a local proof only with a RECONCILED_ZERO_FILL intent, zero execution, no broker id and a pending row in the command's terminal status |
| `ZeroFillProofs.ProofsStandOverRuns` | apps/api/src/quantx_api/agent_api.py:1349-1534 | over every run of the server's own steps a local proof is carried only while all it asserts holds |
| `ZeroFillProofs.LifecycleSourceSurvives` | apps/api/src/quantx_api/agent_api.py:1498-1517 | a proof sourced from the Agent's lifecycle report survives reconciliation unchanged |
| `Outbox.CommandOutbox.ExpireBatch` | apps/api/src/quantx_api/agent_api.py:1574-1673 | converges exactly the soonest due rows up to the limit, leaves all others alone and counts them |
| `Outbox.CommandOutbox.SweepExpired` | apps/api/src/quantx_api/agent_api.py:1676-1700 | on every outbox and for any clock, read again for each batch: every row is untouched or was swept exactly once; the batch that ends the loop finds fewer rows stuck than it holds and leaves nothing due but those; the loop does end within as many batches as there are live rows if no batch time finds that many stuck |
| `Outbox.StuckExact` | apps/api/src/quantx_api/agent_api.py:1589-1673 | a due row is still due after the sweep if and only if it is a queued PLACE_ORDER of one owner whose finished T lifecycle already carries the sweep's outcome |
| `Outbox.StuckRowsKeepSweeping` | apps/api/src/quantx_api/agent_api.py:1676-1700 | with at least a batch of stuck rows every batch comes back full, so the loop never ends |
| `Outbox.SweepCanRunForever` | apps/api/src/quantx_api/agent_api.py:1676-1700 | for every batch size, an outbox of that many stuck rows, on which a batch changes nothing and comes back full |
| `Outbox.SweepIdempotent` | apps/api/src/quantx_api/agent_api.py:1589-1673 | sweeping a row again at the same time changes nothing |
| `Outbox.BatchClears` | apps/api/src/quantx_api/agent_api.py:1574-1673 | a batch removes from the due rows exactly its rows that are not stuck, and makes progress whenever stuck rows do not fill it |
| `Outbox.CommandOutbox.ClaimNext` | apps/api/src/quantx_api/agent_api.py:2133-2236 | claims only a row that is the oldest pressing command, or the oldest other one while no fresh delivery is outstanding; a sent row is DELIVERED; when every gate passes, nothing is sent only if nothing is claimable |
| `Outbox.ExpiryLeavesClaims` | apps/api/src/quantx_api/agent_api.py:2118-2130 | the expiry batch that precedes a claim changes neither which rows may be claimed nor any such row |
| `OutboxProperties.ClaimKeepsOrder` | apps/api/src/quantx_api/agent_api.py:2133-2236 | a claim keeps every device's outstanding DELIVERED order alone and older than its queued ones |
| `OutboxProperties.OneInFlightAlways` | apps/api/src/quantx_api/agent_api.py:2107-2241 | with increasing creation times, a clock that does not go back and no order reported as processing before its turn, at every moment each device has at most one unexpired DELIVERED order that is no cancel or emergency stop, and it is older than every such queued one |
| `OutboxProperties.SentAckIsLegal` | apps/api/src/quantx_api/agent_api.py:1735-1742 | an Agent that acknowledges only what it was sent never breaks that rule |
| `OutboxProperties.ProcessingExact` | apps/api/src/quantx_api/agent_api.py:1735-1742 | reporting a queued order as processing keeps one order in flight if and only if no outstanding order of its device is delivered and no queued one is older, or it is not outstanding itself |
| `OutboxProperties.UnsentAckPutsTwoInFlight` | apps/api/src/quantx_api/agent_api.py:1735-1742 | a run from the empty outbox to a state in which such a report puts two orders in flight |
| `OutboxProperties.OwnRunsAreMirrored` | apps/api/src/quantx_api/agent_api.py:1162-1555 | over the server's own runs a terminal pending row always belongs to a command settled alike, and no row is ever stuck for the sweep |
| `InboundBuffer.AgentInboundBuffer.PutItem` | apps/api/src/quantx_api/agent_api.py:377-413 | in place: an error only for an oversized frame, acceptance exactly under the lane's bounds and the duplicate check, the latest heartbeat replacing the queued one |
| `InboundBuffer.AgentInboundBuffer.GetItem` | apps/api/src/quantx_api/agent_api.py:415-423 | hands out the head of the lane and gives back its bytes |
| `InboundBuffer.AgentInboundBuffer.CompleteItem` | apps/api/src/quantx_api/agent_api.py:425-430 | releases the item's key and changes nothing else |
| `InboundBuffer.InboundAlways` | apps/api/src/quantx_api/agent_api.py:349-447 | over every interleaving: bytes exact and within each lane's bounds, durable and acknowledgement lanes FIFO of what was accepted, the heartbeat lane empty or the latest accepted; no two durable or acknowledgement items queued or in process share a key when no report uses the heartbeats' key |
| `InboundBuffer.DeduplicationExact` | apps/api/src/quantx_api/agent_api.py:377-430 | a non-empty key is carried by at most one durable or acknowledgement item, queued or in process, in every run if and only if it is not the heartbeats' key |
| `InboundBuffer.HeartbeatKeyBreaksDeduplication` | apps/api/src/quantx_api/agent_api.py:383-391 | a run in which a report named like the heartbeats' key is in process twice |
| `InboundBuffer.QueuedPendingStep` | apps/api/src/quantx_api/agent_api.py:377-430 | from a state in which every queued key is pending, a move breaks that if and only if it finishes a heartbeat while another is queued |
| `InboundBuffer.QueuedPendingAlways` | apps/api/src/quantx_api/agent_api.py:349-447 | queued keys are pending at every moment of every run without such a move and without a report of the heartbeats' name |
| `InboundBuffer.QueuedHeartbeatMayLoseItsKey` | apps/api/src/quantx_api/agent_api.py:425-430 | a run in which finishing an earlier heartbeat drops the key the queued one still uses |
| `OutboundBuffer.AgentOutboundBuffer.PutFrame` | apps/api/src/quantx_api/agent_api.py:467-503 | in place: refuses exactly a duplicate key, else inserts by urgency and arrival and keeps the counters |
| `OutboundBuffer.AgentOutboundBuffer.PushOrdered` | apps/api/src/quantx_api/agent_api.py:485-495 | ordered insertion by urgency, then arrival |
| `OutboundBuffer.AgentOutboundBuffer.GetFrame` | apps/api/src/quantx_api/agent_api.py:505-512 | takes the first item and gives back its work slot |
| `OutboundBuffer.AgentOutboundBuffer.CompleteFrame` | apps/api/src/quantx_api/agent_api.py:514-519 | releases the item's key and changes nothing else |
| `OutboundBuffer.OutboundAlways` | apps/api/src/quantx_api/agent_api.py:450-528 | over every interleaving: queued items sorted, nothing accepted lost or invented, the work count exact and within capacity minus reserve, each non-empty key held by exactly one queued or unsent item |
| `OutboundBuffer.TakesTheLeast` | apps/api/src/quantx_api/agent_api.py:505-512 | the item taken is the least by urgency and arrival of all put and not yet taken |
| `OutboundBuffer.ReplyAdmissible` | apps/api/src/quantx_api/agent_api.py:467-485 | a protocol reply is admissible while fewer replies than the reserve are queued, if the reserve fits the capacity |
| `OutboundBuffer.ReplyPromiseExact` | apps/api/src/quantx_api/agent_api.py:453-485 | in every run a reply is admissible while fewer than the reserve are queued, if and only if the reserve fits the capacity |
| `ReportPipeline.ReportInbox.Record` | apps/api/src/quantx_api/agent_api.py:1895-1987 | commits a new report, answers a matching one by its hash, refuses to choose among several; an accepted answer has a row with the same hash |
| `ReportPipeline.NoReportIsLost` | apps/api/src/quantx_api/agent_api.py:2379-2526 | at every moment of every run, other connections inserting into the inbox too, each report received on a live connection is at the receiver, queued, in process or answered, and every accepted answer on this or an earlier connection has its durable row |
| `ReportPipeline.InboxOnlyGrows` | apps/api/src/quantx_api/agent_api.py:1895-1987 | over every run the inbox only grows, so an accepted report stays recorded |
| `ReportPipeline.ResentReportIsDuplicate` | apps/api/src/quantx_api/agent_api.py:1895-1987 | a report whose first copy committed unseen is accepted as a duplicate and stored once |
| `ReportPipeline.ForeignKeyReportIsDropped` | apps/api/src/quantx_api/agent_api.py:2379-2447 | for every id that a heartbeat or an acknowledgement can use as its key, and frames of any size that fits, a run in which a report of that id is dropped unanswered |
| `ReportPipeline.AccountedExact` | apps/api/src/quantx_api/agent_api.py:2379-2526 | every run accounts for a received id if and only if no heartbeat or acknowledgement can use it as its key |
| `ReportConservation.CopiesAreConserved` | apps/api/src/quantx_api/agent_api.py:2379-2526 | at every moment of every run, for every id: copies read are stored, refused, dropped or at the receiver, and stored plus refused copies equal replies enqueued plus queued copies plus processors that still owe a reply |
| `ReportConservation.EveryCopyIsAnsweredOnce` | apps/api/src/quantx_api/agent_api.py:2379-2526 | once nothing is queued or owed, stored and refused copies of an id have exactly one reply each, however often it was resent |
| `Calendar.DateRoundTrip` | apps/worker/scripts/backfill_daily_market_data.py:296-304 | the calendar date of the ordinal of a valid date is that date, under real Gregorian leap years |
| `Calendar.YearLength` | apps/worker/scripts/backfill_daily_market_data.py:307-317 | months fill a year exactly, leap years included |
| `Calendar.AnnualWindows` | apps/worker/scripts/backfill_daily_market_data.py:307-317 | succeeds exactly when start <= end < 9999-12-31; then the windows partition the range, each within one calendar year, years in turn |
| `Calendar.CalendarMonthWindows` | apps/worker/scripts/backfill_daily_market_data.py:320-343 | succeeds exactly when start <= end < 9999-12-01; then the windows partition the range, each within one calendar month, months in turn |
| `Calendar.ExactlyOneWindow` | apps/worker/scripts/backfill_daily_market_data.py:320-343 | every day of a partitioned range lies in exactly one window |
| `DailyJobs.ActiveCodes` | apps/worker/scripts/backfill_daily_market_data.py:404-425 | exactly the codes listed on some day of the window, sorted, each once |
| `DailyJobs.BatchJobs` | apps/worker/scripts/backfill_daily_market_data.py:426-440 | the batches in list order, disjoint, within the size, covering exactly codes by days of the window |
| `DailyJobs.BuildJobs` | apps/worker/scripts/backfill_daily_market_data.py:380-455 | succeeds exactly for a batch size in 1..300 and a valid range; the jobs are, window by window, the batches of the sorted normalised codes listed in it and the benchmark, cover exactly those cells, are disjoint per base and within the batch size |
| `DailyJobs.ListsAreUnique` | apps/worker/scripts/backfill_daily_market_data.py:397-425 | the code lists, and so the jobs, do not depend on the order of the instruments |
| `DailyJobs.InitialJobsDisjoint` | apps/worker/scripts/backfill_daily_market_data.py:380-455 | the initial jobs overlap nowhere if and only if the benchmark is not also listed as a stock |
| `DailyJobs.SplitJob` | apps/worker/scripts/backfill_daily_market_data.py:458-492 | gives the halves of the codes, else of the days, else none |
| `DailyJobs.HalvesPartition` | apps/worker/scripts/backfill_daily_market_data.py:458-492 | halves are two fresh non-empty jobs of the next attempt that partition the parent's cells; only a single cell has none |
| `DailyTiling.InitialTiling` | apps/worker/scripts/backfill_daily_market_data.py:380-455 | disjoint initial jobs tile themselves |
| `DailyTiling.CousinsApart` | apps/worker/scripts/backfill_daily_market_data.py:458-492 | a job of the kind a split would create shares no cell with the job to be split |
| `DailyTiling.HalvesAreNew` | apps/worker/scripts/backfill_daily_market_data.py:1217-1224 | the id filter of a split never drops a half: no job of the ledger has its id |
| `DailyTiling.SplitKeepsTiling` | apps/worker/scripts/backfill_daily_market_data.py:1199-1225 | a split keeps the live jobs disjoint and covering exactly the planned cells |
| `DailyTiling.RelabelKeepsTiling` | apps/worker/scripts/backfill_daily_market_data.py:1838-2335 | status changes that supersede nothing keep the tiling |
| `DailyTiling.ExactlyOneLiveJob` | apps/worker/scripts/backfill_daily_market_data.py:458-492 | in a tiling every planned cell lies in exactly one job that is not superseded |
| `DailyTiling.IdsAreDistinct` | apps/worker/scripts/backfill_daily_market_data.py:351-353 | no two jobs of a ledger, superseded ones included, share an id |
| `DailyCampaign.Driver.NextJob` | apps/worker/scripts/backfill_daily_market_data.py:1188-1196 | the first job that is pending, running or waiting for verification, if any |
| `DailyCampaign.Driver.Turn` | apps/worker/scripts/backfill_daily_market_data.py:1815-2335 | one turn of the main loop in place, submission and the poll after it included, has the effect of the look step |
| `DailyCampaign.Driver.AppendSplitChildren` | apps/worker/scripts/backfill_daily_market_data.py:1199-1225 | succeeds exactly within the depth, splittability and total-job limits and then adds both halves; otherwise changes nothing |
| `DailyCampaign.Driver.QueueOutdatedVerifications` | apps/worker/scripts/backfill_daily_market_data.py:1651-1666 | queues exactly the completed jobs verified under an older version |
| `DailyCampaign.Driver.FlowEnded` | apps/worker/scripts/backfill_daily_market_data.py:2268-2335 | completes, splits or fails the job of an ended flow as the step function says |
| `DailyCampaign.TilingAlways` | apps/worker/scripts/backfill_daily_market_data.py:380-492 | at every point of every run, restarts and crashes included, the jobs not superseded are disjoint and cover exactly the cells of the initial jobs |
| `DailyCampaign.BuiltJobsPlan` | apps/worker/scripts/backfill_daily_market_data.py:380-455 | the jobs built from the instruments are a disjoint plan if and only if the benchmark is not also listed as a stock |
| `DailyCampaign.PlannedCellsAlways` | apps/worker/scripts/backfill_daily_market_data.py:380-492 | from the instruments to any point of any run: a code and day lie in a job that is not superseded if and only if the code is listed, or is the benchmark, in that day's window |
| `DailyCampaign.LimitsAlways` | apps/worker/scripts/backfill_daily_market_data.py:1206-1214 | split depth and job count stay within their limits in every run |
| `DailyCampaign.SoundAlways` | apps/worker/scripts/backfill_daily_market_data.py:1696-2356 | over every run completed jobs carry a passing verification, current while the loop runs, and re-verification jobs are read-only |
| `DailyCampaign.CompletionExact` | apps/worker/scripts/backfill_daily_market_data.py:1817-1833 | the loop reports completion if and only if every job not superseded is completed |
| `DailyCampaign.CompletedMeansVerified` | apps/worker/scripts/backfill_daily_market_data.py:1817-1833 | then each planned cell lies in exactly one job that is not superseded, and it is completed and verified at the current version |
| `DailyCampaign.DoneMeansOnceVerified` | apps/worker/scripts/backfill_daily_market_data.py:1680-1693 | while a ledger reads completed, each planned cell lies in exactly one such job, and it passed some verification |
| `DailyCampaign.DoneWhileReverifying` | apps/worker/scripts/backfill_daily_market_data.py:1787-1794 | a run in which the ledger still reads completed while a job waits for re-verification |
| `DailyCampaign.StaysResolvedExact` | apps/worker/scripts/backfill_daily_market_data.py:1651-1694 | in any run, while a ledger with every live job completed goes on reading completed, an event leaves a job unresolved if and only if it is the driver, booting, queueing a job verified under an older version |
| `DailyCampaign.DoneMeansResolved` | apps/worker/scripts/backfill_daily_market_data.py:1651-1694 | in every run without such an event a ledger that reads completed has every job that is not superseded completed, at every moment |
| `DailyCampaign.CompletedStaysDelivered` | apps/worker/scripts/backfill_daily_market_data.py:1881-1948 | a job once completed is never submitted, made pending or split again in any later run |
| `InfluxVerification.SortedDistinctMeans` | apps/worker/scripts/backfill_daily_market_data.py:836-846 | the sorted distinct list is strictly ascending, has the same members, and is as long as the input exactly when nothing repeats |
| `InfluxVerification.SummariesAgree` | apps/worker/scripts/backfill_daily_market_data.py:929-943 | against keys without repetition, summaries are equal if and only if the keys are equal and the stored ones do not repeat |
| `InfluxVerification.ExpectedDailyKeys` | apps/worker/scripts/backfill_daily_market_data.py:795-856 | succeeds if and only if chunks are contiguous, checksummed and counted, every record is an object of a requested code, daily and timed, and no key repeats; then the summaries are those of the transferred keys |
| `StoredBars.TimesSplit` | apps/worker/scripts/backfill_daily_market_data.py:875-907 | the times of a range are those of its first part followed by those of the rest |
| `StoredBars.CountsSplit` | apps/worker/scripts/backfill_daily_market_data.py:895-905 | row and distinct counts of adjacent windows add up, no key lying in both |
| `StoredBars.MergeInto` | apps/worker/scripts/backfill_daily_market_data.py:895-907 | accumulates one read into the totals entry by entry |
| `InfluxVerdict.ReadMonths` | apps/worker/scripts/backfill_daily_market_data.py:864-907 | month-chunked reads that are exact for the requested codes accumulate to reads of the whole range exact for them, and hold another code if and only if some month's read did |
| `InfluxVerdict.SumOverReturned` | apps/worker/scripts/backfill_daily_market_data.py:908-915 | the codes an exact read returns sum to as many rows as all requested codes do, whatever else the table holds |
| `InfluxVerdict.VerifyInflux` | apps/worker/scripts/backfill_daily_market_data.py:859-970 | with reads exact for the requested codes, answers ok if and only if no read returned another code and each requested code is stored with exactly its transferred keys, none twice; fails only for a range that reaches the last month |
| `InfluxVerdict.AuditAndVerify` | apps/worker/scripts/backfill_daily_market_data.py:1309-1346 | from audit and chunks to the verdict: passes if and only if the transfer is sound and complete, stored as sent and no read returned another code; the last part holds by itself when the reads filter by the requested codes |
| `CampaignAcceptance.CompletedJobsAreAccepted` | apps/worker/scripts/backfill_daily_market_data.py:1841-2300 | when passing verdicts are those of the verification and the audit and bars of completed jobs are left alone, every completed job is acceptable at that time, at every point of every run |
| `CampaignAcceptance.CompletedCampaignIsStored` | apps/worker/scripts/backfill_daily_market_data.py:1817-1833 | when the campaign completes, each planned cell lies in exactly one job that is not superseded, and its code is stored over that job's days with exactly the keys sent for it |
| `FactorCampaign.BuildJobs` | apps/worker/scripts/backfill_divid_factors.py:280-297 | succeeds exactly for a batch size in 1..500; the jobs in order hold exactly the normalised non-blank codes, sorted, each once, in full batches but for the last |
| `FactorCampaign.Driver.RetryFailedJobs` | apps/worker/scripts/backfill_divid_factors.py:816-854 | reopens exactly the failed jobs and the jobs whose verification failed once, the latter under a new attempt |
| `FactorCampaign.Driver.ReverifyCompletedJobs` | apps/worker/scripts/backfill_divid_factors.py:892-935 | re-verifies completed jobs in order and fails the first that does not pass |
| `FactorCampaign.Driver.Finish` | apps/worker/scripts/backfill_divid_factors.py:1026-1083 | fails while any job is incomplete, else completes or fails by the final verification |
| `FactorCampaign.Driver.RequestFailed` | apps/worker/scripts/backfill_divid_factors.py:1202-1240 | records the attempt, advances it and leaves the job pending below its limit or failed at it |
| `FactorCampaign.AppendHistory` | apps/worker/scripts/backfill_divid_factors.py:244-252 | the new event is kept last; older ones are dropped from the front, and only beyond fifty |
| `FactorCampaign.HistoryIsLatest` | apps/worker/scripts/backfill_divid_factors.py:244-252 | however many events were appended, a history holds exactly the latest of them, all up to fifty |
| `FactorCampaign.SoundAlways` | apps/worker/scripts/backfill_divid_factors.py:938-1311 | over every run: histories ascending, below the current attempt and at most fifty long, an open job with a limit below it, failure counters below their stops, and `completed` only with every job completed and stamped by the last pass |
| `FactorCampaign.AttemptsNeverDecrease` | apps/worker/scripts/backfill_divid_factors.py:816-935 | no job's attempt ever goes down in any run |
| `FactorCampaign.FailedKeyIsNeverReissued` | apps/worker/scripts/backfill_divid_factors.py:427-446 | after a terminal failure of a request or of the final verification, its key is never the key of any job again |
| `FactorCampaign.ReverifiedAll` | apps/worker/scripts/backfill_divid_factors.py:892-935 | a pass succeeds if and only if every verdict is positive, and then every job carries its stamp |
| `FactorCampaign.CompletionExact` | apps/worker/scripts/backfill_divid_factors.py:1024-1083 | completion is reported if and only if every job is completed and every one is verified in that same pass |
| `HubControls.LoadActiveControls` | apps/api/src/quantx_api/agent_hub.py:155-166 | exactly the readable quote fields of the hash are loaded, in order, under their field names |
| `HubControls.ReplaySnapshot` | apps/api/src/quantx_api/agent_hub.py:177-185 | after a snapshot an Agent holds exactly the active controls if and only if every control subscribes under its own id |
| `HubControls.ReplayIsWellFormed` | apps/api/src/quantx_api/agent_hub.py:168-185 | whatever was queued, an Agent holds only subscribing controls under their own ids |
| `HubControls.UpdatedReplays` | apps/api/src/quantx_api/agent_hub.py:453-460 | a dispatched control changes the active controls and the replay of the queue alike |
| `Hub.SelectMeans` | apps/api/src/quantx_api/agent_hub.py:187-199 | someone is selected if and only if someone is eligible, and it is the first eligible by device id |
| `Hub.ConnectionHub.SelectMarketSession` | apps/api/src/quantx_api/agent_hub.py:187-199 | the loop selects what the specification selects |
| `Hub.ConnectionHub.Register` | apps/api/src/quantx_api/agent_hub.py:211-263 | registration in place: the previous session revoked, controls reloaded, leader kept or chosen, snapshot or standby reset queued, lease published |
| `Hub.ConnectionHub.Revoke` | apps/api/src/quantx_api/agent_hub.py:265-284 | revokes the device's session and, if it led, fails over with a snapshot and a new lease |
| `Hub.ConnectionHub.Unregister` | apps/api/src/quantx_api/agent_hub.py:352-369 | acts only for the session still registered; fails over if it led |
| `Hub.ConnectionHub.Dispatch` | apps/api/src/quantx_api/agent_hub.py:447-460 | ignores foreign kinds and empty ids; otherwise updates the active controls and queues the control to the leader |
| `Hub.ConnectionHub.ReconcileSelectedSession` | apps/api/src/quantx_api/agent_hub.py:462-467 | reloads the controls and queues a snapshot to the leader |
| `Hub.ConnectionHub.RefreshMarketDevice` | apps/api/src/quantx_api/agent_hub.py:434-445 | republishes the lease only for the leader's registered session |
| `HubProperties.ValidAlways` | apps/api/src/quantx_api/agent_hub.py:99-494 | after every run there is a leader if and only if an eligible session exists and the leader is eligible; every session no longer registered is revoked; the published lease names the leader's session |
| `HubProperties.ReplacedSessionIsFenced` | apps/api/src/quantx_api/agent_hub.py:240-245 | a replaced session is revoked, is never the leader's, and its late unregister changes nothing |
| `HubProperties.FailoverInStep` | apps/api/src/quantx_api/agent_hub.py:275-283 | after a failover the new leader's queue gives the active controls if and only if they are well formed |
| `HubProperties.RegisterInStep` | apps/api/src/quantx_api/agent_hub.py:240-262 | a leader's registration is in step if and only if the loaded controls are well formed; any other registration if and only if the leader's queue already gave what was loaded |
| `HubProperties.DispatchInStep` | apps/api/src/quantx_api/agent_hub.py:447-460 | each dispatch keeps the leader's queue in step with the active controls |
| `HubProperties.ReconcileInStep` | apps/api/src/quantx_api/agent_hub.py:462-467 | reconciling puts the leader in step if and only if the loaded controls are well formed |
| `HubProperties.StandbyAlways` | apps/api/src/quantx_api/agent_hub.py:240-262 | in every run each session that is fit but does not lead was only told to reset |
| `HubProperties.RegistrationExact` | apps/api/src/quantx_api/agent_hub.py:240-262 | a registration puts a hub in step out of step if and only if, before it, another device led and the loaded controls differ from the active ones, or its device led, gives up the capability, another session is eligible and controls are loaded at all |
| `HubProperties.StepInStep` | apps/api/src/quantx_api/agent_hub.py:211-467 | from a hub in step, exactly those registrations put it out of step; every other operation keeps it |
| `HubProperties.InStepAlways` | apps/api/src/quantx_api/agent_hub.py:211-467 | after every run without such a registration, replaying the leader's queue yields exactly the active controls |
| `HubProperties.StandbyRegistrationFallsBehind` | apps/api/src/quantx_api/agent_hub.py:240-262 | a run in which a standby's registration leaves the leader without a newly loaded control |
| `HubProperties.MovedLeaderHoldsNothing` | apps/api/src/quantx_api/agent_hub.py:240-262 | a run in which leadership moves to a standby that never got a snapshot |
| `MarketLease.LeaseKey.Update` | apps/api/src/quantx_api/agent_hub.py:34-64 | one script call: what the key holds afterwards and when it answers 1 |
| `MarketLease.LeaseStep` | apps/api/src/quantx_api/agent_hub.py:34-64 | a held lease is freed only by expiry or its owner, and changes hands if and only if a process with a strictly later start puts it |
| `MarketLease.LeaseOnlyAdvances` | apps/api/src/quantx_api/agent_hub.py:34-64 | while the lease is not freed its start never goes back and a new owner started strictly later, over every interleaving |
| `MarketLease.LostLeaseStaysLost` | apps/api/src/quantx_api/agent_hub.py:34-64 | a process that lost the lease does not get it back before it is freed |
| `ApiGeneration.HeartbeatTable.WriteHeartbeat` | apps/api/src/quantx_api/api_runtime.py:28-101 | one heartbeat write in place, retirement loop included, has the effect of the write function |
| `ApiGeneration.OwnerChanges` | apps/api/src/quantx_api/api_runtime.py:58-74 | the row changes owner if and only if a ready heartbeat comes from a process with a strictly later start |
| `ApiGeneration.GenerationOnlyAdvances` | apps/api/src/quantx_api/api_runtime.py:28-101 | over every interleaving the generation's start never goes back |
| `ApiGeneration.SupersededForever` | apps/api/src/quantx_api/api_runtime.py:58-70 | however late a superseded process writes, it changes nothing |
| `ApiGeneration.TakeoverRetires` | apps/api/src/quantx_api/api_runtime.py:75-100 | after taking the generation with retirement no other process has an active session, except that a row the process already owned retires nobody; its own and inactive sessions are untouched |
| `ApiGeneration.EarlyClaimSkipsRetirement` | apps/api/src/quantx_api/api_runtime.py:41-57 | a first write that is not ready claims an absent row, and the ready write after it retires nobody |
| `JsonPointer.UnescapeMeans` | apps/api/src/quantx_api/client_contracts.py:70 | replacing `~1` and then `~0` reads every token as one left-to-right pass does (section 4 of RFC 6901) |
| `JsonPointer.OtherOrderExact` | apps/api/src/quantx_api/client_contracts.py:70 | the other order of the two replacements reads a token right if and only if no escaped tilde stands before a digit one in it |
| `JsonPointer.PointerRoundTrip` | apps/api/src/quantx_api/client_contracts.py:69-70 | any list of keys is read back from its escaped pointer |
| `JsonPointer.ComponentKeys` | apps/api/src/quantx_api/client_contracts.py:49-70 | a component reference names something inside the components |
| `Pruning.ResolvePointer` | apps/api/src/quantx_api/client_contracts.py:67-74 | the walk finds a value exactly when the pointer resolves |
| `Pruning.InsertWorks` | apps/api/src/quantx_api/client_contracts.py:77-87 | inserting a source value into a part of the source never meets a non-object, keeps it a part, and the value is found there |
| `Pruning.InsertKeeps` | apps/api/src/quantx_api/client_contracts.py:77-87 | it keeps every value already copied, also when one place lies inside the other |
| `Pruning.InsertAddsOnlyThere` | apps/api/src/quantx_api/client_contracts.py:77-87 | a new place lies on the way to the inserted value or inside it |
| `Pruning.RefsOfResolved` | apps/api/src/quantx_api/client_contracts.py:49-64 | references inside a part of a document are references of the document |
| `Pruning.ClosedHoldsReached` | apps/api/src/quantx_api/client_contracts.py:90-104 | a set closed under following references from the paths holds every reachable pointer |
| `Pruning.PrunedComponents` | apps/api/src/quantx_api/client_contracts.py:90-104 | ends; fails only on a reachable pointer that resolves to nothing; otherwise visits exactly the reachable pointers, each resolving in the result as in the source, and the result is a part of the source with nothing off their way |
| `Pruning.NothingNew` | apps/api/src/quantx_api/client_contracts.py:90-104 | every place of a part exists in the source, with the same value where it is no object |
| `Admission.DatabaseAdmission.TryTakeWork` | apps/ai-runtime/src/quantx_ai_runtime/database.py:41-44 | a work slot is taken exactly when one is free |
| `Admission.DatabaseAdmission.TryTakePool` | apps/ai-runtime/src/quantx_ai_runtime/database.py:45-46 | a pool slot is taken exactly when one is free |
| `Admission.DatabaseAdmission.Depart` | apps/ai-runtime/src/quantx_ai_runtime/database.py:49-54 | leaving releases exactly what was acquired, never beyond a semaphore's bound |
| `Admission.ConservedAlways` | apps/ai-runtime/src/quantx_ai_runtime/database.py:27-54 | over every interleaving of arrival, acquisition, timeout, cancellation and release, free and held permits add up |
| `Admission.AdmissionBounds` | apps/ai-runtime/src/quantx_ai_runtime/database.py:27-33 | never more than the maximum inside, never more than max(1, maximum - 1) workers inside |
| `Admission.HeartbeatFindsSlot` | apps/ai-runtime/src/quantx_ai_runtime/database.py:27-54 | with two connections or more and no heartbeat inside, a slot is left for one even after every queued worker is served |
| `Admission.ReserveExact` | apps/ai-runtime/src/quantx_ai_runtime/database.py:28-33 | a heartbeat finds a free slot in every such state if and only if there are at least two connections |
| `RotatingLog.BinaryLog.Rotate` | ops/supervise_process.py:143-154 | the descending renames move every file one place on, drop the last backup and open an empty current file |
| `RotatingLog.BinaryLog.Write` | ops/supervise_process.py:156-166 | rotates exactly when the payload would exceed the size; afterwards the files hold the last bytes of what they held plus the payload |
| `RotatingLog.RotationDropsOldest` | ops/supervise_process.py:143-154 | rotation removes from the chain of files exactly the oldest backup |
| `RotatingLog.LogIsSuffix` | ops/supervise_process.py:133-166 | after any writes, the backups oldest to newest and the current file are a suffix of all bytes ever written |
| `RotatingLog.CurrentFileAlwaysFits` | ops/supervise_process.py:156-166 | in every run, whatever was found or written before, each non-empty write leaves the current file within the size if and only if its own payload fits |
| `RotatingLog.OversizeIsExplained` | ops/supervise_process.py:156-166 | at every moment the current file is within the size exactly when the last non-empty payload was, and untouched before the first |
| `RotatingLog.WroteKeepsSizes` | ops/supervise_process.py:156-166 | files all within the size stay so when the payload fits |
| `RotatingLog.LogStaysBounded` | ops/supervise_process.py:133-166 | never more backups than configured; all files stay within the size while all payloads fit |

## Left out

- Sockets, Redis, SQL, Prefect, InfluxDB and file I/O: only the atomic step of each transaction is kept, and a crash is a run that stops between two of them.
- Metrics, logging, wake-ups of consumers and thread-pool offload: they change no modelled state.
- The trade-validation buffer (apps/api/src/quantx_api/agent_api.py:277-333): two FIFO lanes with one key set, a simpler case of the inbound buffer.
- Session authentication, heartbeat promotion and `_assert_trade_delivery_session`: gates over other services; the physical-send checks they feed are boolean parameters.
- Which body fields enter a report's hash (apps/api/src/quantx_api/agent_api.py:2027-2088): a report carries its identity and hash.
- Truncation of reason texts to the column width, and audit fields no decision reads.
- `invalidate_exit_plan_zero_fill_proof`: erasing the proof and quarantining the intent is what every reconciliation does here; failing a released plan, the cancellation it asks for and the account quarantine are not part of this model.
- LifecycleProperties.TerminalWasProven: services that write a PLACE_ORDER's own delivery status (trade reports, the account safety service) are not among the writers.
- Row locks skipped by a concurrent sweep or poll: a skipped row is a step that does not happen.
- LockedOrderModel.LockedOrder.PhysicalSend: the account, payload and exit-plan checks are parameters; the account control row, its event, the cancel command the service enqueues and its release-proof invalidation are not part of this model.
- Outbox.CommandOutbox.SweepExpired: the source's loop has no bound; here it is watched for a sequence of batch times given by the caller, for every such sequence.
- Outbox.CommandOutbox.ClaimNext: the device's expiry batch that precedes the claim is a step of its own; `Outbox.ExpiryLeavesClaims` shows that it does not change the choice.
- Waiting, timeouts and the limit on jobs per process of a daily campaign: outcomes chosen by the environment.
- CampaignAcceptance.CompletedCampaignIsStored: that nobody rewrites the bars of a completed job, or audits its request anew, is a premise; writers of the table outside the campaign are not part of this model.
- The proof that a failed transfer may be ingested again (apps/worker/scripts/backfill_daily_market_data.py:1429-1648): only its verdict enters the campaign.
- InfluxVerdict.VerifyInflux: the count of rows with bad prices is a warning beside the verdict and is not modelled; time zone rules enter only as a nondecreasing local day.
- Campaign database locks: held for the run.
- Factor request audits and the universe audit of a ledger: their verdicts are parameters.
- Lease expiry is a step that may happen at any time; its length is not modelled, nor are lease values that decode to something other than an object.
- FIFO order among the waiters of a semaphore: any waiter may take a free permit.
- The web, mobile and UI code, other operations scripts and the trading domain services are not part of this model.
