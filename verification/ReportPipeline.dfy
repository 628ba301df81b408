/**
  Report persistence and the receive, process and reply loops of one Agent connection, as every
  interleaving of their awaits.  Processing may time out before or after its commit and is
  retried; the Agent may resend any report at any time and may reconnect; other connections insert
  into the same inbox.
 */
module ReportPipeline {
  import opened Prelude
  import In = InboundBuffer
  import Out = OutboundBuffer

  // ---------------------------------------------------------------------------------------
  // The durable inbox

  datatype Row = Row(id: string, business: string, hash: string)

  datatype Verdict = Verdict(accepted: bool, duplicate: bool)

  datatype InboxError = SeveralRowsMatch

  predicate Matches(r: Row, m: In.Message)
    requires m.Report?
  {
    r.id == m.id || r.business == m.business
  }

  /** Message id and business key are unique columns. */
  ghost predicate UniqueColumns(rows: seq<Row>) {
    forall i, j :: 0 <= i < j < |rows| ==> rows[i].id != rows[j].id && rows[i].business != rows[j].business
  }

  /** Rows in insertion order with the matching ones picked out. */
  function Matching(rows: seq<Row>, m: In.Message): seq<Row>
    requires m.Report?
  {
    if rows == [] then []
    else (if Matches(rows[0], m) then [rows[0]] else []) + Matching(rows[1..], m)
  }

  /** Inserting the report: a conflict on either unique column leaves the inbox as it was. */
  function Inserted(rows: seq<Row>, m: In.Message): seq<Row>
    requires m.Report?
  {
    if Matching(rows, m) == [] then rows + [Row(m.id, m.business, m.hash)] else rows
  }

  /** The answer once the commit succeeded or the conflict was read back. */
  function Answer(rows: seq<Row>, m: In.Message): Result<Verdict, InboxError>
    requires m.Report?
  {
    var found := Matching(rows, m);
    if found == [] then Ok(Verdict(true, false))
    else if |found| > 1 then Err(SeveralRowsMatch)
    else Ok(Verdict(found[0].hash == m.hash, found[0].hash == m.hash))
  }

  lemma MatchingMember(rows: seq<Row>, m: In.Message, k: nat)
    requires m.Report? && k < |Matching(rows, m)|
    ensures Matching(rows, m)[k] in rows && Matches(Matching(rows, m)[k], m)
  {
    var here := if Matches(rows[0], m) then [rows[0]] else [];
    if k < |here| {
    } else {
      MatchingMember(rows[1..], m, k - |here|);
    }
  }

  lemma NoneMatching(rows: seq<Row>, m: In.Message, k: nat)
    requires m.Report? && Matching(rows, m) == [] && k < |rows|
    ensures !Matches(rows[k], m)
  {
    if k > 0 {
      NoneMatching(rows[1..], m, k - 1);
    }
  }

  class ReportInbox {
    var rows: seq<Row>

    constructor ()
      ensures rows == []
    {
      rows := [];
    }

    /** Commit the report, or read back the row it collides with. */
    method Record(m: In.Message) returns (answer: Result<Verdict, InboxError>)
      requires m.Report? && UniqueColumns(rows)
      modifies this
      ensures UniqueColumns(rows)
      ensures rows == Inserted(old(rows), m)
      ensures answer == Answer(old(rows), m)
      ensures answer.Ok? && answer.value.accepted ==> exists r :: r in rows && Matches(r, m) && r.hash == m.hash
    {
      var existing: seq<Row> := [];
      var k := |rows|;
      while k > 0
        invariant 0 <= k <= |rows|
        invariant existing == Matching(rows[k..], m)
      {
        k := k - 1;
        assert rows[k..][1..] == rows[k + 1..];
        if rows[k].id == m.id || rows[k].business == m.business {
          existing := [rows[k]] + existing;
        }
      }
      assert rows[0..] == rows;
      if existing == [] {
        forall i | 0 <= i < |rows| ensures !Matches(rows[i], m) {
          NoneMatching(rows, m, i);
        }
        rows := rows + [Row(m.id, m.business, m.hash)];
        assert rows[|rows| - 1] in rows;
        return Ok(Verdict(true, false));
      }
      if |existing| > 1 {
        return Err(SeveralRowsMatch);
      }
      MatchingMember(rows, m, 0);
      var same := existing[0].hash == m.hash;
      answer := Ok(Verdict(same, same));
    }
  }

  // ---------------------------------------------------------------------------------------
  // The connection

  datatype Reply = ReportReply(report: In.Message, accepted: bool) | HeartbeatReply

  /** A processor holds an item until its reply is enqueued and the key is released. */
  datatype Phase = Processing | Replying(reply: Option<Reply>) | Replied

  datatype Job = Job(item: In.Item, phase: Phase)

  /** Where the receiver is between reading a frame and waiting for the next one. */
  datatype Receiver = Idle | Checked(item: In.Item, alreadyPending: bool) | Refusing(item: In.Item)

  /** Ids of the report copies of this connection: read, stored, refused for lack of room, or dropped
      because a copy was pending. */
  datatype Copies = Copies(arrived: seq<string>, stored: seq<string>, refused: seq<string>, dropped: seq<string>)

  datatype Pipe = Pipe(
    alive: bool,
    receiver: Receiver,
    inbound: In.Buffer,
    jobs: seq<Job>,
    outbound: Out.Buffer<Option<Reply>>,
    inbox: seq<Row>,
    received: set<string>,
    enqueued: seq<Reply>,
    history: seq<Reply>,
    copies: Copies)

  datatype Try = FailsBeforeCommit | FailsAfterCommit | Succeeds

  datatype Move =
    | Arrive(item: In.Item)
    | Store
    | Refuse
    | Pick(lane: In.Lane)
    | Process(index: nat, try: Try)
    | Answered(index: nat)
    | Release(index: nat)
    | OfferWork(priority: int, key: string)
    | SendOne
    | InsertElsewhere(report: In.Message)   // another connection, or a late commit of an earlier one
    | Reconnect

  const CAPACITY := 64
  const RESERVE := 16

  function Fresh(l: In.Limits, inbox: seq<Row>, history: seq<Reply>): Pipe {
    Pipe(true, Idle, In.Empty(l), [], Out.Empty(CAPACITY, RESERVE), inbox, {}, [], history, Copies([], [], [], []))
  }

  predicate Enabled(p: Pipe, m: Move) {
    if m.Reconnect? then true
    else if m.InsertElsewhere? then m.report.Report?
    else
      p.alive && match m
      case Arrive(_) => p.receiver.Idle?
      case Store => p.receiver.Checked?
      case Refuse => p.receiver.Refusing? && Out.Admissible(p.outbound, true)
      case Pick(lane) => p.inbound.items.At(lane) != []
      case Process(index, _) => index < |p.jobs| && p.jobs[index].phase.Processing?
      case Answered(index) =>
        && index < |p.jobs| && p.jobs[index].phase.Replying?
        && (p.jobs[index].phase.reply.Some? ==> Out.Admissible(p.outbound, true))
      case Release(index) => index < |p.jobs| && p.jobs[index].phase.Replied?
      case OfferWork(_, _) => Out.Admissible(p.outbound, false)
      case SendOne => p.outbound.items != []
      case InsertElsewhere(_) => true
      case Reconnect => true
  }

  function Enqueue(p: Pipe, reply: Reply): Pipe
    requires Out.Admissible(p.outbound, true)
  {
    p.(outbound := Out.Put(p.outbound, Some(reply), 0, true, ""), enqueued := p.enqueued + [reply])
  }

  /** What one processing attempt leaves behind. */
  function Attempt(p: Pipe, index: nat, try: Try): Pipe
    requires index < |p.jobs|
  {
    var job := p.jobs[index];
    var m := job.item.message;
    if try.FailsBeforeCommit? then p
    else match m
      case Report(_, _, _) =>
        var stored := p.(inbox := Inserted(p.inbox, m));
        if try.FailsAfterCommit? then stored
        else if Answer(p.inbox, m).Err? then stored.(alive := false)
        else stored.(jobs := p.jobs[index := job.(phase := Replying(Some(ReportReply(m, Answer(p.inbox, m).value.accepted))))])
      case Heartbeat(_) =>
        if try.FailsAfterCommit? then p else p.(jobs := p.jobs[index := job.(phase := Replying(Some(HeartbeatReply)))])
      case CommandAck(_, _) =>
        if try.FailsAfterCommit? then p else p.(jobs := p.jobs[index := job.(phase := Replying(None))])
      case OtherMessage(_) => p.(alive := false)
  }

  function ReportId(m: In.Message): seq<string> {
    if m.Report? then [m.id] else []
  }

  function StoreFrame(p: Pipe, item: In.Item, alreadyPending: bool): Pipe {
    if item.frameBytes > p.inbound.limits.maxBytes then p.(alive := false)
    else if In.Accepts(p.inbound, item) then
      p.(receiver := Idle, inbound := In.Put(p.inbound, item),
         copies := p.copies.(stored := p.copies.stored + ReportId(item.message)))
    else if !alreadyPending && item.message.Report? then p.(receiver := Refusing(item))
    else p.(receiver := Idle, copies := p.copies.(dropped := p.copies.dropped + ReportId(item.message)))
  }

  function Next(p: Pipe, m: Move): Pipe
    requires Enabled(p, m)
  {
    match m
    case Arrive(item) =>
      p.(receiver := Checked(item, In.Key(item) != "" && In.Key(item) in p.inbound.pending),
         received := if item.message.Report? then p.received + {item.message.id} else p.received,
         copies := p.copies.(arrived := p.copies.arrived + ReportId(item.message)))
    case Store => StoreFrame(p, p.receiver.item, p.receiver.alreadyPending)
    case Refuse =>
      if p.receiver.item.message.Report?
      then Enqueue(p, ReportReply(p.receiver.item.message, false))
             .(receiver := Idle, copies := p.copies.(refused := p.copies.refused + [p.receiver.item.message.id]))
      else p.(receiver := Idle)
    case Pick(lane) =>
      p.(inbound := In.Get(p.inbound, lane), jobs := p.jobs + [Job(p.inbound.items.At(lane)[0], Processing)])
    case Process(index, try) => Attempt(p, index, try)
    case Answered(index) =>
      var reply := p.jobs[index].phase.reply;
      var after := p.(jobs := p.jobs[index := p.jobs[index].(phase := Replied)]);
      if reply.Some? then Enqueue(after, reply.value) else after
    case Release(index) =>
      p.(inbound := In.Complete(p.inbound, p.jobs[index].item), jobs := p.jobs[..index] + p.jobs[index + 1..])
    case OfferWork(priority, key) => p.(outbound := Out.Put(p.outbound, None, priority, false, key))
    case SendOne => p.(outbound := Out.Complete(Out.Get(p.outbound), p.outbound.items[0]))
    case InsertElsewhere(report) => p.(inbox := Inserted(p.inbox, report))
    case Reconnect => Fresh(p.inbound.limits, p.inbox, p.history + p.enqueued)
  }

  // ---------------------------------------------------------------------------------------
  // No report is ever lost

  ghost predicate Queued(p: Pipe, id: string) {
    exists k :: 0 <= k < |p.inbound.items.durable|
      && p.inbound.items.durable[k].message.Report? && p.inbound.items.durable[k].message.id == id
  }

  ghost predicate InProcess(p: Pipe, id: string) {
    exists k :: 0 <= k < |p.jobs| && p.jobs[k].item.message.Report? && p.jobs[k].item.message.id == id
  }

  ghost predicate AtReceiver(p: Pipe, id: string) {
    !p.receiver.Idle? && p.receiver.item.message.Report? && p.receiver.item.message.id == id
  }

  ghost predicate HasReply(p: Pipe, id: string) {
    exists k :: 0 <= k < |p.enqueued| && p.enqueued[k].ReportReply? && p.enqueued[k].report.Report?
                && p.enqueued[k].report.id == id
  }

  /** A report identity that neither heartbeats nor acknowledgements can use. */
  predicate OwnKeySpace(id: string) {
    id != In.LATEST_HEARTBEAT && !(In.ACK_PREFIX <= id)
  }

  ghost predicate Accounted(p: Pipe, id: string) {
    Queued(p, id) || InProcess(p, id) || AtReceiver(p, id) || HasReply(p, id)
  }

  /** A pending report key is backed by a copy that is still queued or in process. */
  ghost predicate PendingBacked(p: Pipe) {
    forall id :: OwnKeySpace(id) && id != "" && id in p.inbound.pending ==> Queued(p, id) || InProcess(p, id)
  }

  /** A processor that finished has its reply enqueued. */
  ghost predicate RepliedMeansReply(p: Pipe) {
    forall k :: 0 <= k < |p.jobs| && p.jobs[k].item.message.Report? ==>
      match p.jobs[k].phase
      case Processing => true
      case Replying(reply) => reply.Some? && reply.value.ReportReply? && reply.value.report == p.jobs[k].item.message
      case Replied => HasReply(p, p.jobs[k].item.message.id)
  }

  /** What the receiver saw pending is still pending, or was answered meanwhile. */
  ghost predicate ReceiverInformed(p: Pipe) {
    p.receiver.Checked? && p.receiver.alreadyPending && p.receiver.item.message.Report?
      && OwnKeySpace(p.receiver.item.message.id)
    ==> && p.receiver.item.message.id != ""
        && (p.receiver.item.message.id in p.inbound.pending || HasReply(p, p.receiver.item.message.id))
  }

  ghost predicate DurableLaneHoldsReports(p: Pipe) {
    && (forall k :: 0 <= k < |p.inbound.items.heartbeat| ==> p.inbound.items.heartbeat[k].message.Heartbeat?)
    && (forall k :: 0 <= k < |p.inbound.items.ack| ==> p.inbound.items.ack[k].message.CommandAck?)
  }

  ghost predicate Tracked(p: Pipe) {
    && DurableLaneHoldsReports(p)
    && PendingBacked(p)
    && RepliedMeansReply(p)
    && ReceiverInformed(p)
    && (forall id :: id in p.received && OwnKeySpace(id) ==> Accounted(p, id))
  }

  /** Only steps that hand a copy on can take a report out of one place. */
  lemma KeepsPlaces(p: Pipe, q: Pipe)
    requires p.inbound == q.inbound && p.enqueued <= q.enqueued && |q.jobs| == |p.jobs|
    requires forall k :: 0 <= k < |p.jobs| ==> q.jobs[k].item == p.jobs[k].item
    ensures forall id :: Queued(p, id) ==> Queued(q, id)
    ensures forall id :: InProcess(p, id) ==> InProcess(q, id)
    ensures forall id :: HasReply(p, id) ==> HasReply(q, id)
  {
    forall id | InProcess(p, id) ensures InProcess(q, id) {
      var k :| 0 <= k < |p.jobs| && p.jobs[k].item.message.Report? && p.jobs[k].item.message.id == id;
      assert q.jobs[k].item.message.id == id;
    }
    forall id | HasReply(p, id) ensures HasReply(q, id) {
      var k :| 0 <= k < |p.enqueued| && p.enqueued[k].ReportReply? && p.enqueued[k].report.Report? && p.enqueued[k].report.id == id;
      assert q.enqueued[k] == p.enqueued[k];
    }
  }

  lemma TrackedArrive(p: Pipe, item: In.Item)
    requires Tracked(p) && Enabled(p, Arrive(item))
    ensures Tracked(Next(p, Arrive(item)))
  {
    var q := Next(p, Arrive(item));
    KeepsPlaces(p, q);
  }

  lemma TrackedStore(p: Pipe)
    requires Tracked(p) && Enabled(p, Store) && Next(p, Store).alive
    ensures Tracked(Next(p, Store))
  {
    var q := Next(p, Store);
    var item := p.receiver.item;
    if In.Accepts(p.inbound, item) {
      StoredPlaces(p, q, item);
    } else {
      KeepsPlaces(p, q);
      if item.message.Report? && OwnKeySpace(item.message.id) && q.receiver.Idle? {
        assert p.receiver.alreadyPending;
      }
    }
  }

  lemma StoredPlaces(p: Pipe, q: Pipe, item: In.Item)
    requires Tracked(p) && p.receiver.Checked? && p.receiver.item == item
    requires In.Accepts(p.inbound, item)
    requires q == p.(receiver := Idle, inbound := In.Put(p.inbound, item), copies := q.copies)
    ensures Tracked(q)
  {
    forall id | Queued(p, id) ensures Queued(q, id) {
      var k :| 0 <= k < |p.inbound.items.durable| && p.inbound.items.durable[k].message.Report?
               && p.inbound.items.durable[k].message.id == id;
      assert q.inbound.items.durable[k] == p.inbound.items.durable[k];
    }
    if item.message.Report? {
      var last := |q.inbound.items.durable| - 1;
      assert q.inbound.items.durable[last] == item;
      assert Queued(q, item.message.id);
    }
    forall id | OwnKeySpace(id) && id != "" && id in q.inbound.pending ensures Queued(q, id) || InProcess(q, id) {
      if id in p.inbound.pending {
        assert InProcess(p, id) ==> InProcess(q, id);
      } else {
        HeldKeyIsReport(item.message, id);
      }
    }
    forall id | id in q.received && OwnKeySpace(id) ensures Accounted(q, id) {
      assert Accounted(p, id);
    }
  }

  lemma TrackedRefuse(p: Pipe)
    requires Tracked(p) && Enabled(p, Refuse)
    ensures Tracked(Next(p, Refuse))
  {
    var q := Next(p, Refuse);
    KeepsPlaces(p, q);
    if p.receiver.item.message.Report? {
      assert q.enqueued[|q.enqueued| - 1] == ReportReply(p.receiver.item.message, false);
      assert HasReply(q, p.receiver.item.message.id);
    }
  }

  lemma TrackedPick(p: Pipe, lane: In.Lane)
    requires Tracked(p) && Enabled(p, Pick(lane))
    ensures Tracked(Next(p, Pick(lane)))
  {
    var q := Next(p, Pick(lane));
    var head := p.inbound.items.At(lane)[0];
    assert q.jobs[|p.jobs|] == Job(head, Processing);
    forall id | Queued(p, id) ensures Queued(q, id) || InProcess(q, id) {
      var k :| 0 <= k < |p.inbound.items.durable| && p.inbound.items.durable[k].message.Report?
               && p.inbound.items.durable[k].message.id == id;
      if lane == In.DurableLane {
        if k == 0 {
          assert q.jobs[|p.jobs|].item.message.id == id;
        } else {
          assert q.inbound.items.durable[k - 1] == p.inbound.items.durable[k];
        }
      } else {
        assert q.inbound.items.durable[k] == p.inbound.items.durable[k];
      }
    }
    forall id | InProcess(p, id) ensures InProcess(q, id) {
      var k :| 0 <= k < |p.jobs| && p.jobs[k].item.message.Report? && p.jobs[k].item.message.id == id;
      assert q.jobs[k] == p.jobs[k];
    }
    forall k | 0 <= k < |q.jobs| ensures k < |p.jobs| ==> q.jobs[k] == p.jobs[k] {}
  }

  lemma TrackedProcess(p: Pipe, index: nat, try: Try)
    requires Tracked(p) && Enabled(p, Process(index, try)) && Next(p, Process(index, try)).alive
    ensures Tracked(Next(p, Process(index, try)))
  {
    KeepsPlaces(p, Next(p, Process(index, try)));
  }

  lemma TrackedAnswered(p: Pipe, index: nat)
    requires Tracked(p) && Enabled(p, Answered(index))
    ensures Tracked(Next(p, Answered(index)))
  {
    var q := Next(p, Answered(index));
    KeepsPlaces(p, q);
    if p.jobs[index].item.message.Report? {
      assert q.enqueued[|q.enqueued| - 1] == p.jobs[index].phase.reply.value;
      assert HasReply(q, p.jobs[index].item.message.id);
    }
  }

  lemma TrackedRelease(p: Pipe, index: nat)
    requires Tracked(p) && Enabled(p, Release(index))
    ensures Tracked(Next(p, Release(index)))
  {
    var q := Next(p, Release(index));
    var done := p.jobs[index].item.message;
    ReleaseKeepsOthers(p, index);
    forall k | 0 <= k < |q.jobs| ensures q.jobs[k] == if k < index then p.jobs[k] else p.jobs[k + 1] {}
    forall id | OwnKeySpace(id) && id != "" && id in q.inbound.pending ensures Queued(q, id) || InProcess(q, id) {
      assert id in p.inbound.pending;
      assert !(done.Report? && done.id == id);
    }
    forall id | id in q.received && OwnKeySpace(id) ensures Accounted(q, id) {
      assert Accounted(p, id);
    }
    if ReceiverInformed(p) && p.receiver.Checked? && p.receiver.item.message.Report?
       && OwnKeySpace(p.receiver.item.message.id) && p.receiver.item.message.id != ""
       && In.Key(p.jobs[index].item) == p.receiver.item.message.id {
      HeldKeyIsReport(done, p.receiver.item.message.id);
    }
  }

  lemma ReleaseKeepsOthers(p: Pipe, index: nat)
    requires Enabled(p, Release(index))
    ensures var q := Next(p, Release(index));
            forall id :: InProcess(p, id) && !(p.jobs[index].item.message.Report? && p.jobs[index].item.message.id == id) ==>
              InProcess(q, id)
  {
    var q := Next(p, Release(index));
    var done := p.jobs[index].item.message;
    forall id | InProcess(p, id) && !(done.Report? && done.id == id) ensures InProcess(q, id) {
      var k :| 0 <= k < |p.jobs| && p.jobs[k].item.message.Report? && p.jobs[k].item.message.id == id;
      if k < index {
        assert q.jobs[k] == p.jobs[k];
      } else {
        assert q.jobs[k - 1] == p.jobs[k];
      }
    }
  }

  /** A key in the reports' own key space can only have been held by that report. */
  lemma HeldKeyIsReport(m: In.Message, id: string)
    requires OwnKeySpace(id) && id != "" && In.KeyOf(m) == id
    ensures m.Report? && m.id == id
  {
  }

  lemma TrackedStep(p: Pipe, m: Move)
    requires p.alive ==> Tracked(p)
    requires Enabled(p, m)
    ensures Next(p, m).alive ==> Tracked(Next(p, m))
  {
    if Next(p, m).alive && !m.Reconnect? {
      match m
      case Arrive(item) => TrackedArrive(p, item);
      case Store => TrackedStore(p);
      case Refuse => TrackedRefuse(p);
      case Pick(lane) => TrackedPick(p, lane);
      case Process(index, try) => TrackedProcess(p, index, try);
      case Answered(index) => TrackedAnswered(p, index);
      case Release(index) => TrackedRelease(p, index);
      case OfferWork(_, _) => KeepsPlaces(p, Next(p, m));
      case SendOne => KeepsPlaces(p, Next(p, m));
      case InsertElsewhere(_) => KeepsPlaces(p, Next(p, m));
    }
  }

  // ---------------------------------------------------------------------------------------
  // An accepted reply is never ahead of the durable row

  ghost predicate Durable(rows: seq<Row>, m: In.Message) {
    m.Report? ==> exists k :: 0 <= k < |rows| && Matches(rows[k], m) && rows[k].hash == m.hash
  }

  ghost predicate RepliesDurable(replies: seq<Reply>, rows: seq<Row>) {
    forall k :: 0 <= k < |replies| && replies[k].ReportReply? && replies[k].accepted ==> Durable(rows, replies[k].report)
  }

  ghost predicate AcceptedIsDurable(p: Pipe) {
    && UniqueColumns(p.inbox)
    && RepliesDurable(p.enqueued, p.inbox)
    && RepliesDurable(p.history, p.inbox)
    && (forall k :: 0 <= k < |p.jobs| && p.jobs[k].phase.Replying? && p.jobs[k].phase.reply.Some?
          && p.jobs[k].phase.reply.value.ReportReply? && p.jobs[k].phase.reply.value.accepted
          ==> Durable(p.inbox, p.jobs[k].phase.reply.value.report))
  }

  lemma InsertedGrows(rows: seq<Row>, m: In.Message)
    requires m.Report? && UniqueColumns(rows)
    ensures rows <= Inserted(rows, m) && UniqueColumns(Inserted(rows, m))
    ensures Answer(rows, m).Ok? && Answer(rows, m).value.accepted ==> Durable(Inserted(rows, m), m)
  {
    var found := Matching(rows, m);
    if found == [] {
      forall i | 0 <= i < |rows| ensures !Matches(rows[i], m) {
        NoneMatching(rows, m, i);
      }
      assert Inserted(rows, m)[|rows|] == Row(m.id, m.business, m.hash);
    } else {
      MatchingMember(rows, m, 0);
    }
  }

  lemma DurableGrows(rows: seq<Row>, more: seq<Row>, m: In.Message)
    requires rows <= more && Durable(rows, m)
    ensures Durable(more, m)
  {
    if m.Report? {
      var k :| 0 <= k < |rows| && Matches(rows[k], m) && rows[k].hash == m.hash;
      assert more[k] == rows[k];
    }
  }

  lemma RepliesGrow(replies: seq<Reply>, rows: seq<Row>, more: seq<Row>)
    requires rows <= more && RepliesDurable(replies, rows)
    ensures RepliesDurable(replies, more)
  {
    forall k | 0 <= k < |replies| && replies[k].ReportReply? && replies[k].accepted ensures Durable(more, replies[k].report) {
      DurableGrows(rows, more, replies[k].report);
    }
  }

  lemma DurableProcess(p: Pipe, index: nat, try: Try)
    requires AcceptedIsDurable(p) && Enabled(p, Process(index, try))
    ensures AcceptedIsDurable(Next(p, Process(index, try)))
    ensures p.inbox <= Next(p, Process(index, try)).inbox
  {
    var q := Next(p, Process(index, try));
    var m := p.jobs[index].item.message;
    if m.Report? && !try.FailsBeforeCommit? {
      InsertedGrows(p.inbox, m);
      RepliesGrow(p.enqueued, p.inbox, q.inbox);
      RepliesGrow(p.history, p.inbox, q.inbox);
      forall k | 0 <= k < |q.jobs| && q.jobs[k].phase.Replying? && q.jobs[k].phase.reply.Some?
        && q.jobs[k].phase.reply.value.ReportReply? && q.jobs[k].phase.reply.value.accepted
        ensures Durable(q.inbox, q.jobs[k].phase.reply.value.report)
      {
        if k != index {
          DurableGrows(p.inbox, q.inbox, p.jobs[k].phase.reply.value.report);
        }
      }
    }
  }

  lemma DurableInsert(p: Pipe, m: In.Message)
    requires AcceptedIsDurable(p) && m.Report?
    ensures AcceptedIsDurable(p.(inbox := Inserted(p.inbox, m))) && p.inbox <= Inserted(p.inbox, m)
  {
    var more := Inserted(p.inbox, m);
    InsertedGrows(p.inbox, m);
    RepliesGrow(p.enqueued, p.inbox, more);
    RepliesGrow(p.history, p.inbox, more);
    forall k | 0 <= k < |p.jobs| && p.jobs[k].phase.Replying? && p.jobs[k].phase.reply.Some?
      && p.jobs[k].phase.reply.value.ReportReply? && p.jobs[k].phase.reply.value.accepted
      ensures Durable(more, p.jobs[k].phase.reply.value.report)
    {
      DurableGrows(p.inbox, more, p.jobs[k].phase.reply.value.report);
    }
  }

  lemma DurableStep(p: Pipe, m: Move)
    requires AcceptedIsDurable(p) && Enabled(p, m)
    ensures AcceptedIsDurable(Next(p, m))
    ensures p.inbox <= Next(p, m).inbox
  {
    if m.Process? {
      DurableProcess(p, m.index, m.try);
    } else if m.InsertElsewhere? {
      DurableInsert(p, m.report);
    } else if m.Release? {
      var q := Next(p, m);
      forall k | 0 <= k < |q.jobs| ensures q.jobs[k] == if k < m.index then p.jobs[k] else p.jobs[k + 1] {}
    }
  }

  // ---------------------------------------------------------------------------------------
  // Whole runs

  ghost predicate IsRun(pipes: seq<Pipe>, moves: seq<Move>) {
    && |pipes| == |moves| + 1
    && forall i :: 0 <= i < |moves| ==> Enabled(pipes[i], moves[i]) && pipes[i + 1] == Next(pipes[i], moves[i])
  }

  /**
    At every moment of every run each report received on a live connection is at the receiver,
    queued, in process or answered, and every accepted answer, on this connection or an earlier
    one, has its durable row.
   */
  lemma {:induction false} NoReportIsLost(pipes: seq<Pipe>, moves: seq<Move>, l: In.Limits, n: nat)
    requires IsRun(pipes, moves) && n < |pipes|
    requires pipes[0] == Fresh(l, [], [])
    ensures pipes[n].alive ==> Tracked(pipes[n])
    ensures AcceptedIsDurable(pipes[n])
  {
    if n > 0 {
      NoReportIsLost(pipes, moves, l, n - 1);
      TrackedStep(pipes[n - 1], moves[n - 1]);
      DurableStep(pipes[n - 1], moves[n - 1]);
    }
  }

  /** The inbox only grows, so an accepted report stays recorded. */
  lemma {:induction false} InboxOnlyGrows(pipes: seq<Pipe>, moves: seq<Move>, l: In.Limits, m: nat, n: nat)
    requires IsRun(pipes, moves) && m <= n < |pipes|
    requires pipes[0] == Fresh(l, [], [])
    ensures pipes[m].inbox <= pipes[n].inbox
    decreases n
  {
    if m < n {
      InboxOnlyGrows(pipes, moves, l, m, n - 1);
      InboxGrowsOnce(pipes, moves, l, n - 1);
    }
  }

  lemma InboxGrowsOnce(pipes: seq<Pipe>, moves: seq<Move>, l: In.Limits, n: nat)
    requires IsRun(pipes, moves) && n < |moves| && pipes[0] == Fresh(l, [], [])
    ensures pipes[n].inbox <= pipes[n + 1].inbox
  {
    NoReportIsLost(pipes, moves, l, n);
    DurableStep(pipes[n], moves[n]);
  }

  /** A resent report whose first copy committed unseen is accepted as a duplicate and stored once. */
  lemma ResentReportIsDuplicate(rows: seq<Row>, m: In.Message)
    requires m.Report? && UniqueColumns(rows) && Matching(rows, m) == []
    ensures Answer(Inserted(rows, m), m) == Ok(Verdict(true, true))
    ensures Inserted(Inserted(rows, m), m) == Inserted(rows, m)
  {
    MatchingAppend(rows, [Row(m.id, m.business, m.hash)], m);
  }

  lemma MatchingAppend(a: seq<Row>, b: seq<Row>, m: In.Message)
    requires m.Report?
    ensures Matching(a + b, m) == Matching(a, m) + Matching(b, m)
  {
    if a == [] {
      assert a + b == b;
    } else {
      assert (a + b)[1..] == a[1..] + b;
      MatchingAppend(a[1..], b, m);
    }
  }

  // ---------------------------------------------------------------------------------------
  // Outside their own key space reports can vanish

  /** The message whose pending key hides a report of this id. */
  function Namesake(id: string): In.Message
    requires !OwnKeySpace(id)
  {
    if id == In.LATEST_HEARTBEAT then In.Heartbeat("h") else In.CommandAck("a", id[|In.ACK_PREFIX|..])
  }

  lemma NamesakeKey(id: string)
    requires !OwnKeySpace(id)
    ensures In.KeyOf(Namesake(id)) == id && id != ""
  {
    if id != In.LATEST_HEARTBEAT {
      assert id == In.ACK_PREFIX + id[|In.ACK_PREFIX|..];
    }
  }

  /** A heartbeat or acknowledgement with the report's key arrives first; the report is dropped unanswered. */
  lemma ForeignKeyReportIsDropped(l: In.Limits, id: string, hash: string, business: string, a: nat, b: nat)
    returns (pipes: seq<Pipe>, moves: seq<Move>)
    requires !OwnKeySpace(id) && a <= l.maxBytes && a <= 1024 && b <= l.maxBytes
    ensures IsRun(pipes, moves) && pipes[0] == Fresh(l, [], [])
    ensures pipes[|moves|].alive && id in pipes[|moves|].received && !Accounted(pipes[|moves|], id)
  {
    var first, report := In.Item(Namesake(id), a), In.Item(In.Report(id, hash, business), b);
    var p0 := Fresh(l, [], []);
    var p1 := Next(p0, Arrive(first));
    NamesakeIsStored(l, id, a);
    var p2 := Next(p1, Store);
    PendingKeyDrops(p2, report);
    var p3 := Next(p2, Arrive(report));
    var p4 := Next(p3, Store);
    pipes, moves := [p0], [];
    pipes, moves := Extended(pipes, moves, Arrive(first));
    pipes, moves := Extended(pipes, moves, Store);
    pipes, moves := Extended(pipes, moves, Arrive(report));
    pipes, moves := Extended(pipes, moves, Store);
    assert pipes[|moves|] == p4;
  }

  lemma Extended(pipes: seq<Pipe>, moves: seq<Move>, m: Move) returns (after: seq<Pipe>, done: seq<Move>)
    requires IsRun(pipes, moves) && Enabled(pipes[|moves|], m)
    ensures IsRun(after, done) && |done| == |moves| + 1 && after[0] == pipes[0]
    ensures after[|done|] == Next(pipes[|moves|], m)
  {
    after, done := pipes + [Next(pipes[|moves|], m)], moves + [m];
    forall i | 0 <= i < |done| ensures Enabled(after[i], done[i]) && after[i + 1] == Next(after[i], done[i]) {
      if i < |moves| {
        assert after[i] == pipes[i] && after[i + 1] == pipes[i + 1] && done[i] == moves[i];
      }
    }
  }

  lemma NamesakeIsStored(l: In.Limits, id: string, bytes: nat)
    requires !OwnKeySpace(id) && bytes <= l.maxBytes && bytes <= 1024
    ensures var p := Next(Next(Fresh(l, [], []), Arrive(In.Item(Namesake(id), bytes))), Store);
            && p.alive && p.receiver.Idle? && id != "" && id in p.inbound.pending && p.inbound.limits == l
            && p.inbound.items.durable == [] && p.jobs == [] && p.enqueued == []
  {
    NamesakeKey(id);
    var first := In.Item(Namesake(id), bytes);
    assert In.Accepts(In.Empty(l), first);
  }

  /** A report whose key another message holds is dropped; if nothing else knows it, it is lost. */
  lemma PendingKeyDrops(p: Pipe, report: In.Item)
    requires p.alive && p.receiver.Idle? && report.message.Report? && report.frameBytes <= p.inbound.limits.maxBytes
    requires report.message.id != "" && report.message.id in p.inbound.pending
    requires p.inbound.items.durable == [] && p.jobs == [] && p.enqueued == []
    ensures Next(p, Arrive(report)).alive && Next(p, Arrive(report)).receiver.Checked?
    ensures var q := Next(Next(p, Arrive(report)), Store);
            q.alive && report.message.id in q.received && !Accounted(q, report.message.id)
  {
    var p1 := Next(p, Arrive(report));
    assert p1.receiver == Checked(report, true) && !In.Accepts(p1.inbound, report);
  }

  /** A run from a fresh connection that has received the id by moment n and is still alive. */
  ghost predicate Received(pipes: seq<Pipe>, moves: seq<Move>, l: In.Limits, n: nat, id: string) {
    && IsRun(pipes, moves) && n < |pipes| && pipes[0] == Fresh(l, [], [])
    && pipes[n].alive && id in pipes[n].received
  }

  /** The ids that every run accounts for are exactly those no heartbeat or acknowledgement can use. */
  lemma AccountedExact(l: In.Limits, id: string)
    requires l.maxBytes >= 1
    ensures OwnKeySpace(id) <==>
            forall pipes: seq<Pipe>, moves: seq<Move>, n: nat :: Received(pipes, moves, l, n, id) ==> Accounted(pipes[n], id)
  {
    if OwnKeySpace(id) {
      forall pipes: seq<Pipe>, moves: seq<Move>, n: nat | Received(pipes, moves, l, n, id) ensures Accounted(pipes[n], id) {
        NoReportIsLost(pipes, moves, l, n);
      }
    } else {
      var pipes, moves := ForeignKeyReportIsDropped(l, id, "", "", 1, 1);
      assert Received(pipes, moves, l, |moves|, id);
    }
  }
}
