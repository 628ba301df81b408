/**
  Conservation of report copies on one connection: every copy that was stored or refused has one
  reply, or is still queued or with a processor that has not replied.
 */
module ReportConservation {
  import opened Prelude
  import In = InboundBuffer
  import opened ReportPipeline

  predicate IsReport(m: In.Message, id: string) {
    m.Report? && m.id == id
  }

  function One(b: bool): nat {
    if b then 1 else 0
  }

  function CountIds(ids: seq<string>, id: string): nat {
    if ids == [] then 0 else One(ids[0] == id) + CountIds(ids[1..], id)
  }

  function CountItems(items: seq<In.Item>, id: string): nat {
    if items == [] then 0 else One(IsReport(items[0].message, id)) + CountItems(items[1..], id)
  }

  /** A processor still owes the reply to its report. */
  predicate Owes(j: Job, id: string) {
    IsReport(j.item.message, id) && !j.phase.Replied?
  }

  function CountOwed(jobs: seq<Job>, id: string): nat {
    if jobs == [] then 0 else One(Owes(jobs[0], id)) + CountOwed(jobs[1..], id)
  }

  predicate Answers(r: Reply, id: string) {
    r.ReportReply? && IsReport(r.report, id)
  }

  function CountReplies(replies: seq<Reply>, id: string): nat {
    if replies == [] then 0 else One(Answers(replies[0], id)) + CountReplies(replies[1..], id)
  }

  lemma {:induction false} IdsAppend(a: seq<string>, b: seq<string>, id: string)
    ensures CountIds(a + b, id) == CountIds(a, id) + CountIds(b, id)
  {
    if a == [] {
      assert a + b == b;
    } else {
      assert (a + b)[1..] == a[1..] + b;
      IdsAppend(a[1..], b, id);
    }
  }

  lemma {:induction false} ItemsAppend(a: seq<In.Item>, b: seq<In.Item>, id: string)
    ensures CountItems(a + b, id) == CountItems(a, id) + CountItems(b, id)
  {
    if a == [] {
      assert a + b == b;
    } else {
      assert (a + b)[1..] == a[1..] + b;
      ItemsAppend(a[1..], b, id);
    }
  }

  lemma {:induction false} OwedAppend(a: seq<Job>, b: seq<Job>, id: string)
    ensures CountOwed(a + b, id) == CountOwed(a, id) + CountOwed(b, id)
  {
    if a == [] {
      assert a + b == b;
    } else {
      assert (a + b)[1..] == a[1..] + b;
      OwedAppend(a[1..], b, id);
    }
  }

  lemma {:induction false} RepliesAppend(a: seq<Reply>, b: seq<Reply>, id: string)
    ensures CountReplies(a + b, id) == CountReplies(a, id) + CountReplies(b, id)
  {
    if a == [] {
      assert a + b == b;
    } else {
      assert (a + b)[1..] == a[1..] + b;
      RepliesAppend(a[1..], b, id);
    }
  }

  /** What one job contributes to the owed replies. */
  lemma OwedAt(jobs: seq<Job>, index: nat, id: string)
    requires index < |jobs|
    ensures CountOwed(jobs, id) == CountOwed(jobs[..index], id) + One(Owes(jobs[index], id)) + CountOwed(jobs[index + 1..], id)
  {
    var j := jobs[index];
    assert jobs == jobs[..index] + ([j] + jobs[index + 1..]);
    OwedAppend(jobs[..index], [j] + jobs[index + 1..], id);
    OwedAppend([j], jobs[index + 1..], id);
    assert [j][1..] == [];
  }

  lemma OwedAfterUpdate(jobs: seq<Job>, index: nat, j: Job, id: string)
    requires index < |jobs|
    ensures CountOwed(jobs[index := j], id) + One(Owes(jobs[index], id)) == CountOwed(jobs, id) + One(Owes(j, id))
  {
    var after := jobs[index := j];
    OwedAt(jobs, index, id);
    OwedAt(after, index, id);
    assert after[..index] == jobs[..index] && after[index + 1..] == jobs[index + 1..];
  }

  lemma OwedAfterRemoval(jobs: seq<Job>, index: nat, id: string)
    requires index < |jobs|
    ensures CountOwed(jobs[..index] + jobs[index + 1..], id) + One(Owes(jobs[index], id)) == CountOwed(jobs, id)
  {
    OwedAt(jobs, index, id);
    OwedAppend(jobs[..index], jobs[index + 1..], id);
  }

  // ---------------------------------------------------------------------------------------
  // The law

  /** Only the durable lane holds reports, and a processor's reply is the reply to its own message. */
  ghost predicate Matched(p: Pipe) {
    && (forall k :: 0 <= k < |p.inbound.items.heartbeat| ==> p.inbound.items.heartbeat[k].message.Heartbeat?)
    && (forall k :: 0 <= k < |p.inbound.items.ack| ==> p.inbound.items.ack[k].message.CommandAck?)
    && (forall k :: 0 <= k < |p.jobs| && p.jobs[k].phase.Replying? ==> OwnReply(p.jobs[k].item.message, p.jobs[k].phase.reply))
  }

  predicate OwnReply(m: In.Message, reply: Option<Reply>) {
    if m.Report? then reply.Some? && reply.value.ReportReply? && reply.value.report == m
    else reply.None? || reply.value.HeartbeatReply?
  }

  /** A copy read but not yet stored, refused or dropped. */
  function AtReceiverCount(p: Pipe, id: string): nat {
    One(!p.receiver.Idle? && IsReport(p.receiver.item.message, id))
  }

  ghost predicate Balanced(p: Pipe, id: string) {
    && CountIds(p.copies.stored, id) + CountIds(p.copies.refused, id)
       == CountReplies(p.enqueued, id) + CountItems(p.inbound.items.durable, id) + CountOwed(p.jobs, id)
    && CountIds(p.copies.arrived, id)
       == CountIds(p.copies.stored, id) + CountIds(p.copies.refused, id) + CountIds(p.copies.dropped, id) + AtReceiverCount(p, id)
  }

  lemma ReportIdCount(m: In.Message, id: string)
    ensures CountIds(ReportId(m), id) == One(IsReport(m, id))
  {
    if m.Report? {
      assert [m.id][1..] == [];
    }
  }

  lemma MatchedStep(p: Pipe, m: Move)
    requires Matched(p) && Enabled(p, m)
    ensures Matched(Next(p, m))
  {
    match m
    case Process(index, try) => AttemptReplies(p, index, try);
    case Release(index) =>
      var q := Next(p, m);
      forall k | 0 <= k < |q.jobs| ensures q.jobs[k] == if k < index then p.jobs[k] else p.jobs[k + 1] {}
    case _ =>
  }

  lemma AttemptReplies(p: Pipe, index: nat, try: Try)
    requires Matched(p) && Enabled(p, Process(index, try))
    ensures Matched(Next(p, Process(index, try)))
  {
    AttemptParts(p, index, try);
    var q := Next(p, Process(index, try));
    assert q.jobs[index].phase.Replying? ==> OwnReply(q.jobs[index].item.message, q.jobs[index].phase.reply);
  }

  lemma BalancedArrive(p: Pipe, item: In.Item, id: string)
    requires Balanced(p, id) && Enabled(p, Arrive(item))
    ensures Balanced(Next(p, Arrive(item)), id)
  {
    IdsAppend(p.copies.arrived, ReportId(item.message), id);
    ReportIdCount(item.message, id);
  }

  lemma BalancedStore(p: Pipe, id: string)
    requires Balanced(p, id) && Enabled(p, Store) && In.Accepts(p.inbound, p.receiver.item)
    ensures Balanced(Next(p, Store), id)
  {
    var item := p.receiver.item;
    ReportIdCount(item.message, id);
    IdsAppend(p.copies.stored, ReportId(item.message), id);
    DurableAfterPut(p.inbound, item, id);
  }

  lemma DurableAfterPut(b: In.Buffer, item: In.Item, id: string)
    requires In.Accepts(b, item)
    ensures CountItems(In.Put(b, item).items.durable, id) == CountItems(b.items.durable, id) + One(IsReport(item.message, id))
  {
    ItemsAppend(b.items.durable, [item], id);
    assert [item][1..] == [];
  }

  lemma BalancedRefuse(p: Pipe, id: string)
    requires Balanced(p, id) && Enabled(p, Refuse) && p.receiver.item.message.Report?
    ensures Balanced(Next(p, Refuse), id)
  {
    var m := p.receiver.item.message;
    IdsAppend(p.copies.refused, [m.id], id);
    RepliesAppend(p.enqueued, [ReportReply(m, false)], id);
    assert [m.id][1..] == [] && [ReportReply(m, false)][1..] == [];
  }

  lemma BalancedPick(p: Pipe, lane: In.Lane, id: string)
    requires Balanced(p, id) && Matched(p) && Enabled(p, Pick(lane))
    ensures Balanced(Next(p, Pick(lane)), id)
  {
    var job := Job(p.inbound.items.At(lane)[0], Processing);
    OwedAppend(p.jobs, [job], id);
    assert [job][1..] == [];
  }

  /** A processing attempt touches only the inbox, the liveness and its own job, which still owes its reply. */
  lemma AttemptParts(p: Pipe, index: nat, try: Try)
    requires Enabled(p, Process(index, try))
    ensures var q := Next(p, Process(index, try));
            && q.copies == p.copies && q.enqueued == p.enqueued && q.inbound == p.inbound && q.receiver == p.receiver
            && |q.jobs| == |p.jobs| && q.jobs == p.jobs[index := q.jobs[index]]
            && q.jobs[index].item == p.jobs[index].item && !q.jobs[index].phase.Replied?
  {
  }

  lemma BalancedProcess(p: Pipe, index: nat, try: Try, id: string)
    requires Balanced(p, id) && Enabled(p, Process(index, try))
    ensures Balanced(Next(p, Process(index, try)), id)
  {
    AttemptParts(p, index, try);
    BalancedWithJobs(p, Next(p, Process(index, try)), index, id);
  }

  lemma BalancedWithJobs(p: Pipe, q: Pipe, index: nat, id: string)
    requires Balanced(p, id) && index < |p.jobs| && |q.jobs| == |p.jobs| && !p.jobs[index].phase.Replied?
    requires q.copies == p.copies && q.enqueued == p.enqueued && q.inbound == p.inbound && q.receiver == p.receiver
    requires q.jobs == p.jobs[index := q.jobs[index]] && q.jobs[index].item == p.jobs[index].item && !q.jobs[index].phase.Replied?
    ensures Balanced(q, id)
  {
    OwedAfterUpdate(p.jobs, index, q.jobs[index], id);
  }

  lemma BalancedAnswered(p: Pipe, index: nat, id: string)
    requires Balanced(p, id) && Matched(p) && Enabled(p, Answered(index))
    ensures Balanced(Next(p, Answered(index)), id)
  {
    var job := p.jobs[index];
    OwedAfterUpdate(p.jobs, index, job.(phase := Replied), id);
    if job.phase.reply.Some? {
      RepliesAppend(p.enqueued, [job.phase.reply.value], id);
      assert [job.phase.reply.value][1..] == [];
    }
  }

  /** Only reports are refused. */
  ghost predicate RefusesReports(p: Pipe) {
    p.receiver.Refusing? ==> p.receiver.item.message.Report?
  }

  lemma BalancedStep(p: Pipe, m: Move, id: string)
    requires Balanced(p, id) && Matched(p) && RefusesReports(p) && Enabled(p, m)
    ensures Balanced(Next(p, m), id)
  {
    match m
    case Arrive(item) => BalancedArrive(p, item, id);
    case Store =>
      if In.Accepts(p.inbound, p.receiver.item) {
        BalancedStore(p, id);
      } else {
        BalancedUnstored(p, id);
      }
    case Refuse => BalancedRefuse(p, id);
    case Pick(lane) => BalancedPick(p, lane, id);
    case Process(index, try) => BalancedProcess(p, index, try, id);
    case Answered(index) => BalancedAnswered(p, index, id);
    case Release(index) => OwedAfterRemoval(p.jobs, index, id);
    case _ =>
  }

  /** A frame that is not stored ends the connection, is refused next, or is dropped. */
  lemma UnstoredParts(p: Pipe)
    requires Enabled(p, Store) && !In.Accepts(p.inbound, p.receiver.item)
    ensures var q := Next(p, Store);
            && q.enqueued == p.enqueued && q.inbound == p.inbound && q.jobs == p.jobs
            && (|| (q.copies == p.copies && !q.receiver.Idle? && q.receiver.item == p.receiver.item)
                || (q.receiver.Idle? && q.copies == p.copies.(dropped := p.copies.dropped + ReportId(p.receiver.item.message))))
  {
  }

  lemma BalancedUnstored(p: Pipe, id: string)
    requires Balanced(p, id) && Enabled(p, Store) && !In.Accepts(p.inbound, p.receiver.item)
    ensures Balanced(Next(p, Store), id)
  {
    var item := p.receiver.item;
    UnstoredParts(p);
    ReportIdCount(item.message, id);
    IdsAppend(p.copies.dropped, ReportId(item.message), id);
  }

  /** At every moment of every run, for every id. */
  lemma {:induction false} CopiesAreConserved(pipes: seq<Pipe>, moves: seq<Move>, l: In.Limits, n: nat, id: string)
    requires IsRun(pipes, moves) && n < |pipes| && pipes[0] == Fresh(l, [], [])
    ensures Balanced(pipes[n], id) && Matched(pipes[n]) && RefusesReports(pipes[n])
  {
    if n > 0 {
      CopiesAreConserved(pipes, moves, l, n - 1, id);
      LawStep(pipes[n - 1], moves[n - 1], id);
    }
  }

  lemma LawStep(p: Pipe, m: Move, id: string)
    requires Balanced(p, id) && Matched(p) && RefusesReports(p) && Enabled(p, m)
    ensures Balanced(Next(p, m), id) && Matched(Next(p, m)) && RefusesReports(Next(p, m))
  {
    MatchedStep(p, m);
    BalancedStep(p, m, id);
    RefusesStep(p, m);
  }

  lemma RefusesStep(p: Pipe, m: Move)
    requires RefusesReports(p) && Enabled(p, m)
    ensures RefusesReports(Next(p, m))
  {
  }

  /** Once nothing is queued or owed, stored and refused copies have one reply each. */
  lemma EveryCopyIsAnsweredOnce(pipes: seq<Pipe>, moves: seq<Move>, l: In.Limits, n: nat, id: string)
    requires IsRun(pipes, moves) && n < |pipes| && pipes[0] == Fresh(l, [], [])
    requires pipes[n].inbound.items.durable == [] && forall k :: 0 <= k < |pipes[n].jobs| ==> pipes[n].jobs[k].phase.Replied?
    ensures CountReplies(pipes[n].enqueued, id)
         == CountIds(pipes[n].copies.stored, id) + CountIds(pipes[n].copies.refused, id)
  {
    CopiesAreConserved(pipes, moves, l, n, id);
    NothingOwed(pipes[n].jobs, id);
  }

  lemma {:induction false} NothingOwed(jobs: seq<Job>, id: string)
    requires forall k :: 0 <= k < |jobs| ==> jobs[k].phase.Replied?
    ensures CountOwed(jobs, id) == 0
  {
    if jobs != [] {
      NothingOwed(jobs[1..], id);
    }
  }
}
