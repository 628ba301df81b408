/**
  The bounded inbound buffer of one Agent control connection.  Heartbeats, command
  acknowledgements and durable reports wait in lanes that cannot starve each other.
 */
module InboundBuffer {
  import opened Prelude

  datatype Lane = HeartbeatLane | AckLane | DurableLane

  /** One value per lane. */
  datatype PerLane<T> = PerLane(heartbeat: T, ack: T, durable: T) {
    function At(lane: Lane): T {
      match lane
      case HeartbeatLane => heartbeat
      case AckLane => ack
      case DurableLane => durable
    }

    function With(lane: Lane, value: T): PerLane<T> {
      match lane
      case HeartbeatLane => this.(heartbeat := value)
      case AckLane => this.(ack := value)
      case DurableLane => this.(durable := value)
    }
  }

  datatype Message =
    | Heartbeat(id: string)
    | CommandAck(id: string, commandId: string)
    | Report(id: string, hash: string, business: string)
    | OtherMessage(id: string)

  const LATEST_HEARTBEAT := "latest-heartbeat"
  const ACK_PREFIX := "command-ack:"

  function LaneOf(m: Message): Lane {
    match m
    case Heartbeat(_) => HeartbeatLane
    case CommandAck(_, _) => AckLane
    case _ => DurableLane
  }

  /** The identity under which a resent frame is recognised while the first copy is pending. */
  function KeyOf(m: Message): string {
    match m
    case Heartbeat(_) => LATEST_HEARTBEAT
    case CommandAck(_, commandId) => ACK_PREFIX + commandId
    case Report(id, _, _) => id
    case OtherMessage(_) => ""
  }

  datatype Item = Item(message: Message, frameBytes: nat)

  function Key(i: Item): string {
    KeyOf(i.message)
  }

  datatype Limits = Limits(capacity: nat, maxBytes: nat)

  function Max(a: int, b: int): int {
    if a < b then b else a
  }

  function CapacityOf(l: Limits, lane: Lane): nat {
    match lane
    case HeartbeatLane => 1
    case AckLane => Max(16, l.capacity / 4)
    case DurableLane => l.capacity
  }

  function BytesOf(l: Limits, lane: Lane): nat {
    match lane
    case HeartbeatLane => l.maxBytes
    case AckLane => Max(1024, l.maxBytes / 8)
    case DurableLane => l.maxBytes
  }

  datatype Buffer = Buffer(limits: Limits, items: PerLane<seq<Item>>, bytes: PerLane<int>, pending: set<string>)

  function Empty(l: Limits): Buffer {
    Buffer(l, PerLane([], [], []),
           PerLane(0, 0, 0), {})
  }

  function Sum(items: seq<Item>): nat {
    if items == [] then 0 else items[0].frameBytes + Sum(items[1..])
  }

  lemma SumAppends(a: seq<Item>, b: seq<Item>)
    ensures Sum(a + b) == Sum(a) + Sum(b)
  {
    if a == [] {
      assert a + b == b;
    } else {
      assert (a + b)[1..] == a[1..] + b;
      SumAppends(a[1..], b);
    }
  }

  // ---------------------------------------------------------------------------------------
  // Operations

  datatype PutError = FrameTooLarge

  predicate Refuses(b: Buffer, i: Item)
  {
    var lane := LaneOf(i.message);
    && lane != HeartbeatLane
    && ((Key(i) != "" && Key(i) in b.pending)
        || |b.items.At(lane)| >= CapacityOf(b.limits, lane)
        || b.bytes.At(lane) + i.frameBytes > BytesOf(b.limits, lane))
  }

  function Discard(keys: set<string>, key: string): set<string> {
    if key == "" then keys else keys - {key}
  }

  function Put(b: Buffer, i: Item): Buffer
  {
    if i.frameBytes > b.limits.maxBytes || Refuses(b, i) then b
    else
      var lane := LaneOf(i.message);
      var kept := if lane == HeartbeatLane && b.items.At(lane) != [] then b.items.At(lane)[1..] else b.items.At(lane);
      var bytes := if lane == HeartbeatLane && b.items.At(lane) != [] then b.bytes.At(lane) - b.items.At(lane)[0].frameBytes else b.bytes.At(lane);
      var keys := if lane == HeartbeatLane && b.items.At(lane) != [] then Discard(b.pending, Key(b.items.At(lane)[0])) else b.pending;
      b.(items := b.items.With(lane, kept + [i]),
         bytes := b.bytes.With(lane, bytes + i.frameBytes),
         pending := if Key(i) == "" then keys else keys + {Key(i)})
  }

  predicate Accepts(b: Buffer, i: Item)
  {
    i.frameBytes <= b.limits.maxBytes && !Refuses(b, i)
  }

  function Get(b: Buffer, lane: Lane): Buffer
    requires b.items.At(lane) != []
  {
    b.(items := b.items.With(lane, b.items.At(lane)[1..]),
       bytes := b.bytes.With(lane, b.bytes.At(lane) - b.items.At(lane)[0].frameBytes))
  }

  function Complete(b: Buffer, i: Item): Buffer {
    b.(pending := Discard(b.pending, Key(i)))
  }

  class AgentInboundBuffer {
    const limits: Limits
    var items: PerLane<seq<Item>>
    var bytes: PerLane<int>
    var pending: set<string>

    ghost function State(): Buffer
      reads this
    {
      Buffer(limits, items, bytes, pending)
    }

    constructor (limits: Limits)
      requires limits.capacity > 0 && limits.maxBytes > 0
      ensures State() == Empty(limits)
    {
      this.limits := limits;
      items := PerLane([], [], []);
      bytes := PerLane(0, 0, 0);
      pending := {};
    }

    method PutItem(i: Item) returns (queued: Result<bool, PutError>)
      modifies this
      ensures State() == Put(old(State()), i)
      ensures queued.Err? <==> i.frameBytes > limits.maxBytes
      ensures queued.Ok? ==> queued.value == Accepts(old(State()), i)
    {
      if i.frameBytes > limits.maxBytes {
        return Err(FrameTooLarge);
      }
      var lane := LaneOf(i.message);
      if lane == HeartbeatLane {
        if items.At(lane) != [] {
          var retired := items.At(lane)[0];
          items := items.With(lane, items.At(lane)[1..]);
          bytes := bytes.With(lane, bytes.At(lane) - retired.frameBytes);
          if Key(retired) != "" {
            pending := pending - {Key(retired)};
          }
        }
      } else if Key(i) != "" && Key(i) in pending {
        return Ok(false);
      } else if lane == AckLane {
        if |items.At(lane)| >= Max(16, limits.capacity / 4) || bytes.At(lane) + i.frameBytes > Max(1024, limits.maxBytes / 8) {
          return Ok(false);
        }
      } else {
        if |items.At(lane)| >= limits.capacity || bytes.At(lane) + i.frameBytes > limits.maxBytes {
          return Ok(false);
        }
      }
      items := items.With(lane, items.At(lane) + [i]);
      bytes := bytes.With(lane, bytes.At(lane) + i.frameBytes);
      if Key(i) != "" {
        pending := pending + {Key(i)};
      }
      queued := Ok(true);
    }

    method GetItem(lane: Lane) returns (i: Item)
      requires items.At(lane) != []
      modifies `items, `bytes
      ensures i == old(items).At(lane)[0]
      ensures State() == Get(old(State()), lane)
    {
      i := items.At(lane)[0];
      items := items.With(lane, items.At(lane)[1..]);
      bytes := bytes.With(lane, bytes.At(lane) - i.frameBytes);
    }

    method CompleteItem(i: Item)
      modifies `pending
      ensures State() == Complete(old(State()), i)
    {
      if Key(i) == "" {
        return;
      }
      pending := pending - {Key(i)};
    }
  }

  // ---------------------------------------------------------------------------------------
  // Every interleaving of the receiver and the lane processors

  /** The buffer, the items its processors hold, and what each lane ever accepted and handed out. */
  datatype World = World(
    buffer: Buffer, working: seq<Item>, accepted: PerLane<seq<Item>>, taken: PerLane<seq<Item>>)

  datatype Move = Receive(item: Item) | Take(lane: Lane) | Finish(index: nat)

  function Initial(l: Limits): World {
    World(Empty(l), [], PerLane([], [], []),
          PerLane([], [], []))
  }

  predicate Enabled(w: World, m: Move) {
    && match m
       case Receive(item) => true
       case Take(lane) => w.buffer.items.At(lane) != []
       case Finish(index) => index < |w.working|
  }

  function Next(w: World, m: Move): World
    requires Enabled(w, m)
  {
    match m
    case Receive(item) =>
      var lane := LaneOf(item.message);
      w.(buffer := Put(w.buffer, item),
         accepted := if Accepts(w.buffer, item) then w.accepted.With(lane, w.accepted.At(lane) + [item]) else w.accepted)
    case Take(lane) =>
      var item := w.buffer.items.At(lane)[0];
      w.(buffer := Get(w.buffer, lane),
         working := w.working + [item],
         taken := w.taken.With(lane, w.taken.At(lane) + [item]))
    case Finish(index) =>
      w.(buffer := Complete(w.buffer, w.working[index]),
         working := w.working[..index] + w.working[index + 1..])
  }

  /** How many durable or acknowledgement items of a list carry a key. */
  function Count(items: seq<Item>, key: string): nat {
    if items == [] then 0
    else (if LaneOf(items[0].message) != HeartbeatLane && Key(items[0]) == key then 1 else 0) + Count(items[1..], key)
  }

  lemma CountAppend(a: seq<Item>, b: seq<Item>, key: string)
    ensures Count(a + b, key) == Count(a, key) + Count(b, key)
  {
    if a == [] {
      assert a + b == b;
    } else {
      assert (a + b)[1..] == a[1..] + b;
      CountAppend(a[1..], b, key);
    }
  }

  /** How many items, queued or in process, carry a key. */
  function Active(w: World, key: string): nat {
    Count(w.buffer.items.ack, key) + Count(w.buffer.items.durable, key) + Count(w.working, key)
  }

  ghost predicate InLane(w: World, lane: Lane)
  {
    && w.buffer.bytes.At(lane) == Sum(w.buffer.items.At(lane))
    && w.buffer.bytes.At(lane) <= BytesOf(w.buffer.limits, lane)
    && |w.buffer.items.At(lane)| <= CapacityOf(w.buffer.limits, lane)
    && (forall k :: 0 <= k < |w.buffer.items.At(lane)| ==> LaneOf(w.buffer.items.At(lane)[k].message) == lane)
  }

  /** Bytes are accounted exactly and every lane stays within its own bounds. */
  ghost predicate Bounded(w: World) {
    forall lane :: InLane(w, lane)
  }

  /** Durable and acknowledgement lanes are FIFO queues; the heartbeat lane holds the latest heartbeat only. */
  ghost predicate Ordered(w: World) {
    && w.accepted.At(AckLane) == w.taken.At(AckLane) + w.buffer.items.At(AckLane)
    && w.accepted.At(DurableLane) == w.taken.At(DurableLane) + w.buffer.items.At(DurableLane)
    && (w.buffer.items.At(HeartbeatLane) != [] ==>
          && w.accepted.At(HeartbeatLane) != []
          && w.buffer.items.At(HeartbeatLane) == [w.accepted.At(HeartbeatLane)[|w.accepted.At(HeartbeatLane)| - 1]])
  }

  /** No two durable or acknowledgement items, queued or in process, share a key. */
  ghost predicate Deduplicated(w: World) {
    forall key :: key != "" && Active(w, key) > 0 ==>
      Active(w, key) == 1 && key in w.buffer.pending && key != LATEST_HEARTBEAT
  }

  lemma BoundedStep(w: World, m: Move)
    requires Bounded(w) && Enabled(w, m)
    ensures Bounded(Next(w, m))
  {
    forall lane ensures InLane(Next(w, m), lane) {
      assert InLane(w, lane);
      match m
      case Receive(item) => InLaneAfterReceive(w, item, lane);
      case Take(from) =>
      case Finish(index) =>
    }
  }

  lemma InLaneAfterReceive(w: World, item: Item, lane: Lane)
    requires InLane(w, lane)
    ensures InLane(Next(w, Receive(item)), lane)
  {
    if Accepts(w.buffer, item) && lane == LaneOf(item.message) {
      var kept := if lane == HeartbeatLane then [] else w.buffer.items.At(lane);
      SumAppends(kept, [item]);
      assert Put(w.buffer, item).items.At(lane) == kept + [item];
    }
  }

  lemma OrderedStep(w: World, m: Move)
    requires Bounded(w) && Ordered(w) && Enabled(w, m)
    ensures Ordered(Next(w, m))
  {
    assert InLane(w, HeartbeatLane);
  }

  lemma ActiveAfterReceive(w: World, item: Item, key: string)
    requires Accepts(w.buffer, item)
    ensures Active(Next(w, Receive(item)), key) ==
            Active(w, key) + if LaneOf(item.message) != HeartbeatLane && Key(item) == key then 1 else 0
  {
    CountAppend(w.buffer.items.At(LaneOf(item.message)), [item], key);
    assert [item][1..] == [];
  }

  lemma ActiveAfterTake(w: World, lane: Lane, key: string)
    requires w.buffer.items.At(lane) != []
    requires LaneOf(w.buffer.items.At(lane)[0].message) == lane
    ensures Active(Next(w, Take(lane)), key) == Active(w, key)
  {
    var head := w.buffer.items.At(lane)[0];
    CountAppend(w.working, [head], key);
    assert [head][1..] == [];
  }

  lemma ActiveAfterFinish(w: World, index: nat, key: string)
    requires index < |w.working|
    ensures Active(Next(w, Finish(index)), key) + Count([w.working[index]], key) == Active(w, key)
  {
    var item := w.working[index];
    assert w.working == w.working[..index] + ([item] + w.working[index + 1..]);
    CountAppend(w.working[..index], [item] + w.working[index + 1..], key);
    CountAppend([item], w.working[index + 1..], key);
    CountAppend(w.working[..index], w.working[index + 1..], key);
  }

  /** A report identity may be any text except the one heartbeats use. */
  predicate Distinguishable(m: Move) {
    m.Receive? && m.item.message.Report? ==> m.item.message.id != LATEST_HEARTBEAT
  }

  /** A key carried by a durable or acknowledgement item is carried by one, and is pending. */
  predicate KeyAlone(w: World, key: string) {
    Active(w, key) > 0 ==> Active(w, key) == 1 && key in w.buffer.pending
  }

  /** Any key but the heartbeats' own stays alone, whatever other items do. */
  lemma KeyAloneStep(w: World, m: Move, key: string)
    requires Bounded(w) && KeyAlone(w, key) && Enabled(w, m)
    requires key != "" && key != LATEST_HEARTBEAT
    ensures KeyAlone(Next(w, m), key)
  {
    match m
    case Receive(item) => KeyAloneReceive(w, item, key);
    case Take(lane) =>
      assert InLane(w, lane);
      ActiveAfterTake(w, lane, key);
    case Finish(index) =>
      ActiveAfterFinish(w, index, key);
      assert [w.working[index]][1..] == [];
      if w.working[index].message.Heartbeat? {
        assert Key(w.working[index]) == LATEST_HEARTBEAT;
      }
  }

  lemma KeyAloneReceive(w: World, item: Item, key: string)
    requires Bounded(w) && KeyAlone(w, key) && key != "" && key != LATEST_HEARTBEAT
    ensures KeyAlone(Next(w, Receive(item)), key)
  {
    if Accepts(w.buffer, item) {
      ActiveAfterReceive(w, item, key);
      if item.message.Heartbeat? && w.buffer.items.At(HeartbeatLane) != [] {
        assert InLane(w, HeartbeatLane);
        assert w.buffer.items.At(HeartbeatLane)[0].message.Heartbeat?;
      }
    }
  }

  /** Without reports of that name no durable or acknowledgement item carries the heartbeats' key. */
  lemma HeartbeatKeyUnused(w: World, m: Move)
    requires Bounded(w) && Active(w, LATEST_HEARTBEAT) == 0 && Enabled(w, m) && Distinguishable(m)
    ensures Active(Next(w, m), LATEST_HEARTBEAT) == 0
  {
    match m
    case Receive(item) =>
      if Accepts(w.buffer, item) {
        ActiveAfterReceive(w, item, LATEST_HEARTBEAT);
        if item.message.CommandAck? {
          assert Key(item)[0] == 'c' && LATEST_HEARTBEAT[0] == 'l';
        }
      }
    case Take(lane) =>
      assert InLane(w, lane);
      ActiveAfterTake(w, lane, LATEST_HEARTBEAT);
    case Finish(index) => ActiveAfterFinish(w, index, LATEST_HEARTBEAT);
  }

  ghost predicate IsRun(worlds: seq<World>, moves: seq<Move>) {
    && |worlds| == |moves| + 1
    && forall i :: 0 <= i < |moves| ==> Enabled(worlds[i], moves[i]) && worlds[i + 1] == Next(worlds[i], moves[i])
  }

  /** A run from the empty buffer, observed at one of its moments. */
  ghost predicate Reached(worlds: seq<World>, moves: seq<Move>, l: Limits, n: nat) {
    IsRun(worlds, moves) && n < |worlds| && worlds[0] == Initial(l)
  }

  lemma {:induction false} BoundedAlways(worlds: seq<World>, moves: seq<Move>, l: Limits, n: nat)
    requires Reached(worlds, moves, l, n)
    ensures Bounded(worlds[n]) && Ordered(worlds[n])
  {
    if n == 0 {
      assert forall lane :: InLane(worlds[0], lane);
    } else {
      BoundedAlways(worlds, moves, l, n - 1);
      BoundedStep(worlds[n - 1], moves[n - 1]);
      OrderedStep(worlds[n - 1], moves[n - 1]);
    }
  }

  lemma {:induction false} KeyAloneAlways(worlds: seq<World>, moves: seq<Move>, l: Limits, n: nat, key: string)
    requires Reached(worlds, moves, l, n) && key != "" && key != LATEST_HEARTBEAT
    ensures KeyAlone(worlds[n], key)
  {
    if n > 0 {
      KeyAloneAlways(worlds, moves, l, n - 1, key);
      BoundedAlways(worlds, moves, l, n - 1);
      KeyAloneStep(worlds[n - 1], moves[n - 1], key);
    }
  }

  lemma {:induction false} HeartbeatKeyNeverUsed(worlds: seq<World>, moves: seq<Move>, l: Limits, n: nat)
    requires Reached(worlds, moves, l, n) && forall i :: 0 <= i < |moves| ==> Distinguishable(moves[i])
    ensures Active(worlds[n], LATEST_HEARTBEAT) == 0
  {
    if n > 0 {
      HeartbeatKeyNeverUsed(worlds, moves, l, n - 1);
      BoundedAlways(worlds, moves, l, n - 1);
      HeartbeatKeyUnused(worlds[n - 1], moves[n - 1]);
    }
  }

  /** Over every interleaving, at every moment. */
  lemma InboundAlways(worlds: seq<World>, moves: seq<Move>, l: Limits, n: nat)
    requires Reached(worlds, moves, l, n)
    ensures Bounded(worlds[n]) && Ordered(worlds[n])
    ensures (forall i :: 0 <= i < |moves| ==> Distinguishable(moves[i])) ==> Deduplicated(worlds[n])
  {
    BoundedAlways(worlds, moves, l, n);
    if forall i :: 0 <= i < |moves| ==> Distinguishable(moves[i]) {
      HeartbeatKeyNeverUsed(worlds, moves, l, n);
      forall key | key != "" && Active(worlds[n], key) > 0
        ensures Active(worlds[n], key) == 1 && key in worlds[n].buffer.pending && key != LATEST_HEARTBEAT
      {
        KeyAloneAlways(worlds, moves, l, n, key);
      }
    }
  }

  /** A non-empty key is carried by at most one durable or acknowledgement item in every run, if and only
      if it is not the heartbeats' key. */
  lemma DeduplicationExact(l: Limits, key: string)
    requires key != "" && l.capacity >= 1 && l.maxBytes >= 1
    ensures key != LATEST_HEARTBEAT <==>
            forall worlds: seq<World>, moves: seq<Move>, n: nat :: Reached(worlds, moves, l, n) ==> Active(worlds[n], key) <= 1
  {
    if key != LATEST_HEARTBEAT {
      forall worlds: seq<World>, moves: seq<Move>, n: nat | Reached(worlds, moves, l, n) ensures Active(worlds[n], key) <= 1 {
        KeyAloneAlways(worlds, moves, l, n, key);
      }
    } else {
      var worlds, moves := HeartbeatKeyBreaksDeduplication(l, Item(Report(LATEST_HEARTBEAT, "", ""), 1), Item(Heartbeat(""), 1));
      assert Reached(worlds, moves, l, |moves|);
    }
  }

  /** A report that does use the heartbeats' key can be in process twice. */
  lemma HeartbeatKeyBreaksDeduplication(l: Limits, report: Item, beat: Item)
    returns (worlds: seq<World>, moves: seq<Move>)
    requires l.capacity >= 1
    requires report.message.Report? && report.message.id == LATEST_HEARTBEAT && report.frameBytes <= l.maxBytes
    requires beat.message.Heartbeat? && beat.frameBytes <= l.maxBytes
    ensures IsRun(worlds, moves) && worlds[0] == Initial(l)
    ensures !Deduplicated(worlds[|moves|]) && Active(worlds[|moves|], LATEST_HEARTBEAT) == 2
  {
    var w0 := Initial(l);
    var w1 := Next(w0, Receive(report));
    var w2 := Next(w1, Take(DurableLane));
    var w3 := Next(w2, Receive(beat));
    var w4 := Next(w3, Take(HeartbeatLane));
    assert w4.working == [report, beat];
    var w5 := Next(w4, Finish(1));
    assert w5.working == [report];
    var w6 := Next(w5, Receive(report));
    worlds := [w0, w1, w2, w3, w4, w5, w6];
    moves := [Receive(report), Take(DurableLane), Receive(beat), Take(HeartbeatLane), Finish(1), Receive(report)];
    assert [report][1..] == [];
    assert w6.buffer.items.At(DurableLane) == [report];
    assert w6.buffer.items.At(AckLane) == [];
  }

  /** Queued keys need not be pending: finishing an earlier heartbeat drops the key a queued one still uses. */
  lemma QueuedHeartbeatMayLoseItsKey(l: Limits, first: Item, second: Item)
    returns (worlds: seq<World>, moves: seq<Move>)
    requires first.message.Heartbeat? && second.message.Heartbeat?
    requires first.frameBytes <= l.maxBytes && second.frameBytes <= l.maxBytes
    ensures IsRun(worlds, moves) && worlds[0] == Initial(l)
    ensures worlds[|moves|].buffer.items.At(HeartbeatLane) == [second]
    ensures Key(second) !in worlds[|moves|].buffer.pending
  {
    var w0 := Initial(l);
    var w1 := Next(w0, Receive(first));
    var w2 := Next(w1, Take(HeartbeatLane));
    var w3 := Next(w2, Receive(second));
    var w4 := Next(w3, Finish(0));
    worlds := [w0, w1, w2, w3, w4];
    moves := [Receive(first), Take(HeartbeatLane), Receive(second), Finish(0)];
  }

  // ---------------------------------------------------------------------------------------
  // When queued keys are pending

  ghost predicate LanePending(w: World, lane: Lane) {
    forall k :: 0 <= k < |w.buffer.items.At(lane)| ==>
      Key(w.buffer.items.At(lane)[k]) == "" || Key(w.buffer.items.At(lane)[k]) in w.buffer.pending
  }

  /** Every key of a queued item is pending. */
  ghost predicate QueuedPending(w: World) {
    forall lane :: LanePending(w, lane)
  }

  /** An earlier heartbeat finishes while a later one is queued. */
  predicate FinishesBehind(w: World, m: Move) {
    && m.Finish? && m.index < |w.working| && Key(w.working[m.index]) == LATEST_HEARTBEAT
    && w.buffer.items.At(HeartbeatLane) != []
  }

  lemma {:induction false} CountMember(items: seq<Item>, key: string, k: nat)
    requires k < |items| && LaneOf(items[k].message) != HeartbeatLane && Key(items[k]) == key
    ensures Count(items, key) >= 1
  {
    if k > 0 {
      CountMember(items[1..], key, k - 1);
    }
  }

  /** A key that some processor holds is queued nowhere but, for a heartbeat's, in the heartbeat lane. */
  lemma HeldIsNotQueued(w: World, index: nat, lane: Lane, k: nat)
    requires Bounded(w) && Deduplicated(w) && index < |w.working| && lane != HeartbeatLane
    requires k < |w.buffer.items.At(lane)| && Key(w.working[index]) != ""
    ensures Key(w.buffer.items.At(lane)[k]) != Key(w.working[index])
  {
    QueuedIsActive(w, lane, k);
    if !w.working[index].message.Heartbeat? && Key(w.working[index]) == Key(w.buffer.items.At(lane)[k]) {
      HeldAndQueued(w, index, lane, k);
    }
  }

  lemma QueuedIsActive(w: World, lane: Lane, k: nat)
    requires Bounded(w) && lane != HeartbeatLane && k < |w.buffer.items.At(lane)|
    ensures Active(w, Key(w.buffer.items.At(lane)[k])) > 0
  {
    assert InLane(w, lane);
    CountMember(w.buffer.items.At(lane), Key(w.buffer.items.At(lane)[k]), k);
  }

  lemma HeldAndQueued(w: World, index: nat, lane: Lane, k: nat)
    requires Bounded(w) && index < |w.working| && !w.working[index].message.Heartbeat?
    requires lane != HeartbeatLane && k < |w.buffer.items.At(lane)|
    requires Key(w.working[index]) == Key(w.buffer.items.At(lane)[k])
    ensures Active(w, Key(w.working[index])) >= 2
  {
    assert InLane(w, lane);
    CountMember(w.buffer.items.At(lane), Key(w.buffer.items.At(lane)[k]), k);
    CountMember(w.working, Key(w.working[index]), index);
  }

  /** Exactly that move takes a queued key out of the pending ones. */
  lemma QueuedPendingStep(w: World, m: Move)
    requires Bounded(w) && Deduplicated(w) && Enabled(w, m) && QueuedPending(w)
    ensures QueuedPending(Next(w, m)) <==> !FinishesBehind(w, m)
  {
    match m
    case Receive(item) => QueuedPendingReceive(w, item);
    case Take(from) =>
      forall lane ensures LanePending(Next(w, m), lane) {
        PendingAfterTake(w, from, lane);
      }
    case Finish(index) => QueuedPendingFinish(w, index);
  }

  lemma PendingAfterTake(w: World, from: Lane, lane: Lane)
    requires LanePending(w, lane) && w.buffer.items.At(from) != []
    ensures LanePending(Next(w, Take(from)), lane)
  {
    var before, after := w.buffer.items.At(lane), Next(w, Take(from)).buffer.items.At(lane);
    forall k | 0 <= k < |after| ensures Key(after[k]) == "" || Key(after[k]) in w.buffer.pending {
      assert after[k] == before[if lane == from then k + 1 else k];
    }
  }

  lemma QueuedPendingReceive(w: World, item: Item)
    requires Bounded(w) && QueuedPending(w)
    ensures QueuedPending(Next(w, Receive(item)))
  {
    var next := Next(w, Receive(item));
    forall lane ensures LanePending(next, lane) {
      assert LanePending(w, lane) && InLane(w, lane) && InLane(w, HeartbeatLane);
      if Accepts(w.buffer, item) && item.message.Heartbeat? {
        HeartbeatReplaces(w, item);
      }
    }
  }

  lemma HeartbeatReplaces(w: World, item: Item)
    requires Bounded(w) && item.message.Heartbeat? && Accepts(w.buffer, item)
    ensures var next := Next(w, Receive(item));
            && next.buffer.pending == w.buffer.pending + {LATEST_HEARTBEAT}
            && next.buffer.items.At(HeartbeatLane) == [item]
            && forall lane :: lane != HeartbeatLane ==> next.buffer.items.At(lane) == w.buffer.items.At(lane)
  {
    assert InLane(w, HeartbeatLane);
    if w.buffer.items.At(HeartbeatLane) != [] {
      assert Key(w.buffer.items.At(HeartbeatLane)[0]) == LATEST_HEARTBEAT;
    }
  }

  lemma QueuedPendingFinish(w: World, index: nat)
    requires Bounded(w) && Deduplicated(w) && index < |w.working| && QueuedPending(w)
    ensures QueuedPending(Next(w, Finish(index))) <==> !FinishesBehind(w, Finish(index))
  {
    var next := Next(w, Finish(index));
    var key := Key(w.working[index]);
    assert InLane(w, HeartbeatLane);
    if FinishesBehind(w, Finish(index)) {
      assert Key(next.buffer.items.At(HeartbeatLane)[0]) == LATEST_HEARTBEAT;
      assert !LanePending(next, HeartbeatLane);
    } else {
      forall lane, k | 0 <= k < |w.buffer.items.At(lane)|
        ensures Key(w.buffer.items.At(lane)[k]) == "" || Key(w.buffer.items.At(lane)[k]) in next.buffer.pending
      {
        assert LanePending(w, lane);
        if key != "" && lane != HeartbeatLane {
          HeldIsNotQueued(w, index, lane, k);
        }
      }
      forall lane ensures LanePending(next, lane) {
      }
    }
  }

  ghost predicate NeverFinishesBehind(worlds: seq<World>, moves: seq<Move>) {
    forall i :: 0 <= i < |moves| && i < |worlds| ==> !FinishesBehind(worlds[i], moves[i]) && Distinguishable(moves[i])
  }

  /** Queued keys are pending at every moment of a run that never finishes a heartbeat behind another. */
  lemma {:induction false} QueuedPendingAlways(worlds: seq<World>, moves: seq<Move>, l: Limits, n: nat)
    requires Reached(worlds, moves, l, n) && NeverFinishesBehind(worlds, moves)
    ensures QueuedPending(worlds[n])
  {
    if n == 0 {
      assert forall lane :: LanePending(worlds[0], lane);
    } else {
      QueuedPendingAlways(worlds, moves, l, n - 1);
      assert forall i :: 0 <= i < |moves| ==> Distinguishable(moves[i]);
      InboundAlways(worlds, moves, l, n - 1);
      QueuedPendingStep(worlds[n - 1], moves[n - 1]);
    }
  }
}
