/**
  The outbound priority buffer of one Agent control connection.  Protocol replies overtake
  trade commands and keep a reserve that work items cannot use.
 */
module OutboundBuffer {
  /** `frame` stands for the envelope; only its urgency, role and identity matter here. */
  datatype Item<F> = Item(priority: int, sequence: nat, reply: bool, key: string, frame: F)

  /** The heap order: urgency first, arrival second. */
  predicate Before<F>(a: Item<F>, b: Item<F>) {
    a.priority < b.priority || (a.priority == b.priority && a.sequence < b.sequence)
  }

  datatype Buffer<F> = Buffer(capacity: int, reserve: int, items: seq<Item<F>>, work: int, sequence: nat, keys: set<string>)

  function Empty<F>(capacity: int, reserve: int): Buffer<F> {
    Buffer(capacity, reserve, [], 0, 0, {})
  }

  predicate Duplicate<F>(b: Buffer<F>, key: string) {
    key != "" && key in b.keys
  }

  /** The wait condition of `put`. */
  predicate Admissible<F>(b: Buffer<F>, reply: bool) {
    |b.items| < b.capacity && (reply || b.work < b.capacity - b.reserve)
  }

  function InsertAt<F>(items: seq<Item<F>>, item: Item<F>): (k: nat)
    ensures k <= |items|
    ensures forall i :: 0 <= i < k ==> Before(items[i], item)
    ensures k < |items| ==> !Before(items[k], item)
  {
    if items == [] || !Before(items[0], item) then 0 else 1 + InsertAt(items[1..], item)
  }

  function Insert<F>(items: seq<Item<F>>, item: Item<F>): seq<Item<F>> {
    var k := InsertAt(items, item);
    items[..k] + [item] + items[k..]
  }

  function NewItem<F>(b: Buffer<F>, frame: F, priority: int, reply: bool, key: string): Item<F> {
    Item(priority, b.sequence + 1, reply, key, frame)
  }

  function Put<F>(b: Buffer<F>, frame: F, priority: int, reply: bool, key: string): Buffer<F>
    requires Admissible(b, reply)
  {
    if Duplicate(b, key) then b
    else b.(items := Insert(b.items, NewItem(b, frame, priority, reply, key)),
            work := if reply then b.work else b.work + 1,
            sequence := b.sequence + 1,
            keys := if key == "" then b.keys else b.keys + {key})
  }

  function Get<F>(b: Buffer<F>): Buffer<F>
    requires b.items != []
  {
    b.(items := b.items[1..], work := if b.items[0].reply then b.work else b.work - 1)
  }

  function Complete<F>(b: Buffer<F>, i: Item<F>): Buffer<F> {
    b.(keys := if i.key == "" then b.keys else b.keys - {i.key})
  }

  class AgentOutboundBuffer<F> {
    const capacity: int
    const workCapacity: int
    ghost const reserve: int
    var items: seq<Item<F>>
    var workItems: int
    var sequence: nat
    var dedupKeys: set<string>

    ghost predicate Valid()
      reads this
    {
      workCapacity == capacity - reserve
    }

    ghost function State(): Buffer<F>
      reads this
    {
      Buffer(capacity, reserve, items, workItems, sequence, dedupKeys)
    }

    constructor (capacity: int, reserve: int)
      ensures Valid() && State() == Empty(capacity, reserve)
    {
      this.capacity, this.workCapacity, this.reserve := capacity, capacity - reserve, reserve;
      items, workItems, sequence, dedupKeys := [], 0, 0, {};
    }

    /** `put` once its wait condition holds; the duplicate check is repeated after the wait. */
    method PutFrame(frame: F, priority: int, reply: bool, key: string) returns (queued: bool)
      requires Valid() && Admissible(State(), reply)
      modifies this
      ensures Valid()
      ensures State() == Put(old(State()), frame, priority, reply, key)
      ensures queued <==> !Duplicate(old(State()), key)
    {
      if key != "" && key in dedupKeys {
        return false;
      }
      sequence := sequence + 1;
      var item := Item(priority, sequence, reply, key, frame);
      PushOrdered(item);
      if !reply {
        workItems := workItems + 1;
      }
      if key != "" {
        dedupKeys := dedupKeys + {key};
      }
      queued := true;
    }

    /** Ordered insertion in the place of a heap push. */
    method PushOrdered(item: Item<F>)
      modifies `items
      ensures items == Insert(old(items), item)
    {
      var k := 0;
      while k < |items| && Before(items[k], item)
        invariant 0 <= k <= |items|
        invariant InsertAt(items, item) == k + InsertAt(items[k..], item)
      {
        k := k + 1;
      }
      items := items[..k] + [item] + items[k..];
    }

    method GetFrame() returns (item: Item<F>)
      requires Valid() && items != []
      modifies this
      ensures Valid()
      ensures item == old(items)[0]
      ensures State() == Get(old(State()))
    {
      item := items[0];
      items := items[1..];
      if !item.reply {
        workItems := workItems - 1;
      }
    }

    method CompleteFrame(item: Item<F>)
      requires Valid()
      modifies `dedupKeys
      ensures Valid()
      ensures State() == Complete(old(State()), item)
    {
      if item.key == "" {
        return;
      }
      dedupKeys := dedupKeys - {item.key};
    }
  }

  // ---------------------------------------------------------------------------------------
  // Every interleaving of producers and the sender

  /** The buffer, the items taken but not yet completed, and everything ever put and taken. */
  datatype World<F> = World(buffer: Buffer<F>, unsent: seq<Item<F>>, put: seq<Item<F>>, taken: seq<Item<F>>)

  datatype Move<F> =
    | Offer(frame: F, priority: int, reply: bool, key: string)
    | Take
    | Finish(index: nat)

  function Initial<F>(capacity: int, reserve: int): World<F> {
    World(Empty(capacity, reserve), [], [], [])
  }

  predicate Enabled<F>(w: World<F>, m: Move<F>) {
    match m
    case Offer(_, _, reply, _) => Admissible(w.buffer, reply)
    case Take => w.buffer.items != []
    case Finish(index) => index < |w.unsent|
  }

  function Next<F>(w: World<F>, m: Move<F>): World<F>
    requires Enabled(w, m)
  {
    match m
    case Offer(frame, priority, reply, key) =>
      w.(buffer := Put(w.buffer, frame, priority, reply, key),
         put := if Duplicate(w.buffer, key) then w.put else w.put + [NewItem(w.buffer, frame, priority, reply, key)])
    case Take =>
      w.(buffer := Get(w.buffer), unsent := w.unsent + [w.buffer.items[0]], taken := w.taken + [w.buffer.items[0]])
    case Finish(index) =>
      w.(buffer := Complete(w.buffer, w.unsent[index]), unsent := w.unsent[..index] + w.unsent[index + 1..])
  }

  function Work<F>(items: seq<Item<F>>): (n: nat)
    ensures n <= |items|
  {
    if items == [] then 0 else (if items[0].reply then 0 else 1) + Work(items[1..])
  }

  function Replies<F>(items: seq<Item<F>>): nat {
    |items| - Work(items)
  }

  lemma WorkAppend<F>(a: seq<Item<F>>, b: seq<Item<F>>)
    ensures Work(a + b) == Work(a) + Work(b)
  {
    if a == [] {
      assert a + b == b;
    } else {
      assert (a + b)[1..] == a[1..] + b;
      WorkAppend(a[1..], b);
    }
  }

  function Count<F>(items: seq<Item<F>>, key: string): nat {
    if items == [] then 0 else (if items[0].key == key then 1 else 0) + Count(items[1..], key)
  }

  lemma CountAppend<F>(a: seq<Item<F>>, b: seq<Item<F>>, key: string)
    ensures Count(a + b, key) == Count(a, key) + Count(b, key)
  {
    if a == [] {
      assert a + b == b;
    } else {
      assert (a + b)[1..] == a[1..] + b;
      CountAppend(a[1..], b, key);
    }
  }

  lemma InsertKeeps<F>(items: seq<Item<F>>, item: Item<F>, key: string)
    ensures Work(Insert(items, item)) == Work(items) + if item.reply then 0 else 1
    ensures Count(Insert(items, item), key) == Count(items, key) + if item.key == key then 1 else 0
    ensures multiset(Insert(items, item)) == multiset(items) + multiset{item}
    ensures |Insert(items, item)| == |items| + 1
  {
    var k := InsertAt(items, item);
    assert items == items[..k] + items[k..];
    assert Insert(items, item) == items[..k] + ([item] + items[k..]);
    assert [item][1..] == [];
    WorkAppend(items[..k], items[k..]);
    WorkAppend(items[..k], [item] + items[k..]);
    WorkAppend([item], items[k..]);
    CountAppend(items[..k], items[k..], key);
    CountAppend(items[..k], [item] + items[k..], key);
    CountAppend([item], items[k..], key);
  }

  ghost predicate Sorted<F>(items: seq<Item<F>>) {
    forall i, j :: 0 <= i < j < |items| ==> Before(items[i], items[j])
  }

  lemma InsertSorted<F>(items: seq<Item<F>>, item: Item<F>)
    requires Sorted(items)
    requires forall i :: 0 <= i < |items| ==> items[i].sequence < item.sequence
    ensures Sorted(Insert(items, item))
  {
    var k := InsertAt(items, item);
    forall i | k <= i < |items| ensures Before(item, items[i]) {
      if i > k {
        assert Before(items[k], items[i]);
      }
    }
  }

  /** Queued items are sorted by urgency and arrival. */
  ghost predicate Fair<F>(w: World<F>) {
    && Sorted(w.buffer.items)
    && (forall i :: 0 <= i < |w.buffer.items| ==> w.buffer.items[i].sequence <= w.buffer.sequence)
  }

  /** Nothing accepted is lost or invented. */
  ghost predicate Conserved<F>(w: World<F>) {
    multiset(w.put) == multiset(w.taken) + multiset(w.buffer.items)
  }

  /** The work count is exact and work never enters the reserve. */
  ghost predicate Reserved<F>(w: World<F>) {
    && w.buffer.work == Work(w.buffer.items)
    && w.buffer.work <= Max(0, w.buffer.capacity - w.buffer.reserve)
    && |w.buffer.items| <= Max(0, w.buffer.capacity)
  }

  function Max(a: int, b: int): int {
    if a < b then b else a
  }

  /** The key set is exactly the keys queued or unsent, each held by one item. */
  ghost predicate KeysExact<F>(w: World<F>) {
    forall key :: key != "" ==> KeyExact(w, key)
  }

  ghost predicate KeyExact<F>(w: World<F>, key: string) {
    Count(w.buffer.items, key) + Count(w.unsent, key) == if key in w.buffer.keys then 1 else 0
  }

  lemma FairStep<F>(w: World<F>, m: Move<F>)
    requires Fair(w) && Enabled(w, m)
    ensures Fair(Next(w, m))
  {
    if m.Offer? && !Duplicate(w.buffer, m.key) {
      InsertSorted(w.buffer.items, NewItem(w.buffer, m.frame, m.priority, m.reply, m.key));
    }
  }

  lemma ConservedStep<F>(w: World<F>, m: Move<F>)
    requires Conserved(w) && Enabled(w, m)
    ensures Conserved(Next(w, m))
  {
    var next := Next(w, m);
    match m
    case Offer(frame, priority, reply, key) =>
      if !Duplicate(w.buffer, key) {
        var item := NewItem(w.buffer, frame, priority, reply, key);
        InsertKeeps(w.buffer.items, item, "");
        assert multiset(next.put) == multiset(w.put) + multiset{item};
      }
    case Take =>
      var item := w.buffer.items[0];
      assert w.buffer.items == [item] + w.buffer.items[1..];
      assert multiset(w.buffer.items) == multiset{item} + multiset(w.buffer.items[1..]);
      assert multiset(next.taken) == multiset(w.taken) + multiset{item};
    case Finish(index) =>
  }

  lemma ReservedStep<F>(w: World<F>, m: Move<F>)
    requires Reserved(w) && Enabled(w, m)
    ensures Reserved(Next(w, m))
  {
    if m.Offer? && !Duplicate(w.buffer, m.key) {
      InsertKeeps(w.buffer.items, NewItem(w.buffer, m.frame, m.priority, m.reply, m.key), "");
    }
  }

  lemma KeysExactStep<F>(w: World<F>, m: Move<F>)
    requires KeysExact(w) && Enabled(w, m)
    ensures KeysExact(Next(w, m))
  {
    forall key | key != "" ensures KeyExact(Next(w, m), key) {
      match m
      case Offer(frame, priority, reply, k) => KeyAfterOffer(w, frame, priority, reply, k, key);
      case Take => CountAfterTake(w, key);
      case Finish(index) => KeyAfterFinish(w, index, key);
    }
  }

  lemma KeyAfterOffer<F>(w: World<F>, frame: F, priority: int, reply: bool, k: string, key: string)
    requires KeyExact(w, key) && key != "" && Admissible(w.buffer, reply)
    ensures KeyExact(Next(w, Offer(frame, priority, reply, k)), key)
  {
    InsertKeeps(w.buffer.items, NewItem(w.buffer, frame, priority, reply, k), key);
  }

  lemma KeyAfterFinish<F>(w: World<F>, index: nat, key: string)
    requires KeyExact(w, key) && key != "" && index < |w.unsent|
    ensures KeyExact(Next(w, Finish(index)), key)
  {
    CountAfterFinish(w, index, key);
  }

  lemma CountAfterTake<F>(w: World<F>, key: string)
    requires w.buffer.items != []
    ensures var next := Next(w, Take);
            Count(next.buffer.items, key) + Count(next.unsent, key) == Count(w.buffer.items, key) + Count(w.unsent, key)
  {
    CountAppend(w.unsent, [w.buffer.items[0]], key);
    assert [w.buffer.items[0]][1..] == [];
  }

  lemma CountAfterFinish<F>(w: World<F>, index: nat, key: string)
    requires index < |w.unsent|
    ensures Count(w.unsent, key) == Count(w.unsent[..index] + w.unsent[index + 1..], key) + if w.unsent[index].key == key then 1 else 0
  {
    var item := w.unsent[index];
    assert w.unsent == w.unsent[..index] + ([item] + w.unsent[index + 1..]);
    CountAppend(w.unsent[..index], [item] + w.unsent[index + 1..], key);
    CountAppend([item], w.unsent[index + 1..], key);
    CountAppend(w.unsent[..index], w.unsent[index + 1..], key);
    assert [item][1..] == [];
  }

  ghost predicate IsRun<F(!new)>(worlds: seq<World<F>>, moves: seq<Move<F>>) {
    && |worlds| == |moves| + 1
    && forall i :: 0 <= i < |moves| ==> Enabled(worlds[i], moves[i]) && worlds[i + 1] == Next(worlds[i], moves[i])
  }

  /** Over every interleaving, at every moment. */
  lemma {:induction false} OutboundAlways<F(!new)>(
    worlds: seq<World<F>>, moves: seq<Move<F>>, capacity: int, reserve: int, n: nat)
    requires IsRun(worlds, moves) && n < |worlds|
    requires worlds[0] == Initial(capacity, reserve)
    ensures Fair(worlds[n]) && Conserved(worlds[n]) && Reserved(worlds[n]) && KeysExact(worlds[n])
  {
    if n > 0 {
      OutboundAlways(worlds, moves, capacity, reserve, n - 1);
      FairStep(worlds[n - 1], moves[n - 1]);
      ConservedStep(worlds[n - 1], moves[n - 1]);
      ReservedStep(worlds[n - 1], moves[n - 1]);
      KeysExactStep(worlds[n - 1], moves[n - 1]);
    }
  }

  /** What the sender takes is the least item by urgency and arrival of all that were put and not yet taken. */
  lemma TakesTheLeast<F>(w: World<F>, other: Item<F>)
    requires Fair(w) && Conserved(w) && w.buffer.items != []
    requires other in multiset(w.put) - multiset(w.taken)
    ensures other == w.buffer.items[0] || Before(w.buffer.items[0], other)
  {
    assert multiset(w.put) - multiset(w.taken) == multiset(w.buffer.items);
    assert other in w.buffer.items;
  }

  /** A reply is admissible whenever fewer replies than the reserve are queued, given the reserve fits the capacity. */
  lemma ReplyAdmissible<F>(w: World<F>)
    requires Reserved(w) && w.buffer.reserve <= w.buffer.capacity
    requires Replies(w.buffer.items) < w.buffer.reserve
    ensures Admissible(w.buffer, true)
  {
    WorkAppend(w.buffer.items, []);
  }

  ghost predicate Reached<F(!new)>(worlds: seq<World<F>>, moves: seq<Move<F>>, capacity: int, reserve: int, n: nat) {
    IsRun(worlds, moves) && n < |worlds| && worlds[0] == Initial(capacity, reserve)
  }

  /** A run in which only replies are offered, one after another. */
  lemma {:induction false} FilledWithReplies<F(!new)>(capacity: int, reserve: int, frame: F, n: nat)
    returns (worlds: seq<World<F>>, moves: seq<Move<F>>)
    requires n <= Max(0, capacity)
    ensures |moves| == n && Reached(worlds, moves, capacity, reserve, n)
    ensures |worlds[n].buffer.items| == n && Work(worlds[n].buffer.items) == 0 && worlds[n].buffer.capacity == capacity
  {
    if n == 0 {
      worlds, moves := [Initial(capacity, reserve)], [];
    } else {
      var before, earlier := FilledWithReplies(capacity, reserve, frame, n - 1);
      OneMoreReply(before[n - 1], frame);
      RunExtends(before, earlier, Offer(frame, 0, true, ""));
      worlds, moves := before + [Next(before[n - 1], Offer(frame, 0, true, ""))], earlier + [Offer(frame, 0, true, "")];
    }
  }

  lemma OneMoreReply<F>(w: World<F>, frame: F)
    requires Admissible(w.buffer, true)
    ensures var next := Next(w, Offer(frame, 0, true, "")).buffer;
            && |next.items| == |w.buffer.items| + 1 && Work(next.items) == Work(w.buffer.items)
            && next.capacity == w.buffer.capacity
  {
    InsertKeeps(w.buffer.items, NewItem(w.buffer, frame, 0, true, ""), "");
  }

  lemma RunExtends<F(!new)>(worlds: seq<World<F>>, moves: seq<Move<F>>, m: Move<F>)
    requires IsRun(worlds, moves) && Enabled(worlds[|moves|], m)
    ensures IsRun(worlds + [Next(worlds[|moves|], m)], moves + [m])
  {
    var after := worlds + [Next(worlds[|moves|], m)];
    forall i | 0 <= i < |moves + [m]|
      ensures Enabled(after[i], (moves + [m])[i]) && after[i + 1] == Next(after[i], (moves + [m])[i])
    {
      if i < |moves| {
        assert after[i] == worlds[i] && after[i + 1] == worlds[i + 1];
      }
    }
  }

  /** In every run a reply is admissible below the reserve, if and only if the reserve fits the capacity. */
  lemma ReplyPromiseExact<F(!new)>(capacity: int, reserve: int, frame: F)
    ensures reserve <= Max(0, capacity) <==>
            forall worlds: seq<World<F>>, moves: seq<Move<F>>, n: nat ::
              Reached(worlds, moves, capacity, reserve, n) && Replies(worlds[n].buffer.items) < reserve ==>
                Admissible(worlds[n].buffer, true)
  {
    if reserve <= Max(0, capacity) {
      forall worlds: seq<World<F>>, moves: seq<Move<F>>, n: nat |
        Reached(worlds, moves, capacity, reserve, n) && Replies(worlds[n].buffer.items) < reserve
        ensures Admissible(worlds[n].buffer, true)
      {
        OutboundAlways(worlds, moves, capacity, reserve, n);
        LimitsKept(worlds, moves, capacity, reserve, n);
        ReplyAdmissible(worlds[n]);
      }
    } else {
      var worlds, moves := FilledWithReplies(capacity, reserve, frame, Max(0, capacity));
      assert Reached(worlds, moves, capacity, reserve, Max(0, capacity));
      assert !Admissible(worlds[Max(0, capacity)].buffer, true);
    }
  }

  lemma {:induction false} LimitsKept<F(!new)>(worlds: seq<World<F>>, moves: seq<Move<F>>, capacity: int, reserve: int, n: nat)
    requires Reached(worlds, moves, capacity, reserve, n)
    ensures worlds[n].buffer.capacity == capacity && worlds[n].buffer.reserve == reserve
  {
    if n > 0 {
      LimitsKept(worlds, moves, capacity, reserve, n - 1);
    }
  }
}
