/**
  The active market controls of the connection hub, and what replaying a session's queue gives.
 */
module HubControls {
  import opened Prelude

  /** A quote control: subscribe or unsubscribe one subscription id. */
  datatype Control = Control(subscribe: bool, id: string, body: int)

  /** What is queued to an Agent: forget everything, or obey one control. */
  datatype Message = Reset | Command(control: Control)

  /** The active controls in insertion order. */
  datatype Controls = Controls(order: seq<string>, at: map<string, Control>)

  ghost predicate Distinct(order: seq<string>) {
    forall i, j :: 0 <= i < j < |order| ==> order[i] != order[j]
  }

  ghost predicate Ordered(c: Controls) {
    Distinct(c.order) && forall id :: id in c.order <==> id in c.at
  }

  /** Every control subscribes, under its own subscription id. */
  ghost predicate WellFormed(c: Controls) {
    forall id :: id in c.at ==> c.at[id].subscribe && c.at[id].id == id
  }

  // ---------------------------------------------------------------------------------------
  // Replaying a queue

  function Obey(held: map<string, Control>, m: Message): map<string, Control> {
    match m
    case Reset => map[]
    case Command(c) => if c.subscribe then held[c.id := c] else held - {c.id}
  }

  /** The subscriptions an Agent holds after obeying a queue from its start. */
  function Replay(queue: seq<Message>): map<string, Control> {
    if queue == [] then map[] else Obey(Replay(queue[..|queue| - 1]), queue[|queue| - 1])
  }

  lemma ReplayOne(queue: seq<Message>, m: Message)
    ensures Replay(queue + [m]) == Obey(Replay(queue), m)
  {
    assert (queue + [m])[..|queue|] == queue;
  }

  /** Whatever was queued, an Agent holds only subscribing controls under their own ids. */
  lemma {:induction false} ReplayIsWellFormed(queue: seq<Message>, id: string)
    requires id in Replay(queue)
    ensures Replay(queue)[id].subscribe && Replay(queue)[id].id == id
    decreases |queue|
  {
    var front, m := queue[..|queue| - 1], queue[|queue| - 1];
    if !(m.Command? && m.control.subscribe && m.control.id == id) {
      ReplayIsWellFormed(front, id);
    }
  }

  function Commands(order: seq<string>, at: map<string, Control>): seq<Message>
    requires forall i :: 0 <= i < |order| ==> order[i] in at
  {
    if order == [] then [] else Commands(order[..|order| - 1], at) + [Command(at[order[|order| - 1]])]
  }

  /** Reset, then every active control. */
  function Snapshot(c: Controls): seq<Message>
    requires forall i :: 0 <= i < |c.order| ==> c.order[i] in c.at
  {
    [Reset] + Commands(c.order, c.at)
  }

  lemma {:induction false} ReplayCommands(queue: seq<Message>, order: seq<string>, at: map<string, Control>)
    requires forall i :: 0 <= i < |order| ==> order[i] in at
    requires forall id :: id in at ==> at[id].subscribe && at[id].id == id
    requires Replay(queue) == map[]
    ensures Replay(queue + Commands(order, at)) == Chosen(order, at)
    decreases |order|
  {
    if order == [] {
      assert queue + Commands(order, at) == queue;
    } else {
      var front, id := order[..|order| - 1], order[|order| - 1];
      ReplayCommands(queue, front, at);
      assert queue + Commands(order, at) == queue + Commands(front, at) + [Command(at[id])];
      ReplayOne(queue + Commands(front, at), Command(at[id]));
      ChosenOneMore(front, id, at);
      assert order == front + [id];
    }
  }

  /** The controls of the listed ids. */
  function Chosen(order: seq<string>, at: map<string, Control>): map<string, Control>
    requires forall i :: 0 <= i < |order| ==> order[i] in at
  {
    map id | id in order :: at[id]
  }

  lemma ChosenOneMore(order: seq<string>, id: string, at: map<string, Control>)
    requires (forall i :: 0 <= i < |order| ==> order[i] in at) && id in at
    ensures Chosen(order + [id], at) == Chosen(order, at)[id := at[id]]
  {
  }

  /** After a snapshot the Agent holds exactly the active controls, precisely when those are well formed. */
  lemma ReplaySnapshot(queue: seq<Message>, c: Controls)
    requires Ordered(c)
    ensures Replay(queue + Snapshot(c)) == c.at <==> WellFormed(c)
  {
    var all := queue + Snapshot(c);
    if WellFormed(c) {
      ReplayOne(queue, Reset);
      ReplayCommands(queue + [Reset], c.order, c.at);
      assert all == queue + [Reset] + Commands(c.order, c.at);
      assert c.at == Chosen(c.order, c.at);
    } else {
      var id :| id in c.at && !(c.at[id].subscribe && c.at[id].id == id);
      if id in Replay(all) {
        ReplayIsWellFormed(all, id);
        assert Replay(all)[id] != c.at[id];
      }
      assert Replay(all) != c.at;
    }
  }

  // ---------------------------------------------------------------------------------------
  // Changing the active controls

  function Without(order: seq<string>, id: string): seq<string> {
    if order == [] then []
    else Without(order[..|order| - 1], id) + if order[|order| - 1] == id then [] else [order[|order| - 1]]
  }

  lemma {:induction false} WithoutMeans(order: seq<string>, id: string)
    requires Distinct(order)
    ensures Distinct(Without(order, id))
    ensures forall k :: k in Without(order, id) <==> k in order && k != id
    decreases |order|
  {
    if order != [] {
      var front, last := order[..|order| - 1], order[|order| - 1];
      assert order == front + [last];
      WithoutMeans(front, id);
      assert last !in front;
    }
  }

  function Updated(c: Controls, control: Control): Controls {
    if !control.subscribe then Controls(Without(c.order, control.id), c.at - {control.id})
    else if control.id in c.at then c.(at := c.at[control.id := control])
    else Controls(c.order + [control.id], c.at[control.id := control])
  }

  lemma UpdatedOrdered(c: Controls, control: Control)
    requires Ordered(c)
    ensures Ordered(Updated(c, control))
  {
    if !control.subscribe {
      WithoutMeans(c.order, control.id);
    } else if control.id !in c.at {
      assert control.id !in c.order;
      forall id ensures id in Updated(c, control).order <==> id in Updated(c, control).at {
        assert id in c.order <==> id in c.at;
      }
    }
  }

  /** Updating the active controls and queueing the control keep the two in step. */
  lemma UpdatedReplays(c: Controls, queue: seq<Message>, control: Control)
    requires Replay(queue) == c.at
    ensures Replay(queue + [Command(control)]) == Updated(c, control).at
  {
    ReplayOne(queue, Command(control));
  }

  // ---------------------------------------------------------------------------------------
  // Loading from Redis

  /** A field of the Redis hash: its subscription id, and the decoded object if there is one. */
  datatype Field = Field(id: string, value: Option<Stored>)
  datatype Stored = Stored(quote: bool, control: Control)

  predicate Usable(f: Field) {
    f.value.Some? && f.value.value.quote
  }

  ghost predicate DistinctFields(fields: seq<Field>) {
    forall i, j :: 0 <= i < j < |fields| ==> fields[i].id != fields[j].id
  }

  function Loaded(fields: seq<Field>): Controls {
    if fields == [] then Controls([], map[])
    else
      var c, f := Loaded(fields[..|fields| - 1]), fields[|fields| - 1];
      if Usable(f) then Controls(c.order + [f.id], c.at[f.id := f.value.value.control]) else c
  }

  /** A field of this name that can be used. */
  ghost predicate Provides(fields: seq<Field>, id: string, control: Control) {
    exists i :: 0 <= i < |fields| && fields[i].id == id && Usable(fields[i]) && fields[i].value.value.control == control
  }

  lemma ProvidesOneMore(fields: seq<Field>, f: Field, id: string, control: Control)
    ensures Provides(fields + [f], id, control)
            <==> Provides(fields, id, control) || (f.id == id && Usable(f) && f.value.value.control == control)
  {
    var all := fields + [f];
    if Provides(fields, id, control) {
      var i :| 0 <= i < |fields| && fields[i].id == id && Usable(fields[i]) && fields[i].value.value.control == control;
      assert all[i] == fields[i];
    }
    assert all[|fields|] == f;
  }

  /** Exactly the readable quote fields are loaded, each under its field name. */
  lemma {:induction false} LoadedMeans(fields: seq<Field>)
    requires DistinctFields(fields)
    ensures Ordered(Loaded(fields))
    ensures forall id :: id in Loaded(fields).at ==> Provides(fields, id, Loaded(fields).at[id])
    ensures forall id, control :: Provides(fields, id, control) ==> id in Loaded(fields).at && Loaded(fields).at[id] == control
    decreases |fields|
  {
    if fields != [] {
      var front, f := fields[..|fields| - 1], fields[|fields| - 1];
      assert fields == front + [f];
      LoadedMeans(front);
      NewName(front, f);
      forall id, control ensures Provides(fields, id, control)
          <==> Provides(front, id, control) || (f.id == id && Usable(f) && f.value.value.control == control) {
        ProvidesOneMore(front, f, id, control);
      }
      if Usable(f) {
        OrderedOneMore(Loaded(front), f.id, f.value.value.control);
      }
    }
  }

  lemma NewName(fields: seq<Field>, f: Field)
    requires DistinctFields(fields + [f])
    ensures forall control :: !Provides(fields, f.id, control)
  {
    var all := fields + [f];
    forall i | 0 <= i < |fields| ensures fields[i].id != f.id {
      assert all[i] == fields[i] && all[|fields|] == f;
    }
  }

  lemma OrderedOneMore(c: Controls, id: string, control: Control)
    requires Ordered(c) && id !in c.at
    ensures Ordered(Controls(c.order + [id], c.at[id := control]))
  {
    var next := Controls(c.order + [id], c.at[id := control]);
    assert id !in c.order;
    forall k ensures k in next.order <==> k in next.at {
      assert k in c.order <==> k in c.at;
    }
  }

  method LoadActiveControls(fields: seq<Field>) returns (c: Controls)
    requires DistinctFields(fields)
    ensures c == Loaded(fields) && Ordered(c)
  {
    c := Controls([], map[]);
    var i := 0;
    while i < |fields|
      invariant 0 <= i <= |fields|
      invariant c == Loaded(fields[..i])
    {
      assert fields[..i + 1][..i] == fields[..i];
      if Usable(fields[i]) {
        c := Controls(c.order + [fields[i].id], c.at[fields[i].id := fields[i].value.value.control]);
      }
      i := i + 1;
    }
    assert fields[..|fields|] == fields;
    LoadedMeans(fields);
  }
}
