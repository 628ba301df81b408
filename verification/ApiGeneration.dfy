/**
  The API generation row and the retirement of the Agent sessions of an older generation.
 */
module ApiGeneration {
  import opened Prelude

  /** The heartbeat row of the API; `startedAt` is absent when the stored stamp cannot be read. */
  datatype Generation = Generation(owner: string, startedAt: Option<int>, ready: bool, updatedAt: int)

  /** The heartbeat row of one Agent. */
  datatype AgentRow = AgentRow(active: bool, instance: string, offline: bool, restarted: bool, updatedAt: int)

  datatype Rows = Rows(generation: Option<Generation>, agents: seq<AgentRow>)

  predicate Fenced(g: Option<Generation>, owner: string, startedAt: int, ready: bool) {
    && g.Some? && g.value.owner != owner
    && (!ready || (g.value.startedAt.Some? && g.value.startedAt.value >= startedAt))
  }

  predicate Foreign(a: AgentRow, owner: string) {
    a.active && a.instance != owner
  }

  function Retire(a: AgentRow, owner: string, now: int): AgentRow {
    if Foreign(a, owner) then a.(active := false, offline := true, restarted := true, updatedAt := now) else a
  }

  function RetireAll(agents: seq<AgentRow>, owner: string, now: int): (r: seq<AgentRow>)
    ensures |r| == |agents| && forall i :: 0 <= i < |agents| ==> r[i] == Retire(agents[i], owner, now)
  {
    seq(|agents|, i requires 0 <= i < |agents| => Retire(agents[i], owner, now))
  }

  /** One heartbeat write. */
  function Write(s: Rows, owner: string, startedAt: int, ready: bool, retire: bool, now: int): Rows {
    if Fenced(s.generation, owner, startedAt, ready) then s
    else
      var replacing := ready && (s.generation.None? || s.generation.value.owner != owner);
      Rows(Some(Generation(owner, Some(startedAt), ready, now)),
           if replacing && retire then RetireAll(s.agents, owner, now) else s.agents)
  }

  class HeartbeatTable {
    var generation: Option<Generation>
    var agents: seq<AgentRow>

    function State(): Rows
      reads this
    {
      Rows(generation, agents)
    }

    constructor (agents: seq<AgentRow>)
      ensures State() == Rows(None, agents)
    {
      generation, this.agents := None, agents;
    }

    method WriteHeartbeat(owner: string, startedAt: int, ready: bool, retire: bool, now: int)
      modifies this
      ensures State() == Write(old(State()), owner, startedAt, ready, retire, now)
    {
      var replacing := ready && (generation.None? || generation.value.owner != owner);
      if generation.None? {
        generation := Some(Generation(owner, Some(startedAt), ready, now));
      } else {
        var row := generation.value;
        if row.owner != owner {
          if !ready {
            return;
          }
          if row.startedAt.Some? && row.startedAt.value >= startedAt {
            return;
          }
        }
        generation := Some(Generation(owner, Some(startedAt), ready, now));
      }
      if replacing && retire {
        RetireOthers(owner, now);
      }
    }

    method RetireOthers(owner: string, now: int)
      modifies this`agents
      ensures agents == RetireAll(old(agents), owner, now)
    {
      ghost var before := agents;
      var i := 0;
      while i < |agents|
        invariant 0 <= i <= |agents| && |agents| == |before|
        invariant forall m :: 0 <= m < i ==> agents[m] == Retire(before[m], owner, now)
        invariant forall m :: i <= m < |agents| ==> agents[m] == before[m]
      {
        var a := agents[i];
        if a.active && a.instance != owner {
          agents := agents[i := a.(active := false, offline := true, restarted := true, updatedAt := now)];
        }
        i := i + 1;
      }
    }
  }

  // ---------------------------------------------------------------------------------------
  // Any interleaving of processes

  datatype Event =
    | Heartbeat(owner: string, ready: bool, retire: bool, now: int)
    | Connect(row: nat, owner: string, now: int)          // a session of that process becomes active

  function Step(start: string -> int, s: Rows, e: Event): Rows {
    match e
    case Heartbeat(owner, ready, retire, now) => Write(s, owner, start(owner), ready, retire, now)
    case Connect(row, owner, now) =>
      if row < |s.agents| then s.(agents := s.agents[row := AgentRow(true, owner, false, false, now)]) else s
  }

  function Run(start: string -> int, s: Rows, events: seq<Event>): Rows
    decreases |events|
  {
    if events == [] then s else Step(start, Run(start, s, events[..|events| - 1]), events[|events| - 1])
  }

  /** The stored stamp is the start of the process the row names. */
  predicate Readable(start: string -> int, s: Rows) {
    s.generation.Some? ==> s.generation.value.startedAt == Some(start(s.generation.value.owner))
  }

  lemma {:induction false} ReadableAlways(start: string -> int, s: Rows, events: seq<Event>)
    requires Readable(start, s)
    ensures Readable(start, Run(start, s, events))
    decreases |events|
  {
    if events != [] {
      ReadableAlways(start, s, events[..|events| - 1]);
    }
  }

  /** The row changes owner exactly on a ready heartbeat of a process that started strictly later. */
  lemma OwnerChanges(start: string -> int, s: Rows, e: Event)
    requires Readable(start, s) && s.generation.Some?
    ensures Step(start, s, e).generation.Some?
    ensures Step(start, s, e).generation.value.owner != s.generation.value.owner
            <==> && e.Heartbeat? && e.ready && e.owner != s.generation.value.owner
                 && start(e.owner) > start(s.generation.value.owner)
  {
  }

  /** Once there is a row, its start never goes back; a new owner started strictly later. */
  lemma {:induction false} GenerationOnlyAdvances(start: string -> int, s: Rows, events: seq<Event>)
    requires Readable(start, s) && s.generation.Some?
    ensures var g := Run(start, s, events).generation;
            && g.Some? && start(g.value.owner) >= start(s.generation.value.owner)
            && (g.value.owner == s.generation.value.owner || start(g.value.owner) > start(s.generation.value.owner))
    decreases |events|
  {
    if events != [] {
      GenerationOnlyAdvances(start, s, events[..|events| - 1]);
      ReadableAlways(start, s, events[..|events| - 1]);
    }
  }

  /** A process that another one has outlived never changes a row again, however late it writes. */
  lemma SupersededForever(start: string -> int, s: Rows, events: seq<Event>, e: Event)
    requires Readable(start, s) && s.generation.Some? && e.Heartbeat?
    requires e.owner != s.generation.value.owner && start(e.owner) <= start(s.generation.value.owner)
    ensures Step(start, Run(start, s, events), e) == Run(start, s, events)
  {
    GenerationOnlyAdvances(start, s, events);
    ReadableAlways(start, s, events);
  }

  ghost predicate NoForeign(agents: seq<AgentRow>, owner: string) {
    forall i :: 0 <= i < |agents| ==> !Foreign(agents[i], owner)
  }

  /** After a process took the generation with retirement, no other process has an active session,
      unless the row was its own already: then the sessions stay as they were. */
  lemma TakeoverRetires(s: Rows, owner: string, startedAt: int, now: int)
    requires !Fenced(s.generation, owner, startedAt, true)
    ensures var t := Write(s, owner, startedAt, true, true, now);
            && t.generation.Some? && t.generation.value.owner == owner
            && (NoForeign(t.agents, owner)
                <==> (s.generation.Some? && s.generation.value.owner == owner ==> NoForeign(s.agents, owner)))
            && |t.agents| == |s.agents|
            && forall i :: 0 <= i < |s.agents| && !Foreign(s.agents[i], owner) ==> t.agents[i] == s.agents[i]
  {
    var t := Write(s, owner, startedAt, true, true, now);
    if s.generation.None? || s.generation.value.owner != owner {
      forall i | 0 <= i < |t.agents| ensures !Foreign(t.agents[i], owner) {
        assert t.agents[i] == Retire(s.agents[i], owner, now);
      }
    }
  }

  /** A first write that is not ready claims the row, and the ready write after it retires nobody. */
  lemma EarlyClaimSkipsRetirement(start: string -> int, owner: string, other: string, now: int)
    requires owner != other
    ensures var s := Rows(None, [AgentRow(true, other, false, false, now)]);
            var t := Run(start, s, [Heartbeat(owner, false, false, now), Heartbeat(owner, true, true, now)]);
            t.generation.Some? && t.generation.value.owner == owner && t.agents == s.agents && !NoForeign(t.agents, owner)
  {
    var s := Rows(None, [AgentRow(true, other, false, false, now)]);
    var first, second := Heartbeat(owner, false, false, now), Heartbeat(owner, true, true, now);
    assert [first, second][..1] == [first] && [first][..0] == [];
    assert Run(start, s, [first]) == Step(start, s, first);
    assert Foreign(s.agents[0], owner);
  }
}
