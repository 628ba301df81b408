/**
  The two-semaphore admission gate in front of the AI database pool.
 */
module Admission {
  /** Where a task stands: waiting for a work slot, holding one, or inside with a pool slot. */
  datatype Phase = WantsWork | WantsPool | Inside

  datatype Task = Task(heartbeat: bool, phase: Phase)

  datatype Gate = Gate(pool: nat, work: nat, tasks: map<nat, Task>)

  function Max(a: int, b: int): int {
    if a >= b then a else b
  }

  function WorkSlots(maximum: nat): nat {
    Max(1, maximum - 1)
  }

  /** A task holds a work slot from its first acquisition until it leaves; heartbeats never do. */
  predicate HoldsWork(t: Task) {
    !t.heartbeat && !t.phase.WantsWork?
  }

  function Insiders(g: Gate): set<nat> {
    set t | t in g.tasks && g.tasks[t].phase.Inside?
  }

  function Workers(g: Gate): set<nat> {
    set t | t in g.tasks && HoldsWork(g.tasks[t])
  }

  /** Permits are conserved: free ones and held ones add up to what each semaphore started with. */
  ghost predicate Conserved(g: Gate, maximum: nat) {
    && g.pool + |Insiders(g)| == maximum
    && g.work + |Workers(g)| == WorkSlots(maximum)
    && forall t :: t in g.tasks && g.tasks[t].heartbeat ==> !g.tasks[t].phase.WantsWork?
  }

  // ---------------------------------------------------------------------------------------
  // Steps

  datatype Event =
    | Arrive(task: nat, heartbeat: bool)
    | TakeWork(task: nat)
    | TakePool(task: nat)
    | Depart(task: nat)                    // leaves, times out or is cancelled, in any phase

  function Step(g: Gate, e: Event): Gate {
    match e
    case Arrive(t, heartbeat) =>
      if t in g.tasks then g else g.(tasks := g.tasks[t := Task(heartbeat, if heartbeat then WantsPool else WantsWork)])
    case TakeWork(t) =>
      if t in g.tasks && g.tasks[t].phase.WantsWork? && g.work > 0
      then g.(work := g.work - 1, tasks := g.tasks[t := g.tasks[t].(phase := WantsPool)]) else g
    case TakePool(t) =>
      if t in g.tasks && g.tasks[t].phase.WantsPool? && g.pool > 0
      then g.(pool := g.pool - 1, tasks := g.tasks[t := g.tasks[t].(phase := Inside)]) else g
    case Depart(t) =>
      if t !in g.tasks then g
      else
        Gate(g.pool + if g.tasks[t].phase.Inside? then 1 else 0,
             g.work + if HoldsWork(g.tasks[t]) then 1 else 0,
             g.tasks - {t})
  }

  function Open(maximum: nat): Gate {
    Gate(maximum, WorkSlots(maximum), map[])
  }

  function Run(maximum: nat, events: seq<Event>): Gate
    decreases |events|
  {
    if events == [] then Open(maximum) else Step(Run(maximum, events[..|events| - 1]), events[|events| - 1])
  }

  class DatabaseAdmission {
    ghost const maximum: nat
    var pool: nat
    var work: nat
    var tasks: map<nat, Task>

    function State(): Gate
      reads this
    {
      Gate(pool, work, tasks)
    }

    constructor (maximum: nat)
      ensures this.maximum == maximum && State() == Open(maximum)
    {
      this.maximum := maximum;
      pool := maximum;
      work := Max(1, maximum - 1);
      tasks := map[];
    }

    method Arrive(t: nat, heartbeat: bool)
      requires t !in tasks
      modifies this`tasks
      ensures State() == Step(old(State()), Event.Arrive(t, heartbeat))
    {
      tasks := tasks[t := Task(heartbeat, if heartbeat then WantsPool else WantsWork)];
    }

    method TryTakeWork(t: nat) returns (taken: bool)
      requires t in tasks && tasks[t].phase.WantsWork?
      modifies this`tasks, this`work
      ensures taken <==> old(work) > 0
      ensures State() == Step(old(State()), TakeWork(t))
    {
      if work == 0 {
        return false;
      }
      work := work - 1;
      tasks := tasks[t := tasks[t].(phase := WantsPool)];
      taken := true;
    }

    method TryTakePool(t: nat) returns (taken: bool)
      requires t in tasks && tasks[t].phase.WantsPool?
      modifies this`tasks, this`pool
      ensures taken <==> old(pool) > 0
      ensures State() == Step(old(State()), TakePool(t))
    {
      if pool == 0 {
        return false;
      }
      pool := pool - 1;
      tasks := tasks[t := tasks[t].(phase := Inside)];
      taken := true;
    }

    /** The cleanup of a slot; neither semaphore is released beyond its bound. */
    method Depart(t: nat)
      requires t in tasks && Conserved(State(), maximum)
      modifies this`tasks, this`pool, this`work
      ensures State() == Step(old(State()), Event.Depart(t))
      ensures pool <= maximum && work <= WorkSlots(maximum)
    {
      DepartConserves(State(), maximum, t);
      var task := tasks[t];
      if task.phase.Inside? {
        pool := pool + 1;
      }
      if !task.heartbeat && !task.phase.WantsWork? {
        work := work + 1;
      }
      tasks := tasks - {t};
    }
  }

  // ---------------------------------------------------------------------------------------
  // Every interleaving

  lemma SetPlus(small: set<nat>, big: set<nat>, t: nat)
    requires t !in small && big == small + {t}
    ensures |big| == |small| + 1
  {
  }

  lemma DepartConserves(g: Gate, maximum: nat, t: nat)
    requires Conserved(g, maximum) && t in g.tasks
    ensures Conserved(Step(g, Depart(t)), maximum)
  {
    DepartLeavesInside(g, t);
    DepartLeavesWork(g, t);
  }

  lemma DepartLeavesInside(g: Gate, t: nat)
    requires t in g.tasks
    ensures |Insiders(g)| == |Insiders(Step(g, Depart(t)))| + if g.tasks[t].phase.Inside? then 1 else 0
  {
    var h := Step(g, Depart(t));
    if g.tasks[t].phase.Inside? {
      SetPlus(Insiders(h), Insiders(g), t);
    } else {
      assert Insiders(h) == Insiders(g);
    }
  }

  lemma DepartLeavesWork(g: Gate, t: nat)
    requires t in g.tasks
    ensures |Workers(g)| == |Workers(Step(g, Depart(t)))| + if HoldsWork(g.tasks[t]) then 1 else 0
  {
    var h := Step(g, Depart(t));
    if HoldsWork(g.tasks[t]) {
      SetPlus(Workers(h), Workers(g), t);
    } else {
      assert Workers(h) == Workers(g);
    }
  }

  lemma ArriveConserves(g: Gate, maximum: nat, t: nat, heartbeat: bool)
    requires Conserved(g, maximum) && t !in g.tasks
    ensures Conserved(Step(g, Arrive(t, heartbeat)), maximum)
  {
    var h := Step(g, Arrive(t, heartbeat));
    assert !HoldsWork(h.tasks[t]);
    assert Insiders(h) == Insiders(g);
    assert Workers(h) == Workers(g);
  }

  lemma TakeWorkConserves(g: Gate, maximum: nat, t: nat)
    requires Conserved(g, maximum) && t in g.tasks && g.tasks[t].phase.WantsWork? && g.work > 0
    ensures Conserved(Step(g, TakeWork(t)), maximum)
  {
    var h := Step(g, TakeWork(t));
    assert Insiders(h) == Insiders(g);
    SetPlus(Workers(g), Workers(h), t);
  }

  lemma TakePoolConserves(g: Gate, maximum: nat, t: nat)
    requires Conserved(g, maximum) && t in g.tasks && g.tasks[t].phase.WantsPool? && g.pool > 0
    ensures Conserved(Step(g, TakePool(t)), maximum)
  {
    var h := Step(g, TakePool(t));
    SetPlus(Insiders(g), Insiders(h), t);
    assert Workers(h) == Workers(g);
  }

  lemma StepConserves(g: Gate, maximum: nat, e: Event)
    requires Conserved(g, maximum)
    ensures Conserved(Step(g, e), maximum)
  {
    match e
    case Arrive(t, heartbeat) =>
      if t !in g.tasks {
        ArriveConserves(g, maximum, t, heartbeat);
      }
    case TakeWork(t) =>
      if t in g.tasks && g.tasks[t].phase.WantsWork? && g.work > 0 {
        TakeWorkConserves(g, maximum, t);
      }
    case TakePool(t) =>
      if t in g.tasks && g.tasks[t].phase.WantsPool? && g.pool > 0 {
        TakePoolConserves(g, maximum, t);
      }
    case Depart(t) =>
      if t in g.tasks {
        DepartConserves(g, maximum, t);
      }
  }

  lemma {:induction false} ConservedAlways(maximum: nat, events: seq<Event>)
    ensures Conserved(Run(maximum, events), maximum)
    decreases |events|
  {
    if events == [] {
      assert Insiders(Open(maximum)) == {} && Workers(Open(maximum)) == {};
    } else {
      ConservedAlways(maximum, events[..|events| - 1]);
      StepConserves(Run(maximum, events[..|events| - 1]), maximum, events[|events| - 1]);
    }
  }

  function WorkersInside(g: Gate): set<nat> {
    set t | t in g.tasks && !g.tasks[t].heartbeat && g.tasks[t].phase.Inside?
  }

  lemma SubsetSize(small: set<nat>, big: set<nat>)
    requires small <= big
    ensures |small| <= |big|
  {
    if small != {} {
      var t :| t in small;
      SubsetSize(small - {t}, big - {t});
    }
  }

  /** Never more than the maximum inside, never more workers inside than there are work slots. */
  lemma AdmissionBounds(maximum: nat, events: seq<Event>)
    ensures |Insiders(Run(maximum, events))| <= maximum
    ensures |WorkersInside(Run(maximum, events))| <= WorkSlots(maximum)
  {
    ConservedAlways(maximum, events);
    SubsetSize(WorkersInside(Run(maximum, events)), Workers(Run(maximum, events)));
  }

  ghost predicate HeartbeatInside(g: Gate) {
    exists t :: t in g.tasks && g.tasks[t].heartbeat && g.tasks[t].phase.Inside?
  }

  /** Workers that hold a work slot and still want a pool slot. */
  function Queueing(g: Gate): set<nat> {
    set t | t in g.tasks && !g.tasks[t].heartbeat && g.tasks[t].phase.WantsPool?
  }

  /** With two connections or more, while no heartbeat is inside there is a pool slot for one even
      after every worker queued before it has been served. */
  lemma HeartbeatFindsSlot(maximum: nat, events: seq<Event>)
    requires maximum >= 2 && !HeartbeatInside(Run(maximum, events))
    ensures Run(maximum, events).pool >= 1 + |Queueing(Run(maximum, events))|
  {
    ConservedAlways(maximum, events);
    var g := Run(maximum, events);
    assert Workers(g) == Insiders(g) + Queueing(g);
    assert Insiders(g) !! Queueing(g);
    assert |Workers(g)| == |Insiders(g)| + |Queueing(g)|;
  }

  /** The reserve exists exactly when there are at least two connections. */
  lemma ReserveExact(maximum: nat)
    ensures maximum >= 2 <==> forall events :: !HeartbeatInside(Run(maximum, events)) ==> Run(maximum, events).pool > 0
  {
    if maximum >= 2 {
      forall events | !HeartbeatInside(Run(maximum, events)) ensures Run(maximum, events).pool > 0 {
        HeartbeatFindsSlot(maximum, events);
      }
    } else if maximum == 0 {
      assert !HeartbeatInside(Run(maximum, [])) && Run(maximum, []).pool == 0;
    } else {
      SingleSlotBlocks();
    }
  }

  lemma SingleSlotBlocks()
    ensures exists events :: !HeartbeatInside(Run(1, events)) && Run(1, events).pool == 0
  {
    var a, b, c := Arrive(0, false), TakeWork(0), TakePool(0);
    assert [a, b, c][..2] == [a, b] && [a, b][..1] == [a] && [a][..0] == [];
    assert Run(1, []) == Open(1);
    assert Run(1, [a]) == Step(Open(1), a);
    assert Run(1, [a, b]) == Step(Run(1, [a]), b);
    var g := Run(1, [a, b, c]);
    assert g == Step(Run(1, [a, b]), c);
    assert g.pool == 0 && g.tasks == map[0 := Task(false, Inside)];
    assert !HeartbeatInside(g);
  }
}
