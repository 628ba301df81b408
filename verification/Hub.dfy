/**
  The connection hub: control sessions by device, the market leader among them, and the controls
  queued to it.  Sessions are named by the number the hub gave them, so that a replaced session
  and its successor stay distinct.
 */
module Hub {
  import opened Prelude
  import opened CodeOrder
  import opened HubControls

  datatype Session = Session(device: string, marketCapable: bool, revoked: bool, queue: seq<Message>)

  datatype HubState = HubState(
    sessions: map<string, nat>,           // registered session of each device
    table: map<nat, Session>,             // every session ever created
    next: nat,
    active: Controls,
    market: Option<string>,
    published: Option<Option<nat>>)       // the lease last written: absent, deleted, or a session

  // ---------------------------------------------------------------------------------------
  // Leadership

  predicate Eligible(s: HubState, d: string) {
    d in s.sessions && s.sessions[d] in s.table && s.table[s.sessions[d]].marketCapable && !s.table[s.sessions[d]].revoked
  }

  ghost predicate Best(s: HubState, d: string) {
    Eligible(s, d) && forall e :: Eligible(s, e) ==> NotAfter(d, e)
  }

  ghost function Select(s: HubState): Option<string> {
    if d: string :| Best(s, d) then Some(d) else None
  }

  lemma {:induction false} BestExists(s: HubState, among: set<string>) returns (best: string)
    requires among != {} && forall d :: d in among ==> Eligible(s, d)
    ensures best in among && forall d :: d in among ==> NotAfter(best, d)
    decreases among
  {
    var d :| d in among;
    if among == {d} {
      best := d;
      NotAfterTotal(d, d);
    } else {
      var rest := BestExists(s, among - {d});
      NotAfterTotal(d, rest);
      best := if NotAfter(d, rest) then d else rest;
      NotAfterTotal(d, d);
      forall e | e in among ensures NotAfter(best, e) {
        if e != d {
          assert NotAfter(rest, e);
          if best == d {
            NotAfterTransitive(d, rest, e);
          }
        }
      }
    }
  }

  /** Someone is selected exactly when someone is eligible, and the choice is the first by device id. */
  lemma SelectMeans(s: HubState)
    ensures Select(s).None? <==> forall d :: !Eligible(s, d)
    ensures Select(s).Some? ==> Best(s, Select(s).value)
  {
    var among := set d | d in s.sessions && Eligible(s, d);
    if among != {} {
      var best := BestExists(s, among);
      assert forall e :: Eligible(s, e) ==> e in among;
      assert Best(s, best);
    } else {
      forall d ensures !Eligible(s, d) {
        assert d !in among;
      }
    }
  }

  lemma SelectUnique(s: HubState, d: string)
    requires Best(s, d)
    ensures Select(s) == Some(d)
  {
    SelectMeans(s);
    NotAfterAntisymmetric(Select(s).value, d);
  }

  /** The session the hub sends controls to: that of the leader, while it is fit. */
  function Current(s: HubState): Option<nat> {
    var d := if s.market.Some? then s.market.value else "";
    if Eligible(s, d) then Some(s.sessions[d]) else None
  }

  ghost predicate Valid(s: HubState) {
    && Ordered(s.active)
    && (forall d :: d in s.sessions ==> s.sessions[d] in s.table && s.table[s.sessions[d]].device == d)
    && (forall n :: n in s.table ==> n < s.next)
    && Retired(s) && Led(s) && Published(s)
  }

  /** Every session that is no longer its device's session is revoked. */
  ghost predicate Retired(s: HubState) {
    forall n :: n in s.table && !s.table[n].revoked ==> s.table[n].device in s.sessions && s.sessions[s.table[n].device] == n
  }

  /** There is a leader exactly when some session is eligible, and the leader is. */
  ghost predicate Led(s: HubState) {
    && (s.market.Some? ==> Eligible(s, s.market.value))
    && (s.market.None? ==> forall d :: !Eligible(s, d))
  }

  /** The lease last written names the leader's session. */
  ghost predicate Published(s: HubState) {
    s.published == Some(Current(s)) || (s.published.None? && s.market.None?)
  }

  /** The leader's queue gives exactly the active controls. */
  ghost predicate InStep(s: HubState) {
    Current(s).Some? ==> Replay(s.table[Current(s).value].queue) == s.active.at
  }

  // ---------------------------------------------------------------------------------------
  // Operations

  function Enqueue(s: HubState, n: nat, messages: seq<Message>): HubState
    requires n in s.table
  {
    s.(table := s.table[n := s.table[n].(queue := s.table[n].queue + messages)])
  }

  function RevokeSession(s: HubState, n: nat): HubState
    requires n in s.table
  {
    s.(table := s.table[n := s.table[n].(revoked := true)])
  }

  /** Choose a leader anew, give it a snapshot and write the lease. */
  ghost function Failover(s: HubState): HubState
    requires Ordered(s.active)
  {
    var t := s.(market := Select(s));
    var n := Current(t);
    (if Select(s).Some? && n.Some? then Enqueue(t, n.value, Snapshot(s.active)) else t).(published := Some(n))
  }

  ghost function Placed(s: HubState, device: string, marketCapable: bool, loaded: Controls): HubState
    requires Valid(s)
  {
    var t := if device in s.sessions then RevokeSession(s, s.sessions[device]) else s;
    t.(sessions := t.sessions[device := s.next], table := t.table[s.next := Session(device, marketCapable, false, [])],
       next := s.next + 1, active := loaded)
  }

  ghost function Elected(s: HubState): HubState {
    if Current(s).Some? && s.market.Some? then s else s.(market := Select(s))
  }

  ghost function RegisterStep(s: HubState, device: string, marketCapable: bool, loaded: Controls): HubState
    requires Valid(s) && Ordered(loaded)
  {
    var t := Elected(Placed(s, device, marketCapable, loaded));
    Enqueue(t, s.next, if t.market == Some(device) then Snapshot(loaded) else [Reset]).(published := Some(Current(t)))
  }

  ghost function RevokeStep(s: HubState, device: string): HubState
    requires Valid(s)
  {
    if device !in s.sessions then s
    else
      var t := RevokeSession(s, s.sessions[device]);
      if s.market == Some(device) then Failover(t) else t
  }

  predicate Registered(s: HubState, n: nat) {
    n in s.table && s.table[n].device in s.sessions && s.sessions[s.table[n].device] == n
  }

  ghost function UnregisterStep(s: HubState, n: nat): HubState
    requires Valid(s)
  {
    if !Registered(s, n) then s
    else
      var device := s.table[n].device;
      var t := RevokeSession(s, n).(sessions := s.sessions - {device});
      if s.market == Some(device) then Failover(t) else t
  }

  ghost function DispatchStep(s: HubState, quote: bool, control: Control): HubState
    requires Valid(s)
  {
    if !quote || control.id == "" then s
    else
      var t := s.(active := Updated(s.active, control));
      if Current(t).Some? then Enqueue(t, Current(t).value, [Command(control)]) else t
  }

  ghost function ReconcileStep(s: HubState, loaded: Controls): HubState
    requires Valid(s) && Ordered(loaded)
  {
    var t := s.(active := loaded);
    if Current(t).Some? then Enqueue(t, Current(t).value, Snapshot(loaded)) else t
  }

  function RefreshStep(s: HubState, n: nat): HubState {
    if Registered(s, n) && s.market == Some(s.table[n].device) then s.(published := Some(Some(n))) else s
  }

  // ---------------------------------------------------------------------------------------
  // The hub object

  class ConnectionHub {
    var sessions: map<string, nat>
    var table: map<nat, Session>
    var next: nat
    var active: Controls
    var market: Option<string>
    var published: Option<Option<nat>>

    function State(): HubState
      reads this
    {
      HubState(sessions, table, next, active, market, published)
    }

    constructor ()
      ensures Valid(State()) && State() == HubState(map[], map[], 0, Controls([], map[]), None, None)
    {
      sessions, table, next, active, market, published := map[], map[], 0, Controls([], map[]), None, None;
    }

    method SelectMarketSession() returns (selected: Option<string>)
      ensures selected == Select(State())
    {
      selected := None;
      var rest := sessions.Keys;
      while rest != {}
        invariant rest <= sessions.Keys
        invariant selected.None? ==> forall d :: d in sessions && d !in rest ==> !Eligible(State(), d)
        invariant selected.Some? ==> Eligible(State(), selected.value) && selected.value !in rest
        invariant selected.Some? ==> forall d :: d in sessions && d !in rest && Eligible(State(), d) ==> NotAfter(selected.value, d)
        decreases rest
      {
        var d :| d in rest;
        ghost var before := selected;
        if Eligible(State(), d) {
          NotAfterTotal(d, d);
          if selected.None? {
            selected := Some(d);
          } else {
            NotAfterTotal(selected.value, d);
            if !NotAfter(selected.value, d) {
              EarlierThanAll(State(), d, selected.value, rest);
              selected := Some(d);
            }
          }
        }
        rest := rest - {d};
      }
      SelectMeans(State());
      if selected.Some? {
        assert Best(State(), selected.value);
        SelectUnique(State(), selected.value);
      }
    }

    method QueueSnapshot(n: nat)
      requires n in table && Ordered(active)
      modifies this`table
      ensures State() == Enqueue(old(State()), n, Snapshot(active))
    {
      var messages := [Reset];
      var i := 0;
      while i < |active.order|
        invariant 0 <= i <= |active.order|
        invariant messages == [Reset] + Commands(active.order[..i], active.at)
      {
        assert active.order[..i + 1][..i] == active.order[..i];
        messages := messages + [Command(active.at[active.order[i]])];
        i := i + 1;
      }
      assert active.order[..|active.order|] == active.order;
      table := table[n := table[n].(queue := table[n].queue + messages)];
    }

    /** After the leader went: choose, snapshot, publish. */
    method TakeOver()
      requires Ordered(active)
      modifies this`table, this`market, this`published
      ensures State() == Failover(old(State()))
    {
      SelectMeans(State());
      var selected := SelectMarketSession();
      market := selected;
      var n := Current(State());
      if selected.Some? {
        QueueSnapshot(n.value);
      }
      published := Some(n);
    }

    method Register(device: string, marketCapable: bool, fields: seq<Field>) returns (n: nat)
      requires Valid(State()) && DistinctFields(fields)
      modifies this
      ensures n == old(next) && Ordered(Loaded(fields))
      ensures State() == RegisterStep(old(State()), device, marketCapable, Loaded(fields))
    {
      n := Place(device, marketCapable, fields);
      Elect();
      Greet(n, device);
    }

    /** A new session gets a snapshot if its device leads, else it is told to stand by. */
    method Greet(n: nat, device: string)
      requires n in table && Ordered(active)
      modifies this`table, this`published
      ensures State() == Enqueue(old(State()), n, if market == Some(device) then Snapshot(active) else [Reset])
                           .(published := Some(Current(old(State()))))
    {
      ghost var before := State();
      if market == Some(device) {
        QueueSnapshot(n);
      } else {
        table := table[n := table[n].(queue := table[n].queue + [Reset])];
      }
      assert Current(State()) == Current(before);
      published := Some(Current(State()));
    }

    /** Revoke the device's previous session, put the new one in its place and reload the controls. */
    method Place(device: string, marketCapable: bool, fields: seq<Field>) returns (n: nat)
      requires Valid(State()) && DistinctFields(fields)
      modifies this`sessions, this`table, this`next, this`active
      ensures n == old(next) && n in table && Ordered(active)
      ensures State() == Placed(old(State()), device, marketCapable, Loaded(fields))
    {
      n := next;
      if device in sessions {
        var previous := sessions[device];
        table := table[previous := table[previous].(revoked := true)];
      }
      sessions, table, next := sessions[device := n], table[n := Session(device, marketCapable, false, [])], n + 1;
      active := LoadActiveControls(fields);
    }

    /** Keep the leader while it is fit, else choose one. */
    method Elect()
      modifies this`market
      ensures State() == Elected(old(State()))
    {
      ghost var s := State();
      if Current(State()).None? {
        market := None;
      }
      if market.None? {
        SelectIgnoresLeader(s, State());
        market := SelectMarketSession();
      }
    }

    method Revoke(device: string) returns (known: bool)
      requires Valid(State())
      modifies this
      ensures known <==> device in old(sessions)
      ensures State() == RevokeStep(old(State()), device)
    {
      if device !in sessions {
        return false;
      }
      var n := sessions[device];
      table := table[n := table[n].(revoked := true)];
      if market == Some(device) {
        TakeOver();
      }
      known := true;
    }

    method Unregister(n: nat) returns (removed: bool)
      requires Valid(State()) && n in table
      modifies this
      ensures removed <==> Registered(old(State()), n)
      ensures State() == UnregisterStep(old(State()), n)
    {
      var device := table[n].device;
      if device !in sessions || sessions[device] != n {
        return false;
      }
      table := table[n := table[n].(revoked := true)];
      sessions := sessions - {device};
      if market == Some(device) {
        TakeOver();
      }
      removed := true;
    }

    method Dispatch(quote: bool, control: Control)
      requires Valid(State())
      modifies this`active, this`table
      ensures State() == DispatchStep(old(State()), quote, control)
    {
      if !quote || control.id == "" {
        return;
      }
      active := Updated(active, control);
      var n := Current(State());
      if n.Some? {
        table := table[n.value := table[n.value].(queue := table[n.value].queue + [Command(control)])];
      }
    }

    method ReconcileSelectedSession(fields: seq<Field>)
      requires Valid(State()) && DistinctFields(fields)
      modifies this`active, this`table
      ensures Ordered(Loaded(fields))
      ensures State() == ReconcileStep(old(State()), Loaded(fields))
    {
      active := LoadActiveControls(fields);
      var n := Current(State());
      if n.Some? {
        QueueSnapshot(n.value);
      }
    }

    method RefreshMarketDevice(n: nat)
      requires Valid(State()) && n in table
      modifies this`published
      ensures State() == RefreshStep(old(State()), n)
    {
      if table[n].device in sessions && sessions[table[n].device] == n && market == Some(table[n].device) {
        published := Some(Some(n));
      }
    }
  }

  lemma SelectIgnoresLeader(s: HubState, t: HubState)
    requires t == s.(market := t.market)
    ensures Select(s) == Select(t)
  {
    SelectMeans(s);
    SelectMeans(t);
    assert forall d :: Eligible(s, d) <==> Eligible(t, d);
    if Select(s).Some? {
      assert Best(t, Select(s).value);
      SelectUnique(t, Select(s).value);
    }
  }

  lemma EarlierThanAll(s: HubState, d: string, selected: string, rest: set<string>)
    requires NotAfter(d, selected)
    requires forall e :: e in s.sessions && e !in rest && Eligible(s, e) ==> NotAfter(selected, e)
    ensures forall e :: e in s.sessions && e !in rest && Eligible(s, e) ==> NotAfter(d, e)
  {
    forall e | e in s.sessions && e !in rest && Eligible(s, e) ensures NotAfter(d, e) {
      NotAfterTransitive(d, selected, e);
    }
  }
}
