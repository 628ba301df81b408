/**
  Leadership, fencing and control delivery over every run of the connection hub.
 */
module HubProperties {
  import opened Prelude
  import opened HubControls
  import opened Hub

  /** What holds before a leader is chosen. */
  ghost predicate Sane(s: HubState) {
    && Ordered(s.active)
    && (forall d :: d in s.sessions ==> s.sessions[d] in s.table && s.table[s.sessions[d]].device == d)
    && (forall n :: n in s.table ==> n < s.next)
    && Retired(s)
  }

  // ---------------------------------------------------------------------------------------
  // Every operation keeps the hub valid

  lemma EnqueueKeeps(s: HubState, n: nat, messages: seq<Message>)
    requires n in s.table
    ensures forall d :: Eligible(Enqueue(s, n, messages), d) <==> Eligible(s, d)
    ensures Current(Enqueue(s, n, messages)) == Current(s)
    ensures Sane(s) ==> Sane(Enqueue(s, n, messages))
    ensures Valid(s) ==> Valid(Enqueue(s, n, messages))
  {
    var t := Enqueue(s, n, messages);
    forall d ensures Eligible(t, d) <==> Eligible(s, d) {
    }
    if Sane(s) {
      assert Retired(t);
    }
  }

  lemma RevokeKeepsSane(s: HubState, n: nat)
    requires Sane(s) && n in s.table
    ensures Sane(RevokeSession(s, n))
  {
    var t := RevokeSession(s, n);
    forall m | m in t.table && !t.table[m].revoked
      ensures t.table[m].device in t.sessions && t.sessions[t.table[m].device] == m
    {
      assert m in s.table && !s.table[m].revoked;
    }
  }

  lemma FailoverValid(s: HubState)
    requires Sane(s)
    ensures Valid(Failover(s))
    ensures Failover(s).active == s.active
    ensures Failover(s).market == Select(s)
  {
    SelectMeans(s);
    var t := s.(market := Select(s));
    SelectIgnoresLeader(s, t);
    assert forall d :: Eligible(s, d) <==> Eligible(t, d);
    assert Led(t);
    var u := t.(published := Some(Current(t)));
    assert Current(u) == Current(t);
    assert forall d :: Eligible(t, d) <==> Eligible(u, d);
    assert Valid(u);
    if Current(t).Some? && Select(s).Some? {
      EnqueueKeeps(u, Current(t).value, Snapshot(s.active));
      assert Failover(s) == Enqueue(u, Current(t).value, Snapshot(s.active));
    }
  }

  lemma PlacedSane(s: HubState, device: string, marketCapable: bool, loaded: Controls)
    requires Valid(s) && Ordered(loaded)
    ensures Sane(Placed(s, device, marketCapable, loaded))
  {
    var t := Placed(s, device, marketCapable, loaded);
    forall m | m in t.table && !t.table[m].revoked
      ensures t.table[m].device in t.sessions && t.sessions[t.table[m].device] == m
    {
      if m != s.next {
        assert m in s.table && !s.table[m].revoked;
        assert s.sessions[s.table[m].device] == m;
      }
    }
  }

  lemma ElectedLed(s: HubState)
    requires Sane(s)
    ensures Sane(Elected(s)) && Led(Elected(s))
    ensures Elected(s) == s.(market := Elected(s).market)
  {
    SelectMeans(s);
    var t := Elected(s);
    assert forall d :: Eligible(s, d) <==> Eligible(t, d);
  }

  lemma RegisterValid(s: HubState, device: string, marketCapable: bool, loaded: Controls)
    requires Valid(s) && Ordered(loaded)
    ensures Valid(RegisterStep(s, device, marketCapable, loaded))
    ensures RegisterStep(s, device, marketCapable, loaded).active == loaded
  {
    PlacedSane(s, device, marketCapable, loaded);
    var p := Placed(s, device, marketCapable, loaded);
    ElectedLed(p);
    var t := Elected(p);
    var u := t.(published := Some(Current(t)));
    assert Current(u) == Current(t);
    assert forall d :: Eligible(u, d) <==> Eligible(t, d);
    assert Valid(u);
    EnqueueKeeps(u, s.next, if t.market == Some(device) then Snapshot(loaded) else [Reset]);
  }

  lemma RevokeValid(s: HubState, device: string)
    requires Valid(s)
    ensures Valid(RevokeStep(s, device)) && RevokeStep(s, device).active == s.active
  {
    if device in s.sessions {
      var t := RevokeSession(s, s.sessions[device]);
      RevokeKeepsSane(s, s.sessions[device]);
      if s.market == Some(device) {
        FailoverValid(t);
      } else {
        assert forall d :: Eligible(t, d) <==> Eligible(s, d) && d != device;
      }
    }
  }

  lemma UnregisterValid(s: HubState, n: nat)
    requires Valid(s)
    ensures Valid(UnregisterStep(s, n)) && UnregisterStep(s, n).active == s.active
  {
    if Registered(s, n) {
      var device := s.table[n].device;
      var t := RevokeSession(s, n).(sessions := s.sessions - {device});
      RevokeKeepsSane(s, n);
      assert Sane(t) by {
        forall m | m in t.table && !t.table[m].revoked
          ensures t.table[m].device in t.sessions && t.sessions[t.table[m].device] == m
        {
          assert m in s.table && !s.table[m].revoked;
        }
      }
      if s.market == Some(device) {
        FailoverValid(t);
      } else {
        assert forall d :: Eligible(t, d) <==> Eligible(s, d) && d != device;
      }
    }
  }

  lemma DispatchValid(s: HubState, quote: bool, control: Control)
    requires Valid(s)
    ensures Valid(DispatchStep(s, quote, control))
  {
    UpdatedOrdered(s.active, control);
    var t := s.(active := Updated(s.active, control));
    assert forall d :: Eligible(t, d) <==> Eligible(s, d);
    assert Valid(t);
    if Current(t).Some? {
      EnqueueKeeps(t, Current(t).value, [Command(control)]);
    }
  }

  lemma ReconcileValid(s: HubState, loaded: Controls)
    requires Valid(s) && Ordered(loaded)
    ensures Valid(ReconcileStep(s, loaded)) && ReconcileStep(s, loaded).active == loaded
  {
    var t := s.(active := loaded);
    assert forall d :: Eligible(t, d) <==> Eligible(s, d);
    assert Valid(t);
    if Current(t).Some? {
      EnqueueKeeps(t, Current(t).value, Snapshot(loaded));
    }
  }

  // ---------------------------------------------------------------------------------------
  // Fencing

  /** Registering a device again revokes its previous session, whose late unregister changes nothing. */
  lemma ReplacedSessionIsFenced(s: HubState, device: string, marketCapable: bool, loaded: Controls)
    requires Valid(s) && Ordered(loaded) && device in s.sessions
    ensures var t := RegisterStep(s, device, marketCapable, loaded);
            var previous := s.sessions[device];
            && previous in t.table && t.table[previous].revoked && Current(t) != Some(previous)
            && !Registered(t, previous) && Valid(t) && UnregisterStep(t, previous) == t
  {
    RegisterValid(s, device, marketCapable, loaded);
  }

  // ---------------------------------------------------------------------------------------
  // Control delivery

  lemma FailoverInStep(s: HubState)
    requires Sane(s)
    ensures Failover(s).market.Some? ==> (InStep(Failover(s)) <==> WellFormed(s.active))
    ensures Failover(s).market.None? ==> InStep(Failover(s))
  {
    FailoverValid(s);
    SelectMeans(s);
    var t := s.(market := Select(s));
    assert forall d :: Eligible(s, d) <==> Eligible(t, d);
    if Select(s).Some? {
      var n := Current(t).value;
      ReplaySnapshot(s.table[n].queue, s.active);
      EnqueueKeeps(t, n, Snapshot(s.active));
      assert Failover(s).table[n].queue == s.table[n].queue + Snapshot(s.active);
      assert Current(Failover(s)) == Some(n);
    }
  }

  /** A new leader's registration delivers exactly well-formed controls; any other registration
      leaves the leader's queue as it was, in step only if it already gave what was loaded. */
  lemma RegisterInStep(s: HubState, device: string, marketCapable: bool, loaded: Controls)
    requires Valid(s) && Ordered(loaded)
    ensures var t := RegisterStep(s, device, marketCapable, loaded);
            && (t.market == Some(device) ==> (InStep(t) <==> WellFormed(loaded)))
            && (t.market.Some? && t.market != Some(device) ==>
                  && t.market.value in s.sessions && s.sessions[t.market.value] in s.table
                  && (InStep(t) <==> Replay(s.table[s.sessions[t.market.value]].queue) == loaded.at))
            && (t.market.None? ==> InStep(t))
  {
    RegisterValid(s, device, marketCapable, loaded);
    var t := RegisterStep(s, device, marketCapable, loaded);
    if t.market == Some(device) {
      NewcomerLeads(s, device, marketCapable, loaded);
      LeaderHolds(t, s.next, [], loaded);
    } else if t.market.Some? {
      OtherLeads(s, device, marketCapable, loaded);
    }
  }

  lemma LeaderHolds(t: HubState, n: nat, queue: seq<Message>, loaded: Controls)
    requires Ordered(loaded) && n in t.table && Current(t) == Some(n) && t.active == loaded
    requires t.table[n].queue == queue + Snapshot(loaded)
    ensures InStep(t) <==> WellFormed(loaded)
  {
    ReplaySnapshot(queue, loaded);
  }

  lemma NewcomerLeads(s: HubState, device: string, marketCapable: bool, loaded: Controls)
    requires Valid(s) && Ordered(loaded)
    requires var t := RegisterStep(s, device, marketCapable, loaded); t.market == Some(device) && Valid(t)
    ensures var t := RegisterStep(s, device, marketCapable, loaded);
            s.next in t.table && Current(t) == Some(s.next) && t.table[s.next].queue == [] + Snapshot(loaded)
  {
  }

  lemma OtherLeads(s: HubState, device: string, marketCapable: bool, loaded: Controls)
    requires Valid(s) && Ordered(loaded)
    requires var t := RegisterStep(s, device, marketCapable, loaded);
             t.market.Some? && t.market != Some(device) && Valid(t)
    ensures var t := RegisterStep(s, device, marketCapable, loaded);
            && t.market.value in s.sessions && s.sessions[t.market.value] in s.table
            && (InStep(t) <==> Replay(s.table[s.sessions[t.market.value]].queue) == loaded.at)
  {
    var t := RegisterStep(s, device, marketCapable, loaded);
    var d := t.market.value;
    assert t.sessions[d] == s.sessions[d] && t.sessions[d] != s.next;
    assert Current(t) == Some(s.sessions[d]);
    assert t.table[s.sessions[d]].queue == s.table[s.sessions[d]].queue;
  }

  lemma RevokeInStep(s: HubState, device: string)
    requires Valid(s) && InStep(s) && WellFormed(s.active)
    ensures InStep(RevokeStep(s, device))
  {
    if device in s.sessions {
      var t := RevokeSession(s, s.sessions[device]);
      RevokeKeepsSane(s, s.sessions[device]);
      if s.market == Some(device) {
        FailoverInStep(t);
      } else {
        SameLeaderInStep(s, t);
      }
    }
  }

  /** A leader whose own session and queue are untouched stays in step. */
  lemma SameLeaderInStep(s: HubState, t: HubState)
    requires InStep(s) && Led(s) && s.market == t.market && s.active == t.active
    requires Current(t).Some? ==> Current(s) == Current(t)
    requires Current(t).Some? ==> Current(t).value in s.table && t.table[Current(t).value].queue == s.table[Current(t).value].queue
    ensures InStep(t)
  {
  }

  lemma UnregisterInStep(s: HubState, n: nat)
    requires Valid(s) && InStep(s) && WellFormed(s.active)
    ensures InStep(UnregisterStep(s, n))
  {
    if Registered(s, n) {
      var device := s.table[n].device;
      var t := RevokeSession(s, n).(sessions := s.sessions - {device});
      if s.market == Some(device) {
        UnregisterSane(s, n);
        FailoverInStep(t);
      } else {
        SameLeaderInStep(s, t);
      }
    }
  }

  lemma UnregisterSane(s: HubState, n: nat)
    requires Valid(s) && Registered(s, n)
    ensures Sane(RevokeSession(s, n).(sessions := s.sessions - {s.table[n].device}))
  {
    var t := RevokeSession(s, n).(sessions := s.sessions - {s.table[n].device});
    forall m | m in t.table && !t.table[m].revoked
      ensures t.table[m].device in t.sessions && t.sessions[t.table[m].device] == m
    {
      assert m in s.table && !s.table[m].revoked;
    }
  }

  /** Each dispatched control reaches the leader's queue and the active controls alike. */
  lemma DispatchInStep(s: HubState, quote: bool, control: Control)
    requires Valid(s) && InStep(s)
    ensures InStep(DispatchStep(s, quote, control))
    ensures WellFormed(s.active) ==> WellFormed(DispatchStep(s, quote, control).active)
  {
    if quote && control.id != "" {
      var t := s.(active := Updated(s.active, control));
      assert Current(t) == Current(s);
      if Current(t).Some? {
        var n := Current(t).value;
        UpdatedReplays(s.active, s.table[n].queue, control);
        EnqueueKeeps(t, n, [Command(control)]);
      }
    }
  }

  /** Reconciling repairs the leader's queue exactly when the loaded controls are well formed. */
  lemma ReconcileInStep(s: HubState, loaded: Controls)
    requires Valid(s) && Ordered(loaded)
    ensures s.market.Some? ==> (InStep(ReconcileStep(s, loaded)) <==> WellFormed(loaded))
  {
    if s.market.Some? {
      var t := s.(active := loaded);
      var n := Current(t).value;
      ReplaySnapshot(s.table[n].queue, loaded);
      EnqueueKeeps(t, n, Snapshot(loaded));
    }
  }

  // ---------------------------------------------------------------------------------------
  // Every run

  datatype Event =
    | Register(device: string, marketCapable: bool, loaded: Controls)
    | Revoke(device: string)
    | Unregister(session: nat)
    | Dispatch(quote: bool, control: Control)
    | Reconcile(loaded: Controls)
    | Refresh(session: nat)

  ghost predicate Readable(e: Event) {
    (e.Register? || e.Reconcile?) ==> Ordered(e.loaded)
  }

  /** One operation; every state it is applied to in a run turns out to be valid. */
  ghost function Step(s: HubState, e: Event): HubState {
    if !Valid(s) || !Readable(e) then s
    else
    match e
    case Register(device, marketCapable, loaded) => RegisterStep(s, device, marketCapable, loaded)
    case Revoke(device) => RevokeStep(s, device)
    case Unregister(n) => UnregisterStep(s, n)
    case Dispatch(quote, control) => DispatchStep(s, quote, control)
    case Reconcile(loaded) => ReconcileStep(s, loaded)
    case Refresh(n) => RefreshStep(s, n)
  }

  lemma StepValid(s: HubState, e: Event)
    requires Valid(s) && Readable(e)
    ensures Valid(Step(s, e))
  {
    match e
    case Register(device, marketCapable, loaded) => RegisterValid(s, device, marketCapable, loaded);
    case Revoke(device) => RevokeValid(s, device);
    case Unregister(n) => UnregisterValid(s, n);
    case Dispatch(quote, control) => DispatchValid(s, quote, control);
    case Reconcile(loaded) => ReconcileValid(s, loaded);
    case Refresh(n) =>
  }

  ghost function Run(events: seq<Event>): HubState
    decreases |events|
  {
    if events == [] then HubState(map[], map[], 0, Controls([], map[]), None, None)
    else Step(Run(events[..|events| - 1]), events[|events| - 1])
  }

  ghost predicate AllReadable(events: seq<Event>) {
    forall i :: 0 <= i < |events| ==> Readable(events[i])
  }

  /** Leadership, fencing and the published lease are right after every run. */
  lemma {:induction false} ValidAlways(events: seq<Event>)
    requires AllReadable(events)
    ensures Valid(Run(events))
    decreases |events|
  {
    if events != [] {
      ValidAlways(events[..|events| - 1]);
      StepValid(Run(events[..|events| - 1]), events[|events| - 1]);
    }
  }

  /** A fit leader stays leader when another device registers, and the newcomer is only reset. */
  lemma LeaderStays(s: HubState, device: string, marketCapable: bool, loaded: Controls)
    requires Valid(s) && Ordered(loaded) && s.market.Some? && s.market.value != device
    ensures var t := RegisterStep(s, device, marketCapable, loaded);
            && t.market == s.market && t.sessions == s.sessions[device := s.next]
            && t.table.Keys == s.table.Keys + {s.next} && t.table[s.next] == Session(device, marketCapable, false, [Reset])
            && forall n :: n in s.table && (device in s.sessions ==> n != s.sessions[device]) ==> t.table[n] == s.table[n]
  {
    var p := Placed(s, device, marketCapable, loaded);
    assert Eligible(p, s.market.value);
    assert [] + [Reset] == [Reset];
  }

  /** Every session that is fit to be used but does not lead was only told to reset. */
  ghost predicate OnStandby(s: HubState) {
    forall n :: n in s.table && !s.table[n].revoked && s.market != Some(s.table[n].device) ==> s.table[n].queue == [Reset]
  }

  lemma RegisterStandby(s: HubState, device: string, marketCapable: bool, loaded: Controls)
    requires Valid(s) && Ordered(loaded) && OnStandby(s)
    ensures OnStandby(RegisterStep(s, device, marketCapable, loaded))
  {
    var t := RegisterStep(s, device, marketCapable, loaded);
    assert [] + [Reset] == [Reset];
    if s.market.Some? && s.market.value != device {
      LeaderStays(s, device, marketCapable, loaded);
    }
    forall n | n in t.table && !t.table[n].revoked && t.market != Some(t.table[n].device) ensures t.table[n].queue == [Reset] {
      if n != s.next {
        assert n in s.table && s.table[n].device == t.table[n].device && s.table[n].queue == t.table[n].queue;
        assert s.sessions[s.table[n].device] == n;
      }
    }
  }

  lemma FailoverStandby(s: HubState)
    requires Sane(s)
    requires forall n :: n in s.table && !s.table[n].revoked ==> s.table[n].queue == [Reset]
    ensures OnStandby(Failover(s))
  {
    var t := Failover(s);
    forall n | n in t.table && !t.table[n].revoked && t.market != Some(t.table[n].device) ensures t.table[n].queue == [Reset] {
      assert n in s.table && s.table[n].device == t.table[n].device;
    }
  }

  lemma RevokeStandby(s: HubState, device: string)
    requires Valid(s) && OnStandby(s)
    ensures OnStandby(RevokeStep(s, device))
  {
    if device in s.sessions {
      var t := RevokeSession(s, s.sessions[device]);
      if s.market == Some(device) {
        RevokeKeepsSane(s, s.sessions[device]);
        OthersReset(s, t, s.sessions[device]);
        FailoverStandby(t);
      }
    }
  }

  lemma UnregisterStandby(s: HubState, n: nat)
    requires Valid(s) && OnStandby(s)
    ensures OnStandby(UnregisterStep(s, n))
  {
    if Registered(s, n) {
      var device := s.table[n].device;
      var t := RevokeSession(s, n).(sessions := s.sessions - {device});
      if s.market == Some(device) {
        UnregisterSane(s, n);
        OthersReset(s, t, n);
        FailoverStandby(t);
      }
    }
  }

  /** Once the leader's session is revoked, all sessions still fit were on standby. */
  lemma OthersReset(s: HubState, t: HubState, leader: nat)
    requires Valid(s) && OnStandby(s) && leader in s.table && s.market == Some(s.table[leader].device)
    requires Registered(s, leader) && t.table == RevokeSession(s, leader).table
    ensures forall n :: n in t.table && !t.table[n].revoked ==> t.table[n].queue == [Reset]
  {
    forall n | n in t.table && !t.table[n].revoked ensures t.table[n].queue == [Reset] {
      assert n != leader && s.sessions[s.table[n].device] == n;
    }
  }

  lemma StepStandby(s: HubState, e: Event)
    requires Valid(s) && Readable(e) && OnStandby(s)
    ensures OnStandby(Step(s, e))
  {
    match e
    case Register(device, marketCapable, loaded) => RegisterStandby(s, device, marketCapable, loaded);
    case Revoke(device) => RevokeStandby(s, device);
    case Unregister(n) => UnregisterStandby(s, n);
    case Dispatch(quote, control) =>
    case Reconcile(loaded) =>
    case Refresh(n) =>
  }

  /** In every run. */
  lemma {:induction false} StandbyAlways(events: seq<Event>)
    requires AllReadable(events)
    ensures OnStandby(Run(events))
    decreases |events|
  {
    if events != [] {
      var front := events[..|events| - 1];
      StandbyAlways(front);
      ValidAlways(front);
      StepStandby(Run(front), events[|events| - 1]);
    }
  }

  /**
    A registration that puts the leader behind, told from the hub before it: another device leads and
    the controls have changed since; or the leader gives up the capability, another session is fit to
    take over, and there are controls at all.
   */
  ghost predicate FallsBehind(s: HubState, e: Event) {
    && e.Register?
    && (|| (s.market.Some? && s.market.value != e.device && e.loaded.at != s.active.at)
        || (&& s.market == Some(e.device) && !e.marketCapable && e.loaded.at != map[]
            && exists d :: d != e.device && Eligible(s, d)))
  }

  /** Who leads after a registration on a device that leads already, or while nobody leads. */
  lemma NextLeader(s: HubState, device: string, marketCapable: bool, loaded: Controls)
    requires Valid(s) && Ordered(loaded) && (s.market.None? || s.market.value == device)
    ensures var t := RegisterStep(s, device, marketCapable, loaded);
            && (marketCapable ==> t.market == Some(device))
            && (!marketCapable ==> t.market != Some(device))
            && (!marketCapable ==> (t.market.Some? <==> exists d :: d != device && Eligible(s, d)))
  {
    var p := Placed(s, device, marketCapable, loaded);
    SelectMeans(p);
    assert Eligible(p, device) <==> marketCapable;
    forall d | d != device ensures Eligible(p, d) <==> Eligible(s, d) {
      if d in s.sessions {
        assert s.sessions[d] != s.next;
      }
    }
    if Select(p).Some? {
      assert Best(p, Select(p).value);
    }
  }

  /** From a hub in step, a registration leaves it in step exactly when it does not fall behind. */
  lemma RegistrationExact(s: HubState, device: string, marketCapable: bool, loaded: Controls)
    requires Valid(s) && Ordered(loaded) && OnStandby(s) && InStep(s) && WellFormed(loaded)
    ensures InStep(RegisterStep(s, device, marketCapable, loaded)) <==> !FallsBehind(s, Register(device, marketCapable, loaded))
  {
    RegisterInStep(s, device, marketCapable, loaded);
    if s.market.Some? && s.market.value != device {
      LeaderStays(s, device, marketCapable, loaded);
    } else {
      NextLeader(s, device, marketCapable, loaded);
      var t := RegisterStep(s, device, marketCapable, loaded);
      if t.market.Some? && t.market != Some(device) {
        TakeoverHoldsNothing(s, device, marketCapable, loaded);
      }
    }
  }

  lemma TakeoverHoldsNothing(s: HubState, device: string, marketCapable: bool, loaded: Controls)
    requires Valid(s) && Ordered(loaded) && OnStandby(s) && (s.market.None? || s.market.value == device)
    requires var t := RegisterStep(s, device, marketCapable, loaded); t.market.Some? && t.market.value != device
    ensures var d := RegisterStep(s, device, marketCapable, loaded).market.value;
            d in s.sessions && s.sessions[d] in s.table && Replay(s.table[s.sessions[d]].queue) == map[]
  {
    RegisterValid(s, device, marketCapable, loaded);
    var t := RegisterStep(s, device, marketCapable, loaded);
    var d := t.market.value;
    assert Eligible(t, d) && t.sessions[d] == s.sessions[d];
    assert !s.table[s.sessions[d]].revoked;
    ResetHoldsNothing();
  }

  ghost predicate LoadsWellFormed(e: Event) {
    (e.Register? || e.Reconcile?) ==> WellFormed(e.loaded)
  }

  /** From a hub in step, exactly the registrations that fall behind put it out of step. */
  lemma StepInStep(s: HubState, e: Event)
    requires Valid(s) && Readable(e) && OnStandby(s) && InStep(s) && WellFormed(s.active) && LoadsWellFormed(e)
    ensures InStep(Step(s, e)) <==> !FallsBehind(s, e)
    ensures WellFormed(Step(s, e).active)
  {
    match e
    case Register(device, marketCapable, loaded) =>
      RegisterValid(s, device, marketCapable, loaded);
      RegistrationExact(s, device, marketCapable, loaded);
    case Revoke(device) =>
      RevokeValid(s, device);
      RevokeInStep(s, device);
    case Unregister(n) =>
      UnregisterValid(s, n);
      UnregisterInStep(s, n);
    case Dispatch(quote, control) => DispatchInStep(s, quote, control);
    case Reconcile(loaded) =>
      ReconcileValid(s, loaded);
      ReconcileInStep(s, loaded);
    case Refresh(n) =>
  }

  /** No registration of the run falls behind. */
  ghost predicate NeverBehind(events: seq<Event>)
    decreases |events|
  {
    events != [] ==>
      && NeverBehind(events[..|events| - 1])
      && LoadsWellFormed(events[|events| - 1]) && !FallsBehind(Run(events[..|events| - 1]), events[|events| - 1])
  }

  /** The leader's queue gives the active controls after every run in which no registration falls behind. */
  lemma {:induction false} InStepAlways(events: seq<Event>)
    requires AllReadable(events) && NeverBehind(events)
    ensures InStep(Run(events)) && WellFormed(Run(events).active)
    decreases |events|
  {
    if events != [] {
      var front := events[..|events| - 1];
      ValidAlways(front);
      StandbyAlways(front);
      InStepAlways(front);
      StepInStep(Run(front), events[|events| - 1]);
    }
  }

  // ---------------------------------------------------------------------------------------
  // The two ways to fall behind

  lemma Extended(events: seq<Event>, e: Event)
    requires Valid(Run(events)) && Readable(e)
    ensures Run(events + [e]) == Step(Run(events), e) && Valid(Run(events + [e]))
  {
    assert (events + [e])[..|events|] == events;
    StepValid(Run(events), e);
  }

  lemma FirstLeader(device: string, loaded: Controls)
    requires Ordered(loaded)
    ensures var s := Run([Register(device, true, loaded)]);
            Valid(s) && s.market == Some(device) && s.sessions == map[device := 0] && s.next == 1
            && 0 in s.table && s.table[0] == Session(device, true, false, Snapshot(loaded))
  {
    var e := Register(device, true, loaded);
    Extended([], e);
    assert [] + [e] == [e];
    FirstRegistration(Run([]), device, loaded);
  }

  lemma FirstRegistration(empty: HubState, device: string, loaded: Controls)
    requires empty == HubState(map[], map[], 0, Controls([], map[]), None, None) && Valid(empty) && Ordered(loaded)
    ensures var s := RegisterStep(empty, device, true, loaded);
            s.market == Some(device) && s.sessions == map[device := 0] && s.next == 1
            && 0 in s.table && s.table[0] == Session(device, true, false, Snapshot(loaded))
  {
    NextLeader(empty, device, true, loaded);
    assert [] + Snapshot(loaded) == Snapshot(loaded);
  }

  /** A standby that registers after a control was added leaves the leader without it. */
  lemma StandbyRegistrationFallsBehind(control: Control) returns (events: seq<Event>)
    requires control.subscribe
    ensures AllReadable(events) && (forall i :: 0 <= i < |events| ==> LoadsWellFormed(events[i]))
    ensures Run(events).market == Some("a") && !InStep(Run(events))
  {
    var none, one := Controls([], map[]), Controls([control.id], map[control.id := control]);
    events := [Register("a", true, none), Register("b", true, one)];
    assert control.id in one.at;
    StandbyMissesControl("a", "b", none, one);
  }

  lemma StandbyMissesControl(a: string, b: string, none: Controls, one: Controls)
    requires a != b && none == Controls([], map[]) && Ordered(one) && one.at != map[]
    ensures var s := Run([Register(a, true, none), Register(b, true, one)]); s.market == Some(a) && !InStep(s)
  {
    var start := [Register(a, true, none)];
    FirstLeader(a, none);
    Extended(start, Register(b, true, one));
    NewControlMissed(Run(start), a, b, one);
    assert start + [Register(b, true, one)] == [Register(a, true, none), Register(b, true, one)];
  }

  lemma NewControlMissed(s: HubState, leader: string, standby: string, loaded: Controls)
    requires Valid(s) && Ordered(loaded) && leader != standby && s.market == Some(leader)
    requires s.table[s.sessions[leader]].queue == Snapshot(Controls([], map[])) && loaded.at != map[]
    ensures RegisterStep(s, standby, true, loaded).market == Some(leader)
    ensures !InStep(RegisterStep(s, standby, true, loaded))
  {
    LeaderStays(s, standby, true, loaded);
    RegisterInStep(s, standby, true, loaded);
    HoldsNothing();
  }

  lemma HoldsNothing()
    ensures Replay(Snapshot(Controls([], map[]))) == map[]
  {
    ReplaySnapshot([], Controls([], map[]));
    assert [] + Snapshot(Controls([], map[])) == Snapshot(Controls([], map[]));
  }

  /** When the leader's device registers again without the capability, a sole standby takes over as it is. */
  lemma SoleStandbyTakesOver(s: HubState, leader: string, standby: string, loaded: Controls)
    requires Valid(s) && Ordered(loaded) && leader != standby
    requires s.sessions.Keys == {leader, standby} && Eligible(s, standby)
    ensures RegisterStep(s, leader, false, loaded).market == Some(standby)
  {
    var p := Placed(s, leader, false, loaded);
    assert !Eligible(p, leader) && Eligible(p, standby);
    SelectMeans(p);
    assert Best(p, Select(p).value);
    assert Select(p).value == standby;
  }

  lemma LeaderAndStandby(one: Controls)
    requires Ordered(one)
    ensures var s := Run([Register("a", true, one), Register("b", true, one)]);
            && Valid(s) && s.sessions == map["a" := 0, "b" := 1]
            && 1 in s.table && s.table[1] == Session("b", true, false, [Reset])
  {
    FirstLeader("a", one);
    var start := [Register("a", true, one)];
    Extended(start, Register("b", true, one));
    LeaderStays(Run(start), "b", true, one);
    assert start + [Register("b", true, one)] == [Register("a", true, one), Register("b", true, one)];
  }

  lemma ResetHoldsNothing()
    ensures Replay([Reset]) == map[]
  {
    ReplayOne([], Reset);
    assert [] + [Reset] == [Reset];
  }

  lemma ResetLeaderIsBehind(s: HubState, leader: string, standby: string, loaded: Controls)
    requires Valid(s) && Ordered(loaded) && leader != standby
    requires s.sessions.Keys == {leader, standby} && Eligible(s, standby)
    requires s.table[s.sessions[standby]].queue == [Reset] && loaded.at != map[]
    ensures RegisterStep(s, leader, false, loaded).market == Some(standby) && !InStep(RegisterStep(s, leader, false, loaded))
  {
    SoleStandbyTakesOver(s, leader, standby, loaded);
    RegisterInStep(s, leader, false, loaded);
    ResetHoldsNothing();
  }

  /** A leader that registers again without the capability hands over to a standby that got no snapshot. */
  lemma MovedLeaderHoldsNothing(control: Control) returns (events: seq<Event>)
    requires control.subscribe
    ensures AllReadable(events) && (forall i :: 0 <= i < |events| ==> LoadsWellFormed(events[i]))
    ensures Run(events).market == Some("b") && !InStep(Run(events))
  {
    var one := Controls([control.id], map[control.id := control]);
    var a, b: string := "a", "b";
    var two := [Register(a, true, one), Register(b, true, one)];
    events := two + [Register(a, false, one)];
    assert control.id in one.at;
    MovedAway(two, a, b, one);
  }

  lemma MovedAway(two: seq<Event>, a: string, b: string, one: Controls)
    requires a == "a" && b == "b" && Ordered(one) && one.at != map[]
    requires two == [Register(a, true, one), Register(b, true, one)]
    ensures var s := Run(two + [Register(a, false, one)]); s.market == Some(b) && !InStep(s)
  {
    LeaderAndStandby(one);
    var s := Run(two);
    assert s.sessions[b] == 1 && Eligible(s, b);
    ResetLeaderIsBehind(s, a, b, one);
    Extended(two, Register(a, false, one));
    assert Step(s, Register(a, false, one)) == RegisterStep(s, a, false, one);
  }
}
