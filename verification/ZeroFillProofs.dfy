/** A locally sourced zero-fill proof on an intent is never stale. */
module ZeroFillProofs {
  import opened Prelude
  import opened TradeRows
  import opened PlaceOrderTransition
  import opened Lifecycle
  import opened LifecycleProperties

  ghost predicate CarriesLocalProof(r: Rows) {
    LoadedIntent(r).Some? && LocallyProven(LoadedIntent(r).value)
  }

  /** What a local proof asserts about the rows around it. */
  ghost predicate ProofStands(r: Rows) {
    && PreExecutionStatus(r.command.status)
    && r.pending.Some? && r.pending.value.status == r.command.status
    && LoadedIntent(r).Some?
    && LoadedIntent(r).value.status.ReconciledZeroFill?
    && ZeroExecution(LoadedIntent(r).value)
    && NoBrokerOrder(r)
  }

  /** One order outside the open T lifecycle, whose proof, if any, stands. */
  ghost predicate ProofInvariant(r: Rows) {
    && r.command.kind.PlaceOrder?
    && !LifecycleOpen(r.pending)
    && (CarriesLocalProof(r) ==> ProofStands(r))
  }

  /** Landing on RECONCILE_REQUIRED erases a local proof, for every order and every evidence. */
  lemma ReconciliationErases(r: Rows, q: Request)
    requires Decide(r, q).Land? && Decide(r, q).status.ReconcileRequired?
    ensures !CarriesLocalProof(Transition(r, q))
  {
    var s := Transition(r, q);
    assert LoadedIntent(s).Some? <==> LoadedIntent(r).Some?;
  }

  /** A granted outcome writes a proof only together with everything the proof asserts. */
  lemma GrantWritesSoundProof(r: Rows, q: Request)
    requires !LifecycleOpen(r.pending)
    requires !CarriesLocalProof(r)
    requires Decide(r, q).Land? && !Decide(r, q).status.ReconcileRequired?
    requires CarriesLocalProof(Transition(r, q))
    ensures ProofStands(Transition(r, q))
  {
    var s := Transition(r, q);
    var i := LoadedIntent(r).value;
    var safe := SafeBeforeExecution(r, q.status, q.reason, q.proven);
    assert NewProof(r, q.status, q.reason, safe, q.now).Some?;
    assert safe && ExactExitPlan(r) && PreExecutionStatus(q.status);
    assert SameOutcomeAgain(r, q.status, q.reason) || FirstProof(r, q.status, q.reason, q.proven);
    assert LoadedIntent(s).value == s.intent.value;
  }

  /** From a standing proof every acknowledgement that asks for an outcome is refused it. */
  lemma StandingProofIsNotRegranted(r: Rows, q: Request)
    requires CarriesLocalProof(r) && ProofStands(r) && !LifecycleOpen(r.pending)
    requires q.status.ReconcileRequired?
             || (q.status.Expired? && r.command.status.Rejected?)
             || (q.status.Rejected? && r.command.status.Expired?)
    ensures Decide(r, q).Land? && Decide(r, q).status.ReconcileRequired?
  {
  }

  lemma ProofTransition(r: Rows, q: Request)
    requires ProofInvariant(r)
    requires CarriesLocalProof(r) ==>
               || q.status.ReconcileRequired?
               || (q.status.Expired? && r.command.status.Rejected?)
               || (q.status.Rejected? && r.command.status.Expired?)
    ensures ProofInvariant(Transition(r, q))
  {
    if Decide(r, q).Land? {
      if CarriesLocalProof(r) {
        StandingProofIsNotRegranted(r, q);
      }
      if Decide(r, q).status.ReconcileRequired? {
        ReconciliationErases(r, q);
      } else if CarriesLocalProof(Transition(r, q)) {
        GrantWritesSoundProof(r, q);
      }
    }
  }

  lemma ProofStep(r: Rows, s: Step)
    requires ProofInvariant(r)
    requires !s.Elsewhere?
    ensures ProofInvariant(Apply(r, s))
  {
    match s
    case Acked(a) =>
      var stamped := r.(command := r.command.(acknowledgedAt := Some(a.now)));
      assert ProofInvariant(stamped);
      if AckRequest(r.command.status, a).Some? && !a.reason.CommandProcessing? {
        ProofTransition(stamped, AckRequest(r.command.status, a).value);
      }
    case Swept(now) =>
      if Due(r.command, now) {
        ProofTransition(r, ExpiryRequest(r.command.status, now));
      }
    case Claimed(now, gate) =>
    case Sent(gate) =>
      if r.command.status.Delivered? {
        ProofTransition(r, Request(Expired, PhysicalSendCancelled, true, gate.now));
      }
  }

  /** Over every run of the server's own steps, a local proof is carried only while it stands. */
  lemma {:induction false} ProofsStandOverRuns(r: Rows, steps: seq<Step>)
    requires ProofInvariant(r)
    requires forall k :: 0 <= k < |steps| ==> !steps[k].Elsewhere?
    ensures ProofInvariant(Run(r, steps))
    ensures Run(r, steps).command.status.ReconcileRequired? ==> !CarriesLocalProof(Run(r, steps))
  {
    if steps != [] {
      var prefix := steps[..|steps| - 1];
      ProofsStandOverRuns(r, prefix);
      ProofStep(Run(r, prefix), steps[|steps| - 1]);
    }
  }

  /** The proof an Agent's lifecycle report sources is not a local one: reconciliation keeps it. */
  lemma LifecycleSourceSurvives(r: Rows, q: Request)
    requires Decide(r, q).Land? && Decide(r, q).status.ReconcileRequired?
    requires LoadedIntent(r).Some? && LoadedIntent(r).value.terminal.Some?
    requires LoadedIntent(r).value.terminal.value.source.AgentCommandLifecycle?
    ensures LoadedIntent(Transition(r, q)).Some?
    ensures LoadedIntent(Transition(r, q)).value.terminal == LoadedIntent(r).value.terminal
  {
    assert LoadedIntent(Transition(r, q)) == Transition(r, q).intent;
  }
}
