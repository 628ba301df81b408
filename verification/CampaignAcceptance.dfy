/**
  The daily campaign joined with its acceptance: when the passing verdicts of a run are those of the
  verification and nobody rewrites the bars of a completed job, a completed campaign has every planned
  cell stored as it was sent.
 */
module CampaignAcceptance {
  import opened Prelude
  import opened Calendar
  import opened InfluxVerification
  import opened StoredBars
  import opened InfluxVerdict
  import opened DailyJobs
  import opened DailyTiling
  import opened DailyCampaign

  predicate PassesPoll(poll: Poll) {
    poll == VanishedAudited(true) || poll == FlowEnded(true, true)
  }

  predicate Passes(j: Job, outcome: Outcome) {
    if j.status.Running? then outcome.Polled? && PassesPoll(outcome.poll)
    else outcome == Reconciled(true) || (outcome.Submitted? && !j.verificationOnly && PassesPoll(outcome.first))
  }

  /** The job that an event reports as having passed its verification. */
  function PassedJob(s: Ledger, e: Event): Option<nat> {
    match e
    case Look(outcome) =>
      var k := FirstAwaiting(s.jobs, 0);
      if !s.phase.Looping? || k == |s.jobs| then None
      else if Passes(s.jobs[k], outcome) then Some(k)
      else None
    case RetryIngestion(passed) =>
      if s.phase.Booting? && passed && FirstFailed(s.jobs, 0) < |s.jobs| then Some(FirstFailed(s.jobs, 0)) else None
    case _ => None
  }

  function WindowOf(j: Job): Window {
    Window(j.first, j.last)
  }

  /** What is known outside at one moment: the audit of every job's request, and the stored bars. */
  datatype World = World(audits: JobId -> Audit, rows: seq<Row>)

  /** The verdict on a job, as the verification gives it for the table at that time. */
  ghost predicate AcceptedIn(j: Job, w: World, dayOf: int -> int) {
    Acceptable(w.audits(IdOf(j)), j.codes, WindowOf(j), w.rows, dayOf)
  }

  /** The audit and the bars of a job are the same at both moments. */
  ghost predicate Undisturbed(j: Job, before: World, after: World, dayOf: int -> int) {
    && after.audits(IdOf(j)) == before.audits(IdOf(j))
    && forall code :: code in j.codes ==> TimesIn(after.rows, WindowOf(j), dayOf, code) == TimesIn(before.rows, WindowOf(j), dayOf, code)
  }

  /** One event seen together with the world before and after it.  Requests may be audited anew and bars
      written at any time, except for jobs that are completed. */
  ghost predicate ObservedStep(s: Ledger, e: Event, before: World, after: World, dayOf: int -> int) {
    && (PassedJob(s, e).Some? && PassedJob(s, e).value < |s.jobs| ==> AcceptedIn(s.jobs[PassedJob(s, e).value], after, dayOf))
    && (forall k :: 0 <= k < |s.jobs| && s.jobs[k].status.Completed? ==> Undisturbed(s.jobs[k], before, after, dayOf))
  }

  ghost predicate Observed(cfg: Config, planned: seq<Job>, events: seq<Event>, worlds: seq<World>, dayOf: int -> int)
    decreases |events|
  {
    && |worlds| == |events| + 1
    && (events != [] ==>
          && Observed(cfg, planned, events[..|events| - 1], worlds[..|events|], dayOf)
          && ObservedStep(Run(cfg, Start(planned), events[..|events| - 1]), events[|events| - 1],
                          worlds[|events| - 1], worlds[|events|], dayOf))
  }

  lemma UndisturbedAccepted(j: Job, before: World, after: World, dayOf: int -> int)
    requires AcceptedIn(j, before, dayOf) && Undisturbed(j, before, after, dayOf)
    ensures AcceptedIn(j, after, dayOf)
  {
  }

  // ---------------------------------------------------------------------------------------
  // Jobs complete only by a passing verdict

  lemma ActCompletes(cfg: Config, s: Ledger, k: nat, outcome: Outcome, i: nat)
    requires k < |s.jobs| && Awaits(s.jobs[k])
    requires i < |Act(cfg, s, k, outcome).jobs| && Act(cfg, s, k, outcome).jobs[i].status.Completed?
    ensures i < |s.jobs| && IdOf(Act(cfg, s, k, outcome).jobs[i]) == IdOf(s.jobs[i])
    ensures s.jobs[i].status.Completed? || (i == k && Passes(s.jobs[k], outcome))
  {
    match outcome
    case Submitted(first) =>
      if !s.jobs[k].status.Running? && !s.jobs[k].verificationOnly {
        PollCompletes(cfg, Submit(s, k), k, first, i);
      }
    case Polled(poll) =>
      if s.jobs[k].status.Running? {
        PollCompletes(cfg, s, k, poll, i);
      }
    case _ =>
  }

  lemma PollCompletes(cfg: Config, s: Ledger, k: nat, poll: Poll, i: nat)
    requires k < |s.jobs| && s.jobs[k].status.Running?
    requires i < |ActPoll(cfg, s, k, poll).jobs| && ActPoll(cfg, s, k, poll).jobs[i].status.Completed?
    ensures i < |s.jobs| && IdOf(ActPoll(cfg, s, k, poll).jobs[i]) == IdOf(s.jobs[i])
    ensures s.jobs[i].status.Completed? || (i == k && PassesPoll(poll))
  {
  }

  lemma StepCompletes(cfg: Config, s: Ledger, e: Event, i: nat)
    requires i < |Step(cfg, s, e).jobs| && Step(cfg, s, e).jobs[i].status.Completed?
    ensures i < |s.jobs| && IdOf(Step(cfg, s, e).jobs[i]) == IdOf(s.jobs[i])
    ensures s.jobs[i].status.Completed? || PassedJob(s, e) == Some(i)
  {
    match e
    case Look(outcome) =>
      var k := FirstAwaiting(s.jobs, 0);
      if s.phase.Looping? && k < |s.jobs| {
        ActCompletes(cfg, s, k, outcome, i);
      }
    case _ =>
  }

  // ---------------------------------------------------------------------------------------
  // Every run

  /** At every point of an observed run each completed job is accepted at that time. */
  lemma {:induction false} CompletedJobsAreAccepted(
    cfg: Config, planned: seq<Job>, events: seq<Event>, worlds: seq<World>, dayOf: int -> int, i: nat)
    requires Plan(planned) && Observed(cfg, planned, events, worlds, dayOf)
    requires i < |Run(cfg, Start(planned), events).jobs| && Run(cfg, Start(planned), events).jobs[i].status.Completed?
    ensures AcceptedIn(Run(cfg, Start(planned), events).jobs[i], worlds[|events|], dayOf)
    decreases |events|
  {
    if events != [] {
      var front, e := events[..|events| - 1], events[|events| - 1];
      var s := Run(cfg, Start(planned), front);
      StepCompletes(cfg, s, e, i);
      if s.jobs[i].status.Completed? {
        CompletedJobsAreAccepted(cfg, planned, front, worlds[..|events|], dayOf, i);
        UndisturbedAccepted(s.jobs[i], worlds[|events| - 1], worlds[|events|], dayOf);
      }
    }
  }

  /** When the campaign completes, each planned cell lies in exactly one job that is not superseded, and
      its code is stored over that job's days with exactly the keys that were sent for it. */
  lemma CompletedCampaignIsStored(
    cfg: Config, planned: seq<Job>, events: seq<Event>, worlds: seq<World>, dayOf: int -> int,
    outcome: Outcome, code: string, day: int)
    returns (i: nat)
    requires Plan(planned) && Covered(planned, code, day) && Observed(cfg, planned, events, worlds, dayOf)
    requires var s := Run(cfg, Start(planned), events);
             s.phase.Looping? && Step(cfg, s, Look(outcome)).status.Done?
    ensures var s := Run(cfg, Start(planned), events);
            && i < |s.jobs| && InJob(s.jobs[i], code, day) && s.jobs[i].status.Completed? && s.jobs[i].verifiedAt == s.version
            && (forall j :: 0 <= j < |s.jobs| && Live(s.jobs[j]) && InJob(s.jobs[j], code, day) ==> j == i)
            && AcceptedIn(s.jobs[i], worlds[|events|], dayOf)
            && SameKeys(MillisOf(TimesIn(worlds[|events|].rows, WindowOf(s.jobs[i]), dayOf, code)),
                        SentTimes(AllRecords(worlds[|events|].audits(IdOf(s.jobs[i])).manifest), code))
  {
    i := CompletedMeansVerified(cfg, planned, events, outcome, code, day);
    CompletedJobsAreAccepted(cfg, planned, events, worlds, dayOf, i);
  }
}
