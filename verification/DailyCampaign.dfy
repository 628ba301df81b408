/**
  The daily campaign: its ledger, the steps of the driver that may stop and start again at any
  point, and what holds of every run.
 */
module DailyCampaign {
  import opened Calendar
  import opened DailyJobs
  import opened DailyTiling

  datatype CampaignStatus = CampaignRunning | Paused | Done | Failed | Error

  /** Where the driver is: not running, recovering, re-verification queued, or in its main loop. */
  datatype Phase = Stopped | Booting | Queued | Looping

  datatype Config = Config(splitFailures: bool, maxSplitDepth: int, maxTotalJobs: int)

  datatype Ledger = Ledger(jobs: seq<Job>, status: CampaignStatus, phase: Phase, version: nat)

  /** What a poll of a job's flow answers. */
  datatype Poll =
    | StillRuns
    | GivesUp
    | PollRaises
    | RunVanished(giveUp: bool)
    | VanishedAudited(passed: bool)
    | FlowEnded(completed: bool, passed: bool)

  /** What the outside world answers in one turn of the main loop. */
  datatype Outcome =
    | Waits
    | Pauses
    | Raises
    | Reconciled(passed: bool)          // an earlier request was complete; was it verified?
    | ReadOnlyRefused                   // a re-verification found no completed request
    | Submitted(first: Poll)            // submitted, and polled in the same turn
    | Polled(poll: Poll)

  datatype Event =
    | Boot(version: nat, retry: bool)
    | RetryIngestion(passed: bool)
    | QueueOutdated
    | Begin
    | Look(outcome: Outcome)
    | Crash

  predicate Awaits(j: Job) {
    j.status.Pending? || j.status.Running? || j.status.VerificationPending?
  }

  predicate Resolved(j: Job) {
    j.status.Completed? || j.status.Superseded?
  }

  /** Index of the first job from `from` on that the loop still has to work on, or the length. */
  function FirstAwaiting(jobs: seq<Job>, from: nat): (k: nat)
    requires from <= |jobs|
    ensures from <= k <= |jobs|
    ensures forall i :: from <= i < k ==> !Awaits(jobs[i])
    ensures k < |jobs| ==> Awaits(jobs[k])
    decreases |jobs| - from
  {
    if from == |jobs| || Awaits(jobs[from]) then from else FirstAwaiting(jobs, from + 1)
  }

  function FirstFailed(jobs: seq<Job>, from: nat): (k: nat)
    requires from <= |jobs|
    ensures from <= k <= |jobs|
    ensures forall i :: from <= i < k ==> !jobs[i].status.FlowFailed?
    ensures k < |jobs| ==> jobs[k].status.FlowFailed?
    decreases |jobs| - from
  {
    if from == |jobs| || jobs[from].status.FlowFailed? then from else FirstFailed(jobs, from + 1)
  }

  predicate AllResolved(jobs: seq<Job>) {
    forall i :: 0 <= i < |jobs| ==> Resolved(jobs[i])
  }

  function RequeueOne(j: Job, version: nat): Job {
    if j.status.Completed? && j.verifiedAt < version
    then j.(status := VerificationPending, verificationOnly := true)
    else j
  }

  function Requeued(jobs: seq<Job>, version: nat): (after: seq<Job>)
    ensures |after| == |jobs| && forall i :: 0 <= i < |jobs| ==> after[i] == RequeueOne(jobs[i], version)
  {
    seq(|jobs|, i requires 0 <= i < |jobs| => RequeueOne(jobs[i], version))
  }

  predicate CanSplit(cfg: Config, jobs: seq<Job>, k: nat)
    requires k < |jobs|
  {
    && jobs[k].attempt < cfg.maxSplitDepth
    && Halves(jobs[k]) != []
    && |jobs| + |Halves(jobs[k])| <= cfg.maxTotalJobs
  }

  // ---------------------------------------------------------------------------------------
  // Steps

  function Set(s: Ledger, k: nat, j: Job): Ledger
    requires k < |s.jobs|
  {
    s.(jobs := s.jobs[k := j])
  }

  function Stop(s: Ledger, status: CampaignStatus): Ledger {
    s.(status := status, phase := Stopped)
  }

  function Verified(j: Job, version: nat): Job {
    j.(status := Completed, verifiedAt := version, verificationOnly := false)
  }

  function Unverified(j: Job): Job {
    j.(status := VerificationFailed, verifiedAt := 0)
  }

  /** A flow that ended without a verified result is split, or the campaign pauses. */
  function SplitOrPause(cfg: Config, s: Ledger, k: nat): Ledger
    requires k < |s.jobs|
  {
    if cfg.splitFailures && s.jobs[k].children != [] then Set(s, k, s.jobs[k].(status := Superseded))
    else if cfg.splitFailures && CanSplit(cfg, s.jobs, k) then s.(jobs := Divided(s.jobs, k))
    else Stop(s, Paused)
  }

  /** Poll the flow of a running job. */
  function ActPoll(cfg: Config, s: Ledger, k: nat, poll: Poll): Ledger
    requires k < |s.jobs|
  {
    var j := s.jobs[k];
    match poll
    case StillRuns => s
    case GivesUp => Stop(s, Paused)
    case PollRaises => Stop(s, Error)
    case RunVanished(giveUp) =>
      var again := Set(s, k, j.(status := Pending));
      if giveUp then Stop(again, Paused) else again
    case VanishedAudited(passed) =>
      if passed then Set(s, k, j.(status := Completed, verifiedAt := s.version))
      else Stop(Set(s, k, j.(verifiedAt := 0)), Paused)
    case FlowEnded(completed, passed) =>
      if completed && passed then Set(s, k, j.(status := Completed, verifiedAt := s.version))
      else SplitOrPause(cfg, Set(s, k, Failure(j, completed)), k)
  }

  /** A job whose flow ended without a verified result. */
  function Failure(j: Job, completed: bool): Job {
    if completed then Unverified(j) else j.(status := FlowFailed)
  }

  /** The submission of job k is written. */
  function Submit(s: Ledger, k: nat): Ledger
    requires k < |s.jobs|
  {
    Set(s, k, s.jobs[k].(status := Running))
  }

  function Act(cfg: Config, s: Ledger, k: nat, outcome: Outcome): Ledger
    requires k < |s.jobs|
  {
    var j := s.jobs[k];
    match outcome
    case Waits => s
    case Pauses => Stop(s, Paused)
    case Raises => Stop(s, Error)
    case Reconciled(passed) =>
      if j.status.Running? then s
      else if passed then Set(s, k, Verified(j, s.version))
      else Stop(Set(s, k, Unverified(j)), Paused)
    case ReadOnlyRefused =>
      if j.status.Running? || !j.verificationOnly then s
      else Stop(Set(s, k, j.(status := VerificationFailed)), Paused)
    case Submitted(first) =>
      if j.status.Running? || j.verificationOnly then s else ActPoll(cfg, Submit(s, k), k, first)
    case Polled(poll) =>
      if !j.status.Running? then s else ActPoll(cfg, s, k, poll)
  }

  function Finish(s: Ledger): Ledger {
    Stop(s, if AllResolved(s.jobs) then Done else Failed)
  }

  function BootStep(s: Ledger, version: nat, retry: bool): Ledger {
    if !s.phase.Stopped? || version < s.version || version == 0 then s
    else
      var t := s.(version := version);
      if exists i :: 0 <= i < |s.jobs| && s.jobs[i].status.VerificationFailed? then Stop(t, Paused)
      else if (FirstFailed(s.jobs, 0) < |s.jobs|) != retry then Stop(t, Paused)
      else t.(phase := Booting)
  }

  function RetryStep(s: Ledger, passed: bool): Ledger {
    var k := FirstFailed(s.jobs, 0);
    if !s.phase.Booting? || k == |s.jobs| then s
    else if passed then Set(s, k, s.jobs[k].(status := Completed, verifiedAt := s.version))
    else Stop(Set(s, k, s.jobs[k].(verifiedAt := 0)), Paused)
  }

  function QueueStep(s: Ledger): Ledger {
    if !s.phase.Booting? || FirstFailed(s.jobs, 0) < |s.jobs| then s
    else s.(jobs := Requeued(s.jobs, s.version), phase := Queued)
  }

  function BeginStep(s: Ledger): Ledger {
    if s.phase.Queued? then s.(status := CampaignRunning, phase := Looping) else s
  }

  function LookStep(cfg: Config, s: Ledger, outcome: Outcome): Ledger {
    if !s.phase.Looping? then s
    else
      var k := FirstAwaiting(s.jobs, 0);
      if k == |s.jobs| then Finish(s) else Act(cfg, s, k, outcome)
  }

  function Step(cfg: Config, s: Ledger, e: Event): Ledger {
    match e
    case Boot(version, retry) => BootStep(s, version, retry)
    case RetryIngestion(passed) => RetryStep(s, passed)
    case QueueOutdated => QueueStep(s)
    case Begin => BeginStep(s)
    case Look(outcome) => LookStep(cfg, s, outcome)
    case Crash => s.(phase := Stopped)
  }

  function Run(cfg: Config, s: Ledger, events: seq<Event>): Ledger
    decreases |events|
  {
    if events == [] then s else Step(cfg, Run(cfg, s, events[..|events| - 1]), events[|events| - 1])
  }

  function Start(planned: seq<Job>): Ledger {
    Ledger(planned, CampaignRunning, Stopped, 0)
  }

  // ---------------------------------------------------------------------------------------
  // The driver

  class Driver {
    const cfg: Config
    ghost const planned: seq<Job>
    var jobs: seq<Job>
    var status: CampaignStatus
    var phase: Phase
    var version: nat

    function State(): Ledger
      reads this
    {
      Ledger(jobs, status, phase, version)
    }

    ghost predicate Valid()
      reads this
    {
      Tiling(jobs, planned)
    }

    constructor (cfg: Config, planned: seq<Job>)
      requires PairwiseDisjoint(planned)
      requires forall i :: 0 <= i < |planned| ==> Rectangle(planned[i]) && Initial(planned[i])
      ensures State() == Start(planned) && this.cfg == cfg && this.planned == planned && Valid()
    {
      this.cfg := cfg;
      this.planned := planned;
      jobs, status, phase, version := planned, CampaignRunning, Stopped, 0;
      InitialTiling(planned);
    }

    method NextJob() returns (k: nat)
      ensures k == FirstAwaiting(jobs, 0)
    {
      k := 0;
      while k < |jobs| && !Awaits(jobs[k])
        invariant k <= |jobs|
        invariant FirstAwaiting(jobs, 0) == FirstAwaiting(jobs, k)
      {
        k := k + 1;
      }
    }

    method Unresolved() returns (any: bool)
      ensures any <==> !AllResolved(jobs)
    {
      any := false;
      var i := 0;
      while i < |jobs|
        invariant 0 <= i <= |jobs|
        invariant any <==> exists m :: 0 <= m < i && !Resolved(jobs[m])
      {
        if !Resolved(jobs[i]) {
          any := true;
        }
        i := i + 1;
      }
    }

    /** One turn of the main loop, given what the outside answers. */
    method Turn(outcome: Outcome)
      requires Valid() && phase.Looping?
      modifies this`jobs, this`status, this`phase
      ensures State() == LookStep(cfg, old(State()), outcome)
    {
      var k := NextJob();
      if k == |jobs| {
        Close();
      } else {
        WorkOn(k, outcome);
      }
    }

    /** No job is left to work on: the campaign has completed or failed. */
    method Close()
      modifies this`status, this`phase
      ensures State() == Finish(old(State()))
    {
      var any := Unresolved();
      status, phase := if any then Failed else Done, Stopped;
    }

    method WorkOn(k: nat, outcome: Outcome)
      requires Valid() && k < |jobs| && Awaits(jobs[k])
      modifies this`jobs, this`status, this`phase
      ensures State() == Act(cfg, old(State()), k, outcome)
    {
      if outcome.Pauses? || outcome.Raises? {
        status, phase := if outcome.Pauses? then Paused else Error, Stopped;
      } else if !jobs[k].status.Running? {
        Dispatch(k, outcome);
      } else if outcome.Polled? {
        AwaitFlow(k, outcome.poll);
      }
    }

    /** The job is pending or waits for verification: reconcile it with an earlier request, or submit it
        and poll it at once. */
    method Dispatch(k: nat, outcome: Outcome)
      requires Valid() && !outcome.Pauses? && !outcome.Raises?
      requires k < |jobs| && Awaits(jobs[k]) && !jobs[k].status.Running?
      modifies this`jobs, this`status, this`phase
      ensures State() == Act(cfg, old(State()), k, outcome)
    {
      var j := jobs[k];
      match outcome
      case Reconciled(passed) =>
        if passed {
          jobs := jobs[k := Verified(j, version)];
        } else {
          jobs := jobs[k := Unverified(j)];
          status, phase := Paused, Stopped;
        }
      case ReadOnlyRefused =>
        if j.verificationOnly {
          jobs := jobs[k := j.(status := VerificationFailed)];
          status, phase := Paused, Stopped;
        }
      case Submitted(first) =>
        if !j.verificationOnly {
          OneRelabelled(jobs, k, j.(status := Running), planned);
          jobs := jobs[k := j.(status := Running)];
          AwaitFlow(k, first);
        }
      case _ =>
    }

    /** The job's flow runs: poll it, recover it when it vanished, or settle it when it ended. */
    method AwaitFlow(k: nat, poll: Poll)
      requires Valid() && k < |jobs| && jobs[k].status.Running?
      modifies this`jobs, this`status, this`phase
      ensures State() == ActPoll(cfg, old(State()), k, poll)
    {
      var j := jobs[k];
      match poll
      case GivesUp => status, phase := Paused, Stopped;
      case PollRaises => status, phase := Error, Stopped;
      case RunVanished(giveUp) =>
        jobs := jobs[k := j.(status := Pending)];
        if giveUp {
          status, phase := Paused, Stopped;
        }
      case VanishedAudited(passed) =>
        if passed {
          jobs := jobs[k := j.(status := Completed, verifiedAt := version)];
        } else {
          jobs := jobs[k := j.(verifiedAt := 0)];
          status, phase := Paused, Stopped;
        }
      case FlowEnded(completed, passed) => FlowEnded(k, completed, passed);
      case StillRuns =>
    }

    /** Give a failed job its two halves, dropping any whose id the ledger already has. */
    method AppendSplitChildren(k: nat) returns (ok: bool)
      requires Valid() && k < |jobs| && Live(jobs[k])
      modifies this`jobs
      ensures ok == CanSplit(cfg, old(jobs), k)
      ensures jobs == if ok then WithChildren(old(jobs), k) else old(jobs)
    {
      assert jobs[k].children == [];
      if jobs[k].children != [] {
        return true;
      }
      if jobs[k].attempt >= cfg.maxSplitDepth {
        return false;
      }
      var children := SplitJob(jobs[k]);
      if children == [] {
        return false;
      }
      if |jobs| + |children| > cfg.maxTotalJobs {
        return false;
      }
      var existing := Ids(jobs);
      ghost var before := jobs;
      jobs := jobs[k := jobs[k].(children := Ids(children))];
      var added: seq<Job> := [];
      var c := 0;
      while c < |children|
        invariant 0 <= c <= |children|
        invariant added == children[..c]
        invariant jobs == before[k := before[k].(children := Ids(children))]
      {
        HalvesAreNew(before, k, planned, children[c]);
        if IdOf(children[c]) !in existing {
          added := added + [children[c]];
        }
        c := c + 1;
      }
      assert children[..|children|] == children;
      jobs := jobs + added;
      assert jobs == WithChildren(before, k);
      ok := true;
    }

    method QueueOutdatedVerifications() returns (queued: nat)
      modifies this`jobs
      ensures jobs == Requeued(old(jobs), version)
      ensures queued > 0 <==> jobs != old(jobs)
    {
      queued := 0;
      ghost var before := jobs;
      var i := 0;
      while i < |jobs|
        invariant 0 <= i <= |jobs| && |jobs| == |before|
        invariant forall m :: 0 <= m < i ==> jobs[m] == RequeueOne(before[m], version)
        invariant forall m :: i <= m < |jobs| ==> jobs[m] == before[m]
        invariant queued == 0 ==> jobs == before
        invariant queued > 0 ==> exists m :: 0 <= m < i && jobs[m] != before[m]
      {
        var j := jobs[i];
        if j.status.Completed? && j.verifiedAt < version {
          jobs := jobs[i := j.(status := VerificationPending, verificationOnly := true)];
          assert jobs[i] != before[i];
          queued := queued + 1;
        }
        i := i + 1;
      }
    }

    /** A flow has ended: verify it, or split the job, or pause. */
    method FlowEnded(k: nat, completed: bool, passed: bool)
      requires Valid() && k < |jobs| && jobs[k].status.Running?
      modifies this`jobs, this`status, this`phase
      ensures State() == ActPoll(cfg, old(State()), k, Poll.FlowEnded(completed, passed))
    {
      var j := jobs[k];
      if completed && passed {
        jobs := jobs[k := j.(status := Completed, verifiedAt := version)];
        return;
      }
      ghost var before := jobs;
      jobs := jobs[k := Failure(j, completed)];
      OneRelabelled(before, k, jobs[k], planned);
      SplitOrPauseJob(k);
    }

    method SplitOrPauseJob(k: nat)
      requires Valid() && k < |jobs| && Live(jobs[k])
      modifies this`jobs, this`status, this`phase
      ensures State() == SplitOrPause(cfg, old(State()), k)
    {
      ghost var before := jobs;
      NoChildrenYet(jobs, planned, k);
      var split := false;
      if cfg.splitFailures {
        split := AppendSplitChildren(k);
      }
      if split {
        jobs := jobs[k := jobs[k].(status := Superseded)];
        assert jobs == Divided(before, k);
      } else {
        status, phase := Paused, Stopped;
      }
    }
  }

  lemma NoChildrenYet(jobs: seq<Job>, planned: seq<Job>, k: nat)
    requires Tiling(jobs, planned) && k < |jobs| && Live(jobs[k])
    ensures jobs[k].children == []
  {
  }

  lemma OneRelabelled(jobs: seq<Job>, k: nat, j: Job, planned: seq<Job>)
    requires Tiling(jobs, planned) && k < |jobs| && SameTile(jobs[k], j)
    ensures Tiling(jobs[k := j], planned)
  {
    RelabelKeepsTiling(jobs, jobs[k := j], planned);
  }

  // ---------------------------------------------------------------------------------------
  // What one step can do to the ledger

  /** A step relabels jobs in place or splits one live job within the limits. */
  ghost predicate Shapes(cfg: Config, before: seq<Job>, after: seq<Job>) {
    || Relabelled(before, after)
    || exists k, mid: seq<Job> :: SplitWithin(cfg, before, mid, after, k)
  }

  ghost predicate SplitWithin(cfg: Config, before: seq<Job>, mid: seq<Job>, after: seq<Job>, k: nat) {
    && Relabelled(before, mid) && k < |mid| && Live(mid[k]) && CanSplit(cfg, mid, k) && after == Divided(mid, k)
  }

  lemma OneSet(jobs: seq<Job>, k: nat, j: Job)
    requires k < |jobs| && SameTile(jobs[k], j)
    ensures Relabelled(jobs, jobs[k := j])
  {
  }

  /** The flow ended without a verified result. */
  predicate FailsNow(poll: Poll) {
    poll.FlowEnded? && !(poll.completed && poll.passed)
  }

  lemma PollShapes(cfg: Config, s: Ledger, k: nat, poll: Poll)
    requires k < |s.jobs| && s.jobs[k].status.Running? && s.jobs[k].children == []
    ensures Shapes(cfg, s.jobs, ActPoll(cfg, s, k, poll).jobs)
  {
    if FailsNow(poll) {
      var failed := Failure(s.jobs[k], poll.completed);
      var mid := s.jobs[k := failed];
      OneSet(s.jobs, k, failed);
      assert Set(s, k, failed).jobs == mid;
      if cfg.splitFailures && CanSplit(cfg, mid, k) {
        assert SplitWithin(cfg, s.jobs, mid, Divided(mid, k), k);
      }
    } else {
      PollRelabels(cfg, s, k, poll);
    }
  }

  lemma PollRelabels(cfg: Config, s: Ledger, k: nat, poll: Poll)
    requires k < |s.jobs| && s.jobs[k].status.Running? && !FailsNow(poll)
    ensures Relabelled(s.jobs, ActPoll(cfg, s, k, poll).jobs)
  {
  }

  /** Relabelling first leaves the shape of a step. */
  lemma ShapesAfterRelabel(cfg: Config, before: seq<Job>, mid: seq<Job>, after: seq<Job>)
    requires Relabelled(before, mid) && Shapes(cfg, mid, after)
    ensures Shapes(cfg, before, after)
  {
    if Relabelled(mid, after) {
      RelabelTwice(before, mid, after);
    } else {
      var k: nat, last: seq<Job> :| SplitWithin(cfg, mid, last, after, k);
      RelabelTwice(before, mid, last);
      assert SplitWithin(cfg, before, last, after, k);
    }
  }

  lemma RelabelTwice(a: seq<Job>, b: seq<Job>, c: seq<Job>)
    requires Relabelled(a, b) && Relabelled(b, c)
    ensures Relabelled(a, c)
  {
    forall i | 0 <= i < |a| ensures SameTile(a[i], c[i]) {
      assert SameTile(a[i], b[i]) && SameTile(b[i], c[i]);
    }
  }

  lemma ActShapes(cfg: Config, s: Ledger, k: nat, outcome: Outcome)
    requires k < |s.jobs| && Awaits(s.jobs[k]) && s.jobs[k].children == []
    ensures Shapes(cfg, s.jobs, Act(cfg, s, k, outcome).jobs)
  {
    match outcome
    case Submitted(first) =>
      if !s.jobs[k].status.Running? && !s.jobs[k].verificationOnly {
        OneSet(s.jobs, k, s.jobs[k].(status := Running));
        PollShapes(cfg, Submit(s, k), k, first);
        ShapesAfterRelabel(cfg, s.jobs, Submit(s, k).jobs, Act(cfg, s, k, outcome).jobs);
      }
    case Polled(poll) =>
      if s.jobs[k].status.Running? {
        PollShapes(cfg, s, k, poll);
      }
    case _ =>
  }

  lemma StepShapes(cfg: Config, s: Ledger, e: Event)
    requires Bookkept(s.jobs)
    ensures Shapes(cfg, s.jobs, Step(cfg, s, e).jobs)
  {
    match e
    case Look(outcome) =>
      var k := FirstAwaiting(s.jobs, 0);
      if s.phase.Looping? && k < |s.jobs| {
        ActShapes(cfg, s, k, outcome);
      }
    case _ =>
  }

  lemma ShapesKeepTiling(cfg: Config, before: seq<Job>, after: seq<Job>, planned: seq<Job>)
    requires Tiling(before, planned) && Shapes(cfg, before, after)
    ensures Tiling(after, planned)
  {
    if Relabelled(before, after) {
      RelabelKeepsTiling(before, after, planned);
    } else {
      var k: nat, mid: seq<Job> :| SplitWithin(cfg, before, mid, after, k);
      RelabelKeepsTiling(before, mid, planned);
      DividedSplits(mid, k);
      SplitKeepsTiling(mid, after, k, planned);
    }
  }

  // ---------------------------------------------------------------------------------------
  // Every run

  ghost predicate Plan(planned: seq<Job>) {
    PairwiseDisjoint(planned) && forall i :: 0 <= i < |planned| ==> Rectangle(planned[i]) && Initial(planned[i])
  }

  /** Built jobs are a plan exactly when the benchmark is not also listed as a stock. */
  lemma BuiltJobsPlan(jobs: seq<Job>, instruments: seq<Instrument>, windows: seq<Window>, benchmark: string, start: int, end: int)
    requires PlannedJobs(jobs, instruments, windows, benchmark) && Partitions(windows, start, end)
    ensures Plan(jobs) <==> BenchmarkApart(instruments, windows, benchmark)
  {
    InitialJobsDisjoint(jobs, instruments, windows, benchmark, start, end);
  }

  /** From the instruments to any point of a run: a cell is in a live job exactly when it was planned. */
  lemma PlannedCellsAlways(
    cfg: Config, jobs: seq<Job>, instruments: seq<Instrument>, windows: seq<Window>, benchmark: string, start: int, end: int,
    events: seq<Event>, code: string, day: int)
    requires PlannedJobs(jobs, instruments, windows, benchmark) && Partitions(windows, start, end)
    requires BenchmarkApart(instruments, windows, benchmark)
    ensures LiveCovered(Run(cfg, Start(jobs), events).jobs, code, day)
            <==> Planned(instruments, windows, benchmark, code, day)
  {
    BuiltJobsPlan(jobs, instruments, windows, benchmark, start, end);
    TilingAlways(cfg, jobs, events);
  }

  /** At every point of every run the jobs not superseded tile exactly the planned cells. */
  lemma {:induction false} TilingAlways(cfg: Config, planned: seq<Job>, events: seq<Event>)
    requires Plan(planned)
    ensures Tiling(Run(cfg, Start(planned), events).jobs, planned)
    decreases |events|
  {
    if events == [] {
      InitialTiling(planned);
    } else {
      var s := Run(cfg, Start(planned), events[..|events| - 1]);
      TilingAlways(cfg, planned, events[..|events| - 1]);
      StepShapes(cfg, s, events[|events| - 1]);
      ShapesKeepTiling(cfg, s.jobs, Step(cfg, s, events[|events| - 1]).jobs, planned);
    }
  }

  ghost predicate WithinLimits(cfg: Config, jobs: seq<Job>, planned: seq<Job>) {
    && (|jobs| <= |planned| || |jobs| <= cfg.maxTotalJobs)
    && forall i :: 0 <= i < |jobs| ==> jobs[i].attempt == 0 || jobs[i].attempt <= cfg.maxSplitDepth
  }

  lemma ShapesWithinLimits(cfg: Config, before: seq<Job>, after: seq<Job>, planned: seq<Job>)
    requires WithinLimits(cfg, before, planned) && Shapes(cfg, before, after)
    ensures WithinLimits(cfg, after, planned)
  {
    if Relabelled(before, after) {
      RelabelWithinLimits(cfg, before, after, planned);
    } else {
      var k: nat, mid: seq<Job> :| SplitWithin(cfg, before, mid, after, k);
      RelabelWithinLimits(cfg, before, mid, planned);
      SplitWithinLimits(cfg, mid, k, planned);
    }
  }

  lemma RelabelWithinLimits(cfg: Config, before: seq<Job>, after: seq<Job>, planned: seq<Job>)
    requires WithinLimits(cfg, before, planned) && Relabelled(before, after)
    ensures WithinLimits(cfg, after, planned)
  {
    forall i | 0 <= i < |after| ensures after[i].attempt == 0 || after[i].attempt <= cfg.maxSplitDepth {
      assert SameTile(before[i], after[i]);
    }
  }

  lemma SplitWithinLimits(cfg: Config, mid: seq<Job>, k: nat, planned: seq<Job>)
    requires WithinLimits(cfg, mid, planned) && k < |mid| && CanSplit(cfg, mid, k)
    ensures WithinLimits(cfg, Divided(mid, k), planned)
  {
    var after, halves := Divided(mid, k), Halves(mid[k]);
    assert forall i :: 0 <= i < |halves| ==> halves[i].attempt == mid[k].attempt + 1;
    forall i | 0 <= i < |after| ensures after[i].attempt == 0 || after[i].attempt <= cfg.maxSplitDepth {
      if i < |mid| {
        assert after[i].attempt == mid[i].attempt;
      } else {
        assert after[i] == halves[i - |mid|];
      }
    }
  }

  /** Split depth and number of jobs stay within their limits. */
  lemma {:induction false} LimitsAlways(cfg: Config, planned: seq<Job>, events: seq<Event>)
    requires Plan(planned)
    ensures WithinLimits(cfg, Run(cfg, Start(planned), events).jobs, planned)
    decreases |events|
  {
    if events != [] {
      var s := Run(cfg, Start(planned), events[..|events| - 1]);
      LimitsAlways(cfg, planned, events[..|events| - 1]);
      TilingAlways(cfg, planned, events[..|events| - 1]);
      StepShapes(cfg, s, events[|events| - 1]);
      ShapesWithinLimits(cfg, s.jobs, Step(cfg, s, events[|events| - 1]).jobs, planned);
    }
  }

  // ---------------------------------------------------------------------------------------
  // What a status means

  predicate JobSound(j: Job, version: nat, current: bool) {
    && j.verifiedAt <= version
    && (j.status.Completed? ==> 1 <= j.verifiedAt && !j.verificationOnly && (current ==> j.verifiedAt == version))
    && (j.status.VerificationPending? ==> 1 <= j.verifiedAt && j.verificationOnly)
    && (j.status.Pending? || j.status.Running? || j.status.FlowFailed? ==> !j.verificationOnly)
  }

  predicate Finished(j: Job) {
    j.status.Completed? || j.status.Superseded? || j.status.VerificationPending?
  }

  predicate Current(s: Ledger) {
    s.phase.Queued? || s.phase.Looping?
  }

  ghost predicate Sound(s: Ledger) {
    && (!s.phase.Stopped? ==> 1 <= s.version)
    && (s.phase.Looping? ==> s.status.CampaignRunning?)
    && (forall i :: 0 <= i < |s.jobs| ==> JobSound(s.jobs[i], s.version, Current(s)))
    && (s.status.Done? ==> forall i :: 0 <= i < |s.jobs| ==> Finished(s.jobs[i]))
  }

  lemma SoundOneSet(s: Ledger, k: nat, j: Job)
    requires Sound(s) && k < |s.jobs| && JobSound(j, s.version, Current(s)) && (s.status.Done? ==> Finished(j))
    ensures Sound(Set(s, k, j))
  {
  }

  lemma SoundStop(s: Ledger, status: CampaignStatus)
    requires Sound(s) && (status.Done? ==> AllResolved(s.jobs))
    ensures Sound(Stop(s, status))
  {
  }

  lemma SplitOrPauseSound(cfg: Config, s: Ledger, k: nat)
    requires Sound(s) && s.phase.Looping? && k < |s.jobs| && s.jobs[k].children == []
    ensures Sound(SplitOrPause(cfg, s, k))
  {
    if cfg.splitFailures && CanSplit(cfg, s.jobs, k) {
      DividedSound(s.jobs, k, s.version);
    } else {
      SoundStop(s, Paused);
    }
  }

  lemma DividedSound(jobs: seq<Job>, k: nat, version: nat)
    requires k < |jobs| && forall i :: 0 <= i < |jobs| ==> JobSound(jobs[i], version, true)
    ensures forall i :: 0 <= i < |Divided(jobs, k)| ==> JobSound(Divided(jobs, k)[i], version, true)
  {
    HalvesSound(jobs[k], version);
    var after := Divided(jobs, k);
    forall i | 0 <= i < |after| ensures JobSound(after[i], version, true) {
      if i < |jobs| {
        assert JobSound(jobs[i], version, true);
      } else {
        assert after[i] == Halves(jobs[k])[i - |jobs|];
      }
    }
  }

  lemma HalvesSound(j: Job, version: nat)
    ensures forall i :: 0 <= i < |Halves(j)| ==> JobSound(Halves(j)[i], version, true)
  {
  }

  lemma PollSound(cfg: Config, s: Ledger, k: nat, poll: Poll)
    requires Sound(s) && s.phase.Looping? && k < |s.jobs| && s.jobs[k].status.Running? && s.jobs[k].children == []
    ensures Sound(ActPoll(cfg, s, k, poll))
  {
    var j := s.jobs[k];
    assert JobSound(j, s.version, true);
    match poll
    case RunVanished(giveUp) => SoundOneSet(s, k, j.(status := Pending));
    case VanishedAudited(passed) =>
      SoundOneSet(s, k, if passed then j.(status := Completed, verifiedAt := s.version) else j.(verifiedAt := 0));
    case FlowEnded(completed, passed) =>
      if completed && passed {
        SoundOneSet(s, k, j.(status := Completed, verifiedAt := s.version));
      } else {
        SoundOneSet(s, k, Failure(j, completed));
        SplitOrPauseSound(cfg, Set(s, k, Failure(j, completed)), k);
      }
    case _ =>
  }

  lemma ActSound(cfg: Config, s: Ledger, k: nat, outcome: Outcome)
    requires Sound(s) && s.phase.Looping? && k < |s.jobs| && Awaits(s.jobs[k]) && s.jobs[k].children == []
    ensures Sound(Act(cfg, s, k, outcome))
  {
    var j := s.jobs[k];
    assert JobSound(j, s.version, true);
    match outcome
    case Reconciled(passed) => SoundOneSet(s, k, if passed then Verified(j, s.version) else Unverified(j));
    case ReadOnlyRefused => SoundOneSet(s, k, j.(status := VerificationFailed));
    case Submitted(first) =>
      if !j.status.Running? && !j.verificationOnly {
        SoundOneSet(s, k, j.(status := Running));
        PollSound(cfg, Submit(s, k), k, first);
      }
    case Polled(poll) =>
      if j.status.Running? {
        PollSound(cfg, s, k, poll);
      }
    case _ =>
  }

  lemma StepSound(cfg: Config, s: Ledger, e: Event)
    requires Sound(s) && Bookkept(s.jobs)
    ensures Sound(Step(cfg, s, e))
  {
    match e
    case Look(outcome) =>
      var k := FirstAwaiting(s.jobs, 0);
      if s.phase.Looping? && k < |s.jobs| {
        ActSound(cfg, s, k, outcome);
      }
    case RetryIngestion(passed) => RetrySound(s, passed);
    case _ =>
  }

  lemma RetrySound(s: Ledger, passed: bool)
    requires Sound(s)
    ensures Sound(RetryStep(s, passed))
  {
    var k := FirstFailed(s.jobs, 0);
    if s.phase.Booting? && k < |s.jobs| {
      assert JobSound(s.jobs[k], s.version, false);
      assert !s.status.Done?;
    }
  }

  lemma {:induction false} SoundAlways(cfg: Config, planned: seq<Job>, events: seq<Event>)
    requires Plan(planned)
    ensures Sound(Run(cfg, Start(planned), events))
    decreases |events|
  {
    if events != [] {
      SoundAlways(cfg, planned, events[..|events| - 1]);
      TilingAlways(cfg, planned, events[..|events| - 1]);
      StepSound(cfg, Run(cfg, Start(planned), events[..|events| - 1]), events[|events| - 1]);
    }
  }

  /** The loop reports completion exactly when every job not superseded is completed. */
  lemma CompletionExact(cfg: Config, planned: seq<Job>, events: seq<Event>, outcome: Outcome)
    requires Plan(planned) && Run(cfg, Start(planned), events).phase.Looping?
    ensures var s := Run(cfg, Start(planned), events);
            Step(cfg, s, Look(outcome)).status.Done?
            <==> forall i :: 0 <= i < |s.jobs| && Live(s.jobs[i]) ==> s.jobs[i].status.Completed?
  {
    var s := Run(cfg, Start(planned), events);
    SoundAlways(cfg, planned, events);
    var k := FirstAwaiting(s.jobs, 0);
    if k < |s.jobs| {
      ActIsNotDone(cfg, s, k, outcome);
      assert Live(s.jobs[k]) && !s.jobs[k].status.Completed?;
    }
  }

  lemma ActIsNotDone(cfg: Config, s: Ledger, k: nat, outcome: Outcome)
    requires k < |s.jobs| && !s.status.Done?
    ensures !Act(cfg, s, k, outcome).status.Done?
  {
  }

  /** Then each planned cell lies in one job that is not superseded, completed and verified at this version. */
  lemma CompletedMeansVerified(cfg: Config, planned: seq<Job>, events: seq<Event>, outcome: Outcome, code: string, day: int)
    returns (i: nat)
    requires Plan(planned) && Covered(planned, code, day)
    requires var s := Run(cfg, Start(planned), events);
             s.phase.Looping? && Step(cfg, s, Look(outcome)).status.Done?
    ensures var s := Run(cfg, Start(planned), events);
            && i < |s.jobs| && InJob(s.jobs[i], code, day)
            && s.jobs[i].status.Completed? && s.jobs[i].verifiedAt == s.version
            && forall j :: 0 <= j < |s.jobs| && Live(s.jobs[j]) && InJob(s.jobs[j], code, day) ==> j == i
  {
    var s := Run(cfg, Start(planned), events);
    TilingAlways(cfg, planned, events);
    SoundAlways(cfg, planned, events);
    CompletionExact(cfg, planned, events, outcome);
    i := ExactlyOneLiveJob(s.jobs, planned, code, day);
    assert JobSound(s.jobs[i], s.version, true);
  }

  /** While a ledger reads completed, each planned cell is in one job that passed some verification. */
  lemma DoneMeansOnceVerified(cfg: Config, planned: seq<Job>, events: seq<Event>, code: string, day: int) returns (i: nat)
    requires Plan(planned) && Covered(planned, code, day) && Run(cfg, Start(planned), events).status.Done?
    ensures var s := Run(cfg, Start(planned), events);
            && i < |s.jobs| && InJob(s.jobs[i], code, day) && 1 <= s.jobs[i].verifiedAt
            && (s.jobs[i].status.Completed? || s.jobs[i].status.VerificationPending?)
            && forall j :: 0 <= j < |s.jobs| && Live(s.jobs[j]) && InJob(s.jobs[j], code, day) ==> j == i
  {
    var s := Run(cfg, Start(planned), events);
    TilingAlways(cfg, planned, events);
    SoundAlways(cfg, planned, events);
    i := ExactlyOneLiveJob(s.jobs, planned, code, day);
    assert Finished(s.jobs[i]) && JobSound(s.jobs[i], s.version, Current(s));
  }

  /** A ledger can read completed while a job waits for re-verification: queueing it is written first. */
  lemma DoneWhileReverifying(cfg: Config, code: string, day: int) returns (planned: seq<Job>, events: seq<Event>)
    ensures Plan(planned)
    ensures var s := Run(cfg, Start(planned), events);
            s.status.Done? && |s.jobs| == 1 && s.jobs[0].status.VerificationPending?
  {
    var job := NewJob(Stocks, 0, [code], day, day, 0);
    planned := [job];
    var s0 := Start(planned);
    var booted := s0.(version := 1, phase := Booting);
    assert Requeued(planned, 1) == planned;
    var looping := booted.(phase := Looping);
    var done := looping.(jobs := [Verified(job, 1)]);
    var finished := done.(status := Done, phase := Stopped);
    var upgraded := finished.(version := 2, phase := Booting);
    events := [];
    events := Extend(cfg, s0, events, Boot(1, false), s0, booted);
    events := Extend(cfg, s0, events, QueueOutdated, booted, booted.(phase := Queued));
    events := Extend(cfg, s0, events, Begin, booted.(phase := Queued), looping);
    events := Extend(cfg, s0, events, Look(Reconciled(true)), looping, done);
    events := Extend(cfg, s0, events, Look(Waits), done, finished);
    events := Extend(cfg, s0, events, Boot(2, false), finished, upgraded);
    events := Extend(cfg, s0, events, QueueOutdated, upgraded, QueueStep(upgraded));
  }

  /** The driver, booting on a ledger that reads completed, finds a job verified under an older version. */
  predicate ReopensCompleted(s: Ledger, e: Event) {
    && s.status.Done? && e.QueueOutdated? && s.phase.Booting?
    && exists i :: 0 <= i < |s.jobs| && s.jobs[i].status.Completed? && s.jobs[i].verifiedAt < s.version
  }

  lemma QueueReopens(s: Ledger)
    requires s.phase.Booting? && AllResolved(s.jobs)
    ensures AllResolved(QueueStep(s).jobs)
            <==> !exists i :: 0 <= i < |s.jobs| && s.jobs[i].status.Completed? && s.jobs[i].verifiedAt < s.version
  {
    NoneFailed(s.jobs);
    var after := Requeued(s.jobs, s.version);
    forall i | 0 <= i < |s.jobs| ensures Resolved(after[i]) <==> !(s.jobs[i].status.Completed? && s.jobs[i].verifiedAt < s.version) {
      assert after[i] == RequeueOne(s.jobs[i], s.version);
    }
  }

  /** While a ledger goes on reading completed, exactly that event leaves a job unresolved in it. */
  lemma StaysResolvedExact(cfg: Config, planned: seq<Job>, events: seq<Event>, e: Event)
    requires Plan(planned)
    requires var s := Run(cfg, Start(planned), events);
             s.status.Done? && AllResolved(s.jobs) && Step(cfg, s, e).status.Done?
    ensures var s := Run(cfg, Start(planned), events);
            AllResolved(Step(cfg, s, e).jobs) <==> !ReopensCompleted(s, e)
  {
    SoundAlways(cfg, planned, events);
    ResolvedStep(cfg, Run(cfg, Start(planned), events), e);
  }

  lemma ResolvedStep(cfg: Config, s: Ledger, e: Event)
    requires Sound(s) && s.status.Done? && AllResolved(s.jobs) && Step(cfg, s, e).status.Done?
    ensures AllResolved(Step(cfg, s, e).jobs) <==> !ReopensCompleted(s, e)
  {
    match e
    case QueueOutdated =>
      if s.phase.Booting? {
        QueueReopens(s);
      }
    case RetryIngestion(passed) => NoneFailed(s.jobs);
    case _ =>
  }

  lemma NoneFailed(jobs: seq<Job>)
    requires AllResolved(jobs)
    ensures FirstFailed(jobs, 0) == |jobs|
  {
  }

  /** A ledger comes to read completed only when every job is resolved. */
  lemma BecomesDone(cfg: Config, s: Ledger, e: Event)
    requires Sound(s) && !s.status.Done? && Step(cfg, s, e).status.Done?
    ensures AllResolved(Step(cfg, s, e).jobs)
  {
    match e
    case Look(outcome) =>
      var k := FirstAwaiting(s.jobs, 0);
      if s.phase.Looping? && k < |s.jobs| {
        ActIsNotDone(cfg, s, k, outcome);
      }
    case _ =>
  }

  /** No event of the run reopens a completed ledger. */
  predicate NeverReopens(cfg: Config, planned: seq<Job>, events: seq<Event>)
    decreases |events|
  {
    events != [] ==>
      && NeverReopens(cfg, planned, events[..|events| - 1])
      && !ReopensCompleted(Run(cfg, Start(planned), events[..|events| - 1]), events[|events| - 1])
  }

  /** Then a ledger that reads completed has every job that is not superseded completed, at every moment. */
  lemma {:induction false} DoneMeansResolved(cfg: Config, planned: seq<Job>, events: seq<Event>)
    requires Plan(planned) && NeverReopens(cfg, planned, events)
    ensures Run(cfg, Start(planned), events).status.Done? ==> AllResolved(Run(cfg, Start(planned), events).jobs)
    decreases |events|
  {
    if events != [] {
      DoneMeansResolved(cfg, planned, events[..|events| - 1]);
      SoundAlways(cfg, planned, events[..|events| - 1]);
      ResolvedOneMore(cfg, Run(cfg, Start(planned), events[..|events| - 1]), events[|events| - 1]);
    }
  }

  lemma ResolvedOneMore(cfg: Config, s: Ledger, e: Event)
    requires Sound(s) && (s.status.Done? ==> AllResolved(s.jobs)) && !ReopensCompleted(s, e)
    ensures Step(cfg, s, e).status.Done? ==> AllResolved(Step(cfg, s, e).jobs)
  {
    if Step(cfg, s, e).status.Done? {
      if s.status.Done? {
        ResolvedStep(cfg, s, e);
      } else {
        BecomesDone(cfg, s, e);
      }
    }
  }

  lemma Extend(cfg: Config, s: Ledger, events: seq<Event>, e: Event, before: Ledger, after: Ledger) returns (more: seq<Event>)
    requires Run(cfg, s, events) == before && Step(cfg, before, e) == after
    ensures Run(cfg, s, more) == after
  {
    more := events + [e];
    RunsTo(cfg, s, events, e, before, after);
  }

  lemma RunsTo(cfg: Config, s: Ledger, events: seq<Event>, e: Event, before: Ledger, after: Ledger)
    requires Run(cfg, s, events) == before && Step(cfg, before, e) == after
    ensures Run(cfg, s, events + [e]) == after
  {
    assert (events + [e])[..|events|] == events;
  }

  // ---------------------------------------------------------------------------------------
  // Completed work is not requested again

  predicate Delivered(j: Job) {
    j.status.Completed? || j.status.VerificationPending? || j.status.VerificationFailed?
  }

  lemma DeliveredAct(cfg: Config, s: Ledger, k: nat, outcome: Outcome, i: nat)
    requires Sound(s) && k < |s.jobs| && Awaits(s.jobs[k]) && i < |s.jobs| && Delivered(s.jobs[i])
    ensures i < |Act(cfg, s, k, outcome).jobs| && Delivered(Act(cfg, s, k, outcome).jobs[i])
  {
    if i != k {
      ActTouchesOne(cfg, s, k, outcome, i);
    } else {
      assert JobSound(s.jobs[k], s.version, Current(s));
      ReverificationAct(cfg, s, k, outcome);
    }
  }

  lemma ActTouchesOne(cfg: Config, s: Ledger, k: nat, outcome: Outcome, i: nat)
    requires k < |s.jobs| && i < |s.jobs| && i != k
    ensures i < |Act(cfg, s, k, outcome).jobs| && Act(cfg, s, k, outcome).jobs[i] == s.jobs[i]
  {
    match outcome
    case Submitted(first) => PollTouchesOne(cfg, Submit(s, k), k, first, i);
    case Polled(poll) => PollTouchesOne(cfg, s, k, poll, i);
    case _ =>
  }

  lemma PollTouchesOne(cfg: Config, s: Ledger, k: nat, poll: Poll, i: nat)
    requires k < |s.jobs| && i < |s.jobs| && i != k
    ensures i < |ActPoll(cfg, s, k, poll).jobs| && ActPoll(cfg, s, k, poll).jobs[i] == s.jobs[i]
  {
  }

  /** A job that waits for re-verification only is completed, failed or left waiting. */
  lemma ReverificationAct(cfg: Config, s: Ledger, k: nat, outcome: Outcome)
    requires k < |s.jobs| && s.jobs[k].status.VerificationPending? && s.jobs[k].verificationOnly
    ensures k < |Act(cfg, s, k, outcome).jobs| && Delivered(Act(cfg, s, k, outcome).jobs[k])
  {
  }

  lemma DeliveredStep(cfg: Config, s: Ledger, e: Event, i: nat)
    requires Sound(s) && i < |s.jobs| && Delivered(s.jobs[i])
    ensures i < |Step(cfg, s, e).jobs| && Delivered(Step(cfg, s, e).jobs[i])
  {
    match e
    case Look(outcome) =>
      var k := FirstAwaiting(s.jobs, 0);
      if s.phase.Looping? && k < |s.jobs| {
        DeliveredAct(cfg, s, k, outcome, i);
      }
    case _ =>
  }

  /** A job once completed is never submitted, failed back to pending or split again, in any later run. */
  lemma CompletedStaysDelivered(cfg: Config, planned: seq<Job>, events: seq<Event>, more: seq<Event>, i: nat)
    requires Plan(planned)
    requires var s := Run(cfg, Start(planned), events); i < |s.jobs| && Delivered(s.jobs[i])
    ensures var t := Run(cfg, Start(planned), events + more); i < |t.jobs| && Delivered(t.jobs[i])
  {
    var holds := (es: seq<Event>) => DeliveredAt(cfg, planned, es, i);
    forall es: seq<Event>, e: Event | holds(es) ensures holds(es + [e]) {
      DeliveredOneMore(cfg, planned, es, e, i);
    }
    Onward(holds, events, more);
    assert holds(events + more);
  }

  predicate DeliveredAt(cfg: Config, planned: seq<Job>, events: seq<Event>, i: nat) {
    var s := Run(cfg, Start(planned), events);
    i < |s.jobs| && Delivered(s.jobs[i])
  }

  /** What every event keeps, any events keep. */
  lemma {:induction false} Onward(holds: seq<Event> -> bool, events: seq<Event>, more: seq<Event>)
    requires holds(events) && forall es: seq<Event>, e: Event :: holds(es) ==> holds(es + [e])
    ensures holds(events + more)
    decreases |more|
  {
    if more == [] {
      assert events + more == events;
    } else {
      Onward(holds, events, more[..|more| - 1]);
      assert events + more == events + more[..|more| - 1] + [more[|more| - 1]];
    }
  }

  lemma DeliveredOneMore(cfg: Config, planned: seq<Job>, events: seq<Event>, e: Event, i: nat)
    requires Plan(planned) && DeliveredAt(cfg, planned, events, i)
    ensures DeliveredAt(cfg, planned, events + [e], i)
  {
    var s := Run(cfg, Start(planned), events);
    SoundAlways(cfg, planned, events);
    DeliveredStep(cfg, s, e, i);
    RunsTo(cfg, Start(planned), events, e, s, Step(cfg, s, e));
  }
}
