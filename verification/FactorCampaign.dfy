/**
  The factor campaign: attempts, idempotency keys, limits and histories of its jobs, over every
  run of a driver that may stop and start again at any point.
 */
module FactorCampaign {
  import opened Prelude
  import Order = CodeOrder

  const RESELECT_AFTER := 3
  const STOP_AFTER := 9
  const VERIFICATION_STOP := 2
  const MAX_HISTORY := 50
  const MAX_BATCH := 500

  datatype JobStatus = Pending | Running | Waiting | Verifying | Completed | Failed

  datatype Job = Job(
    codes: seq<string>,
    status: JobStatus,
    attempt: nat,
    limit: Option<nat>,
    transientFailures: nat,
    verificationFailures: nat,
    lastError: bool,
    failureHistory: seq<nat>,            // attempts of requests that failed for good
    finalHistory: seq<nat>,              // attempts that failed the final verification
    finalPass: Option<nat>)              // the pass that last re-verified the job

  datatype CampaignStatus = CampaignRunning | Paused | Done | CampaignFailed

  datatype Ledger = Ledger(jobs: seq<Job>, status: CampaignStatus, looping: bool, maxAttempts: nat, pass: nat)

  /** The idempotency key of a job's request; the run key is fixed for a ledger. */
  datatype RequestKey = RequestKey(job: nat, attempt: nat)

  datatype Outcome =
    | Waits
    | Pauses
    | Stops
    | Issues                             // the request is issued under the current key
    | FlowRaises
    | FlowTimesOut
    | FlowFails
    | FlowCompletes
    | Verified(passed: bool)
    | Final(verdicts: nat -> bool)

  datatype Event = Start(retry: bool, maxAttempts: int) | Turn(outcome: Outcome) | Crash

  // ---------------------------------------------------------------------------------------
  // Steps

  predicate Open(j: Job) {
    j.status.Pending? || j.status.Running? || j.status.Waiting? || j.status.Verifying?
  }

  function FirstOpen(jobs: seq<Job>, from: nat): (k: nat)
    requires from <= |jobs|
    ensures from <= k <= |jobs|
    ensures forall i :: from <= i < k ==> !Open(jobs[i])
    ensures k < |jobs| ==> Open(jobs[k])
    decreases |jobs| - from
  {
    if from == |jobs| || Open(jobs[from]) then from else FirstOpen(jobs, from + 1)
  }

  /** The latest events, at most as many as are kept. */
  function Kept(history: seq<nat>): seq<nat> {
    if |history| > MAX_HISTORY then history[|history| - MAX_HISTORY..] else history
  }

  function Key(s: Ledger, k: nat): RequestKey
    requires k < |s.jobs|
  {
    RequestKey(k, s.jobs[k].attempt)
  }

  function Issued(j: Job, maxAttempts: nat): Job {
    j.(status := Running, limit := if j.limit.None? then Some(maxAttempts) else j.limit)
  }

  function AfterRaise(j: Job): Job {
    var count := j.transientFailures + 1;
    var noted := j.(transientFailures := count, lastError := true);
    if count >= STOP_AFTER then noted.(attempt := j.attempt + 1, status := Failed)
    else if count % RESELECT_AFTER == 0 then noted.(status := Pending)
    else noted.(status := Running)
  }

  function AfterFailure(j: Job, maxAttempts: nat): Job {
    var limit := if j.limit.Some? && j.limit.value > 0 then j.limit.value else maxAttempts;
    j.(transientFailures := 0, lastError := true, failureHistory := Kept(j.failureHistory + [j.attempt]),
       attempt := j.attempt + 1, status := if j.attempt + 1 >= limit then Failed else Pending)
  }

  function AfterUnverified(j: Job): Job {
    var count := j.verificationFailures + 1;
    var noted := j.(verificationFailures := count, lastError := true);
    if count >= VERIFICATION_STOP then noted.(attempt := j.attempt + 1, status := Failed) else noted
  }

  function AfterVerified(j: Job): Job {
    j.(status := Completed, lastError := false, verificationFailures := 0)
  }

  function AfterFinalFailure(j: Job): Job {
    j.(finalHistory := Kept(j.finalHistory + [j.attempt]), attempt := j.attempt + 1, status := Failed, lastError := true)
  }

  predicate ExplicitRetry(j: Job) {
    j.status.Failed? || (j.status.Verifying? && j.lastError)
  }

  function Retried(j: Job, maxAttempts: nat): Job {
    if !ExplicitRetry(j) then j
    else
      var next := j.attempt + if j.status.Verifying? then 1 else 0;
      j.(attempt := next, status := Pending, limit := Some(next + maxAttempts), transientFailures := 0, verificationFailures := 0)
  }

  function AllRetried(jobs: seq<Job>, maxAttempts: nat): (after: seq<Job>)
    ensures |after| == |jobs| && forall i :: 0 <= i < |jobs| ==> after[i] == Retried(jobs[i], maxAttempts)
  {
    seq(|jobs|, i requires 0 <= i < |jobs| => Retried(jobs[i], maxAttempts))
  }

  /** Re-verify the completed jobs from index i on, stopping at the first that fails. */
  function Reverified(jobs: seq<Job>, i: nat, verdicts: nat -> bool, pass: nat): (r: (seq<Job>, bool))
    requires i <= |jobs|
    ensures |r.0| == |jobs|
    decreases |jobs| - i
  {
    if i == |jobs| then (jobs, true)
    else if !jobs[i].status.Completed? then Reverified(jobs, i + 1, verdicts, pass)
    else if verdicts(i) then Reverified(jobs[i := jobs[i].(finalPass := Some(pass))], i + 1, verdicts, pass)
    else (jobs[i := AfterFinalFailure(jobs[i])], false)
  }

  predicate AllCompleted(jobs: seq<Job>) {
    forall i :: 0 <= i < |jobs| ==> jobs[i].status.Completed?
  }

  function Stop(s: Ledger, status: CampaignStatus): Ledger {
    s.(status := status, looping := false)
  }

  function Set(s: Ledger, k: nat, j: Job): Ledger
    requires k < |s.jobs|
  {
    s.(jobs := s.jobs[k := j])
  }

  function FinishStep(s: Ledger, verdicts: nat -> bool): Ledger {
    if !AllCompleted(s.jobs) then Stop(s, CampaignFailed)
    else
      var r := Reverified(s.jobs, 0, verdicts, s.pass + 1);
      Stop(s.(jobs := r.0, pass := s.pass + 1), if r.1 then Done else CampaignFailed)
  }

  function Act(s: Ledger, k: nat, outcome: Outcome): Ledger
    requires k < |s.jobs|
  {
    var j := s.jobs[k];
    match outcome
    case Waits => s
    case Pauses => Stop(s, Paused)
    case Stops => s.(looping := false)
    case Issues => if j.status.Verifying? then s else Set(s, k, Issued(j, s.maxAttempts))
    case FlowRaises =>
      if !j.status.Running? then s
      else if AfterRaise(j).status.Failed? then Stop(Set(s, k, AfterRaise(j)), CampaignFailed)
      else Set(s, k, AfterRaise(j))
    case FlowTimesOut =>
      if !j.status.Running? then s else Set(s, k, j.(status := Waiting, transientFailures := 0))
    case FlowFails =>
      if !j.status.Running? then s
      else if AfterFailure(j, s.maxAttempts).status.Failed? then Stop(Set(s, k, AfterFailure(j, s.maxAttempts)), CampaignFailed)
      else Set(s, k, AfterFailure(j, s.maxAttempts))
    case FlowCompletes =>
      if !j.status.Running? then s else Set(s, k, j.(status := Verifying, transientFailures := 0))
    case Verified(passed) =>
      if !j.status.Verifying? then s
      else if passed then Set(s, k, AfterVerified(j))
      else Stop(Set(s, k, AfterUnverified(j)), CampaignFailed)
    case Final(_) => s
  }

  function StartStep(s: Ledger, retry: bool, maxAttempts: int): Ledger {
    if s.looping || maxAttempts <= 0 then s
    else if !retry && exists i :: 0 <= i < |s.jobs| && s.jobs[i].status.Failed? then Stop(s, CampaignFailed)
    else s.(jobs := if retry then AllRetried(s.jobs, maxAttempts) else s.jobs,
            status := CampaignRunning, looping := true, maxAttempts := maxAttempts)
  }

  function TurnStep(s: Ledger, outcome: Outcome): Ledger {
    if !s.looping then s
    else
      var k := FirstOpen(s.jobs, 0);
      if k < |s.jobs| then Act(s, k, outcome)
      else if outcome.Final? then FinishStep(s, outcome.verdicts)
      else s
  }

  function Step(s: Ledger, e: Event): Ledger {
    match e
    case Start(retry, maxAttempts) => StartStep(s, retry, maxAttempts)
    case Turn(outcome) => TurnStep(s, outcome)
    case Crash => s.(looping := false)
  }

  function Run(s: Ledger, events: seq<Event>): Ledger
    decreases |events|
  {
    if events == [] then s else Step(Run(s, events[..|events| - 1]), events[|events| - 1])
  }

  // ---------------------------------------------------------------------------------------
  // The driver

  /** The code some entry stands for once trimmed and in upper case; blank entries stand for none. */
  ghost predicate Requested(codes: seq<string>, normalize: string -> string, code: string) {
    code != "" && exists i :: 0 <= i < |codes| && normalize(codes[i]) == code
  }

  /** The requested codes, sorted, each once. */
  method NormalizedCodes(codes: seq<string>, normalize: string -> string) returns (sorted: seq<string>)
    ensures Order.Ascending(sorted)
    ensures forall code :: code in sorted <==> Requested(codes, normalize, code)
  {
    sorted := [];
    var i := 0;
    while i < |codes|
      invariant 0 <= i <= |codes|
      invariant Order.Ascending(sorted)
      invariant forall code :: code in sorted <==> code != "" && exists k :: 0 <= k < i && normalize(codes[k]) == code
    {
      var code := normalize(codes[i]);
      if code != "" {
        Order.InsertCodeSorts(code, sorted);
        sorted := Order.InsertCode(code, sorted);
      }
      i := i + 1;
    }
  }

  /** Every job but the last holds a full batch. */
  ghost predicate FullBatches(jobs: seq<Job>, batchSize: int) {
    forall i :: 0 <= i < |jobs| ==> Fresh(jobs[i]) && 0 < |jobs[i].codes| <= batchSize && (i < |jobs| - 1 ==> |jobs[i].codes| == batchSize)
  }

  /** Cut the requested codes, sorted, into jobs. */
  method BuildJobs(codes: seq<string>, normalize: string -> string, batchSize: int) returns (r: Option<seq<Job>>)
    ensures r.Some? <==> 0 < batchSize <= MAX_BATCH
    ensures r.Some? ==> Order.Ascending(Concat(r.value)) && FullBatches(r.value, batchSize)
    ensures r.Some? ==> forall code :: code in Concat(r.value) <==> Requested(codes, normalize, code)
  {
    if batchSize <= 0 || batchSize > MAX_BATCH {
      return None;
    }
    var normalized := NormalizedCodes(codes, normalize);
    var jobs := CutJobs(normalized, batchSize);
    r := Some(jobs);
  }

  method CutJobs(codes: seq<string>, batchSize: int) returns (jobs: seq<Job>)
    requires 0 < batchSize
    ensures Concat(jobs) == codes && FullBatches(jobs, batchSize)
  {
    jobs := [];
    var offset := 0;
    while offset < |codes|
      invariant 0 <= offset <= |codes|
      invariant Concat(jobs) == codes[..offset] && FullBatches(jobs, batchSize)
      invariant offset < |codes| && jobs != [] ==> |jobs[|jobs| - 1].codes| == batchSize
      decreases |codes| - offset
    {
      var next := if offset + batchSize < |codes| then offset + batchSize else |codes|;
      var job := NewJob(codes[offset..next]);
      OneMoreJob(jobs, job);
      assert codes[..next] == codes[..offset] + codes[offset..next];
      jobs := jobs + [job];
      offset := next;
    }
    assert codes[..|codes|] == codes;
  }

  lemma OneMoreJob(jobs: seq<Job>, job: Job)
    ensures Concat(jobs + [job]) == Concat(jobs) + job.codes
  {
    assert (jobs + [job])[..|jobs|] == jobs;
  }

  function NewJob(codes: seq<string>): Job {
    Job(codes, Pending, 0, None, 0, 0, false, [], [], None)
  }

  predicate Fresh(j: Job) {
    j == NewJob(j.codes)
  }

  function Concat(jobs: seq<Job>): seq<string> {
    if jobs == [] then [] else Concat(jobs[..|jobs| - 1]) + jobs[|jobs| - 1].codes
  }

  class Driver {
    var jobs: seq<Job>
    var status: CampaignStatus
    var looping: bool
    var maxAttempts: nat
    var pass: nat

    function State(): Ledger
      reads this
    {
      Ledger(jobs, status, looping, maxAttempts, pass)
    }

    constructor (jobs: seq<Job>)
      ensures State() == Ledger(jobs, CampaignRunning, false, 0, 0)
    {
      this.jobs, status, looping, maxAttempts, pass := jobs, CampaignRunning, false, 0, 0;
    }

    method NextJob() returns (k: nat)
      ensures k == FirstOpen(jobs, 0)
    {
      k := 0;
      while k < |jobs| && !Open(jobs[k])
        invariant k <= |jobs|
        invariant FirstOpen(jobs, 0) == FirstOpen(jobs, k)
      {
        k := k + 1;
      }
    }

    /** Reopen failed jobs, and jobs whose verification failed once, under a new key and limit. */
    method RetryFailedJobs(attempts: nat) returns (retried: seq<nat>)
      requires attempts > 0
      modifies this`jobs
      ensures jobs == AllRetried(old(jobs), attempts)
      ensures forall i :: i in retried <==> 0 <= i < |old(jobs)| && ExplicitRetry(old(jobs)[i])
    {
      retried := [];
      ghost var before := jobs;
      var i := 0;
      while i < |jobs|
        invariant 0 <= i <= |jobs| && |jobs| == |before|
        invariant forall m :: 0 <= m < i ==> jobs[m] == Retried(before[m], attempts)
        invariant forall m :: i <= m < |jobs| ==> jobs[m] == before[m]
        invariant forall m :: m in retried <==> 0 <= m < i && ExplicitRetry(before[m])
      {
        var j := jobs[i];
        if j.status.Failed? || (j.status.Verifying? && j.lastError) {
          var next := j.attempt + if j.status.Verifying? then 1 else 0;
          jobs := jobs[i := j.(attempt := next, status := Pending, limit := Some(next + attempts),
                               transientFailures := 0, verificationFailures := 0)];
          retried := retried + [i];
        }
        i := i + 1;
      }
    }

    /** Prove every completed job again, immediately before the campaign completes. */
    method ReverifyCompletedJobs(verdicts: nat -> bool) returns (ok: bool)
      modifies this`jobs, this`pass
      ensures pass == old(pass) + 1
      ensures (jobs, ok) == Reverified(old(jobs), 0, verdicts, pass)
    {
      pass := pass + 1;
      ghost var before := jobs;
      ghost var stamp := pass;
      var i := 0;
      while i < |jobs|
        invariant 0 <= i <= |jobs| && pass == stamp
        invariant Reverified(jobs, i, verdicts, pass) == Reverified(before, 0, verdicts, pass)
      {
        var j := jobs[i];
        if j.status.Completed? {
          if !verdicts(i) {
            jobs := jobs[i := AfterFinalFailure(j)];
            return false;
          }
          jobs := jobs[i := j.(finalPass := Some(pass))];
        }
        i := i + 1;
      }
      ok := true;
    }

    method Incomplete() returns (any: bool)
      ensures any <==> !AllCompleted(jobs)
    {
      any := false;
      var i := 0;
      while i < |jobs|
        invariant 0 <= i <= |jobs|
        invariant any <==> exists m :: 0 <= m < i && !jobs[m].status.Completed?
      {
        any := any || !jobs[i].status.Completed?;
        i := i + 1;
      }
    }

    /** No job is open any more: fail, or re-verify all and complete. */
    method Finish(verdicts: nat -> bool)
      modifies this`jobs, this`pass, this`status, this`looping
      ensures State() == FinishStep(old(State()), verdicts)
    {
      var any := Incomplete();
      if any {
        status, looping := CampaignFailed, false;
        return;
      }
      var ok := ReverifyCompletedJobs(verdicts);
      status, looping := if ok then Done else CampaignFailed, false;
    }

    /** A request that failed for good: its attempt is recorded and never used again. */
    method RequestFailed(k: nat)
      requires k < |jobs| && jobs[k].status.Running?
      modifies this`jobs, this`status, this`looping
      ensures State() == Act(old(State()), k, FlowFails)
    {
      var j := jobs[k];
      var history := AppendHistory(j.failureHistory, j.attempt);
      j := j.(transientFailures := 0, lastError := true, failureHistory := history, attempt := j.attempt + 1);
      var limit := if j.limit.Some? && j.limit.value > 0 then j.limit.value else maxAttempts;
      if j.attempt >= limit {
        jobs := jobs[k := j.(status := Failed)];
        status, looping := CampaignFailed, false;
      } else {
        jobs := jobs[k := j.(status := Pending)];
      }
    }
  }

  ghost predicate IsSuffix(tail: seq<nat>, all: seq<nat>) {
    |tail| <= |all| && tail == all[|all| - |tail|..]
  }

  /** The new event is kept last, older ones are dropped from the front and only beyond the limit. */
  method AppendHistory(history: seq<nat>, event: nat) returns (kept: seq<nat>)
    ensures kept != [] && kept[|kept| - 1] == event
    ensures IsSuffix(kept, history + [event]) && |kept| <= MAX_HISTORY
    ensures |history| < MAX_HISTORY ==> kept == history + [event]
    ensures |history| >= MAX_HISTORY ==> |kept| == MAX_HISTORY
  {
    kept := history + [event];
    if |kept| > MAX_HISTORY {
      kept := kept[|kept| - MAX_HISTORY..];
    }
  }

  /** A history after events were appended to it one by one. */
  function Recorded(events: seq<nat>): seq<nat> {
    if events == [] then [] else Kept(Recorded(events[..|events| - 1]) + [events[|events| - 1]])
  }

  /** It always holds the latest events of all ever appended, all of them up to the limit. */
  lemma {:induction false} HistoryIsLatest(events: seq<nat>)
    ensures IsSuffix(Recorded(events), events)
    ensures |Recorded(events)| == if |events| <= MAX_HISTORY then |events| else MAX_HISTORY
    decreases |events|
  {
    if events != [] {
      var front, last := events[..|events| - 1], events[|events| - 1];
      HistoryIsLatest(front);
      assert events == front + [last];
    }
  }

  // ---------------------------------------------------------------------------------------
  // What every job keeps

  ghost predicate Ascending(history: seq<nat>, below: nat) {
    && (forall i, j :: 0 <= i < j < |history| ==> history[i] < history[j])
    && (forall i :: 0 <= i < |history| ==> history[i] < below)
  }

  ghost predicate JobSound(j: Job) {
    && Ascending(j.failureHistory, j.attempt) && |j.failureHistory| <= MAX_HISTORY
    && Ascending(j.finalHistory, j.attempt) && |j.finalHistory| <= MAX_HISTORY
    && (j.limit.None? ==> j.status.Pending? && j.attempt == 0)
    && (j.limit.Some? ==> j.attempt <= j.limit.value)
    && (j.limit.Some? && (Open(j) || j.status.Completed?) ==> j.attempt < j.limit.value)
    && (Open(j) ==> j.transientFailures < STOP_AFTER && j.verificationFailures < VERIFICATION_STOP)
  }

  lemma KeptAscending(history: seq<nat>, attempt: nat)
    requires Ascending(history, attempt) && |history| <= MAX_HISTORY
    ensures Ascending(Kept(history + [attempt]), attempt + 1) && |Kept(history + [attempt])| <= MAX_HISTORY
    ensures attempt in Kept(history + [attempt])
  {
    var all := history + [attempt];
    assert Kept(all)[|Kept(all)| - 1] == attempt;
  }

  lemma AfterFailureSound(j: Job, maxAttempts: nat)
    requires JobSound(j) && j.status.Running?
    ensures JobSound(AfterFailure(j, maxAttempts))
  {
    KeptAscending(j.failureHistory, j.attempt);
  }

  lemma AfterFinalFailureSound(j: Job)
    requires JobSound(j) && j.status.Completed?
    ensures JobSound(AfterFinalFailure(j))
  {
    KeptAscending(j.finalHistory, j.attempt);
  }

  /** What a run may have done to a job since: its codes stay, its attempt has not gone down. */
  predicate Later(a: Job, b: Job) {
    a.codes == b.codes && a.attempt <= b.attempt
  }

  ghost predicate Sound(s: Ledger) {
    && (s.looping ==> 0 < s.maxAttempts && s.status.CampaignRunning?)
    && (forall i :: 0 <= i < |s.jobs| ==> JobSound(s.jobs[i]))
    && (s.status.Done? ==> forall i :: 0 <= i < |s.jobs| ==> s.jobs[i].status.Completed? && s.jobs[i].finalPass == Some(s.pass))
  }

  ghost predicate AllLater(before: seq<Job>, after: seq<Job>) {
    |before| == |after| && forall i :: 0 <= i < |before| ==> Later(before[i], after[i])
  }

  ghost predicate AllSound(jobs: seq<Job>) {
    forall i :: 0 <= i < |jobs| ==> JobSound(jobs[i])
  }

  lemma {:induction false} ReverifiedSound(jobs: seq<Job>, i: nat, verdicts: nat -> bool, pass: nat)
    requires i <= |jobs| && AllSound(jobs)
    ensures var r := Reverified(jobs, i, verdicts, pass);
            AllLater(jobs, r.0) && AllSound(r.0)
    decreases |jobs| - i
  {
    if i < |jobs| {
      if !jobs[i].status.Completed? {
        ReverifiedSound(jobs, i + 1, verdicts, pass);
      } else if verdicts(i) {
        ReverifiedSound(jobs[i := jobs[i].(finalPass := Some(pass))], i + 1, verdicts, pass);
      } else {
        AfterFinalFailureSound(jobs[i]);
      }
    }
  }

  /** A pass succeeds exactly when every verdict is positive, and then every job carries its stamp. */
  lemma {:induction false} ReverifiedAll(jobs: seq<Job>, i: nat, verdicts: nat -> bool, pass: nat)
    requires i <= |jobs| && AllCompleted(jobs)
    requires forall m :: 0 <= m < i ==> jobs[m].finalPass == Some(pass)
    ensures var r := Reverified(jobs, i, verdicts, pass);
            && (r.1 <==> forall m :: i <= m < |jobs| ==> verdicts(m))
            && (r.1 ==> AllCompleted(r.0) && forall m :: 0 <= m < |jobs| ==> r.0[m].finalPass == Some(pass))
    decreases |jobs| - i
  {
    if i < |jobs| && verdicts(i) {
      ReverifiedAll(jobs[i := jobs[i].(finalPass := Some(pass))], i + 1, verdicts, pass);
    }
  }

  lemma SetSound(s: Ledger, k: nat, j: Job)
    requires Sound(s) && s.looping && k < |s.jobs| && JobSound(j) && Later(s.jobs[k], j)
    ensures Sound(Set(s, k, j)) && AllLater(s.jobs, Set(s, k, j).jobs)
    ensures Sound(Stop(Set(s, k, j), CampaignFailed))
  {
  }

  lemma ActSound(s: Ledger, k: nat, outcome: Outcome)
    requires Sound(s) && s.looping && k < |s.jobs| && Open(s.jobs[k])
    ensures Sound(Act(s, k, outcome)) && AllLater(s.jobs, Act(s, k, outcome).jobs)
  {
    var j := s.jobs[k];
    assert JobSound(j);
    match outcome
    case Issues => SetSound(s, k, if j.status.Verifying? then j else Issued(j, s.maxAttempts));
    case FlowRaises =>
      if j.status.Running? {
        SetSound(s, k, AfterRaise(j));
      }
    case FlowTimesOut => SetSound(s, k, if j.status.Running? then j.(status := Waiting, transientFailures := 0) else j);
    case FlowFails =>
      if j.status.Running? {
        AfterFailureSound(j, s.maxAttempts);
        SetSound(s, k, AfterFailure(j, s.maxAttempts));
      }
    case FlowCompletes => SetSound(s, k, if j.status.Running? then j.(status := Verifying, transientFailures := 0) else j);
    case Verified(passed) =>
      if j.status.Verifying? {
        SetSound(s, k, if passed then AfterVerified(j) else AfterUnverified(j));
      }
    case _ =>
  }

  lemma StepSound(s: Ledger, e: Event)
    requires Sound(s)
    ensures Sound(Step(s, e)) && AllLater(s.jobs, Step(s, e).jobs)
  {
    match e
    case Turn(outcome) =>
      var k := FirstOpen(s.jobs, 0);
      if s.looping && k < |s.jobs| {
        ActSound(s, k, outcome);
      } else if s.looping && outcome.Final? && AllCompleted(s.jobs) {
        ReverifiedSound(s.jobs, 0, outcome.verdicts, s.pass + 1);
        ReverifiedAll(s.jobs, 0, outcome.verdicts, s.pass + 1);
      }
    case Start(retry, maxAttempts) =>
      StartSound(s, retry, maxAttempts);
    case _ =>
  }

  lemma StartSound(s: Ledger, retry: bool, maxAttempts: int)
    requires Sound(s)
    ensures Sound(StartStep(s, retry, maxAttempts)) && AllLater(s.jobs, StartStep(s, retry, maxAttempts).jobs)
  {
    if maxAttempts > 0 {
      forall i | 0 <= i < |s.jobs|
        ensures JobSound(Retried(s.jobs[i], maxAttempts)) && Later(s.jobs[i], Retried(s.jobs[i], maxAttempts))
      {
        assert JobSound(s.jobs[i]);
      }
    }
  }

  // ---------------------------------------------------------------------------------------
  // Every run

  ghost predicate Initial(s: Ledger) {
    s.status.CampaignRunning? && !s.looping && forall i :: 0 <= i < |s.jobs| ==> Fresh(s.jobs[i])
  }

  /** Histories below the attempt, limits respected, completion re-verified: at every point of every run. */
  lemma {:induction false} SoundAlways(s: Ledger, events: seq<Event>)
    requires Initial(s)
    ensures Sound(Run(s, events))
    decreases |events|
  {
    if events != [] {
      SoundAlways(s, events[..|events| - 1]);
      StepSound(Run(s, events[..|events| - 1]), events[|events| - 1]);
    }
  }

  lemma {:induction false} RunInParts(s: Ledger, events: seq<Event>, more: seq<Event>)
    ensures Run(s, events + more) == Run(Run(s, events), more)
    decreases |more|
  {
    if more == [] {
      assert events + more == events;
    } else {
      RunInParts(s, events, more[..|more| - 1]);
      assert (events + more)[..|events + more| - 1] == events + more[..|more| - 1];
      assert (events + more)[|events + more| - 1] == more[|more| - 1];
    }
  }

  /** No job's attempt ever goes down. */
  lemma {:induction false} AttemptsNeverDecrease(s: Ledger, events: seq<Event>, more: seq<Event>)
    requires Initial(s)
    ensures AllLater(Run(s, events).jobs, Run(s, events + more).jobs)
    decreases |more|
  {
    RunInParts(s, events, more);
    if more != [] {
      var earlier := more[..|more| - 1];
      AttemptsNeverDecrease(s, events, earlier);
      RunInParts(s, events, earlier);
      SoundAlways(s, events + earlier);
      StepSound(Run(s, events + earlier), more[|more| - 1]);
      assert Run(s, events + more) == Step(Run(s, events + earlier), more[|more| - 1]);
    }
  }

  /** A step that settles a job's request for good: a terminal failure, or a failed final verification. */
  ghost predicate FailsForGood(s: Ledger, e: Event, k: nat) {
    && k < |s.jobs| && k < |Step(s, e).jobs|
    && (|| s.jobs[k].failureHistory != Step(s, e).jobs[k].failureHistory
        || s.jobs[k].finalHistory != Step(s, e).jobs[k].finalHistory
        || (Step(s, e).jobs[k].status.Failed? && !s.jobs[k].status.Failed?))
  }

  lemma FailureAdvances(s: Ledger, e: Event, k: nat)
    requires Sound(s) && FailsForGood(s, e, k)
    ensures Step(s, e).jobs[k].attempt == s.jobs[k].attempt + 1
  {
    match e
    case Turn(outcome) =>
      var m := FirstOpen(s.jobs, 0);
      if s.looping && m < |s.jobs| {
        ActFailure(s, m, outcome, k);
      } else if s.looping && outcome.Final? && AllCompleted(s.jobs) {
        ReverifiedFailure(s.jobs, 0, outcome.verdicts, s.pass + 1, k);
      }
    case Start(retry, maxAttempts) =>
      StartUnfailed(s, retry, maxAttempts, k);
    case Crash =>
  }

  lemma StartUnfailed(s: Ledger, retry: bool, maxAttempts: int, k: nat)
    requires k < |s.jobs|
    ensures k < |StartStep(s, retry, maxAttempts).jobs|
    ensures Unfailed(s.jobs[k], StartStep(s, retry, maxAttempts).jobs[k])
  {
  }

  /** A job either keeps its histories and does not newly fail, or its attempt goes up by one. */
  predicate Unfailed(before: Job, after: Job) {
    && after.failureHistory == before.failureHistory && after.finalHistory == before.finalHistory
    && (after.status.Failed? ==> before.status.Failed?)
  }

  lemma ActFailure(s: Ledger, m: nat, outcome: Outcome, k: nat)
    requires m < |s.jobs| && k < |s.jobs|
    ensures k < |Act(s, m, outcome).jobs|
    ensures var after := Act(s, m, outcome).jobs[k];
            after.attempt == s.jobs[k].attempt + 1 || Unfailed(s.jobs[k], after)
  {
  }

  lemma {:induction false} ReverifiedFailure(jobs: seq<Job>, i: nat, verdicts: nat -> bool, pass: nat, k: nat)
    requires i <= |jobs| && k < |jobs|
    ensures var after := Reverified(jobs, i, verdicts, pass).0[k];
            || after.attempt == jobs[k].attempt + 1
            || (after.failureHistory == jobs[k].failureHistory && after.finalHistory == jobs[k].finalHistory
                && after.status == jobs[k].status)
    decreases |jobs| - i
  {
    if i < |jobs| {
      if !jobs[i].status.Completed? {
        ReverifiedFailure(jobs, i + 1, verdicts, pass, k);
      } else if verdicts(i) {
        ReverifiedFailure(jobs[i := jobs[i].(finalPass := Some(pass))], i + 1, verdicts, pass, k);
      }
    }
  }

  /** A key whose request failed for good is never the key of that job, or any job, again. */
  lemma FailedKeyIsNeverReissued(s: Ledger, events: seq<Event>, e: Event, more: seq<Event>, k: nat, m: nat)
    requires Initial(s) && FailsForGood(Run(s, events), e, k)
    requires m < |Run(s, events + [e] + more).jobs|
    ensures Key(Run(s, events + [e] + more), m) != Key(Run(s, events), k)
  {
    SoundAlways(s, events);
    FailureAdvances(Run(s, events), e, k);
    RunInParts(s, events, [e]);
    assert Run(Run(s, events), [e]) == Step(Run(s, events), e) by {
      assert [e][..0] == [];
    }
    AttemptsNeverDecrease(s, events + [e], more);
    if m == k {
      assert Later(Run(s, events + [e]).jobs[k], Run(s, events + [e] + more).jobs[k]);
    }
  }

  /** Completion is reported by exactly those passes that find every job completed and verify every one. */
  lemma CompletionExact(s: Ledger, events: seq<Event>, outcome: Outcome)
    requires Initial(s) && Run(s, events).looping
    ensures var t := Run(s, events);
            Step(t, Turn(outcome)).status.Done?
            <==> AllCompleted(t.jobs) && outcome.Final? && forall m :: 0 <= m < |t.jobs| ==> outcome.verdicts(m)
  {
    SoundAlways(s, events);
    TurnExact(Run(s, events), outcome);
  }

  lemma TurnExact(t: Ledger, outcome: Outcome)
    requires t.looping && t.status.CampaignRunning?
    ensures TurnStep(t, outcome).status.Done?
            <==> AllCompleted(t.jobs) && outcome.Final? && forall m :: 0 <= m < |t.jobs| ==> outcome.verdicts(m)
  {
    var k := FirstOpen(t.jobs, 0);
    if k < |t.jobs| {
      assert !t.jobs[k].status.Completed?;
    } else if outcome.Final? && AllCompleted(t.jobs) {
      ReverifiedAll(t.jobs, 0, outcome.verdicts, t.pass + 1);
    }
  }
}
