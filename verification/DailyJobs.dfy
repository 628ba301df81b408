/**
  Jobs of the daily backfill: rectangles of codes by days, how a campaign is cut into them and
  how a failed one is split.
 */
module DailyJobs {
  import opened Prelude
  import opened Calendar
  import opened CodeOrder

  datatype Base = Stocks | Benchmark

  datatype JobStatus =
    | Pending | Running | VerificationPending
    | Completed | VerificationFailed | FlowFailed | Superseded

  /** The job id carries kind, range and a digest of the codes; the digest is taken as injective. */
  datatype JobId = JobId(base: Base, retries: nat, first: int, last: int, codes: seq<string>)

  datatype Job = Job(
    base: Base,
    retries: nat,
    codes: seq<string>,
    first: int,
    last: int,
    status: JobStatus,
    attempt: nat,
    children: seq<JobId>,
    verifiedAt: nat,          // version of the last passing verification, 0 for none
    verificationOnly: bool)

  function IdOf(j: Job): JobId {
    JobId(j.base, j.retries, j.first, j.last, j.codes)
  }

  function NewJob(base: Base, retries: nat, codes: seq<string>, first: int, last: int, attempt: nat): Job {
    Job(base, retries, codes, first, last, Pending, attempt, [], 0, false)
  }

  /** A cell is one code on one day. */
  predicate InJob(j: Job, code: string, day: int) {
    code in j.codes && j.first <= day <= j.last
  }

  ghost predicate Disjoint(a: Job, b: Job) {
    forall code, day :: !(InJob(a, code, day) && InJob(b, code, day))
  }

  ghost predicate Distinct(codes: seq<string>) {
    forall i, j :: 0 <= i < j < |codes| ==> codes[i] != codes[j]
  }

  /** A rectangle with at least one cell and no code twice. */
  ghost predicate Rectangle(j: Job) {
    j.codes != [] && Distinct(j.codes) && j.first <= j.last
  }

  ghost predicate Covered(jobs: seq<Job>, code: string, day: int) {
    exists i :: 0 <= i < |jobs| && InJob(jobs[i], code, day)
  }

  ghost predicate PairwiseDisjoint(jobs: seq<Job>) {
    forall i, j :: 0 <= i < j < |jobs| ==> Disjoint(jobs[i], jobs[j])
  }

  // ---------------------------------------------------------------------------------------
  // Splitting

  function Child(j: Job, codes: seq<string>, first: int, last: int): Job {
    NewJob(j.base, j.retries + 1, codes, first, last, j.attempt + 1)
  }

  /** The halves of a rectangle: of its codes, else of its days, else none. */
  function Halves(j: Job): (children: seq<Job>) {
    if |j.codes| > 1 then
      var middle := |j.codes| / 2;
      [Child(j, j.codes[..middle], j.first, j.last), Child(j, j.codes[middle..], j.first, j.last)]
    else if j.first < j.last then
      var middle := j.first + (j.last - j.first) / 2;
      [Child(j, j.codes, j.first, middle), Child(j, j.codes, middle + 1, j.last)]
    else []
  }

  method SplitJob(j: Job) returns (children: seq<Job>)
    ensures children == Halves(j)
  {
    var groups: seq<seq<string>>, windows: seq<Window>;
    if |j.codes| > 1 {
      var middle := |j.codes| / 2;
      groups := [j.codes[..middle], j.codes[middle..]];
      windows := [Window(j.first, j.last), Window(j.first, j.last)];
    } else if j.first < j.last {
      var middle := j.first + (j.last - j.first) / 2;
      groups := [j.codes, j.codes];
      windows := [Window(j.first, middle), Window(middle + 1, j.last)];
    } else {
      return [];
    }
    children := [];
    var index := 0;
    while index < 2
      invariant 0 <= index <= 2
      invariant |children| == index
      invariant forall k :: 0 <= k < index ==> children[k] == Child(j, groups[k], windows[k].first, windows[k].last)
    {
      children := children + [Child(j, groups[index], windows[index].first, windows[index].last)];
      index := index + 1;
    }
  }

  /** Splitting partitions the cells; only a single cell cannot be split. */
  lemma HalvesPartition(j: Job)
    requires Rectangle(j)
    ensures Halves(j) == [] <==> |j.codes| == 1 && j.first == j.last
    ensures Halves(j) != [] ==> SplitsInto(j, Halves(j))
  {
    if |j.codes| > 1 {
      var middle := |j.codes| / 2;
      assert j.codes == j.codes[..middle] + j.codes[middle..];
      CutIsNew(j.codes, middle, |j.codes|);
      CutIsNew(j.codes, 0, middle);
      assert j.codes[0..middle] == j.codes[..middle];
      assert j.codes[middle..|j.codes|] == j.codes[middle..];
    }
  }

  /** Two fresh children of the next generation that partition the cells of their parent. */
  ghost predicate SplitsInto(parent: Job, children: seq<Job>) {
    && |children| == 2
    && (forall k :: 0 <= k < 2 ==>
          && Rectangle(children[k])
          && children[k].base == parent.base && children[k].retries == parent.retries + 1
          && children[k].attempt == parent.attempt + 1
          && children[k].status.Pending? && children[k].children == []
          && children[k].verifiedAt == 0 && !children[k].verificationOnly)
    && Disjoint(children[0], children[1])
    && (forall code, day :: InJob(parent, code, day) <==> InJob(children[0], code, day) || InJob(children[1], code, day))
  }

  // ---------------------------------------------------------------------------------------
  // Building the initial jobs

  datatype Instrument = Instrument(code: string, openDay: Option<int>, expireDay: Option<int>)

  /** Listed on at least one day of the window. */
  predicate ListedIn(i: Instrument, w: Window) {
    && (i.openDay.None? || i.openDay.value <= w.last)
    && (i.expireDay.None? || i.expireDay.value >= w.first)
  }

  ghost predicate ActiveCode(instruments: seq<Instrument>, w: Window, code: string) {
    exists i :: 0 <= i < |instruments| && instruments[i].code == code && ListedIn(instruments[i], w)
  }

  lemma ActiveCodePrefix(instruments: seq<Instrument>, w: Window, i: nat)
    requires i < |instruments|
    ensures forall code :: ActiveCode(instruments[..i + 1], w, code)
              <==> ActiveCode(instruments[..i], w, code) || (code == instruments[i].code && ListedIn(instruments[i], w))
  {
    var before, after := instruments[..i], instruments[..i + 1];
    assert after == before + [instruments[i]];
    forall code | ActiveCode(before, w, code) ensures ActiveCode(after, w, code) {
      var k :| 0 <= k < i && before[k].code == code && ListedIn(before[k], w);
      assert after[k] == before[k];
    }
    assert after[i] == instruments[i];
  }

  /** Codes listed in the window, sorted, each once. */
  method ActiveCodes(instruments: seq<Instrument>, w: Window) returns (codes: seq<string>)
    ensures Ascending(codes)
    ensures forall code :: code in codes <==> ActiveCode(instruments, w, code)
  {
    codes := [];
    var i := 0;
    while i < |instruments|
      invariant 0 <= i <= |instruments|
      invariant Ascending(codes)
      invariant forall code :: code in codes <==> ActiveCode(instruments[..i], w, code)
    {
      var item := instruments[i];
      if ListedIn(item, w) {
        InsertCodeSorts(item.code, codes);
        codes := InsertCode(item.code, codes);
      }
      ActiveCodePrefix(instruments, w, i);
      i := i + 1;
    }
    assert instruments[..|instruments|] == instruments;
  }

  lemma AscendingIsDistinct(codes: seq<string>)
    requires Ascending(codes)
    ensures Distinct(codes)
  {
    forall i, j | 0 <= i < j < |codes| ensures codes[i] != codes[j] {
      assert Precedes(codes[i], codes[j]);
    }
  }

  /** Batches of equal size in list order; only the last may be shorter. */
  function Batches(codes: seq<string>, w: Window, batchSize: nat): seq<Job>
    requires batchSize > 0
    decreases |codes|
  {
    if codes == [] then []
    else
      var n := if batchSize < |codes| then batchSize else |codes|;
      [NewJob(Stocks, 0, codes[..n], w.first, w.last, 0)] + Batches(codes[n..], w, batchSize)
  }

  /** Cut a code list into batches over one window. */
  method CutBatches(codes: seq<string>, w: Window, batchSize: nat) returns (jobs: seq<Job>)
    requires batchSize > 0
    ensures jobs == Batches(codes, w, batchSize)
  {
    jobs := [];
    var offset := 0;
    while offset < |codes|
      invariant 0 <= offset <= |codes|
      invariant jobs + Batches(codes[offset..], w, batchSize) == Batches(codes, w, batchSize)
      decreases |codes| - offset
    {
      var next := if offset + batchSize < |codes| then offset + batchSize else |codes|;
      FirstBatch(codes, offset, next, w, batchSize);
      jobs := jobs + [NewJob(Stocks, 0, codes[offset..next], w.first, w.last, 0)];
      offset := next;
    }
  }

  lemma FirstBatch(codes: seq<string>, offset: nat, next: nat, w: Window, batchSize: nat)
    requires batchSize > 0 && offset < |codes|
    requires next == if offset + batchSize < |codes| then offset + batchSize else |codes|
    ensures Batches(codes[offset..], w, batchSize)
         == [NewJob(Stocks, 0, codes[offset..next], w.first, w.last, 0)] + Batches(codes[next..], w, batchSize)
  {
    var rest := codes[offset..];
    assert codes[offset..next] == rest[..next - offset] && codes[next..] == rest[next - offset..];
  }

  /** What the batches of a window are to the plan. */
  ghost predicate BatchesFit(jobs: seq<Job>, codes: seq<string>, w: Window, batchSize: nat) {
    && PairwiseDisjoint(jobs)
    && (forall i :: 0 <= i < |jobs| ==>
          && Rectangle(jobs[i]) && Initial(jobs[i]) && jobs[i].base.Stocks?
          && jobs[i].first == w.first && jobs[i].last == w.last && |jobs[i].codes| <= batchSize)
    && (forall i, code :: 0 <= i < |jobs| && code in jobs[i].codes ==> code in codes)
    && (forall code :: code in codes ==> exists i :: 0 <= i < |jobs| && code in jobs[i].codes)
  }

  /** Batches are disjoint rectangles within the size that hold exactly the codes. */
  lemma {:induction false} BatchesFitWindow(codes: seq<string>, w: Window, batchSize: nat)
    requires batchSize > 0 && Distinct(codes) && w.first <= w.last
    ensures BatchesFit(Batches(codes, w, batchSize), codes, w, batchSize)
    decreases |codes|
  {
    if codes != [] {
      var n := if batchSize < |codes| then batchSize else |codes|;
      CutIsNew(codes, n, |codes|);
      CutIsNew(codes, 0, n);
      assert codes[n..|codes|] == codes[n..] && codes[0..n] == codes[..n];
      BatchesFitWindow(codes[n..], w, batchSize);
      OneMoreBatch(codes, n, w, batchSize);
    }
  }

  lemma OneMoreBatch(codes: seq<string>, n: nat, w: Window, batchSize: nat)
    requires 0 < n <= |codes| && n <= batchSize && Distinct(codes) && w.first <= w.last && Distinct(codes[..n])
    requires forall code :: code in codes[n..] ==> code !in codes[..n]
    requires BatchesFit(Batches(codes[n..], w, batchSize), codes[n..], w, batchSize)
    ensures BatchesFit([NewJob(Stocks, 0, codes[..n], w.first, w.last, 0)] + Batches(codes[n..], w, batchSize), codes, w, batchSize)
  {
    var job, rest := NewJob(Stocks, 0, codes[..n], w.first, w.last, 0), Batches(codes[n..], w, batchSize);
    var jobs := [job] + rest;
    assert codes == codes[..n] + codes[n..];
    assert forall i :: 1 <= i < |jobs| ==> jobs[i] == rest[i - 1];
    forall i, j | 0 <= i < j < |jobs| ensures Disjoint(jobs[i], jobs[j]) {
      if i > 0 {
        assert Disjoint(rest[i - 1], rest[j - 1]);
      } else {
        assert forall code :: code in rest[j - 1].codes ==> code in codes[n..];
      }
    }
    forall code | code in codes ensures exists i :: 0 <= i < |jobs| && code in jobs[i].codes {
      if code in codes[n..] {
        var i :| 0 <= i < |rest| && code in rest[i].codes;
        assert jobs[i + 1] == rest[i];
      } else {
        assert code in jobs[0].codes;
      }
    }
  }

  /** Cut a code list into batches over one window: they cover exactly its codes by its days. */
  method BatchJobs(codes: seq<string>, w: Window, batchSize: nat) returns (jobs: seq<Job>)
    requires batchSize > 0 && Distinct(codes) && w.first <= w.last
    ensures jobs == Batches(codes, w, batchSize) && PairwiseDisjoint(jobs)
    ensures forall i :: 0 <= i < |jobs| ==>
              && Rectangle(jobs[i]) && Initial(jobs[i]) && jobs[i].base.Stocks?
              && jobs[i].first == w.first && jobs[i].last == w.last && |jobs[i].codes| <= batchSize
    ensures forall code, day :: Covered(jobs, code, day) <==> code in codes && InWindow(w, day)
  {
    jobs := CutBatches(codes, w, batchSize);
    BatchesFitWindow(codes, w, batchSize);
    forall code, day ensures Covered(jobs, code, day) <==> code in codes && InWindow(w, day) {
      if code in codes && InWindow(w, day) {
        var i :| 0 <= i < |jobs| && code in jobs[i].codes;
        assert InJob(jobs[i], code, day);
      }
    }
  }

  predicate Initial(j: Job) {
    j.status.Pending? && j.attempt == 0 && j.retries == 0 && j.children == [] && j.verifiedAt == 0 && !j.verificationOnly
  }

  /** A later slice of a list without repetition shares nothing with the part before it. */
  lemma CutIsNew(codes: seq<string>, a: nat, b: nat)
    requires Distinct(codes) && a <= b <= |codes|
    ensures Distinct(codes[a..b])
    ensures forall code :: code in codes[a..b] ==> code !in codes[..a]
  {
  }

  datatype BuildError = BatchSizeInvalid | BatchSizeTooLarge | BadRange(error: DateError)

  const REQUEST_BATCH_LIMIT := 300

  /** What the jobs of one window cover: the codes listed in it and the benchmark. */
  ghost predicate Planned(instruments: seq<Instrument>, windows: seq<Window>, benchmark: string, code: string, day: int) {
    exists k :: 0 <= k < |windows| && InWindow(windows[k], day)
                && (ActiveCode(instruments, windows[k], code) || code == benchmark)
  }

  /** The benchmark trades apart from the stocks in every window. */
  ghost predicate BenchmarkApart(instruments: seq<Instrument>, windows: seq<Window>, benchmark: string) {
    forall k :: 0 <= k < |windows| ==> !ActiveCode(instruments, windows[k], benchmark)
  }

  /** Jobs of the same base never share a cell, whatever the instruments. */
  ghost predicate DisjointByBase(jobs: seq<Job>) {
    forall i, j :: 0 <= i < j < |jobs| && jobs[i].base == jobs[j].base ==> Disjoint(jobs[i], jobs[j])
  }

  /** Every window has its benchmark job. */
  ghost predicate BenchmarkInEach(jobs: seq<Job>, windows: seq<Window>) {
    forall k :: 0 <= k < |windows| ==> HasBenchmark(jobs, windows[k])
  }

  ghost predicate HasBenchmark(jobs: seq<Job>, w: Window) {
    exists i :: 0 <= i < |jobs| && jobs[i].base.Benchmark? && Window(jobs[i].first, jobs[i].last) == w
  }

  /** Every code listed in a window is in one of its stock batches. */
  ghost predicate StocksInEach(jobs: seq<Job>, instruments: seq<Instrument>, windows: seq<Window>) {
    forall k, code :: 0 <= k < |windows| && ActiveCode(instruments, windows[k], code) ==> HasStock(jobs, windows[k], code)
  }

  ghost predicate HasStock(jobs: seq<Job>, w: Window, code: string) {
    exists i :: 0 <= i < |jobs| && jobs[i].base.Stocks? && Window(jobs[i].first, jobs[i].last) == w && code in jobs[i].codes
  }

  /** A job spans one of the windows and, being a stock batch, holds only codes listed in it. */
  ghost predicate FitsWindow(j: Job, instruments: seq<Instrument>, windows: seq<Window>) {
    exists k :: 0 <= k < |windows| && windows[k] == Window(j.first, j.last) && (j.base.Stocks? ==> AllActive(j.codes, instruments, windows[k]))
  }

  ghost predicate AllActive(codes: seq<string>, instruments: seq<Instrument>, w: Window) {
    forall code :: code in codes ==> ActiveCode(instruments, w, code)
  }

  ghost predicate AllFit(jobs: seq<Job>, instruments: seq<Instrument>, windows: seq<Window>) {
    forall i :: 0 <= i < |jobs| ==> FitsWindow(jobs[i], instruments, windows)
  }

  ghost predicate Fresh(jobs: seq<Job>, benchmark: string) {
    forall i :: 0 <= i < |jobs| ==>
      Rectangle(jobs[i]) && Initial(jobs[i]) && (jobs[i].base.Benchmark? ==> jobs[i].codes == [benchmark])
  }

  ghost predicate PlannedJobs(jobs: seq<Job>, instruments: seq<Instrument>, windows: seq<Window>, benchmark: string) {
    && Fresh(jobs, benchmark)
    && AllFit(jobs, instruments, windows)
    && DisjointByBase(jobs)
    && BenchmarkInEach(jobs, windows) && StocksInEach(jobs, instruments, windows)
    && (forall code, day :: Covered(jobs, code, day) <==> Planned(instruments, windows, benchmark, code, day))
  }

  function BenchmarkJob(benchmark: string, w: Window): Job {
    NewJob(Benchmark, 0, [benchmark], w.first, w.last, 0)
  }

  /** The jobs of all windows: the batches of each window's codes, then its benchmark job. */
  function AllJobs(lists: seq<seq<string>>, windows: seq<Window>, batchSize: nat, benchmark: string): seq<Job>
    requires |lists| == |windows| && batchSize > 0
  {
    if windows == [] then []
    else
      var n := |windows| - 1;
      AllJobs(lists[..n], windows[..n], batchSize, benchmark) + Batches(lists[n], windows[n], batchSize)
      + [BenchmarkJob(benchmark, windows[n])]
  }

  /** For each window the sorted list of the codes listed in it. */
  ghost predicate ListsActive(lists: seq<seq<string>>, instruments: seq<Instrument>, windows: seq<Window>) {
    |lists| == |windows| && forall k :: 0 <= k < |lists| ==> ListsWindow(lists[k], instruments, windows[k])
  }

  ghost predicate ListsWindow(codes: seq<string>, instruments: seq<Instrument>, w: Window) {
    Ascending(codes) && forall code :: code in codes <==> ActiveCode(instruments, w, code)
  }

  /** Those lists, and with them the jobs, do not depend on the order of the instruments. */
  lemma ListsAreUnique(a: seq<seq<string>>, b: seq<seq<string>>, instruments: seq<Instrument>, shuffled: seq<Instrument>, windows: seq<Window>)
    requires ListsActive(a, instruments, windows) && ListsActive(b, shuffled, windows)
    requires multiset(instruments) == multiset(shuffled)
    ensures a == b
  {
    forall k | 0 <= k < |a| ensures a[k] == b[k] {
      assert ListsWindow(a[k], instruments, windows[k]) && ListsWindow(b[k], shuffled, windows[k]);
      forall code ensures code in a[k] <==> code in b[k] {
        SameActive(instruments, shuffled, windows[k], code);
        SameActive(shuffled, instruments, windows[k], code);
      }
      AscendingUnique(a[k], b[k]);
    }
  }

  lemma SameActive(instruments: seq<Instrument>, shuffled: seq<Instrument>, w: Window, code: string)
    requires multiset(instruments) == multiset(shuffled)
    ensures ActiveCode(instruments, w, code) ==> ActiveCode(shuffled, w, code)
  {
    if ActiveCode(instruments, w, code) {
      var i :| 0 <= i < |instruments| && instruments[i].code == code && ListedIn(instruments[i], w);
      assert instruments[i] in multiset(instruments);
      assert instruments[i] in shuffled;
      var j :| 0 <= j < |shuffled| && shuffled[j] == instruments[i];
    }
  }

  /** The instruments with their codes trimmed and in upper case, by whatever function does that. */
  function Named(instruments: seq<Instrument>, normalize: string -> string): seq<Instrument> {
    seq(|instruments|, i requires 0 <= i < |instruments| => instruments[i].(code := normalize(instruments[i].code)))
  }

  /** Stock batches and one benchmark job per calendar year. */
  method BuildJobs(
    raw: seq<Instrument>, normalize: string -> string, start: int, end: int, batchSize: int, benchmark: string)
    returns (r: Result<seq<Job>, BuildError>, windows: seq<Window>, ghost lists: seq<seq<string>>)
    requires IsDay(start) && IsDay(end)
    ensures r.Ok? <==> 0 < batchSize <= REQUEST_BATCH_LIMIT && start <= end < MAX_ORDINAL
    ensures r.Ok? ==> Partitions(windows, start, end) && UnitByUnit(windows, YearOf)
    ensures r.Ok? ==> PlannedJobs(r.value, Named(raw, normalize), windows, benchmark)
    ensures r.Ok? ==> ListsActive(lists, Named(raw, normalize), windows)
    ensures r.Ok? ==> r.value == AllJobs(lists, windows, batchSize, benchmark)
    ensures r.Ok? ==> Sized(r.value, batchSize)
  {
    windows, lists := [], [];
    if batchSize <= 0 {
      return Err(BatchSizeInvalid), windows, lists;
    }
    if batchSize > REQUEST_BATCH_LIMIT {
      return Err(BatchSizeTooLarge), windows, lists;
    }
    var instruments := Named(raw, normalize);
    var cut := AnnualWindows(start, end);
    if cut.Err? {
      return Err(BadRange(cut.error)), windows, lists;
    }
    windows := cut.value;
    var jobs;
    jobs, lists := BuildWindows(instruments, windows, batchSize, benchmark, start, end);
    r := Ok(jobs);
  }

  method BuildWindows(
    instruments: seq<Instrument>, windows: seq<Window>, batchSize: int, benchmark: string, ghost start: int, ghost end: int)
    returns (jobs: seq<Job>, ghost lists: seq<seq<string>>)
    requires Partitions(windows, start, end) && 0 < batchSize
    ensures PlannedJobs(jobs, instruments, windows, benchmark) && Sized(jobs, batchSize)
    ensures ListsActive(lists, instruments, windows) && jobs == AllJobs(lists, windows, batchSize, benchmark)
  {
    jobs, lists := [], [];
    var k := 0;
    while k < |windows|
      invariant 0 <= k <= |windows|
      invariant PlannedJobs(jobs, instruments, windows[..k], benchmark) && Sized(jobs, batchSize)
      invariant ListsActive(lists, instruments, windows[..k])
      invariant jobs == AllJobs(lists, windows[..k], batchSize, benchmark)
    {
      ghost var before := jobs;
      ghost var codes;
      jobs, codes := AddWindow(jobs, instruments, windows, k, batchSize, benchmark, start, end);
      ListsOneMore(lists, codes, instruments, windows, k, batchSize, benchmark);
      lists := lists + [codes];
      k := k + 1;
    }
    assert windows[..|windows|] == windows;
  }

  lemma ListsOneMore(
    lists: seq<seq<string>>, codes: seq<string>, instruments: seq<Instrument>, windows: seq<Window>, k: nat,
    batchSize: nat, benchmark: string)
    requires k < |windows| && batchSize > 0 && ListsActive(lists, instruments, windows[..k])
    requires ListsWindow(codes, instruments, windows[k])
    ensures ListsActive(lists + [codes], instruments, windows[..k + 1])
    ensures AllJobs(lists + [codes], windows[..k + 1], batchSize, benchmark)
         == AllJobs(lists, windows[..k], batchSize, benchmark) + Batches(codes, windows[k], batchSize) + [BenchmarkJob(benchmark, windows[k])]
  {
    assert windows[..k + 1][..k] == windows[..k] && (lists + [codes])[..k] == lists;
    forall m | 0 <= m < k + 1 ensures ListsWindow((lists + [codes])[m], instruments, windows[..k + 1][m]) {
      if m < k {
        assert ListsWindow(lists[m], instruments, windows[..k][m]);
      }
    }
  }

  ghost predicate Sized(jobs: seq<Job>, batchSize: int) {
    forall i :: 0 <= i < |jobs| ==> |jobs[i].codes| <= batchSize
  }

  /** Add the stock batches and the benchmark job of one more window. */
  method AddWindow(
    jobs: seq<Job>, instruments: seq<Instrument>, windows: seq<Window>, k: nat, batchSize: int, benchmark: string,
    ghost start: int, ghost end: int)
    returns (all: seq<Job>, codes: seq<string>)
    requires k < |windows| && Partitions(windows, start, end) && 0 < batchSize
    requires PlannedJobs(jobs, instruments, windows[..k], benchmark) && Sized(jobs, batchSize)
    ensures PlannedJobs(all, instruments, windows[..k + 1], benchmark) && Sized(all, batchSize)
    ensures ListsWindow(codes, instruments, windows[k])
    ensures all == jobs + Batches(codes, windows[k], batchSize) + [BenchmarkJob(benchmark, windows[k])]
  {
    WindowWithinRange(windows, start, end, k);
    codes := ActiveCodes(instruments, windows[k]);
    AscendingIsDistinct(codes);
    var batches := BatchJobs(codes, windows[k], batchSize);
    var bench := BenchmarkJob(benchmark, windows[k]);
    WindowPlanned(jobs, batches, bench, instruments, windows, k, benchmark, codes, start, end);
    all := jobs + batches + [bench];
  }

  /** The jobs added for one more window. */
  lemma WindowPlanned(
    jobs: seq<Job>, batches: seq<Job>, bench: Job, instruments: seq<Instrument>, windows: seq<Window>, k: nat,
    benchmark: string, codes: seq<string>, start: int, end: int)
    requires k < |windows| && Partitions(windows, start, end)
    requires PlannedJobs(jobs, instruments, windows[..k], benchmark)
    requires forall code :: code in codes <==> ActiveCode(instruments, windows[k], code)
    requires PairwiseDisjoint(batches)
    requires forall i :: 0 <= i < |batches| ==>
               && Rectangle(batches[i]) && Initial(batches[i]) && batches[i].base.Stocks?
               && batches[i].first == windows[k].first && batches[i].last == windows[k].last
    requires forall code, day :: Covered(batches, code, day) <==> code in codes && InWindow(windows[k], day)
    requires bench == NewJob(Benchmark, 0, [benchmark], windows[k].first, windows[k].last, 0)
    ensures PlannedJobs(jobs + batches + [bench], instruments, windows[..k + 1], benchmark)
  {
    WindowFits(jobs, batches, bench, instruments, windows, k, codes);
    WindowDisjoint(jobs, batches, bench, instruments, windows, k, start, end);
    WindowInEach(jobs, batches, bench, instruments, windows, k, codes);
    forall code, day
      ensures Covered(jobs + batches + [bench], code, day) <==> Planned(instruments, windows[..k + 1], benchmark, code, day)
    {
      WindowCoverage(jobs, batches, bench, instruments, windows, k, benchmark, codes, code, day);
    }
  }

  lemma WindowFits(
    jobs: seq<Job>, batches: seq<Job>, bench: Job, instruments: seq<Instrument>, windows: seq<Window>, k: nat,
    codes: seq<string>)
    requires k < |windows| && windows[k].first <= windows[k].last
    requires AllFit(jobs, instruments, windows[..k])
    requires forall code :: code in codes <==> ActiveCode(instruments, windows[k], code)
    requires forall i :: 0 <= i < |batches| ==> batches[i].first == windows[k].first && batches[i].last == windows[k].last
    requires forall code, day :: Covered(batches, code, day) <==> code in codes && InWindow(windows[k], day)
    requires bench.base.Benchmark? && bench.first == windows[k].first && bench.last == windows[k].last
    ensures AllFit(jobs + batches + [bench], instruments, windows[..k + 1])
  {
    var all := jobs + batches + [bench];
    var done := windows[..k + 1];
    forall i | 0 <= i < |all| ensures FitsWindow(all[i], instruments, done) {
      if i < |jobs| {
        assert FitsWindow(jobs[i], instruments, windows[..k]);
        var m :| 0 <= m < k && windows[..k][m] == Window(jobs[i].first, jobs[i].last)
                 && (jobs[i].base.Stocks? ==> AllActive(jobs[i].codes, instruments, windows[..k][m]));
        assert done[m] == windows[..k][m];
      } else {
        assert done[k] == Window(all[i].first, all[i].last);
        if all[i].base.Stocks? {
          forall code | code in all[i].codes ensures ActiveCode(instruments, windows[k], code) {
            assert InJob(batches[i - |jobs|], code, windows[k].first);
            assert Covered(batches, code, windows[k].first);
          }
          assert AllActive(all[i].codes, instruments, done[k]);
        }
      }
    }
  }

  lemma WindowDisjoint(
    jobs: seq<Job>, batches: seq<Job>, bench: Job, instruments: seq<Instrument>, windows: seq<Window>, k: nat,
    start: int, end: int)
    requires k < |windows| && Partitions(windows, start, end)
    requires DisjointByBase(jobs) && PairwiseDisjoint(batches)
    requires AllFit(jobs, instruments, windows[..k])
    requires forall i :: 0 <= i < |batches| ==>
               batches[i].base.Stocks? && batches[i].first == windows[k].first && batches[i].last == windows[k].last
    requires bench.base.Benchmark? && bench.first == windows[k].first && bench.last == windows[k].last
    ensures DisjointByBase(jobs + batches + [bench])
  {
    var all := jobs + batches + [bench];
    forall i, j | 0 <= i < j < |all| && all[i].base == all[j].base ensures Disjoint(all[i], all[j]) {
      if j < |jobs| {
        assert Disjoint(jobs[i], jobs[j]);
      } else if i < |jobs| {
        assert FitsWindow(jobs[i], instruments, windows[..k]);
        var m :| 0 <= m < k && windows[..k][m] == Window(jobs[i].first, jobs[i].last);
        WindowsIncrease(windows, start, end, m, k);
        assert all[i].last < all[j].first;
      } else {
        assert j < |jobs| + |batches|;
        assert Disjoint(batches[i - |jobs|], batches[j - |jobs|]);
      }
    }
  }

  lemma WindowCoverage(
    jobs: seq<Job>, batches: seq<Job>, bench: Job, instruments: seq<Instrument>, windows: seq<Window>, k: nat,
    benchmark: string, codes: seq<string>, code: string, day: int)
    requires k < |windows|
    requires Covered(jobs, code, day) <==> Planned(instruments, windows[..k], benchmark, code, day)
    requires forall c :: c in codes <==> ActiveCode(instruments, windows[k], c)
    requires Covered(batches, code, day) <==> code in codes && InWindow(windows[k], day)
    requires bench == NewJob(Benchmark, 0, [benchmark], windows[k].first, windows[k].last, 0)
    ensures Covered(jobs + batches + [bench], code, day) <==> Planned(instruments, windows[..k + 1], benchmark, code, day)
  {
    var all := jobs + batches + [bench];
    var done := windows[..k + 1];
    assert Covered(all, code, day) <==> Covered(jobs, code, day) || Covered(batches, code, day) || InJob(bench, code, day) by {
      if Covered(jobs, code, day) {
        var i :| 0 <= i < |jobs| && InJob(jobs[i], code, day);
        assert all[i] == jobs[i];
      }
      if Covered(batches, code, day) {
        var i :| 0 <= i < |batches| && InJob(batches[i], code, day);
        assert all[|jobs| + i] == batches[i];
      }
      if InJob(bench, code, day) {
        assert all[|jobs| + |batches|] == bench;
      }
    }
    assert Planned(instruments, done, benchmark, code, day)
      <==> Planned(instruments, windows[..k], benchmark, code, day)
           || (InWindow(windows[k], day) && (ActiveCode(instruments, windows[k], code) || code == benchmark)) by {
      if Planned(instruments, windows[..k], benchmark, code, day) {
        var m :| 0 <= m < |windows[..k]| && InWindow(windows[..k][m], day)
                 && (ActiveCode(instruments, windows[..k][m], code) || code == benchmark);
        assert done[m] == windows[..k][m];
      }
      if Planned(instruments, done, benchmark, code, day) {
        var m :| 0 <= m < |done| && InWindow(done[m], day) && (ActiveCode(instruments, done[m], code) || code == benchmark);
        assert m < k ==> windows[..k][m] == done[m];
      }
      assert done[k] == windows[k];
    }
  }

  lemma WindowInEach(
    jobs: seq<Job>, batches: seq<Job>, bench: Job, instruments: seq<Instrument>, windows: seq<Window>, k: nat,
    codes: seq<string>)
    requires k < |windows| && windows[k].first <= windows[k].last
    requires BenchmarkInEach(jobs, windows[..k]) && StocksInEach(jobs, instruments, windows[..k])
    requires forall code :: code in codes <==> ActiveCode(instruments, windows[k], code)
    requires forall i :: 0 <= i < |batches| ==>
               batches[i].base.Stocks? && batches[i].first == windows[k].first && batches[i].last == windows[k].last
    requires forall code, day :: Covered(batches, code, day) <==> code in codes && InWindow(windows[k], day)
    requires bench.base.Benchmark? && bench.first == windows[k].first && bench.last == windows[k].last
    ensures BenchmarkInEach(jobs + batches + [bench], windows[..k + 1])
    ensures StocksInEach(jobs + batches + [bench], instruments, windows[..k + 1])
  {
    var all := jobs + batches + [bench];
    var done := windows[..k + 1];
    forall m | 0 <= m < |done| ensures HasBenchmark(all, done[m]) {
      if m < k {
        assert HasBenchmark(jobs, windows[..k][m]);
        var i :| 0 <= i < |jobs| && jobs[i].base.Benchmark? && Window(jobs[i].first, jobs[i].last) == done[m];
        assert all[i] == jobs[i];
      } else {
        assert all[|jobs| + |batches|] == bench;
      }
    }
    forall m, code | 0 <= m < |done| && ActiveCode(instruments, done[m], code) ensures HasStock(all, done[m], code) {
      if m < k {
        assert ActiveCode(instruments, windows[..k][m], code);
        assert HasStock(jobs, windows[..k][m], code);
        var i :| 0 <= i < |jobs| && jobs[i].base.Stocks? && Window(jobs[i].first, jobs[i].last) == done[m] && code in jobs[i].codes;
        assert all[i] == jobs[i];
      } else {
        assert Covered(batches, code, windows[k].first);
        var i :| 0 <= i < |batches| && InJob(batches[i], code, windows[k].first);
        assert all[|jobs| + i] == batches[i];
      }
    }
  }

  /** The initial jobs overlap nowhere exactly when the benchmark is not also listed as a stock. */
  lemma InitialJobsDisjoint(jobs: seq<Job>, instruments: seq<Instrument>, windows: seq<Window>, benchmark: string, start: int, end: int)
    requires PlannedJobs(jobs, instruments, windows, benchmark) && Partitions(windows, start, end)
    ensures PairwiseDisjoint(jobs) <==> BenchmarkApart(instruments, windows, benchmark)
  {
    if BenchmarkApart(instruments, windows, benchmark) {
      forall i, j | 0 <= i < j < |jobs| ensures Disjoint(jobs[i], jobs[j]) {
        if jobs[i].base != jobs[j].base {
          StocksAvoidBenchmark(if jobs[i].base.Stocks? then jobs[i] else jobs[j], instruments, windows, benchmark);
        }
      }
    }
    if PairwiseDisjoint(jobs) && !BenchmarkApart(instruments, windows, benchmark) {
      var k :| 0 <= k < |windows| && ActiveCode(instruments, windows[k], benchmark);
      WindowWithinRange(windows, start, end, k);
      ListedBenchmarkOverlaps(jobs, instruments, windows, benchmark, k);
    }
  }

  lemma StocksAvoidBenchmark(job: Job, instruments: seq<Instrument>, windows: seq<Window>, benchmark: string)
    requires FitsWindow(job, instruments, windows) && BenchmarkApart(instruments, windows, benchmark)
    requires job.base.Stocks?
    ensures benchmark !in job.codes
  {
    var k :| 0 <= k < |windows| && windows[k] == Window(job.first, job.last) && AllActive(job.codes, instruments, windows[k]);
    assert !ActiveCode(instruments, windows[k], benchmark);
  }

  lemma ListedBenchmarkOverlaps(jobs: seq<Job>, instruments: seq<Instrument>, windows: seq<Window>, benchmark: string, k: nat)
    requires Fresh(jobs, benchmark) && BenchmarkInEach(jobs, windows) && StocksInEach(jobs, instruments, windows)
    requires k < |windows| && ActiveCode(instruments, windows[k], benchmark) && windows[k].first <= windows[k].last
    ensures !PairwiseDisjoint(jobs)
  {
    assert HasBenchmark(jobs, windows[k]) && HasStock(jobs, windows[k], benchmark);
    var b :| 0 <= b < |jobs| && jobs[b].base.Benchmark? && Window(jobs[b].first, jobs[b].last) == windows[k];
    var s :| 0 <= s < |jobs| && jobs[s].base.Stocks? && Window(jobs[s].first, jobs[s].last) == windows[k] && benchmark in jobs[s].codes;
    var day := windows[k].first;
    assert InJob(jobs[b], benchmark, day) && InJob(jobs[s], benchmark, day);
    assert !Disjoint(jobs[b], jobs[s]) && !Disjoint(jobs[s], jobs[b]);
  }
}
