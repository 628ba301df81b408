/**
  The verdict on a daily job: month-chunked reads against the transferred keys.
 */
module InfluxVerdict {
  import opened Prelude
  import opened Calendar
  import opened InfluxVerification
  import opened StoredBars

  /** Microseconds to milliseconds, truncated toward zero. */
  function Millis(t: int): int {
    if t >= 0 then t / 1000 else -((-t) / 1000)
  }

  function MillisOf(times: seq<int>): (r: seq<int>)
    ensures |r| == |times| && forall i :: 0 <= i < |times| ==> r[i] == Millis(times[i])
  {
    seq(|times|, i requires 0 <= i < |times| => Millis(times[i]))
  }

  /** Each requested code is stored in the window with exactly the keys transferred for it, none twice. */
  ghost predicate StoredAsSent(rows: seq<Row>, w: Window, dayOf: int -> int, codes: seq<string>, records: seq<Record>) {
    forall code :: code in codes ==> SameKeys(MillisOf(TimesIn(rows, w, dayOf, code)), SentTimes(records, code))
  }

  /** No aggregate read of these windows returns a code that was not requested. */
  ghost predicate NoExtraCodes(readCounts: Window -> Dict<Counts>, windows: seq<Window>, codes: seq<string>) {
    forall k, code :: 0 <= k < |windows| && code in readCounts(windows[k]).at ==> code in codes
  }

  // ---------------------------------------------------------------------------------------
  // Row totals

  function SumStored(codes: seq<string>, rows: seq<Row>, w: Window, dayOf: int -> int): nat {
    if codes == [] then 0
    else SumStored(codes[..|codes| - 1], rows, w, dayOf) + |TimesIn(rows, w, dayOf, codes[|codes| - 1])|
  }

  function SumSent(codes: seq<string>, records: seq<Record>): nat {
    if codes == [] then 0
    else SumSent(codes[..|codes| - 1], records) + |SentTimes(records, codes[|codes| - 1])|
  }

  function RowsIn(rows: seq<Row>, w: Window, dayOf: int -> int): nat {
    if rows == [] then 0 else (if InWindow(w, dayOf(rows[0].time)) then 1 else 0) + RowsIn(rows[1..], w, dayOf)
  }

  function SumBy(codes: seq<string>, count: string -> nat): nat {
    if codes == [] then 0 else SumBy(codes[..|codes| - 1], count) + count(codes[|codes| - 1])
  }

  /** Counts that differ at one code only. */
  lemma {:induction false} SumByDiffers(codes: seq<string>, more: string -> nat, less: string -> nat, at: string, gap: nat)
    requires DistinctCodes(codes)
    requires forall code :: more(code) == less(code) + if code == at then gap else 0
    ensures SumBy(codes, more) == SumBy(codes, less) + if at in codes then gap else 0
    decreases |codes|
  {
    if codes != [] {
      var front, last := codes[..|codes| - 1], codes[|codes| - 1];
      SumByDiffers(front, more, less, at, gap);
      assert codes == front + [last];
    }
  }

  lemma {:induction false} SumStoredIsSum(codes: seq<string>, rows: seq<Row>, w: Window, dayOf: int -> int, count: string -> nat)
    requires forall code :: count(code) == |TimesIn(rows, w, dayOf, code)|
    ensures SumStored(codes, rows, w, dayOf) == SumBy(codes, count)
    decreases |codes|
  {
    if codes != [] {
      SumStoredIsSum(codes[..|codes| - 1], rows, w, dayOf, count);
    }
  }

  lemma SumStoredHead(codes: seq<string>, rows: seq<Row>, w: Window, dayOf: int -> int)
    requires rows != [] && DistinctCodes(codes)
    ensures SumStored(codes, rows, w, dayOf)
         == SumStored(codes, rows[1..], w, dayOf)
            + if rows[0].code in codes && InWindow(w, dayOf(rows[0].time)) then 1 else 0
  {
    var all: string -> nat := code => |TimesIn(rows, w, dayOf, code)|;
    var rest: string -> nat := code => |TimesIn(rows[1..], w, dayOf, code)|;
    var one := if InWindow(w, dayOf(rows[0].time)) then 1 else 0;
    forall code ensures all(code) == rest(code) + if code == rows[0].code then one else 0 {
      TimesHead(rows, w, dayOf, code);
    }
    SumStoredIsSum(codes, rows, w, dayOf, all);
    SumStoredIsSum(codes, rows[1..], w, dayOf, rest);
    SumByDiffers(codes, all, rest, rows[0].code, one);
  }

  lemma TimesHead(rows: seq<Row>, w: Window, dayOf: int -> int, code: string)
    requires rows != []
    ensures |TimesIn(rows, w, dayOf, code)|
         == |TimesIn(rows[1..], w, dayOf, code)| + if rows[0].code == code && InWindow(w, dayOf(rows[0].time)) then 1 else 0
  {
  }

  lemma {:induction false} SumStoredEmpty(codes: seq<string>, w: Window, dayOf: int -> int)
    ensures SumStored(codes, [], w, dayOf) == 0
    decreases |codes|
  {
    if codes != [] {
      SumStoredEmpty(codes[..|codes| - 1], w, dayOf);
    }
  }

  /** Summed over any list of distinct codes that covers the rows, the counts give all rows. */
  lemma {:induction false} SumStoredIsAll(codes: seq<string>, rows: seq<Row>, w: Window, dayOf: int -> int)
    requires DistinctCodes(codes)
    requires forall code :: TimesIn(rows, w, dayOf, code) != [] ==> code in codes
    ensures SumStored(codes, rows, w, dayOf) == RowsIn(rows, w, dayOf)
    decreases |rows|
  {
    if rows == [] {
      SumStoredEmpty(codes, w, dayOf);
    } else {
      SumStoredHead(codes, rows, w, dayOf);
      assert InWindow(w, dayOf(rows[0].time)) ==> TimesIn(rows, w, dayOf, rows[0].code) != [];
      forall code | TimesIn(rows[1..], w, dayOf, code) != [] ensures code in codes {
        assert TimesIn(rows, w, dayOf, code) != [];
      }
      SumStoredIsAll(codes, rows[1..], w, dayOf);
    }
  }

  lemma {:induction false} SumSentLast(codes: seq<string>, records: seq<Record>)
    requires records != [] && DistinctCodes(codes) && GoodRecord(codes, records[|records| - 1])
    ensures SumSent(codes, records) == SumSent(codes, records[..|records| - 1]) + 1
  {
    SumSentStep(codes, records);
  }

  lemma {:induction false} SumSentStep(codes: seq<string>, records: seq<Record>)
    requires records != [] && DistinctCodes(codes)
    requires records[|records| - 1].Record? && records[|records| - 1].time.Some?
    ensures SumSent(codes, records)
         == SumSent(codes, records[..|records| - 1]) + if records[|records| - 1].code in codes then 1 else 0
    decreases |codes|
  {
    if codes != [] {
      var front := codes[..|codes| - 1];
      SumSentStep(front, records);
      assert codes == front + [codes[|codes| - 1]];
    }
  }

  lemma {:induction false} SumSentEmpty(codes: seq<string>)
    ensures SumSent(codes, []) == 0
    decreases |codes|
  {
    if codes != [] {
      SumSentEmpty(codes[..|codes| - 1]);
    }
  }

  ghost predicate AllGood(codes: seq<string>, records: seq<Record>) {
    forall i :: 0 <= i < |records| ==> GoodRecord(codes, records[i])
  }

  lemma {:induction false} SumSentIsAll(codes: seq<string>, records: seq<Record>)
    requires DistinctCodes(codes) && AllGood(codes, records)
    ensures SumSent(codes, records) == |records|
    decreases |records|
  {
    if records == [] {
      SumSentEmpty(codes);
    } else {
      SumSentIsAll(codes, records[..|records| - 1]);
      SumSentLast(codes, records);
    }
  }

  lemma {:induction false} ManifestRecordsGood(codes: seq<string>, manifest: seq<Chunk>)
    requires GoodManifest(codes, manifest)
    ensures AllGood(codes, AllRecords(manifest))
    decreases |manifest|
  {
    if manifest != [] {
      ManifestRecordsGood(codes, manifest[..|manifest| - 1]);
      assert GoodChunk(codes, manifest[|manifest| - 1]);
    }
  }

  /** Equal keys code by code give equal totals. */
  lemma {:induction false} SumsAgree(codes: seq<string>, rows: seq<Row>, w: Window, dayOf: int -> int, records: seq<Record>)
    requires forall code :: code in codes ==> |TimesIn(rows, w, dayOf, code)| == |SentTimes(records, code)|
    ensures SumStored(codes, rows, w, dayOf) == SumSent(codes, records)
    decreases |codes|
  {
    if codes != [] {
      SumsAgree(codes[..|codes| - 1], rows, w, dayOf, records);
      assert codes[|codes| - 1] in codes;
    }
  }

  lemma SameKeysSameLength(stored: seq<int>, sent: seq<int>)
    requires SameKeys(stored, sent) && NoRepeats(sent)
    ensures |stored| == |sent|
  {
    SortedDistinctMeans(stored);
    SortedDistinctMeans(sent);
    AscendingUnique(SortedDistinct(stored), SortedDistinct(sent));
  }

  lemma DistinctMillis(times: seq<int>)
    requires NoRepeats(MillisOf(times))
    ensures NoRepeats(times) && |SortedDistinct(times)| == |times|
  {
    forall i, j | 0 <= i < j < |times| ensures times[i] != times[j] {
      assert MillisOf(times)[i] != MillisOf(times)[j];
    }
    SortedDistinctMeans(times);
  }

  // ---------------------------------------------------------------------------------------
  // The verdict

  function SumRows(order: seq<string>, at: map<string, Counts>): nat
    requires forall i :: 0 <= i < |order| ==> order[i] in at
  {
    if order == [] then 0 else SumRows(order[..|order| - 1], at) + at[order[|order| - 1]].rows
  }

  /** Rows beyond the distinct ones. */
  function SumSurplus(order: seq<string>, at: map<string, Counts>): int
    requires forall i :: 0 <= i < |order| ==> order[i] in at
  {
    if order == [] then 0
    else SumSurplus(order[..|order| - 1], at) + (at[order[|order| - 1]].rows - at[order[|order| - 1]].distinct)
  }

  lemma {:induction false} SumRowsIsStored(order: seq<string>, at: map<string, Counts>, rows: seq<Row>, w: Window, dayOf: int -> int)
    requires forall i :: 0 <= i < |order| ==> order[i] in at && at[order[i]] == CountsOf(TimesIn(rows, w, dayOf, order[i]))
    ensures SumRows(order, at) == SumStored(order, rows, w, dayOf)
    decreases |order|
  {
    if order != [] {
      SumRowsIsStored(order[..|order| - 1], at, rows, w, dayOf);
    }
  }

  /** Without duplicates in any code there is no surplus. */
  lemma {:induction false} NoSurplus(order: seq<string>, at: map<string, Counts>)
    requires forall i :: 0 <= i < |order| ==> order[i] in at && at[order[i]].distinct == at[order[i]].rows
    ensures SumSurplus(order, at) == 0
    decreases |order|
  {
    if order != [] {
      NoSurplus(order[..|order| - 1], at);
    }
  }

  /** Sum of rows and of surplus rows over the entries of an aggregate read. */
  method Totals(d: Dict<Counts>) returns (total: int, duplicates: int)
    requires WellFormed(d)
    ensures forall i :: 0 <= i < |d.order| ==> d.order[i] in d.at
    ensures total == SumRows(d.order, d.at) && duplicates == SumSurplus(d.order, d.at)
  {
    assert forall i :: 0 <= i < |d.order| ==> d.order[i] in d.order;
    total, duplicates := 0, 0;
    var i := 0;
    while i < |d.order|
      invariant 0 <= i <= |d.order|
      invariant total == SumRows(d.order[..i], d.at) && duplicates == SumSurplus(d.order[..i], d.at)
    {
      var item := d.at[d.order[i]];
      assert d.order[..i + 1][..i] == d.order[..i];
      total := total + item.rows;
      duplicates := duplicates + (item.rows - item.distinct);
      i := i + 1;
    }
    assert d.order[..|d.order|] == d.order;
  }

  /** The rows of the requested codes. */
  function Mine(rows: seq<Row>, codes: seq<string>): seq<Row> {
    if rows == [] then [] else (if rows[0].code in codes then [rows[0]] else []) + Mine(rows[1..], codes)
  }

  lemma {:induction false} MineTimes(rows: seq<Row>, codes: seq<string>, w: Window, dayOf: int -> int, code: string)
    ensures TimesIn(Mine(rows, codes), w, dayOf, code) == if code in codes then TimesIn(rows, w, dayOf, code) else []
  {
    if rows != [] {
      MineTimes(rows[1..], codes, w, dayOf, code);
      var rest := Mine(rows[1..], codes);
      if rows[0].code in codes {
        assert Mine(rows, codes) == [rows[0]] + rest;
        TimesPrepend(rows[0], rest, w, dayOf, code);
      } else {
        assert Mine(rows, codes) == rest;
      }
      assert rows == [rows[0]] + rows[1..];
      TimesPrepend(rows[0], rows[1..], w, dayOf, code);
    }
  }

  lemma TimesPrepend(row: Row, rest: seq<Row>, w: Window, dayOf: int -> int, code: string)
    ensures TimesIn([row] + rest, w, dayOf, code)
         == (if row.code == code && InWindow(w, dayOf(row.time)) then [row.time] else []) + TimesIn(rest, w, dayOf, code)
  {
    assert ([row] + rest)[1..] == rest;
  }

  lemma {:induction false} SumStoredMine(list: seq<string>, rows: seq<Row>, codes: seq<string>, w: Window, dayOf: int -> int)
    requires forall i :: 0 <= i < |list| ==> list[i] in codes
    ensures SumStored(list, Mine(rows, codes), w, dayOf) == SumStored(list, rows, w, dayOf)
    decreases |list|
  {
    if list != [] {
      SumStoredMine(list[..|list| - 1], rows, codes, w, dayOf);
      MineTimes(rows, codes, w, dayOf, list[|list| - 1]);
    }
  }

  /** The codes an exact read returns sum to as many rows as all requested codes do. */
  lemma SumOverReturned(list: seq<string>, codes: seq<string>, rows: seq<Row>, w: Window, dayOf: int -> int)
    requires DistinctCodes(list) && DistinctCodes(codes)
    requires forall i :: 0 <= i < |list| ==> list[i] in codes
    requires forall code :: code in codes && TimesIn(rows, w, dayOf, code) != [] ==> code in list
    ensures SumStored(list, rows, w, dayOf) == SumStored(codes, rows, w, dayOf)
  {
    var mine := Mine(rows, codes);
    forall code | TimesIn(mine, w, dayOf, code) != [] ensures code in codes && code in list {
      MineTimes(rows, codes, w, dayOf, code);
    }
    SumStoredMine(list, rows, codes, w, dayOf);
    SumStoredMine(codes, rows, codes, w, dayOf);
    SumStoredIsAll(list, mine, w, dayOf);
    SumStoredIsAll(codes, mine, w, dayOf);
  }

  /** The two accumulated reads of a range. */
  method ReadMonths(
    windows: seq<Window>, readCounts: Window -> Dict<Counts>, readKeys: Window -> Dict<seq<int>>,
    ghost first: int, ghost last: int, ghost rows: seq<Row>, ghost dayOf: int -> int, ghost codes: seq<string>)
    returns (counts: Dict<Counts>, keys: Dict<seq<int>>)
    requires Ordered(rows) && Monotone(dayOf) && Partitions(windows, first, last)
    requires forall w :: ExactCounts(readCounts(w), rows, w, dayOf, codes)
    requires forall w :: ExactKeys(readKeys(w), rows, w, dayOf, codes)
    ensures ExactCounts(counts, rows, Window(first, last), dayOf, codes)
    ensures ExactKeys(keys, rows, Window(first, last), dayOf, codes)
    ensures (forall code :: code in counts.at ==> code in codes) <==> NoExtraCodes(readCounts, windows, codes)
  {
    counts, keys := Dict([], map[]), Dict([], map[]);
    ghost var done := Window(first, first - 1);
    NothingBefore(rows, done, dayOf);
    var k := 0;
    while k < |windows|
      invariant 0 <= k <= |windows|
      invariant done == Window(first, if k == 0 then first - 1 else windows[k - 1].last)
      invariant first <= done.last + 1
      invariant ExactCounts(counts, rows, done, dayOf, codes) && ExactKeys(keys, rows, done, dayOf, codes)
      invariant (forall code :: code in counts.at ==> code in codes) <==> NoExtraCodes(readCounts, windows[..k], codes)
    {
      var w := windows[k];
      NextWindow(windows, first, last, k);
      var moreCounts, moreKeys := readCounts(w), readKeys(w);
      var nextCounts := MergeInto(counts, moreCounts, AddCounts);
      var nextKeys := MergeInto(keys, moreKeys, AppendKeys);
      MergedCountsExact(counts, moreCounts, nextCounts, rows, done, w, dayOf, codes);
      MergedKeysExact(keys, moreKeys, nextKeys, rows, done, w, dayOf, codes);
      ExtraInOneMore(readCounts, windows, k, codes);
      MergedExtra(counts, moreCounts, nextCounts, codes);
      counts, keys := nextCounts, nextKeys;
      done := Window(first, w.last);
      k := k + 1;
    }
    assert windows[..|windows|] == windows;
  }

  lemma ExtraInOneMore(readCounts: Window -> Dict<Counts>, windows: seq<Window>, k: nat, codes: seq<string>)
    requires k < |windows|
    ensures NoExtraCodes(readCounts, windows[..k + 1], codes)
            <==> NoExtraCodes(readCounts, windows[..k], codes) && forall code :: code in readCounts(windows[k]).at ==> code in codes
  {
    var before, after := windows[..k], windows[..k + 1];
    assert after[k] == windows[k];
    if NoExtraCodes(readCounts, after, codes) {
      forall j, code | 0 <= j < k && code in readCounts(before[j]).at ensures code in codes {
        assert after[j] == before[j];
      }
    }
  }

  lemma MergedExtra(total: Dict<Counts>, more: Dict<Counts>, sum: Dict<Counts>, codes: seq<string>)
    requires Merged(total, more, sum, AddCounts, more.order) && WellFormed(more)
    ensures (forall code :: code in sum.at ==> code in codes)
            <==> (forall code :: code in total.at ==> code in codes) && (forall code :: code in more.at ==> code in codes)
  {
  }

  lemma NextWindow(windows: seq<Window>, first: int, last: int, k: nat)
    requires Partitions(windows, first, last) && k < |windows|
    ensures windows[k].first == if k == 0 then first else windows[k - 1].last + 1
    ensures first <= windows[k].first <= windows[k].last
  {
    WindowWithinRange(windows, first, last, k);
  }

  lemma NothingBefore(rows: seq<Row>, w: Window, dayOf: int -> int)
    requires w.last < w.first
    ensures forall code :: TimesIn(rows, w, dayOf, code) == []
  {
    forall code ensures TimesIn(rows, w, dayOf, code) == [] {
      if TimesIn(rows, w, dayOf, code) != [] {
        TimesAreIn(rows, w, dayOf, code, TimesIn(rows, w, dayOf, code)[0]);
      }
    }
  }

  /** The stored keys of one requested code against its transferred keys. */
  method Matches<D(==, !new)>(
    code: string, keys: Dict<seq<int>>, expected: Summary<D>, digest: seq<int> -> D, ghost stored: seq<int>, ghost sent: seq<int>)
    returns (ok: bool)
    requires Injective(digest) && NoRepeats(sent) && expected == Summarize(sent, digest)
    requires stored == if code in keys.at then keys.at[code] else []
    ensures ok <==> SameKeys(MillisOf(stored), sent)
  {
    var times := if code in keys.at then keys.at[code] else [];
    SummariesAgree(MillisOf(times), sent, digest);
    ok := Summarize(MillisOf(times), digest) == expected;
  }

  /** Requested codes whose stored summary differs from the transferred one. */
  method Mismatched<D(==, !new)>(
    codes: seq<string>, keys: Dict<seq<int>>, expected: Expected<D>, digest: seq<int> -> D,
    ghost stored: string -> seq<int>, ghost sent: string -> seq<int>)
    returns (bad: seq<string>)
    requires Injective(digest)
    requires forall code :: code in codes ==> stored(code) == if code in keys.at then keys.at[code] else []
    requires forall code :: code in codes ==>
               code in expected.symbols && NoRepeats(sent(code)) && expected.symbols[code] == Summarize(sent(code), digest)
    ensures bad == [] <==> forall code :: code in codes ==> SameKeys(MillisOf(stored(code)), sent(code))
  {
    bad := [];
    var i := 0;
    while i < |codes|
      invariant 0 <= i <= |codes|
      invariant bad == [] <==> forall j :: 0 <= j < i ==> SameKeys(MillisOf(stored(codes[j])), sent(codes[j]))
    {
      var code := codes[i];
      var ok := Matches(code, keys, expected.symbols[code], digest, stored(code), sent(code));
      if !ok {
        bad := bad + [code];
      }
      i := i + 1;
    }
  }

  method Missing<D>(codes: seq<string>, counts: Dict<Counts>, expected: Expected<D>) returns (missing: seq<string>)
    requires forall code :: code in codes ==> code in expected.symbols
    ensures missing == [] <==> forall code :: code in codes && expected.symbols[code].rowCount > 0 ==> code in counts.at
  {
    missing := [];
    var i := 0;
    while i < |codes|
      invariant 0 <= i <= |codes|
      invariant missing == [] <==> forall j :: 0 <= j < i && expected.symbols[codes[j]].rowCount > 0 ==> codes[j] in counts.at
    {
      if expected.symbols[codes[i]].rowCount > 0 && codes[i] !in counts.at {
        missing := missing + [codes[i]];
      }
      i := i + 1;
    }
  }

  method Unexpected(codes: seq<string>, counts: Dict<Counts>) returns (extra: seq<string>)
    requires WellFormed(counts)
    ensures extra == [] <==> forall code :: code in counts.at ==> code in codes
  {
    extra := [];
    var i := 0;
    while i < |counts.order|
      invariant 0 <= i <= |counts.order|
      invariant extra == [] <==> forall j :: 0 <= j < i ==> counts.order[j] in codes
    {
      if counts.order[i] !in codes {
        extra := extra + [counts.order[i]];
      }
      i := i + 1;
    }
  }

  /** Ok exactly when no read returns a code that was not requested and the whole window is stored as it was sent. */
  method VerifyInflux<D(==, !new)>(
    codes: seq<string>, first: int, last: int, expected: Expected<D>, digest: seq<int> -> D,
    readCounts: Window -> Dict<Counts>, readKeys: Window -> Dict<seq<int>>,
    ghost rows: seq<Row>, ghost dayOf: int -> int, ghost records: seq<Record>)
    returns (r: Result<bool, DateError>, windows: seq<Window>)
    requires IsDay(first) && IsDay(last) && DistinctCodes(codes)
    requires Ordered(rows) && Monotone(dayOf) && Injective(digest)
    requires forall w :: ExactCounts(readCounts(w), rows, w, dayOf, codes)
    requires forall w :: ExactKeys(readKeys(w), rows, w, dayOf, codes)
    requires ExpectationOf(expected, codes, records, digest) && AllGood(codes, records) && SentOnce(records, codes)
    ensures r.Ok? <==> first <= last < LAST_MONTH
    ensures r.Ok? ==> Partitions(windows, first, last) && UnitByUnit(windows, MonthNumber)
    ensures r.Ok? ==> (r.value <==> NoExtraCodes(readCounts, windows, codes)
                                    && StoredAsSent(rows, Window(first, last), dayOf, codes, records))
  {
    windows := [];
    var months := CalendarMonthWindows(first, last);
    if months.Err? {
      return Err(months.error), windows;
    }
    windows := months.value;
    var counts, keys := ReadMonths(windows, readCounts, readKeys, first, last, rows, dayOf, codes);
    var ok := Judge(codes, counts, keys, expected, digest, rows, Window(first, last), dayOf, records);
    r := Ok(ok);
  }

  /** The verdict on the accumulated reads. */
  method Judge<D(==, !new)>(
    codes: seq<string>, counts: Dict<Counts>, keys: Dict<seq<int>>, expected: Expected<D>, digest: seq<int> -> D,
    ghost rows: seq<Row>, ghost w: Window, ghost dayOf: int -> int, ghost records: seq<Record>)
    returns (ok: bool)
    requires DistinctCodes(codes) && Injective(digest)
    requires ExactCounts(counts, rows, w, dayOf, codes) && ExactKeys(keys, rows, w, dayOf, codes)
    requires ExpectationOf(expected, codes, records, digest) && AllGood(codes, records) && SentOnce(records, codes)
    ensures ok <==> (forall code :: code in counts.at ==> code in codes) && StoredAsSent(rows, w, dayOf, codes, records)
  {
    var total, duplicates := Totals(counts);
    var missing := Missing(codes, counts, expected);
    var extra := Unexpected(codes, counts);
    var bad := Mismatched(codes, keys, expected, digest,
                          code => TimesIn(rows, w, dayOf, code), code => SentTimes(records, code));
    if extra == [] && StoredAsSent(rows, w, dayOf, codes, records) {
      TotalsFollow(codes, counts, rows, w, dayOf, records);
    }
    ok := total == expected.recordCount && duplicates == 0 && missing == [] && extra == [] && bad == [];
  }

  datatype AuditError = Transfer(transfer: TransferError) | Range(range: DateError)

  /** What is known of a job's request and its transfer. */
  datatype Audit = Audit(ok: bool, records: int, manifest: seq<Chunk>)

  /** The transfer is sound and complete, and the window is stored as it was sent. */
  ghost predicate Acceptable(a: Audit, codes: seq<string>, w: Window, rows: seq<Row>, dayOf: int -> int) {
    && a.ok && GoodManifest(codes, a.manifest) && SentOnce(AllRecords(a.manifest), codes)
    && a.records == |AllRecords(a.manifest)| && w.first <= w.last < LAST_MONTH
    && StoredAsSent(rows, w, dayOf, codes, AllRecords(a.manifest))
  }

  /** The repository asks for the requested codes only. */
  ghost predicate Filters(readCounts: Window -> Dict<Counts>, codes: seq<string>) {
    forall w, code :: code in readCounts(w).at ==> code in codes
  }

  /** From the transferred chunks to the verdict; a failed audit or a wrong record total is a plain no. */
  method AuditAndVerify<D(==, !new)>(
    a: Audit, codes: seq<string>, first: int, last: int, digest: seq<int> -> D,
    readCounts: Window -> Dict<Counts>, readKeys: Window -> Dict<seq<int>>,
    ghost rows: seq<Row>, ghost dayOf: int -> int)
    returns (r: Result<bool, AuditError>, windows: seq<Window>)
    requires IsDay(first) && IsDay(last) && DistinctCodes(codes)
    requires Ordered(rows) && Monotone(dayOf) && Injective(digest)
    requires forall w :: ExactCounts(readCounts(w), rows, w, dayOf, codes)
    requires forall w :: ExactKeys(readKeys(w), rows, w, dayOf, codes)
    ensures r == Ok(true) <==>
              Acceptable(a, codes, Window(first, last), rows, dayOf) && NoExtraCodes(readCounts, windows, codes)
    ensures Filters(readCounts, codes) ==> (r == Ok(true) <==> Acceptable(a, codes, Window(first, last), rows, dayOf))
  {
    windows := [];
    if !a.ok {
      return Ok(false), windows;
    }
    var expected := ExpectedDailyKeys(codes, a.manifest, digest);
    if expected.Err? {
      return Err(Transfer(expected.error)), windows;
    }
    if expected.value.recordCount != a.records {
      return Ok(false), windows;
    }
    ManifestRecordsGood(codes, a.manifest);
    var verdict, months := VerifyInflux(codes, first, last, expected.value, digest, readCounts, readKeys, rows, dayOf, AllRecords(a.manifest));
    windows := months;
    if verdict.Err? {
      return Err(Range(verdict.error)), windows;
    }
    return Ok(verdict.value), windows;
  }

  /** Equal keys imply the aggregate conditions as well. */
  lemma TotalsFollow(codes: seq<string>, counts: Dict<Counts>, rows: seq<Row>, w: Window, dayOf: int -> int, records: seq<Record>)
    requires ExactCounts(counts, rows, w, dayOf, codes) && DistinctCodes(codes)
    requires forall code :: code in counts.at ==> code in codes
    requires AllGood(codes, records) && SentOnce(records, codes)
    requires StoredAsSent(rows, w, dayOf, codes, records)
    ensures forall i :: 0 <= i < |counts.order| ==> counts.order[i] in counts.at
    ensures SumRows(counts.order, counts.at) == |records|
    ensures SumSurplus(counts.order, counts.at) == 0
    ensures forall code :: code in codes && SentTimes(records, code) != [] ==> code in counts.at
  {
    SameLengths(codes, rows, w, dayOf, records);
    SumsAgree(codes, rows, w, dayOf, records);
    SumSentIsAll(codes, records);
    OnlyRequested(codes, counts);
    ReturnedRows(codes, counts, rows, w, dayOf);
    ReturnedSurplus(codes, counts, rows, w, dayOf);
  }

  lemma OnlyRequested(codes: seq<string>, counts: Dict<Counts>)
    requires WellFormed(counts) && forall code :: code in counts.at ==> code in codes
    ensures forall i :: 0 <= i < |counts.order| ==> counts.order[i] in counts.at && counts.order[i] in codes
  {
    forall i | 0 <= i < |counts.order| ensures counts.order[i] in counts.at && counts.order[i] in codes {
      assert counts.order[i] in counts.order;
    }
  }

  lemma SameLengths(codes: seq<string>, rows: seq<Row>, w: Window, dayOf: int -> int, records: seq<Record>)
    requires SentOnce(records, codes) && StoredAsSent(rows, w, dayOf, codes, records)
    ensures forall code :: code in codes ==> |TimesIn(rows, w, dayOf, code)| == |SentTimes(records, code)|
    ensures forall code :: code in codes ==> |SortedDistinct(TimesIn(rows, w, dayOf, code))| == |TimesIn(rows, w, dayOf, code)|
  {
    forall code | code in codes
      ensures |TimesIn(rows, w, dayOf, code)| == |SentTimes(records, code)|
      ensures |SortedDistinct(TimesIn(rows, w, dayOf, code))| == |TimesIn(rows, w, dayOf, code)|
    {
      SameKeysSameLength(MillisOf(TimesIn(rows, w, dayOf, code)), SentTimes(records, code));
      DistinctMillis(TimesIn(rows, w, dayOf, code));
    }
  }

  lemma ReturnedSurplus(codes: seq<string>, counts: Dict<Counts>, rows: seq<Row>, w: Window, dayOf: int -> int)
    requires ExactCounts(counts, rows, w, dayOf, codes)
    requires forall i :: 0 <= i < |counts.order| ==> counts.order[i] in counts.at && counts.order[i] in codes
    requires forall code :: code in codes ==> |SortedDistinct(TimesIn(rows, w, dayOf, code))| == |TimesIn(rows, w, dayOf, code)|
    ensures SumSurplus(counts.order, counts.at) == 0
  {
    NoSurplus(counts.order, counts.at);
  }

  lemma ReturnedRows(codes: seq<string>, counts: Dict<Counts>, rows: seq<Row>, w: Window, dayOf: int -> int)
    requires ExactCounts(counts, rows, w, dayOf, codes) && DistinctCodes(codes)
    requires forall i :: 0 <= i < |counts.order| ==> counts.order[i] in counts.at && counts.order[i] in codes
    ensures SumRows(counts.order, counts.at) == SumStored(codes, rows, w, dayOf)
  {
    SumOverReturned(counts.order, codes, rows, w, dayOf);
    SumRowsIsStored(counts.order, counts.at, rows, w, dayOf);
  }
}
