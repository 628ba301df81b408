/**
  Acceptance of a daily job: the transferred chunks are reduced to exact keys per code, and the
  stored bars, read month by month, must carry the same keys.
 */
module InfluxVerification {
  import opened Prelude

  // ---------------------------------------------------------------------------------------
  // Key summaries

  ghost predicate NoRepeats(s: seq<int>) {
    forall i, j :: 0 <= i < j < |s| ==> s[i] != s[j]
  }

  ghost predicate Ascending(s: seq<int>) {
    forall i, j :: 0 <= i < j < |s| ==> s[i] < s[j]
  }

  function InsertKey(x: int, s: seq<int>): seq<int> {
    if s == [] || x < s[0] then [x] + s
    else if x == s[0] then s
    else [s[0]] + InsertKey(x, s[1..])
  }

  /** The distinct values in ascending order. */
  function SortedDistinct(times: seq<int>): seq<int> {
    if times == [] then [] else InsertKey(times[|times| - 1], SortedDistinct(times[..|times| - 1]))
  }

  lemma {:induction false} InsertKeySorts(x: int, s: seq<int>)
    requires Ascending(s)
    ensures Ascending(InsertKey(x, s))
    ensures forall v :: v in InsertKey(x, s) <==> v == x || v in s
    ensures |InsertKey(x, s)| == |s| + if x in s then 0 else 1
  {
    if s != [] && x > s[0] {
      var rest := InsertKey(x, s[1..]);
      TailAbove(s);
      InsertKeySorts(x, s[1..]);
      PrependKeeps(s[0], rest);
      assert s == [s[0]] + s[1..];
      assert InsertKey(x, s) == [s[0]] + rest;
    } else if s != [] && x < s[0] {
      assert forall i :: 0 <= i < |s| ==> s[i] > x;
    }
  }

  lemma TailAbove(s: seq<int>)
    requires Ascending(s) && s != []
    ensures Ascending(s[1..]) && forall v :: v in s[1..] ==> v > s[0]
  {
    forall v | v in s[1..] ensures v > s[0] {
      var i :| 0 <= i < |s[1..]| && s[1..][i] == v;
      assert s[i + 1] == v;
    }
  }

  lemma PrependKeeps(x: int, s: seq<int>)
    requires Ascending(s) && forall v :: v in s ==> v > x
    ensures Ascending([x] + s)
  {
    var t := [x] + s;
    forall i, j | 0 <= i < j < |t| ensures t[i] < t[j] {
      assert t[j] == s[j - 1] && s[j - 1] in s;
      if i > 0 {
        assert t[i] == s[i - 1];
      }
    }
  }

  lemma {:induction false} SortedDistinctMeans(times: seq<int>)
    ensures Ascending(SortedDistinct(times))
    ensures forall v :: v in SortedDistinct(times) <==> v in times
    ensures |SortedDistinct(times)| <= |times|
    ensures |SortedDistinct(times)| == |times| <==> NoRepeats(times)
    decreases |times|
  {
    if times != [] {
      var front, x := times[..|times| - 1], times[|times| - 1];
      SortedDistinctMeans(front);
      InsertKeySorts(x, SortedDistinct(front));
      assert times == front + [x];
      if NoRepeats(times) {
        assert x !in front;
        assert NoRepeats(front);
      } else if NoRepeats(front) {
        assert x in front;
      }
    }
  }

  lemma HasMember(s: seq<int>)
    ensures s != [] ==> exists v :: v in s
  {
    if s != [] {
      var v := s[0];
      assert v in s;
    }
  }

  /** Ascending lists with the same members are equal, so the list of distinct keys is canonical. */
  lemma {:induction false} AscendingUnique(a: seq<int>, b: seq<int>)
    requires Ascending(a) && Ascending(b)
    requires forall v :: v in a <==> v in b
    ensures a == b
  {
    HasMember(a);
    HasMember(b);
    if a != [] && b != [] {
      assert a[0] == b[0] by {
        var x, y := a[0], b[0];
        assert x in a && y in b;
        assert x in b && y in a;
      }
      assert a == [a[0]] + a[1..] && b == [b[0]] + b[1..];
      forall v ensures v in a[1..] <==> v in b[1..] {
        assert v in a[1..] <==> v in a && v != a[0];
        assert v in b[1..] <==> v in b && v != b[0];
      }
      AscendingUnique(a[1..], b[1..]);
    }
  }

  datatype Summary<D> = Summary(rowCount: nat, distinct: nat, least: Option<int>, greatest: Option<int>, digest: D)

  function Summarize<D>(times: seq<int>, digest: seq<int> -> D): Summary<D> {
    var keys := SortedDistinct(times);
    Summary(|times|, |keys|,
            if keys == [] then None else Some(keys[0]),
            if keys == [] then None else Some(keys[|keys| - 1]),
            digest(keys))
  }

  ghost predicate Injective<D(!new)>(digest: seq<int> -> D) {
    forall a, b :: digest(a) == digest(b) ==> a == b
  }

  ghost predicate SameKeys(stored: seq<int>, sent: seq<int>) {
    NoRepeats(stored) && forall v :: v in stored <==> v in sent
  }

  /** Against keys without repetition, equal summaries mean equal keys and no repetition. */
  lemma SummariesAgree<D(!new)>(stored: seq<int>, sent: seq<int>, digest: seq<int> -> D)
    requires Injective(digest) && NoRepeats(sent)
    ensures Summarize(stored, digest) == Summarize(sent, digest) <==> SameKeys(stored, sent)
  {
    SortedDistinctMeans(stored);
    SortedDistinctMeans(sent);
    if SameKeys(stored, sent) {
      AscendingUnique(SortedDistinct(stored), SortedDistinct(sent));
    }
  }

  // ---------------------------------------------------------------------------------------
  // What was transferred

  datatype Record = NotAnObject | Record(code: string, period: string, time: Option<int>)

  datatype Chunk = Chunk(index: int, checksumMatches: bool, records: Option<seq<Record>>, recordCount: int)

  datatype Expected<D> = Expected(recordCount: nat, symbols: map<string, Summary<D>>)

  datatype TransferError =
    | ChunksNotContiguous | ChecksumMismatch | NotAnArray | RecordCountMismatch
    | RecordNotAnObject | ForeignCode | ForeignPeriod | TimeMissing | DuplicateKeys

  const DAILY := "1d"

  predicate GoodRecord(codes: seq<string>, r: Record) {
    r.Record? && r.code in codes && r.period == DAILY && r.time.Some?
  }

  ghost predicate GoodChunk(codes: seq<string>, c: Chunk) {
    && c.checksumMatches && c.records.Some? && |c.records.value| == c.recordCount
    && forall i :: 0 <= i < |c.records.value| ==> GoodRecord(codes, c.records.value[i])
  }

  ghost predicate GoodManifest(codes: seq<string>, manifest: seq<Chunk>) {
    forall i :: 0 <= i < |manifest| ==> manifest[i].index == i && GoodChunk(codes, manifest[i])
  }

  /** All records of the transfer in order. */
  function AllRecords(manifest: seq<Chunk>): seq<Record> {
    if manifest == [] then []
    else
      var last := manifest[|manifest| - 1].records;
      AllRecords(manifest[..|manifest| - 1]) + if last.Some? then last.value else []
  }

  /** Keys transferred for a code. */
  function SentTimes(records: seq<Record>, code: string): seq<int> {
    if records == [] then []
    else
      var r := records[|records| - 1];
      SentTimes(records[..|records| - 1], code)
      + if r.Record? && r.code == code && r.time.Some? then [r.time.value] else []
  }

  ghost predicate SentOnce(records: seq<Record>, codes: seq<string>) {
    forall code :: code in codes ==> NoRepeats(SentTimes(records, code))
  }

  /** The times collected so far are those of the records read so far. */
  ghost predicate Tally(times: map<string, seq<int>>, codes: seq<string>, records: seq<Record>) {
    && (forall code :: code in times <==> code in codes)
    && forall code :: code in codes ==> times[code] == SentTimes(records, code)
  }

  lemma TallyOne(times: map<string, seq<int>>, codes: seq<string>, records: seq<Record>, r: Record)
    requires Tally(times, codes, records) && GoodRecord(codes, r)
    ensures Tally(times[r.code := times[r.code] + [r.time.value]], codes, records + [r])
  {
    assert (records + [r])[..|records|] == records;
  }

  method CheckRecord(codes: seq<string>, r: Record) returns (error: Option<TransferError>)
    ensures error.None? <==> GoodRecord(codes, r)
  {
    if r.NotAnObject? {
      return Some(RecordNotAnObject);
    }
    if r.code !in codes {
      return Some(ForeignCode);
    }
    if r.period != DAILY {
      return Some(ForeignPeriod);
    }
    if r.time.None? {
      return Some(TimeMissing);
    }
    return None;
  }

  method ReadRecords(codes: seq<string>, records: seq<Record>, times0: map<string, seq<int>>, ghost before: seq<Record>)
    returns (r: Result<map<string, seq<int>>, TransferError>)
    requires Tally(times0, codes, before)
    ensures r.Ok? <==> forall i :: 0 <= i < |records| ==> GoodRecord(codes, records[i])
    ensures r.Ok? ==> Tally(r.value, codes, before + records)
  {
    var times := times0;
    var i := 0;
    assert before + records[..0] == before;
    while i < |records|
      invariant 0 <= i <= |records|
      invariant forall j :: 0 <= j < i ==> GoodRecord(codes, records[j])
      invariant Tally(times, codes, before + records[..i])
    {
      var record := records[i];
      var error := CheckRecord(codes, record);
      if error.Some? {
        return Err(error.value);
      }
      TallyOne(times, codes, before + records[..i], record);
      assert before + records[..i + 1] == before + records[..i] + [record];
      times := times[record.code := times[record.code] + [record.time.value]];
      i := i + 1;
    }
    assert records[..|records|] == records;
    r := Ok(times);
  }

  method ReadChunk(codes: seq<string>, item: Chunk, times0: map<string, seq<int>>, ghost before: seq<Record>)
    returns (r: Result<map<string, seq<int>>, TransferError>)
    requires Tally(times0, codes, before)
    ensures r.Ok? <==> GoodChunk(codes, item)
    ensures r.Ok? ==> Tally(r.value, codes, before + item.records.value)
  {
    if !item.checksumMatches {
      return Err(ChecksumMismatch);
    }
    if item.records.None? {
      return Err(NotAnArray);
    }
    if |item.records.value| != item.recordCount {
      return Err(RecordCountMismatch);
    }
    r := ReadRecords(codes, item.records.value, times0, before);
  }

  method IndicesMatch(manifest: seq<Chunk>) returns (ok: bool)
    ensures ok <==> forall i :: 0 <= i < |manifest| ==> manifest[i].index == i
  {
    ok := true;
    var i := 0;
    while i < |manifest|
      invariant 0 <= i <= |manifest|
      invariant ok <==> forall j :: 0 <= j < i ==> manifest[j].index == j
    {
      ok := ok && manifest[i].index == i;
      i := i + 1;
    }
  }

  method ReadManifest(codes: seq<string>, manifest: seq<Chunk>)
    returns (r: Result<map<string, seq<int>>, TransferError>, recordCount: nat)
    ensures r.Ok? <==> forall i :: 0 <= i < |manifest| ==> GoodChunk(codes, manifest[i])
    ensures r.Ok? ==> Tally(r.value, codes, AllRecords(manifest)) && recordCount == |AllRecords(manifest)|
  {
    var times: map<string, seq<int>> := map code | code in codes :: [];
    recordCount := 0;
    var i := 0;
    while i < |manifest|
      invariant 0 <= i <= |manifest|
      invariant forall j :: 0 <= j < i ==> GoodChunk(codes, manifest[j])
      invariant Tally(times, codes, AllRecords(manifest[..i]))
      invariant recordCount == |AllRecords(manifest[..i])|
    {
      var read := ReadChunk(codes, manifest[i], times, AllRecords(manifest[..i]));
      if read.Err? {
        return Err(read.error), recordCount;
      }
      assert manifest[..i + 1][..i] == manifest[..i];
      times := read.value;
      recordCount := recordCount + |manifest[i].records.value|;
      i := i + 1;
    }
    assert manifest[..|manifest|] == manifest;
    r := Ok(times);
  }

  method NoDuplicates(codes: seq<string>, times: map<string, seq<int>>) returns (ok: bool)
    requires forall code :: code in codes ==> code in times
    ensures ok <==> forall code :: code in codes ==> NoRepeats(times[code])
  {
    var duplicates := 0;
    var i := 0;
    while i < |codes|
      invariant 0 <= i <= |codes| && duplicates >= 0
      invariant duplicates == 0 <==> forall j :: 0 <= j < i ==> NoRepeats(times[codes[j]])
    {
      var sent := times[codes[i]];
      SortedDistinctMeans(sent);
      duplicates := duplicates + (|sent| - |SortedDistinct(sent)|);
      i := i + 1;
    }
    ok := duplicates == 0;
  }

  /** Reduce the chunks of a transfer to the exact keys of each requested code. */
  method ExpectedDailyKeys<D>(codes: seq<string>, manifest: seq<Chunk>, digest: seq<int> -> D)
    returns (r: Result<Expected<D>, TransferError>)
    ensures r.Ok? <==> GoodManifest(codes, manifest) && SentOnce(AllRecords(manifest), codes)
    ensures r.Ok? ==> ExpectationOf(r.value, codes, AllRecords(manifest), digest)
  {
    var contiguous := IndicesMatch(manifest);
    if !contiguous {
      return Err(ChunksNotContiguous);
    }
    var read, recordCount := ReadManifest(codes, manifest);
    if read.Err? {
      return Err(read.error);
    }
    var times := read.value;
    var once := NoDuplicates(codes, times);
    if !once {
      return Err(DuplicateKeys);
    }
    r := Ok(Expected(recordCount, map code | code in times :: Summarize(times[code], digest)));
  }

  ghost predicate ExpectationOf<D>(e: Expected<D>, codes: seq<string>, records: seq<Record>, digest: seq<int> -> D) {
    && e.recordCount == |records|
    && (forall code :: code in e.symbols <==> code in codes)
    && forall code :: code in codes ==> e.symbols[code] == Summarize(SentTimes(records, code), digest)
  }
}
