/**
  Reading the stored bars of a job month by month and comparing them with what was transferred.
 */
module StoredBars {
  import opened Calendar
  import opened InfluxVerification

  /** One stored bar; times are microseconds, rows are listed in time order. */
  datatype Row = Row(code: string, time: int)

  /** A dictionary remembers the order in which its keys were inserted. */
  datatype Dict<V> = Dict(order: seq<string>, at: map<string, V>)

  datatype Counts = Counts(rows: nat, distinct: nat)

  ghost predicate DistinctCodes(codes: seq<string>) {
    forall i, j :: 0 <= i < j < |codes| ==> codes[i] != codes[j]
  }

  ghost predicate WellFormed<V>(d: Dict<V>) {
    DistinctCodes(d.order) && forall code :: code in d.order <==> code in d.at
  }

  ghost predicate Ordered(rows: seq<Row>) {
    forall i, j :: 0 <= i < j < |rows| ==> rows[i].time <= rows[j].time
  }

  /** The local day of an instant never goes back. */
  ghost predicate Monotone(dayOf: int -> int) {
    forall a, b :: a <= b ==> dayOf(a) <= dayOf(b)
  }

  function TimesIn(rows: seq<Row>, w: Window, dayOf: int -> int, code: string): seq<int> {
    if rows == [] then []
    else (if rows[0].code == code && InWindow(w, dayOf(rows[0].time)) then [rows[0].time] else [])
         + TimesIn(rows[1..], w, dayOf, code)
  }

  function CountsOf(times: seq<int>): Counts {
    Counts(|times|, |SortedDistinct(times)|)
  }

  /** An aggregate read, exact for the requested codes: an entry for each with a row in the window, with
      its counts.  Nothing is known of entries for other codes. */
  ghost predicate ExactCounts(d: Dict<Counts>, rows: seq<Row>, w: Window, dayOf: int -> int, codes: seq<string>) {
    && WellFormed(d)
    && (forall code :: code in codes ==> (code in d.at <==> TimesIn(rows, w, dayOf, code) != []))
    && (forall code :: code in codes && code in d.at ==> d.at[code] == CountsOf(TimesIn(rows, w, dayOf, code)))
  }

  /** A key read, exact for the requested codes: the times of each with a row in the window, ascending. */
  ghost predicate ExactKeys(d: Dict<seq<int>>, rows: seq<Row>, w: Window, dayOf: int -> int, codes: seq<string>) {
    && WellFormed(d)
    && (forall code :: code in codes ==> (code in d.at <==> TimesIn(rows, w, dayOf, code) != []))
    && (forall code :: code in codes && code in d.at ==> d.at[code] == TimesIn(rows, w, dayOf, code))
  }

  // ---------------------------------------------------------------------------------------
  // Adjacent windows

  lemma {:induction false} TimesFrom(rows: seq<Row>, w: Window, dayOf: int -> int, code: string, after: int)
    requires forall i :: 0 <= i < |rows| ==> dayOf(rows[i].time) > after
    requires w.last <= after
    ensures TimesIn(rows, w, dayOf, code) == []
  {
    if rows != [] {
      assert dayOf(rows[0].time) > after;
      TimesFrom(rows[1..], w, dayOf, code, after);
    }
  }

  /** The times of a range are those of its first part followed by those of the rest. */
  lemma {:induction false} TimesSplit(rows: seq<Row>, a: Window, b: Window, dayOf: int -> int, code: string)
    requires Ordered(rows) && Monotone(dayOf)
    requires a.last + 1 == b.first && a.first <= b.first && a.last <= b.last
    ensures TimesIn(rows, Window(a.first, b.last), dayOf, code) == TimesIn(rows, a, dayOf, code) + TimesIn(rows, b, dayOf, code)
  {
    if rows != [] {
      var r := rows[0];
      RestOrdered(rows);
      TimesSplit(rows[1..], a, b, dayOf, code);
      if r.code == code && InWindow(b, dayOf(r.time)) {
        NothingEarlier(rows, a, dayOf, code);
      }
    }
  }

  lemma NothingEarlier(rows: seq<Row>, a: Window, dayOf: int -> int, code: string)
    requires Ordered(rows) && Monotone(dayOf) && rows != [] && dayOf(rows[0].time) > a.last
    ensures TimesIn(rows[1..], a, dayOf, code) == []
  {
    RestIsLater(rows, dayOf, a.last);
    TimesFrom(rows[1..], a, dayOf, code, a.last);
  }

  lemma RestOrdered(rows: seq<Row>)
    requires Ordered(rows) && rows != []
    ensures Ordered(rows[1..])
  {
    assert forall i :: 0 <= i < |rows[1..]| ==> rows[1..][i] == rows[i + 1];
  }

  lemma RestIsLater(rows: seq<Row>, dayOf: int -> int, after: int)
    requires Ordered(rows) && Monotone(dayOf) && rows != [] && dayOf(rows[0].time) > after
    ensures forall i :: 0 <= i < |rows[1..]| ==> dayOf(rows[1..][i].time) > after
  {
    forall i | 0 <= i < |rows[1..]| ensures dayOf(rows[1..][i].time) > after {
      assert rows[0].time <= rows[i + 1].time;
      assert dayOf(rows[0].time) <= dayOf(rows[i + 1].time);
    }
  }

  lemma {:induction false} TimesAreIn(rows: seq<Row>, w: Window, dayOf: int -> int, code: string, t: int)
    requires t in TimesIn(rows, w, dayOf, code)
    ensures InWindow(w, dayOf(t))
  {
    if !(rows[0].code == code && InWindow(w, dayOf(rows[0].time)) && rows[0].time == t) {
      TimesAreIn(rows[1..], w, dayOf, code, t);
    }
  }

  lemma {:induction false} DistinctOfParts(a: seq<int>, b: seq<int>)
    requires forall t :: !(t in a && t in b)
    ensures |SortedDistinct(a + b)| == |SortedDistinct(a)| + |SortedDistinct(b)|
    decreases |b|
  {
    if b == [] {
      assert a + b == a;
    } else {
      var front, x := b[..|b| - 1], b[|b| - 1];
      assert (a + b)[..|a + b| - 1] == a + front;
      assert b == front + [x];
      DistinctOfParts(a, front);
      SortedDistinctMeans(a + front);
      SortedDistinctMeans(front);
      InsertKeySorts(x, SortedDistinct(a + front));
      InsertKeySorts(x, SortedDistinct(front));
      assert x in b;
    }
  }

  /** Counts of adjacent windows add up: no key lies in both. */
  lemma CountsSplit(rows: seq<Row>, a: Window, b: Window, dayOf: int -> int, code: string)
    requires Ordered(rows) && Monotone(dayOf)
    requires a.last + 1 == b.first && a.first <= b.first && a.last <= b.last
    ensures CountsOf(TimesIn(rows, Window(a.first, b.last), dayOf, code))
         == AddCounts(CountsOf(TimesIn(rows, a, dayOf, code)), CountsOf(TimesIn(rows, b, dayOf, code)))
  {
    TimesSplit(rows, a, b, dayOf, code);
    NoCommonTime(rows, a, b, dayOf, code);
    CountsOfParts(TimesIn(rows, a, dayOf, code), TimesIn(rows, b, dayOf, code));
  }

  lemma NoCommonTime(rows: seq<Row>, a: Window, b: Window, dayOf: int -> int, code: string)
    requires a.last < b.first
    ensures forall t :: !(t in TimesIn(rows, a, dayOf, code) && t in TimesIn(rows, b, dayOf, code))
  {
    forall t ensures !(t in TimesIn(rows, a, dayOf, code) && t in TimesIn(rows, b, dayOf, code)) {
      if t in TimesIn(rows, a, dayOf, code) {
        TimesAreIn(rows, a, dayOf, code, t);
        if t in TimesIn(rows, b, dayOf, code) {
          TimesAreIn(rows, b, dayOf, code, t);
        }
      }
    }
  }

  lemma CountsOfParts(a: seq<int>, b: seq<int>)
    requires forall t :: !(t in a && t in b)
    ensures CountsOf(a + b) == AddCounts(CountsOf(a), CountsOf(b))
  {
    DistinctOfParts(a, b);
  }

  function AddCounts(a: Counts, b: Counts): Counts {
    Counts(a.rows + b.rows, a.distinct + b.distinct)
  }

  function AppendKeys(a: seq<int>, b: seq<int>): seq<int> {
    a + b
  }

  // ---------------------------------------------------------------------------------------
  // Accumulating the reads

  /** Entry by entry, `sum` adds `more` to `total`. */
  ghost predicate Merged<V>(total: Dict<V>, more: Dict<V>, sum: Dict<V>, add: (V, V) -> V, done: seq<string>) {
    && WellFormed(sum)
    && (forall code :: code in sum.at <==> code in total.at || code in done)
    && (forall code :: code in done ==> code in more.at)
    && forall code :: code in sum.at ==>
         sum.at[code] == if code in done && code in total.at then add(total.at[code], more.at[code])
                         else if code in done then more.at[code]
                         else total.at[code]
  }

  lemma MergeOne<V>(total: Dict<V>, more: Dict<V>, sum: Dict<V>, add: (V, V) -> V, done: seq<string>, code: string)
    requires Merged(total, more, sum, add, done) && code in more.at && code !in done
    ensures Merged(total, more, AddEntry(sum, code, more.at[code], add), add, done + [code])
  {
    var next := AddEntry(sum, code, more.at[code], add);
    if code !in sum.at {
      assert code !in sum.order;
      forall c ensures c in next.order <==> c in next.at {
        assert c in sum.order <==> c in sum.at;
      }
    }
  }

  function AddEntry<V>(d: Dict<V>, code: string, v: V, add: (V, V) -> V): Dict<V> {
    if code in d.at then d.(at := d.at[code := add(d.at[code], v)]) else Dict(d.order + [code], d.at[code := v])
  }

  method MergeInto<V>(total: Dict<V>, more: Dict<V>, add: (V, V) -> V) returns (sum: Dict<V>)
    requires WellFormed(total) && WellFormed(more)
    ensures Merged(total, more, sum, add, more.order)
  {
    sum := total;
    var i := 0;
    while i < |more.order|
      invariant 0 <= i <= |more.order|
      invariant Merged(total, more, sum, add, more.order[..i])
    {
      var code := more.order[i];
      assert code in more.order && code !in more.order[..i];
      MergeOne(total, more, sum, add, more.order[..i], code);
      assert more.order[..i + 1] == more.order[..i] + [code];
      sum := AddEntry(sum, code, more.at[code], add);
      i := i + 1;
    }
    assert more.order[..|more.order|] == more.order;
  }

  lemma MergedCountsExact(
    total: Dict<Counts>, more: Dict<Counts>, sum: Dict<Counts>, rows: seq<Row>, a: Window, b: Window, dayOf: int -> int,
    codes: seq<string>)
    requires Ordered(rows) && Monotone(dayOf) && WellFormed(more)
    requires a.last + 1 == b.first && a.first <= b.first && a.last <= b.last
    requires ExactCounts(total, rows, a, dayOf, codes) && ExactCounts(more, rows, b, dayOf, codes)
    requires Merged(total, more, sum, AddCounts, more.order)
    ensures ExactCounts(sum, rows, Window(a.first, b.last), dayOf, codes)
  {
    forall code | code in codes
      ensures code in sum.at <==> TimesIn(rows, Window(a.first, b.last), dayOf, code) != []
      ensures code in sum.at ==> sum.at[code] == CountsOf(TimesIn(rows, Window(a.first, b.last), dayOf, code))
    {
      MergedAt(total, more, sum, AddCounts, code);
      TimesSplit(rows, a, b, dayOf, code);
      CountsSplit(rows, a, b, dayOf, code);
    }
  }

  lemma MergedKeysExact(
    total: Dict<seq<int>>, more: Dict<seq<int>>, sum: Dict<seq<int>>, rows: seq<Row>, a: Window, b: Window, dayOf: int -> int,
    codes: seq<string>)
    requires Ordered(rows) && Monotone(dayOf) && WellFormed(more)
    requires a.last + 1 == b.first && a.first <= b.first && a.last <= b.last
    requires ExactKeys(total, rows, a, dayOf, codes) && ExactKeys(more, rows, b, dayOf, codes)
    requires Merged(total, more, sum, AppendKeys, more.order)
    ensures ExactKeys(sum, rows, Window(a.first, b.last), dayOf, codes)
  {
    forall code | code in codes
      ensures code in sum.at <==> TimesIn(rows, Window(a.first, b.last), dayOf, code) != []
      ensures code in sum.at ==> sum.at[code] == TimesIn(rows, Window(a.first, b.last), dayOf, code)
    {
      MergedAt(total, more, sum, AppendKeys, code);
      TimesSplit(rows, a, b, dayOf, code);
    }
  }

  /** One entry of a merge. */
  lemma MergedAt<V>(total: Dict<V>, more: Dict<V>, sum: Dict<V>, add: (V, V) -> V, code: string)
    requires WellFormed(more) && Merged(total, more, sum, add, more.order)
    ensures code in sum.at <==> code in total.at || code in more.at
    ensures code in total.at && code in more.at ==> sum.at[code] == add(total.at[code], more.at[code])
    ensures code in total.at && code !in more.at ==> sum.at[code] == total.at[code]
    ensures code !in total.at && code in more.at ==> sum.at[code] == more.at[code]
  {
    assert code in more.order <==> code in more.at;
  }
}
