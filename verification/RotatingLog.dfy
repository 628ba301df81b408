/**
  The supervisor's append log with size-based rotation: file 0 is the current one, file i the
  i-th backup.
 */
module RotatingLog {
  type Bytes = seq<bv8>

  function FileOr(files: map<nat, Bytes>, i: nat): Bytes {
    if i in files then files[i] else []
  }

  /** Backups from the oldest of the first `n` to the newest, then the current file. */
  function Chain(files: map<nat, Bytes>, n: nat): Bytes {
    if n == 0 then FileOr(files, 0) else FileOr(files, n) + Chain(files, n - 1)
  }

  ghost predicate Suffix(tail: Bytes, all: Bytes) {
    |tail| <= |all| && tail == all[|all| - |tail|..]
  }

  /** Every file moves one place on, the last configured backup is dropped, the current file is new. */
  ghost predicate IsRotated(before: map<nat, Bytes>, after: map<nat, Bytes>, backups: nat) {
    && 0 in after && after[0] == []
    && (forall i: nat, j: nat :: j == i + 1 && i < backups ==>
          (i in before <==> j in after) && (i in before ==> after[j] == before[i]))
    && (forall i: nat :: i > backups ==> (i in before <==> i in after) && (i in before ==> after[i] == before[i]))
  }

  class BinaryLog {
    const maxBytes: int
    const backups: int
    var files: map<nat, Bytes>

    ghost predicate Valid()
      reads this
    {
      0 in files
    }

    ghost function Kept(): Bytes
      reads this
    {
      Chain(files, if backups > 0 then backups else 0)
    }

    /** Opening in append mode keeps what is there. */
    constructor (existing: map<nat, Bytes>, maxBytes: int, backups: int)
      ensures Valid() && this.maxBytes == maxBytes && this.backups == backups
      ensures files == if 0 in existing then existing else existing[0 := []]
    {
      this.maxBytes, this.backups := maxBytes, backups;
      files := if 0 in existing then existing else existing[0 := []];
    }

    method Rotate()
      requires Valid() && backups > 0
      modifies this`files
      ensures Valid() && IsRotated(old(files), files, backups)
    {
      ghost var before := files;
      if backups in files {
        files := files - {backups};
      }
      var index := backups - 1;
      while index > 0
        invariant 0 <= index < backups
        invariant Shifting(before, files, index, backups)
      {
        ShiftOne(before, files, index, backups);
        if index in files {
          files := files[index + 1 := files[index]] - {index};
        }
        index := index - 1;
      }
      ShiftOne(before, files, 0, backups);
      if 0 in files {
        files := files[1 := files[0]] - {0};
      }
      ShiftDone(before, files, backups);
      files := files[0 := []];
    }

    method Write(payload: Bytes)
      requires Valid()
      modifies this`files
      ensures Valid() && Wrote(old(files), files, payload, maxBytes, backups)
      ensures Suffix(Kept(), old(Kept()) + payload)
    {
      ghost var before := files;
      if payload == [] {
        assert files[0] + payload == files[0];
        assert files == files[0 := files[0]];
        assert Wrote(before, files, payload, maxBytes, backups);
        WroteKeepsSuffix(before, files, payload, maxBytes, backups);
        return;
      }
      if backups > 0 && maxBytes > 0 && |files[0]| + |payload| > maxBytes {
        Rotate();
        assert files[0] + payload == payload;
        assert files[0 := payload][0 := []] == files;
      }
      files := files[0 := files[0] + payload];
      assert Wrote(before, files, payload, maxBytes, backups);
      WroteKeepsSuffix(before, files, payload, maxBytes, backups);
    }
  }

  /** Files above `index` have moved one place on, the place after it is free, the others stand. */
  ghost predicate Shifting(before: map<nat, Bytes>, now: map<nat, Bytes>, index: int, backups: nat) {
    && (forall i: nat :: i <= index || i > backups ==> (i in now <==> i in before) && (i in before ==> now[i] == before[i]))
    && index + 1 !in now
    && (forall i: nat, j: nat :: j == i + 1 && index < i < backups ==>
          (i in before <==> j in now) && (i in before ==> now[j] == before[i]))
  }

  lemma ShiftDone(before: map<nat, Bytes>, now: map<nat, Bytes>, backups: nat)
    requires Shifting(before, now, -1, backups)
    ensures IsRotated(before, now[0 := []], backups)
  {
  }

  lemma ShiftOne(before: map<nat, Bytes>, now: map<nat, Bytes>, index: nat, backups: nat)
    requires index < backups && Shifting(before, now, index, backups)
    ensures Shifting(before, if index in now then now[index + 1 := now[index]] - {index} else now, index - 1, backups)
  {
    var after := if index in now then now[index + 1 := now[index]] - {index} else now;
    forall i: nat, j: nat | j == i + 1 && index - 1 < i < backups
      ensures (i in before <==> j in after) && (i in before ==> after[j] == before[i])
    {
      assert i > index ==> (i in before <==> j in now);
    }
  }

  /** A payload that would exceed the size goes to a new file, any other is appended. */
  ghost predicate Wrote(before: map<nat, Bytes>, after: map<nat, Bytes>, payload: Bytes, maxBytes: int, backups: int) {
    && 0 in before && 0 in after
    && if payload != [] && backups > 0 && maxBytes > 0 && |before[0]| + |payload| > maxBytes
       then after[0] == payload && IsRotated(before, after[0 := []], backups)
       else after == before[0 := before[0] + payload]
  }

  // ---------------------------------------------------------------------------------------
  // What rotation does to the chain

  /** Shifting every file by one leaves the chain as it was, without the oldest file. */
  lemma {:induction false} ShiftedChain(before: map<nat, Bytes>, after: map<nat, Bytes>, backups: nat, n: nat)
    requires IsRotated(before, after, backups) && n < backups
    ensures Chain(after, n + 1) == Chain(before, n)
    decreases n
  {
    assert FileOr(after, n + 1) == FileOr(before, n);
    if n > 0 {
      ShiftedChain(before, after, backups, n - 1);
    }
  }

  lemma RotationDropsOldest(before: map<nat, Bytes>, after: map<nat, Bytes>, backups: nat)
    requires backups > 0 && IsRotated(before, after, backups)
    ensures Chain(before, backups) == FileOr(before, backups) + Chain(after, backups)
    ensures Suffix(Chain(after, backups), Chain(before, backups))
  {
    ShiftedChain(before, after, backups, backups - 1);
  }

  lemma {:induction false} ChainAppends(before: map<nat, Bytes>, after: map<nat, Bytes>, n: nat, payload: Bytes)
    requires 0 in before && after == before[0 := before[0] + payload]
    ensures Chain(after, n) == Chain(before, n) + payload
    decreases n
  {
    if n > 0 {
      ChainAppends(before, after, n - 1, payload);
    }
  }

  lemma SuffixSelf(all: Bytes)
    ensures Suffix(all, all)
  {
  }

  lemma SuffixExtends(tail: Bytes, all: Bytes, payload: Bytes)
    requires Suffix(tail, all)
    ensures Suffix(tail + payload, all + payload)
  {
  }

  lemma SuffixTransitive(a: Bytes, b: Bytes, c: Bytes)
    requires Suffix(a, b) && Suffix(b, c)
    ensures Suffix(a, c)
  {
  }

  // ---------------------------------------------------------------------------------------
  // Any sequence of writes

  function Flatten(payloads: seq<Bytes>): Bytes {
    if payloads == [] then [] else Flatten(payloads[..|payloads| - 1]) + payloads[|payloads| - 1]
  }

  ghost predicate BackupsWithin(files: map<nat, Bytes>, backups: nat) {
    forall i :: i in files ==> i <= backups
  }

  ghost predicate SizesWithin(files: map<nat, Bytes>, maxBytes: int) {
    forall i :: i in files ==> |files[i]| <= maxBytes
  }

  lemma WroteKeepsSuffix(before: map<nat, Bytes>, after: map<nat, Bytes>, payload: Bytes, maxBytes: int, backups: int)
    requires Wrote(before, after, payload, maxBytes, backups)
    ensures var n := if backups > 0 then backups else 0;
            Suffix(Chain(after, n), Chain(before, n) + payload)
  {
    var n := if backups > 0 then backups else 0;
    if payload != [] && backups > 0 && maxBytes > 0 && |before[0]| + |payload| > maxBytes {
      var rotated := after[0 := []];
      RotationDropsOldest(before, rotated, n);
      assert rotated[0] + payload == payload;
      assert after == rotated[0 := rotated[0] + payload];
      ChainAppends(rotated, after, n, payload);
      SuffixExtends(Chain(rotated, n), Chain(before, n), payload);
    } else {
      ChainAppends(before, after, n, payload);
      SuffixSelf(Chain(after, n));
    }
  }

  lemma WroteKeepsBackups(before: map<nat, Bytes>, after: map<nat, Bytes>, payload: Bytes, maxBytes: int, backups: nat)
    requires Wrote(before, after, payload, maxBytes, backups) && BackupsWithin(before, backups)
    ensures BackupsWithin(after, backups)
  {
    forall i | i in after ensures i <= backups {
      assert i != 0 ==> i in after[0 := []];
    }
  }

  /** After a write the current file is within the size exactly when the payload fits, whatever it held before. */
  lemma CurrentFileFits(before: map<nat, Bytes>, after: map<nat, Bytes>, payload: Bytes, maxBytes: int, backups: int)
    requires Wrote(before, after, payload, maxBytes, backups) && payload != [] && backups > 0 && maxBytes > 0
    ensures |after[0]| <= maxBytes <==> |payload| <= maxBytes
  {
  }

  /** Files that were all within the size stay so when the payload fits. */
  lemma WroteKeepsSizes(before: map<nat, Bytes>, after: map<nat, Bytes>, payload: Bytes, maxBytes: int, backups: int)
    requires Wrote(before, after, payload, maxBytes, backups) && SizesWithin(before, maxBytes)
    requires backups > 0 && maxBytes > 0 && BackupsWithin(before, backups)
    ensures |payload| <= maxBytes ==> SizesWithin(after, maxBytes)
  {
    if payload != [] && |before[0]| + |payload| > maxBytes {
      forall i | i in after && i > 0 ensures |after[i]| <= maxBytes {
        ShiftedFile(before, after[0 := []], backups, i);
      }
    }
  }

  lemma ShiftedFile(before: map<nat, Bytes>, after: map<nat, Bytes>, backups: nat, i: nat)
    requires IsRotated(before, after, backups) && BackupsWithin(before, backups) && i in after && i > 0
    ensures i - 1 in before && after[i] == before[i - 1]
  {
    var p: nat := i - 1;
    assert i == p + 1;
  }

  /** The states a log passes through while payloads are written one after another. */
  ghost predicate Written(states: seq<map<nat, Bytes>>, payloads: seq<Bytes>, maxBytes: int, backups: int) {
    && |states| == |payloads| + 1
    && forall k, l :: 0 <= k < |payloads| && l == k + 1 ==> Wrote(states[k], states[l], payloads[k], maxBytes, backups)
  }

  /** However often it rotated, the log holds the last bytes of everything written, in order. */
  lemma {:induction false} LogIsSuffix(states: seq<map<nat, Bytes>>, payloads: seq<Bytes>, maxBytes: int, backups: int, k: nat)
    requires Written(states, payloads, maxBytes, backups) && k < |states|
    ensures var n := if backups > 0 then backups else 0;
            Suffix(Chain(states[k], n), Chain(states[0], n) + Flatten(payloads[..k]))
  {
    var n := if backups > 0 then backups else 0;
    if k == 0 {
      assert Chain(states[0], n) + [] == Chain(states[0], n);
      SuffixSelf(Chain(states[0], n));
    } else {
      LogIsSuffix(states, payloads, maxBytes, backups, k - 1);
      WroteKeepsSuffix(states[k - 1], states[k], payloads[k - 1], maxBytes, backups);
      OneMorePayload(Chain(states[0], n), Chain(states[k - 1], n), Chain(states[k], n), payloads, k);
    }
  }

  lemma OneMorePayload(start: Bytes, before: Bytes, after: Bytes, payloads: seq<Bytes>, k: nat)
    requires 0 < k <= |payloads|
    requires Suffix(before, start + Flatten(payloads[..k - 1])) && Suffix(after, before + payloads[k - 1])
    ensures Suffix(after, start + Flatten(payloads[..k]))
  {
    var all := start + Flatten(payloads[..k - 1]);
    assert payloads[..k][..k - 1] == payloads[..k - 1];
    assert all + payloads[k - 1] == start + Flatten(payloads[..k]);
    SuffixExtends(before, all, payloads[k - 1]);
    SuffixTransitive(after, before + payloads[k - 1], all + payloads[k - 1]);
  }

  /** In every run, whatever was found or written before, each non-empty write leaves the current file
      within the size exactly when its own payload fits; an empty one leaves it as it was. */
  lemma CurrentFileAlwaysFits(states: seq<map<nat, Bytes>>, payloads: seq<Bytes>, maxBytes: int, backups: int, k: nat)
    requires Written(states, payloads, maxBytes, backups) && k < |payloads| && backups > 0 && maxBytes > 0
    ensures 0 in states[k] && 0 in states[k + 1]
    ensures payloads[k] != [] ==> (|states[k + 1][0]| <= maxBytes <==> |payloads[k]| <= maxBytes)
    ensures payloads[k] == [] ==> states[k + 1] == states[k]
  {
    assert Wrote(states[k], states[k + 1], payloads[k], maxBytes, backups);
    if payloads[k] != [] {
      CurrentFileFits(states[k], states[k + 1], payloads[k], maxBytes, backups);
    } else {
      assert states[k][0] + payloads[k] == states[k][0];
    }
  }

  /** Bytes of the last non-empty payload among the first k, if there is one. */
  function LastSize(payloads: seq<Bytes>, k: nat): (n: nat)
    requires k <= |payloads|
  {
    if k == 0 then 0 else if payloads[k - 1] != [] then |payloads[k - 1]| else LastSize(payloads, k - 1)
  }

  /** So at every moment the current file exceeds the size only if the last payload written did, or
      nothing was written to an oversized file found at the start. */
  lemma {:induction false} OversizeIsExplained(states: seq<map<nat, Bytes>>, payloads: seq<Bytes>, maxBytes: int, backups: int, k: nat)
    requires Written(states, payloads, maxBytes, backups) && 0 < k < |states| && backups > 0 && maxBytes > 0
    ensures 0 in states[0] && 0 in states[k]
    ensures LastSize(payloads, k) > 0 ==> (|states[k][0]| <= maxBytes <==> LastSize(payloads, k) <= maxBytes)
    ensures LastSize(payloads, k) == 0 ==> states[k] == states[0]
  {
    CurrentFileAlwaysFits(states, payloads, maxBytes, backups, k - 1);
    if k == 1 {
      assert LastSize(payloads, 0) == 0;
    } else {
      OversizeIsExplained(states, payloads, maxBytes, backups, k - 1);
    }
  }

  /** No more backups than configured ever exist; all files stay within the size while all payloads fit. */
  lemma {:induction false} LogStaysBounded(states: seq<map<nat, Bytes>>, payloads: seq<Bytes>, maxBytes: int, backups: nat, k: nat)
    requires Written(states, payloads, maxBytes, backups) && k < |states|
    requires BackupsWithin(states[0], backups)
    ensures BackupsWithin(states[k], backups)
    ensures backups > 0 && maxBytes > 0 && SizesWithin(states[0], maxBytes) && AllFit(payloads, maxBytes) ==>
              SizesWithin(states[k], maxBytes)
  {
    if k > 0 {
      LogStaysBounded(states, payloads, maxBytes, backups, k - 1);
      WroteKeepsBackups(states[k - 1], states[k], payloads[k - 1], maxBytes, backups);
      if backups > 0 && maxBytes > 0 && SizesWithin(states[0], maxBytes) && AllFit(payloads, maxBytes) {
        WroteKeepsSizes(states[k - 1], states[k], payloads[k - 1], maxBytes, backups);
      }
    }
  }

  ghost predicate AllFit(payloads: seq<Bytes>, maxBytes: int) {
    forall k :: 0 <= k < |payloads| ==> |payloads[k]| <= maxBytes
  }
}
