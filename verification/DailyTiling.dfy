/**
  What every daily ledger keeps: the jobs that are not superseded tile the cells of the initial
  jobs, through any splitting.
 */
module DailyTiling {
  import opened DailyJobs

  predicate Live(j: Job) {
    !j.status.Superseded?
  }

  ghost predicate LiveCovered(jobs: seq<Job>, code: string, day: int) {
    exists i :: 0 <= i < |jobs| && Live(jobs[i]) && InJob(jobs[i], code, day)
  }

  ghost predicate AllRectangles(jobs: seq<Job>) {
    forall i :: 0 <= i < |jobs| ==> Rectangle(jobs[i])
  }

  ghost predicate LiveDisjoint(jobs: seq<Job>) {
    forall i, j :: 0 <= i < j < |jobs| && Live(jobs[i]) && Live(jobs[j]) ==> Disjoint(jobs[i], jobs[j])
  }

  ghost predicate LiveCovers(jobs: seq<Job>, planned: seq<Job>) {
    forall code, day :: LiveCovered(jobs, code, day) <==> Covered(planned, code, day)
  }

  /** Jobs of one kind (a base and a number of retries) never overlap, superseded or not. */
  ghost predicate KindsDisjoint(jobs: seq<Job>) {
    forall i, j :: 0 <= i < j < |jobs| && jobs[i].base == jobs[j].base && jobs[i].retries == jobs[j].retries ==>
      Disjoint(jobs[i], jobs[j])
  }

  ghost predicate IsParent(p: Job, j: Job) {
    && p.status.Superseded? && p.base == j.base && p.retries + 1 == j.retries
    && forall code, day :: InJob(j, code, day) ==> InJob(p, code, day)
  }

  ghost predicate HasParent(jobs: seq<Job>, j: Job) {
    exists p :: 0 <= p < |jobs| && IsParent(jobs[p], j)
  }

  ghost predicate Parented(jobs: seq<Job>) {
    forall i :: 0 <= i < |jobs| && jobs[i].retries > 0 ==> HasParent(jobs, jobs[i])
  }

  ghost predicate Bookkept(jobs: seq<Job>) {
    forall i :: 0 <= i < |jobs| ==> jobs[i].attempt == jobs[i].retries && (jobs[i].children != [] ==> !Live(jobs[i]))
  }

  ghost predicate Tiling(jobs: seq<Job>, planned: seq<Job>) {
    && AllRectangles(jobs) && LiveDisjoint(jobs) && LiveCovers(jobs, planned)
    && KindsDisjoint(jobs) && Parented(jobs) && Bookkept(jobs)
  }

  lemma InitialTiling(planned: seq<Job>)
    requires PairwiseDisjoint(planned)
    requires forall i :: 0 <= i < |planned| ==> Rectangle(planned[i]) && Initial(planned[i])
    ensures Tiling(planned, planned)
  {
    forall code, day ensures LiveCovered(planned, code, day) <==> Covered(planned, code, day) {
      if Covered(planned, code, day) {
        var i :| 0 <= i < |planned| && InJob(planned[i], code, day);
        assert Live(planned[i]);
      }
    }
  }

  // ---------------------------------------------------------------------------------------
  // Steps that do not split

  predicate SameTile(a: Job, b: Job) {
    && IdOf(a) == IdOf(b) && a.attempt == b.attempt && a.children == b.children
    && (Live(a) <==> Live(b))
  }

  ghost predicate Relabelled(before: seq<Job>, after: seq<Job>) {
    |before| == |after| && forall i :: 0 <= i < |before| ==> SameTile(before[i], after[i])
  }

  lemma RelabelKeepsTiling(before: seq<Job>, after: seq<Job>, planned: seq<Job>)
    requires Tiling(before, planned) && Relabelled(before, after)
    ensures Tiling(after, planned)
  {
    forall i | 0 <= i < |after| ensures Rectangle(after[i]) {
      assert SameTile(before[i], after[i]) && Rectangle(before[i]);
    }
    RelabelKeepsCover(before, after, planned);
    RelabelKeepsDisjoint(before, after);
    RelabelKeepsParents(before, after);
  }

  lemma RelabelKeepsCover(before: seq<Job>, after: seq<Job>, planned: seq<Job>)
    requires LiveCovers(before, planned) && Relabelled(before, after)
    ensures LiveCovers(after, planned)
  {
    forall code, day ensures LiveCovered(after, code, day) <==> LiveCovered(before, code, day) {
      if LiveCovered(before, code, day) {
        var i :| 0 <= i < |before| && Live(before[i]) && InJob(before[i], code, day);
        assert SameTile(before[i], after[i]) && InJob(after[i], code, day);
      }
      if LiveCovered(after, code, day) {
        var i :| 0 <= i < |after| && Live(after[i]) && InJob(after[i], code, day);
        assert SameTile(before[i], after[i]) && InJob(before[i], code, day);
      }
    }
  }

  lemma RelabelKeepsDisjoint(before: seq<Job>, after: seq<Job>)
    requires LiveDisjoint(before) && KindsDisjoint(before) && Relabelled(before, after)
    ensures LiveDisjoint(after) && KindsDisjoint(after)
  {
    forall i, j | 0 <= i < j < |after| && Disjoint(before[i], before[j]) ensures Disjoint(after[i], after[j]) {
      assert SameTile(before[i], after[i]) && SameTile(before[j], after[j]);
      forall code, day ensures !(InJob(after[i], code, day) && InJob(after[j], code, day)) {
        assert !(InJob(before[i], code, day) && InJob(before[j], code, day));
      }
    }
    forall i, j | 0 <= i < j < |after| && Live(after[i]) && Live(after[j]) ensures Disjoint(after[i], after[j]) {
      assert SameTile(before[i], after[i]) && SameTile(before[j], after[j]);
      assert Disjoint(before[i], before[j]);
    }
    forall i, j | 0 <= i < j < |after| && after[i].base == after[j].base && after[i].retries == after[j].retries
      ensures Disjoint(after[i], after[j])
    {
      assert SameTile(before[i], after[i]) && SameTile(before[j], after[j]);
      assert Disjoint(before[i], before[j]);
    }
  }

  lemma RelabelKeepsParents(before: seq<Job>, after: seq<Job>)
    requires Parented(before) && Bookkept(before) && Relabelled(before, after)
    ensures Parented(after) && Bookkept(after)
  {
    forall i | 0 <= i < |after| && after[i].retries > 0 ensures HasParent(after, after[i]) {
      assert SameTile(before[i], after[i]) && HasParent(before, before[i]);
      var p :| 0 <= p < |before| && IsParent(before[p], before[i]);
      assert SameTile(before[p], after[p]);
      forall code, day | InJob(after[i], code, day) ensures InJob(after[p], code, day) {
        assert InJob(before[i], code, day) && InJob(before[p], code, day);
      }
      assert IsParent(after[p], after[i]);
    }
    forall i | 0 <= i < |after| ensures after[i].attempt == after[i].retries && (after[i].children != [] ==> !Live(after[i])) {
      assert SameTile(before[i], after[i]);
    }
  }

  // ---------------------------------------------------------------------------------------
  // Splitting

  function Ids(jobs: seq<Job>): (ids: seq<JobId>)
    ensures |ids| == |jobs| && forall i :: 0 <= i < |jobs| ==> ids[i] == IdOf(jobs[i])
  {
    seq(|jobs|, i requires 0 <= i < |jobs| => IdOf(jobs[i]))
  }

  /** Job k lists its halves as children, and they join the ledger. */
  function WithChildren(jobs: seq<Job>, k: nat): seq<Job>
    requires k < |jobs|
  {
    jobs[k := jobs[k].(children := Ids(Halves(jobs[k])))] + Halves(jobs[k])
  }

  /** The same, with job k superseded. */
  function Divided(jobs: seq<Job>, k: nat): seq<Job>
    requires k < |jobs|
  {
    WithChildren(jobs, k)[k := WithChildren(jobs, k)[k].(status := Superseded)]
  }

  /** The ledger around a split, without the shape of the halves. */
  ghost predicate SplitAt(before: seq<Job>, after: seq<Job>, k: nat) {
    && k < |before| && |after| == |before| + 2
    && IdOf(after[k]) == IdOf(before[k]) && after[k].attempt == before[k].attempt && !Live(after[k])
    && (forall i :: 0 <= i < |before| && i != k ==> after[i] == before[i])
    && SplitsInto(before[k], after[|before|..])
  }

  lemma DividedSplits(jobs: seq<Job>, k: nat)
    requires k < |jobs| && Rectangle(jobs[k]) && Halves(jobs[k]) != []
    ensures SplitAt(jobs, Divided(jobs, k), k)
  {
    HalvesPartition(jobs[k]);
    assert Divided(jobs, k)[|jobs|..] == Halves(jobs[k]);
  }

  /** A job as wide as k's halves shares no cell with k, because its own parent is another job. */
  lemma CousinsApart(jobs: seq<Job>, k: nat, i: nat)
    requires KindsDisjoint(jobs) && Parented(jobs)
    requires k < |jobs| && Live(jobs[k]) && i < |jobs|
    requires jobs[i].base == jobs[k].base && jobs[i].retries == jobs[k].retries + 1
    ensures Disjoint(jobs[i], jobs[k])
  {
    assert HasParent(jobs, jobs[i]);
    var p :| 0 <= p < |jobs| && IsParent(jobs[p], jobs[i]);
    assert p != k;
    if p < k {
      assert Disjoint(jobs[p], jobs[k]);
      DisjointSymmetric(jobs[p], jobs[k]);
    } else {
      assert Disjoint(jobs[k], jobs[p]);
    }
    DisjointFromHalf(jobs[k], jobs[p], jobs[i]);
    DisjointSymmetric(jobs[k], jobs[i]);
  }

  /** So the halves carry ids no job of the ledger has: filtering them by id drops nothing. */
  lemma HalvesAreNew(jobs: seq<Job>, k: nat, planned: seq<Job>, half: Job)
    requires Tiling(jobs, planned) && k < |jobs| && Live(jobs[k]) && half in Halves(jobs[k])
    ensures IdOf(half) !in Ids(jobs)
  {
    HalvesPartition(jobs[k]);
    forall i | 0 <= i < |jobs| ensures IdOf(jobs[i]) != IdOf(half) {
      if jobs[i].base == half.base && jobs[i].retries == half.retries {
        CousinsApart(jobs, k, i);
        DisjointFromHalf(jobs[i], jobs[k], half);
        DisjointMeansDistinct(jobs[i], half);
      }
    }
  }

  lemma DisjointMeansDistinct(a: Job, b: Job)
    requires Rectangle(b) && Disjoint(a, b)
    ensures IdOf(a) != IdOf(b)
  {
    assert InJob(b, b.codes[0], b.first) && !InJob(a, b.codes[0], b.first);
  }

  lemma SplitKeepsTiling(before: seq<Job>, after: seq<Job>, k: nat, planned: seq<Job>)
    requires Tiling(before, planned) && SplitAt(before, after, k) && Live(before[k])
    ensures Tiling(after, planned)
  {
    forall i | 0 <= i < |after| ensures Rectangle(after[i]) {
      SplitMember(before, after, k, i);
    }
    SplitKeepsCover(before, after, k, planned);
    SplitKeepsLiveDisjoint(before, after, k);
    SplitKeepsKinds(before, after, k);
    SplitKeepsParents(before, after, k);
  }

  lemma SplitMember(before: seq<Job>, after: seq<Job>, k: nat, i: nat)
    requires SplitAt(before, after, k) && i < |after| && AllRectangles(before)
    ensures i < |before| && i != k ==> after[i] == before[i]
    ensures i >= |before| ==> after[i] == after[|before|..][i - |before|]
    ensures i >= |before| ==> forall code, day :: InJob(after[i], code, day) ==> InJob(before[k], code, day)
    ensures Rectangle(after[i])
  {
    if i == k {
      assert Rectangle(before[k]);
    } else if i < |before| {
      assert Rectangle(before[i]);
    }
  }

  lemma SplitKeepsCover(before: seq<Job>, after: seq<Job>, k: nat, planned: seq<Job>)
    requires LiveCovers(before, planned) && AllRectangles(before) && SplitAt(before, after, k) && Live(before[k])
    ensures LiveCovers(after, planned)
  {
    var n := |before|;
    forall code, day ensures LiveCovered(after, code, day) <==> LiveCovered(before, code, day) {
      if LiveCovered(after, code, day) {
        var i :| 0 <= i < |after| && Live(after[i]) && InJob(after[i], code, day);
        SplitMember(before, after, k, i);
        assert i < n ==> InJob(before[i], code, day);
      }
      if LiveCovered(before, code, day) {
        var i :| 0 <= i < n && Live(before[i]) && InJob(before[i], code, day);
        if i == k {
          var half := if InJob(after[n..][0], code, day) then n else n + 1;
          SplitMember(before, after, k, half);
          assert Live(after[half]) && InJob(after[half], code, day);
        } else {
          assert InJob(after[i], code, day);
        }
      }
    }
  }

  lemma DisjointFromHalf(a: Job, parent: Job, half: Job)
    requires Disjoint(a, parent) && forall code, day :: InJob(half, code, day) ==> InJob(parent, code, day)
    ensures Disjoint(a, half)
  {
  }

  lemma DisjointSymmetric(a: Job, b: Job)
    requires Disjoint(a, b)
    ensures Disjoint(b, a)
  {
    forall code, day ensures !(InJob(b, code, day) && InJob(a, code, day)) {
      assert !(InJob(a, code, day) && InJob(b, code, day));
    }
  }

  lemma HalvesApart(before: seq<Job>, after: seq<Job>, k: nat)
    requires SplitAt(before, after, k)
    ensures Disjoint(after[|before|], after[|before| + 1])
  {
    assert after[|before|..][0] == after[|before|] && after[|before|..][1] == after[|before| + 1];
  }

  lemma SplitKeepsLiveDisjoint(before: seq<Job>, after: seq<Job>, k: nat)
    requires LiveDisjoint(before) && AllRectangles(before) && SplitAt(before, after, k) && Live(before[k])
    ensures LiveDisjoint(after)
  {
    var n := |before|;
    forall i, j | 0 <= i < j < |after| && Live(after[i]) && Live(after[j]) ensures Disjoint(after[i], after[j]) {
      if i >= n {
        HalvesApart(before, after, k);
      } else if j >= n {
        if i < k { assert Disjoint(before[i], before[k]); } else { DisjointSymmetric(before[k], before[i]); }
        SplitMember(before, after, k, j);
        DisjointFromHalf(before[i], before[k], after[j]);
      } else {
        assert Disjoint(before[i], before[j]);
      }
    }
  }

  lemma SplitKeepsKinds(before: seq<Job>, after: seq<Job>, k: nat)
    requires KindsDisjoint(before) && Parented(before) && AllRectangles(before) && SplitAt(before, after, k) && Live(before[k])
    ensures KindsDisjoint(after)
  {
    var n := |before|;
    forall i, j | 0 <= i < j < |after| && after[i].base == after[j].base && after[i].retries == after[j].retries
      ensures Disjoint(after[i], after[j])
    {
      if i >= n {
        HalvesApart(before, after, k);
      } else if j >= n {
        SplitMember(before, after, k, j);
        assert after[j].retries == before[k].retries + 1;
        CousinsApart(before, k, i);
        DisjointFromHalf(before[i], before[k], after[j]);
      } else {
        assert Disjoint(before[i], before[j]);
        SameCells(before[i], after[i], before[j], after[j]);
      }
    }
  }

  lemma SameCells(a: Job, a': Job, b: Job, b': Job)
    requires Disjoint(a, b) && IdOf(a) == IdOf(a') && IdOf(b) == IdOf(b')
    ensures Disjoint(a', b')
  {
    forall code, day ensures !(InJob(a', code, day) && InJob(b', code, day)) {
      assert !(InJob(a, code, day) && InJob(b, code, day));
    }
  }

  lemma SplitKeepsParents(before: seq<Job>, after: seq<Job>, k: nat)
    requires Parented(before) && Bookkept(before) && AllRectangles(before) && SplitAt(before, after, k) && Live(before[k])
    ensures Parented(after) && Bookkept(after)
  {
    var n := |before|;
    forall i | 0 <= i < |after| && after[i].retries > 0 ensures HasParent(after, after[i]) {
      if i >= n {
        SplitMember(before, after, k, i);
        forall code, day | InJob(after[i], code, day) ensures InJob(after[k], code, day) {
          assert InJob(before[k], code, day);
        }
        assert IsParent(after[k], after[i]);
      } else {
        assert HasParent(before, before[i]);
        var p :| 0 <= p < n && IsParent(before[p], before[i]);
        forall code, day | InJob(after[i], code, day) ensures InJob(after[p], code, day) {
          assert InJob(before[i], code, day) && InJob(before[p], code, day);
        }
        assert after[p] == before[p];
        assert IsParent(after[p], after[i]);
      }
    }
    forall i | 0 <= i < |after| ensures after[i].attempt == after[i].retries && (after[i].children != [] ==> !Live(after[i])) {
      SplitMember(before, after, k, i);
    }
  }

  // ---------------------------------------------------------------------------------------
  // Consequences

  /** Every planned cell lies in exactly one job that is not superseded. */
  lemma ExactlyOneLiveJob(jobs: seq<Job>, planned: seq<Job>, code: string, day: int) returns (i: nat)
    requires Tiling(jobs, planned) && Covered(planned, code, day)
    ensures i < |jobs| && Live(jobs[i]) && InJob(jobs[i], code, day)
    ensures forall j :: 0 <= j < |jobs| && Live(jobs[j]) && InJob(jobs[j], code, day) ==> j == i
  {
    assert LiveCovered(jobs, code, day);
    i :| 0 <= i < |jobs| && Live(jobs[i]) && InJob(jobs[i], code, day);
  }

  /** No two jobs of a ledger, superseded ones included, share an id. */
  lemma IdsAreDistinct(jobs: seq<Job>, planned: seq<Job>, i: nat, j: nat)
    requires Tiling(jobs, planned) && i < j < |jobs|
    ensures IdOf(jobs[i]) != IdOf(jobs[j])
  {
    if jobs[i].base == jobs[j].base && jobs[i].retries == jobs[j].retries {
      DisjointMeansDistinct(jobs[i], jobs[j]);
    }
  }
}
