/** Selection of jobs to stop or resume, and batched hiring
    (ai4s/jobq/orchestration/workforce.py). */
module Workforce {
  import opened Basics
  import opened Sorting

  datatype Status = Paused | Queued | Waiting | Preparing | Starting | Running | Inactive

  datatype Job = Job(name: string, status: Status)

  /** `_LAYOFF_STATUS_PRIORITY`. */
  const PRIORITY: seq<Status> := [Paused, Queued, Waiting, Preparing, Starting, Running]

  /** Position in the priority list. */
  function Rank(j: Job): int {
    match j.status
    case Paused => 0
    case Queued => 1
    case Waiting => 2
    case Preparing => 3
    case Starting => 4
    case Running => 5
    case Inactive => 6
  }

  // ---- the sort key of the source ----

  /** `tuple(job.status == s for s in _LAYOFF_STATUS_PRIORITY)`. */
  function Key(j: Job): seq<bool> {
    seq(|PRIORITY|, i requires 0 <= i < |PRIORITY| => j.status == PRIORITY[i])
  }

  /** Python's `<` on tuples of booleans. */
  predicate TupleLess(a: seq<bool>, b: seq<bool>) {
    if a == [] then b != []
    else if b == [] then false
    else if a[0] == b[0] then TupleLess(a[1..], b[1..])
    else b[0]
  }

  /** `sort(key=..., reverse=True)` puts larger keys first and keeps ties in order. */
  predicate LargerKeyFirst(x: Job, y: Job) {
    TupleLess(Key(y), Key(x))
  }

  lemma TupleFirstDifference(a: seq<bool>, b: seq<bool>, k: nat)
    requires k < |a| == |b| && a[..k] == b[..k] && a[k] != b[k]
    ensures TupleLess(a, b) <==> b[k]
  {
    if k > 0 {
      assert a[0] == a[..k][0] && b[0] == b[..k][0];
      assert a[1..][..k - 1] == a[..k][1..] && b[1..][..k - 1] == b[..k][1..];
      TupleFirstDifference(a[1..], b[1..], k - 1);
    }
  }

  lemma {:induction false} TupleIrreflexive(a: seq<bool>)
    ensures !TupleLess(a, a)
  {
    if a != [] {
      TupleIrreflexive(a[1..]);
    }
  }

  lemma KeyAt(j: Job, i: nat)
    requires i < 6
    ensures Key(j)[i] <==> Rank(j) == i
  {
  }

  /** The reverse order of the tuples of status tests is the order of the priorities. */
  lemma KeyOrderIsPriority(x: Job, y: Job)
    requires x.status != Inactive && y.status != Inactive
    ensures LargerKeyFirst(x, y) <==> Rank(x) < Rank(y)
  {
    var k := Min(Rank(x), Rank(y));
    if Rank(x) == Rank(y) {
      assert Key(x) == Key(y);
      TupleIrreflexive(Key(x));
    } else {
      forall i | 0 <= i <= k
        ensures Key(x)[i] == (i == Rank(x)) && Key(y)[i] == (i == Rank(y))
      {
        KeyAt(x, i);
        KeyAt(y, i);
      }
      assert Key(x)[..k] == Key(y)[..k];
      TupleFirstDifference(Key(y), Key(x), k);
    }
  }

  // ---- an independent description of the result ----

  function ByRank(v: int): Job -> bool {
    HasRank(Rank, v)
  }

  /** All jobs of the first `m` priorities: those of the best priority first, each in listing order. */
  function Buckets(jobs: seq<Job>, m: nat): seq<Job> {
    if m == 0 then [] else Buckets(jobs, m - 1) + Filter(jobs, ByRank(m - 1))
  }

  lemma {:induction false} BucketsAppend(jobs: seq<Job>, last: Job, m: nat)
    requires forall j :: j in jobs ==> Rank(j) <= Rank(last)
    ensures Buckets(jobs + [last], m) == if Rank(last) < m then Buckets(jobs, m) + [last] else Buckets(jobs, m)
  {
    if m > 0 {
      BucketsAppend(jobs, last, m - 1);
      FilterAppend(jobs, last, ByRank(m - 1));
      if Rank(last) < m - 1 {
        FilterNone(jobs, m - 1);
      }
    }
  }

  lemma {:induction false} FilterNone(jobs: seq<Job>, v: int)
    requires forall j :: j in jobs ==> Rank(j) != v
    ensures Filter(jobs, ByRank(v)) == []
  {
    if jobs != [] {
      assert jobs[|jobs| - 1] in jobs;
      FilterNone(jobs[..|jobs| - 1], v);
    }
  }

  /** A sequence sorted by rank is the concatenation of its buckets. */
  lemma {:induction false} SortedIsBuckets(jobs: seq<Job>, m: nat)
    requires SortedBy(jobs, Rank) && forall j :: j in jobs ==> Rank(j) < m
    ensures Buckets(jobs, m) == jobs
  {
    if jobs == [] {
      EmptyBuckets(m);
    } else {
      var init, last := jobs[..|jobs| - 1], jobs[|jobs| - 1];
      assert jobs == init + [last];
      assert last in jobs;
      SortedIsBuckets(init, m);
      BucketsAppend(init, last, m);
    }
  }

  lemma {:induction false} EmptyBuckets(m: nat)
    ensures Buckets([], m) == []
  {
    if m > 0 {
      EmptyBuckets(m - 1);
    }
  }

  lemma {:induction false} SameBuckets(s: seq<Job>, t: seq<Job>, m: nat)
    requires forall v :: 0 <= v < m ==> Filter(s, ByRank(v)) == Filter(t, ByRank(v))
    ensures Buckets(s, m) == Buckets(t, m)
  {
    if m > 0 {
      SameBuckets(s, t, m - 1);
    }
  }

  predicate Active(jobs: seq<Job>) {
    forall j :: j in jobs ==> j.status != Inactive
  }

  lemma KeyRanks(jobs: seq<Job>)
    requires Active(jobs)
    ensures Ranks(jobs, LargerKeyFirst, Rank)
  {
    forall x, y | x in jobs && y in jobs ensures LargerKeyFirst(x, y) <==> Rank(x) < Rank(y) {
      KeyOrderIsPriority(x, y);
    }
  }

  /** The sort of the source yields exactly the buckets. */
  lemma SortIsBuckets(jobs: seq<Job>)
    requires Active(jobs)
    ensures StableSort(jobs, LargerKeyFirst) == Buckets(jobs, 6)
  {
    var sorted := StableSort(jobs, LargerKeyFirst);
    KeyRanks(jobs);
    SortSorted(jobs, LargerKeyFirst, Rank);
    forall j | j in sorted ensures Rank(j) < 6 {
      SortMember(jobs, LargerKeyFirst, j);
    }
    SortedIsBuckets(sorted, 6);
    forall v | 0 <= v < 6 ensures Filter(sorted, ByRank(v)) == Filter(jobs, ByRank(v)) {
      SortStable(jobs, LargerKeyFirst, Rank, v);
    }
    SameBuckets(sorted, jobs, 6);
  }

  /** Python's `s[:n]`. */
  function Slice<T>(s: seq<T>, n: int): seq<T> {
    if n < 0 then s[..Max(0, |s| + n)] else s[..Min(n, |s|)]
  }

  /** Who is stopped before whom, by name: paused jobs first, then those that wait for resources longest. */
  predicate StoppedBefore(a: Status, b: Status) {
    match b
    case Running => a in {Paused, Queued, Waiting, Preparing, Starting}
    case Starting => a in {Paused, Queued, Waiting, Preparing}
    case Preparing => a in {Paused, Queued, Waiting}
    case Waiting => a in {Paused, Queued}
    case Queued => a == Paused
    case _ => false
  }

  lemma {:induction false} FilterCounts(jobs: seq<Job>, j: Job)
    ensures multiset(Filter(jobs, ByRank(Rank(j))))[j] == multiset(jobs)[j]
  {
    if jobs != [] {
      var init, last := jobs[..|jobs| - 1], jobs[|jobs| - 1];
      assert jobs == init + [last];
      FilterCounts(init, j);
    }
  }

  /** `_layoff_candidates` on the active jobs as listed, oldest first. */
  method LayoffCandidates(listing: seq<Job>, n: int) returns (victims: seq<Job>)
    requires Active(listing)
    ensures victims == Slice(Buckets(listing, 6), n)
    ensures |victims| == if n >= 0 then Min(n, |listing|) else Max(0, |listing| + n)
    ensures multiset(victims) <= multiset(listing)
    // no job is stopped while one of a status that is stopped before it is kept
    ensures forall v, j: Job :: v in victims && StoppedBefore(j.status, v.status) ==>
              multiset(victims)[j] == multiset(listing)[j]
    // every job strictly better than a chosen one is chosen
    ensures forall v, r: int :: v in victims && r < Rank(v) ==>
              Filter(victims, ByRank(r)) == Filter(listing, ByRank(r))
    // among equals the oldest are chosen, in listing order
    ensures forall r: int :: Filter(victims, ByRank(r)) <= Filter(listing, ByRank(r))
  {
    var m := n;
    if |listing| < n {
      m := |listing|;
    }
    var sorted := StableSort(listing, LargerKeyFirst);
    SortIsBuckets(listing);
    SortElements(listing, LargerKeyFirst);
    victims := Slice(sorted, m);
    ghost var k := |victims|;
    assert victims == sorted[..k];
    assert sorted == sorted[..k] + sorted[k..];
    PrefixIsBest(listing, k);
    NobodyBefore(listing, victims);
  }

  lemma NobodyBefore(listing: seq<Job>, victims: seq<Job>)
    requires forall v, r: int :: v in victims && r < Rank(v) ==>
               Filter(victims, ByRank(r)) == Filter(listing, ByRank(r))
    ensures forall v, j: Job :: v in victims && StoppedBefore(j.status, v.status) ==>
              multiset(victims)[j] == multiset(listing)[j]
  {
    forall v, j: Job | v in victims && StoppedBefore(j.status, v.status)
      ensures multiset(victims)[j] == multiset(listing)[j]
    {
      assert Rank(j) < Rank(v);
      FilterCounts(victims, j);
      FilterCounts(listing, j);
    }
  }

  lemma PrefixAndRest(listing: seq<Job>, k: nat, r: int)
    requires Active(listing) && k <= |StableSort(listing, LargerKeyFirst)|
    ensures var sorted := StableSort(listing, LargerKeyFirst);
            Filter(sorted[..k], ByRank(r)) + Filter(sorted[k..], ByRank(r)) == Filter(listing, ByRank(r))
  {
    var sorted := StableSort(listing, LargerKeyFirst);
    KeyRanks(listing);
    SortStable(listing, LargerKeyFirst, Rank, r);
    FilterConcat(sorted[..k], sorted[k..], ByRank(r));
    assert sorted == sorted[..k] + sorted[k..];
  }

  lemma NoBetterLeft(sorted: seq<Job>, k: nat, v: Job, r: int)
    requires SortedBy(sorted, Rank) && k <= |sorted|
    requires v in sorted[..k] && r < Rank(v)
    ensures Filter(sorted[k..], ByRank(r)) == []
  {
    var i :| 0 <= i < k && sorted[i] == v;
    forall j | j in sorted[k..] ensures Rank(j) != r {
      var p :| k <= p < |sorted| && sorted[p] == j;
      assert Rank(sorted[i]) <= Rank(sorted[p]);
    }
    FilterNone(sorted[k..], r);
  }

  lemma PrefixIsBest(listing: seq<Job>, k: nat)
    requires Active(listing) && k <= |listing|
    ensures var sorted := StableSort(listing, LargerKeyFirst);
            && |sorted| == |listing|
            && (forall r: int :: Filter(sorted[..k], ByRank(r)) <= Filter(listing, ByRank(r)))
            && (forall v, r: int :: v in sorted[..k] && r < Rank(v) ==>
                  Filter(sorted[..k], ByRank(r)) == Filter(listing, ByRank(r)))
  {
    var sorted := StableSort(listing, LargerKeyFirst);
    KeyRanks(listing);
    SortSorted(listing, LargerKeyFirst, Rank);
    SortElements(listing, LargerKeyFirst);
    forall r: int ensures Filter(sorted[..k], ByRank(r)) <= Filter(listing, ByRank(r)) {
      PrefixAndRest(listing, k, r);
    }
    forall v, r: int | v in sorted[..k] && r < Rank(v)
      ensures Filter(sorted[..k], ByRank(r)) == Filter(listing, ByRank(r))
    {
      PrefixAndRest(listing, k, r);
      NoBetterLeft(sorted, k, v, r);
    }
  }

  /** `_paused_candidates`: the oldest paused jobs, resumed first come, first served. */
  method PausedCandidates(listing: seq<Job>, n: int) returns (candidates: seq<Job>)
    ensures var paused := Filter(listing, IsPaused);
            && candidates <= paused
            && |candidates| == if n >= 0 then Min(n, |paused|) else Max(0, |paused| + n)
    ensures forall j :: j in candidates ==> j.status == Paused
    ensures n >= |listing| ==>
              forall j: Job :: j.status == Paused ==> multiset(candidates)[j] == multiset(listing)[j]
  {
    var paused := Filter(listing, IsPaused);
    var m := n;
    if |paused| < n {
      m := |paused|;
    }
    candidates := Slice(paused, m);
    PausedCounts(listing);
    assert n >= |listing| ==> candidates == paused;
    forall j | j in candidates ensures j.status == Paused {
      assert j in paused;
    }
  }

  lemma {:induction false} PausedCounts(jobs: seq<Job>)
    ensures var paused := Filter(jobs, IsPaused);
            && |paused| <= |jobs|
            && (forall j :: j in paused ==> j.status == Paused)
            && (forall j: Job :: j.status == Paused ==> multiset(paused)[j] == multiset(jobs)[j])
  {
    if jobs != [] {
      var init, last := jobs[..|jobs| - 1], jobs[|jobs| - 1];
      assert jobs == init + [last];
      PausedCounts(init);
    }
  }

  predicate IsPaused(j: Job) {
    j.status == Paused
  }

  // ---- listing and hiring ----

  function Flatten(pages: seq<seq<Job>>): seq<Job> {
    if pages == [] then [] else Flatten(pages[..|pages| - 1]) + pages[|pages| - 1]
  }

  /** `list_jobs`: follows the continuation tokens and stops at `max_jobs`, which is tested only
      after a job was yielded, so that a limit below one still yields one. */
  method ListJobs(pages: seq<seq<Job>>, maxJobs: Option<int>) returns (jobs: seq<Job>)
    ensures var all := Flatten(pages);
            jobs == if maxJobs.None? then all else all[..Min(Max(1, maxJobs.value), |all|)]
  {
    jobs := [];
    for p := 0 to |pages|
      invariant jobs == Flatten(pages[..p])
      invariant maxJobs.Some? ==> |jobs| < Max(1, maxJobs.value)
    {
      assert pages[..p + 1][..p] == pages[..p];
      FlattenSplit(pages, p + 1);
      ghost var before := jobs;
      for k := 0 to |pages[p]|
        invariant jobs == before + pages[p][..k]
        invariant maxJobs.Some? ==> |jobs| < Max(1, maxJobs.value)
      {
        jobs := jobs + [pages[p][k]];
        assert jobs == before + pages[p][..k + 1];
        if maxJobs.Some? && |jobs| >= maxJobs.value {
          assert jobs == Flatten(pages)[..|jobs|];
          return;
        }
      }
      assert pages[p][..|pages[p]|] == pages[p];
    }
    assert pages[..|pages|] == pages;
    assert Flatten(pages)[..|jobs|] == jobs;
  }

  lemma {:induction false} FlattenSplit(pages: seq<seq<Job>>, p: nat)
    requires p <= |pages|
    ensures Flatten(pages[..p]) <= Flatten(pages)
    decreases |pages|
  {
    if p == |pages| {
      assert pages[..p] == pages;
    } else {
      var n := |pages| - 1;
      assert pages[..n][..p] == pages[..p];
      FlattenSplit(pages[..n], p);
    }
  }

  datatype Hiring = Refused | Batches(sizes: seq<int>, pauses: nat)

  /** `parallel_hire_in_batches`: full batches but the last, `n` workers in all, a pause between
      any two; a non-positive batch size raises unless there is nothing to hire. */
  method HireInBatches(n: int, batchSize: int, delay: real) returns (r: Hiring)
    ensures r.Refused? <==> n > 0 && batchSize <= 0
    ensures r.Batches? ==> Sum(r.sizes) == Max(n, 0)
    ensures r.Batches? ==> forall i :: 0 <= i < |r.sizes| ==>
              0 < r.sizes[i] <= batchSize && (i < |r.sizes| - 1 ==> r.sizes[i] == batchSize)
    ensures r.Batches? ==> r.pauses == if delay > 0.0 then Max(|r.sizes| - 1, 0) else 0
  {
    if n <= 0 {
      return Batches([], 0);
    }
    if batchSize <= 0 {
      return Refused;
    }
    var numBatches := (n + batchSize - 1) / batchSize;
    var sizes: seq<int>, pauses, hired := [], 0, 0;
    BatchCount(n, batchSize);
    for k := 0 to numBatches
      invariant |sizes| == k && Sum(sizes) == hired
      invariant k < numBatches ==> hired == k * batchSize
      invariant k == numBatches ==> hired == n
      invariant forall i :: 0 <= i < |sizes| ==>
                  0 < sizes[i] <= batchSize && (i < numBatches - 1 ==> sizes[i] == batchSize)
      invariant pauses == if delay > 0.0 then Min(k, numBatches - 1) else 0
    {
      var thisBatch := Min(batchSize, n - hired);
      BatchFits(k, numBatches, n, batchSize);
      SumAppend(sizes, thisBatch);
      sizes := sizes + [thisBatch];
      hired := hired + thisBatch;
      if k < numBatches - 1 && delay > 0.0 {
        pauses := pauses + 1;
      }
    }
    return Batches(sizes, pauses);
  }

  lemma BatchCount(n: int, batchSize: int)
    requires n > 0 && batchSize > 0
    ensures var m := (n + batchSize - 1) / batchSize;
            m >= 1 && (m - 1) * batchSize < n <= m * batchSize
  {
    var m := (n + batchSize - 1) / batchSize;
    assert m * batchSize <= n + batchSize - 1 < (m + 1) * batchSize;
    assert (m - 1) * batchSize == m * batchSize - batchSize && (m + 1) * batchSize == m * batchSize + batchSize;
  }

  lemma BatchFits(k: int, m: int, n: int, batchSize: int)
    requires 0 <= k < m && batchSize > 0 && (m - 1) * batchSize < n <= m * batchSize
    ensures n - k * batchSize > 0
    ensures k < m - 1 ==> n - k * batchSize > batchSize && (k + 1) * batchSize == k * batchSize + batchSize
    ensures k == m - 1 ==> n - k * batchSize <= batchSize
  {
    assert (m - 1 - k) * batchSize >= 0;
    assert (m - 1) * batchSize == k * batchSize + (m - 1 - k) * batchSize;
    if k < m - 1 {
      assert (m - 2 - k) * batchSize >= 0;
      assert (m - 1 - k) * batchSize == batchSize + (m - 2 - k) * batchSize;
    } else {
      assert m * batchSize == (m - 1) * batchSize + batchSize;
    }
  }
}
