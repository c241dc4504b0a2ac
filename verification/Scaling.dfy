/** Capacity allocation and autoscaling over regions
    (ai4s/jobq/orchestration/multiregion_workforce.py). */
module Scaling {
  import opened Basics
  import opened Sorting

  // ---- distributing workers over regions ----

  /** A pair produced by `enumerate`. */
  datatype Indexed = Indexed(index: nat, value: int)

  function Enumerate(values: seq<int>): (r: seq<Indexed>)
    ensures |r| == |values| && forall i :: 0 <= i < |r| ==> r[i] == Indexed(i, values[i])
  {
    seq(|values|, i requires 0 <= i < |values| => Indexed(i, values[i]))
  }

  function ValueOf(e: Indexed): int { e.value }

  function PositiveOf(e: Indexed): int { Max(e.value, 0) }

  function IndexOf(e: Indexed): int { e.index }

  predicate SmallerFirst(x: Indexed, y: Indexed) { x.value < y.value }

  /** `sorted(enumerate(values), key=lambda e: e[1])`. */
  function ByValue(values: seq<int>): seq<Indexed> {
    StableSort(Enumerate(values), SmallerFirst)
  }

  function SumPositive(values: seq<int>): int {
    if values == [] then 0 else SumPositive(values[..|values| - 1]) + Max(values[|values| - 1], 0)
  }

  lemma {:induction false} EnumerateSum(values: seq<int>)
    ensures SumOf(Enumerate(values), PositiveOf) == SumPositive(values)
  {
    if values != [] {
      var n := |values| - 1;
      assert Enumerate(values)[..n] == Enumerate(values[..n]);
      EnumerateSum(values[..n]);
    }
  }

  lemma ByValueFacts(values: seq<int>)
    ensures var order := ByValue(values);
            && |order| == |values|
            && SortedBy(order, ValueOf) && DistinctBy(order, IndexOf)
            && SumOf(order, PositiveOf) == SumPositive(values)
            && forall k :: 0 <= k < |order| ==> order[k].index < |values| && order[k].value == values[order[k].index]
  {
    var pairs, order := Enumerate(values), ByValue(values);
    SortElements(pairs, SmallerFirst);
    SortSorted(pairs, SmallerFirst, ValueOf);
    SortDistinct(pairs, SmallerFirst, IndexOf);
    SortSum(pairs, SmallerFirst, PositiveOf);
    EnumerateSum(values);
    forall k | 0 <= k < |order| ensures order[k].index < |values| && order[k].value == values[order[k].index] {
      SortMember(pairs, SmallerFirst, order[k]);
      var i :| 0 <= i < |pairs| && pairs[i] == order[k];
    }
  }

  /** `k` equal shares. */
  function Shares(k: nat, share: nat): nat {
    if k == 0 then 0 else Shares(k - 1, share) + share
  }

  lemma {:induction false} SharesProduct(k: nat, share: nat)
    ensures Shares(k, share) == k * share
  {
    if k > 0 {
      SharesProduct(k - 1, share);
    }
  }

  /** What is handed out after `k` regions of `order`: everything available, or all of `total`, or an
      equal share each, and then no later region has less than a share. */
  ghost predicate Handed(order: seq<Indexed>, k: nat, share: nat, total: nat, sum: int)
    requires k <= |order|
  {
    || sum == SumOf(order[..k], PositiveOf)
    || sum == total
    || (sum == Shares(k, share) && forall j :: k <= j < |order| ==> order[j].value >= share)
  }

  /** What one turn of the loop adds. */
  function Planned(order: seq<Indexed>, k: nat, share: nat, total: nat, sum: int): int
    requires k < |order|
  {
    Min(Min(share + (Shares(k, share) - sum), Max(order[k].value, 0)), total - sum)
  }

  lemma HandedStep(order: seq<Indexed>, k: nat, share: nat, total: nat, sum: int)
    requires k < |order| && SortedBy(order, ValueOf)
    requires sum <= Shares(k, share) && sum <= total && sum <= SumOf(order[..k], PositiveOf)
    requires Handed(order, k, share, total, sum)
    ensures var next := sum + Planned(order, k, share, total, sum);
            && next <= Shares(k + 1, share) && next <= total && next <= SumOf(order[..k + 1], PositiveOf)
            && Handed(order, k + 1, share, total, next)
  {
    assert order[..k + 1][..k] == order[..k];
    assert forall j :: k < j < |order| ==> ValueOf(order[k]) <= ValueOf(order[j]);
  }

  lemma HandedIsCumulative(order: seq<Indexed>, k: nat, share: nat, total: nat, sum: int)
    requires k <= |order| && sum <= Shares(k, share) && sum <= total && sum <= SumOf(order[..k], PositiveOf)
    requires Handed(order, k, share, total, sum)
    ensures sum == Cumulative(order, k, share, total)
  {
  }

  /** What the `k` smallest regions get together: everything they have, or an equal share each, or `total`. */
  function Cumulative(order: seq<Indexed>, k: nat, share: nat, total: nat): int
    requires k <= |order|
  {
    Min(Min(SumOf(order[..k], PositiveOf), Shares(k, share)), total)
  }

  /** What the next region adds to that. */
  function Gain(order: seq<Indexed>, k: nat, share: nat, total: nat): int
    requires k < |order|
  {
    Cumulative(order, k + 1, share, total) - Cumulative(order, k, share, total)
  }

  /** The regions of `order`, up to `k`, get exactly that, each at its own index. */
  ghost predicate Split(order: seq<Indexed>, plan: seq<int>, k: nat, share: nat, total: nat) {
    && k <= |order|
    && forall j :: 0 <= j < k ==> order[j].index < |plan| && plan[order[j].index] == Gain(order, j, share, total)
  }

  /** The loop invariant. */
  ghost predicate PlanOk(available: seq<int>, order: seq<Indexed>, k: nat, plan: seq<int>) {
    && k <= |order| == |plan| == |available|
    && (forall i :: 0 <= i < |plan| ==> 0 <= plan[i] <= Max(available[i], 0))
    && (forall j :: 0 <= j < |order| ==> order[j].index < |plan|)
    && (forall j :: k <= j < |order| ==> plan[order[j].index] == 0)
  }

  lemma PlanStep(available: seq<int>, order: seq<Indexed>, k: nat, plan: seq<int>, planned: int)
    requires PlanOk(available, order, k, plan) && k < |order|
    requires DistinctBy(order, IndexOf)
    requires order[k].value == available[order[k].index] && 0 <= planned <= Max(order[k].value, 0)
    ensures PlanOk(available, order, k + 1, plan[order[k].index := planned])
    ensures Sum(plan[order[k].index := planned]) == Sum(plan) + planned
  {
    SumUpdate(plan, order[k].index, planned);
    assert forall j :: k < j < |order| ==> IndexOf(order[k]) != IndexOf(order[j]);
  }

  /** The loop that spreads hires, and again lay-offs, over the regions sorted by availability,
      carrying what a region cannot take on to the next. Every region gets between nothing and
      what it has, at its own index, and the whole is as large as availability, shares and
      `total` allow. */
  method CarryLoop(available: seq<int>, share: nat, total: nat) returns (plan: seq<int>)
    ensures |plan| == |available|
    ensures forall i :: 0 <= i < |plan| ==> 0 <= plan[i] <= Max(available[i], 0)
    ensures Sum(plan) == Min(Min(SumPositive(available), Shares(|available|, share)), total)
    ensures Split(ByValue(available), plan, |available|, share, total)
  {
    ByValueFacts(available);
    plan := HandOut(available, ByValue(available), share, total);
    SpreadEnd(available, share, total, plan);
  }

  /** The loop itself, over the regions in `order`. */
  method HandOut(available: seq<int>, order: seq<Indexed>, share: nat, total: nat) returns (plan: seq<int>)
    requires |order| == |available| && SortedBy(order, ValueOf) && DistinctBy(order, IndexOf)
    requires forall k :: 0 <= k < |order| ==>
               order[k].index < |available| && order[k].value == available[order[k].index]
    ensures Spread(available, order, |order|, share, total, plan)
  {
    plan := seq(|available|, _ => 0);
    ZeroSum(|available|);
    var carry := 0;
    for k := 0 to |order|
      invariant Spread(available, order, k, share, total, plan)
      invariant carry == Shares(k, share) - Sum(plan)
    {
      plan, carry := Turn(available, order, k, share, total, plan, carry);
    }
  }

  /** One turn: region `order[k]` gets a share and what was carried on, as far as it can take it. */
  method Turn(available: seq<int>, order: seq<Indexed>, k: nat, share: nat, total: nat, plan: seq<int>, carry: int)
    returns (next: seq<int>, left: int)
    requires k < |order| && Spread(available, order, k, share, total, plan)
    requires SortedBy(order, ValueOf) && DistinctBy(order, IndexOf)
    requires order[k].value == available[order[k].index] && carry == Shares(k, share) - Sum(plan)
    ensures Spread(available, order, k + 1, share, total, next) && left == Shares(k + 1, share) - Sum(next)
  {
    var e := order[k];
    var planned := Min(Min(share + carry, if e.value > 0 then e.value else 0), total - Sum(plan));
    HandedStep(order, k, share, total, Sum(plan));
    PlanStep(available, order, k, plan, planned);
    GainIs(order, k, share, total, Sum(plan), planned);
    next, left := plan[e.index := planned], carry + share - planned;
    SplitStep(order, plan, k, share, total, planned, next);
  }

  /** What holds after `k` turns. */
  ghost predicate Spread(available: seq<int>, order: seq<Indexed>, k: nat, share: nat, total: nat, plan: seq<int>) {
    && PlanOk(available, order, k, plan)
    && Sum(plan) <= Shares(k, share) && Sum(plan) <= total && Sum(plan) <= SumOf(order[..k], PositiveOf)
    && Handed(order, k, share, total, Sum(plan))
    && Split(order, plan, k, share, total)
  }

  lemma SpreadEnd(available: seq<int>, share: nat, total: nat, plan: seq<int>)
    requires Spread(available, ByValue(available), |ByValue(available)|, share, total, plan)
    ensures Sum(plan) == Min(Min(SumPositive(available), Shares(|available|, share)), total)
  {
    var order := ByValue(available);
    ByValueFacts(available);
    assert order[..|order|] == order;
    HandedIsCumulative(order, |order|, share, total, Sum(plan));
  }

  lemma GainIs(order: seq<Indexed>, k: nat, share: nat, total: nat, sum: int, planned: int)
    requires k < |order| && SortedBy(order, ValueOf)
    requires sum <= Shares(k, share) && sum <= total && sum <= SumOf(order[..k], PositiveOf)
    requires Handed(order, k, share, total, sum) && planned == Planned(order, k, share, total, sum)
    ensures planned == Gain(order, k, share, total)
  {
    HandedStep(order, k, share, total, sum);
    HandedIsCumulative(order, k, share, total, sum);
    HandedIsCumulative(order, k + 1, share, total, sum + planned);
  }

  lemma SplitStep(order: seq<Indexed>, plan: seq<int>, k: nat, share: nat, total: nat, planned: int, next: seq<int>)
    requires k < |order| && DistinctBy(order, IndexOf) && Split(order, plan, k, share, total)
    requires order[k].index < |plan| && planned == Gain(order, k, share, total)
    requires next == plan[order[k].index := planned]
    ensures Split(order, next, k + 1, share, total)
  {
    forall j | 0 <= j < k ensures order[j].index != order[k].index {
      assert IndexOf(order[j]) != IndexOf(order[k]);
    }
  }

  lemma {:induction false} ZeroSum(n: nat)
    ensures Sum(seq(n, _ => 0)) == 0
  {
    if n > 0 {
      assert seq(n, _ => 0)[..n - 1] == seq(n - 1, _ => 0);
      ZeroSum(n - 1);
    }
  }

  // ---- how many workers a queue deserves ----

  /** The tier table; `load` is the queue size per worker process of a job. */
  function Tier(load: int): int {
    if load > 100000 then 5000
    else if load > 50000 then 2000
    else if load > 10000 then 1000
    else if load > 1000 then 400
    else if load > 100 then 50
    else if load > 20 then 15
    else if load > 10 then 5
    else 1
  }

  /** The table the other way round: how many of its thresholds the load exceeds. */
  lemma TierCounts(load: int, k: nat)
    requires k <= 7
    requires forall j {:trigger THRESHOLDS[j]} :: 0 <= j < 7 ==> (load > THRESHOLDS[j] <==> j < k)
    ensures Tier(load) == [1, 5, 15, 50, 400, 1000, 2000, 5000][k]
  {
    assert THRESHOLDS[6] == 100000 && THRESHOLDS[5] == 50000 && THRESHOLDS[4] == 10000 && THRESHOLDS[3] == 1000;
    assert THRESHOLDS[2] == 100 && THRESHOLDS[1] == 20 && THRESHOLDS[0] == 10;
  }

  const THRESHOLDS: seq<int> := [10, 20, 100, 1000, 10000, 50000, 100000]

  /** `determine_number_of_workers`. */
  function Target(queueSize: nat, running: nat, perJob: nat, cap: int): int
    requires perJob > 0
  {
    if queueSize == 0 then 0
    else Min(Min(Min((1 + running) * 10, Tier(queueSize / perJob)), queueSize), cap)
  }

  lemma DivisionMonotone(a: nat, b: nat, d: nat)
    requires d > 0 && a <= b
    ensures a / d <= b / d
  {
    var q, r := b / d, b % d;
    assert a <= q * d + r < (q + 1) * d;
    QuotientBelow(a, d, q + 1);
  }

  lemma QuotientBelow(a: nat, d: nat, q: nat)
    requires d > 0 && a < q * d
    ensures a / d < q
  {
    var p := a / d;
    assert p * d <= a;
    MultipleBelow(p, q, d);
  }

  lemma {:induction false} MultipleBelow(p: nat, q: nat, d: nat)
    requires d > 0 && p * d < q * d
    ensures p < q
    decreases p
  {
    if p > 0 {
      assert q * d > 0;
      assert (p - 1) * d == p * d - d && (q - 1) * d == q * d - d;
      MultipleBelow(p - 1, q - 1, d);
    }
  }

  /** The target grows with the queue and with the workers already running, unless a negative cap
      makes the empty queue, which ignores the cap, deserve the most. */
  lemma TargetMonotone(perJob: nat, cap: int)
    requires perJob > 0
    ensures cap >= 0 <==> forall q, q', r, r' :: 0 <= q <= q' && 0 <= r <= r' ==>
              Target(q, r, perJob, cap) <= Target(q', r', perJob, cap)
  {
    if cap >= 0 {
      forall q, q', r, r' | 0 <= q <= q' && 0 <= r <= r'
        ensures Target(q, r, perJob, cap) <= Target(q', r', perJob, cap)
      {
        DivisionMonotone(q, q', perJob);
      }
    } else {
      assert Target(1, 0, perJob, cap) < Target(0, 0, perJob, cap);
    }
  }

  // ---- one tick ----

  datatype RegionState = RegionState(pending: nat, running: nat)

  function TotalRunning(rs: seq<RegionState>): nat {
    if rs == [] then 0 else TotalRunning(rs[..|rs| - 1]) + rs[|rs| - 1].running
  }

  function TotalPending(rs: seq<RegionState>): nat {
    if rs == [] then 0 else TotalPending(rs[..|rs| - 1]) + rs[|rs| - 1].pending
  }

  function Total(rs: seq<RegionState>): nat {
    TotalRunning(rs) + TotalPending(rs)
  }

  function PendingOf(rs: seq<RegionState>): (r: seq<int>)
    ensures |r| == |rs| && forall i :: 0 <= i < |r| ==> r[i] == rs[i].pending
  {
    seq(|rs|, i requires 0 <= i < |rs| => rs[i].pending)
  }

  lemma {:induction false} PendingSum(rs: seq<RegionState>)
    ensures SumPositive(PendingOf(rs)) == TotalPending(rs)
  {
    if rs != [] {
      assert PendingOf(rs)[..|rs| - 1] == PendingOf(rs[..|rs| - 1]);
      PendingSum(rs[..|rs| - 1]);
    }
  }

  /** `rs'` is `rs` with `change[i]` more pending workers in region `i`. */
  ghost predicate Changed(rs: seq<RegionState>, rs': seq<RegionState>, change: seq<int>) {
    && |rs'| == |rs| == |change|
    && forall i :: 0 <= i < |rs| ==> rs'[i].running == rs[i].running && rs'[i].pending == rs[i].pending + change[i]
  }

  lemma {:induction false} ChangedTotals(rs: seq<RegionState>, rs': seq<RegionState>, change: seq<int>)
    requires Changed(rs, rs', change)
    ensures TotalRunning(rs') == TotalRunning(rs)
    ensures TotalPending(rs') == TotalPending(rs) + Sum(change)
    decreases |rs|
  {
    if rs != [] {
      var n := |rs| - 1;
      ChangedTotals(rs[..n], rs'[..n], change[..n]);
    }
  }

  lemma {:induction false} SumBetween(lo: seq<int>, hi: seq<int>)
    requires |lo| == |hi| && forall i :: 0 <= i < |lo| ==> lo[i] <= hi[i]
    ensures Sum(lo) <= Sum(hi)
    decreases |lo|
  {
    if lo != [] {
      SumBetween(lo[..|lo| - 1], hi[..|hi| - 1]);
    }
  }

  /** What the cloud does during a tick: the answer of `get_available_to_hire` per region (`None`
      if it raises) and how many single submissions or cancellations would succeed there. */
  datatype Cloud = Cloud(available: seq<Option<int>>, granted: seq<nat>, cancelled: seq<nat>)

  function Capacities(available: seq<Option<int>>): (r: seq<int>)
    ensures |r| == |available|
    ensures forall i :: 0 <= i < |r| ==> r[i] == if available[i].Some? then available[i].value else 0
  {
    seq(|available|, i requires 0 <= i < |available| => if available[i].Some? then available[i].value else 0)
  }

  lemma {:induction false} AllStarted(rs: seq<RegionState>, rs': seq<RegionState>)
    requires |rs| == |rs'|
    requires forall i :: 0 <= i < |rs| ==> rs'[i] == RegionState(0, rs[i].running + rs[i].pending)
    ensures TotalPending(rs') == 0 && TotalRunning(rs') == Total(rs)
    decreases |rs|
  {
    if rs != [] {
      AllStarted(rs[..|rs| - 1], rs'[..|rs| - 1]);
    }
  }

  lemma {:induction false} CutSum(change: seq<int>, plan: seq<int>, allowed: seq<nat>)
    requires |change| == |plan| == |allowed|
    requires forall i :: 0 <= i < |plan| ==> 0 <= plan[i] && change[i] == -Min(plan[i], allowed[i])
    ensures -Sum(plan) <= Sum(change) <= 0
    ensures (forall i :: 0 <= i < |plan| ==> allowed[i] >= plan[i]) ==> Sum(change) == -Sum(plan)
  {
    if plan != [] {
      var n := |plan| - 1;
      CutSum(change[..n], plan[..n], allowed[..n]);
      if forall i :: 0 <= i < |plan| ==> allowed[i] >= plan[i] {
        assert forall i :: 0 <= i < n ==> allowed[..n][i] >= plan[..n][i];
      }
    }
  }

  lemma LayoffTotals(rs: seq<RegionState>, rs': seq<RegionState>, change: seq<int>, plan: seq<int>, allowed: seq<nat>)
    requires Changed(rs, rs', change) && |plan| == |allowed| == |rs|
    requires forall i :: 0 <= i < |plan| ==> 0 <= plan[i] && change[i] == -Min(plan[i], allowed[i])
    ensures TotalRunning(rs') == TotalRunning(rs)
    ensures Total(rs') <= Total(rs) <= Total(rs') + Sum(plan)
    ensures (forall i :: 0 <= i < |plan| ==> allowed[i] >= plan[i]) ==> Total(rs') == Total(rs) - Sum(plan)
  {
    ChangedTotals(rs, rs', change);
    CutSum(change, plan, allowed);
  }

  lemma HireTotals(rs: seq<RegionState>, rs': seq<RegionState>, change: seq<int>, plan: seq<int>, granted: seq<nat>)
    requires Changed(rs, rs', change) && |plan| == |granted| == |rs|
    requires forall i :: 0 <= i < |plan| ==> 0 <= plan[i] && change[i] == Min(plan[i], granted[i])
    ensures TotalRunning(rs') == TotalRunning(rs)
    ensures Total(rs) <= Total(rs') <= Total(rs) + Sum(plan)
    ensures (forall i :: 0 <= i < |plan| ==> granted[i] >= plan[i]) ==> Total(rs') == Total(rs) + Sum(plan)
  {
    ChangedTotals(rs, rs', change);
    SumBetween(change, plan);
    NonNegativeSum(change);
    if forall i :: 0 <= i < |plan| ==> granted[i] >= plan[i] {
      assert change == plan;
    }
  }

  /** By how much a tick with this gap changes the fleet: up by what capacity there is, down by equal
      shares of the pending workers. */
  function Scaled(gap: int, regions: seq<RegionState>, cloud: Cloud): int {
    if gap > 0 then Min(gap, SumPositive(Capacities(cloud.available)))
    else if regions == [] then 0
    else -Min(TotalPending(regions), |regions| * (-gap / |regions|))
  }

  /** Equal shares of pending workers make up the whole surplus. */
  predicate DividesEvenly(surplus: int, regions: seq<RegionState>) {
    regions != [] && TotalPending(regions) >= surplus && surplus % |regions| == 0
  }

  /** The hiring distribution for a positive need. */
  method PlanHires(need: nat, available: seq<Option<int>>) returns (plan: seq<int>)
    requires need > 0
    ensures |plan| == |available|
    ensures forall i :: 0 <= i < |plan| ==>
              0 <= plan[i] <= if available[i].Some? then Max(available[i].value, 0) else 0
    ensures Sum(plan) == Min(SumPositive(Capacities(available)), need)
    ensures plan != [] ==> Split(ByValue(Capacities(available)), plan, |plan|, 1 + need / |plan|, need)
  {
    var n := |available|;
    if n == 0 {
      return [];
    }
    plan := CarryLoop(Capacities(available), 1 + need / n, need);
    SharesProduct(n, 1 + need / n);
    ShareExceeds(need, n);
  }

  class MultiRegionWorkforce {
    const numWorkers: nat
    const maxNumWorkers: int
    var regions: seq<RegionState>

    predicate Valid()
      reads this
    {
      numWorkers > 0
    }

    constructor (numWorkers: nat, maxNumWorkers: int, regions: seq<RegionState>)
      requires numWorkers > 0
      ensures Valid() && this.numWorkers == numWorkers && this.maxNumWorkers == maxNumWorkers && this.regions == regions
    {
      this.numWorkers, this.maxNumWorkers, this.regions := numWorkers, maxNumWorkers, regions;
    }

    /** Tenfold growth of the running workers, up to the goal; an empty queue wants none whatever the cap. */
    function Wanted(queueSize: nat): (r: int)
      requires Valid()
      reads this
      ensures maxNumWorkers >= 0 ==>
                r == Min(10 * (1 + TotalRunning(regions)), Goal(queueSize, numWorkers, maxNumWorkers))
      ensures maxNumWorkers < 0 ==> r == if queueSize == 0 then 0 else maxNumWorkers
    {
      Target(queueSize, TotalRunning(regions), numWorkers, maxNumWorkers)
    }

    /** The write phase: region `i` gets `sign * min(plan[i], allowed[i])` more pending workers. */
    method Apply(plan: seq<int>, allowed: seq<nat>, sign: int) returns (change: seq<int>)
      requires |plan| == |allowed| == |regions| && (sign == 1 || sign == -1)
      requires forall i :: 0 <= i < |plan| ==> 0 <= plan[i] && (sign == -1 ==> plan[i] <= regions[i].pending)
      modifies this
      ensures Changed(old(regions), regions, change)
      ensures forall i :: 0 <= i < |change| ==> change[i] == sign * Min(plan[i], allowed[i])
    {
      change := [];
      for i := 0 to |plan|
        invariant |regions| == |old(regions)| && |change| == i
        invariant Changed(old(regions)[..i], regions[..i], change)
        invariant regions[i..] == old(regions)[i..]
        invariant forall j :: 0 <= j < i ==> change[j] == sign * Min(plan[j], allowed[j])
      {
        var n := sign * Min(plan[i], allowed[i]);
        assert regions[i] == regions[i..][0] == old(regions)[i..][0];
        regions := regions[i := regions[i].(pending := regions[i].pending + n)];
        change := change + [n];
      }
      assert regions[..|plan|] == regions && old(regions)[..|plan|] == old(regions);
    }

    /** `layoff_queued_workers`: lays off pending workers, an equal share per region carried on to
        the next. Returns the planned numbers. */
    method LayoffQueuedWorkers(total: nat, cloud: Cloud) returns (plan: seq<int>)
      requires regions != [] && |cloud.cancelled| == |regions|
      modifies this
      ensures |plan| == |regions| == |old(regions)|
      ensures forall i :: 0 <= i < |plan| ==> 0 <= plan[i] <= old(regions)[i].pending
      ensures Sum(plan) == Min(TotalPending(old(regions)), |plan| * (total / |plan|)) <= total
      ensures Split(ByValue(PendingOf(old(regions))), plan, |plan|, total / |plan|, total)
      ensures forall i :: 0 <= i < |plan| ==>
                var r := old(regions)[i]; regions[i] == r.(pending := r.pending - Min(plan[i], cloud.cancelled[i]))
      ensures Total(regions) <= Total(old(regions)) <= Total(regions) + Sum(plan)
      ensures TotalRunning(regions) == TotalRunning(old(regions))
      ensures (forall i :: 0 <= i < |plan| ==> cloud.cancelled[i] >= plan[i]) ==>
                Total(regions) == Total(old(regions)) - Sum(plan)
    {
      var n := |regions|;
      ShareBound(total, n);
      PendingSum(regions);
      plan := CarryLoop(PendingOf(regions), total / n, total);
      SharesProduct(n, total / n);
      var change := Apply(plan, cloud.cancelled, -1);
      LayoffTotals(old(regions), regions, change, plan, cloud.cancelled);
    }

    /** The hiring phase for a positive need. Returns the planned numbers. */
    method HireWorkers(need: nat, cloud: Cloud) returns (plan: seq<int>)
      requires need > 0 && |cloud.available| == |cloud.granted| == |regions|
      modifies this
      ensures |plan| == |regions| == |old(regions)|
      ensures forall i :: 0 <= i < |plan| ==>
                0 <= plan[i] <= if cloud.available[i].Some? then Max(cloud.available[i].value, 0) else 0
      ensures Sum(plan) == Min(SumPositive(Capacities(cloud.available)), need)
      ensures plan != [] ==>
                Split(ByValue(Capacities(cloud.available)), plan, |plan|, 1 + need / |plan|, need)
      ensures forall i :: 0 <= i < |plan| ==>
                var r := old(regions)[i]; regions[i] == r.(pending := r.pending + Min(plan[i], cloud.granted[i]))
      ensures Total(old(regions)) <= Total(regions) <= Total(old(regions)) + Sum(plan)
      ensures TotalRunning(regions) == TotalRunning(old(regions))
      ensures (forall i :: 0 <= i < |plan| ==> cloud.granted[i] >= plan[i]) ==>
                Total(regions) == Total(old(regions)) + Sum(plan)
    {
      plan := PlanHires(need, cloud.available);
      var change := Apply(plan, cloud.granted, 1);
      assert forall i :: 0 <= i < |plan| ==> change[i] == Min(plan[i], cloud.granted[i]);
      HireTotals(old(regions), regions, change, plan, cloud.granted);
    }

    /** The cloud starts what is pending. */
    method StartPending()
      modifies this
      ensures |regions| == |old(regions)| && TotalPending(regions) == 0
      ensures TotalRunning(regions) == Total(old(regions))
    {
      var before := regions;
      regions := seq(|before|, i requires 0 <= i < |before| =>
        RegionState(0, before[i].running + before[i].pending));
      AllStarted(before, regions);
    }

    /** The lay-off phase of a tick that has `surplus` workers too many. */
    method StopPending(surplus: int, cloud: Cloud) returns (laidOff: nat)
      requires surplus > 0 && |cloud.cancelled| == |regions|
      modifies this
      ensures |regions| == |old(regions)| && TotalRunning(regions) == TotalRunning(old(regions))
      ensures laidOff + Scaled(-surplus, old(regions), cloud) == 0 && laidOff <= surplus
      ensures laidOff == surplus <==> DividesEvenly(surplus, old(regions))
      ensures Total(old(regions)) - laidOff <= Total(regions) <= Total(old(regions))
      ensures (forall i :: 0 <= i < |regions| ==> cloud.cancelled[i] >= Total(old(regions))) ==>
                Total(regions) == Total(old(regions)) - laidOff
    {
      if regions == [] {
        return 0;
      }
      LayoffExact(surplus, |regions|, TotalPending(regions));
      ShareBound(surplus, |regions|);
      if TotalPending(regions) == 0 {
        return 0;
      }
      var plan := LayoffQueuedWorkers(surplus, cloud);
      EachBelowSum(plan);
      NonNegativeSum(plan);
      laidOff := Sum(plan);
    }

    /** `run` without its two manual modes, on one snapshot of the regions. */
    method Run(queueSize: nat, cloud: Cloud) returns (ok: bool)
      requires Valid()
      requires |cloud.available| == |cloud.granted| == |cloud.cancelled| == |regions|
      modifies this
      ensures Valid() && |regions| == |old(regions)| && TotalRunning(regions) == TotalRunning(old(regions))
      // only running workers justify more, tenfold at most
      ensures maxNumWorkers >= 0 ==>
                Total(regions) <= Max(Total(old(regions)),
                                      Min(Min(10 * (1 + TotalRunning(old(regions))), queueSize), maxNumWorkers))
      // never overshoots in either direction
      ensures Min(Total(old(regions)), old(Wanted(queueSize))) <= Total(regions)
      ensures Total(regions) <= Max(Total(old(regions)), old(Wanted(queueSize)))
      // reports success exactly when the plan closes the gap
      ensures ok <==>
                var gap := old(Wanted(queueSize)) - Total(old(regions));
                if gap > 0 then SumPositive(Capacities(cloud.available)) >= gap
                else if gap == 0 then true
                else DividesEvenly(-gap, old(regions))
      // and goes as far as capacity and equal shares allow, if the cloud cooperates
      ensures (forall i :: 0 <= i < |regions| ==>
                 cloud.granted[i] >= Max(0, old(Wanted(queueSize))) && cloud.cancelled[i] >= Total(old(regions)))
              ==> Total(regions)
                  == Total(old(regions)) + Scaled(old(Wanted(queueSize)) - Total(old(regions)), old(regions), cloud)
    {
      var total := Total(regions);
      var toHire := Wanted(queueSize) - total;
      if toHire == 0 {
        return true;
      }
      if toHire < 0 {
        var laidOff := StopPending(-toHire, cloud);
        if laidOff == -toHire {
          return true;
        }
        toHire := toHire + laidOff;
        if toHire < 0 {
          return false;
        }
      }
      assert toHire > 0;
      var plan := HireWorkers(toHire, cloud);
      assert forall i :: 0 <= i < |plan| ==> plan[i] <= Sum(plan) by { EachBelowSum(plan); }
      return Sum(plan) == toHire;
    }
  }

  lemma ShareBound(total: nat, n: nat)
    requires n > 0
    ensures 0 <= n * (total / n) <= total
  {
  }

  lemma ShareExceeds(total: nat, n: nat)
    requires n > 0
    ensures n * (1 + total / n) > total
  {
    assert n * (1 + total / n) == n + n * (total / n);
  }

  /** The equal shares add up to the whole exactly when it divides evenly; else the shortfall is below `n`. */
  lemma LayoffExact(total: nat, n: nat, pending: nat)
    requires n > 0 && total > 0
    ensures Min(pending, n * (total / n)) == total <==> pending >= total && total % n == 0
    ensures pending >= total ==> total - Min(pending, n * (total / n)) < n
  {
    assert total == n * (total / n) + total % n;
  }

  lemma {:induction false} NonNegativeSum(s: seq<int>)
    requires forall i :: 0 <= i < |s| ==> s[i] >= 0
    ensures Sum(s) >= 0
  {
    if s != [] {
      NonNegativeSum(s[..|s| - 1]);
    }
  }

  lemma {:induction false} EachBelowSum(s: seq<int>)
    requires forall i :: 0 <= i < |s| ==> s[i] >= 0
    ensures forall i :: 0 <= i < |s| ==> s[i] <= Sum(s)
  {
    if s != [] {
      EachBelowSum(s[..|s| - 1]);
      NonNegativeSum(s[..|s| - 1]);
    }
  }

  // ---- convergence ----

  /** What the tier table wants for the queue, limited by the queue size and the cap. */
  function Goal(queueSize: nat, perJob: nat, cap: nat): nat
    requires perJob > 0
  {
    Min(Min(Tier(queueSize / perJob), queueSize), cap)
  }

  /** Workers running after `n` ticks when everything hired is running by the next one. */
  function RunningAfter(n: nat, queueSize: nat, perJob: nat, cap: nat): nat
    requires perJob > 0
  {
    if n == 0 then 0
    else
      var running := RunningAfter(n - 1, queueSize, perJob, cap);
      Max(running, Target(queueSize, running, perJob, cap))
  }

  /** One tick below the goal: tenfold growth, cut at the goal. */
  lemma OneTick(queueSize: nat, running: nat, perJob: nat, cap: nat)
    requires perJob > 0 && running <= Goal(queueSize, perJob, cap)
    ensures Max(running, Target(queueSize, running, perJob, cap))
            == Min(10 * (1 + running), Goal(queueSize, perJob, cap))
  {
  }

  /** Growth is tenfold at most, so from nothing the goal is reached in four ticks and then kept. */
  lemma {:induction false} FourTicksSuffice(n: nat, queueSize: nat, perJob: nat, cap: nat)
    requires perJob > 0
    ensures RunningAfter(n, queueSize, perJob, cap) <= Goal(queueSize, perJob, cap)
    ensures n >= 1 ==> RunningAfter(n, queueSize, perJob, cap) >= Min(10, Goal(queueSize, perJob, cap))
    ensures n >= 2 ==> RunningAfter(n, queueSize, perJob, cap) >= Min(110, Goal(queueSize, perJob, cap))
    ensures n >= 3 ==> RunningAfter(n, queueSize, perJob, cap) >= Min(1110, Goal(queueSize, perJob, cap))
    ensures n >= 4 ==> RunningAfter(n, queueSize, perJob, cap) == Goal(queueSize, perJob, cap)
  {
    if n > 0 {
      FourTicksSuffice(n - 1, queueSize, perJob, cap);
      OneTick(queueSize, RunningAfter(n - 1, queueSize, perJob, cap), perJob, cap);
    }
  }

  /** Four is needed: the largest tier is not reached in three. */
  lemma ThreeTicksDoNot()
    ensures RunningAfter(3, 200000, 1, 50000) < Goal(200000, 1, 50000)
  {
    assert RunningAfter(1, 200000, 1, 50000) == 10;
    assert RunningAfter(2, 200000, 1, 50000) == 110;
  }

  /** `run_forever` on a fixed queue, hires running by the next tick: the fleet follows `RunningAfter`. */
  method RunTicks(fleet: MultiRegionWorkforce, queueSize: nat, clouds: seq<Cloud>)
    requires fleet.Valid() && fleet.maxNumWorkers >= 0 && Total(fleet.regions) == 0
    requires forall k :: 0 <= k < |clouds| ==> Ample(clouds[k], |fleet.regions|)
    modifies fleet
    ensures fleet.Valid() && TotalPending(fleet.regions) == 0
    ensures TotalRunning(fleet.regions)
            == RunningAfter(|clouds|, queueSize, fleet.numWorkers, fleet.maxNumWorkers)
  {
    for k := 0 to |clouds|
      invariant fleet.Valid() && |fleet.regions| == |old(fleet.regions)|
      invariant TotalPending(fleet.regions) == 0
      invariant TotalRunning(fleet.regions) == RunningAfter(k, queueSize, fleet.numWorkers, fleet.maxNumWorkers)
    {
      FourTicksSuffice(k, queueSize, fleet.numWorkers, fleet.maxNumWorkers);
      var ok := fleet.Run(queueSize, clouds[k]);
      fleet.StartPending();
    }
  }

  /** Every tick finds capacity for the largest tier and no request fails. */
  predicate Ample(cloud: Cloud, n: nat) {
    && |cloud.available| == |cloud.granted| == |cloud.cancelled| == n
    && SumPositive(Capacities(cloud.available)) >= 5000
    && forall i :: 0 <= i < n ==> cloud.granted[i] >= 5000 && cloud.cancelled[i] >= 5000
  }
}
