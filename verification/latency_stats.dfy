/** Bounded latency collection and nearest-rank summaries: src/latency_stats.cpp. */
module LatencyStatistics {
  import opened Types
  import opened Arithmetic

  const P99_MIN_SAMPLES: nat := 100
  const P999_MIN_SAMPLES: nat := 1000

  // ---------------------------------------------------------------------------
  // Collection
  // ---------------------------------------------------------------------------

  /** The division guard refuses exactly the products that do not fit. */
  lemma QuotientGuards(a: nat, b: nat)
    requires b > 0
    ensures a > SIZE_MAX / b <==> a * b > SIZE_MAX
  {
    DivBounds(SIZE_MAX, b);
    if a > SIZE_MAX / b {
      MulLe(SIZE_MAX / b + 1, a, b);
    } else {
      MulLe(a, SIZE_MAX / b, b);
    }
  }

  class LatencyStats {
    var samples: array<int>
    var sampleCount: nat
    var overflowCount: nat
    var maxPerTick: nat

    ghost predicate Valid()
      reads this
    {
      sampleCount <= samples.Length && (overflowCount > 0 ==> sampleCount == samples.Length)
    }

    ghost function Recorded(): seq<int>
      requires Valid()
      reads this, samples
    {
      samples[..sampleCount]
    }

    constructor ()
      ensures Valid() && Recorded() == [] && samples.Length == 0 && overflowCount == 0 && fresh(samples)
    {
      samples := new int[0];
      sampleCount, overflowCount, maxPerTick := 0, 0, 0;
    }

    /** Checked sizing; a request that does not fit leaves the collector alone. */
    method Initialize(tickCount: nat, perTick: nat, maxSize: nat) returns (ok: bool)
      requires Valid() && tickCount <= SIZE_MAX && perTick <= SIZE_MAX && maxSize <= SIZE_MAX
      modifies this
      ensures Valid()
      ensures ok <==> perTick > 0 && tickCount * perTick <= maxSize
      ensures ok ==> fresh(samples) && samples.Length == tickCount * perTick && Recorded() == []
                     && overflowCount == 0 && maxPerTick == perTick
      ensures !ok ==> samples == old(samples) && sampleCount == old(sampleCount) && overflowCount == old(overflowCount)
                      && maxPerTick == old(maxPerTick)
    {
      if perTick == 0 {
        return false;
      }
      QuotientGuards(tickCount, perTick);
      if tickCount > SIZE_MAX / perTick {
        return false;
      }
      var capacity := tickCount * perTick;
      if capacity > maxSize {
        return false;
      }
      samples := new int[capacity](i => 0);
      sampleCount, overflowCount, maxPerTick := 0, 0, perTick;
      return true;
    }

    method Record(latency: int) returns (ok: bool)
      requires Valid()
      modifies this, samples
      ensures Valid() && samples == old(samples)
      ensures ok <==> |old(Recorded())| < samples.Length
      ensures Recorded() == if ok then old(Recorded()) + [latency] else old(Recorded())
      ensures overflowCount == old(overflowCount) + (if ok then 0 else 1)
    {
      if sampleCount == samples.Length {
        overflowCount := overflowCount + 1;
        return false;
      }
      samples[sampleCount] := latency;
      sampleCount := sampleCount + 1;
      return true;
    }
  }

  /** What a collector of the given capacity holds and has refused after some calls. */
  function Collected(capacity: nat, calls: seq<int>): (seq<int>, nat) {
    if calls == [] then ([], 0)
    else
      var (kept, refused) := Collected(capacity, calls[..|calls| - 1]);
      if |kept| == capacity then (kept, refused + 1) else (kept + [calls[|calls| - 1]], refused)
  }

  /** A collector keeps the first `capacity` samples and counts the rest. */
  lemma {:induction false} CollectedIsPrefix(capacity: nat, calls: seq<int>)
    ensures Collected(capacity, calls).0 == calls[..Min(capacity, |calls|)]
    ensures Collected(capacity, calls).1 == Max(0, |calls| - capacity)
  {
    if calls == [] {
    } else {
      var n := |calls| - 1;
      CollectedIsPrefix(capacity, calls[..n]);
      if n < capacity {
        assert calls[..n][..n] + [calls[n]] == calls[..n + 1];
      } else {
        assert calls[..n][..capacity] == calls[..capacity];
      }
    }
  }

  // ---------------------------------------------------------------------------
  // Ranks
  // ---------------------------------------------------------------------------

  function CeilDiv(a: nat, b: nat): nat
    requires b > 0
  {
    (a + b - 1) / b
  }

  function PercentileIndex(n: nat, permille: nat): nat {
    if n == 0 then 0
    else
      var rank := (n / 1000) * permille + ((n % 1000) * permille + 999) / 1000;
      if rank == 0 then 0 else rank - 1
  }

  function TailCount(n: nat, percent: nat): nat {
    if n == 0 then 0
    else
      var count := (n / 100) * percent + ((n % 100) * percent + 99) / 100;
      if count == 0 then 1 else count
  }

  lemma MulSplit(d: int, a: int, b: int, p: int)
    ensures (d * a + b) * p == (a * p) * d + b * p
  {
  }

  /** Splitting off the quotient does not change a rounded-up ratio. */
  lemma SplitCeil(n: nat, p: nat, d: nat)
    requires d > 0
    ensures (n / d) * p + ((n % d) * p + d - 1) / d == CeilDiv(n * p, d)
  {
    var a, b := n / d, n % d;
    var c := (b * p + d - 1) / d;
    DivBounds(b * p + d - 1, d);
    assert n == d * a + b;
    MulSplit(d, a, b, p);
    DivIs(n * p + d - 1, d, a * p + c);
  }

  lemma CeilBounds(n: nat, p: nat, d: nat)
    requires d > 0 && p <= d
    ensures CeilDiv(n * p, d) <= n
    ensures n > 0 && p > 0 ==> CeilDiv(n * p, d) >= 1
  {
    DivBounds(n * p + d - 1, d);
    MulLe(p, d, n);
    LtCancel(CeilDiv(n * p, d), n + 1, d);
    if n > 0 && p > 0 {
      MulLe(1, n, p);
      LtCancel(0, CeilDiv(n * p, d), d);
    }
  }

  /** The split formula is the nearest-rank index ceil(n*p/1000) - 1, and no step of it leaves size_t. */
  lemma PercentileIndexIsNearestRank(n: nat, permille: nat)
    requires n <= SIZE_MAX && permille <= 1000
    ensures PercentileIndex(n, permille) == Max(0, CeilDiv(n * permille, 1000) - 1)
    ensures n > 0 ==> PercentileIndex(n, permille) < n
    ensures n > 0 && permille > 0 ==> CeilDiv(n * permille, 1000) > 0
    ensures (n / 1000) * permille <= SIZE_MAX && (n % 1000) * permille + 999 <= SIZE_MAX
    ensures (n / 1000) * permille + ((n % 1000) * permille + 999) / 1000 <= SIZE_MAX
  {
    SplitCeil(n, permille, 1000);
    CeilBounds(n, permille, 1000);
    MulLe(n % 1000, 999, permille);
  }

  /** The slowest `percent` of the samples, rounded up, and at least one. */
  lemma TailCountIsCeil(n: nat, percent: nat)
    requires percent <= 100
    ensures n > 0 ==> TailCount(n, percent) == Max(1, CeilDiv(n * percent, 100)) <= n
    ensures TailCount(0, percent) == 0
  {
    SplitCeil(n, percent, 100);
    CeilBounds(n, percent, 100);
  }

  lemma DivMonotone(a: int, b: int, d: int)
    requires a <= b && d > 0
    ensures a / d <= b / d
  {
    DivBounds(a, d);
    DivBounds(b, d);
    LtCancel(a / d, b / d + 1, d);
  }

  lemma RanksAreMonotone(n: nat, p: nat, q: nat)
    requires n > 0 && 0 < p <= q <= 1000 && n <= SIZE_MAX
    ensures PercentileIndex(n, p) <= PercentileIndex(n, q)
  {
    PercentileIndexIsNearestRank(n, p);
    PercentileIndexIsNearestRank(n, q);
    MulLe(p, q, n);
    DivMonotone(n * p + 999, n * q + 999, 1000);
  }

  /** The 99th percentile sits at or before the first sample of the slowest one percent. */
  lemma TailStartsAfterP99(n: nat)
    requires 0 < n <= SIZE_MAX
    ensures PercentileIndex(n, 990) <= n - TailCount(n, 1)
  {
    PercentileIndexIsNearestRank(n, 990);
    TailCountIsCeil(n, 1);
    var t := CeilDiv(n, 100);
    DivBounds(n + 99, 100);
    DivBounds(n * 990 + 999, 1000);
  }

  // ---------------------------------------------------------------------------
  // Sorting and counting
  // ---------------------------------------------------------------------------

  ghost predicate Ascending(s: seq<int>) {
    forall i, j :: 0 <= i <= j < |s| ==> s[i] <= s[j]
  }

  function Inserted(x: int, s: seq<int>): (r: seq<int>)
    ensures |r| == |s| + 1
    ensures multiset(r) == multiset(s) + multiset{x}
  {
    if s == [] then [x]
    else if x <= s[0] then [x] + s
    else
      assert s == [s[0]] + s[1..];
      [s[0]] + Inserted(x, s[1..])
  }

  /** `std::sort`: an ascending rearrangement. */
  function Sorted(s: seq<int>): (r: seq<int>)
    ensures |r| == |s| && multiset(r) == multiset(s)
  {
    if s == [] then []
    else
      assert s == [s[0]] + s[1..];
      Inserted(s[0], Sorted(s[1..]))
  }

  lemma {:induction false} InsertedAscending(x: int, s: seq<int>)
    requires Ascending(s)
    ensures Ascending(Inserted(x, s))
    ensures s != [] ==> Inserted(x, s)[0] == Min(x, s[0])
  {
    if s != [] && x > s[0] {
      InsertedAscending(x, s[1..]);
    }
  }

  lemma {:induction false} SortedAscending(s: seq<int>)
    ensures Ascending(Sorted(s))
  {
    if s == [] {
    } else {
      SortedAscending(s[1..]);
      InsertedAscending(s[0], Sorted(s[1..]));
    }
  }

  /** How many samples are at most `v`. */
  function AtMost(s: seq<int>, v: int): nat {
    if s == [] then 0 else (if s[0] <= v then 1 else 0) + AtMost(s[1..], v)
  }

  lemma {:induction false} InsertedCount(x: int, s: seq<int>, v: int)
    ensures AtMost(Inserted(x, s), v) == (if x <= v then 1 else 0) + AtMost(s, v)
  {
    if s == [] {
      assert [x][1..] == [];
    } else if x <= s[0] {
      assert ([x] + s)[1..] == s;
    } else {
      InsertedCount(x, s[1..], v);
      assert ([s[0]] + Inserted(x, s[1..]))[1..] == Inserted(x, s[1..]);
    }
  }

  lemma {:induction false} SortedCount(s: seq<int>, v: int)
    ensures AtMost(Sorted(s), v) == AtMost(s, v)
  {
    if s == [] {
    } else {
      SortedCount(s[1..], v);
      InsertedCount(s[0], Sorted(s[1..]), v);
    }
  }

  lemma {:induction false} CountBelow(s: seq<int>, v: int, k: nat)
    requires k <= |s| && forall i :: 0 <= i < k ==> s[i] <= v
    ensures AtMost(s, v) >= k
  {
    if k == 0 {
    } else {
      CountBelow(s[1..], v, k - 1);
    }
  }

  lemma {:induction false} CountAbove(s: seq<int>, v: int, k: nat)
    requires k <= |s| && forall i :: k <= i < |s| ==> s[i] > v
    ensures AtMost(s, v) <= k
  {
    if s == [] {
    } else {
      if k > 0 {
        CountAbove(s[1..], v, k - 1);
      } else {
        CountAbove(s[1..], v, 0);
      }
    }
  }

  /** The value at an index of the sorted samples: at least that many samples do not exceed it, and
      for every smaller value fewer than that many do. */
  lemma NearestRank(samples: seq<int>, k: nat)
    requires k < |samples|
    ensures AtMost(samples, Sorted(samples)[k]) >= k + 1
    ensures forall v :: v < Sorted(samples)[k] ==> AtMost(samples, v) <= k
  {
    var s := Sorted(samples);
    SortedAscending(samples);
    CountBelow(s, s[k], k + 1);
    SortedCount(samples, s[k]);
    forall v | v < s[k]
      ensures AtMost(samples, v) <= k
    {
      CountAbove(s, v, k);
      SortedCount(samples, v);
    }
  }

  // ---------------------------------------------------------------------------
  // Summaries
  // ---------------------------------------------------------------------------

  datatype Summary = Summary(
    count: nat, minNs: int, meanNs: int, p50Ns: int, p99Ns: int, p999Ns: int,
    hasP99: bool, hasP999: bool, tailMean99Ns: int, hasTailMean99: bool, maxNs: int)

  function Sum(s: seq<int>): int {
    if s == [] then 0 else Sum(s[..|s| - 1]) + s[|s| - 1]
  }

  lemma {:induction false} SumBounds(s: seq<int>, lo: int, hi: int)
    requires forall i :: 0 <= i < |s| ==> lo <= s[i] <= hi
    ensures |s| * lo <= Sum(s) <= |s| * hi
  {
    if s == [] {
    } else {
      SumBounds(s[..|s| - 1], lo, hi);
      assert |s| * lo == (|s| - 1) * lo + lo;
      assert |s| * hi == (|s| - 1) * hi + hi;
    }
  }

  lemma {:induction false} SumConcat(a: seq<int>, b: seq<int>)
    ensures Sum(a + b) == Sum(a) + Sum(b)
  {
    if b == [] {
      assert a + b == a;
    } else {
      assert (a + b)[..|a + b| - 1] == a + b[..|b| - 1];
      SumConcat(a, b[..|b| - 1]);
    }
  }

  lemma SumOne(x: int)
    ensures Sum([x]) == x
  {
    assert [x][..0] == [];
  }

  lemma {:induction false} InsertedSum(x: int, s: seq<int>)
    ensures Sum(Inserted(x, s)) == x + Sum(s)
  {
    hide Sum;
    SumOne(x);
    if s == [] {
      assert s + [x] == [x];
      SumConcat(s, [x]);
    } else if x <= s[0] {
      SumConcat([x], s);
    } else {
      InsertedSum(x, s[1..]);
      SumConcat([s[0]], Inserted(x, s[1..]));
      SumConcat([s[0]], s[1..]);
      assert [s[0]] + s[1..] == s;
    }
  }

  /** Sorting keeps the sum. */
  lemma {:induction false} SortedSum(s: seq<int>)
    ensures Sum(Sorted(s)) == Sum(s)
  {
    hide Sum;
    if s == [] {
    } else {
      SortedSum(s[1..]);
      InsertedSum(s[0], Sorted(s[1..]));
      SumConcat([s[0]], s[1..]);
      SumOne(s[0]);
      assert [s[0]] + s[1..] == s;
    }
  }

  /** `mean` is the total of `s` divided by its length, rounded toward zero. */
  ghost predicate IsMean(s: seq<int>, mean: int) {
    && (Sum(s) >= 0 ==> 0 <= mean && mean * |s| <= Sum(s) < (mean + 1) * |s|)
    && (Sum(s) <= 0 ==> mean <= 0 && (mean - 1) * |s| < Sum(s) <= mean * |s|)
  }

  lemma TruncatedMean(s: seq<int>)
    requires s != []
    ensures IsMean(s, TruncDiv(Sum(s), |s|))
  {
    hide Sum;
    DivBounds(Sum(s), |s|);
    DivBounds(-Sum(s), |s|);
  }

  /** `top` holds `k` of the samples, and none of the others is larger than any of them. */
  ghost predicate IsTop(samples: seq<int>, k: nat, top: seq<int>) {
    && |top| == k
    && exists low :: Splits(samples, low, top)
  }

  ghost predicate NoneAbove(low: seq<int>, top: seq<int>) {
    forall i, j :: 0 <= i < |low| && 0 <= j < |top| ==> low[i] <= top[j]
  }

  ghost predicate Splits(samples: seq<int>, low: seq<int>, top: seq<int>) {
    multiset(low) + multiset(top) == multiset(samples) && NoneAbove(low, top)
  }

  lemma SliceOrder(s: seq<int>, m: nat)
    requires Ascending(s) && m <= |s|
    ensures Splits(s, s[..m], s[m..])
  {
    assert s[..m] + s[m..] == s;
  }

  lemma TailIsTop(samples: seq<int>, k: nat)
    requires k <= |samples|
    ensures IsTop(samples, k, Sorted(samples)[|samples| - k..])
  {
    hide Sorted;
    var s := Sorted(samples);
    SortedAscending(samples);
    SliceOrder(s, |s| - k);
    hide NoneAbove, Ascending;
    assert Splits(samples, s[..|s| - k], s[|s| - k..]);
  }

  /** A truncated mean stays between the bounds of what it averages, whatever their signs. */
  lemma MeanBounds(total: int, n: int, lo: int, hi: int)
    requires n > 0 && n * lo <= total <= n * hi
    ensures lo <= TruncDiv(total, n) <= hi
  {
    DivBounds(total, n);
    DivBounds(-total, n);
    LtCancel(lo, total / n + 1, n);
    LtCancel(total / n, hi + 1, n);
    LtCancel(-hi, (-total) / n + 1, n);
    LtCancel((-total) / n, -lo + 1, n);
  }

  /** The truncated mean of the samples from an index on. */
  function MeanFrom(s: seq<int>, from: nat): int
    requires from < |s|
  {
    TruncDiv(Sum(s[from..]), |s| - from)
  }

  lemma SliceMean(s: seq<int>, from: nat)
    requires Ascending(s) && from < |s|
    ensures s[from] <= MeanFrom(s, from) <= s[|s| - 1]
  {
    var t := s[from..];
    SumBounds(t, s[from], s[|s| - 1]);
    MeanBounds(Sum(t), |s| - from, s[from], s[|s| - 1]);
  }

  method SumLoop(s: seq<int>, from: nat) returns (total: int)
    requires from <= |s|
    ensures total == Sum(s[from..])
  {
    total := 0;
    var i := from;
    while i < |s|
      invariant from <= i <= |s|
      invariant total == Sum(s[from..i])
    {
      assert s[from..i + 1][..i - from] == s[from..i];
      total := total + s[i];
      i := i + 1;
    }
    assert s[from..i] == s[from..];
  }

  /** The nearest-rank percentile: the least value that at least ceil(n*p/1000) samples do not exceed. */
  ghost predicate IsPercentile(samples: seq<int>, permille: nat, v: int) {
    && AtMost(samples, v) >= CeilDiv(|samples| * permille, 1000)
    && (forall u :: u < v ==> AtMost(samples, u) < CeilDiv(|samples| * permille, 1000))
  }

  ghost predicate IsLeast(samples: seq<int>, v: int) {
    v in samples && forall i :: 0 <= i < |samples| ==> v <= samples[i]
  }

  ghost predicate IsGreatest(samples: seq<int>, v: int) {
    v in samples && forall i :: 0 <= i < |samples| ==> samples[i] <= v
  }

  /** `v` is the mean of the slowest one percent of the samples, rounded up to a whole number of them. */
  ghost predicate IsTailMean(samples: seq<int>, v: int) {
    exists top :: IsTop(samples, CeilDiv(|samples|, 100), top) && IsMean(top, v)
  }

  /** What a summary reports, in terms of the samples as they were recorded, and in which order its
      figures lie; figures that need more samples are 0. */
  ghost predicate Faithful(samples: seq<int>, r: Summary) {
    && r.count == |samples|
    && r.hasP99 == r.hasTailMean99 == (|samples| >= 100)
    && r.hasP999 == (|samples| >= 1000)
    && (samples == [] ==> r.minNs == r.meanNs == r.p50Ns == r.maxNs == 0)
    && (samples != [] ==>
          && IsLeast(samples, r.minNs) && IsGreatest(samples, r.maxNs)
          && r.minNs <= r.meanNs <= r.maxNs && IsMean(samples, r.meanNs)
          && r.minNs <= r.p50Ns <= r.maxNs && IsPercentile(samples, 500, r.p50Ns))
    && (!r.hasP99 ==> r.p99Ns == r.tailMean99Ns == 0)
    && (r.hasP99 ==>
          && r.p50Ns <= r.p99Ns <= r.tailMean99Ns <= r.maxNs
          && IsPercentile(samples, 990, r.p99Ns) && IsTailMean(samples, r.tailMean99Ns))
    && (!r.hasP999 ==> r.p999Ns == 0)
    && (r.hasP999 ==> r.p99Ns <= r.p999Ns <= r.maxNs && IsPercentile(samples, 999, r.p999Ns))
  }

  lemma SortedEnds(samples: seq<int>)
    requires samples != []
    ensures IsLeast(samples, Sorted(samples)[0]) && IsGreatest(samples, Sorted(samples)[|samples| - 1])
  {
    hide Sorted;
    var s := Sorted(samples);
    SortedAscending(samples);
    assert s[0] in multiset(samples) && s[|s| - 1] in multiset(samples);
    forall i | 0 <= i < |samples|
      ensures s[0] <= samples[i] <= s[|s| - 1]
    {
      assert samples[i] in multiset(s);
    }
  }

  lemma TailSize(n: nat)
    requires n > 0
    ensures TailCount(n, 1) == CeilDiv(n, 100) && 0 < TailCount(n, 1) <= n
  {
    TailCountIsCeil(n, 1);
    CeilBounds(n, 1, 100);
  }

  lemma TopSize(samples: seq<int>, k: nat, top: seq<int>)
    requires IsTop(samples, k, top)
    ensures |top| == k
  {
  }

  lemma TailMeanIs(samples: seq<int>, k: nat, top: seq<int>)
    requires k > 0 && IsTop(samples, k, top) && k == CeilDiv(|samples|, 100)
    ensures IsTailMean(samples, TruncDiv(Sum(top), k))
  {
    hide IsTop, Sum, IsMean, CeilDiv;
    assert |top| == k by { TopSize(samples, k, top); }
    TruncatedMean(top);
  }

  /** Both means of a summary. */
  lemma MeansAreMeans(samples: seq<int>)
    requires samples != [] && |samples| <= SIZE_MAX
    ensures IsMean(samples, MeanFrom(Sorted(samples), 0))
    ensures 0 < TailCount(|samples|, 1) <= |samples|
    ensures IsTailMean(samples, MeanFrom(Sorted(samples), |samples| - TailCount(|samples|, 1)))
  {
    var n, s := |samples|, Sorted(samples);
    hide Sorted, Sum, IsTop, TailCount;
    SortedSum(samples);
    assert s[0..] == s;
    TruncatedMean(s);
    TailSize(n);
    var k := TailCount(n, 1);
    TailIsTop(samples, k);
    hide CeilDiv;
    TailMeanIs(samples, k, s[n - k..]);
  }

  /** One percentile of the samples. */
  lemma PercentileMeans(samples: seq<int>, permille: nat)
    requires 0 < |samples| <= SIZE_MAX && 0 < permille <= 1000
    ensures PercentileIndex(|samples|, permille) < |samples|
    ensures var v := Sorted(samples)[PercentileIndex(|samples|, permille)];
      IsPercentile(samples, permille, v) && Sorted(samples)[0] <= v <= Sorted(samples)[|samples| - 1]
  {
    PercentileIndexIsNearestRank(|samples|, permille);
    NearestRank(samples, PercentileIndex(|samples|, permille));
    SortedAscending(samples);
  }

  /** Indices of the reported percentiles and the start of the tail, in order. */
  lemma IndicesInOrder(n: nat)
    requires 0 < n <= SIZE_MAX
    ensures PercentileIndex(n, 500) <= PercentileIndex(n, 990) <= PercentileIndex(n, 999) < n
    ensures 0 < TailCount(n, 1) <= n && PercentileIndex(n, 990) <= n - TailCount(n, 1)
  {
    hide PercentileIndex, TailCount, CeilDiv;
    PercentileIndexIsNearestRank(n, 999);
    RanksAreMonotone(n, 500, 990);
    RanksAreMonotone(n, 990, 999);
    TailCountIsCeil(n, 1);
    TailStartsAfterP99(n);
  }

  /** Picking from an ascending sequence at ordered indices, and averaging its tail. */
  lemma PickedInOrder(s: seq<int>, i: nat, j: nat, k: nat, from: nat)
    requires Ascending(s) && i <= j <= k < |s| && j <= from < |s|
    ensures s[0] <= s[i] <= s[j] <= s[k] <= s[|s| - 1]
    ensures s[j] <= MeanFrom(s, from) <= s[|s| - 1]
    ensures s[0] <= MeanFrom(s, 0) <= s[|s| - 1]
  {
    hide MeanFrom;
    SliceMean(s, from);
    SliceMean(s, 0);
  }

  /** The summary as a function of the samples; the method below computes it with its two loops. */
  function SummaryOf(samples: seq<int>): Summary
    requires |samples| <= SIZE_MAX
  {
    if samples == [] then Summary(0, 0, 0, 0, 0, 0, false, false, 0, false, 0)
    else
      var n, s := |samples|, Sorted(samples);
      var hasP99, hasP999 := n >= P99_MIN_SAMPLES, n >= P999_MIN_SAMPLES;
      IndicesInOrder(n);
      Summary(n, s[0], MeanFrom(s, 0), s[PercentileIndex(n, 500)],
              if hasP99 then s[PercentileIndex(n, 990)] else 0,
              if hasP999 then s[PercentileIndex(n, 999)] else 0,
              hasP99, hasP999,
              if hasP99 then MeanFrom(s, n - TailCount(n, 1)) else 0, hasP99, s[n - 1])
  }

  /** Every summary is faithful to its samples. */
  lemma SummaryIsFaithful(samples: seq<int>)
    requires |samples| <= SIZE_MAX
    ensures Faithful(samples, SummaryOf(samples))
  {
    hide PercentileIndex, TailCount, IsPercentile, Sorted, MeanFrom, Ascending, IsMean, IsTailMean, IsLeast, IsGreatest;
    if samples != [] {
      var n := |samples|;
      SortedAscending(samples);
      IndicesInOrder(n);
      PickedInOrder(Sorted(samples), PercentileIndex(n, 500), PercentileIndex(n, 990), PercentileIndex(n, 999),
                    n - TailCount(n, 1));
      PercentileMeans(samples, 500);
      PercentileMeans(samples, 990);
      PercentileMeans(samples, 999);
      SortedEnds(samples);
      MeansAreMeans(samples);
    }
  }

  method ComputeMean(s: seq<int>, from: nat) returns (mean: int)
    requires from < |s|
    ensures mean == MeanFrom(s, from)
  {
    var total := SumLoop(s, from);
    mean := TruncDiv(total, |s| - from);
  }

  method Summarize(samples: seq<int>) returns (r: Summary)
    requires |samples| <= SIZE_MAX
    ensures r == SummaryOf(samples)
  {
    hide PercentileIndex, TailCount, Sorted, MeanFrom;
    if samples == [] {
      return Summary(0, 0, 0, 0, 0, 0, false, false, 0, false, 0);
    }
    var n := |samples|;
    var sorted := Sorted(samples);
    IndicesInOrder(n);
    var mean := ComputeMean(sorted, 0);
    var hasP99, hasP999 := n >= P99_MIN_SAMPLES, n >= P999_MIN_SAMPLES;
    var tailMean := 0;
    if hasP99 {
      tailMean := ComputeMean(sorted, n - TailCount(n, 1));
    }
    r := Summary(n, sorted[0], mean, sorted[PercentileIndex(n, 500)],
                 if hasP99 then sorted[PercentileIndex(n, 990)] else 0,
                 if hasP999 then sorted[PercentileIndex(n, 999)] else 0,
                 hasP99, hasP999, tailMean, hasP99, sorted[n - 1]);
  }
}
