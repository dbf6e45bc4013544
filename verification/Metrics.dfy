/** Run summaries: nearest-rank percentiles over a sorted copy, totals and the outcome counts. */
module Metrics {
  import opened Core
  import opened Sums

  const SIZE_MODULUS: nat := 0x1_0000_0000_0000_0000

  datatype DurationStats = DurationStats(count: nat, min: int, p50: int, p95: int, max: int, total: int)

  datatype RunSummary = RunSummary(
    total: nat,
    succeeded: nat,
    failed: nat,
    rejected: nat,
    queueWait: DurationStats,
    executionTime: DurationStats,
    totalLatency: DurationStats)

  // ----- nearest rank -----

  /** The one-based rank std::size_t arithmetic yields for a product percent * n, clamped to 1..n. */
  function ClampedRank(product: nat, n: nat): (rank: nat)
    requires 0 < n
    ensures 1 <= rank <= n
  {
    var rank := (product % SIZE_MODULUS + 99) % SIZE_MODULUS / 100;
    if rank < 1 then 1 else if rank > n then n else rank
  }

  function NearestRankIndex(percent: nat, n: nat): (index: nat)
    ensures n > 0 ==> index < n
  {
    if n == 0 then 0 else ClampedRank(percent * n, n) - 1
  }

  /** r is the least rank in 1..n with 100 r >= product. */
  ghost predicate IsNearestRank(product: nat, n: nat, r: nat)
  {
    1 <= r <= n && product <= 100 * r && (r == 1 || 100 * (r - 1) < product)
  }

  lemma ExactIffNoWrap(product: nat, n: nat)
    requires 0 < n < SIZE_MODULUS && product <= 100 * n
    ensures IsNearestRank(product, n, ClampedRank(product, n)) <==> product + 99 < SIZE_MODULUS
  {
    var sum := (product % SIZE_MODULUS + 99) % SIZE_MODULUS;
    if product + 99 >= SIZE_MODULUS {
      assert sum <= product + 99 - SIZE_MODULUS;
    }
  }

  lemma PercentBound(percent: nat, n: nat)
    requires percent <= 100
    ensures percent * n <= 100 * n
  {
    assert (100 - percent) * n >= 0;
  }

  /** For a percentile of a nonempty sample, the index is the nearest rank exactly when the arithmetic does not wrap. */
  lemma NearestRankExactIffNoWrap(percent: nat, n: nat)
    requires 0 < n < SIZE_MODULUS && percent <= 100
    ensures IsNearestRank(percent * n, n, NearestRankIndex(percent, n) + 1) <==> percent * n + 99 < SIZE_MODULUS
  {
    PercentBound(percent, n);
    ExactIffNoWrap(percent * n, n);
  }

  lemma NearestRankMonotone(p: nat, q: nat, n: nat)
    requires p <= q && q * n + 99 < SIZE_MODULUS
    ensures NearestRankIndex(p, n) <= NearestRankIndex(q, n)
  {
    assert p * n <= q * n by {
      assert (q - p) * n >= 0;
    }
    ClampedRankMonotone(p * n, q * n, n);
  }

  lemma ClampedRankMonotone(x: nat, y: nat, n: nat)
    requires x <= y && y + 99 < SIZE_MODULUS
    ensures n > 0 ==> ClampedRank(x, n) <= ClampedRank(y, n)
  {
  }

  // ----- sorting and counting -----

  ghost predicate Sorted(s: seq<int>)
  {
    forall i, j | 0 <= i < j < |s| :: s[i] <= s[j]
  }

  function Insert(x: int, s: seq<int>): seq<int>
  {
    if s == [] || x <= s[0] then [x] + s else [s[0]] + Insert(x, s[1..])
  }

  lemma {:induction false} InsertKeeps(x: int, s: seq<int>)
    ensures multiset(Insert(x, s)) == multiset(s) + multiset{x}
  {
    if s == [] || x <= s[0] {
    } else {
      InsertKeeps(x, s[1..]);
      assert s == [s[0]] + s[1..];
    }
  }

  lemma {:induction false} InsertSorts(x: int, s: seq<int>)
    requires Sorted(s)
    ensures Sorted(Insert(x, s))
  {
    if s == [] || x <= s[0] {
    } else {
      InsertSorts(x, s[1..]);
      InsertKeeps(x, s[1..]);
      var rest := Insert(x, s[1..]);
      forall k | 0 <= k < |rest|
        ensures s[0] <= rest[k]
      {
        assert rest[k] in multiset(rest);
        assert rest[k] == x || rest[k] in s[1..];
      }
    }
  }

  /** Inserting the last value into the sorted others sorts them all. */
  lemma InsertLast(values: seq<int>, front: seq<int>)
    requires values != [] && Sorted(front) && multiset(front) == multiset(values[..|values| - 1])
    ensures var s := Insert(values[|values| - 1], front);
            Sorted(s) && multiset(s) == multiset(values) && |s| == |values|
  {
    var n := |values| - 1;
    InsertSorts(values[n], front);
    InsertKeeps(values[n], front);
    assert values == values[..n] + [values[n]];
    assert |multiset(Insert(values[n], front))| == |multiset(values)|;
  }

  /** std::sort on a copy. */
  function Sort(values: seq<int>): (s: seq<int>)
    ensures Sorted(s) && multiset(s) == multiset(values) && |s| == |values|
  {
    if values == [] then []
    else
      var n := |values| - 1;
      var front := Sort(values[..n]);
      InsertLast(values, front);
      Insert(values[n], front)
  }

  function IsAtMost(v: int, x: int): nat { if x <= v then 1 else 0 }
  function AtMost(v: int): int -> nat { (x: int) => IsAtMost(v, x) }

  /** How many recorded values are at most v. */
  function CountAtMost(values: seq<int>, v: int): nat { Sum(values, AtMost(v)) }

  lemma {:induction false} SumToGrows(s: seq<int>, k: nat, n: nat, v: int)
    requires k <= n <= |s|
    ensures SumTo(s, k, AtMost(v)) <= SumTo(s, n, AtMost(v)) <= SumTo(s, k, AtMost(v)) + (n - k)
    ensures (forall i | k <= i < n :: s[i] > v) ==> SumTo(s, n, AtMost(v)) == SumTo(s, k, AtMost(v))
    decreases n
  {
    if k == n {
    } else {
      SumToGrows(s, k, n - 1, v);
    }
  }

  /** In a sorted list, position k holds a value at most v exactly when more than k values are at most v. */
  lemma PositionVersusCount(s: seq<int>, k: nat, v: int)
    requires Sorted(s) && k < |s|
    ensures s[k] <= v <==> k < CountAtMost(s, v)
  {
    if s[k] <= v {
      SumOnes(s, k + 1, AtMost(v), 1);
      SumToGrows(s, k + 1, |s|, v);
    } else {
      SumToGrows(s, k, |s|, v);
      SumToGrows(s, 0, k, v);
    }
  }

  lemma SortedPositionVersusCount(values: seq<int>, k: nat, v: int)
    requires k < |values|
    ensures Sort(values)[k] <= v <==> k < CountAtMost(values, v)
  {
    PositionVersusCount(Sort(values), k, v);
    SumPermutation(Sort(values), values, AtMost(v));
  }

  /** The order statistics are determined by the counts. */
  lemma SortByCounts(xs: seq<int>, ys: seq<int>)
    requires |xs| == |ys| && forall v :: CountAtMost(xs, v) == CountAtMost(ys, v)
    ensures Sort(xs) == Sort(ys)
  {
    forall k | 0 <= k < |xs|
      ensures Sort(xs)[k] == Sort(ys)[k]
    {
      var x, y := Sort(xs)[k], Sort(ys)[k];
      SortedPositionVersusCount(xs, k, x);
      SortedPositionVersusCount(ys, k, x);
      SortedPositionVersusCount(xs, k, y);
      SortedPositionVersusCount(ys, k, y);
    }
  }

  lemma PositionDominates(xs: seq<int>, ys: seq<int>, k: nat)
    requires |xs| == |ys| && k < |xs| && forall i | 0 <= i < |xs| :: xs[i] <= ys[i]
    ensures Sort(xs)[k] <= Sort(ys)[k]
  {
    var v := Sort(ys)[k];
    SortedPositionVersusCount(ys, k, v);
    assert CountAtMost(ys, v) <= CountAtMost(xs, v) by {
      SumLeq(ys, xs, AtMost(v), AtMost(v), 0);
    }
    SortedPositionVersusCount(xs, k, v);
  }

  /** If one list is below another element by element, so is every one of its order statistics. */
  lemma SortDominates(xs: seq<int>, ys: seq<int>)
    requires |xs| == |ys| && forall i | 0 <= i < |xs| :: xs[i] <= ys[i]
    ensures forall k | 0 <= k < |xs| :: Sort(xs)[k] <= Sort(ys)[k]
  {
    forall k | 0 <= k < |xs|
      ensures Sort(xs)[k] <= Sort(ys)[k]
    {
      PositionDominates(xs, ys, k);
    }
  }

  // ----- the distribution of one duration -----

  function TotalTo(values: seq<int>, n: nat): int
    requires n <= |values|
  {
    if n == 0 then 0 else TotalTo(values, n - 1) + values[n - 1]
  }

  function Total(values: seq<int>): int { TotalTo(values, |values|) }

  function Stats(values: seq<int>): DurationStats
  {
    if values == [] then DurationStats(0, 0, 0, 0, 0, 0)
    else
      var s := Sort(values);
      var n := |s|;
      DurationStats(n, s[0], s[NearestRankIndex(50, n)], s[NearestRankIndex(95, n)], s[n - 1], Total(s))
  }

  method StatsFrom(values: seq<int>) returns (stats: DurationStats)
    ensures stats == Stats(values)
  {
    stats := DurationStats(|values|, 0, 0, 0, 0, 0);
    if values == [] {
      return;
    }
    var sorted := Sort(values);
    stats := stats.(min := sorted[0], max := sorted[|sorted| - 1]);
    stats := stats.(p50 := sorted[NearestRankIndex(50, |sorted|)]);
    stats := stats.(p95 := sorted[NearestRankIndex(95, |sorted|)]);
    var total := 0;
    for i := 0 to |sorted|
      invariant total == TotalTo(sorted, i)
    {
      total := total + sorted[i];
    }
    stats := stats.(total := total);
  }

  /** Integer division that truncates toward zero. */
  function TruncatedQuotient(a: int, b: int): int
    requires b > 0
  {
    if a >= 0 then a / b else -((-a) / b)
  }

  function Mean(stats: DurationStats): int
  {
    if stats.count == 0 then 0 else TruncatedQuotient(stats.total, stats.count)
  }

  /** v is the least recorded value such that at least the given percentage of the values are at most v. */
  ghost predicate IsPercentile(values: seq<int>, percent: nat, v: int)
  {
    && v in values
    && percent * |values| <= 100 * CountAtMost(values, v)
    && forall u | u in values && percent * |values| <= 100 * CountAtMost(values, u) :: v <= u
  }

  /** The value at the nearest rank is the percentile. */
  lemma RankIsPercentile(values: seq<int>, percent: nat, k: nat)
    requires IsNearestRank(percent * |values|, |values|, k + 1)
    ensures IsPercentile(values, percent, Sort(values)[k])
  {
    var x := percent * |values|;
    var v := Sort(values)[k];
    assert v in multiset(values);
    SortedPositionVersusCount(values, k, v);
    forall u | u in values && x <= 100 * CountAtMost(values, u)
      ensures v <= u
    {
      var i :| 0 <= i < |values| && values[i] == u;
      SumMember(values, i, AtMost(u));
      SortedPositionVersusCount(values, k, u);
    }
  }

  lemma PercentileMeaning(values: seq<int>, percent: nat)
    requires values != [] && percent <= 100 && percent * |values| + 99 < SIZE_MODULUS
    ensures IsPercentile(values, percent, Sort(values)[NearestRankIndex(percent, |values|)])
  {
    if percent == 0 {
      assert ClampedRank(0, |values|) == 1;
    } else {
      assert |values| < SIZE_MODULUS by {
        assert (percent - 1) * |values| >= 0;
      }
      NearestRankExactIffNoWrap(percent, |values|);
    }
    RankIsPercentile(values, percent, NearestRankIndex(percent, |values|));
  }

  /** Both reported percentiles mean what they say, for every sample the arithmetic can hold. */
  lemma StatsArePercentiles(values: seq<int>)
    requires values != [] && 95 * |values| + 99 < SIZE_MODULUS
    ensures IsPercentile(values, 50, Stats(values).p50)
    ensures IsPercentile(values, 95, Stats(values).p95)
  {
    PercentileMeaning(values, 50);
    PercentileMeaning(values, 95);
  }

  /** Small enough for a vector of 40-byte samples, large enough for 95 * n to wrap. */
  const WRAPPING_SIZE: nat := 0x2B1_DA46_102B_1DA5

  /** A sample size for which the wrapped product yields the first index instead of the 95th percentile's. */
  lemma NearestRankCanWrap()
    ensures 40 * WRAPPING_SIZE < SIZE_MODULUS / 2
    ensures NearestRankIndex(95, WRAPPING_SIZE) == 0
    ensures !IsNearestRank(95 * WRAPPING_SIZE, WRAPPING_SIZE, 1)
  {
    assert 95 * WRAPPING_SIZE - SIZE_MODULUS < 95;
  }

  /** A report over that many values gives their minimum as the 95th percentile, and it is not, unless at least 95 per
      cent of the values are equal to it. */
  lemma WrappedReport(values: seq<int>)
    requires |values| == WRAPPING_SIZE
    ensures Stats(values).p95 == Stats(values).min
    ensures IsPercentile(values, 95, Stats(values).p95) <==>
            95 * |values| <= 100 * CountAtMost(values, Stats(values).min)
  {
    NearestRankCanWrap();
    StatsAreExtremes(values);
  }

  lemma StatsAreExtremes(values: seq<int>)
    requires values != []
    ensures Stats(values).min in values && Stats(values).max in values
    ensures forall v | v in values :: Stats(values).min <= v <= Stats(values).max
  {
    var s := Sort(values);
    assert s[0] in multiset(values) && s[|s| - 1] in multiset(values);
    forall v | v in values
      ensures s[0] <= v <= s[|s| - 1]
    {
      assert v in multiset(s);
    }
  }

  lemma {:induction false} TotalBetween(s: seq<int>, n: nat, lo: int, hi: int)
    requires n <= |s| && forall i | 0 <= i < |s| :: lo <= s[i] <= hi
    ensures n * lo <= TotalTo(s, n) <= n * hi
  {
    if n == 0 {
    } else {
      TotalBetween(s, n - 1, lo, hi);
    }
  }

  lemma Cancel(b: int, x: int, y: int)
    requires b > 0 && b * x < b * y
    ensures x < y
  {
    assert y <= x ==> b * (x - y) >= 0;
  }

  lemma QuotientBetween(a: int, b: int, lo: int, hi: int)
    requires b > 0 && b * lo <= a <= b * hi
    ensures lo <= TruncatedQuotient(a, b) <= hi
  {
    var q := TruncatedQuotient(a, b);
    if a >= 0 {
      assert b * q <= a < b * (q + 1);
    } else {
      var m := (-a) / b;
      assert b * m <= -a < b * (m + 1);
      assert b * (q - 1) < a <= b * q;
    }
    Cancel(b, lo, q + 1);
    Cancel(b, q - 1, hi);
  }

  /** The mean is the total divided by the count, rounded toward zero; without values it is zero. */
  lemma MeanTruncates(stats: DurationStats)
    ensures stats.count == 0 ==> Mean(stats) == 0
    ensures stats.count > 0 && stats.total >= 0 ==>
              0 <= stats.count * Mean(stats) <= stats.total < stats.count * Mean(stats) + stats.count
    ensures stats.count > 0 && stats.total <= 0 ==>
              stats.count * Mean(stats) - stats.count < stats.total <= stats.count * Mean(stats) <= 0
  {
    if stats.count > 0 {
      var m := (if stats.total >= 0 then stats.total else -stats.total) / stats.count;
      assert stats.count * -m == -(stats.count * m);
    }
  }

  /** min <= p50 <= p95 <= max and min <= mean <= max. */
  lemma StatsOrdered(values: seq<int>)
    requires values != [] && 95 * |values| + 99 < SIZE_MODULUS
    ensures var stats := Stats(values);
            stats.min <= stats.p50 <= stats.p95 <= stats.max && stats.min <= Mean(stats) <= stats.max
  {
    var s := Sort(values);
    NearestRankMonotone(50, 95, |s|);
    TotalBetween(s, |s|, s[0], s[|s| - 1]);
    QuotientBetween(Total(s), |s|, s[0], s[|s| - 1]);
  }

  // ----- the summary of a run -----

  function IsState(state: TaskState, sample: Sample): nat { if sample.state == state then 1 else 0 }
  function InState(state: TaskState): Sample -> nat { (sample: Sample) => IsState(state, sample) }
  function CountState(samples: seq<Sample>, state: TaskState): nat { Sum(samples, InState(state)) }

  function Waits(samples: seq<Sample>): (r: seq<int>)
  {
    seq(|samples|, i requires 0 <= i < |samples| => samples[i].timings.QueueWait())
  }

  function Executions(samples: seq<Sample>): (r: seq<int>)
  {
    seq(|samples|, i requires 0 <= i < |samples| => samples[i].timings.ExecutionTime())
  }

  function Latencies(samples: seq<Sample>): (r: seq<int>)
  {
    seq(|samples|, i requires 0 <= i < |samples| => samples[i].timings.TotalLatency())
  }

  function Summary(samples: seq<Sample>, rejected: nat): RunSummary
  {
    RunSummary(
      |samples| + rejected,
      CountState(samples, Succeeded),
      CountState(samples, Failed),
      rejected + CountState(samples, Rejected),
      Stats(Waits(samples)),
      Stats(Executions(samples)),
      Stats(Latencies(samples)))
  }

  method Summarize(samples: seq<Sample>, rejected: nat) returns (summary: RunSummary)
    ensures summary == Summary(samples, rejected)
  {
    var succeeded, failed, refused := 0, 0, rejected;
    var waits, executions, latencies := [], [], [];
    for i := 0 to |samples|
      invariant succeeded == SumTo(samples, i, InState(Succeeded))
      invariant failed == SumTo(samples, i, InState(Failed))
      invariant refused == rejected + SumTo(samples, i, InState(Rejected))
      invariant waits == Waits(samples)[..i]
      invariant executions == Executions(samples)[..i]
      invariant latencies == Latencies(samples)[..i]
    {
      var sample := samples[i];
      match sample.state {
        case Succeeded => succeeded := succeeded + 1;
        case Failed => failed := failed + 1;
        case Rejected => refused := refused + 1;
        case Queued =>
        case Running =>
      }
      waits := waits + [sample.timings.QueueWait()];
      executions := executions + [sample.timings.ExecutionTime()];
      latencies := latencies + [sample.timings.TotalLatency()];
    }
    assert waits == Waits(samples) && executions == Executions(samples) && latencies == Latencies(samples);
    var waitStats := StatsFrom(waits);
    var executionStats := StatsFrom(executions);
    var latencyStats := StatsFrom(latencies);
    summary := RunSummary(|samples| + rejected, succeeded, failed, refused, waitStats, executionStats, latencyStats);
  }

  lemma {:induction false} StatesPartition(samples: seq<Sample>, n: nat)
    requires n <= |samples|
    ensures SumTo(samples, n, InState(Succeeded)) + SumTo(samples, n, InState(Failed))
            + SumTo(samples, n, InState(Rejected)) + SumTo(samples, n, InState(Queued))
            + SumTo(samples, n, InState(Running)) == n
  {
    if n == 0 {
    } else {
      StatesPartition(samples, n - 1);
    }
  }

  /** The three counts and the samples in a transient state partition the total. */
  lemma SummaryPartition(samples: seq<Sample>, rejected: nat)
    ensures var r := Summary(samples, rejected);
            r.succeeded + r.failed + r.rejected + CountState(samples, Queued) + CountState(samples, Running) == r.total
  {
    StatesPartition(samples, |samples|);
  }

  /** The statistics are those of the given values. */
  ghost predicate Describes(stats: DurationStats, values: seq<int>)
  {
    && stats.count == |values| && stats.total == Total(values)
    && (values == [] ==> stats == DurationStats(0, 0, 0, 0, 0, 0))
    && (values != [] ==>
          && stats.min in values && stats.max in values
          && forall v | v in values :: stats.min <= v <= stats.max)
    && (values != [] && 95 * |values| + 99 < SIZE_MODULUS ==>
          IsPercentile(values, 50, stats.p50) && IsPercentile(values, 95, stats.p95))
  }

  lemma StatsDescribe(values: seq<int>)
    ensures Describes(Stats(values), values)
  {
    SortTotal(values);
    if values != [] {
      StatsAreExtremes(values);
      if 95 * |values| + 99 < SIZE_MODULUS {
        StatsArePercentiles(values);
      }
    }
  }

  /** In terms of the recorded instants: queue wait is dequeued - submitted, execution time is finished - dequeued and
      total latency is finished - submitted, each with its own statistics. */
  lemma SummaryReportsInstants(
    samples: seq<Sample>, rejected: nat, waits: seq<int>, executions: seq<int>, latencies: seq<int>)
    requires |waits| == |executions| == |latencies| == |samples|
    requires forall i | 0 <= i < |samples| ::
               && waits[i] == samples[i].timings.dequeued - samples[i].timings.submitted
               && executions[i] == samples[i].timings.finished - samples[i].timings.dequeued
               && latencies[i] == samples[i].timings.finished - samples[i].timings.submitted
    ensures Describes(Summary(samples, rejected).queueWait, waits)
    ensures Describes(Summary(samples, rejected).executionTime, executions)
    ensures Describes(Summary(samples, rejected).totalLatency, latencies)
  {
    assert waits == Waits(samples) && executions == Executions(samples) && latencies == Latencies(samples);
    StatsDescribe(waits);
    StatsDescribe(executions);
    StatsDescribe(latencies);
  }

  lemma {:induction false} CountIsMultiplicity(samples: seq<Sample>, states: seq<TaskState>, n: nat, state: TaskState)
    requires n <= |samples| == |states| && forall i | 0 <= i < |samples| :: states[i] == samples[i].state
    ensures SumTo(samples, n, InState(state)) == multiset(states[..n])[state]
  {
    if n == 0 {
    } else {
      CountIsMultiplicity(samples, states, n - 1, state);
      assert states[..n] == states[..n - 1] + [states[n - 1]];
    }
  }

  /** Each outcome is counted as often as it occurs among the samples; what never reached a worker is rejected. */
  lemma SummaryCounts(samples: seq<Sample>, rejected: nat, states: seq<TaskState>)
    requires |states| == |samples| && forall i | 0 <= i < |samples| :: states[i] == samples[i].state
    ensures var r := Summary(samples, rejected);
            && r.total == |samples| + rejected
            && r.succeeded == multiset(states)[Succeeded]
            && r.failed == multiset(states)[Failed]
            && r.rejected == rejected + multiset(states)[Rejected]
  {
    assert states[..|states|] == states;
    CountIsMultiplicity(samples, states, |samples|, Succeeded);
    CountIsMultiplicity(samples, states, |samples|, Failed);
    CountIsMultiplicity(samples, states, |samples|, Rejected);
  }

  function DurationAtMost(duration: Sample -> int, v: int, sample: Sample): nat { IsAtMost(v, duration(sample)) }

  /** Statistics of a duration depend on the samples only as a bag. */
  lemma StatsPermutation(xs: seq<Sample>, ys: seq<Sample>, duration: Sample -> int, dxs: seq<int>, dys: seq<int>)
    requires multiset(xs) == multiset(ys) && |dxs| == |xs| && |dys| == |ys|
    requires forall i | 0 <= i < |xs| :: dxs[i] == duration(xs[i])
    requires forall i | 0 <= i < |ys| :: dys[i] == duration(ys[i])
    ensures Stats(dxs) == Stats(dys)
  {
    assert |multiset(xs)| == |multiset(ys)|;
    forall v
      ensures CountAtMost(dxs, v) == CountAtMost(dys, v)
    {
      var f := (sample: Sample) => DurationAtMost(duration, v, sample);
      SumEqual(dxs, xs, AtMost(v), f);
      SumEqual(dys, ys, AtMost(v), f);
      SumPermutation(xs, ys, f);
    }
    SortByCounts(dxs, dys);
  }

  lemma CountsPermutation(xs: seq<Sample>, ys: seq<Sample>, state: TaskState)
    requires multiset(xs) == multiset(ys)
    ensures CountState(xs, state) == CountState(ys, state)
  {
    SumPermutation(xs, ys, InState(state));
  }

  lemma DurationsPermutation(xs: seq<Sample>, ys: seq<Sample>)
    requires multiset(xs) == multiset(ys)
    ensures Stats(Waits(xs)) == Stats(Waits(ys))
    ensures Stats(Executions(xs)) == Stats(Executions(ys))
    ensures Stats(Latencies(xs)) == Stats(Latencies(ys))
  {
    StatsPermutation(xs, ys, (s: Sample) => s.timings.QueueWait(), Waits(xs), Waits(ys));
    StatsPermutation(xs, ys, (s: Sample) => s.timings.ExecutionTime(), Executions(xs), Executions(ys));
    StatsPermutation(xs, ys, (s: Sample) => s.timings.TotalLatency(), Latencies(xs), Latencies(ys));
  }

  /** The summary does not depend on the order of the samples, hence not on which worker recorded what. */
  lemma SummaryPermutation(xs: seq<Sample>, ys: seq<Sample>, rejected: nat)
    requires multiset(xs) == multiset(ys)
    ensures Summary(xs, rejected) == Summary(ys, rejected)
  {
    assert |xs| == |multiset(xs)| == |ys|;
    CountsPermutation(xs, ys, Succeeded);
    CountsPermutation(xs, ys, Failed);
    CountsPermutation(xs, ys, Rejected);
    DurationsPermutation(xs, ys);
  }

  lemma {:induction false} TotalSplit(samples: seq<Sample>, n: nat)
    requires n <= |samples|
    ensures TotalTo(Waits(samples), n) + TotalTo(Executions(samples), n) == TotalTo(Latencies(samples), n)
  {
    if n == 0 {
    } else {
      TotalSplit(samples, n - 1);
    }
  }

  lemma {:induction false} TotalPrefix(xs: seq<int>, ys: seq<int>, n: nat)
    requires n <= |xs| && n <= |ys| && forall i | 0 <= i < n :: xs[i] == ys[i]
    ensures TotalTo(xs, n) == TotalTo(ys, n)
  {
    if n == 0 {
    } else {
      TotalPrefix(xs, ys, n - 1);
    }
  }

  lemma {:induction false} TotalHead(s: seq<int>, n: nat)
    requires 0 < n <= |s|
    ensures TotalTo(s, n) == s[0] + TotalTo(s[1..], n - 1)
  {
    if n > 1 {
      TotalHead(s, n - 1);
    } else {
      assert TotalTo(s, 0) == 0;
    }
  }

  lemma {:induction false} InsertTotal(x: int, s: seq<int>)
    ensures Total(Insert(x, s)) == x + Total(s)
  {
    TotalHead(Insert(x, s), |Insert(x, s)|);
    if s == [] || x <= s[0] {
      assert ([x] + s)[1..] == s;
    } else {
      TotalHead(s, |s|);
      InsertTotal(x, s[1..]);
      assert Insert(x, s)[1..] == Insert(x, s[1..]);
    }
  }

  lemma {:induction false} SortTotal(values: seq<int>)
    ensures Total(Sort(values)) == Total(values)
  {
    if values == [] {
    } else {
      var n := |values| - 1;
      SortTotal(values[..n]);
      InsertTotal(values[n], Sort(values[..n]));
      TotalPrefix(values, values[..n], n);
    }
  }

  /** Queue-wait and execution totals add up to the latency total, whatever the samples. */
  lemma TotalsAddUp(samples: seq<Sample>, rejected: nat)
    ensures var r := Summary(samples, rejected);
            r.queueWait.total + r.executionTime.total == r.totalLatency.total
  {
    TotalSplit(samples, |samples|);
    SortTotal(Waits(samples));
    SortTotal(Executions(samples));
    SortTotal(Latencies(samples));
  }

  ghost predicate StatsBelow(a: DurationStats, b: DurationStats)
  {
    a.count == b.count && a.min <= b.min && a.p50 <= b.p50 && a.p95 <= b.p95 && a.max <= b.max
  }

  lemma StatsDominated(xs: seq<int>, ys: seq<int>)
    requires |xs| == |ys| && forall i | 0 <= i < |xs| :: xs[i] <= ys[i]
    ensures StatsBelow(Stats(xs), Stats(ys))
  {
    SortDominates(xs, ys);
  }

  lemma WaitsBelowLatencies(samples: seq<Sample>)
    requires forall i | 0 <= i < |samples| :: samples[i].timings.Ordered()
    ensures StatsBelow(Stats(Waits(samples)), Stats(Latencies(samples)))
  {
    StatsDominated(Waits(samples), Latencies(samples));
  }

  lemma ExecutionsBelowLatencies(samples: seq<Sample>)
    requires forall i | 0 <= i < |samples| :: samples[i].timings.Ordered()
    ensures StatsBelow(Stats(Executions(samples)), Stats(Latencies(samples)))
  {
    StatsDominated(Executions(samples), Latencies(samples));
  }

  /** With ordered instants, latency dominates queue wait and execution time in every reported order statistic. */
  lemma LatencyDominates(samples: seq<Sample>, rejected: nat)
    requires forall i | 0 <= i < |samples| :: samples[i].timings.Ordered()
    ensures StatsBelow(Summary(samples, rejected).queueWait, Summary(samples, rejected).totalLatency)
    ensures StatsBelow(Summary(samples, rejected).executionTime, Summary(samples, rejected).totalLatency)
  {
    WaitsBelowLatencies(samples);
    ExecutionsBelowLatencies(samples);
  }
}
