/** Latency statistics over real numbers (apps/tokamak/analysis.cpp). */
module Latency {
  import opened Clocks
  import opened Summaries

  // ----- sorting -----

  ghost predicate Sorted(xs: seq<real>) {
    forall i, j | 0 <= i < j < |xs| :: xs[i] <= xs[j]
  }

  function Insert(x: real, xs: seq<real>): seq<real> {
    if xs == [] || x <= xs[0] then [x] + xs else [xs[0]] + Insert(x, xs[1..])
  }

  function Sort(xs: seq<real>): seq<real> {
    if xs == [] then [] else Insert(xs[0], Sort(xs[1..]))
  }

  lemma PrependSorted(x: real, xs: seq<real>)
    requires Sorted(xs) && (xs != [] ==> x <= xs[0])
    ensures Sorted([x] + xs)
  {
    var ys := [x] + xs;
    forall i, j | 0 <= i < j < |ys|
      ensures ys[i] <= ys[j]
    {
      assert ys[j] == xs[j - 1] && xs[0] <= xs[j - 1];
      assert i > 0 ==> ys[i] == xs[i - 1];
    }
  }

  lemma {:induction false} InsertContents(x: real, xs: seq<real>)
    ensures multiset(Insert(x, xs)) == multiset(xs) + multiset{x}
  {
    if xs != [] && x > xs[0] {
      InsertContents(x, xs[1..]);
      assert xs == [xs[0]] + xs[1..];
    }
  }

  lemma {:induction false} InsertSorted(x: real, xs: seq<real>)
    requires Sorted(xs)
    ensures Sorted(Insert(x, xs)) && |Insert(x, xs)| == |xs| + 1
    ensures Insert(x, xs)[0] == if xs == [] || x <= xs[0] then x else xs[0]
  {
    if xs == [] || x <= xs[0] {
      PrependSorted(x, xs);
    } else {
      InsertSorted(x, xs[1..]);
      PrependSorted(xs[0], Insert(x, xs[1..]));
    }
  }

  lemma {:induction false} SortSorts(xs: seq<real>)
    ensures Sorted(Sort(xs)) && multiset(Sort(xs)) == multiset(xs) && |Sort(xs)| == |xs|
  {
    if xs != [] {
      assert xs == [xs[0]] + xs[1..];
      SortSorts(xs[1..]);
      InsertSorted(xs[0], Sort(xs[1..]));
      InsertContents(xs[0], Sort(xs[1..]));
    }
  }

  lemma SameLeast(xs: seq<real>, ys: seq<real>)
    requires Sorted(xs) && Sorted(ys) && multiset(xs) == multiset(ys) && xs != []
    ensures ys != [] && xs[0] == ys[0]
  {
    assert xs[0] in multiset(ys);
    assert xs[0] in ys && ys[0] in multiset(xs);
    assert ys[0] in xs;
  }

  lemma TailContents(xs: seq<real>)
    requires xs != []
    ensures multiset(xs[1..]) == multiset(xs) - multiset{xs[0]}
  {
    assert xs == [xs[0]] + xs[1..];
  }

  /** A sorted sequence is determined by its contents. */
  lemma {:induction false} SortedIsUnique(xs: seq<real>, ys: seq<real>)
    requires Sorted(xs) && Sorted(ys) && multiset(xs) == multiset(ys)
    ensures xs == ys
  {
    if xs == [] {
      assert |multiset(ys)| == 0;
    } else {
      SameLeast(xs, ys);
      TailContents(xs);
      TailContents(ys);
      SortedIsUnique(xs[1..], ys[1..]);
      assert xs == [xs[0]] + xs[1..] && ys == [ys[0]] + ys[1..];
    }
  }

  // ----- percentiles -----

  function Ceil(r: real): int {
    if r.Floor as real == r then r.Floor else r.Floor + 1
  }

  /** The value at a fractional rank, by linear interpolation. */
  function Interpolate(xs: seq<real>, rank: real): real
    requires |xs| >= 1 && 0.0 <= rank <= (|xs| - 1) as real
  {
    RankInRange(|xs| - 1, rank);
    xs[rank.Floor] + Scale(rank - rank.Floor as real, xs[Ceil(rank)] - xs[rank.Floor])
  }

  lemma RankInRange(n: nat, rank: real)
    requires 0.0 <= rank <= n as real
    ensures 0 <= rank.Floor <= Ceil(rank) <= n
  {
    assert rank.Floor as real <= rank < rank.Floor as real + 1.0;
  }

  /** A fraction of a length; keeping the product behind a name keeps the proofs linear. */
  function Scale(f: real, m: real): real {
    f * m
  }

  lemma ProductIsNonnegative(a: real, b: real)
    requires a >= 0.0 && b >= 0.0
    ensures a * b >= 0.0
  {
  }

  lemma ScaleBounds(f: real, m: real)
    requires 0.0 <= f <= 1.0 && 0.0 <= m
    ensures 0.0 <= Scale(f, m) <= m
  {
    ProductIsNonnegative(f, m);
    ProductIsNonnegative(1.0 - f, m);
    assert (1.0 - f) * m == m - f * m;
  }

  lemma ScaleMonotone(f: real, g: real, m: real)
    requires f <= g && 0.0 <= m
    ensures Scale(f, m) <= Scale(g, m)
  {
    ProductIsNonnegative(g - f, m);
    assert (g - f) * m == g * m - f * m;
  }

  function Rank(n: nat, p: real): (r: real)
    requires 0.0 <= p <= 100.0 && n >= 1
    ensures 0.0 <= r <= (n - 1) as real
  {
    ScaleBounds(p / 100.0, (n - 1) as real);
    Scale(p / 100.0, (n - 1) as real)
  }

  function Percentile(xs: seq<real>, p: real): real
    requires |xs| >= 1 && 0.0 <= p <= 100.0
  {
    if |xs| == 1 then xs[0] else Interpolate(xs, Rank(|xs|, p))
  }

  lemma InterpolateBetween(xs: seq<real>, rank: real)
    requires Sorted(xs) && |xs| >= 1 && 0.0 <= rank <= (|xs| - 1) as real
    ensures 0 <= rank.Floor <= Ceil(rank) < |xs|
    ensures xs[rank.Floor] <= Interpolate(xs, rank) <= xs[Ceil(rank)]
  {
    RankInRange(|xs| - 1, rank);
    var lo, hi := xs[rank.Floor], xs[Ceil(rank)];
    ScaleBounds(rank - rank.Floor as real, hi - lo);
  }

  lemma InterpolateMonotone(xs: seq<real>, r: real, s: real)
    requires Sorted(xs) && |xs| >= 1 && 0.0 <= r <= s <= (|xs| - 1) as real
    ensures Interpolate(xs, r) <= Interpolate(xs, s)
  {
    InterpolateBetween(xs, r);
    InterpolateBetween(xs, s);
    if r.Floor < s.Floor {
      assert Ceil(r) <= s.Floor;
    } else {
      assert r.Floor == s.Floor;
      if r != s {
        assert Ceil(s) == s.Floor + 1;
        var f := r.Floor;
        ScaleMonotone(r - f as real, s - f as real, xs[f + 1] - xs[f]);
      }
    }
  }

  /** Percentiles grow with p and stay within the data. */
  lemma PercentileMonotone(xs: seq<real>, p: real, q: real)
    requires Sorted(xs) && |xs| >= 1 && 0.0 <= p <= q <= 100.0
    ensures xs[0] <= Percentile(xs, p) <= Percentile(xs, q) <= xs[|xs| - 1]
  {
    if |xs| > 1 {
      ScaleMonotone(p / 100.0, q / 100.0, (|xs| - 1) as real);
      InterpolateBetween(xs, Rank(|xs|, p));
      InterpolateBetween(xs, Rank(|xs|, q));
      InterpolateMonotone(xs, Rank(|xs|, p), Rank(|xs|, q));
    }
  }

  lemma RankIs(n: nat, p: real)
    requires 0.0 <= p <= 100.0 && n >= 1
    ensures 100.0 * Rank(n, p) == p * (n - 1) as real
  {
  }

  lemma FloorIs(x: real, k: int)
    requires k as real <= x < k as real + 1.0
    ensures x.Floor == k
  {
  }

  /**
   * The p-th percentile divides the step between the two neighbouring values as p divides the ranks:
   * at rank k it is the k-th value, and between k and k + 1 it lies proportionally between them.
   */
  lemma PercentileIs(xs: seq<real>, p: real, k: nat)
    requires |xs| >= 1 && 0.0 <= p <= 100.0 && k < |xs|
    ensures p * (|xs| - 1) as real == 100.0 * k as real ==> Percentile(xs, p) == xs[k]
    ensures 100.0 * k as real < p * (|xs| - 1) as real < 100.0 * (k + 1) as real ==>
              && k + 1 < |xs|
              && 100.0 * (Percentile(xs, p) - xs[k])
                 == (p * (|xs| - 1) as real - 100.0 * k as real) * (xs[k + 1] - xs[k])
  {
    var r := Rank(|xs|, p);
    RankIs(|xs|, p);
    if |xs| > 1 {
      if r == k as real {
        FloorIs(r, k);
      } else if k as real < r < k as real + 1.0 {
        FloorIs(r, k);
        RankInRange(|xs| - 1, r);
        assert Percentile(xs, p) == xs[k] + Scale(r - k as real, xs[k + 1] - xs[k]);
        ScaleBy(r - k as real, xs[k + 1] - xs[k]);
      }
    }
  }

  lemma ScaleBy(f: real, m: real)
    ensures 100.0 * Scale(f, m) == (100.0 * f) * m
  {
  }

  // ----- statistics -----

  function Total(xs: seq<real>): real {
    if xs == [] then 0.0 else Total(xs[..|xs| - 1]) + xs[|xs| - 1]
  }

  function Mean(xs: seq<real>): real
    requires xs != []
  {
    Total(xs) / |xs| as real
  }

  datatype Stats = Stats(p50: real, p90: real, p99: real, min: real, mean: real, max: real)

  const NO_STATS := Stats(0.0, 0.0, 0.0, 0.0, 0.0, 0.0)

  function StatsOf(values: seq<real>): Stats {
    if values == [] then NO_STATS
    else
      SortSorts(values);
      var xs := Sort(values);
      Stats(Percentile(xs, 50.0), Percentile(xs, 90.0), Percentile(xs, 99.0),
            xs[0], Mean(xs), xs[|xs| - 1])
  }

  lemma {:induction false} TotalBounds(xs: seq<real>, lo: real, hi: real)
    requires forall i | 0 <= i < |xs| :: lo <= xs[i] <= hi
    ensures lo * |xs| as real <= Total(xs) <= hi * |xs| as real
  {
    if xs != [] {
      TotalBounds(xs[..|xs| - 1], lo, hi);
    }
  }

  lemma QuotientBounds(t: real, n: real, lo: real, hi: real)
    requires n > 0.0 && lo * n <= t <= hi * n
    ensures lo <= t / n <= hi
  {
    var m := t / n;
    assert m * n == t;
    FactorIsNonnegative(m - lo, n);
    FactorIsNonnegative(hi - m, n);
  }

  lemma FactorIsNonnegative(a: real, n: real)
    requires n > 0.0 && a * n >= 0.0
    ensures a >= 0.0
  {
  }

  lemma MeanWithin(xs: seq<real>, lo: real, hi: real)
    requires xs != [] && forall i | 0 <= i < |xs| :: lo <= xs[i] <= hi
    ensures lo <= Mean(xs) <= hi
  {
    TotalBounds(xs, lo, hi);
    QuotientBounds(Total(xs), |xs| as real, lo, hi);
  }

  lemma PercentilesOrdered(values: seq<real>)
    requires values != []
    ensures var s := StatsOf(values); s.min <= s.p50 <= s.p90 <= s.p99 <= s.max
  {
    SortSorts(values);
    PercentileMonotone(Sort(values), 50.0, 90.0);
    PercentileMonotone(Sort(values), 90.0, 99.0);
  }

  lemma MeanBetween(values: seq<real>)
    requires values != []
    ensures var s := StatsOf(values); s.min <= s.mean <= s.max
  {
    SortSorts(values);
    var xs := Sort(values);
    MeanWithin(xs, xs[0], xs[|xs| - 1]);
  }

  /** The extremes are data points, and nothing lies outside them. */
  lemma ExtremesAreData(values: seq<real>, x: real)
    requires values != []
    ensures StatsOf(values).min in values && StatsOf(values).max in values
    ensures x in values ==> StatsOf(values).min <= x <= StatsOf(values).max
  {
    SortSorts(values);
    var xs := Sort(values);
    assert xs[0] in multiset(values) && xs[|xs| - 1] in multiset(values);
    if x in values {
      assert x in multiset(xs);
      var i :| 0 <= i < |xs| && xs[i] == x;
    }
  }

  lemma StatsIgnoreOrder(xs: seq<real>, ys: seq<real>)
    requires multiset(xs) == multiset(ys)
    ensures StatsOf(xs) == StatsOf(ys)
  {
    SortSorts(xs);
    SortSorts(ys);
    SortedIsUnique(Sort(xs), Sort(ys));
    assert xs == [] <==> ys == [] by {
      assert |multiset(xs)| == |xs| && |multiset(ys)| == |ys|;
    }
  }

  /** The median of two values is their midpoint. */
  lemma MedianOfTwo(a: real, b: real)
    ensures 2.0 * StatsOf([a, b]).p50 == a + b
  {
    SortSorts([a, b]);
    HalfWay(Sort([a, b]));
    TotalOfSort([a, b]);
    TotalOfTwo(Sort([a, b]));
    TotalOfTwo([a, b]);
  }

  lemma HalfWay(xs: seq<real>)
    requires |xs| == 2
    ensures 2.0 * Percentile(xs, 50.0) == xs[0] + xs[1]
  {
    PercentileIs(xs, 50.0, 0);
  }

  lemma TotalOfTwo(xs: seq<real>)
    requires |xs| == 2
    ensures Total(xs) == xs[0] + xs[1]
  {
    var front := xs[..1];
    assert front[..0] == [] && Total(front) == Total(front[..0]) + front[0];
  }

  /** Among 101 values the percentiles are the values at their own rank. */
  lemma PercentilesOf101(values: seq<real>)
    requires |values| == 101
    ensures |Sort(values)| == 101
    ensures var s, xs := StatsOf(values), Sort(values); s.p50 == xs[50] && s.p90 == xs[90] && s.p99 == xs[99]
  {
    SortSorts(values);
    PercentileIs(Sort(values), 50.0, 50);
    PercentileIs(Sort(values), 90.0, 90);
    PercentileIs(Sort(values), 99.0, 99);
  }

  lemma {:induction false} TotalOfPrepended(x: real, xs: seq<real>)
    ensures Total([x] + xs) == x + Total(xs)
  {
    if xs != [] {
      var n := |xs| - 1;
      TotalOfPrepended(x, xs[..n]);
      assert ([x] + xs)[..n + 1] == [x] + xs[..n];
    } else {
      assert [x] + xs == [x] && [x][..0] == [];
    }
  }

  lemma {:induction false} TotalOfInserted(x: real, xs: seq<real>)
    ensures Total(Insert(x, xs)) == x + Total(xs)
  {
    if xs == [] || x <= xs[0] {
      TotalOfPrepended(x, xs);
    } else {
      TotalOfInserted(x, xs[1..]);
      TotalOfPrepended(xs[0], Insert(x, xs[1..]));
      TotalOfPrepended(xs[0], xs[1..]);
      assert xs == [xs[0]] + xs[1..];
    }
  }

  lemma {:induction false} TotalOfSort(xs: seq<real>)
    ensures Total(Sort(xs)) == Total(xs)
  {
    if xs != [] {
      TotalOfSort(xs[1..]);
      TotalOfInserted(xs[0], Sort(xs[1..]));
      TotalOfPrepended(xs[0], xs[1..]);
      assert xs == [xs[0]] + xs[1..];
    }
  }

  /** The mean reported is that of the values in whatever order they came. */
  lemma MeanIgnoresOrder(values: seq<real>)
    requires values != []
    ensures StatsOf(values).mean == Mean(values)
  {
    SortSorts(values);
    TotalOfSort(values);
  }

  /** The mean times the number of values is their sum. */
  lemma MeanTimesCount(values: seq<real>)
    requires values != []
    ensures Mean(values) * |values| as real == Total(values)
  {
    QuotientTimes(Total(values), |values| as real);
  }

  lemma QuotientTimes(t: real, n: real)
    requires n > 0.0
    ensures t / n * n == t
  {
  }

  // ----- from requests to statistics -----

  const TICKS_PER_MS := 1_000_000.0

  function Milliseconds(from: TimePoint, to: TimePoint): real {
    (to - from) as real / TICKS_PER_MS
  }

  function FirstTokenLatency(r: RequestSummary): seq<real> {
    if r.admittedAt.Some? && r.firstTokenAt.Some? then [Milliseconds(r.admittedAt.value, r.firstTokenAt.value)] else []
  }

  function EndToEndLatency(r: RequestSummary): seq<real> {
    if r.admittedAt.Some? && r.completedAt.Some? then [Milliseconds(r.admittedAt.value, r.completedAt.value)] else []
  }

  datatype Milestone = FirstToken | EndToEnd

  function Sample(m: Milestone, r: RequestSummary): seq<real> {
    if m.FirstToken? then FirstTokenLatency(r) else EndToEndLatency(r)
  }

  /**
   * A request contributes one sample if it was admitted and reached the milestone, and then it is the time
   * from the admission to the milestone in milliseconds; otherwise it contributes none.
   */
  lemma SampleIs(m: Milestone, r: RequestSummary)
    ensures var reached := if m.FirstToken? then r.firstTokenAt else r.completedAt;
            if r.admittedAt.Some? && reached.Some?
            then |Sample(m, r)| == 1 && Sample(m, r)[0] * 1_000_000.0 == (reached.value - r.admittedAt.value) as real
            else Sample(m, r) == []
  {
  }

  function Samples(m: Milestone, rs: seq<RequestSummary>): seq<real> {
    if rs == [] then [] else Samples(m, rs[..|rs| - 1]) + Sample(m, rs[|rs| - 1])
  }

  /** The sequence without its k-th element. */
  function Omit(rs: seq<RequestSummary>, k: nat): seq<RequestSummary>
    requires k < |rs|
  {
    rs[..k] + rs[k + 1..]
  }

  lemma OmitEarlier(rs: seq<RequestSummary>, k: nat)
    requires k < |rs| - 1
    ensures Omit(rs, k) == Omit(rs[..|rs| - 1], k) + [rs[|rs| - 1]]
  {
  }

  lemma OmitContents(rs: seq<RequestSummary>, k: nat)
    requires k < |rs|
    ensures multiset(Omit(rs, k)) == multiset(rs) - multiset{rs[k]}
  {
    assert rs == rs[..k] + [rs[k]] + rs[k + 1..];
  }

  lemma SamplesPush(m: Milestone, rs: seq<RequestSummary>, r: RequestSummary)
    ensures Samples(m, rs + [r]) == Samples(m, rs) + Sample(m, r)
  {
    assert (rs + [r])[..|rs|] == rs;
  }

  lemma {:induction false} SamplesWithout(m: Milestone, rs: seq<RequestSummary>, k: nat)
    requires k < |rs|
    ensures multiset(Samples(m, rs)) == multiset(Samples(m, Omit(rs, k))) + multiset(Sample(m, rs[k]))
    decreases |rs|
  {
    var n := |rs| - 1;
    if k < n {
      SamplesWithout(m, rs[..n], k);
      OmitEarlier(rs, k);
      SamplesPush(m, Omit(rs[..n], k), rs[n]);
    } else {
      assert Omit(rs, k) == rs[..n];
    }
  }

  lemma PlaceOf(rs: seq<RequestSummary>, ss: seq<RequestSummary>, n: nat) returns (k: nat)
    requires multiset(rs) == multiset(ss) && n < |rs|
    ensures k < |ss| && ss[k] == rs[n] && multiset(Omit(rs, n)) == multiset(Omit(ss, k))
  {
    assert rs[n] in multiset(ss);
    k :| 0 <= k < |ss| && ss[k] == rs[n];
    OmitContents(rs, n);
    OmitContents(ss, k);
  }

  /** The samples, as a bag, depend only on the bag of requests. */
  lemma {:induction false} SamplesIgnoreOrder(m: Milestone, rs: seq<RequestSummary>, ss: seq<RequestSummary>)
    requires multiset(rs) == multiset(ss)
    ensures multiset(Samples(m, rs)) == multiset(Samples(m, ss))
    decreases |rs|
  {
    if rs == [] {
      assert |multiset(ss)| == 0;
    } else {
      var n := |rs| - 1;
      var k := PlaceOf(rs, ss, n);
      SamplesIgnoreOrder(m, Omit(rs, n), Omit(ss, k));
      SamplesWithout(m, rs, n);
      SamplesWithout(m, ss, k);
    }
  }

  datatype LatencyStats = LatencyStats(ttft: Stats, e2e: Stats)

  /** Sorting is done by the library in the original; here it is the function Sort. */
  method ComputeLatencyStats(requests: seq<RequestSummary>) returns (stats: LatencyStats)
    ensures stats == LatencyStats(StatsOf(Samples(FirstToken, requests)), StatsOf(Samples(EndToEnd, requests)))
  {
    var ttft, e2e: seq<real> := [], [];
    var i := 0;
    while i < |requests|
      invariant 0 <= i <= |requests|
      invariant ttft == Samples(FirstToken, requests[..i]) && e2e == Samples(EndToEnd, requests[..i])
    {
      var r := requests[i];
      assert requests[..i + 1][..i] == requests[..i];
      if r.admittedAt.Some? && r.firstTokenAt.Some? {
        ttft := ttft + [Milliseconds(r.admittedAt.value, r.firstTokenAt.value)];
      }
      if r.admittedAt.Some? && r.completedAt.Some? {
        e2e := e2e + [Milliseconds(r.admittedAt.value, r.completedAt.value)];
      }
      i := i + 1;
    }
    assert requests[..|requests|] == requests;
    stats := LatencyStats(StatsOf(ttft), StatsOf(e2e));
  }

  /** Reordering the requests changes no statistic. */
  lemma StatisticsIgnoreRequestOrder(rs: seq<RequestSummary>, ss: seq<RequestSummary>, m: Milestone)
    requires multiset(rs) == multiset(ss)
    ensures StatsOf(Samples(m, rs)) == StatsOf(Samples(m, ss))
  {
    SamplesIgnoreOrder(m, rs, ss);
    StatsIgnoreOrder(Samples(m, rs), Samples(m, ss));
  }
}
