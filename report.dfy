/**
 * The report gocachelogstat prints after the scan: the age of the cache, and
 * for the action cache and the data cache their byte totals and the reuse
 * latencies at the 10th, 20th, …, 90th, 95th, 99th and 99.9th percentile and
 * the maximum, read off the sorted sample list at index `len * p`.
 */
module Report {
  import opened Wrappers
  import opened CacheLog
  import Tokens

  predicate IsSorted(s: seq<int>) {
    forall i, j :: 0 <= i <= j < |s| ==> s[i] <= s[j]
  }

  /** `sorted` in ascending order with `x` put in place. */
  function InsertSorted(x: int, sorted: seq<int>): (r: seq<int>)
    requires IsSorted(sorted)
    ensures IsSorted(r) && multiset(r) == multiset(sorted) + multiset{x}
    ensures |r| == |sorted| + 1 && (r[0] == x || (|sorted| > 0 && r[0] == sorted[0]))
    decreases |sorted|
  {
    if |sorted| == 0 || x <= sorted[0] then [x] + sorted
    else
      var rest := InsertSorted(x, sorted[1..]);
      assert sorted == [sorted[0]] + sorted[1..];
      ConsSorted(sorted[0], rest);
      [sorted[0]] + rest
  }

  lemma ConsSorted(x: int, t: seq<int>)
    requires IsSorted(t) && (|t| == 0 || x <= t[0])
    ensures IsSorted([x] + t)
  {
  }

  /** The samples in ascending order: what `sort.Ints` leaves in the slice. */
  function Sorted(s: seq<int>): (r: seq<int>)
    ensures IsSorted(r) && multiset(r) == multiset(s)
    decreases |s|
  {
    if |s| == 0 then []
    else
      assert s == s[..|s| - 1] + [s[|s| - 1]];
      InsertSorted(s[|s| - 1], Sorted(s[..|s| - 1]))
  }

  /** The first element of a sorted list is its least. */
  lemma SortedFirstLeast(s: seq<int>, x: int)
    requires IsSorted(s) && x in multiset(s)
    ensures |s| > 0 && s[0] <= x
  {
    assert x in s;
    var i :| 0 <= i < |s| && s[i] == x;
  }

  lemma MultisetTail(a: seq<int>)
    requires |a| > 0
    ensures multiset(a[1..]) == multiset(a) - multiset{a[0]}
  {
    assert a == [a[0]] + a[1..];
  }

  /** There is only one ascending arrangement of a multiset of samples. */
  lemma {:induction false} SortedUnique(a: seq<int>, b: seq<int>)
    requires IsSorted(a) && IsSorted(b) && multiset(a) == multiset(b)
    ensures a == b
    decreases |a|
  {
    if |a| > 0 {
      SortedFirstLeast(b, a[0]);
      SortedFirstLeast(a, b[0]);
      assert a[0] == b[0];
      MultisetTail(a);
      MultisetTail(b);
      SortedUnique(a[1..], b[1..]);
    } else {
      assert |multiset(b)| == 0;
    }
  }

  /** The elements at indices below `n` are in ascending order. */
  predicate SortedBelow(a: array<int>, n: int)
    reads a
  {
    forall k, l :: 0 <= k <= l < n && l < a.Length ==> a[k] <= a[l]
  }

  /** `sort.Ints`: sorts the slice in place, into the one ascending arrangement of its elements. */
  method SortInts(a: array<int>)
    modifies a
    ensures a[..] == Sorted(old(a[..]))
  {
    var i := 0;
    while i < a.Length
      invariant 0 <= i <= a.Length
      invariant SortedBelow(a, i)
      invariant multiset(a[..]) == multiset(old(a[..]))
    {
      SinkLast(a, i);
      i := i + 1;
    }
    assert IsSorted(a[..]);
    SortedUnique(a[..], Sorted(old(a[..])));
  }

  /** One insertion step: moves `a[i]` down past the larger elements before it. */
  method SinkLast(a: array<int>, i: int)
    requires 0 <= i < a.Length && SortedBelow(a, i)
    modifies a
    ensures SortedBelow(a, i + 1)
    ensures multiset(a[..]) == multiset(old(a[..]))
  {
    var j := i;
    while j > 0 && a[j - 1] > a[j]
      invariant 0 <= j <= i
      invariant multiset(a[..]) == multiset(old(a[..]))
      invariant forall k, l :: 0 <= k <= l <= i && k != j && l != j ==> a[k] <= a[l]
      invariant forall l :: j < l <= i ==> a[j] <= a[l]
    {
      Swap(a, j - 1, j);
      j := j - 1;
    }
  }

  /** Exchanges two elements of `a`. */
  method Swap(a: array<int>, i: int, j: int)
    requires 0 <= i < a.Length && 0 <= j < a.Length
    modifies a
    ensures a[..] == old(a[..])[i := old(a[j])][j := old(a[i])]
    ensures multiset(a[..]) == multiset(old(a[..]))
  {
    a[i], a[j] := a[j], a[i];
  }

  /** A percentile as the fraction `num / den`. */
  datatype Fraction = Fraction(num: nat, den: nat)

  /** The percentiles the report lists: 10% to 90% in steps of 10%, then 95%, 99% and 99.9%. */
  const Percentiles: seq<Fraction> := [
    Fraction(10, 100), Fraction(20, 100), Fraction(30, 100), Fraction(40, 100), Fraction(50, 100),
    Fraction(60, 100), Fraction(70, 100), Fraction(80, 100), Fraction(90, 100),
    Fraction(95, 100), Fraction(99, 100), Fraction(999, 1000)]

  /** Every listed percentile is a proper fraction. */
  lemma PercentilesValid()
    ensures forall k :: 0 <= k < |Percentiles| ==> 0 < Percentiles[k].den && Percentiles[k].num < Percentiles[k].den
  {
  }

  /** The listed percentiles ascend. */
  lemma PercentilesAscend()
    ensures forall k, l :: 0 <= k <= l < |Percentiles| ==>
      Percentiles[k].num * Percentiles[l].den <= Percentiles[l].num * Percentiles[k].den
  {
  }

  /** Index of percentile `p` in a sorted list of `n` samples: `n * p`, rounded down as Go's integer division does. */
  function SampleIndex(n: nat, p: Fraction): (j: nat)
    requires 0 < p.den
    ensures j * p.den <= n * p.num < (j + 1) * p.den
    ensures n > 0 && p.num < p.den ==> j < n
  {
    var j := n * p.num / p.den;
    FloorDiv(n * p.num, p.den);
    if n > 0 && p.num < p.den then
      IndexInRange(n, p.num, p.den, j);
      j
    else
      j
  }

  /** Go's integer division of non-negative numbers rounds down. */
  lemma FloorDiv(x: nat, d: nat)
    requires 0 < d
    ensures (x / d) * d <= x < (x / d + 1) * d
  {
    var q := x / d;
    assert x == d * q + x % d;
    assert q * d == d * q;
    assert (q + 1) * d == d * q + d;
  }

  lemma IndexInRange(n: nat, num: nat, den: nat, j: nat)
    requires 0 < den && num < den && 0 < n && j == n * num / den
    ensures j < n
  {
    FloorDiv(n * num, den);
    MulStrict(n, num, den);
    assert n * den == den * n;
    MulCancel(j, n, den);
  }

  lemma MulStrict(a: nat, b: nat, c: nat)
    requires 0 < a && b < c
    ensures a * b < a * c
  {
  }

  lemma MulMono(a: nat, b: nat, c: nat)
    requires a <= b
    ensures a * c <= b * c
  {
  }

  lemma MulMonoLeft(a: nat, b: nat, c: nat)
    requires b <= c
    ensures a * b <= a * c
  {
  }

  lemma MulStrictRight(a: nat, b: nat, c: nat)
    requires a < b && 0 < c
    ensures a * c < b * c
  {
  }

  lemma MulCancel(a: nat, b: nat, c: nat)
    requires a * c < b * c
    ensures a < b
  {
    if a >= b {
      MulMono(b, a, c);
    }
  }

  lemma MulAssoc(a: nat, b: nat, c: nat)
    ensures (a * b) * c == a * (b * c) == (a * c) * b
  {
  }

  /** A larger percentile never reads an earlier sample. */
  lemma IndexMonotone(n: nat, p: Fraction, q: Fraction)
    requires 0 < p.den && 0 < q.den
    requires p.num * q.den <= q.num * p.den
    ensures SampleIndex(n, p) <= SampleIndex(n, q)
  {
    var u := SampleIndex(n, p);
    var v := SampleIndex(n, q);
    MulMono(u * p.den, n * p.num, q.den);
    MulAssoc(u, p.den, q.den);
    MulAssoc(n, p.num, q.den);
    MulMonoLeft(n, p.num * q.den, q.num * p.den);
    MulAssoc(n, q.num, p.den);
    MulStrictRight(n * q.num, (v + 1) * q.den, p.den);
    MulAssoc(v + 1, q.den, p.den);
    MulAssoc(v + 1, p.den, q.den);
    MulCancel(u, v + 1, p.den * q.den);
  }

  /** Number of samples at most `v`. */
  function CountAtMost(s: seq<int>, v: int): (c: nat)
    ensures c <= |s|
    decreases |s|
  {
    if |s| == 0 then 0 else CountAtMost(s[..|s| - 1], v) + (if s[|s| - 1] <= v then 1 else 0)
  }

  /** Number of samples strictly below `v`. */
  function CountBelow(s: seq<int>, v: int): (c: nat)
    ensures c <= |s|
    decreases |s|
  {
    if |s| == 0 then 0 else CountBelow(s[..|s| - 1], v) + (if s[|s| - 1] < v then 1 else 0)
  }

  lemma {:induction false} CountAllAtMost(s: seq<int>, v: int)
    requires forall i :: 0 <= i < |s| ==> s[i] <= v
    ensures CountAtMost(s, v) == |s|
    decreases |s|
  {
    if |s| > 0 {
      CountAllAtMost(s[..|s| - 1], v);
    }
  }

  /** In a sorted list, at least `j + 1` samples are at most `s[j]` and at most `j` are below it. */
  lemma {:induction false} SortedRank(s: seq<int>, j: nat)
    requires IsSorted(s) && j < |s|
    ensures CountAtMost(s, s[j]) >= j + 1
    ensures CountBelow(s, s[j]) <= j
    decreases |s|
  {
    var n := |s| - 1;
    var t := s[..n];
    if j < n {
      SortedRank(t, j);
    } else {
      CountAllAtMost(t, s[n]);
    }
  }

  /** What the report says about one cache's reuse latencies. */
  datatype Summary = NoReuse | Quantiles(values: seq<int>, max: int)

  /** The latencies at each listed percentile and the largest, read off the sorted samples. */
  function Summarize(sorted: seq<int>): (r: Summary)
    ensures r.NoReuse? <==> |sorted| == 0
    ensures r.Quantiles? ==> |r.values| == |Percentiles|
    ensures r.Quantiles? ==> r.max in sorted && forall k :: 0 <= k < |r.values| ==> r.values[k] in sorted
  {
    if |sorted| == 0 then NoReuse
    else
      PercentilesValid();
      Quantiles(
        seq(|Percentiles|, k requires 0 <= k < |Percentiles| => sorted[SampleIndex(|sorted|, Percentiles[k])]),
        sorted[|sorted| - 1])
  }

  /** On sorted samples the reported latencies ascend, and the maximum is the largest sample. */
  lemma SummaryOrdered(sorted: seq<int>)
    requires IsSorted(sorted) && |sorted| > 0
    ensures var r := Summarize(sorted);
      && (forall k, l :: 0 <= k <= l < |r.values| ==> r.values[k] <= r.values[l])
      && (forall k :: 0 <= k < |r.values| ==> r.values[k] <= r.max)
      && (forall i :: 0 <= i < |sorted| ==> sorted[i] <= r.max)
  {
    PercentilesValid();
    PercentilesAscend();
    var n := |sorted|;
    forall k, l | 0 <= k <= l < |Percentiles|
      ensures SampleIndex(n, Percentiles[k]) <= SampleIndex(n, Percentiles[l])
    {
      IndexMonotone(n, Percentiles[k], Percentiles[l]);
    }
  }

  /**
   * The value reported for percentile `p` is a true percentile of the samples:
   * more than the fraction `p` of them are at most that value, and no more than
   * the fraction `p` of them are below it.
   */
  lemma SummaryRanks(sorted: seq<int>, k: nat)
    requires IsSorted(sorted) && |sorted| > 0 && k < |Percentiles|
    ensures var p := Percentiles[k];
      var v := Summarize(sorted).values[k];
      && CountAtMost(sorted, v) * p.den > |sorted| * p.num
      && CountBelow(sorted, v) * p.den <= |sorted| * p.num
  {
    PercentilesValid();
    var p := Percentiles[k];
    var n := |sorted|;
    var j := SampleIndex(n, p);
    SortedRank(sorted, j);
    MulMono(j + 1, CountAtMost(sorted, sorted[j]), p.den);
    MulMono(CountBelow(sorted, sorted[j]), j, p.den);
  }

  /** The figures printed for one cache. */
  datatype CacheReport = CacheReport(name: string, total: int, reused: int, summary: Summary)

  /** The whole report; the cache age is in seconds. */
  datatype Report = Report(age: int, action: CacheReport, data: CacheReport)

  /**
   * What a cache's report says about its reuse latencies: "no reuse" exactly
   * when there are none; otherwise every reported value is one of the
   * latencies and the reported maximum is the largest of them.
   */
  predicate Describes(c: CacheReport, samples: seq<int>) {
    && (c.summary.NoReuse? <==> |samples| == 0)
    && (c.summary.Quantiles? ==>
          && c.summary.max in samples
          && (forall x :: x in samples ==> x <= c.summary.max)
          && (forall k :: 0 <= k < |c.summary.values| ==> c.summary.values[k] in samples))
  }

  /** Summarizing the sorted latencies describes the latencies themselves. */
  lemma SummaryOfSamples(name: string, total: int, reused: int, samples: seq<int>)
    ensures Describes(CacheReport(name, total, reused, Summarize(Sorted(samples))), samples)
  {
    var t := Sorted(samples);
    assert |t| == |multiset(t)| == |multiset(samples)| == |samples|;
    forall x
      ensures x in samples <==> x in t
    {
      assert x in samples <==> x in multiset(samples);
      assert x in t <==> x in multiset(t);
    }
    if |t| > 0 {
      SummaryOrdered(t);
      var m := Summarize(t).max;
      forall x | x in samples
        ensures x <= m
      {
        var i :| 0 <= i < |t| && t[i] == x;
      }
    }
  }

  /** The report for a finished scan: both sample lists sorted, then summarized. */
  function ReportOf(s: ScanState): (r: Report)
    ensures r.age == s.lastTime - s.firstTime
    ensures r.action.total == s.totalA && r.action.reused == s.totalReusedA && Describes(r.action, s.reuseA)
    ensures r.data.total == s.totalD && r.data.reused == s.totalReusedD && Describes(r.data, s.reuseD)
  {
    SummaryOfSamples("action", s.totalA, s.totalReusedA, s.reuseA);
    SummaryOfSamples("data", s.totalD, s.totalReusedD, s.reuseD);
    Report(
      s.lastTime - s.firstTime,
      CacheReport("action", s.totalA, s.totalReusedA, Summarize(Sorted(s.reuseA))),
      CacheReport("data", s.totalD, s.totalReusedD, Summarize(Sorted(s.reuseD))))
  }

  /** The value the loop of `printCache` prints for `i` percent is the summary's `i / 10`-th. */
  lemma DecileValue(reuse: seq<int>, i: nat)
    requires |reuse| > 0 && 10 <= i <= 90 && i % 10 == 0
    ensures |reuse| * i / 100 < |reuse|
    ensures Summarize(reuse).values[i / 10 - 1] == reuse[|reuse| * i / 100]
  {
    assert Percentiles[i / 10 - 1] == Fraction(i, 100);
    IndexInRange(|reuse|, i, 100, |reuse| * i / 100);
  }

  /** The last three values of the summary are those at 95%, 99% and 99.9%. */
  lemma TailValues(reuse: seq<int>)
    requires |reuse| > 0
    ensures var n := |reuse|;
      && n * 95 / 100 < n && n * 99 / 100 < n && n * 999 / 1000 < n
      && Summarize(reuse).values[9..] == [reuse[n * 95 / 100], reuse[n * 99 / 100], reuse[n * 999 / 1000]]
  {
    var n := |reuse|;
    IndexInRange(n, 95, 100, n * 95 / 100);
    IndexInRange(n, 99, 100, n * 99 / 100);
    IndexInRange(n, 999, 1000, n * 999 / 1000);
    assert Percentiles[9] == Fraction(95, 100);
    assert Percentiles[10] == Fraction(99, 100);
    assert Percentiles[11] == Fraction(999, 1000);
  }

  /** `printCache`: the percentile loop over 10%..90%, then 95%, 99%, 99.9% and the maximum. */
  method PrintCache(name: string, total: int, totalReused: int, reuse: seq<int>) returns (c: CacheReport)
    ensures c == CacheReport(name, total, totalReused, Summarize(reuse))
  {
    if |reuse| == 0 {
      return CacheReport(name, total, totalReused, NoReuse);
    }
    ghost var want := Summarize(reuse).values;
    var n := |reuse|;
    var values: seq<int> := [];
    var i := 10;
    while i <= 90
      invariant 10 <= i <= 100 && i % 10 == 0
      invariant |values| == i / 10 - 1
      invariant values == want[..|values|]
    {
      var j := n * i / 100;
      DecileValue(reuse, i);
      values := values + [reuse[j]];
      i := i + 10;
    }
    TailValues(reuse);
    values := values + [reuse[n * 95 / 100], reuse[n * 99 / 100], reuse[n * 999 / 1000]];
    assert values == want[..9] + want[9..];
    c := CacheReport(name, total, totalReused, Quantiles(values, reuse[n - 1]));
  }

  /** A copy of the samples sorted in place, as `sort.Ints` does to the tool's slices. */
  method SortSamples(samples: seq<int>) returns (sorted: seq<int>)
    ensures sorted == Sorted(samples)
  {
    var a := new int[|samples|];
    forall i | 0 <= i < |samples| {
      a[i] := samples[i];
    }
    assert a[..] == samples;
    SortInts(a);
    sorted := a[..];
  }

  /**
   * The tool end to end on the text of the log: split it into lines of fields,
   * scan it, sort both sample lists and summarize them, or report the first
   * bad line.
   */
  method Analyze(data: string) returns (r: Result<Report, ScanError>)
    ensures Run(Tokens.Tokenize(data)).Failure? ==> r == Failure(Run(Tokens.Tokenize(data)).error)
    ensures Run(Tokens.Tokenize(data)).Success? ==> r == Success(ReportOf(Run(Tokens.Tokenize(data)).value))
  {
    var lines := Tokens.Tokenize(data);
    var scan := ScanLog(lines);
    if scan.Failure? {
      return Failure(scan.error);
    }
    var report := Summaries(scan.value);
    r := Success(report);
  }

  /** The tail of the tool's `main`: sort both sample lists, then the cache age and one `printCache` per cache. */
  method Summaries(s: ScanState) returns (report: Report)
    ensures report == ReportOf(s)
  {
    var reuseA := SortSamples(s.reuseA);
    var reuseD := SortSamples(s.reuseD);
    var action := PrintCache("action", s.totalA, s.totalReusedA, reuseA);
    var dataCache := PrintCache("data", s.totalD, s.totalReusedD, reuseD);
    report := Report(s.lastTime - s.firstTime, action, dataCache);
  }
}
