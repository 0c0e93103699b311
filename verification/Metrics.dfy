/** internal/metrics/collector.go: process-local counters and a rolling window of latencies in
    nanoseconds, summarised by an average and a 95th percentile. */
module Metrics {
  import opened Backoff

  const WINDOW: nat := 1000
  const MILLISECOND: int := 1_000_000

  /** time.Duration.Milliseconds truncates towards zero. */
  function Millis(d: int): int {
    if d >= 0 then d / MILLISECOND else -((-d) / MILLISECOND)
  }

  /** The last `n` elements. */
  function Last(s: seq<int>, n: nat): seq<int> {
    if |s| <= n then s else s[|s| - n..]
  }

  /** The window is as long as it may be, and holds the newest samples in their order. */
  lemma NewestOf(s: seq<int>)
    ensures |Last(s, WINDOW)| == if |s| < 1000 then |s| else 1000
    ensures var w := Last(s, WINDOW); forall k :: 0 <= k < |w| ==> w[k] == s[|s| - |w| + k]
  {
  }

  /** Whole milliseconds: rounded down for a positive duration, and alike in both directions. */
  lemma WholeMillis(d: int)
    ensures d >= 0 ==> 1_000_000 * Millis(d) <= d < 1_000_000 * (Millis(d) + 1)
    ensures Millis(-d) == -Millis(d)
  {
  }

  function Sum(s: seq<int>): int {
    if s == [] then 0 else Sum(s[..|s| - 1]) + s[|s| - 1]
  }

  lemma {:induction false} SumLaws(s: seq<int>, t: seq<int>, x: int)
    ensures Sum([]) == 0 && Sum([x]) == x && Sum(s + t) == Sum(s) + Sum(t)
    decreases |t|
  {
    assert [x][..0] == [];
    if t == [] {
      assert s + t == s;
    } else {
      var n := |t| - 1;
      assert (s + t)[..|s + t| - 1] == s + t[..n];
      SumLaws(s, t[..n], x);
    }
  }

  // ---- ranks ----

  /** `x` is on the side of `v` asked for, `v` itself included. */
  predicate OnSide(x: int, v: int, below: bool) {
    if below then x <= v else x >= v
  }

  /** How many elements are at most `v`, or at least `v`. */
  function Count(s: seq<int>, v: int, below: bool): (n: nat)
    ensures n <= |s|
  {
    if s == [] then 0 else (if OnSide(s[0], v, below) then 1 else 0) + Count(s[1..], v, below)
  }

  lemma {:induction false} CountConcat(s: seq<int>, t: seq<int>, v: int, below: bool)
    ensures Count(s + t, v, below) == Count(s, v, below) + Count(t, v, below)
    decreases |s|
  {
    if s == [] {
      assert s + t == t;
    } else {
      assert (s + t)[1..] == s[1..] + t;
      CountConcat(s[1..], t, v, below);
    }
  }

  /** A permutation has the same ranks. */
  lemma {:induction false} CountPermuted(s: seq<int>, t: seq<int>, v: int, below: bool)
    requires multiset(s) == multiset(t)
    ensures Count(s, v, below) == Count(t, v, below)
    decreases |s|
  {
    assert |multiset(s)| == |s| && |multiset(t)| == |t|;
    if s != [] {
      var x := s[0];
      assert x in multiset(t);
      var k :| 0 <= k < |t| && t[k] == x;
      var rest := t[..k] + t[k + 1..];
      assert s == [x] + s[1..];
      assert t == t[..k] + ([x] + t[k + 1..]);
      assert multiset(rest) == multiset(t) - multiset{x};
      CountPermuted(s[1..], rest, v, below);
      CountConcat(t[..k], t[k + 1..], v, below);
      CountConcat(t[..k], [x] + t[k + 1..], v, below);
    }
  }

  lemma {:induction false} CountAll(s: seq<int>, v: int, below: bool)
    requires forall k :: 0 <= k < |s| ==> OnSide(s[k], v, below)
    ensures Count(s, v, below) == |s|
    decreases |s|
  {
    if s != [] { CountAll(s[1..], v, below); }
  }

  predicate Sorted(s: seq<int>) {
    forall k, l :: 0 <= k <= l < |s| ==> s[k] <= s[l]
  }

  /** `v` is the 95th percentile: more than 95 per cent of the elements are at most `v`, and at
      least 5 per cent are at least `v`. */
  predicate IsP95(s: seq<int>, v: int) {
    v in s && 20 * Count(s, v, true) > 19 * |s| && 20 * Count(s, v, false) >= |s|
  }

  /** In a sorted sequence an index tells how many elements are on either side. */
  lemma SortedRanks(s: seq<int>, k: nat)
    requires Sorted(s) && k < |s|
    ensures Count(s, s[k], true) >= k + 1 && Count(s, s[k], false) >= |s| - k
  {
    var v := s[k];
    assert s == s[..k + 1] + s[k + 1..] && s == s[..k] + s[k..];
    CountConcat(s[..k + 1], s[k + 1..], v, true);
    CountAll(s[..k + 1], v, true);
    CountConcat(s[..k], s[k..], v, false);
    CountAll(s[k..], v, false);
  }

  /** int(float64(n) * 0.95), see FloatIndex. */
  function P95Index(n: nat): nat {
    19 * n / 20
  }

  /** The element the code picks from the sorted samples; its guard against an index out of range
      never acts. */
  lemma PickIsP95(sorted: seq<int>, samples: seq<int>)
    requires Sorted(sorted) && multiset(sorted) == multiset(samples) && samples != []
    ensures |sorted| == |samples| && P95Index(|sorted|) < |sorted|
    ensures IsP95(samples, sorted[P95Index(|sorted|)])
  {
    assert |multiset(sorted)| == |sorted| && |multiset(samples)| == |samples|;
    var v := sorted[P95Index(|sorted|)];
    assert v in multiset(samples);
    SortedRanks(sorted, P95Index(|sorted|));
    CountPermuted(sorted, samples, v, true);
    CountPermuted(sorted, samples, v, false);
  }

  lemma {:induction false} Apart(s: seq<int>, v: int, w: int)
    requires v < w
    ensures Count(s, v, true) + Count(s, w, false) <= |s|
    decreases |s|
  {
    if s != [] { Apart(s[1..], v, w); }
  }

  /** There is only one such value. */
  lemma P95IsUnique(s: seq<int>, v: int, w: int)
    requires IsP95(s, v) && IsP95(s, w)
    ensures v == w
  {
    if v < w { Apart(s, v, w); }
    if w < v { Apart(s, w, v); }
  }

  // ---- the index as the code computes it, in float64 ----

  const TWO_52: int := 0x10_0000_0000_0000

  /** The constant 0.95 as a float64, in units of 2^-52. */
  const NINETY_FIVE: int := 4278419646001971

  /** Spacing of the float64 numbers around `x`, both in units of 2^-52, for `x` below 2^62. */
  function Ulp(x: int): int {
    var h := x / TWO_52;
    if h < 2 then 1 else if h < 4 then 2 else if h < 8 then 4 else if h < 16 then 8 else if h < 32 then 16
    else if h < 64 then 32 else if h < 128 then 64 else if h < 256 then 128 else if h < 512 then 256 else 512
  }

  /** Rounding to the nearest multiple of `u`, ties to even. */
  function Rounded(x: int, u: int): int
    requires u > 0
  {
    var down := x / u * u;
    if 2 * (x % u) < u || (2 * (x % u) == u && (x / u) % 2 == 0) then down else down + u
  }

  /** The float64 product of a whole number and 0.95, in units of 2^-52. */
  function Product(n: nat): int {
    Rounded(n * NINETY_FIVE, Ulp(n * NINETY_FIVE))
  }

  lemma UlpFits(x: int)
    requires TWO_52 <= x < 1024 * TWO_52
    ensures var u := Ulp(x); 1 <= u <= 512 && x < 2 * u * TWO_52 && TWO_52 == TWO_52 / u * u
  {
  }

  lemma RoundedClose(x: int, u: int)
    requires 0 < u
    ensures x - u <= Rounded(x, u) <= x + u
  {
    assert x / u * u + x % u == x;
  }

  /** Just below a multiple of the spacing, rounding reaches the multiple. */
  lemma RoundsUp(x: int, u: int, m: int, d: int)
    requires 0 < 2 * d < u && x == m * u - d
    ensures Rounded(x, u) == m * u
  {
    assert x == (m - 1) * u + (u - d);
    DivUnique(x, u, m - 1, u - d);
  }

  lemma DivUnique(x: int, u: int, q: int, r: int)
    requires 0 <= r < u && x == q * u + r
    ensures x / u == q && x % u == r
  {
    var d := x / u - q;
    assert d * u == r - x % u by { assert x == x / u * u + x % u; }
    Multiples(d, u);
  }

  lemma Multiples(d: int, u: int)
    requires 0 < u
    ensures d >= 1 ==> d * u >= u
    ensures d <= -1 ==> d * u <= -u
  {
    if d >= 1 { assert d * u >= 1 * u; }
    if d <= -1 { assert d * u <= -1 * u; }
  }

  /** A multiple of twenty: the exact product lies below a whole number by less than half the
      spacing, and is rounded up to it. */
  lemma WholeIndex(j: nat)
    requires 0 < j <= 50
    ensures Product(20 * j) == 19 * j * TWO_52
  {
    var x := 20 * j * NINETY_FIVE;
    assert x == 19 * j * TWO_52 - 4 * j;
    UlpFits(x);
    var u := Ulp(x);
    var m := 19 * j * (TWO_52 / u);
    assert m * u == 19 * j * TWO_52;
    RoundsUp(x, u, m, 4 * j);
  }

  /** The float64 product, truncated, is the rank in whole numbers for every size of the window. */
  lemma FloatIndex(n: nat)
    requires n <= WINDOW
    ensures Product(n) / TWO_52 == P95Index(n)
  {
    if n % 20 == 0 && n > 0 {
      assert n == 20 * (n / 20);
      WholeIndex(n / 20);
    } else if n > 1 {
      UlpFits(n * NINETY_FIVE);
      RoundedClose(n * NINETY_FIVE, Ulp(n * NINETY_FIVE));
    }
  }

  // ---- the int64 sum ----

  lemma WrapSum(x: int, y: int)
    ensures Wrap64(Wrap64(x) + y) == Wrap64(x + y)
  {
  }

  lemma {:induction false} SumBounds(s: seq<int>, bound: nat)
    requires forall k :: 0 <= k < |s| ==> 0 <= s[k] <= bound
    ensures 0 <= Sum(s) <= |s| * bound
    decreases |s|
  {
    if s != [] {
      var n := |s| - 1;
      SumBounds(s[..n], bound);
      assert |s| * bound == n * bound + bound;
    }
  }

  /** Up to a thousand latencies below a hundred days each, the sum does not wrap around. */
  lemma SumFits(s: seq<int>)
    requires |s| <= WINDOW && forall k :: 0 <= k < |s| ==> 0 <= s[k] <= 100 * 86400 * SECOND
    ensures Wrap64(Sum(s)) == Sum(s)
  {
    var bound := 100 * 86400 * SECOND;
    SumBounds(s, bound);
    assert |s| * bound <= WINDOW * bound;
  }

  // ---- sorting ----

  method Swap(a: array<int>, i: nat, j: nat)
    requires i < j < a.Length
    modifies a
    ensures a[i] == old(a[j]) && a[j] == old(a[i])
    ensures forall k :: 0 <= k < a.Length && k != i && k != j ==> a[k] == old(a[k])
    ensures multiset(a[..]) == multiset(old(a[..]))
  {
    a[i], a[j] := a[j], a[i];
  }

  /** The first `i` elements are sorted and in their final place. */
  predicate Placed(s: seq<int>, i: nat) {
    forall k, l :: 0 <= k < i && k <= l < |s| ==> s[k] <= s[l]
  }

  /** Element `i` is the least of those from `i` up to `j`. */
  predicate LeastUpTo(s: seq<int>, i: nat, j: nat) {
    i < |s| && forall l :: i <= l < j && l < |s| ==> s[i] <= s[l]
  }

  /** The exchange sort of calcLatencyStats. */
  method ExchangeSort(a: array<int>)
    modifies a
    ensures Sorted(a[..]) && multiset(a[..]) == multiset(old(a[..]))
  {
    var i := 0;
    while i < a.Length
      invariant 0 <= i <= a.Length && Placed(a[..], i)
      invariant multiset(a[..]) == multiset(old(a[..]))
    {
      var j := i + 1;
      while j < a.Length
        invariant i < j <= a.Length && Placed(a[..], i) && LeastUpTo(a[..], i, j)
        invariant multiset(a[..]) == multiset(old(a[..]))
      {
        if a[j] < a[i] {
          ghost var before := a[..];
          Swap(a, i, j);
          SwapKeeps(before, a[..], i, j);
        }
        j := j + 1;
      }
      i := i + 1;
    }
  }

  lemma SwapKeeps(s: seq<int>, t: seq<int>, i: nat, j: nat)
    requires i < j < |s| && t == s[i := s[j]][j := s[i]]
    requires Placed(s, i) && LeastUpTo(s, i, j) && s[j] < s[i]
    ensures Placed(t, i) && LeastUpTo(t, i, j + 1)
  {
    forall k, l | 0 <= k < i && k <= l < |t| ensures t[k] <= t[l] {
      assert s[k] <= s[l] && s[k] <= s[i] && s[k] <= s[j];
    }
  }

  // ---- the collector ----

  datatype Snapshot = Snapshot(totalSent: int, totalFailed: int, totalRetried: int,
                               successRate: real, avgLatencyMs: real, p95LatencyMs: int)

  /** The summing loop of calcLatencyStats. */
  method Total(samples: seq<int>) returns (total: int)
    ensures total == Wrap64(Sum(samples))
  {
    total := 0;
    var k := 0;
    while k < |samples|
      invariant 0 <= k <= |samples| && total == Wrap64(Sum(samples[..k]))
    {
      assert samples[..k + 1][..k] == samples[..k];
      WrapSum(Sum(samples[..k]), samples[k]);
      total := Wrap64(total + samples[k]);
      k := k + 1;
    }
    assert samples[..k] == samples;
  }

  /** The percentile part of calcLatencyStats, on a copy of the samples. */
  method Percentile(samples: seq<int>) returns (v: int)
    requires samples != []
    ensures IsP95(samples, v)
  {
    var sorted := new int[|samples|](k requires 0 <= k < |samples| => samples[k]);
    assert sorted[..] == samples;
    ExchangeSort(sorted);
    PickIsP95(sorted[..], samples);
    var idx := P95Index(sorted.Length);
    if idx >= sorted.Length {
      assert false;
    }
    v := sorted[idx];
  }

  /** `avg` and `p95` summarise the samples; the average is a quotient of exact integers. */
  ghost predicate Summarises(samples: seq<int>, avg: real, p95: int) {
    if samples == [] then avg == 0.0 && p95 == 0
    else
      && avg == Millis(Wrap64(Sum(samples))) as real / |samples| as real
      && exists v :: IsP95(samples, v) && p95 == Millis(v)
  }

  method CalcLatencyStats(samples: seq<int>) returns (avg: real, p95: int)
    ensures Summarises(samples, avg, p95)
  {
    if |samples| == 0 {
      return 0.0, 0;
    }
    var total := Total(samples);
    avg := Millis(total) as real / |samples| as real;
    var v := Percentile(samples);
    p95 := Millis(v);
  }

  class Collector {
    var sent: int
    var failed: int
    var retried: int
    var latencies: seq<int>
    /** Every latency recorded so far. */
    ghost var recorded: seq<int>

    ghost predicate Valid()
      reads this
    {
      latencies == Last(recorded, WINDOW)
    }

    constructor ()
      ensures Valid() && recorded == [] && sent == failed == retried == 0
    {
      sent, failed, retried := 0, 0, 0;
      latencies := [];
      recorded := [];
    }

    method IncSent()
      modifies this`sent
      ensures sent == old(sent) + 1
    {
      sent := sent + 1;
    }

    method IncFailed()
      modifies this`failed
      ensures failed == old(failed) + 1
    {
      failed := failed + 1;
    }

    method IncRetried()
      modifies this`retried
      ensures retried == old(retried) + 1
    {
      retried := retried + 1;
    }

    /** The window is the last thousand of all latencies recorded. */
    method RecordLatency(d: int)
      requires Valid()
      modifies this`latencies, this`recorded
      ensures Valid() && recorded == old(recorded) + [d]
      ensures |latencies| == if |recorded| < 1000 then |recorded| else 1000
      ensures forall k :: 0 <= k < |latencies| ==> latencies[k] == recorded[|recorded| - |latencies| + k]
    {
      recorded := recorded + [d];
      latencies := latencies + [d];
      if |latencies| > WINDOW {
        latencies := latencies[|latencies| - WINDOW..];
      }
      NewestOf(recorded);
    }

    /** Summarises the window, which it leaves alone. */
    method TakeSnapshot() returns (snap: Snapshot)
      requires Valid()
      ensures snap.totalSent == sent && snap.totalFailed == failed && snap.totalRetried == retried
      ensures sent + failed <= 0 ==> snap.successRate == 0.0
      ensures sent + failed > 0 ==> snap.successRate == sent as real / (sent + failed) as real * 100.0
      ensures Summarises(latencies, snap.avgLatencyMs, snap.p95LatencyMs)
    {
      var successRate := 0.0;
      var total := sent + failed;
      if total > 0 {
        successRate := sent as real / total as real * 100.0;
      }
      var lats := latencies;
      var avg, p95 := CalcLatencyStats(lats);
      snap := Snapshot(sent, failed, retried, successRate, avg, p95);
    }
  }
}
