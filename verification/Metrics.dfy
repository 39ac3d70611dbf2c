// The metrics query over the request log (src/storage.rs): buckets anchored to
// wall-clock edges, and percentiles.

module Metrics {
  import opened Arithmetic
  import opened Sorting
  import opened Types
  import opened Wrappers

  datatype Request = Request(startedAt: Time, status: Option<nat>, duration: Option<nat>, ttfb: Option<nat>)

  datatype Bucket = Bucket(
    startedAt: Time,
    requests: nat,
    failures: nat,
    averageTtfb: Option<nat>,
    ttfbP95: Option<nat>)

  datatype Percentiles = Percentiles(p50: Option<nat>, p95: Option<nat>, p99: Option<nat>)

  datatype Window = Window(
    windowSeconds: nat,
    bucketSeconds: nat,
    total: nat,
    successful: nat,
    perSecond: real,
    successRate: real,
    ttfb: Percentiles,
    duration: Percentiles,
    buckets: seq<Bucket>)

  // ---------------------------------------------------------------- the grid

  function Clamp(x: nat, low: nat, high: nat): nat {
    if x < low then low else if x > high then high else x
  }

  function WindowSeconds(window: nat): nat {
    Clamp(window, 10, 86_400)
  }

  function BucketSeconds(window: nat, bucket: nat): (b: nat)
    ensures 1 <= b <= WindowSeconds(window)
  {
    Clamp(bucket, 1, WindowSeconds(window))
  }

  // Buckets of `size` seconds, `count` of them, the first beginning at `start`
  // seconds after the epoch.
  datatype Grid = Grid(start: int, size: nat, count: nat)

  predicate Sound(g: Grid) {
    g.size > 0 && g.count > 0
  }

  function GridAt(now: Time, window: nat, bucket: nat): (g: Grid)
    ensures Sound(g)
  {
    var size := BucketSeconds(window, bucket);
    var count := DivCeil(WindowSeconds(window), size);
    Grid(now / SECOND / size * size - (count - 1) * size, size, count)
  }

  function Edge(g: Grid, i: int): Time {
    (g.start + i * g.size) * SECOND
  }

  function Elapsed(g: Grid, t: Time): nat {
    var seconds := (t - Edge(g, 0)) / SECOND;
    if seconds < 0 then 0 else seconds
  }

  // The bucket a request is put in, with the clamp to the last one.
  function Index(g: Grid, t: Time): (i: nat)
    requires Sound(g)
    ensures i < g.count
  {
    var i := Elapsed(g, t) / g.size;
    if i < g.count - 1 then i else g.count - 1
  }

  lemma GridShape(now: Time, window: nat, bucket: nat)
    ensures var g := GridAt(now, window, bucket);
            var current := now / SECOND / g.size;
            && g.start == (current - (g.count - 1)) * g.size
            && g.start == current * g.size - g.count * g.size + g.size
            && current * g.size <= now / SECOND < current * g.size + g.size
            && g.count * g.size - g.size < WindowSeconds(window) <= g.count * g.size
  {
    var g := GridAt(now, window, bucket);
    Distribute(now / SECOND / g.size, g.count - 1, g.size);
    Distribute(g.count, 1, g.size);
    Floor(now / SECOND, g.size);
    Ceiling(WindowSeconds(window), g.size);
  }

  lemma Floor(x: int, m: nat)
    requires m > 0
    ensures x / m * m <= x < x / m * m + m
  {
  }

  lemma Ceiling(x: nat, m: nat)
    requires m > 0
    ensures DivCeil(x, m) * m - m < x <= DivCeil(x, m) * m
  {
  }

  lemma Distribute(a: int, b: int, m: int)
    ensures (a - b) * m == a * m - b * m
  {
  }

  // Every edge is a multiple of the bucket size since the epoch.
  lemma EdgesAligned(now: Time, window: nat, bucket: nat, i: int)
    ensures Edge(GridAt(now, window, bucket), i) % (BucketSeconds(window, bucket) * SECOND) == 0
  {
    var g := GridAt(now, window, bucket);
    var first := now / SECOND / g.size - (g.count - 1);
    GridShape(now, window, bucket);
    assert (first + i) * g.size == first * g.size + i * g.size;
    MultipleOf(first + i, g.size, SECOND);
  }

  // The last bucket holds now, and the buckets reach back over the whole window
  // but for what is still to come of the current bucket.
  lemma GridCoversWindow(now: Time, window: nat, bucket: nat)
    ensures var g := GridAt(now, window, bucket);
            && Edge(g, g.count - 1) <= now < Edge(g, g.count)
            && Edge(g, 0) <= Edge(g, g.count) - WindowSeconds(window) * SECOND < Edge(g, 1)
  {
    var g := GridAt(now, window, bucket);
    GridShape(now, window, bucket);
    Distribute(g.count, 1, g.size);
  }

  lemma MultipleOf(k: int, size: nat, unit: nat)
    requires size > 0 && unit > 0
    ensures k * size * unit % (size * unit) == 0
  {
    assert k * size * unit == k * (size * unit);
    QuotientIs(k * (size * unit), size * unit, k);
  }

  // A request between the cutoff and now lands in the bucket whose half-open
  // interval holds it, and the clamp does nothing.
  lemma LandsInItsInterval(now: Time, window: nat, bucket: nat, t: Time)
    requires Edge(GridAt(now, window, bucket), 0) <= t <= now
    ensures var g := GridAt(now, window, bucket);
            && Edge(g, Index(g, t)) <= t < Edge(g, Index(g, t) + 1)
            && Index(g, t) == Elapsed(g, t) / g.size
  {
    var g := GridAt(now, window, bucket);
    GridCoversWindow(now, window, bucket);
    WithinGrid(g, t);
  }

  lemma WithinGrid(g: Grid, t: Time)
    requires Sound(g) && Edge(g, 0) <= t < Edge(g, g.count)
    ensures Edge(g, Index(g, t)) <= t < Edge(g, Index(g, t) + 1)
    ensures Index(g, t) == Elapsed(g, t) / g.size
  {
    var e := Elapsed(g, t);
    var q := e / g.size;
    assert q * g.size <= e < q * g.size + g.size;
    assert e < g.count * g.size;
    if q >= g.count { Times(g.count, q, g.size); }
    assert (q + 1) * g.size == q * g.size + g.size;
  }

  // ---------------------------------------------------------------- the rows

  function Recent(log: seq<Request>, cutoff: Time): seq<Request> {
    if log == [] then []
    else
      var r := log[|log| - 1];
      Recent(log[..|log| - 1], cutoff) + if r.startedAt >= cutoff then [r] else []
  }

  predicate Succeeded(r: Request) {
    r.status.Some? && 200 <= r.status.value < 400
  }

  function Successes(requests: seq<Request>): (n: nat)
    ensures n <= |requests|
  {
    if requests == [] then 0
    else Successes(requests[..|requests| - 1]) + if Succeeded(requests[|requests| - 1]) then 1 else 0
  }

  function Failures(requests: seq<Request>): nat {
    if requests == [] then 0
    else Failures(requests[..|requests| - 1]) + if Succeeded(requests[|requests| - 1]) then 0 else 1
  }

  lemma {:induction false} SucceededOrFailed(requests: seq<Request>)
    ensures Failures(requests) == |requests| - Successes(requests)
  {
    if requests != [] {
      SucceededOrFailed(requests[..|requests| - 1]);
    }
  }

  function Present(x: Option<nat>): seq<nat> {
    if x.Some? then [x.value] else []
  }

  function Ttfbs(requests: seq<Request>): seq<nat> {
    if requests == [] then [] else Ttfbs(requests[..|requests| - 1]) + Present(requests[|requests| - 1].ttfb)
  }

  function Durations(requests: seq<Request>): seq<nat> {
    if requests == [] then [] else Durations(requests[..|requests| - 1]) + Present(requests[|requests| - 1].duration)
  }

  function Sum(values: seq<nat>): nat {
    if values == [] then 0 else Sum(values[..|values| - 1]) + values[|values| - 1]
  }

  function Placing(g: Grid): Request -> nat
    requires Sound(g)
  {
    (r: Request) => Index(g, r.startedAt)
  }

  // The requests put in bucket i.
  function Landed(requests: seq<Request>, place: Request -> nat, i: nat): seq<Request> {
    if requests == [] then []
    else
      var r := requests[|requests| - 1];
      Landed(requests[..|requests| - 1], place, i) + if place(r) == i then [r] else []
  }

  // The rows from one moment on, up to another if there is one.
  function Between(log: seq<Request>, from: Time, to: Option<Time>): seq<Request> {
    if log == [] then []
    else
      var r := log[|log| - 1];
      Between(log[..|log| - 1], from, to) +
      if from <= r.startedAt && (to.None? || r.startedAt < to.value) then [r] else []
  }

  // The last bucket also takes what lies in the future.
  function Until(g: Grid, i: nat): Option<Time> {
    if i + 1 < g.count then Some(Edge(g, i + 1)) else None
  }

  lemma IndexIff(g: Grid, t: Time, i: nat)
    requires Sound(g) && i < g.count && Edge(g, 0) <= t
    ensures Index(g, t) == i <==> Edge(g, i) <= t && (Until(g, i).None? || t < Until(g, i).value)
  {
    if t < Edge(g, g.count) {
      WithinGrid(g, t);
      EdgesIncrease(g, Index(g, t), i);
      EdgesIncrease(g, i, Index(g, t));
    } else {
      BeyondGrid(g, t);
      EdgesIncrease(g, i, g.count);
      if i + 1 < g.count { EdgesIncrease(g, i + 1, g.count); }
    }
  }

  lemma BeyondGrid(g: Grid, t: Time)
    requires Sound(g) && Edge(g, g.count) <= t
    ensures Index(g, t) == g.count - 1
  {
    var e := Elapsed(g, t);
    assert Edge(g, g.count) == Edge(g, 0) + g.count * g.size * SECOND;
    assert e >= g.count * g.size;
    var q := e / g.size;
    assert e < q * g.size + g.size;
    if q < g.count { Times(q + 1, g.count, g.size); }
  }

  lemma EdgesIncrease(g: Grid, i: nat, j: nat)
    requires g.size > 0
    ensures i <= j ==> Edge(g, i) <= Edge(g, j)
    ensures i < j ==> Edge(g, i + 1) <= Edge(g, j)
  {
    if i <= j { Times(i, j, g.size); }
    if i < j { Times(i + 1, j, g.size); }
  }

  lemma LandedNext(log: seq<Request>, g: Grid, i: nat)
    requires Sound(g) && i < g.count && log != []
    ensures var n := |log| - 1;
            Landed(Recent(log, Edge(g, 0)), Placing(g), i) ==
            Landed(Recent(log[..n], Edge(g, 0)), Placing(g), i) +
            if log[n].startedAt >= Edge(g, 0) && Index(g, log[n].startedAt) == i then [log[n]] else []
  {
    var r, before := log[|log| - 1], Recent(log[..|log| - 1], Edge(g, 0));
    if r.startedAt >= Edge(g, 0) {
      var after := before + [r];
      assert after[..|after| - 1] == before && after[|after| - 1] == r;
      assert Landed(after, Placing(g), i) ==
        Landed(before, Placing(g), i) + if Placing(g)(r) == i then [r] else [];
    } else {
      assert Recent(log, Edge(g, 0)) == before + [];
      assert before + [] == before;
    }
  }

  lemma {:induction false} GridHoldsIntervals(log: seq<Request>, g: Grid, i: nat)
    requires Sound(g) && i < g.count
    ensures Landed(Recent(log, Edge(g, 0)), Placing(g), i) == Between(log, Edge(g, i), Until(g, i))
  {
    if log != [] {
      var n := |log| - 1;
      GridHoldsIntervals(log[..n], g, i);
      LandedNext(log, g, i);
      EdgesIncrease(g, 0, i);
      if log[n].startedAt >= Edge(g, 0) { IndexIff(g, log[n].startedAt, i); }
    }
  }

  // For every log, window and bucket size, a bucket holds exactly the rows of its
  // half-open interval, but for the last, which holds all from its edge on.
  lemma BucketHoldsItsInterval(log: seq<Request>, now: Time, window: nat, bucket: nat, i: nat)
    requires i < GridAt(now, window, bucket).count
    ensures var g := GridAt(now, window, bucket);
            Landed(Recent(log, Edge(g, 0)), Placing(g), i) == Between(log, Edge(g, i), Until(g, i))
  {
    GridHoldsIntervals(log, GridAt(now, window, bucket), i);
  }

  // Without rows in the future the last bucket is no exception.
  lemma {:induction false} NoFutureRows(log: seq<Request>, now: Time, from: Time, to: Time)
    requires now < to && forall k :: 0 <= k < |log| ==> log[k].startedAt <= now
    ensures Between(log, from, None) == Between(log, from, Some(to))
  {
    if log != [] {
      NoFutureRows(log[..|log| - 1], now, from, to);
    }
  }

  // ---------------------------------------------------------------- percentiles

  predicate AtMost(a: nat, b: nat) {
    a <= b
  }

  function Percentile(values: seq<nat>, percent: nat): Option<nat> {
    if values == [] then None
    else
      var index := Rank(|values|, percent);
      if index < |values| then Some(values[index]) else None
  }

  function PercentilesOf(samples: seq<nat>): Percentiles {
    var values := SortBy(samples, AtMost);
    Percentiles(Percentile(values, 50), Percentile(values, 95), Percentile(values, 99))
  }

  function Below(values: seq<nat>, x: int): (n: nat)
    ensures n <= |values|
  {
    if values == [] then 0
    else Below(values[..|values| - 1], x) + if values[|values| - 1] < x then 1 else 0
  }

  lemma {:induction false} BelowInsert(values: seq<nat>, v: nat, x: int)
    ensures Below(Insert(values, v, AtMost), x) == Below(values, x) + if v < x then 1 else 0
  {
    var n := |values|;
    if n == 0 || AtMost(values[n - 1], v) {
      assert (values + [v])[..n] == values;
    } else {
      BelowInsert(values[..n - 1], v, x);
      var rest := Insert(values[..n - 1], v, AtMost);
      assert (rest + [values[n - 1]])[..|rest|] == rest;
    }
  }

  lemma {:induction false} BelowSorted(samples: seq<nat>, x: int)
    ensures Below(SortBy(samples, AtMost), x) == Below(samples, x)
  {
    if samples != [] {
      var n := |samples| - 1;
      BelowSorted(samples[..n], x);
      BelowInsert(SortBy(samples[..n], AtMost), samples[n], x);
    }
  }

  // In a sorted list, position bounds the count on either side.
  lemma {:induction false} BelowAtRank(values: seq<nat>, i: nat)
    requires Sorted(values, AtMost) && i < |values|
    ensures Below(values, values[i]) <= i < Below(values, values[i] + 1)
  {
    var n := |values| - 1;
    if i < n {
      assert AtMost(values[i], values[n]);
      BelowAtRank(values[..n], i);
    } else {
      forall j | 0 <= j < n ensures values[j] <= values[n] {
        assert AtMost(values[j], values[n]);
      }
      AllBelow(values[..n], values[n] + 1);
    }
  }

  lemma {:induction false} AllBelow(values: seq<nat>, x: int)
    requires forall j :: 0 <= j < |values| ==> values[j] < x
    ensures Below(values, x) == |values|
  {
    if values != [] {
      AllBelow(values[..|values| - 1], x);
    }
  }

  function Rank(n: nat, percent: nat): nat
    requires n > 0
  {
    DivCeil((n - 1) * percent, 100)
  }

  lemma RankBounds(n: nat, percent: nat)
    requires n > 0 && percent <= 100
    ensures Rank(n, percent) < n
    ensures 100 * (Rank(n, percent) + 1) >= percent * n
    ensures 100 * Rank(n, percent) < percent * (n - 1) + 100
  {
    Times(percent, 100, n - 1);
    assert (n - 1) * percent == percent * (n - 1) == percent * n - percent;
  }

  lemma RankMonotone(n: nat, p: nat, q: nat)
    requires n > 0 && p <= q
    ensures Rank(n, p) <= Rank(n, q)
  {
    Times(p, q, n - 1);
    assert (n - 1) * p == p * (n - 1) && (n - 1) * q == q * (n - 1);
  }

  // Of n samples, at least the given share are at most the value, and fewer than
  // that share of the others, and one more, are below it.
  predicate CoversShare(below: nat, atMost: nat, n: nat, percent: nat) {
    100 * atMost >= percent * n && 100 * below < percent * (n - 1) + 100
  }

  lemma AtRank(values: seq<nat>, n: nat, percent: nat) returns (v: nat)
    requires Sorted(values, AtMost) && |values| == n > 0 && percent <= 100
    ensures v in values && Percentile(values, percent) == Some(v)
    ensures CoversShare(Below(values, v), Below(values, v + 1), n, percent)
  {
    RankBounds(n, percent);
    BelowAtRank(values, Rank(n, percent));
    v := values[Rank(n, percent)];
  }

  // The sorted values are the samples.
  lemma SortedSamples(samples: seq<nat>)
    ensures Sorted(SortBy(samples, AtMost), AtMost) && |SortBy(samples, AtMost)| == |samples|
    ensures forall v :: v in SortBy(samples, AtMost) ==> v in samples
  {
    SortBySorts(samples, AtMost);
    assert forall v :: v in SortBy(samples, AtMost) ==> v in multiset(SortBy(samples, AtMost));
  }

  lemma PercentileIsSample(samples: seq<nat>, percent: nat, v: nat)
    requires percent <= 100 && Percentile(SortBy(samples, AtMost), percent) == Some(v)
    ensures v in samples
  {
    SortedSamples(samples);
    RankBounds(|samples|, percent);
  }

  // The reported percentile against the samples as they were recorded.
  lemma PercentileCovers(samples: seq<nat>, percent: nat, v: nat)
    requires percent <= 100 && Percentile(SortBy(samples, AtMost), percent) == Some(v)
    ensures CoversShare(Below(samples, v), Below(samples, v + 1), |samples|, percent)
  {
    var values := SortBy(samples, AtMost);
    SortedSamples(samples);
    BelowSorted(samples, v);
    BelowSorted(samples, v + 1);
    CoversAtRank(values, |samples|, percent, v);
  }

  lemma CoversAtRank(values: seq<nat>, n: nat, percent: nat, v: nat)
    requires Sorted(values, AtMost) && |values| == n && percent <= 100 && Percentile(values, percent) == Some(v)
    ensures CoversShare(Below(values, v), Below(values, v + 1), n, percent)
  {
    var reported := AtRank(values, n, percent);
  }

  lemma PercentileMonotone(samples: seq<nat>, p: nat, q: nat)
    requires samples != [] && p <= q <= 100
    ensures var values := SortBy(samples, AtMost);
            && Percentile(values, p).Some? && Percentile(values, q).Some?
            && Percentile(values, p).value <= Percentile(values, q).value
  {
    var values := SortBy(samples, AtMost);
    SortedSamples(samples);
    RankBounds(|values|, p);
    RankBounds(|values|, q);
    RankMonotone(|values|, p, q);
    assert Rank(|values|, p) < Rank(|values|, q) ==> AtMost(values[Rank(|values|, p)], values[Rank(|values|, q)]);
  }

  lemma PercentilesOrdered(samples: seq<nat>)
    ensures var r := PercentilesOf(samples);
            if samples == [] then r == Percentiles(None, None, None)
            else r.p50.Some? && r.p95.Some? && r.p99.Some? && r.p50.value <= r.p95.value <= r.p99.value
  {
    if samples != [] {
      PercentileMonotone(samples, 50, 95);
      PercentileMonotone(samples, 95, 99);
    }
  }

  // ---------------------------------------------------------------- the query

  function Average(total: nat, count: nat): Option<nat> {
    if count > 0 then Some(total / count) else None
  }

  function BucketOf(start: Time, landed: seq<Request>): Bucket {
    var samples := Ttfbs(landed);
    Bucket(start, |landed|, Failures(landed),
           Average(Sum(samples), |samples|),
           Percentile(SortBy(samples, AtMost), 95))
  }

  ghost predicate AreBuckets(buckets: seq<Bucket>, g: Grid, requests: seq<Request>)
    requires Sound(g)
  {
    forall i :: 0 <= i < |buckets| ==> buckets[i] == BucketOf(Edge(g, i), Landed(requests, Placing(g), i))
  }

  function SumRequests(buckets: seq<Bucket>): nat {
    if buckets == [] then 0 else SumRequests(buckets[..|buckets| - 1]) + buckets[|buckets| - 1].requests
  }

  function SumFailures(buckets: seq<Bucket>): nat {
    if buckets == [] then 0 else SumFailures(buckets[..|buckets| - 1]) + buckets[|buckets| - 1].failures
  }

  function SumBelow(f: nat -> nat, k: nat): nat {
    if k == 0 then 0 else SumBelow(f, k - 1) + f(k - 1)
  }

  // Raising one term raises the sum once it is included.
  lemma {:induction false} SumRaised(f: nat -> nat, g: nat -> nat, at: nat, more: nat, k: nat)
    requires forall i :: g(i) == f(i) + if i == at then more else 0
    ensures SumBelow(g, k) == SumBelow(f, k) + if at < k then more else 0
  {
    if k > 0 {
      SumRaised(f, g, at, more, k - 1);
    }
  }

  lemma {:induction false} SumOfNothing(f: nat -> nat, k: nat)
    requires forall i :: f(i) == 0
    ensures SumBelow(f, k) == 0
  {
    if k > 0 {
      SumOfNothing(f, k - 1);
    }
  }

  function LandedAt(requests: seq<Request>, place: Request -> nat): nat -> nat {
    i => |Landed(requests, place, i)|
  }

  function FailedAt(requests: seq<Request>, place: Request -> nat): nat -> nat {
    i => Failures(Landed(requests, place, i))
  }

  lemma LandsOnce(requests: seq<Request>, place: Request -> nat, i: nat)
    requires requests != []
    ensures var r := requests[|requests| - 1];
            var landed, before := Landed(requests, place, i), Landed(requests[..|requests| - 1], place, i);
            && |landed| == |before| + (if place(r) == i then 1 else 0)
            && Failures(landed) == Failures(before) + (if place(r) == i && !Succeeded(r) then 1 else 0)
  {
    var before := Landed(requests[..|requests| - 1], place, i);
    assert (before + [requests[|requests| - 1]])[..|before|] == before;
    assert before + [] == before;
  }

  // Each request lands in exactly one place.
  lemma {:induction false} LandedPartition(requests: seq<Request>, place: Request -> nat, count: nat)
    requires forall r :: place(r) < count
    ensures SumBelow(LandedAt(requests, place), count) == |requests|
    ensures SumBelow(FailedAt(requests, place), count) == Failures(requests)
  {
    if requests == [] {
      SumOfNothing(LandedAt(requests, place), count);
      SumOfNothing(FailedAt(requests, place), count);
    } else {
      var before, r := requests[..|requests| - 1], requests[|requests| - 1];
      LandedPartition(before, place, count);
      forall i: nat {
        LandsOnce(requests, place, i);
      }
      SumRaised(LandedAt(before, place), LandedAt(requests, place), place(r), 1, count);
      SumRaised(FailedAt(before, place), FailedAt(requests, place), place(r), if Succeeded(r) then 0 else 1, count);
    }
  }

  lemma {:induction false} SumsAreCounts(buckets: seq<Bucket>, g: Grid, requests: seq<Request>)
    requires Sound(g) && AreBuckets(buckets, g, requests)
    ensures SumRequests(buckets) == SumBelow(LandedAt(requests, Placing(g)), |buckets|)
    ensures SumFailures(buckets) == SumBelow(FailedAt(requests, Placing(g)), |buckets|)
  {
    if buckets != [] {
      SumsAreCounts(buckets[..|buckets| - 1], g, requests);
    }
  }

  // Each request is in exactly one bucket, so the bucket counts add up.
  lemma BucketsPartition(buckets: seq<Bucket>, g: Grid, requests: seq<Request>)
    requires Sound(g) && |buckets| == g.count && AreBuckets(buckets, g, requests)
    ensures SumRequests(buckets) == |requests|
    ensures SumFailures(buckets) == |requests| - Successes(requests)
  {
    SumsAreCounts(buckets, g, requests);
    LandedPartition(requests, Placing(g), g.count);
    SucceededOrFailed(requests);
  }

  // What the first loop gathers for one bucket.
  datatype Cell = Cell(bucket: Bucket, total: nat, count: nat, samples: seq<nat>)

  ghost predicate Tallied(c: Cell, start: Time, landed: seq<Request>) {
    && c.bucket == Bucket(start, |landed|, Failures(landed), None, None)
    && c.samples == Ttfbs(landed) && c.count == |c.samples| && c.total == Sum(c.samples)
  }

  ghost predicate AllTallied(cells: seq<Cell>, starts: seq<Time>, requests: seq<Request>, place: Request -> nat) {
    && |cells| == |starts|
    && forall i :: 0 <= i < |cells| ==> Tallied(cells[i], starts[i], Landed(requests, place, i))
  }

  // One request counted.
  function Counted(c: Cell, r: Request): Cell {
    var b := c.bucket.(requests := c.bucket.requests + 1,
                       failures := c.bucket.failures + if Succeeded(r) then 0 else 1);
    if r.ttfb.Some? then Cell(b, c.total + r.ttfb.value, c.count + 1, c.samples + [r.ttfb.value])
    else c.(bucket := b)
  }

  lemma Tally(landed: seq<Request>, r: Request)
    ensures Failures(landed + [r]) == Failures(landed) + (if Succeeded(r) then 0 else 1)
    ensures Ttfbs(landed + [r]) == Ttfbs(landed) + Present(r.ttfb)
    ensures Sum(Ttfbs(landed + [r])) == Sum(Ttfbs(landed)) + (if r.ttfb.Some? then r.ttfb.value else 0)
  {
    assert (landed + [r])[..|landed|] == landed;
    var values := Ttfbs(landed);
    assert Ttfbs(landed + [r]) == values + Present(r.ttfb);
    if r.ttfb.Some? {
      assert (values + [r.ttfb.value])[..|values|] == values;
    } else {
      assert values + [] == values;
    }
  }

  lemma CountedTallied(c: Cell, start: Time, landed: seq<Request>, r: Request)
    requires Tallied(c, start, landed)
    ensures Tallied(Counted(c, r), start, landed + [r])
  {
    Tally(landed, r);
    assert c.samples + [] == c.samples;
  }

  lemma LandedMore(requests: seq<Request>, r: Request, place: Request -> nat, i: nat)
    ensures Landed(requests + [r], place, i) == Landed(requests, place, i) + if place(r) == i then [r] else []
  {
    assert (requests + [r])[..|requests|] == requests;
  }

  lemma CellTallied(cells: seq<Cell>, starts: seq<Time>, requests: seq<Request>, place: Request -> nat, r: Request,
                    i: nat)
    requires place(r) < |cells| && i < |cells| && AllTallied(cells, starts, requests, place)
    ensures Tallied(cells[place(r) := Counted(cells[place(r)], r)][i], starts[i], Landed(requests + [r], place, i))
  {
    var landed := Landed(requests, place, i);
    LandedMore(requests, r, place, i);
    if i == place(r) {
      CountedTallied(cells[i], starts[i], landed, r);
    } else {
      assert landed + [] == landed;
    }
  }

  lemma NextTallied(cells: seq<Cell>, starts: seq<Time>, requests: seq<Request>, place: Request -> nat, n: nat)
    requires n < |requests| && place(requests[n]) < |cells|
    requires AllTallied(cells, starts, requests[..n], place)
    ensures var index := place(requests[n]);
            AllTallied(cells[index := Counted(cells[index], requests[n])], starts, requests[..n + 1], place)
  {
    assert requests[..n + 1] == requests[..n] + [requests[n]];
    forall i: nat | i < |cells| {
      CellTallied(cells, starts, requests[..n], place, requests[n], i);
    }
  }

  lemma NothingTallied(cells: seq<Cell>, starts: seq<Time>, place: Request -> nat)
    requires |cells| == |starts|
    requires forall i :: 0 <= i < |cells| ==> cells[i] == Cell(Bucket(starts[i], 0, 0, None, None), 0, 0, [])
    ensures AllTallied(cells, starts, [], place)
  {
    forall i | 0 <= i < |cells| ensures Tallied(cells[i], starts[i], Landed([], place, i)) {
      assert cells[i] == Cell(Bucket(starts[i], 0, 0, None, None), 0, 0, []);
    }
  }

  method Tabulate(requests: seq<Request>, g: Grid) returns (table: seq<Bucket>)
    requires Sound(g)
    ensures |table| == g.count && AreBuckets(table, g, requests)
  {
    var buckets := new Bucket[g.count](i => Bucket(Edge(g, i), 0, 0, None, None));
    var totals := new nat[g.count](_ => 0);
    var counts := new nat[g.count](_ => 0);
    var samples := new seq<nat>[g.count](_ => []);
    ghost var starts := seq(g.count, i => Edge(g, i));
    ghost var cells := seq(g.count, i => Cell(Bucket(Edge(g, i), 0, 0, None, None), 0, 0, []));
    NothingTallied(cells, starts, Placing(g));
    cells := Fill(requests, Placing(g), buckets, totals, counts, samples, cells, starts);
    table := Summarise(buckets, totals, counts, samples, cells);
    CompletedAreBuckets(table, cells, starts, g, requests);
  }

  lemma CompletedAreBuckets(table: seq<Bucket>, cells: seq<Cell>, starts: seq<Time>, g: Grid, requests: seq<Request>)
    requires Sound(g) && |table| == |cells| && AllTallied(cells, starts, requests, Placing(g))
    requires forall i :: 0 <= i < |starts| ==> starts[i] == Edge(g, i)
    requires forall i :: 0 <= i < |table| ==> table[i] == Completed(cells[i])
    ensures AreBuckets(table, g, requests)
  {
    forall i | 0 <= i < |table| ensures table[i] == BucketOf(Edge(g, i), Landed(requests, Placing(g), i)) {
      TalliedCompletes(cells[i], starts[i], Landed(requests, Placing(g), i));
    }
  }

  // The average and the percentile filled in.
  function Completed(c: Cell): Bucket {
    c.bucket.(averageTtfb := Average(c.total, c.count), ttfbP95 := Percentile(SortBy(c.samples, AtMost), 95))
  }

  lemma TalliedCompletes(c: Cell, start: Time, landed: seq<Request>)
    requires Tallied(c, start, landed)
    ensures Completed(c) == BucketOf(start, landed)
  {
  }

  // The cell whose parts four arrays hold at one index.
  ghost predicate Holds(buckets: array<Bucket>, totals: array<nat>, counts: array<nat>, samples: array<seq<nat>>,
                        cells: seq<Cell>)
    reads buckets, totals, counts, samples
  {
    && buckets.Length == totals.Length == counts.Length == samples.Length == |cells|
    && forall i :: 0 <= i < |cells| ==> cells[i] == Cell(buckets[i], totals[i], counts[i], samples[i])
  }

  method Summarise(buckets: array<Bucket>, totals: array<nat>, counts: array<nat>, samples: array<seq<nat>>,
                   ghost cells: seq<Cell>) returns (table: seq<Bucket>)
    requires Holds(buckets, totals, counts, samples, cells)
    modifies buckets
    ensures |table| == |cells| && forall i :: 0 <= i < |cells| ==> table[i] == Completed(cells[i])
  {
    for k := 0 to buckets.Length
      invariant forall i :: 0 <= i < k ==> buckets[i] == Completed(cells[i])
      invariant forall i :: k <= i < |cells| ==> buckets[i] == cells[i].bucket
    {
      buckets[k] := Complete(buckets[k], totals[k], counts[k], samples[k]);
    }
    table := buckets[..];
  }

  method Complete(b: Bucket, total: nat, count: nat, samples: seq<nat>) returns (completed: Bucket)
    ensures completed == Completed(Cell(b, total, count, samples))
  {
    var sorted := Sort(samples, AtMost);
    completed := b.(averageTtfb := Average(total, count), ttfbP95 := Percentile(sorted, 95));
  }

  // A predicate compared with true stays folded in a proof.
  method Fill(requests: seq<Request>, place: Request -> nat, buckets: array<Bucket>, totals: array<nat>,
              counts: array<nat>, samples: array<seq<nat>>, ghost empty: seq<Cell>, ghost starts: seq<Time>)
      returns (ghost cells: seq<Cell>)
    requires totals != counts && forall r :: place(r) < buckets.Length
    requires Holds(buckets, totals, counts, samples, empty) && AllTallied(empty, starts, [], place)
    modifies buckets, totals, counts, samples
    ensures Holds(buckets, totals, counts, samples, cells) && AllTallied(cells, starts, requests, place)
  {
    cells := empty;
    assert requests[..0] == [];
    for n := 0 to |requests|
      invariant true == Holds(buckets, totals, counts, samples, cells)
      invariant true == AllTallied(cells, starts, requests[..n], place)
    {
      NextTallied(cells, starts, requests, place, n);
      cells := Count(requests[n], place(requests[n]), buckets, totals, counts, samples, cells);
    }
    assert requests[..|requests|] == requests;
  }

  method Count(r: Request, index: nat, buckets: array<Bucket>, totals: array<nat>, counts: array<nat>,
               samples: array<seq<nat>>, ghost cells: seq<Cell>) returns (ghost after: seq<Cell>)
    requires index < buckets.Length && totals != counts
    requires Holds(buckets, totals, counts, samples, cells)
    modifies buckets, totals, counts, samples
    ensures Holds(buckets, totals, counts, samples, after)
    ensures index < |cells| && after == cells[index := Counted(cells[index], r)]
  {
    after := cells[index := Counted(cells[index], r)];
    buckets[index] := buckets[index].(requests := buckets[index].requests + 1);
    if !Succeeded(r) {
      buckets[index] := buckets[index].(failures := buckets[index].failures + 1);
    }
    if r.ttfb.Some? {
      totals[index] := totals[index] + r.ttfb.value;
      counts[index] := counts[index] + 1;
      samples[index] := samples[index] + [r.ttfb.value];
    }
  }

  // ---------------------------------------------------------------- what a report says of the log

  // Started at one moment or later, and before another if there is one.
  predicate Starts(r: Request, from: Time, to: Option<Time>) {
    from <= r.startedAt && (to.Some? ==> r.startedAt < to.value)
  }

  // The rows of a kind, by position.
  function Rows(log: seq<Request>, kind: Request -> bool): set<nat> {
    set k | 0 <= k < |log| && kind(log[k])
  }

  function Started(from: Time, to: Option<Time>): Request -> bool {
    (r: Request) => Starts(r, from, to)
  }

  function StartedGood(from: Time, to: Option<Time>): Request -> bool {
    (r: Request) => Starts(r, from, to) && r.status.Some? && 200 <= r.status.value <= 399
  }

  function StartedBad(from: Time, to: Option<Time>): Request -> bool {
    (r: Request) => Starts(r, from, to) && (r.status.None? || r.status.value < 200 || 399 < r.status.value)
  }

  function Measured(from: Time, to: Option<Time>, of: Request -> Option<nat>, v: nat): Request -> bool {
    (r: Request) => Starts(r, from, to) && of(r) == Some(v)
  }

  // The values measured on the rows of an interval, each as often as it occurs.
  ghost predicate AreSamples(
      samples: seq<nat>, log: seq<Request>, from: Time, to: Option<Time>, of: Request -> Option<nat>)
  {
    forall v: nat :: ValueCounts(samples, log, from, to, of, v)
  }

  ghost predicate ValueCounts(
      samples: seq<nat>, log: seq<Request>, from: Time, to: Option<Time>, of: Request -> Option<nat>, v: nat)
  {
    multiset(samples)[v] == |Rows(log, Measured(from, to, of, v))|
  }

  // Rounded down, and absent exactly without samples.
  ghost predicate Averages(average: Option<nat>, samples: seq<nat>) {
    if samples == [] then average.None?
    else average.Some? && average.value * |samples| <= Sum(samples) < average.value * |samples| + |samples|
  }

  // One bucket against the log: its rows, those of them without a status from 200
  // to 399, and the samples of its times to first byte.
  ghost predicate BucketReports(b: Bucket, to: Option<Time>, log: seq<Request>) {
    && b.requests == |Rows(log, Started(b.startedAt, to))|
    && b.failures == |Rows(log, StartedBad(b.startedAt, to))|
    && exists samples :: AreSamples(samples, log, b.startedAt, to, TtfbOf())
         && Averages(b.averageTtfb, samples) && b.ttfbP95 == PercentilesOf(samples).p95
  }

  function TtfbOf(): Request -> Option<nat> {
    (r: Request) => r.ttfb
  }

  function DurationOf(): Request -> Option<nat> {
    (r: Request) => r.duration
  }

  // The end of a bucket, which the last does not have.
  function EndOf(buckets: seq<Bucket>, i: nat): Option<Time> {
    if i + 1 < |buckets| then Some(buckets[i + 1].startedAt) else None
  }

  // The whole report against the log.
  ghost predicate Reports(w: Window, log: seq<Request>) {
    && w.buckets != [] && TotalsReport(w, w.buckets[0].startedAt, log)
    && forall i :: 0 <= i < |w.buckets| ==> BucketReports(w.buckets[i], EndOf(w.buckets, i), log)
  }

  // Requests per second and percent of success, as quotients.
  ghost predicate Rates(w: Window) {
    && w.perSecond * w.windowSeconds as real == w.total as real
    && (if w.total == 0 then w.successRate == 100.0
        else w.successRate * w.total as real == 100.0 * w.successful as real)
  }

  ghost predicate TotalsReport(w: Window, from: Time, log: seq<Request>) {
    && w.total == |Rows(log, Started(from, None))|
    && w.successful == |Rows(log, StartedGood(from, None))| && Rates(w)
    && (exists samples :: AreSamples(samples, log, from, None, TtfbOf()) && w.ttfb == PercentilesOf(samples))
    && (exists samples :: AreSamples(samples, log, from, None, DurationOf()) && w.duration == PercentilesOf(samples))
  }

  // The window is what was asked for, held to a day and to no less than ten
  // seconds; the buckets are as long as was asked for, held to the window and to
  // no less than a second. They follow each other without a gap on multiples of
  // their length; the last holds the present, and together they just cover the window.
  ghost predicate Laid(w: Window, window: nat, bucket: nat, now: Time) {
    && w.windowSeconds == (if window < 10 then 10 else if 86400 < window then 86400 else window)
    && w.bucketSeconds == (if bucket < 1 then 1 else if w.windowSeconds < bucket then w.windowSeconds else bucket)
    && var n, step := |w.buckets|, w.bucketSeconds * 1_000_000_000;
       && n > 0 && (n - 1) * w.bucketSeconds < w.windowSeconds <= n * w.bucketSeconds
       && (forall i :: 0 <= i < n - 1 ==> w.buckets[i + 1].startedAt == w.buckets[i].startedAt + step)
       && w.buckets[n - 1].startedAt <= now < w.buckets[n - 1].startedAt + step
       && step > 0 && w.buckets[n - 1].startedAt % step == 0
  }

  lemma RowsNext(log: seq<Request>, kind: Request -> bool)
    requires log != []
    ensures |Rows(log, kind)| == |Rows(log[..|log| - 1], kind)| + if kind(log[|log| - 1]) then 1 else 0
  {
    var n := |log| - 1;
    var before := Rows(log[..n], kind);
    assert Rows(log, kind) == if kind(log[n]) then before + {n} else before;
  }

  lemma BetweenNext(log: seq<Request>, from: Time, to: Option<Time>)
    requires log != []
    ensures var n := |log| - 1;
      Between(log, from, to) ==
        if Starts(log[n], from, to) then Between(log[..n], from, to) + [log[n]] else Between(log[..n], from, to)
  {
    var before := Between(log[..|log| - 1], from, to);
    assert before + [] == before;
  }

  lemma {:induction false} BetweenCounts(log: seq<Request>, from: Time, to: Option<Time>)
    ensures |Between(log, from, to)| == |Rows(log, Started(from, to))|
    ensures Successes(Between(log, from, to)) == |Rows(log, StartedGood(from, to))|
    ensures Failures(Between(log, from, to)) == |Rows(log, StartedBad(from, to))|
  {
    if log != [] {
      var n := |log| - 1;
      var before := Between(log[..n], from, to);
      BetweenCounts(log[..n], from, to);
      RowsNext(log, Started(from, to));
      RowsNext(log, StartedGood(from, to));
      RowsNext(log, StartedBad(from, to));
      BetweenNext(log, from, to);
      assert (before + [log[n]])[..|before|] == before;
    }
  }

  function Values(requests: seq<Request>, of: Request -> Option<nat>): seq<nat> {
    if requests == [] then [] else Values(requests[..|requests| - 1], of) + Present(of(requests[|requests| - 1]))
  }

  lemma {:induction false} ValuesAre(requests: seq<Request>)
    ensures Ttfbs(requests) == Values(requests, TtfbOf()) && Durations(requests) == Values(requests, DurationOf())
  {
    if requests != [] {
      ValuesAre(requests[..|requests| - 1]);
    }
  }

  lemma {:induction false} ValuesCount(
      log: seq<Request>, from: Time, to: Option<Time>, of: Request -> Option<nat>, v: nat)
    ensures ValueCounts(Values(Between(log, from, to), of), log, from, to, of, v)
  {
    if log != [] {
      var n := |log| - 1;
      var before := Between(log[..n], from, to);
      ValuesCount(log[..n], from, to, of, v);
      RowsNext(log, Measured(from, to, of, v));
      BetweenNext(log, from, to);
      assert (before + [log[n]])[..|before|] == before;
    }
  }

  lemma BetweenSamples(log: seq<Request>, from: Time, to: Option<Time>)
    ensures AreSamples(Ttfbs(Between(log, from, to)), log, from, to, TtfbOf())
    ensures AreSamples(Durations(Between(log, from, to)), log, from, to, DurationOf())
  {
    ValuesAre(Between(log, from, to));
    ValuesAreSamples(log, from, to, TtfbOf());
    ValuesAreSamples(log, from, to, DurationOf());
  }

  lemma ValuesAreSamples(log: seq<Request>, from: Time, to: Option<Time>, of: Request -> Option<nat>)
    ensures AreSamples(Values(Between(log, from, to), of), log, from, to, of)
  {
    forall v: nat ensures ValueCounts(Values(Between(log, from, to), of), log, from, to, of, v) {
      ValuesCount(log, from, to, of, v);
    }
  }

  lemma {:induction false} RecentIsBetween(log: seq<Request>, from: Time)
    ensures Recent(log, from) == Between(log, from, None)
  {
    if log != [] {
      RecentIsBetween(log[..|log| - 1], from);
    }
  }

  lemma AverageAverages(samples: seq<nat>)
    ensures Averages(Average(Sum(samples), |samples|), samples)
  {
    if samples != [] { Floor(Sum(samples), |samples|); }
  }

  lemma BucketOfReports(log: seq<Request>, start: Time, to: Option<Time>)
    ensures BucketReports(BucketOf(start, Between(log, start, to)), to, log)
  {
    var landed := Between(log, start, to);
    BetweenCounts(log, start, to);
    BetweenSamples(log, start, to);
    AverageAverages(Ttfbs(landed));
  }

  function Share(part: nat, whole: nat): real
    requires whole > 0
  {
    part as real / whole as real
  }

  // The report by the grid and by the functions on the recent rows.
  ghost predicate Answers(w: Window, log: seq<Request>, window: nat, bucket: nat, now: Time) {
    var g := GridAt(now, window, bucket);
    var requests := Recent(log, Edge(g, 0));
    && w.windowSeconds == WindowSeconds(window) && w.bucketSeconds == g.size
    && w.total == |requests| && w.successful == Successes(requests)
    && w.perSecond == Share(w.total, w.windowSeconds)
    && w.successRate == (if w.total == 0 then 100.0 else 100.0 * Share(w.successful, w.total))
    && w.ttfb == PercentilesOf(Ttfbs(requests)) && w.duration == PercentilesOf(Durations(requests))
    && |w.buckets| == g.count && AreBuckets(w.buckets, g, requests)
  }

  lemma ShareOf(part: nat, whole: nat)
    requires whole > 0
    ensures Share(part, whole) * whole as real == part as real
  {
  }

  lemma EdgeStep(g: Grid, i: int)
    ensures Edge(g, i + 1) == Edge(g, i) + g.size * SECOND
  {
    assert (i + 1) * g.size == i * g.size + g.size;
  }

  lemma AnswerIsLaid(log: seq<Request>, window: nat, bucket: nat, now: Time, w: Window)
    requires Answers(w, log, window, bucket, now)
    ensures Laid(w, window, bucket, now)
  {
    var g := GridAt(now, window, bucket);
    var requests := Recent(log, Edge(g, 0));
    forall i | 0 <= i < |w.buckets| ensures w.buckets[i].startedAt == Edge(g, i) {
      assert w.buckets[i] == BucketOf(Edge(g, i), Landed(requests, Placing(g), i));
    }
    GridCoversWindow(now, window, bucket);
    Ceiling(WindowSeconds(window), g.size);
    Distribute(g.count, 1, g.size);
    EdgesAligned(now, window, bucket, g.count - 1);
    EdgeStep(g, g.count - 1);
    forall i | 0 <= i < g.count - 1 ensures Edge(g, i + 1) == Edge(g, i) + g.size * SECOND {
      EdgeStep(g, i);
    }
  }

  lemma AnswerBucketReports(log: seq<Request>, window: nat, bucket: nat, now: Time, w: Window, i: nat)
    requires Answers(w, log, window, bucket, now) && i < |w.buckets|
    ensures w.buckets[i].startedAt == Edge(GridAt(now, window, bucket), i)
    ensures BucketReports(w.buckets[i], EndOf(w.buckets, i), log)
  {
    var g := GridAt(now, window, bucket);
    var requests := Recent(log, Edge(g, 0));
    assert w.buckets[i] == BucketOf(Edge(g, i), Landed(requests, Placing(g), i));
    if i + 1 < g.count {
      assert w.buckets[i + 1] == BucketOf(Edge(g, i + 1), Landed(requests, Placing(g), i + 1));
    }
    BucketHoldsItsInterval(log, now, window, bucket, i);
    assert EndOf(w.buckets, i) == Until(g, i);
    BucketOfReports(log, Edge(g, i), Until(g, i));
  }

  lemma AnswerTotals(log: seq<Request>, window: nat, bucket: nat, now: Time, w: Window)
    requires Answers(w, log, window, bucket, now)
    ensures TotalsReport(w, Edge(GridAt(now, window, bucket), 0), log)
  {
    var from := Edge(GridAt(now, window, bucket), 0);
    var requests := Recent(log, from);
    RecentIsBetween(log, from);
    BetweenCounts(log, from, None);
    BetweenSamples(log, from, None);
    AnswerRates(w);
  }

  lemma AnswerRates(w: Window)
    requires w.windowSeconds > 0 && w.perSecond == Share(w.total, w.windowSeconds)
    requires w.successRate == (if w.total == 0 then 100.0 else 100.0 * Share(w.successful, w.total))
    ensures Rates(w)
  {
    ShareOf(w.total, w.windowSeconds);
    if w.total > 0 {
      ShareOf(w.successful, w.total);
      assert 100.0 * Share(w.successful, w.total) * w.total as real == 100.0 * w.successful as real;
    }
  }

  lemma AnswerReports(log: seq<Request>, window: nat, bucket: nat, now: Time, w: Window)
    requires Answers(w, log, window, bucket, now)
    ensures Reports(w, log)
  {
    AnswerTotals(log, window, bucket, now, w);
    AnswerBucketReports(log, window, bucket, now, w, 0);
    forall i | 0 <= i < |w.buckets| ensures BucketReports(w.buckets[i], EndOf(w.buckets, i), log) {
      AnswerBucketReports(log, window, bucket, now, w, i);
    }
  }

  method Query(log: seq<Request>, window: nat, bucket: nat, now: Time) returns (w: Window)
    ensures Answers(w, log, window, bucket, now)
    ensures SumRequests(w.buckets) == w.total && SumFailures(w.buckets) == w.total - w.successful
    ensures Laid(w, window, bucket, now) && Reports(w, log)
  {
    w := Measure(log, window, bucket, now);
    AnswerIsLaid(log, window, bucket, now, w);
    AnswerReports(log, window, bucket, now, w);
  }

  method Measure(log: seq<Request>, window: nat, bucket: nat, now: Time) returns (w: Window)
    ensures Answers(w, log, window, bucket, now)
    ensures SumRequests(w.buckets) == w.total && SumFailures(w.buckets) == w.total - w.successful
  {
    var g := GridAt(now, window, bucket);
    var requests := Recent(log, Edge(g, 0));
    var ttfb := Sort(Ttfbs(requests), AtMost);
    var duration := Sort(Durations(requests), AtMost);
    var buckets := Tabulate(requests, g);
    BucketsPartition(buckets, g, requests);
    var total, successful := |requests|, Successes(requests);
    w := Window(WindowSeconds(window), g.size, total, successful,
                Share(total, WindowSeconds(window)),
                if total == 0 then 100.0 else 100.0 * Share(successful, total),
                Percentiles(Percentile(ttfb, 50), Percentile(ttfb, 95), Percentile(ttfb, 99)),
                Percentiles(Percentile(duration, 50), Percentile(duration, 95), Percentile(duration, 99)),
                buckets);
  }
}
