/** K-means volatility regimes: src/binance/adaptiveSuperTrend.ts:30-75. */
module VolatilityRegimes {
  import opened Common

  datatype Regime = High | Medium | Low

  datatype Centroids = Centroids(high: real, medium: real, low: real) {
    function At(r: Regime): real {
      match r
      case High => high
      case Medium => medium
      case Low => low
    }

    function With(r: Regime, x: real): Centroids {
      match r
      case High => this.(high := x)
      case Medium => this.(medium := x)
      case Low => this.(low := x)
    }
  }

  /** The order of the scan, and so of ties. */
  const REGIMES: seq<Regime> := [High, Medium, Low]

  const MAX_ITERATIONS: nat := 100

  function Distance(value: real, c: Centroids, r: Regime): real {
    Abs(value - c.At(r))
  }

  function Rank(r: Regime): nat {
    match r
    case High => 0
    case Medium => 1
    case Low => 2
  }

  /** The nearest centroid, the earliest regime winning a tie. */
  function Nearest(value: real, c: Centroids): (best: Regime)
    ensures forall r: Regime :: Distance(value, c, best) <= Distance(value, c, r)
    ensures forall r: Regime :: Rank(r) < Rank(best) ==> Distance(value, c, best) < Distance(value, c, r)
  {
    if Distance(value, c, High) <= Distance(value, c, Medium)
      && Distance(value, c, High) <= Distance(value, c, Low) then High
    else if Distance(value, c, Medium) <= Distance(value, c, Low) then Medium
    else Low
  }

  lemma RegimeOrder()
    ensures forall k :: 0 <= k < 3 ==> Rank(REGIMES[k]) == k
    ensures forall r: Regime :: REGIMES[Rank(r)] == r
  {
    forall k | 0 <= k < 3 ensures Rank(REGIMES[k]) == k {
      assert k == 0 || k == 1 || k == 2;
    }
  }

  /** `nearestRegime` (adaptiveSuperTrend.ts:40-46). */
  method NearestRegime(value: real, c: Centroids) returns (best: Regime)
    ensures best == Nearest(value, c)
  {
    best := High;
    RegimeOrder();
    for i := 0 to 3
      invariant i == 0 ==> best == High
      invariant i > 0 ==> Rank(best) < i
      invariant forall k :: 0 <= k < i ==> Distance(value, c, best) <= Distance(value, c, REGIMES[k])
      invariant forall r: Regime :: Rank(r) < Rank(best) ==> Distance(value, c, best) < Distance(value, c, r)
    {
      if Distance(value, c, REGIMES[i]) < Distance(value, c, best) {
        best := REGIMES[i];
      }
    }
  }

  // ----- one iteration -----

  /** Sum of the first `n` values whose nearest centroid is `r`. */
  function ClusterSum(values: seq<real>, n: nat, c: Centroids, r: Regime): real
    requires n <= |values|
  {
    if n == 0 then 0.0
    else ClusterSum(values, n - 1, c, r) + (if Nearest(values[n - 1], c) == r then values[n - 1] else 0.0)
  }

  function ClusterCount(values: seq<real>, n: nat, c: Centroids, r: Regime): nat
    requires n <= |values|
  {
    if n == 0 then 0
    else ClusterCount(values, n - 1, c, r) + (if Nearest(values[n - 1], c) == r then 1 else 0)
  }

  function Mean(sum: real, count: nat): real
    requires count > 0
  {
    sum / count as real
  }

  /** The mean of what joined the cluster, or where it was. */
  function NextCentroid(values: seq<real>, c: Centroids, r: Regime): real {
    var count := ClusterCount(values, |values|, c, r);
    if count > 0 then Mean(ClusterSum(values, |values|, c, r), count) else c.At(r)
  }

  function Iterate(values: seq<real>, c: Centroids): Centroids {
    Centroids(NextCentroid(values, c, High), NextCentroid(values, c, Medium), NextCentroid(values, c, Low))
  }

  /** At most `n` iterations, stopping once nothing moves. */
  function KMeansWithin(values: seq<real>, c: Centroids, n: nat): Centroids
    decreases n
  {
    if n == 0 || Iterate(values, c) == c then c else KMeansWithin(values, Iterate(values, c), n - 1)
  }

  /** The inner loop: sums and counts per cluster (adaptiveSuperTrend.ts:52-58). */
  method Accumulate(values: seq<real>, c: Centroids) returns (sums: map<Regime, real>, counts: map<Regime, nat>)
    ensures forall r: Regime ::
              && r in sums && sums[r] == ClusterSum(values, |values|, c, r)
              && r in counts && counts[r] == ClusterCount(values, |values|, c, r)
  {
    sums := map[High := 0.0, Medium := 0.0, Low := 0.0];
    counts := map[High := 0, Medium := 0, Low := 0];
    forall r: Regime
      ensures r in sums && sums[r] == 0.0 && r in counts && counts[r] == 0
    {
      assert r == High || r == Medium || r == Low;
    }
    for i := 0 to |values|
      invariant forall r: Regime ::
                  && r in sums && sums[r] == ClusterSum(values, i, c, r)
                  && r in counts && counts[r] == ClusterCount(values, i, c, r)
    {
      var regime := NearestRegime(values[i], c);
      sums := sums[regime := sums[regime] + values[i]];
      counts := counts[regime := counts[regime] + 1];
    }
  }

  method Advance(values: seq<real>, c: Centroids) returns (next: Centroids)
    ensures next == Iterate(values, c)
  {
    var sums, counts := Accumulate(values, c);
    next := c;
    for i := 0 to 3
      invariant forall k :: 0 <= k < i ==> next.At(REGIMES[k]) == NextCentroid(values, c, REGIMES[k])
      invariant forall k :: i <= k < 3 ==> next.At(REGIMES[k]) == c.At(REGIMES[k])
    {
      var regime := REGIMES[i];
      if counts[regime] > 0 {
        next := next.With(regime, sums[regime] / counts[regime] as real);
      }
    }
    assert REGIMES[0] == High && REGIMES[1] == Medium && REGIMES[2] == Low;
  }

  /** `kMeans` (adaptiveSuperTrend.ts:49-68). */
  method KMeans(values: seq<real>, initial: Centroids) returns (c: Centroids)
    ensures c == KMeansWithin(values, initial, MAX_ITERATIONS)
  {
    c := initial;
    for iteration := 0 to MAX_ITERATIONS
      invariant KMeansWithin(values, c, MAX_ITERATIONS - iteration) == KMeansWithin(values, initial, MAX_ITERATIONS)
    {
      var next := Advance(values, c);
      var converged := next == c;
      c := next;
      if converged {
        break;
      }
    }
  }

  // ----- order and range -----

  ghost predicate Ordered(c: Centroids) {
    c.high >= c.medium >= c.low
  }

  ghost predicate Separated(c: Centroids) {
    c.high > c.medium > c.low
  }

  ghost predicate Within(values: seq<real>, lo: real, hi: real) {
    forall i :: 0 <= i < |values| ==> lo <= values[i] <= hi
  }

  ghost predicate CentroidsWithin(c: Centroids, lo: real, hi: real) {
    forall r: Regime :: lo <= c.At(r) <= hi
  }

  function Times(n: nat, x: real): real {
    n as real * x
  }

  lemma TimesNext(n: nat, x: real)
    ensures Times(0, x) == 0.0
    ensures Times(n + 1, x) == Times(n, x) + x
  {}

  lemma MeanBetween(sum: real, count: nat, lo: real, hi: real)
    requires count > 0
    ensures Times(count, lo) <= sum ==> lo <= Mean(sum, count)
    ensures sum <= Times(count, hi) ==> Mean(sum, count) <= hi
    ensures sum < Times(count, hi) ==> Mean(sum, count) < hi
  {}

  lemma {:induction false} SumAtLeast(values: seq<real>, n: nat, c: Centroids, r: Regime, lo: real)
    requires n <= |values|
    requires forall i :: 0 <= i < n && Nearest(values[i], c) == r ==> lo <= values[i]
    ensures Times(ClusterCount(values, n, c, r), lo) <= ClusterSum(values, n, c, r)
  {
    if n > 0 {
      SumAtLeast(values, n - 1, c, r, lo);
    }
    TimesNext(ClusterCount(values, if n == 0 then 0 else n - 1, c, r), lo);
  }

  lemma {:induction false} SumAtMost(values: seq<real>, n: nat, c: Centroids, r: Regime, hi: real)
    requires n <= |values|
    requires forall i :: 0 <= i < n && Nearest(values[i], c) == r ==> values[i] <= hi
    ensures ClusterSum(values, n, c, r) <= Times(ClusterCount(values, n, c, r), hi)
  {
    if n > 0 {
      SumAtMost(values, n - 1, c, r, hi);
    }
    TimesNext(ClusterCount(values, if n == 0 then 0 else n - 1, c, r), hi);
  }

  lemma {:induction false} SumBelow(values: seq<real>, n: nat, c: Centroids, r: Regime, hi: real)
    requires n <= |values|
    requires forall i :: 0 <= i < n && Nearest(values[i], c) == r ==> values[i] < hi
    ensures ClusterSum(values, n, c, r) <= Times(ClusterCount(values, n, c, r), hi)
    ensures ClusterCount(values, n, c, r) > 0 ==> ClusterSum(values, n, c, r) < Times(ClusterCount(values, n, c, r), hi)
  {
    if n > 0 {
      SumBelow(values, n - 1, c, r, hi);
    }
    TimesNext(ClusterCount(values, if n == 0 then 0 else n - 1, c, r), hi);
  }

  lemma NextAtLeast(values: seq<real>, c: Centroids, r: Regime, lo: real)
    requires forall i :: 0 <= i < |values| && Nearest(values[i], c) == r ==> lo <= values[i]
    requires lo <= c.At(r)
    ensures lo <= NextCentroid(values, c, r)
  {
    SumAtLeast(values, |values|, c, r, lo);
    var count := ClusterCount(values, |values|, c, r);
    if count > 0 {
      MeanBetween(ClusterSum(values, |values|, c, r), count, lo, lo);
    }
  }

  lemma NextBelow(values: seq<real>, c: Centroids, r: Regime, hi: real)
    requires forall i :: 0 <= i < |values| && Nearest(values[i], c) == r ==> values[i] < hi
    requires c.At(r) < hi
    ensures NextCentroid(values, c, r) < hi
  {
    SumBelow(values, |values|, c, r, hi);
    var count := ClusterCount(values, |values|, c, r);
    if count > 0 {
      MeanBetween(ClusterSum(values, |values|, c, r), count, hi, hi);
    }
  }

  lemma NextAtMost(values: seq<real>, c: Centroids, r: Regime, hi: real)
    requires forall i :: 0 <= i < |values| && Nearest(values[i], c) == r ==> values[i] <= hi
    requires c.At(r) <= hi
    ensures NextCentroid(values, c, r) <= hi
  {
    SumAtMost(values, |values|, c, r, hi);
    var count := ClusterCount(values, |values|, c, r);
    if count > 0 {
      MeanBetween(ClusterSum(values, |values|, c, r), count, hi, hi);
    }
  }

  /** The midpoint between two centroids separates the two clusters: strictly below it, at or above it. */
  lemma MidpointSeparates(value: real, c: Centroids)
    requires Separated(c)
    ensures Nearest(value, c) == High <==> value >= (c.high + c.medium) / 2.0
    ensures Nearest(value, c) == Low <==> value < (c.medium + c.low) / 2.0
  {}

  /** Separated centroids stay separated, empty clusters and ties included. */
  lemma IterateKeepsOrder(values: seq<real>, c: Centroids)
    requires Separated(c)
    ensures Separated(Iterate(values, c))
  {
    var upper, lower := (c.high + c.medium) / 2.0, (c.medium + c.low) / 2.0;
    forall i | 0 <= i < |values|
      ensures Nearest(values[i], c) == High <==> values[i] >= upper
      ensures Nearest(values[i], c) == Low <==> values[i] < lower
    {
      MidpointSeparates(values[i], c);
    }
    NextAtLeast(values, c, High, upper);
    NextBelow(values, c, Medium, upper);
    NextAtLeast(values, c, Medium, lower);
    NextBelow(values, c, Low, lower);
  }

  lemma IterateStaysWithin(values: seq<real>, c: Centroids, lo: real, hi: real)
    requires Within(values, lo, hi) && CentroidsWithin(c, lo, hi)
    ensures CentroidsWithin(Iterate(values, c), lo, hi)
  {
    forall r: Regime ensures lo <= NextCentroid(values, c, r) <= hi {
      assert lo <= c.At(r) <= hi;
      NextAtLeast(values, c, r, lo);
      NextAtMost(values, c, r, hi);
    }
    assert forall r: Regime :: Iterate(values, c).At(r) == NextCentroid(values, c, r);
  }

  /**
   * Order is only safe when the centroids are distinct: for ordered centroids, every window keeps
   * the order if and only if no two of them coincide.
   */
  lemma OrderIsKeptExactlyWhenSeparated(c: Centroids)
    requires Ordered(c)
    ensures Separated(c) <==> forall values: seq<real> :: Ordered(Iterate(values, c))
  {
    if Separated(c) {
      forall values: seq<real> ensures Ordered(Iterate(values, c)) {
        IterateKeepsOrder(values, c);
      }
    } else if c.high == c.medium {
      var value := if c.medium == c.low then c.low - 1.0 else (2.0 * c.medium + c.low) / 3.0;
      SingletonCrosses(c, value, High);
    } else {
      SingletonCrosses(c, c.low - 1.0, Medium);
    }
  }

  /** A window of one value moves exactly its own cluster's centroid onto that value. */
  lemma SingletonCrosses(c: Centroids, value: real, r: Regime)
    requires Nearest(value, c) == r
    ensures Iterate([value], c) == c.With(r, value)
  {
    forall q: Regime
      ensures ClusterCount([value], 1, c, q) == (if q == r then 1 else 0)
      ensures q != r ==> NextCentroid([value], c, q) == c.At(q)
    {
      assert ClusterCount([value], 0, c, q) == 0;
    }
    assert ClusterSum([value], 1, c, r) == value by {
      assert ClusterSum([value], 0, c, r) == 0.0;
    }
    assert NextCentroid([value], c, r) == value;
  }

  // ----- squared distance -----

  function Sq(x: real): real {
    x * x
  }

  /** Total squared distance of the first `n` values to the centroids `c` assigns, moved to `d`. */
  function CostUnder(values: seq<real>, n: nat, c: Centroids, d: Centroids): real
    requires n <= |values|
  {
    if n == 0 then 0.0 else CostUnder(values, n - 1, c, d) + Sq(values[n - 1] - d.At(Nearest(values[n - 1], c)))
  }

  /** Total squared distance of the values to their nearest centroid. */
  function Cost(values: seq<real>, c: Centroids): real {
    CostUnder(values, |values|, c, c)
  }

  /** One cluster's share when its centroid sits at `x`. */
  function ClusterCost(values: seq<real>, n: nat, c: Centroids, r: Regime, x: real): real
    requires n <= |values|
  {
    if n == 0 then 0.0
    else ClusterCost(values, n - 1, c, r, x) + (if Nearest(values[n - 1], c) == r then Sq(values[n - 1] - x) else 0.0)
  }

  function ClusterSquares(values: seq<real>, n: nat, c: Centroids, r: Regime): real
    requires n <= |values|
  {
    if n == 0 then 0.0
    else ClusterSquares(values, n - 1, c, r) + (if Nearest(values[n - 1], c) == r then Sq(values[n - 1]) else 0.0)
  }

  /** `m` points with sum `s` and sum of squares `q`, measured from `x`. */
  function Quadratic(q: real, s: real, m: nat, x: real): real {
    q - 2.0 * (x * s) + m as real * (x * x)
  }

  lemma SqLe(a: real, b: real)
    requires Abs(a) <= Abs(b)
    ensures Sq(a) <= Sq(b)
  {
    SqOfAbs(a);
    SqOfAbs(b);
    assert Abs(a) * Abs(a) <= Abs(b) * Abs(b);
  }

  lemma SqOfAbs(a: real)
    ensures Sq(a) == Abs(a) * Abs(a)
  {}

  lemma QuadraticAdd(q: real, s: real, m: nat, x: real, v: real)
    ensures Quadratic(q + Sq(v), s + v, m + 1, x) == Quadratic(q, s, m, x) + Sq(v - x)
  {
    assert x * (s + v) == x * s + x * v;
    assert (m + 1) as real * (x * x) == m as real * (x * x) + x * x;
    assert Sq(v - x) == Sq(v) - 2.0 * (x * v) + x * x;
  }

  lemma {:induction false} ClusterCostIsQuadratic(values: seq<real>, n: nat, c: Centroids, r: Regime, x: real)
    requires n <= |values|
    ensures ClusterCost(values, n, c, r, x)
         == Quadratic(ClusterSquares(values, n, c, r), ClusterSum(values, n, c, r), ClusterCount(values, n, c, r), x)
  {
    if n == 0 {
      assert Quadratic(0.0, 0.0, 0, x) == 0.0;
    } else {
      ClusterCostIsQuadratic(values, n - 1, c, r, x);
      QuadraticAdd(ClusterSquares(values, n - 1, c, r), ClusterSum(values, n - 1, c, r),
                   ClusterCount(values, n - 1, c, r), x, values[n - 1]);
    }
  }

  /** The mean is the best single point for its cluster. */
  lemma MeanIsBest(q: real, s: real, m: nat, x: real)
    requires m > 0
    ensures Quadratic(q, s, m, Mean(s, m)) <= Quadratic(q, s, m, x)
  {
    var mean := Mean(s, m);
    assert s == m as real * mean;
    Spread(q, m, mean, x);
  }

  lemma Spread(q: real, m: nat, mean: real, x: real)
    ensures Quadratic(q, m as real * mean, m, mean) <= Quadratic(q, m as real * mean, m, x)
  {
    var k := m as real;
    assert x * (k * mean) == k * (x * mean);
    assert mean * (k * mean) == k * (mean * mean);
    assert k * Sq(x - mean) == k * (x * x) - 2.0 * (k * (x * mean)) + k * (mean * mean) by {
      assert Sq(x - mean) == x * x - 2.0 * (x * mean) + mean * mean;
    }
    assert Sq(x - mean) >= 0.0;
    assert k * Sq(x - mean) >= 0.0;
  }

  /** Moving a cluster's centroid to where the iteration puts it never costs that cluster anything. */
  lemma ClusterImproves(values: seq<real>, c: Centroids, r: Regime)
    ensures ClusterCost(values, |values|, c, r, NextCentroid(values, c, r)) <= ClusterCost(values, |values|, c, r,
        c.At(r))
  {
    var n := |values|;
    var count := ClusterCount(values, n, c, r);
    if count > 0 {
      ClusterCostIsQuadratic(values, n, c, r, NextCentroid(values, c, r));
      ClusterCostIsQuadratic(values, n, c, r, c.At(r));
      MeanIsBest(ClusterSquares(values, n, c, r), ClusterSum(values, n, c, r), count, c.At(r));
    }
  }

  lemma {:induction false} CostIsSumOfClusters(values: seq<real>, n: nat, c: Centroids, d: Centroids)
    requires n <= |values|
    ensures CostUnder(values, n, c, d)
         == ClusterCost(values, n, c, High, d.high) + ClusterCost(values, n, c, Medium, d.medium)
            + ClusterCost(values, n, c, Low, d.low)
  {
    if n > 0 {
      CostIsSumOfClusters(values, n - 1, c, d);
    }
  }

  lemma NearestIsCheaper(v: real, d: Centroids, r: Regime)
    ensures Sq(v - d.At(Nearest(v, d))) <= Sq(v - d.At(r))
  {
    assert Distance(v, d, Nearest(v, d)) <= Distance(v, d, r);
    SqLe(v - d.At(Nearest(v, d)), v - d.At(r));
  }

  /** Assigning every value to its nearest centroid is the cheapest assignment. */
  lemma {:induction false} NearestIsCheapest(values: seq<real>, n: nat, c: Centroids, d: Centroids)
    requires n <= |values|
    ensures CostUnder(values, n, d, d) <= CostUnder(values, n, c, d)
  {
    if n > 0 {
      NearestIsCheapest(values, n - 1, c, d);
      NearestIsCheaper(values[n - 1], d, Nearest(values[n - 1], c));
    }
  }

  /** No iteration increases the total squared distance. */
  lemma IterateNeverCostsMore(values: seq<real>, c: Centroids)
    ensures Cost(values, Iterate(values, c)) <= Cost(values, c)
  {
    var d := Iterate(values, c);
    NearestIsCheapest(values, |values|, c, d);
    CostIsSumOfClusters(values, |values|, c, d);
    CostIsSumOfClusters(values, |values|, c, c);
    ClusterImproves(values, c, High);
    ClusterImproves(values, c, Medium);
    ClusterImproves(values, c, Low);
  }

  // ----- the whole algorithm -----

  /** Main result: however many iterations run, the centroids never get worse. */
  lemma {:induction false} KMeansNeverCostsMore(values: seq<real>, c: Centroids, n: nat)
    ensures Cost(values, KMeansWithin(values, c, n)) <= Cost(values, c)
    decreases n
  {
    if n > 0 && Iterate(values, c) != c {
      IterateNeverCostsMore(values, c);
      KMeansNeverCostsMore(values, Iterate(values, c), n - 1);
    }
  }

  lemma {:induction false} KMeansKeepsOrder(values: seq<real>, c: Centroids, n: nat)
    requires Separated(c)
    ensures Separated(KMeansWithin(values, c, n))
    decreases n
  {
    if n > 0 && Iterate(values, c) != c {
      IterateKeepsOrder(values, c);
      KMeansKeepsOrder(values, Iterate(values, c), n - 1);
    }
  }

  lemma {:induction false} KMeansStaysWithin(values: seq<real>, c: Centroids, n: nat, lo: real, hi: real)
    requires Within(values, lo, hi) && CentroidsWithin(c, lo, hi)
    ensures CentroidsWithin(KMeansWithin(values, c, n), lo, hi)
    decreases n
  {
    if n > 0 && Iterate(values, c) != c {
      IterateStaysWithin(values, c, lo, hi);
      KMeansStaysWithin(values, Iterate(values, c), n - 1, lo, hi);
    }
  }

  function Lowest(window: seq<real>): (lo: real)
    requires |window| > 0
    ensures lo in window && forall i :: 0 <= i < |window| ==> lo <= window[i]
  {
    var last := window[|window| - 1];
    if |window| == 1 then last
    else
      assert window == window[..|window| - 1] + [last];
      Min(Lowest(window[..|window| - 1]), last)
  }

  function Highest(window: seq<real>): (hi: real)
    requires |window| > 0
    ensures hi in window && forall i :: 0 <= i < |window| ==> window[i] <= hi
  {
    var last := window[|window| - 1];
    if |window| == 1 then last
    else
      assert window == window[..|window| - 1] + [last];
      Max(Highest(window[..|window| - 1]), last)
  }

  /** Percentiles 75, 50 and 25 of the window's range (adaptiveSuperTrend.ts:70-75). */
  function InitialCentroids(window: seq<real>): Centroids
    requires |window| > 0
  {
    var lo, hi := Lowest(window), Highest(window);
    Centroids(lo + (hi - lo) * 0.75, lo + (hi - lo) * 0.5, lo + (hi - lo) * 0.25)
  }

  function Trained(window: seq<real>): Centroids
    requires |window| > 0
  {
    KMeansWithin(window, InitialCentroids(window), MAX_ITERATIONS)
  }

  lemma FlatWindowIsFixed(window: seq<real>, x: real)
    requires Within(window, x, x)
    ensures Iterate(window, Centroids(x, x, x)) == Centroids(x, x, x)
  {
    IterateStaysWithin(window, Centroids(x, x, x), x, x);
    var next := Iterate(window, Centroids(x, x, x));
    assert x <= next.At(High) <= x && x <= next.At(Medium) <= x && x <= next.At(Low) <= x;
  }

  /**
   * Main result: for every training window the trained regimes come out in order, inside the window's own range, and no
   * worse than the percentiles they start from, which cut that range into quarters.
   */
  lemma TrainedRegimes(window: seq<real>)
    requires |window| > 0
    ensures Ordered(Trained(window))
    ensures Lowest(window) < Highest(window) ==> Separated(Trained(window))
    ensures CentroidsWithin(Trained(window), Lowest(window), Highest(window))
    ensures Cost(window, Trained(window)) <= Cost(window, InitialCentroids(window))
    ensures
      var c, lo, hi := InitialCentroids(window), Lowest(window), Highest(window);
      4.0 * (c.At(Low) - lo) == 2.0 * (c.At(Medium) - lo) == 4.0 * (hi - c.At(High)) == hi - lo
  {
    var lo, hi, c := Lowest(window), Highest(window), InitialCentroids(window);
    assert Lowest(window) <= window[0] <= Highest(window);
    assert CentroidsWithin(c, lo, hi);
    KMeansStaysWithin(window, c, MAX_ITERATIONS, lo, hi);
    KMeansNeverCostsMore(window, c, MAX_ITERATIONS);
    if lo < hi {
      KMeansKeepsOrder(window, c, MAX_ITERATIONS);
    } else {
      FlatWindowIsFixed(window, lo);
    }
  }
}
