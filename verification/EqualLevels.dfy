/**
 Equal-level detection (core/feature_engine.py, `detect_equal_levels`): a sort and one pass compute
 the connected components of "at most the tolerance apart", whatever the order of the input.
 */
module EqualLevels {
  import opened Prelude
  import opened RealArith
  import opened Sorting

  datatype Sample = Sample(index: int, price: real)

  type Cluster = s: seq<Sample> | |s| > 0 witness [Sample(0, 0.0)]

  function Cheaper(a: Sample, b: Sample): bool {
    a.price <= b.price
  }

  function Last(c: Cluster): Sample {
    c[|c| - 1]
  }

  /** The next sample joins the last cluster or, when the step exceeds the tolerance, starts one. */
  function Joined(clusters: seq<Cluster>, x: Sample, tolerance: real): (r: seq<Cluster>)
    requires |clusters| > 0
    ensures |r| > 0 && Last(r[|r| - 1]) == x
  {
    var n := |clusters| - 1;
    if Abs(x.price - Last(clusters[n]).price) <= tolerance
    then clusters[n := clusters[n] + [x]]
    else clusters + [[x]]
  }

  function Clusters(sorted: seq<Sample>, tolerance: real): (r: seq<Cluster>)
    ensures |sorted| > 0 ==> |r| > 0 && Last(r[|r| - 1]) == sorted[|sorted| - 1]
  {
    if |sorted| == 0 then []
    else if |sorted| == 1 then [[sorted[0]]]
    else Joined(Clusters(sorted[..|sorted| - 1], tolerance), sorted[|sorted| - 1], tolerance)
  }

  function Price(): Sample -> real {
    (s: Sample) => s.price
  }

  function Mean(c: Cluster): real {
    SumBy(c, Price()) / |c| as real
  }

  function MaxIndex(c: Cluster): int {
    if |c| == 1 then c[0].index else MaxInt(MaxIndex(c[..|c| - 1]), c[|c| - 1].index)
  }

  function MinIndex(c: Cluster): int {
    if |c| == 1 then c[0].index else MinInt(MinIndex(c[..|c| - 1]), c[|c| - 1].index)
  }

  predicate Qualifies(c: Cluster, minHits: int, minAgeBars: int) {
    |c| >= minHits && MaxIndex(c) - MinIndex(c) >= minAgeBars
  }

  /** The mean of every cluster that is large and old enough. */
  function Merged(clusters: seq<Cluster>, minHits: int, minAgeBars: int): seq<real> {
    if |clusters| == 0 then []
    else
      var last := clusters[|clusters| - 1];
      Merged(clusters[..|clusters| - 1], minHits, minAgeBars)
      + (if Qualifies(last, minHits, minAgeBars) then [Mean(last)] else [])
  }

  /** The levels found, before they are rounded to cents. */
  function Levels(samples: seq<Sample>, tolerance: real, minHits: int, minAgeBars: int): seq<real> {
    Merged(Clusters(StableSort(samples, Cheaper), tolerance), minHits, minAgeBars)
  }

  method CutAtGaps(sorted: seq<Sample>, tolerance: real) returns (clusters: seq<Cluster>)
    requires |sorted| > 0
    ensures clusters == Clusters(sorted, tolerance)
  {
    clusters := [];
    var current: Cluster := [sorted[0]];
    assert sorted[..1] == [sorted[0]];
    for i := 1 to |sorted|
      invariant Clusters(sorted[..i], tolerance) == clusters + [current]
    {
      assert sorted[..i + 1][..i] == sorted[..i];
      ghost var before := clusters + [current];
      assert before[|before| - 1] == current;
      if Abs(sorted[i].price - Last(current).price) <= tolerance {
        current := current + [sorted[i]];
      } else {
        clusters := clusters + [current];
        current := [sorted[i]];
      }
      assert clusters + [current] == Joined(before, sorted[i], tolerance);
    }
    clusters := clusters + [current];
    assert sorted[..|sorted|] == sorted;
  }

  method DetectEqualLevels(samples: seq<Sample>, tolerance: real, minHits: int, minAgeBars: int)
    returns (merged: seq<real>)
    ensures merged == Levels(samples, tolerance, minHits, minAgeBars)
  {
    SortLength(samples, Cheaper);
    if |samples| == 0 {
      return [];
    }
    var clusters := CutAtGaps(StableSort(samples, Cheaper), tolerance);
    merged := [];
    for k := 0 to |clusters|
      invariant merged == Merged(clusters[..k], minHits, minAgeBars)
    {
      assert clusters[..k + 1][..k] == clusters[..k];
      if |clusters[k]| < minHits {
        continue;
      }
      if MaxIndex(clusters[k]) - MinIndex(clusters[k]) < minAgeBars {
        continue;
      }
      merged := merged + [Mean(clusters[k])];
    }
    assert clusters[..|clusters|] == clusters;
  }

  // ---------------------------------------------------------------- the cut at the gaps

  function Flatten(clusters: seq<Cluster>): seq<Sample> {
    if |clusters| == 0 then [] else Flatten(clusters[..|clusters| - 1]) + clusters[|clusters| - 1]
  }

  /** Inside a cluster every step goes up by at most the tolerance. */
  predicate Tight(c: Cluster, tolerance: real) {
    forall k | 0 < k < |c| :: 0.0 <= c[k].price - c[k - 1].price <= tolerance
  }

  /** From one cluster to the next the price jumps by more than the tolerance. */
  predicate Gaps(clusters: seq<Cluster>, tolerance: real) {
    forall k | 0 < k < |clusters| :: clusters[k][0].price - Last(clusters[k - 1]).price > tolerance
  }

  predicate AllTight(clusters: seq<Cluster>, tolerance: real) {
    forall k | 0 <= k < |clusters| :: Tight(clusters[k], tolerance)
  }

  lemma JoinedIsCut(clusters: seq<Cluster>, x: Sample, tolerance: real)
    requires |clusters| > 0 && AllTight(clusters, tolerance) && Gaps(clusters, tolerance)
    requires x.price >= Last(clusters[|clusters| - 1]).price
    ensures AllTight(Joined(clusters, x, tolerance), tolerance)
    ensures Gaps(Joined(clusters, x, tolerance), tolerance)
  {
    var n := |clusters| - 1;
    var last, next := clusters[n], Joined(clusters, x, tolerance);
    if Abs(x.price - Last(last).price) <= tolerance {
      assert next[n] == last + [x];
      assert Tight(last + [x], tolerance);
      assert next[n][0] == last[0];
    }
  }

  lemma JoinedFlattens(clusters: seq<Cluster>, x: Sample, tolerance: real)
    requires |clusters| > 0
    ensures Flatten(Joined(clusters, x, tolerance)) == Flatten(clusters) + [x]
  {
    var n := |clusters| - 1;
    var next := Joined(clusters, x, tolerance);
    if Abs(x.price - Last(clusters[n]).price) <= tolerance {
      assert next[..n] == clusters[..n];
    } else {
      assert next[..n + 1] == clusters;
    }
  }

  lemma OneCluster(x: Sample, tolerance: real)
    ensures var one: seq<Cluster> := [[x]]; Flatten(one) == [x] && AllTight(one, tolerance) && Gaps(one, tolerance)
  {
    var one: seq<Cluster> := [[x]];
    assert one[..0] == [];
    assert Flatten(one) == Flatten(one[..0]) + one[0];
  }

  /** The clusters of a sorted sequence are the sequence itself, cut exactly at its gaps. */
  lemma {:induction false} ClustersCutAtGaps(sorted: seq<Sample>, tolerance: real)
    requires SortedBy(sorted, Cheaper)
    ensures Flatten(Clusters(sorted, tolerance)) == sorted
    ensures AllTight(Clusters(sorted, tolerance), tolerance) && Gaps(Clusters(sorted, tolerance), tolerance)
  {
    hide Joined, Gaps, AllTight, Flatten;
    if |sorted| == 0 {
      NoClusters(tolerance);
    } else if |sorted| == 1 {
      OneCluster(sorted[0], tolerance);
    } else {
      var init, x := sorted[..|sorted| - 1], sorted[|sorted| - 1];
      ClustersCutAtGaps(init, tolerance);
      assert Cheaper(init[|init| - 1], x);
      JoinedIsCut(Clusters(init, tolerance), x, tolerance);
      JoinedFlattens(Clusters(init, tolerance), x, tolerance);
      assert sorted == init + [x];
    }
  }

  lemma NoClusters(tolerance: real)
    ensures Flatten([]) == [] && AllTight([], tolerance) && Gaps([], tolerance)
  {
  }

  lemma {:induction false} Climbs(c: Cluster, i: nat, j: nat, tolerance: real)
    requires Tight(c, tolerance) && i <= j < |c|
    ensures c[i].price <= c[j].price
  {
    if i < j {
      Climbs(c, i, j - 1, tolerance);
    }
  }

  /** Samples of different clusters differ by more than the tolerance. */
  lemma {:induction false} FarApart(clusters: seq<Cluster>, p: nat, q: nat, x: Sample, y: Sample, tolerance: real)
    requires AllTight(clusters, tolerance) && Gaps(clusters, tolerance) && tolerance >= 0.0
    requires p < q < |clusters| && x in clusters[p] && y in clusters[q]
    ensures y.price - x.price > tolerance
  {
    hide Tight;
    var i :| 0 <= i < |clusters[p]| && clusters[p][i] == x;
    var j :| 0 <= j < |clusters[q]| && clusters[q][j] == y;
    Climbs(clusters[q], 0, j, tolerance);
    if p == q - 1 {
      Climbs(clusters[p], i, |clusters[p]| - 1, tolerance);
    } else {
      FarApart(clusters, p, q - 1, x, Last(clusters[q - 1]), tolerance);
    }
  }

  lemma {:induction false} InFlatten(clusters: seq<Cluster>, x: Sample)
    ensures x in Flatten(clusters) <==> exists k :: 0 <= k < |clusters| && x in clusters[k]
  {
    if |clusters| > 0 {
      InFlatten(clusters[..|clusters| - 1], x);
    }
  }

  // ---------------------------------------------------------------- connected components

  /** A chain of samples, each step at most the tolerance up or down. */
  ghost predicate Chain(chain: seq<Sample>, samples: seq<Sample>, tolerance: real) {
    && (forall k | 0 <= k < |chain| :: chain[k] in samples)
    && (forall k | 0 < k < |chain| :: Abs(chain[k].price - chain[k - 1].price) <= tolerance)
  }

  ghost predicate Connected(x: Sample, y: Sample, samples: seq<Sample>, tolerance: real) {
    exists chain: seq<Sample> ::
        |chain| > 0 && chain[0] == x && chain[|chain| - 1] == y && Chain(chain, samples, tolerance)
  }

  ghost predicate Together(clusters: seq<Cluster>, x: Sample, y: Sample) {
    exists k :: 0 <= k < |clusters| && x in clusters[k] && y in clusters[k]
  }

  lemma ClusterIsConnected(c: Cluster, i: nat, j: nat, samples: seq<Sample>, tolerance: real)
    requires Tight(c, tolerance) && i < |c| && j < |c|
    requires forall k | 0 <= k < |c| :: c[k] in samples
    ensures Connected(c[i], c[j], samples, tolerance)
  {
    if i <= j {
      var up := c[i..j + 1];
      assert Chain(up, samples, tolerance);
    } else {
      DownwardChain(c, i, j, samples, tolerance);
    }
  }

  lemma DownwardChain(c: Cluster, i: nat, j: nat, samples: seq<Sample>, tolerance: real)
    requires Tight(c, tolerance) && j < i < |c|
    requires forall k | 0 <= k < |c| :: c[k] in samples
    ensures Connected(c[i], c[j], samples, tolerance)
  {
    hide Tight;
    var down := seq(i - j + 1, k requires 0 <= k <= i - j => c[i - k]);
    forall k | 0 < k < |down| ensures Abs(down[k].price - down[k - 1].price) <= tolerance {
      StepOf(c, i - k + 1, tolerance);
    }
    assert Chain(down, samples, tolerance);
  }

  lemma StepOf(c: Cluster, k: nat, tolerance: real)
    requires Tight(c, tolerance) && 0 < k < |c|
    ensures 0.0 <= c[k].price - c[k - 1].price <= tolerance
  {
  }

  lemma {:induction false} ChainStaysInCluster(clusters: seq<Cluster>, p: nat, chain: seq<Sample>,
                                               samples: seq<Sample>, tolerance: real)
    requires AllTight(clusters, tolerance) && Gaps(clusters, tolerance) && tolerance >= 0.0
    requires multiset(Flatten(clusters)) == multiset(samples)
    requires |chain| > 0 && Chain(chain, samples, tolerance) && p < |clusters| && chain[0] in clusters[p]
    ensures chain[|chain| - 1] in clusters[p]
  {
    hide Tight, Gaps, AllTight, Flatten;
    if |chain| > 1 {
      var y, x := chain[|chain| - 1], chain[|chain| - 2];
      var init := chain[..|chain| - 1];
      ChainStaysInCluster(clusters, p, init, samples, tolerance);
      assert y in multiset(samples);
      InFlatten(clusters, y);
      var q :| 0 <= q < |clusters| && y in clusters[q];
      if p < q {
        FarApart(clusters, p, q, x, y, tolerance);
      } else if q < p {
        FarApart(clusters, q, p, y, x, tolerance);
      }
    }
  }

  /**
   The clusters partition the samples into the connected components of "at most the tolerance apart":
   they hold exactly the samples, and two samples share a cluster just when a chain of samples joins them.
   */
  lemma ClustersAreComponents(samples: seq<Sample>, tolerance: real)
    ensures multiset(Flatten(Clusters(StableSort(samples, Cheaper), tolerance))) == multiset(samples)
    ensures forall x, y | x in samples && y in samples ::
              Together(Clusters(StableSort(samples, Cheaper), tolerance), x, y) <==> Connected(x, y, samples, tolerance)
  {
    hide Tight, Gaps, Flatten, Clusters, StableSort, Connected, Together;
    SortIsSortedPermutation(samples, Cheaper);
    var sorted := StableSort(samples, Cheaper);
    var clusters := Clusters(sorted, tolerance);
    ClustersCutAtGaps(sorted, tolerance);
    forall x, y | x in samples && y in samples
      ensures Together(clusters, x, y) <==> Connected(x, y, samples, tolerance)
    {
      if tolerance < 0.0 {
        SingletonComponents(clusters, x, y, samples, tolerance);
      } else {
        ComponentBothWays(clusters, x, y, samples, tolerance);
      }
    }
  }

  /** Below zero no step is allowed: every cluster is one sample and every chain has no step. */
  lemma SingletonComponents(clusters: seq<Cluster>, x: Sample, y: Sample, samples: seq<Sample>, tolerance: real)
    requires AllTight(clusters, tolerance) && tolerance < 0.0
    requires multiset(Flatten(clusters)) == multiset(samples)
    requires x in samples && y in samples
    ensures Together(clusters, x, y) <==> Connected(x, y, samples, tolerance)
  {
    hide Flatten, AllTight, Tight;
    assert x in multiset(samples);
    InFlatten(clusters, x);
    forall k | 0 <= k < |clusters| ensures |clusters[k]| == 1 {
      OnlyOne(clusters, k, tolerance);
    }
    if x == y {
      assert Chain([x], samples, tolerance);
      assert [x][0] == x && [x][|[x]| - 1] == x;
    } else if Connected(x, y, samples, tolerance) {
      var chain: seq<Sample> :| |chain| > 0 && chain[0] == x && chain[|chain| - 1] == y
          && Chain(chain, samples, tolerance);
      if |chain| > 1 {
        StepNeedsTolerance(chain, samples, tolerance);
      }
    }
  }

  lemma StepNeedsTolerance(chain: seq<Sample>, samples: seq<Sample>, tolerance: real)
    requires Chain(chain, samples, tolerance) && |chain| > 1
    ensures tolerance >= 0.0
  {
    assert Abs(chain[1].price - chain[1 - 1].price) <= tolerance;
  }

  lemma OnlyOne(clusters: seq<Cluster>, k: nat, tolerance: real)
    requires AllTight(clusters, tolerance) && tolerance < 0.0 && k < |clusters|
    ensures |clusters[k]| == 1
  {
    if |clusters[k]| > 1 {
      assert Tight(clusters[k], tolerance);
      StepOf(clusters[k], 1, tolerance);
    }
  }

  lemma ComponentBothWays(clusters: seq<Cluster>, x: Sample, y: Sample, samples: seq<Sample>, tolerance: real)
    requires AllTight(clusters, tolerance) && Gaps(clusters, tolerance) && tolerance >= 0.0
    requires multiset(Flatten(clusters)) == multiset(samples)
    requires x in samples && y in samples
    ensures Together(clusters, x, y) <==> Connected(x, y, samples, tolerance)
  {
    hide Tight, Gaps, Flatten;
    if Together(clusters, x, y) {
      var k :| 0 <= k < |clusters| && x in clusters[k] && y in clusters[k];
      var c := clusters[k];
      var i :| 0 <= i < |c| && c[i] == x;
      var j :| 0 <= j < |c| && c[j] == y;
      forall m | 0 <= m < |c| ensures c[m] in samples {
        InFlatten(clusters, c[m]);
        assert c[m] in multiset(samples);
      }
      ClusterIsConnected(c, i, j, samples, tolerance);
    }
    if Connected(x, y, samples, tolerance) {
      var chain: seq<Sample> :| |chain| > 0 && chain[0] == x && chain[|chain| - 1] == y
          && Chain(chain, samples, tolerance);
      assert x in multiset(samples);
      InFlatten(clusters, x);
      var p :| 0 <= p < |clusters| && x in clusters[p];
      ChainStaysInCluster(clusters, p, chain, samples, tolerance);
    }
  }

  // ---------------------------------------------------------------- increasing levels

  lemma {:induction false} SumWithin(c: seq<Sample>, low: real, high: real)
    requires forall k | 0 <= k < |c| :: low <= c[k].price <= high
    ensures |c| as real * low <= SumBy(c, Price()) <= |c| as real * high
  {
    if |c| > 0 {
      SumWithin(c[..|c| - 1], low, high);
    }
  }

  lemma MeanWithin(c: Cluster, tolerance: real)
    requires Tight(c, tolerance)
    ensures c[0].price <= Mean(c) <= Last(c).price
  {
    hide SumBy, Tight;
    forall k | 0 <= k < |c| ensures c[0].price <= c[k].price <= Last(c).price {
      Climbs(c, 0, k, tolerance);
      Climbs(c, k, |c| - 1, tolerance);
    }
    SumWithin(c, c[0].price, Last(c).price);
    QuotientWithin(SumBy(c, Price()), |c| as real, c[0].price, Last(c).price);
  }

  lemma QuotientWithin(sum: real, n: real, low: real, high: real)
    requires n > 0.0 && n * low <= sum <= n * high
    ensures low <= sum / n <= high
  {
    var q := sum / n;
    assert q * n == sum;
    if q < low {
      ProductStrict(n, q, low);
    }
    if q > high {
      ProductStrict(n, high, q);
    }
  }

  lemma {:induction false} MergedAboveGap(clusters: seq<Cluster>, minHits: int, minAgeBars: int, tolerance: real)
    requires AllTight(clusters, tolerance) && Gaps(clusters, tolerance) && tolerance >= 0.0
    ensures var m := Merged(clusters, minHits, minAgeBars);
            && (forall k | 0 < k < |m| :: m[k - 1] + tolerance < m[k])
            && (|m| > 0 ==> m[|m| - 1] <= Last(clusters[|clusters| - 1]).price)
  {
    hide Tight, Qualifies, Mean;
    if |clusters| > 0 {
      var n := |clusters| - 1;
      MergedAboveGap(clusters[..n], minHits, minAgeBars, tolerance);
      MeanWithin(clusters[n], tolerance);
      Climbs(clusters[n], 0, |clusters[n]| - 1, tolerance);
    }
  }

  /** The levels, before rounding, rise by more than the tolerance each. */
  lemma LevelsIncrease(samples: seq<Sample>, tolerance: real, minHits: int, minAgeBars: int)
    requires tolerance >= 0.0
    ensures var m := Levels(samples, tolerance, minHits, minAgeBars);
            forall k | 0 < k < |m| :: m[k - 1] + tolerance < m[k]
  {
    hide Clusters, Merged, StableSort;
    SortIsSortedPermutation(samples, Cheaper);
    ClustersCutAtGaps(StableSort(samples, Cheaper), tolerance);
    MergedAboveGap(Clusters(StableSort(samples, Cheaper), tolerance), minHits, minAgeBars, tolerance);
  }

  // ---------------------------------------------------------------- order of the input

  ghost predicate SamePrices(s: seq<Sample>, t: seq<Sample>) {
    |s| == |t| && forall i | 0 <= i < |s| :: s[i].price == t[i].price
  }

  ghost predicate SameShape(clusters: seq<Cluster>, others: seq<Cluster>) {
    |clusters| == |others| && forall k | 0 <= k < |clusters| :: SamePrices(clusters[k], others[k])
  }

  function AtMost(v: real): Sample -> real {
    (s: Sample) => if s.price <= v then 1.0 else 0.0
  }

  lemma {:induction false} CountAtMost(s: seq<Sample>, n: nat, v: real)
    requires n <= |s|
    ensures (forall k | 0 <= k < n :: s[k].price <= v) ==> SumBy(s, AtMost(v)) >= n as real
    ensures (forall k | n <= k < |s| :: s[k].price > v) ==> SumBy(s, AtMost(v)) <= n as real
    ensures 0.0 <= SumBy(s, AtMost(v)) <= |s| as real
  {
    if |s| > 0 {
      CountAtMost(s[..|s| - 1], if n == |s| then n - 1 else n, v);
    }
  }

  /** Two sorted arrangements of the same samples carry the same prices position by position. */
  lemma SortedPricesAgree(s: seq<Sample>, t: seq<Sample>)
    requires multiset(s) == multiset(t) && SortedBy(s, Cheaper) && SortedBy(t, Cheaper)
    ensures SamePrices(s, t)
  {
    hide SumBy;
    assert |s| == |multiset(s)| == |t|;
    forall i | 0 <= i < |s| ensures s[i].price == t[i].price {
      NotBelow(s, t, i);
      NotBelow(t, s, i);
    }
  }

  lemma NotBelow(s: seq<Sample>, t: seq<Sample>, i: nat)
    requires multiset(s) == multiset(t) && SortedBy(s, Cheaper) && SortedBy(t, Cheaper) && i < |s| == |t|
    ensures s[i].price >= t[i].price
  {
    hide SumBy;
    if s[i].price < t[i].price {
      var v := s[i].price;
      forall k | 0 <= k < i + 1 ensures s[k].price <= v {
        assert k < i ==> Cheaper(s[k], s[i]);
      }
      forall k | i <= k < |t| ensures t[k].price > v {
        assert i < k ==> Cheaper(t[i], t[k]);
      }
      CountAtMost(s, i + 1, v);
      CountAtMost(t, i, v);
      SumByPermutation(s, t, AtMost(v));
    }
  }

  lemma {:induction false} SameCuts(s: seq<Sample>, t: seq<Sample>, tolerance: real)
    requires SamePrices(s, t)
    ensures SameShape(Clusters(s, tolerance), Clusters(t, tolerance))
  {
    hide SamePrices, Joined, SameShape;
    var n := |s| - 1;
    PricesOfPrefix(s, t);
    if n == 0 {
      SingletonShape(s, t);
    } else if n > 0 {
      SameCuts(s[..n], t[..n], tolerance);
      SameJoin(Clusters(s[..n], tolerance), Clusters(t[..n], tolerance), s[n], t[n], tolerance);
    } else {
      EmptyShape();
    }
  }

  lemma PricesOfPrefix(s: seq<Sample>, t: seq<Sample>)
    requires SamePrices(s, t)
    ensures |s| == |t|
    ensures |s| > 0 ==> SamePrices(s[..|s| - 1], t[..|t| - 1]) && s[|s| - 1].price == t[|t| - 1].price
  {
  }

  lemma EmptyShape()
    ensures SameShape([], [])
  {
  }

  lemma SingletonShape(s: seq<Sample>, t: seq<Sample>)
    requires SamePrices(s, t) && |s| == 1
    ensures SameShape([[s[0]]], [[t[0]]])
  {
  }

  lemma SameJoin(a: seq<Cluster>, b: seq<Cluster>, x: Sample, y: Sample, tolerance: real)
    requires |a| > 0 && SameShape(a, b) && x.price == y.price
    ensures SameShape(Joined(a, x, tolerance), Joined(b, y, tolerance))
  {
    var n := |a| - 1;
    assert SamePrices(a[n], b[n]);
    hide SamePrices;
    LastPrices(a[n], b[n]);
    PricesExtend(a[n], b[n], x, y);
    PricesExtend([], [], x, y);
  }

  lemma LastPrices(s: Cluster, t: Cluster)
    requires SamePrices(s, t)
    ensures Last(s).price == Last(t).price
  {
  }

  lemma PricesExtend(s: seq<Sample>, t: seq<Sample>, x: Sample, y: Sample)
    requires SamePrices(s, t) || s == t == []
    requires x.price == y.price
    ensures SamePrices(s + [x], t + [y])
  {
  }

  /** A cluster holds exactly the samples between its first and last price. */
  lemma ClusterIsPriceRange(clusters: seq<Cluster>, k: nat, x: Sample, tolerance: real)
    requires AllTight(clusters, tolerance) && Gaps(clusters, tolerance) && tolerance >= 0.0 && k < |clusters|
    requires x in Flatten(clusters)
    ensures x in clusters[k] <==> clusters[k][0].price <= x.price <= Last(clusters[k]).price
  {
    hide Tight, Gaps, Flatten;
    InFlatten(clusters, x);
    var p :| 0 <= p < |clusters| && x in clusters[p];
    var c := clusters[k];
    if p < k {
      FarApart(clusters, p, k, x, c[0], tolerance);
      InOnlyOne(clusters, k, p, x, tolerance);
    } else if k < p {
      FarApart(clusters, k, p, Last(c), x, tolerance);
      InOnlyOne(clusters, k, p, x, tolerance);
    } else {
      var i :| 0 <= i < |c| && c[i] == x;
      Climbs(c, 0, i, tolerance);
      Climbs(c, i, |c| - 1, tolerance);
    }
  }

  lemma InOnlyOne(clusters: seq<Cluster>, k: nat, p: nat, x: Sample, tolerance: real)
    requires AllTight(clusters, tolerance) && Gaps(clusters, tolerance) && tolerance >= 0.0
    requires k < |clusters| && p < |clusters| && k != p && x in clusters[p]
    ensures x !in clusters[k]
  {
    hide Tight, Gaps, AllTight;
    if x in clusters[k] {
      FarApart(clusters, MinInt(k, p), MaxInt(k, p), x, x, tolerance);
    }
  }

  lemma {:induction false} IndexBounds(c: Cluster)
    ensures forall k | 0 <= k < |c| :: MinIndex(c) <= c[k].index <= MaxIndex(c)
    ensures exists k :: 0 <= k < |c| && c[k].index == MinIndex(c)
    ensures exists k :: 0 <= k < |c| && c[k].index == MaxIndex(c)
  {
    if |c| > 1 {
      var init: Cluster := c[..|c| - 1];
      IndexBounds(init);
      var i :| 0 <= i < |init| && init[i].index == MinIndex(init);
      var j :| 0 <= j < |init| && init[j].index == MaxIndex(init);
      assert c[i] == init[i] && c[j] == init[j];
      assert c[|c| - 1].index == MinIndex(c) || c[i].index == MinIndex(c);
      assert c[|c| - 1].index == MaxIndex(c) || c[j].index == MaxIndex(c);
    } else {
      assert c[0].index == MinIndex(c);
    }
  }

  lemma SameMembersSameIndices(c: Cluster, d: Cluster)
    requires forall x :: x in c <==> x in d
    ensures MinIndex(c) == MinIndex(d) && MaxIndex(c) == MaxIndex(d)
  {
    hide MinIndex, MaxIndex;
    IndexBounds(c);
    IndexBounds(d);
    IndicesWithin(c, d);
    IndicesWithin(d, c);
  }

  lemma IndicesWithin(c: Cluster, d: Cluster)
    requires forall x :: x in c ==> x in d
    ensures MinIndex(d) <= MinIndex(c) && MaxIndex(c) <= MaxIndex(d)
  {
    hide MinIndex, MaxIndex;
    IndexBounds(c);
    IndexBounds(d);
    var i :| 0 <= i < |c| && c[i].index == MinIndex(c);
    var j :| 0 <= j < |c| && c[j].index == MaxIndex(c);
    assert c[i] in d && c[j] in d;
  }

  lemma {:induction false} SamePricesSameSum(s: seq<Sample>, t: seq<Sample>)
    requires SamePrices(s, t)
    ensures SumBy(s, Price()) == SumBy(t, Price())
  {
    if |s| > 0 {
      SamePricesSameSum(s[..|s| - 1], t[..|t| - 1]);
    }
  }

  lemma {:induction false} SameMerged(a: seq<Cluster>, b: seq<Cluster>, minHits: int, minAgeBars: int)
    requires |a| == |b|
    requires forall k | 0 <= k < |a| ::
             Mean(a[k]) == Mean(b[k]) && (Qualifies(a[k], minHits, minAgeBars)
                                          <==> Qualifies(b[k], minHits, minAgeBars))
    ensures Merged(a, minHits, minAgeBars) == Merged(b, minHits, minAgeBars)
  {
    hide Mean, Qualifies;
    if |a| > 0 {
      SameMerged(a[..|a| - 1], b[..|b| - 1], minHits, minAgeBars);
    }
  }

  lemma ClustersAlike(a: seq<Cluster>, b: seq<Cluster>, k: nat, tolerance: real, minHits: int, minAgeBars: int)
    requires AllTight(a, tolerance) && Gaps(a, tolerance) && AllTight(b, tolerance) && Gaps(b, tolerance)
    requires SameShape(a, b) && k < |a| && multiset(Flatten(a)) == multiset(Flatten(b))
    ensures Mean(a[k]) == Mean(b[k]) && (Qualifies(a[k], minHits, minAgeBars) <==> Qualifies(b[k], minHits, minAgeBars))
  {
    assert SamePrices(a[k], b[k]);
    assert a[k][0].price == b[k][0].price;
    LastPrices(a[k], b[k]);
    SamePricesSameSum(a[k], b[k]);
    hide Gaps, AllTight, Flatten, SameShape, SumBy;
    if tolerance < 0.0 {
      OnlyOne(a, k, tolerance);
      OnlyOne(b, k, tolerance);
    } else {
      SameMembers(a, b, k, tolerance);
      SameMembersSameIndices(a[k], b[k]);
    }
  }

  lemma SameMembers(a: seq<Cluster>, b: seq<Cluster>, k: nat, tolerance: real)
    requires AllTight(a, tolerance) && Gaps(a, tolerance) && AllTight(b, tolerance) && Gaps(b, tolerance)
             && tolerance >= 0.0
    requires k < |a| == |b| && multiset(Flatten(a)) == multiset(Flatten(b))
    requires a[k][0].price == b[k][0].price && Last(a[k]).price == Last(b[k]).price
    ensures forall x :: x in a[k] <==> x in b[k]
  {
    hide Gaps, AllTight, Flatten;
    forall x ensures x in a[k] <==> x in b[k] {
      InFlatten(a, x);
      InFlatten(b, x);
      assert x in Flatten(a) <==> x in multiset(Flatten(a));
      assert x in Flatten(b) <==> x in multiset(Flatten(b));
      if x in Flatten(a) {
        ClusterIsPriceRange(a, k, x, tolerance);
        ClusterIsPriceRange(b, k, x, tolerance);
      }
    }
  }

  /** The levels do not depend on the order in which the samples are given. */
  lemma LevelsIgnoreOrder(samples: seq<Sample>, others: seq<Sample>, tolerance: real, minHits: int, minAgeBars: int)
    requires multiset(samples) == multiset(others)
    ensures Levels(samples, tolerance, minHits, minAgeBars) == Levels(others, tolerance, minHits, minAgeBars)
  {
    hide Clusters, Merged, StableSort, Mean, Qualifies, Gaps, AllTight, Flatten;
    SortIsSortedPermutation(samples, Cheaper);
    SortIsSortedPermutation(others, Cheaper);
    var s, t := StableSort(samples, Cheaper), StableSort(others, Cheaper);
    var a, b := Clusters(s, tolerance), Clusters(t, tolerance);
    ClustersCutAtGaps(s, tolerance);
    ClustersCutAtGaps(t, tolerance);
    SortedPricesAgree(s, t);
    SameCuts(s, t, tolerance);
    forall k | 0 <= k < |a|
      ensures Mean(a[k]) == Mean(b[k])
              && (Qualifies(a[k], minHits, minAgeBars) <==> Qualifies(b[k], minHits, minAgeBars))
    {
      ClustersAlike(a, b, k, tolerance, minHits, minAgeBars);
    }
    SameMerged(a, b, minHits, minAgeBars);
  }

  /** A cluster counts when it has enough samples, two of which are far enough apart in age; its level is its mean. */
  lemma LevelInPlainTerms(c: Cluster, minHits: int, minAgeBars: int)
    ensures Qualifies(c, minHits, minAgeBars)
       <==> |c| >= minHits && exists x, y | x in c && y in c :: Older(x, y, minAgeBars)
    ensures Times(Mean(c), |c| as real) == SumBy(c, Price())
  {
    IndexExtremes(c);
    QuotientTimes(SumBy(c, Price()), |c| as real);
    hide MaxIndex, MinIndex, SumBy;
    if MaxIndex(c) - MinIndex(c) >= minAgeBars {
      var x :| x in c && x.index == MaxIndex(c);
      var y :| y in c && y.index == MinIndex(c);
      assert Older(x, y, minAgeBars);
    }
  }

  predicate Older(x: Sample, y: Sample, bars: int) {
    x.index - y.index >= bars
  }

  lemma {:induction false} IndexExtremes(c: Cluster)
    ensures forall x | x in c :: MinIndex(c) <= x.index <= MaxIndex(c)
    ensures exists x | x in c :: x.index == MaxIndex(c)
    ensures exists x | x in c :: x.index == MinIndex(c)
  {
    var n := |c| - 1;
    assert c[n] in c;
    if n > 0 {
      IndexExtremes(c[..n]);
      assert c == c[..n] + [c[n]];
    }
  }
}
