/** The KMeansClustering class of run_clustering.php: its loops, proved to
    compute the values that module KMeansSpec defines, and its fields, updated
    by fit as the source updates them. */
module KMeans {
  import opened Numeric
  import opened KMeansSpec

  /** DEFAULT_CLUSTERS, MAX_ITERATIONS and CONVERGENCE_THRESHOLD. */
  const DefaultClusters: nat := 5
  const DefaultMaxIterations: nat := 300
  const DefaultThreshold: real := 0.0001

  /** Why fit produced no labels: with no records, the mean divides by a count of zero. */
  datatype FitError = EmptyInput

  datatype Result<T> = Ok(value: T) | Err(error: FitError)

  /** The scan of a centroid list shared by assignClusters, fit's final
      labelling and the seeding's minimum distance: a running minimum that
      starts at PHP_FLOAT_MAX (no candidate yet) and moves to a later centroid
      only when it is strictly nearer. */
  method NearestCentroid(p: Point, cs: seq<Point>) returns (cluster: nat, minSq: real)
    ensures cluster == Nearest(p, cs)
    ensures |cs| > 0 ==> minSq == MinSqDist(p, cs)
  {
    cluster, minSq := 0, 0.0;
    var seen := false;
    var j := 0;
    while j < |cs|
      invariant 0 <= j <= |cs|
      invariant seen <==> j > 0
      invariant cluster == Nearest(p, cs[..j])
      invariant j > 0 ==> cluster < j && minSq == SqDist(p, cs[cluster])
    {
      var d := SqDist(p, cs[j]);
      if !seen || d < minSq {
        cluster, minSq := j, d;
      }
      seen := true;
      assert cs[..j + 1][..j] == cs[..j];
      j := j + 1;
    }
    assert cs[..|cs|] == cs;
  }

  /** The variance loop of normalizeData: squared deviations from the mean,
      accumulated one value at a time, divided by the count. */
  method ColumnVariance(values: seq<real>) returns (mean: real, variance: real)
    requires |values| > 0
    ensures mean == Mean(values)
    ensures variance == Variance(values)
  {
    mean := Sum(values) / (|values| as real);
    var acc := 0.0;
    var i := 0;
    while i < |values|
      invariant 0 <= i <= |values|
      invariant acc == Sum(SquaredDeviations(values, mean)[..i])
    {
      SumPrefixStep(SquaredDeviations(values, mean), i);
      acc := acc + Square(values[i] - mean);
      i := i + 1;
    }
    assert SquaredDeviations(values, mean)[..|values|] == SquaredDeviations(values, mean);
    variance := acc / (|values| as real);
  }

  /** The distance pass of initializeCentroids: for every point, the squared
      distance to its nearest centroid chosen so far. */
  method MinDistances(data: seq<Point>, cs: seq<Point>) returns (distances: seq<real>)
    requires |cs| > 0
    ensures distances == Weights(data, cs)
  {
    distances := [];
    var n := 0;
    while n < |data|
      invariant 0 <= n <= |data|
      invariant distances == Weights(data, cs)[..n]
    {
      var _, minSq := NearestCentroid(data[n], cs);
      distances := distances + [minSq];
      n := n + 1;
    }
  }

  /** The cumulative-sum scan of initializeCentroids: walk the weights with a
      running total and stop at the first index where it reaches r. */
  method SelectIndex(ds: seq<real>, r: real) returns (found: bool, idx: nat)
    ensures found <==> Select(ds, r).Some?
    ensures found ==> Select(ds, r) == Some(idx) && idx < |ds|
  {
    found, idx := false, 0;
    var cumulative := 0.0;
    var i := 0;
    while i < |ds|
      invariant 0 <= i <= |ds|
      invariant cumulative == Sum(ds[..i])
      invariant forall j :: 0 <= j < i ==> Running(ds, j) < r
      invariant Select(ds, r) == SelectFrom(ds, r, i)
    {
      SumPrefixStep(ds, i);
      cumulative := cumulative + ds[i];
      if cumulative >= r {
        assert Running(ds, i) >= r;
        found, idx := true, i;
        return;
      }
      i := i + 1;
    }
  }

  class KMeansClustering {
    const k: nat
    const maxIterations: nat
    const convergenceThreshold: real
    var centroids: seq<Point>
    var clusters: seq<seq<Point>>

    /** The parameters default to 5, 300 and 0.0001, the values of
        DEFAULT_CLUSTERS, MAX_ITERATIONS and CONVERGENCE_THRESHOLD. */
    constructor (k: nat := DefaultClusters, maxIterations: nat := DefaultMaxIterations,
                 convergenceThreshold: real := DefaultThreshold)
      ensures this.k == k && this.maxIterations == maxIterations
      ensures this.convergenceThreshold == convergenceThreshold
      ensures centroids == [] && clusters == []
    {
      this.k := k;
      this.maxIterations := maxIterations;
      this.convergenceThreshold := convergenceThreshold;
      centroids := [];
      clusters := [];
    }

    /** normalizeData: per feature, the mean and the variance loop; the
        standard deviation (the square root of that variance) is supplied
        in sds; then each record is z-scored, a zero deviation dividing by 1. */
    method NormalizeData(data: seq<Customer>, sds: Point) returns (normalized: seq<Point>)
      requires |data| > 0 && AreStdDevs(sds, data)
      ensures normalized == Normalized(data, sds)
    {
      var ageMean, ageVariance := ColumnVariance(Ages(Features(data)));
      var incomeMean, incomeVariance := ColumnVariance(Incomes(Features(data)));
      var purchaseMean, purchaseVariance := ColumnVariance(Purchases(Features(data)));
      assert sds.age * sds.age == ageVariance;
      assert sds.income * sds.income == incomeVariance;
      assert sds.purchase * sds.purchase == purchaseVariance;
      var means := Point(ageMean, incomeMean, purchaseMean);
      assert means == Means(data);
      normalized := [];
      var i := 0;
      while i < |data|
        invariant 0 <= i <= |data|
        invariant normalized == Normalized(data, sds)[..i]
      {
        normalized := normalized + [ZScore(data[i], means, sds)];
        i := i + 1;
      }
    }

    /** initializeCentroids: the point at index first, then one more centroid
        per draw, chosen by the cumulative scan over the squared distances of
        every point to its nearest centroid so far. */
    method InitializeCentroids(data: seq<Point>, first: nat, draws: seq<real>) returns (cs: seq<Point>)
      requires first < |data| && k >= 1 && |draws| == k - 1 && DrawsInUnit(draws)
      ensures cs == Seeds(data, first, draws)
      ensures |cs| == k
    {
      cs := [data[first]];
      var i := 1;
      while i < k
        invariant 1 <= i <= k
        invariant cs == Seeds(data, first, draws[..i - 1])
      {
        var distances := MinDistances(data, cs);
        var rand := Target(draws[i - 1], distances);
        var found, idx := SelectIndex(distances, rand);
        assert draws[..i][..i - 1] == draws[..i - 1];
        if found {
          cs := cs + [data[idx]];
        }
        i := i + 1;
      }
      assert draws[..k - 1] == draws;
      SeedsCount(data, first, draws);
    }

    /** assignClusters: k empty groups, then each point appended to the group
        of its nearest centroid. */
    method AssignClusters(data: seq<Point>, cs: seq<Point>) returns (groups: seq<seq<Point>>)
      requires 0 < |cs| <= k
      ensures groups == Assign(data, cs, k)
    {
      groups := seq(k, _ => []);
      ghost var labels := Labelling(data, cs);
      assert groups == Groups([], [], k);
      var i := 0;
      while i < |data|
        invariant 0 <= i <= |data|
        invariant groups == Groups(data[..i], labels[..i], k)
      {
        var cluster, _ := NearestCentroid(data[i], cs);
        GroupsAppend(data[..i], labels[..i], data[i], cluster, k);
        assert data[..i + 1] == data[..i] + [data[i]];
        assert labels[..i + 1] == labels[..i] + [cluster];
        groups := groups[cluster := groups[cluster] + [data[i]]];
        i := i + 1;
      }
      assert data[..|data|] == data && labels[..|data|] == labels;
    }

    /** updateCentroids: one centroid per group, the mean of its points, or
        for an empty group the current centroid at the same index. */
    method UpdateCentroids(groups: seq<seq<Point>>) returns (cs: seq<Point>)
      requires |groups| <= |centroids|
      ensures cs == Update(groups, centroids)
    {
      cs := [];
      var j := 0;
      while j < |groups|
        invariant 0 <= j <= |groups| && |cs| == j
        invariant cs == Update(groups, centroids)[..j]
      {
        if groups[j] == [] {
          cs := cs + [centroids[|cs|]];
        } else {
          cs := cs + [MeanPoint(groups[j])];
        }
        j := j + 1;
      }
    }

    /** hasConverged: false at the first of the k index-matched pairs that
        is further apart than the threshold, true when none is. */
    method HasConverged(olds: seq<Point>, news: seq<Point>) returns (b: bool)
      requires k <= |olds| && k <= |news|
      ensures b == Converged(olds, news, k, convergenceThreshold)
    {
      var i := 0;
      while i < k
        invariant 0 <= i <= k
        invariant Converged(olds, news, i, convergenceThreshold)
      {
        if Exceeds(SqDist(olds[i], news[i]), convergenceThreshold) {
          assert !Converged(olds, news, k, convergenceThreshold) by {
            if Converged(olds, news, k, convergenceThreshold) {
              ConvergedPrefix(olds, news, i + 1, k, convergenceThreshold);
            }
          }
          return false;
        }
        i := i + 1;
      }
      return true;
    }

    /** The iteration loop of fit, from the current centroids: at most
        maxIterations rounds of assign, update and convergence test; on
        convergence it breaks before adopting the updated centroids. */
    method Iterations(pts: seq<Point>)
      requires |centroids| == k && k >= 1
      modifies this
      ensures var o := Iterate(pts, old(centroids), k, maxIterations, convergenceThreshold);
        && centroids == o.centroids
        && clusters == (if maxIterations > 0 then o.groups else old(clusters))
    {
      ghost var final := Iterate(pts, centroids, k, maxIterations, convergenceThreshold);
      var iteration := 0;
      while iteration < maxIterations
        invariant 0 <= iteration <= maxIterations
        invariant |centroids| == k
        invariant final.centroids == Iterate(pts, centroids, k, maxIterations - iteration, convergenceThreshold).centroids
        invariant iteration < maxIterations ==>
          final.groups == Iterate(pts, centroids, k, maxIterations - iteration, convergenceThreshold).groups
        invariant iteration == maxIterations && maxIterations > 0 ==> clusters == final.groups
        invariant iteration == 0 ==> clusters == old(clusters)
      {
        clusters := AssignClusters(pts, centroids);
        var next := UpdateCentroids(clusters);
        var converged := HasConverged(centroids, next);
        if converged {
          break;
        }
        centroids := next;
        iteration := iteration + 1;
      }
    }

    /** The final labelling of fit: each record's nearest centroid, stored
        under its customer id. */
    method LabelRecords(data: seq<Customer>, pts: seq<Point>, cs: seq<Point>) returns (labels: map<int, nat>)
      requires |pts| == |data|
      ensures labels == Labels(data, pts, cs)
    {
      labels := map[];
      var i := 0;
      while i < |data|
        invariant 0 <= i <= |data|
        invariant labels == Labels(data[..i], pts[..i], cs)
      {
        var cluster, _ := NearestCentroid(pts[i], cs);
        assert data[..i + 1][..i] == data[..i] && pts[..i + 1][..i] == pts[..i];
        labels := labels[data[i].id := cluster];
        i := i + 1;
      }
      assert data[..|data|] == data && pts[..|data|] == pts;
    }

    /** fit: normalize, seed, iterate, then label every record with its
        nearest centroid, keyed by customer id. */
    method Fit(data: seq<Customer>, sds: Point, first: nat, draws: seq<real>) returns (r: Result<map<int, nat>>)
      requires k >= 1 && |draws| == k - 1 && DrawsInUnit(draws)
      requires |data| > 0 ==> first < |data| && AreStdDevs(sds, data)
      modifies this
      ensures r.Err? <==> |data| == 0
      ensures r.Err? ==> centroids == old(centroids) && clusters == old(clusters)
      ensures r.Ok? ==>
        var pts := Normalized(data, sds);
        var seeds := Seeds(pts, first, draws);
        && |seeds| == k
        && var o := Iterate(pts, seeds, k, maxIterations, convergenceThreshold);
        && centroids == o.centroids
        && clusters == (if maxIterations > 0 then o.groups else old(clusters))
        && r.value == Labels(data, pts, o.centroids)
      ensures r.Ok? ==> r.value.Keys == IdSet(data)
      ensures r.Ok? ==> forall id :: id in r.value ==> r.value[id] < k
    {
      if |data| == 0 {
        return Err(EmptyInput);
      }
      var pts := NormalizeData(data, sds);
      centroids := InitializeCentroids(pts, first, draws);
      Iterations(pts);
      var labels := LabelRecords(data, pts, centroids);
      LabelsKeys(data, pts, centroids);
      LabelsInRange(data, pts, centroids);
      return Ok(labels);
    }
  }
}
