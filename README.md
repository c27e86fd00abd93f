# K-means customer segmentation, modelled in Dafny

This project models the clustering core of a PHP customer-segmentation
dashboard and proves properties of that model.

The core is run_clustering.php:

- `KMeansClustering`:
  - z-score normalisation;
  - k-means++ seeding;
  - nearest-centroid assignment;
  - centroid update;
  - the convergence test;
  - the `fit` loop with its final labelling by customer id.
- The rule-based cluster labelling:
  - the age, income and spending category words;
  - the cluster name;
  - the first-match business recommendations.
- The in-memory grouping half of `calculateClusterStatistics`.

Three small helpers from the repository are modelled beside it:

- the clamped min-max `normalizeData` of test/NormalizationTest.php;
- the accumulator loop of `euclideanDistance` in test/DistanceTest.php, with the expected distances of its cases and of test/ClusteringTest.php;
- the descriptive cluster label chosen in api.php.

Modules:

- `Numeric`: sums, mean, variance and the arithmetic lemmas they need.
- `Distance`: the index-loop squared distance of test/DistanceTest.php.
- `MinMax`: the clamped min-max scaling of test/NormalizationTest.php.
- `KMeansSpec`: pure definitions of what each step of the engine computes, with the properties proved about them.
- `KMeans`: the `KMeansClustering` class.
  - Its fields are `k`, `maxIterations`, `convergenceThreshold`, `centroids` and `clusters`.
  - Its methods are the source's loops.
  - Each method is proved to compute the `KMeansSpec` value.
  - `Fit` updates `centroids` and `clusters` as the source does.
- `Segments`: the category words, the cluster name and the recommendations.
- `ClusterStatistics`: grouping labelled customers by cluster.
- `ApiLabel`: the api.php label chain.

Numbers are modelled as follows:

- Features are Dafny `real`s.
- Distances are compared squared. `sqrt` is strictly monotone on non-negative numbers, so the source's tests on distances keep their outcome:
  - `sqrt(a) < sqrt(b)` becomes `a < b`;
  - `sqrt(a) > t` becomes `t < 0 or a > t * t`.
- The running minimum starts at `PHP_FLOAT_MAX`. It is modelled as "no candidate yet", so the first centroid is always taken. With real features every distance is finite, so that is what the source does.

## Model

| member | source | states |
|---|---|---|
| Distance.EuclideanSquared | test/DistanceTest.php:8-14 | the accumulator loop returns the sum of squared coordinate differences over the first point's length; that sum is non-negative |
| Distance.NonNegative | test/DistanceTest.php:10-12 | the squared distance is never negative |
| Distance.Symmetric | test/DistanceTest.php:10-12 | swapping the two points gives the same distance |
| Distance.ZeroIffEqual | test/DistanceTest.php:10-12 | for points of equal length, the distance is zero exactly when the points are equal |
| Distance.ThreeFourFive | test/DistanceTest.php:25-30 | (0,0)-(3,4) has squared distance 25, the square of 5 |
| Distance.HorizontalOnly | test/DistanceTest.php:31-36 | (1,5)-(4,5) has squared distance 9, the square of 3 |
| Distance.VerticalOnly | test/DistanceTest.php:37-42 | (2,2)-(2,10) has squared distance 64, the square of 8 |
| Distance.ThirtyFortyFifty | test/ClusteringTest.php:8-16 | (100,100)-(130,140) has squared distance 2500, the square of 50 |
| Distance.UnitSquareDiagonal | test/DistanceTest.php:43-48 | (0,0)-(1,1) has squared distance 2, whose root lies between 1.4142 and 1.4143 |
| MinMax.Clamp | test/NormalizationTest.php:18 | `max(0, min(1, x))` lies in [0,1], is x inside [0,1], 0 below and 1 above |
| MinMax.NormalizeData | test/NormalizationTest.php:8-19 | the result always lies in [0,1]; max == min gives 0 whatever the value |
| MinMax.InRange | test/NormalizationTest.php:15-18 | inside [min,max] the result is the unclamped (value-min)/(max-min) |
| MinMax.OutOfRange | test/NormalizationTest.php:15-18 | below min gives 0, above max gives 1 |
| MinMax.Endpoints | test/NormalizationTest.php:10-18 | min maps to 0 and max maps to 1 whenever min != max |
| MinMax.RoundTrip | test/NormalizationTest.php:15 | inside the range, min + result*(max-min) gives back the value |
| MinMax.Monotone | test/NormalizationTest.php:15-18 | for min < max, a larger value never gets a smaller result |
| MinMax.TestCases | test/NormalizationTest.php:24-50 | the five listed cases give 0.5, 0, 1, 0 and 0.5 |
| KMeansSpec.SqDistIsLoopDistance | run_clustering.php:84-90 | the three-feature distance equals the index-loop distance over the feature vectors |
| KMeansSpec.SqDistFacts | run_clustering.php:84-90 | the distance is non-negative, symmetric, and zero exactly for equal points |
| KMeansSpec.NearestIsNearest | run_clustering.php:140-149 | the scan's choice is at least as near as every centroid and strictly nearer than every earlier one, so ties go to the lowest index |
| KMeansSpec.NearestIsUnique | run_clustering.php:140-149 | at most one index satisfies that description |
| KMeansSpec.MembersAreNearest | run_clustering.php:136-155 | every point in cluster j is an input point whose nearest centroid is j |
| KMeansSpec.AssignPartitions | run_clustering.php:136-155 | the k clusters together hold every input point exactly as many times as it occurs, so their sizes add up to the number of points |
| KMeansSpec.GroupsPartition | run_clustering.php:137-152 | grouping points by labels below k partitions the multiset of points |
| KMeansSpec.AssignmentMinimizesCost | run_clustering.php:136-155 | no other labelling of the points with the same centroids has a smaller total squared distance |
| KMeansSpec.MeanBalances | run_clustering.php:170-174 | deviations from the mean of a non-empty column sum to zero |
| KMeansSpec.MeanOfConstant | run_clustering.php:171-173 | the mean of a constant column is that constant |
| KMeansSpec.MeanOfSingleton | run_clustering.php:170-174 | a one-point cluster's centroid is that point |
| KMeansSpec.ConvergedIffAllClose | run_clustering.php:185-193 | converged holds exactly when no old/new centroid pair among the first k is farther apart than the threshold |
| KMeansSpec.IdenticalConverges | run_clustering.php:185-193 | unchanged centroids always count as converged when the threshold is non-negative |
| KMeansSpec.NegativeThresholdNeverConverges | run_clustering.php:188 | with a negative threshold and k > 0, no pair of centroid lists is converged |
| KMeansSpec.OneFarPairDefeats | run_clustering.php:186-190 | one pair farther apart than the threshold prevents convergence |
| KMeansSpec.Iterate | run_clustering.php:206-220 | the loop keeps k centroids and runs at most maxIterations rounds; it reports convergence only after at least one round, and otherwise uses every round |
| KMeansSpec.IterateStopsConverged | run_clustering.php:214-219 | when the loop stops on convergence, the kept centroids are the pre-update ones, and updating them again would move none farther than the threshold |
| KMeansSpec.FixedPointStopsAtOnce | run_clustering.php:206-220 | centroids that the update leaves unchanged stop the loop in its first round with those same centroids |
| KMeansSpec.WeightsNonNegative | run_clustering.php:106-115 | every squared minimum distance used as a seeding weight is non-negative |
| KMeansSpec.Select | run_clustering.php:119-127 | the selection returns the first index whose running sum reaches the draw, or nothing when no running sum does |
| KMeansSpec.SelectFinds | run_clustering.php:117-127 | a draw no larger than the total always selects an index |
| KMeansSpec.SelectedHasWeight | run_clustering.php:121-126 | with a positive draw, the selected point has positive weight |
| KMeansSpec.TargetBounds | run_clustering.php:117-118 | the scaled draw lies between 0 and the total, and is positive for a positive draw and total |
| KMeansSpec.SeedsFromInput | run_clustering.php:95-131 | every seed is one of the input points |
| KMeansSpec.SeedsCount | run_clustering.php:103-128 | with draws in [0,1], seeding yields exactly one centroid per draw plus the first |
| KMeansSpec.NewSeedIsFresh | run_clustering.php:103-127 | with a positive draw and a positive total, a seed is always selected and it differs from every current centroid |
| KMeansSpec.NormalizedIsCentred | run_clustering.php:50-79 | each normalised feature column sums to zero |
| KMeansSpec.NormalizedHasUnitVariance | run_clustering.php:50-79 | each normalised feature column whose standard deviation is not zero has population variance 1 |
| KMeansSpec.UnitVariance | run_clustering.php:57-73 | dividing a column's deviations from its mean by its non-zero standard deviation gives values of variance 1 |
| Numeric.SumSquaredStandardize | run_clustering.php:60-73 | dividing every deviation by d divides the sum of their squares by d squared |
| KMeansSpec.ZeroSpreadGivesZeros | run_clustering.php:63-73 | a zero standard deviation divides by 1 (`?: 1`) and makes every value of that column 0 |
| KMeansSpec.NormalizedColumns | run_clustering.php:68-76 | each column of the normalised records is that feature's column shifted by its mean and divided by its standard deviation, or by 1 when that is 0 |
| KMeansSpec.ZeroSpreadNormalizesToZero | run_clustering.php:63-76 | a feature with standard deviation 0 is 0 in every normalised record |
| KMeansSpec.Divisor | run_clustering.php:73 | the divisor is never zero |
| KMeansSpec.LabelsKeys | run_clustering.php:223-237 | the labels are keyed by exactly the customer ids of the input |
| KMeansSpec.LabelsInRange | run_clustering.php:224-236 | every label is a centroid index |
| KMeansSpec.LabelsLastWins | run_clustering.php:236 | for a repeated id, the last record with it decides its label |
| KMeans.NearestCentroid | run_clustering.php:140-149 | the running-minimum loop with a strict `<` returns the nearest centroid (first on ties) and its squared distance |
| KMeans.ColumnVariance | run_clustering.php:57-63 | the loops compute the column mean and the population variance |
| KMeans.MinDistances | run_clustering.php:106-115 | the loop computes every point's squared distance to its nearest chosen centroid |
| KMeans.SelectIndex | run_clustering.php:119-127 | the cumulative scan with early break finds an index exactly when the selection does, and the same index |
| KMeans.KMeansClustering.constructor | run_clustering.php:41-45 | stores k, the iteration bound and the threshold (defaults 5, 300 and 0.0001); centroids and clusters start empty |
| KMeans.KMeansClustering.NormalizeData | run_clustering.php:50-79 | the loops compute the z-scores of all three features, dividing by 1 for a zero spread |
| KMeans.KMeansClustering.InitializeCentroids | run_clustering.php:95-131 | seeding yields the specified seeds, exactly k of them |
| KMeans.KMeansClustering.AssignClusters | run_clustering.php:136-155 | appending each point to its nearest centroid's cluster yields the specified k clusters |
| KMeans.KMeansClustering.UpdateCentroids | run_clustering.php:160-180 | each cluster's mean, or the current centroid at that position when the cluster is empty |
| KMeans.KMeansClustering.HasConverged | run_clustering.php:185-193 | the early-return loop answers the convergence test over the first k centroids |
| KMeans.KMeansClustering.Iterations | run_clustering.php:206-220 | the fields end as the specified iteration leaves them; clusters stay unchanged when maxIterations is 0 |
| KMeans.KMeansClustering.LabelRecords | run_clustering.php:223-239 | the labelling loop builds the specified id-to-cluster map |
| KMeans.KMeansClustering.Fit | run_clustering.php:198-240 | empty data is an error that changes nothing; otherwise it normalises, seeds exactly k centroids, iterates, and labels every input id with a cluster below k, using the pre-update centroids on convergence |
| Segments.AgeCategory | run_clustering.php:247-252 | each of the four words is returned exactly on its half-open band (<30, <45, <60, rest) |
| Segments.IncomeCategory | run_clustering.php:254-259 | each word exactly on its band (<30000, <50000, <70000, rest) |
| Segments.SpendingCategory | run_clustering.php:261-266 | each word exactly on its band (<1500, <2500, <3500, rest) |
| Segments.AgeCategoryMonotone | run_clustering.php:247-252 | the result is one of the four age words, and a larger age never gets an earlier word |
| Segments.IncomeCategoryMonotone | run_clustering.php:254-259 | the same for income |
| Segments.SpendingCategoryMonotone | run_clustering.php:261-266 | the same for spending |
| Segments.ClusterName | run_clustering.php:268-272 | the name is the income word, the age word and the spending word joined by single spaces, so it holds exactly two spaces |
| Segments.ClusterNameDeterminesCategories | run_clustering.php:268-272 | the name determines its three category words, so equal names mean equal categories |
| Segments.Branch | run_clustering.php:296-343 | first match wins: each of the high-value, untapped, young, middle-aged and senior branches fires exactly when its own test holds and every earlier test fails |
| Segments.AgeBranchesCover | run_clustering.php:310-345 | the three age tests cover every age, so neither the income < 40000 branch nor the final else ever fires |
| Segments.HighIncomeBoundary | run_clustering.php:254-306 | income exactly 70000 is named "High-Income" but never takes a high-income branch |
| Segments.HighIncomeIgnoresAge | run_clustering.php:296-309 | when a high-income test holds, the age has no effect |
| Segments.Recommendations | run_clustering.php:288-346 | the text is the firing branch's four entries, in order, joined by "; " |
| Segments.ImplodeSeparators | run_clustering.php:345 | joining n semicolon-free entries with "; " leaves exactly n-1 semicolons |
| ClusterStatistics.MembersDisjoint | run_clustering.php:373-375 | the customers selected for two different clusters are disjoint |
| ClusterStatistics.RangeSplits | run_clustering.php:371-375 | the customers labelled in [lo,k) are those of cluster lo plus, disjointly, those labelled in [lo+1,k) |
| ClusterStatistics.SummaryWellFormed | run_clustering.php:371-428 | every emitted entry is non-empty, lies in [0,k) and holds exactly its cluster's ids, and cluster ids strictly increase |
| ClusterStatistics.SummaryComplete | run_clustering.php:371-379 | every cluster below k with at least one labelled customer is emitted |
| ClusterStatistics.SummaryPartitions | run_clustering.php:371-424 | each labelled customer with a label in range is in exactly one entry, the one for its own label |
| ClusterStatistics.SummaryCounts | run_clustering.php:371-379 | the entries' sizes add up to the number of customers labelled in [0,k) |
| ClusterStatistics.CountsCoverAllLabels | run_clustering.php:371-379 | when every label is below k, as fit produces them, the sizes add up to the number of labels |
| ClusterStatistics.GroupByCluster | run_clustering.php:368-429 | the loop emits the specified entries: non-empty, in [0,k), strictly increasing, with sizes summing to the labelled count |
| ApiLabel.DescriptiveLabel | api.php:28-31 | each label is characterised in both directions: spend > 30000 for High-Spenders; spend <= 30000, income > 70000 and spend < 10000 for Frugal; spend < 5000 without the frugal test for Budget; otherwise Standard |
| ApiLabel.LabelIsOneOfFour | api.php:28-31 | every row gets one of the four labels |
| ApiLabel.FrugalShadowsBudget | api.php:30-31 | income > 70000 with spend < 5000 is Frugal, not Budget |
| ApiLabel.HighSpendIgnoresIncome | api.php:29 | spend above 30000 gives the same label whatever the income |

## Left out

- Database I/O is not modelled:
  - `extractCustomerData` and `updateDatabase`;
  - the SQL aggregates and dominant gender and region of `calculateClusterStatistics` (run_clustering.php:352-366, 382-422, 431-493);
  - db.php;
  - the PDO query and JSON output of api.php.
- `generateClusterDescription` (sprintf and number_format text) is not modelled.
- Randomness is taken as input:
  - `array_rand` is the index `first`;
  - each `mt_rand()/mt_getrandmax()` is one entry of `draws`, assumed to lie in [0,1];
  - `srand(RANDOM_SEED)` is not modelled.
- `sqrt` is not computed over Dafny reals.
  - Distances are compared squared.
  - `KMeans.KMeansClustering.NormalizeData` and `Fit` take the three standard deviations as an input, with the requirement that each is the non-negative square root of its column's population variance.
  - The loops still compute each mean and variance.
- Floating point is not modelled:
  - rounding error;
  - `INF`/`NaN`;
  - `PHP_FLOAT_MAX` as a number;
  - `ROUND(...)` in SQL;
  - PHP's `round` in the tests.
- Convergence reporting is not modelled: the "Converged after n iterations" echo and other console output.
- `KMeans.KMeansClustering.Fit` requires k >= 1 and exactly k-1 draws.
  - The source never validates k. k = 0 would still seed one centroid.
- `KMeans.KMeansClustering.Fit` models empty data as `Err(EmptyInput)` because the source divides by a zero count.
- `KMeansSpec.Labels` is a map, so it does not record the insertion order of PHP's labels array. Order affects only the SQL `IN` lists.
- `Distance.EuclideanSquared` requires the second point to be at least as long as the first. PHP would read a missing coordinate as null.
- `ClusterStatistics.GroupByCluster` returns each cluster's ids as a set. `array_keys` gives a list in the labels' order.
- `Segments.Recommendations` states the four-entry shape. The entries' literal texts are too long for the verifier to confirm, so it does not prove that they contain no semicolons. `Segments.ImplodeSeparators` states the count for entries that have none.
- The 3-argument global `normalizeData` called by test/ClusteringTestSuite.php is not defined in run_clustering.php and is not part of this model. The PHPUnit and HTTP test harnesses are not modelled either.
