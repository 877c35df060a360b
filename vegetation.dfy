/** Notions shared by both copies of `geo_cnn.py`: the three tracked species and the NDVI
    health categories with their percentages. */
module Vegetation {
  import opened Grids

  /** The species whose flowering is tracked, in the order both copies list them. */
  datatype Species = Rosemary | Heather | Eucalyptus

  /** NDVI health category by the thresholds 0.2, 0.4, 0.6 and 0.8:
      0 unhealthy, 1 moderate, 2 healthy, 3 very healthy, 4 exceptional. */
  function HealthBucket(x: real): (k: nat)
    ensures k < 5
    ensures k == 0 <==> x < 0.2
    ensures k == 1 <==> 0.2 <= x < 0.4
    ensures k == 2 <==> 0.4 <= x < 0.6
    ensures k == 3 <==> 0.6 <= x < 0.8
    ensures k == 4 <==> 0.8 <= x
  {
    if x < 0.2 then 0 else if x < 0.4 then 1 else if x < 0.6 then 2 else if x < 0.8 then 3 else 4
  }

  /** Number of values of `v` in category `k`. */
  function BucketCount(v: seq<real>, k: nat): (n: nat)
    ensures n <= |v|
  {
    if v == [] then 0
    else BucketCount(v[..|v| - 1], k) + (if HealthBucket(v[|v| - 1]) == k then 1 else 0)
  }

  /** The five categories partition the values: their counts add up to the number of values. */
  lemma {:induction false} BucketsPartition(v: seq<real>)
    ensures BucketCount(v, 0) + BucketCount(v, 1) + BucketCount(v, 2) + BucketCount(v, 3) + BucketCount(v, 4) == |v|
  {
    if v != [] {
      BucketsPartition(v[..|v| - 1]);
    }
  }

  /** A value of `v` makes its own category non-empty. */
  lemma {:induction false} BucketCountPositive(v: seq<real>, i: nat)
    requires i < |v|
    ensures BucketCount(v, HealthBucket(v[i])) > 0
  {
    if i < |v| - 1 {
      assert v[..|v| - 1][i] == v[i];
      BucketCountPositive(v[..|v| - 1], i);
    }
  }

  /** count / total * 100. */
  function Percent(count: nat, total: nat): real
    requires total > 0
  {
    count as real / total as real * 100.0
  }

  lemma PercentBounds(count: nat, total: nat)
    requires 0 < total && count <= total
    ensures 0.0 <= Percent(count, total) <= 100.0
  {
    var q := count as real / total as real;
    assert q * total as real == count as real;
    NonNegativeFactor(q, total as real);
    assert (1.0 - q) * total as real == total as real - count as real;
    NonNegativeFactor(1.0 - q, total as real);
  }

  /** The percentage is the share of the count in the total, scaled to 100. */
  lemma PercentScales(count: nat, total: nat)
    requires total > 0
    ensures Percent(count, total) * total as real == 100.0 * count as real
  {
    var q := count as real / total as real;
    assert q * total as real == count as real;
  }

  lemma PercentPositive(count: nat, total: nat)
    requires 0 < count <= total
    ensures Percent(count, total) > 0.0
  {
    var q := count as real / total as real;
    assert q * total as real == count as real;
  }

  lemma PercentsAdd(c0: nat, c1: nat, c2: nat, c3: nat, c4: nat, total: nat)
    requires total > 0 && c0 + c1 + c2 + c3 + c4 == total
    ensures Percent(c0, total) + Percent(c1, total) + Percent(c2, total) + Percent(c3, total) + Percent(c4, total) == 100.0
  {
    var t := total as real;
    assert Percent(c0, total) == c0 as real * (100.0 / t);
    assert Percent(c1, total) == c1 as real * (100.0 / t);
    assert Percent(c2, total) == c2 as real * (100.0 / t);
    assert Percent(c3, total) == c3 as real * (100.0 / t);
    assert Percent(c4, total) == c4 as real * (100.0 / t);
    assert (c0 + c1 + c2 + c3 + c4) as real * (100.0 / t) == t * (100.0 / t);
  }

  /** The five category percentages of a health summary. */
  datatype HealthShares = HealthShares(unhealthy: real, moderate: real, healthy: real, veryHealthy: real, exceptional: real)

  function ShareSum(sh: HealthShares): real
  {
    sh.unhealthy + sh.moderate + sh.healthy + sh.veryHealthy + sh.exceptional
  }

  predicate SharesInRange(sh: HealthShares)
  {
    0.0 <= sh.unhealthy <= 100.0 && 0.0 <= sh.moderate <= 100.0 && 0.0 <= sh.healthy <= 100.0 &&
    0.0 <= sh.veryHealthy <= 100.0 && 0.0 <= sh.exceptional <= 100.0
  }

  /** Category percentages of a non-empty list of values: each in [0, 100], summing to 100. */
  function Shares(v: seq<real>): (sh: HealthShares)
    requires |v| > 0
    ensures SharesInRange(sh) && ShareSum(sh) == 100.0
    ensures sh.unhealthy == Percent(BucketCount(v, 0), |v|) && sh.moderate == Percent(BucketCount(v, 1), |v|) &&
            sh.healthy == Percent(BucketCount(v, 2), |v|) && sh.veryHealthy == Percent(BucketCount(v, 3), |v|) &&
            sh.exceptional == Percent(BucketCount(v, 4), |v|)
  {
    BucketsPartition(v);
    PercentBounds(BucketCount(v, 0), |v|);
    PercentBounds(BucketCount(v, 1), |v|);
    PercentBounds(BucketCount(v, 2), |v|);
    PercentBounds(BucketCount(v, 3), |v|);
    PercentBounds(BucketCount(v, 4), |v|);
    PercentsAdd(BucketCount(v, 0), BucketCount(v, 1), BucketCount(v, 2), BucketCount(v, 3), BucketCount(v, 4), |v|);
    HealthShares(Percent(BucketCount(v, 0), |v|), Percent(BucketCount(v, 1), |v|), Percent(BucketCount(v, 2), |v|),
      Percent(BucketCount(v, 3), |v|), Percent(BucketCount(v, 4), |v|))
  }
}
