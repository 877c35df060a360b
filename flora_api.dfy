/** The arithmetic of the flora HTTP handlers in `backend/python/flora_detection/api.py`:
    the request gate of the area analysis, its flora distribution and sub-scores, and the
    coverage statistics of the detection endpoint. */
module FloraApi {
  import opened Wrappers
  import opened Grids
  import opened Vegetation
  import opened GeoCnn

  // ---------------------------------------------------------------- request gate

  datatype RejectReason = MissingInput | UnsupportedType | TooLarge | Failure

  /** What the handler does with a request: answer with an error status, or go on to fetch
      the satellite image for an area of `hectares`. */
  datatype Gate = Reject(status: int, reason: RejectReason) | Proceed(hectares: real)

  predicate Present<T>(x: Option<seq<T>>)
  {
    x.Some? && |x.value| > 0
  }

  /** Request validation and the size limit. `areaM2` stands for building the polygon and
      measuring it, which may raise; a raise there is answered with status 500. */
  function GateRequest(areaType: Option<string>, coordinates: Option<seq<(real, real)>>,
                       areaM2: seq<(real, real)> -> Result<real, string>): (g: Gate)
    ensures g == Reject(400, MissingInput) <==> !Present(areaType) || !Present(coordinates)
    ensures g == Reject(400, UnsupportedType) <==>
      Present(areaType) && Present(coordinates) && areaType.value != "polygon" && areaType.value != "rectangle"
    ensures g.Proceed? <==>
      Present(areaType) && Present(coordinates) && areaType.value in {"polygon", "rectangle"} &&
      areaM2(coordinates.value).Ok? && areaM2(coordinates.value).value / 10000.0 <= 1000.0
    ensures g.Proceed? ==> g.hectares == areaM2(coordinates.value).value / 10000.0 && g.hectares <= 1000.0
    ensures g == Reject(500, Failure) <==>
      Present(areaType) && Present(coordinates) && areaType.value in {"polygon", "rectangle"} &&
      areaM2(coordinates.value).Err?
    ensures g == Reject(400, TooLarge) <==>
      Present(areaType) && Present(coordinates) && areaType.value in {"polygon", "rectangle"} &&
      areaM2(coordinates.value).Ok? && areaM2(coordinates.value).value / 10000.0 > 1000.0
    ensures g.Reject? ==> g.status == 400 || g == Reject(500, Failure)
  {
    if !Present(areaType) || !Present(coordinates) then Reject(400, MissingInput)
    else if areaType.value != "polygon" && areaType.value != "rectangle" then Reject(400, UnsupportedType)
    else
      var m2 := areaM2(coordinates.value);
      if m2.Err? then Reject(500, Failure)
      else
        var hectares := m2.value / 10000.0;
        if hectares > 1000.0 then Reject(400, TooLarge) else Proceed(hectares)
  }

  // ---------------------------------------------------------------- flora distribution

  /** Species percentages derived from the health categories, plus the remainder. */
  datatype FloraDistribution = FloraDistribution(species: map<Species, real>, other: real)

  function SpeciesShareSum(d: FloraDistribution): real
    requires Rosemary in d.species && Heather in d.species && Eucalyptus in d.species
  {
    d.species[Rosemary] + d.species[Heather] + d.species[Eucalyptus]
  }

  /** Rosemary 0.8 x healthy, heather 0.6 x very healthy, eucalyptus 0.3 x moderate; the rest
      is "other", so the four entries add up to 100. With health shares in [0, 100] that sum to
      100, every species entry is non-negative and "other" is at least 20. */
  function Distribute(sh: HealthShares): (d: FloraDistribution)
    ensures d.species.Keys == {Rosemary, Heather, Eucalyptus}
    ensures SpeciesShareSum(d) + d.other == 100.0
    ensures SharesInRange(sh) && ShareSum(sh) == 100.0 ==>
      d.species[Rosemary] >= 0.0 && d.species[Heather] >= 0.0 && d.species[Eucalyptus] >= 0.0 &&
      SpeciesShareSum(d) <= 80.0 && d.other >= 20.0
  {
    FloraDistribution(
      map[Rosemary := sh.healthy * 0.8, Heather := sh.veryHealthy * 0.6, Eucalyptus := sh.moderate * 0.3],
      100.0 - (sh.healthy * 0.8 + sh.veryHealthy * 0.6 + sh.moderate * 0.3))
  }

  // ---------------------------------------------------------------- sub-scores

  /** `min(95, max(30, average_ndvi * 100))`. */
  function BeekeepingSuitability(averageNdvi: real): (s: real)
    ensures 30.0 <= s <= 95.0
    ensures averageNdvi * 100.0 < 30.0 ==> s == 30.0
    ensures averageNdvi * 100.0 > 95.0 ==> s == 95.0
    ensures 30.0 <= averageNdvi * 100.0 <= 95.0 ==> s == averageNdvi * 100.0
  {
    Min(95.0, Max(30.0, averageNdvi * 100.0))
  }

  const WaterAvailability: real := 65.0
  const ClimateScore: real := 80.0

  /** The order in which the flowering table lists its species. */
  const SpeciesOrder: seq<Species> := [Rosemary, Heather, Eucalyptus]

  /** Sum of flowering percent x distribution share / 100 over the listed species that have a
      stage; a species without a distribution entry contributes 0. */
  function NectarSum(order: seq<Species>, stages: map<Species, StageInfo>, d: FloraDistribution): real
  {
    if order == [] then 0.0
    else
      var sp := order[|order| - 1];
      NectarSum(order[..|order| - 1], stages, d) +
        (if sp in stages then stages[sp].floweringPercent as real * GetOrDefault(d.species, sp, 0.0) / 100.0 else 0.0)
  }

  function Clamp100(x: real): (r: real)
    ensures 0.0 <= r <= 100.0
    ensures x < 0.0 ==> r == 0.0
    ensures x > 100.0 ==> r == 100.0
    ensures 0.0 <= x <= 100.0 ==> r == x
  {
    Min(100.0, Max(0.0, x))
  }

  /** The accumulation loop over the flowering table, then the clamp to [0, 100]. */
  method NectarPotential(stages: map<Species, StageInfo>, d: FloraDistribution) returns (nectar: real)
    ensures nectar == Clamp100(NectarSum(SpeciesOrder, stages, d))
    ensures 0.0 <= nectar <= 100.0
  {
    nectar := 0.0;
    var k := 0;
    while k < |SpeciesOrder|
      invariant 0 <= k <= |SpeciesOrder|
      invariant nectar == NectarSum(SpeciesOrder[..k], stages, d)
    {
      var sp := SpeciesOrder[k];
      assert SpeciesOrder[..k + 1][..k] == SpeciesOrder[..k];
      if sp in stages {
        nectar := nectar + stages[sp].floweringPercent as real * GetOrDefault(d.species, sp, 0.0) / 100.0;
      }
      k := k + 1;
    }
    assert SpeciesOrder[..k] == SpeciesOrder;
    nectar := Clamp100(nectar);
  }

  /** With percentages in [0, 80] and non-negative shares whose total is at most 80, the
      nectar sum lies in [0, 64]: the clamp never acts on the backend's own figures. */
  lemma {:induction false} NectarSumBounds(order: seq<Species>, stages: map<Species, StageInfo>, d: FloraDistribution)
    requires forall sp :: sp in stages ==> 0 <= stages[sp].floweringPercent <= 80
    requires forall sp :: sp in d.species ==> d.species[sp] >= 0.0
    ensures 0.0 <= NectarSum(order, stages, d) <= 0.8 * SharesOf(order, d)
  {
    if order != [] {
      var rest, sp := order[..|order| - 1], order[|order| - 1];
      var share := GetOrDefault(d.species, sp, 0.0);
      assert share >= 0.0;
      NectarSumBounds(rest, stages, d);
      var before, shares := NectarSum(rest, stages, d), SharesOf(rest, d);
      assert SharesOf(order, d) == shares + share;
      var term := if sp in stages then stages[sp].floweringPercent as real * share / 100.0 else 0.0;
      assert NectarSum(order, stages, d) == before + term;
      if sp in stages {
        ProductBound(stages[sp].floweringPercent as real, share);
      }
      assert 0.0 <= term <= 0.8 * share;
      assert 0.8 * SharesOf(order, d) == 0.8 * shares + 0.8 * share;
    }
  }

  /** The total distribution share of the listed species. */
  function SharesOf(order: seq<Species>, d: FloraDistribution): real
  {
    if order == [] then 0.0 else SharesOf(order[..|order| - 1], d) + GetOrDefault(d.species, order[|order| - 1], 0.0)
  }

  lemma ProductBound(percent: real, share: real)
    requires 0.0 <= percent <= 80.0 && share >= 0.0
    ensures 0.0 <= percent * share / 100.0 <= 0.8 * share
  {
    assert percent * share <= 80.0 * share;
  }

  /** `int(...)` of the weighted overall score; with a beekeeping score in [30, 95] and a nectar
      potential in [0, 100] it lies in [41, 87]. */
  function OverallScore(beekeeping: real, nectar: real): (score: int)
    ensures 30.0 <= beekeeping <= 95.0 && 0.0 <= nectar <= 100.0 ==> 41 <= score <= 87
  {
    Trunc(0.4 * beekeeping + 0.2 * WaterAvailability + 0.2 * ClimateScore + 0.2 * nectar)
  }

  /** The summary block of the area analysis. */
  datatype AreaScores = AreaScores(flora: FloraDistribution, beekeeping: real, water: real, climate: real,
                                   nectar: real, overall: int)

  /** The scoring after the health metrics and flowering stages are known. The flowering
      record is never empty, so the 50-point nectar default is never used. */
  method ScoreArea(health: HealthMetrics, flowering: FloweringInfo) returns (s: AreaScores)
    ensures s.flora == Distribute(health.shares)
    ensures s.beekeeping == BeekeepingSuitability(health.averageNdvi)
    ensures s.water == 65.0 && s.climate == 80.0
    ensures s.nectar == Clamp100(NectarSum(SpeciesOrder, flowering.speciesStage, s.flora))
    ensures s.overall == OverallScore(s.beekeeping, s.nectar) && 41 <= s.overall <= 87
  {
    var flora := Distribute(health.shares);
    var beekeeping := BeekeepingSuitability(health.averageNdvi);
    var nectar := NectarPotential(flowering.speciesStage, flora);
    s := AreaScores(flora, beekeeping, WaterAvailability, ClimateScore, nectar, OverallScore(beekeeping, nectar));
  }

  /** Every flowering percentage of the backend table lies in [0, 80]. */
  lemma FloweringPercentsBounded(ndvi: Grid, evi: Grid, month: int)
    requires 1 <= month <= 12
    ensures var stages := EstimateFloweringStage(ndvi, evi, month).speciesStage;
      forall sp :: sp in stages ==> 0 <= stages[sp].floweringPercent <= 80
  {
    var f := EstimateFloweringStage(ndvi, evi, month);
    forall sp | sp in f.speciesStage
      ensures 0 <= f.speciesStage[sp].floweringPercent <= 80
    {
      StageTableConsistent(sp, f.season, month, f.averageNdvi);
    }
  }

  /** For health shares as `calculate_vegetation_health` reports them and percentages as the
      flowering table gives them, the nectar sum is at most 64, so the clamp never acts. */
  lemma NectarNeedsNoClamp(sh: HealthShares, stages: map<Species, StageInfo>)
    requires SharesInRange(sh) && ShareSum(sh) == 100.0
    requires forall sp :: sp in stages ==> 0 <= stages[sp].floweringPercent <= 80
    ensures var raw := NectarSum(SpeciesOrder, stages, Distribute(sh));
      0.0 <= raw <= 64.0 && Clamp100(raw) == raw
  {
    var d := Distribute(sh);
    NectarSumBounds(SpeciesOrder, stages, d);
    assert SharesOf(SpeciesOrder, d) == SpeciesShareSum(d) by {
      assert SpeciesOrder[..2] == [Rosemary, Heather];
      assert [Rosemary, Heather][..1] == [Rosemary];
      assert [Rosemary][..0] == [];
      assert SharesOf([Rosemary], d) == d.species[Rosemary];
      assert SharesOf([Rosemary, Heather], d) == d.species[Rosemary] + d.species[Heather];
    }
  }

  // ---------------------------------------------------------------- coverage statistics

  /** Number of pixels of class `c`. */
  function Occurrences(v: seq<int>, c: int): (n: nat)
    ensures n <= |v|
  {
    if v == [] then 0 else Occurrences(v[..|v| - 1], c) + (if v[|v| - 1] == c then 1 else 0)
  }

  lemma {:induction false} OccurrencesPositive(v: seq<int>, c: int)
    ensures Occurrences(v, c) > 0 <==> c in v
  {
    if v != [] {
      OccurrencesPositive(v[..|v| - 1], c);
      assert c in v <==> c in v[..|v| - 1] || c == v[|v| - 1] by {
        assert v == v[..|v| - 1] + [v[|v| - 1]];
      }
    }
  }

  /** `dict(zip(*np.unique(v, return_counts=True)))`: each class present to its pixel count. */
  function Histogram(v: seq<int>): (m: map<int, nat>)
    ensures forall c :: c in m <==> c in v
    ensures forall c :: c in m ==> m[c] == Occurrences(v, c)
  {
    if v == [] then map[]
    else
      var prefix, x := v[..|v| - 1], v[|v| - 1];
      assert v == prefix + [x];
      var m := Histogram(prefix);
      forall c ensures c !in m ==> Occurrences(prefix, c) == 0 {
        OccurrencesPositive(prefix, c);
      }
      m[x := GetOrDefault(m, x, 0) + 1]
  }

  /** The classes present, in order of first appearance, each once. */
  function Classes(v: seq<int>): (cs: seq<int>)
    ensures forall c :: c in cs <==> c in v
    ensures forall i, j :: 0 <= i < j < |cs| ==> cs[i] != cs[j]
  {
    if v == [] then []
    else
      var prefix, x := v[..|v| - 1], v[|v| - 1];
      assert v == prefix + [x];
      var cs := Classes(prefix);
      if x in prefix then cs else cs + [x]
  }

  /** The sum of the counts of `m` over the listed classes. */
  function SumCounts(m: map<int, nat>, cs: seq<int>): int
    requires forall c :: c in cs ==> c in m
  {
    if cs == [] then 0
    else
      var last := cs[|cs| - 1];
      assert last in cs;
      assert forall c :: c in cs[..|cs| - 1] ==> c in cs;
      SumCounts(m, cs[..|cs| - 1]) + m[last]
  }

  /** Changing one count changes the sum over distinct classes by the difference, when the
      class is listed, and not at all otherwise. */
  lemma {:induction false} SumCountsUpdate(m: map<int, nat>, cs: seq<int>, x: int, n: nat)
    requires forall c :: c in cs ==> c in m
    requires x in m
    requires forall i, j :: 0 <= i < j < |cs| ==> cs[i] != cs[j]
    ensures SumCounts(m[x := n], cs) == SumCounts(m, cs) + (if x in cs then n - m[x] else 0)
  {
    if cs != [] {
      var init, last := cs[..|cs| - 1], cs[|cs| - 1];
      assert cs == init + [last];
      SumCountsUpdate(m, init, x, n);
      assert x in cs <==> x in init || x == last;
      assert last == x ==> x !in init;
    }
  }

  /** Adding a key that is not listed leaves the sum over the listed classes unchanged. */
  lemma {:induction false} SumCountsExtend(m: map<int, nat>, cs: seq<int>, x: int, n: nat)
    requires forall c :: c in cs ==> c in m
    requires x !in cs
    ensures SumCounts(m[x := n], cs) == SumCounts(m, cs)
  {
    if cs != [] {
      SumCountsExtend(m, cs[..|cs| - 1], x, n);
    }
  }

  /** The class counts of the histogram add up to the number of pixels. */
  lemma {:induction false} HistogramTotal(v: seq<int>)
    ensures SumCounts(Histogram(v), Classes(v)) == |v|
  {
    if v != [] {
      var prefix, x := v[..|v| - 1], v[|v| - 1];
      var m, cs := Histogram(prefix), Classes(prefix);
      HistogramTotal(prefix);
      HistogramStep(v);
      CountStep(m, cs, x, |prefix|);
    }
  }

  lemma HistogramStep(v: seq<int>)
    requires v != []
    ensures var prefix, x := v[..|v| - 1], v[|v| - 1];
      Histogram(v) == Histogram(prefix)[x := GetOrDefault(Histogram(prefix), x, 0) + 1] &&
      Classes(v) == (if x in Classes(prefix) then Classes(prefix) else Classes(prefix) + [x])
  {
    assert v == v[..|v| - 1] + [v[|v| - 1]];
  }

  lemma CountStep(m: map<int, nat>, cs: seq<int>, x: int, n: nat)
    requires forall c :: c in m <==> c in cs
    requires forall i, j :: 0 <= i < j < |cs| ==> cs[i] != cs[j]
    requires SumCounts(m, cs) == n
    ensures var m' := m[x := GetOrDefault(m, x, 0) + 1];
      var cs' := if x in cs then cs else cs + [x];
      (forall c :: c in cs' ==> c in m') && SumCounts(m', cs') == n + 1
  {
    if x in cs {
      SumCountsUpdate(m, cs, x, m[x] + 1);
    } else {
      SumCountsExtend(m, cs, x, 1);
      assert (cs + [x])[..|cs|] == cs;
    }
  }

  /** Looking up a class in the histogram, with 0 for an absent class, gives its count. */
  lemma HistogramLookup(v: seq<int>, c: int)
    ensures GetOrDefault(Histogram(v), c, 0) == Occurrences(v, c)
  {
    OccurrencesPositive(v, c);
  }

  /** The `stats` block of the detection response. */
  datatype CoverageStats = CoverageStats(coveragePercent: real, classDistribution: map<int, nat>)

  /** The statistics of a detection flattened to its pixels. */
  function PixelStats(pixels: seq<int>): (s: CoverageStats)
    ensures 0.0 <= s.coveragePercent <= 100.0
    ensures s.classDistribution == Histogram(pixels)
    ensures forall c :: c in s.classDistribution <==> c in Classes(pixels)
    ensures SumCounts(s.classDistribution, Classes(pixels)) == |pixels|
    ensures |pixels| == 0 ==> s.coveragePercent == 0.0
    ensures |pixels| > 0 ==> s.coveragePercent == Percent(Occurrences(pixels, 1), |pixels|)
  {
    var stats := Histogram(pixels);
    HistogramTotal(pixels);
    var rosemary := GetOrDefault(stats, 1, 0);
    HistogramLookup(pixels, 1);
    if |pixels| > 0 then
      PercentBounds(rosemary, |pixels|);
      CoverageStats(Percent(rosemary, |pixels|), stats)
    else CoverageStats(0.0, stats)
  }

  /** Percentage of class-1 (rosemary) pixels and the per-class histogram; both are empty
      when there is no detection, and the percentage is 0 for an empty grid. */
  function Coverage(detection: Option<seq<seq<int>>>): (s: CoverageStats)
    ensures 0.0 <= s.coveragePercent <= 100.0
    ensures detection.None? ==> s == CoverageStats(0.0, map[])
    ensures detection.Some? ==> s == PixelStats(Flatten(detection.value))
  {
    match detection
    case None => CoverageStats(0.0, map[])
    case Some(grid) => PixelStats(Flatten(grid))
  }
}
