/** The numeric parts of the standalone `flora_detection/geo_cnn.py`: capped patch
    extraction with an overlap-derived stride, the placeholder prediction, the
    positive-pixel health summary and the date-range flowering table. */
module GeoCnnLegacy {
  import opened Wrappers
  import opened Grids
  import opened Spectral
  import opened Tiling
  import opened Vegetation
  import GeoCnn

  /** The ten patch channels of this copy: as in the backend, but ending in swir_nir_ratio. */
  const LegacyChannels: seq<Channel> := [Blue, Green, Red, RedEdge, Nir, Swir1, Ndvi, Evi, Msavi, SwirNirRatio]

  /** The two copies agree on the first nine channels and differ in the tenth. */
  lemma ChannelOrdersDiffer()
    ensures |LegacyChannels| == |GeoCnn.BackendChannels| == 10
    ensures LegacyChannels[..9] == GeoCnn.BackendChannels[..9]
    ensures LegacyChannels[9] == SwirNirRatio && GeoCnn.BackendChannels[9] == Ci
    ensures Ci !in LegacyChannels && SwirNirRatio !in GeoCnn.BackendChannels
  {
  }

  function LegacyStack(b: BandSet, roots: Grid): (st: seq<Grid>)
    requires Computable(b, roots)
    ensures |st| == 10 && GeoCnn.Layers(st, Height(b), Width(b))
    ensures st[9] == SpectralIndices(b, roots).swirNirRatio
  {
    Stack(b, SpectralIndices(b, roots), LegacyChannels)
  }

  /** A channels x p x p patch, channels first (this copy does not transpose). */
  type PatchCF = seq<seq<seq<real>>>

  /** `feature_stack[:, y:y+p, x:x+p]`. */
  function PatchCFAt(stack: seq<Grid>, h: nat, w: nat, o: (int, int), p: nat): (q: PatchCF)
    requires GeoCnn.Layers(stack, h, w) && Inside(o, h, w, p)
    ensures |q| == |stack|
    ensures forall c, dy, dx :: 0 <= c < |stack| && 0 <= dy < p && 0 <= dx < p ==>
      |q[c]| == p && |q[c][dy]| == p && q[c][dy][dx] == stack[c][o.0 + dy][o.1 + dx]
  {
    seq(|stack|, c requires 0 <= c < |stack| =>
      seq(p, dy requires 0 <= dy < p =>
        seq(p, dx requires 0 <= dx < p => stack[c][o.0 + dy][o.1 + dx])))
  }

  /** The patches of all windows, in row-major window order, before any cap. */
  function AllPatches(stack: seq<Grid>, h: nat, w: nat, p: nat, s: int): (ps: seq<PatchCF>)
    requires GeoCnn.Layers(stack, h, w) && s > 0
    ensures |ps| == |GridOffsets(h, w, p, s)|
    ensures forall k :: 0 <= k < |ps| ==>
      Inside(GridOffsets(h, w, p, s)[k], h, w, p) && ps[k] == PatchCFAt(stack, h, w, GridOffsets(h, w, p, s)[k], p)
  {
    var offs := GridOffsets(h, w, p, s);
    GridOffsetsInBounds(h, w, p, s);
    seq(|offs|, k requires 0 <= k < |offs| => PatchCFAt(stack, h, w, offs[k], p))
  }

  /** Window (a, b) of the row-major walk is patch number a * nj + b. */
  lemma AllPatchesAt(stack: seq<Grid>, h: nat, w: nat, p: nat, s: int, a: nat, b: nat)
    requires GeoCnn.Layers(stack, h, w) && s > 0
    requires a < |RangeStep(0, h - p + 1, s)| && b < |RangeStep(0, w - p + 1, s)|
    ensures var rows, cols := RangeStep(0, h - p + 1, s), RangeStep(0, w - p + 1, s);
      var all := AllPatches(stack, h, w, p, s);
      a * |cols| + b < |all| && Inside((rows[a], cols[b]), h, w, p) &&
      all[a * |cols| + b] == PatchCFAt(stack, h, w, (rows[a], cols[b]), p)
  {
    PairsAt(RangeStep(0, h - p + 1, s), RangeStep(0, w - p + 1, s), a, b);
  }

  /** `int(patch_size * (1 - overlap))`: the product truncated toward zero; the defaults,
      64-pixel patches with overlap 0.5, give stride 32. */
  function Stride(p: int, overlap: real): (s: int)
    ensures p as real * (1.0 - overlap) >= 0.0 ==> 0 <= s && s as real <= p as real * (1.0 - overlap) < s as real + 1.0
    ensures p as real * (1.0 - overlap) < 0.0 ==> s <= 0 && s as real - 1.0 < p as real * (1.0 - overlap)
    ensures p == 64 && overlap == 0.5 ==> s == 32
  {
    assert p == 64 && overlap == 0.5 ==> p as real * (1.0 - overlap) == 32.0;
    Trunc(p as real * (1.0 - overlap))
  }

  /** How many patches the capped loop returns out of `total`: one is appended before the
      cap is first checked, so a cap below 1 still yields one patch. */
  function CappedCount(maxPatches: int, total: nat): (n: nat)
    ensures n <= total
    ensures total > 0 && maxPatches >= 1 ==> n == Min(maxPatches as real, total as real) as int
    ensures total > 0 && maxPatches < 1 ==> n == 1
    ensures total == 0 ==> n == 0
  {
    if total == 0 then 0
    else if maxPatches <= 1 then 1
    else if maxPatches < total then maxPatches
    else total
  }

  /** Standalone `prepare_sentinel_data` on extracted bands: the stride comes from the overlap,
      and the window walk stops once `maxPatches` patches are collected. */
  method PrepareSentinelData(b: BandSet, roots: Grid, p: nat, overlap: real, maxPatches: int)
    returns (r: Result<seq<PatchCF>, string>)
    requires Computable(b, roots) && Stride(p, overlap) >= 0
    ensures r.Err? <==> Stride(p, overlap) == 0
    ensures r.Ok? ==>
      var all := AllPatches(LegacyStack(b, roots), Height(b), Width(b), p, Stride(p, overlap));
      |r.value| == CappedCount(maxPatches, |all|) && r.value == all[..|r.value|]
  {
    var s := Stride(p, overlap);
    if s == 0 {
      return Err("range() arg 3 must not be zero");
    }
    var patches := CollectPatches(LegacyStack(b, roots), Height(b), Width(b), p, s, maxPatches);
    r := Ok(patches);
  }

  /** The nested window loop with its two `break`s: append each window's patch and leave both
      loops as soon as the count reaches `maxPatches`. */
  method CollectPatches(stack: seq<Grid>, h: nat, w: nat, p: nat, s: int, maxPatches: int)
    returns (patches: seq<PatchCF>)
    requires GeoCnn.Layers(stack, h, w) && s > 0
    ensures var all := AllPatches(stack, h, w, p, s);
      |patches| == CappedCount(maxPatches, |all|) && patches == all[..|patches|]
  {
    ghost var all := AllPatches(stack, h, w, p, s);
    var rows, cols := RangeStep(0, h - p + 1, s), RangeStep(0, w - p + 1, s);
    if |rows| > 0 && |cols| > 0 {
      PairsAt(rows, cols, 0, 0);
    } else {
      GridOffsetCount(h, w, p, s);
      RangeStepCount(h - p, s);
      RangeStepCount(w - p, s);
    }
    assert |all| == |rows| * |cols|;
    patches := [];
    ghost var rowStart := 0;
    var a := 0;
    while a < |rows|
      invariant 0 <= a <= |rows|
      invariant rowStart == a * |cols| && |patches| == rowStart <= |all|
      invariant patches == all[..|patches|]
      invariant |patches| == 0 || |patches| < maxPatches
    {
      var b := 0;
      while b < |cols|
        invariant 0 <= b <= |cols|
        invariant |patches| == rowStart + b <= |all|
        invariant patches == all[..|patches|]
        invariant |patches| == 0 || |patches| < maxPatches
      {
        AllPatchesAt(stack, h, w, p, s, a, b);
        patches := patches + [PatchCFAt(stack, h, w, (rows[a], cols[b]), p)];
        b := b + 1;
        if |patches| >= maxPatches {
          break;
        }
      }
      if |patches| >= maxPatches {
        break;
      }
      assert (a + 1) * |cols| == a * |cols| + |cols|;
      rowStart := rowStart + |cols|;
      a := a + 1;
    }
  }

  /** Standalone `predict_image`: the patches are prepared with the defaults and classified,
      but the returned map is all zeros of the image shape whatever the classifier says. */
  method PredictImage(b: BandSet, roots: Grid, classify: PatchCF -> nat) returns (prediction: seq<seq<int>>)
    requires Computable(b, roots)
    ensures IsGrid(prediction, Height(b), Width(b))
    ensures forall y, x :: 0 <= y < Height(b) && 0 <= x < Width(b) ==> prediction[y][x] == 0
  {
    var patches := PrepareSentinelData(b, roots, 64, 0.5, 1000);
    var classes := if patches.Ok? then seq(|patches.value|, k requires 0 <= k < |patches.value| => classify(patches.value[k])) else [];
    prediction := Constant(Height(b), Width(b), 0);
  }

  // ---------------------------------------------------------------- vegetation health

  /** The standalone health summary: category percentages of the positive pixels and their mean. */
  datatype LegacyHealth = LegacyHealth(shares: HealthShares, averageNdvi: real)

  predicate Positive(x: real)
  {
    x > 0.0
  }

  /** Standalone `calculate_vegetation_health`: every count is divided by the number of pixels
      with ndvi > 0, and values above 1 stay in the data. `None` stands for the result whose
      entries are all NaN, which is what numpy gives when no pixel is positive. */
  function VegetationHealth(ndvi: Grid): (r: Option<LegacyHealth>)
    ensures r.None? <==> forall x :: x in Flatten(ndvi) ==> x <= 0.0
    ensures r.Some? ==> SharesInRange(r.value.shares) && ShareSum(r.value.shares) == 100.0
    ensures r.Some? ==> r.value.averageNdvi > 0.0
    ensures r.Some? ==> var pos := Filter(Flatten(ndvi), Positive);
      r.value.shares == Shares(pos) && r.value.averageNdvi == Mean(pos)
  {
    var pos := Filter(Flatten(ndvi), Positive);
    if |pos| == 0 then None
    else
      assert MinOf(pos) in pos && Positive(MinOf(pos));
      assert pos[0] in pos && pos[0] in Flatten(ndvi) && Positive(pos[0]);
      MeanBetweenMinMax(pos);
      Some(LegacyHealth(Shares(pos), Mean(pos)))
  }

  /** A pixel above 1 is not discarded: it makes the exceptional share positive. */
  lemma AboveOneIsExceptional(ndvi: Grid, v: real)
    requires v in Flatten(ndvi) && v > 1.0
    ensures VegetationHealth(ndvi).Some? && VegetationHealth(ndvi).value.shares.exceptional > 0.0
  {
    var pos := Filter(Flatten(ndvi), Positive);
    assert v in pos;
    var i :| 0 <= i < |pos| && pos[i] == v;
    BucketCountPositive(pos, i);
    PercentPositive(BucketCount(pos, 4), |pos|);
  }

  // ---------------------------------------------------------------- flowering stage

  datatype LegacySeason = Spring | Summer | Fall | Winter

  datatype LegacyStage = Vegetative | Early | Peak | End

  datatype LegacyStageInfo = LegacyStageInfo(stage: LegacyStage, floweringPercent: int)

  datatype LegacyFlowering = LegacyFlowering(season: Option<LegacySeason>, speciesStage: map<Species, LegacyStageInfo>)

  /** Date (m1, d1) is not later than (m2, d2) within one year. */
  predicate NotAfter(m1: int, d1: int, m2: int, d2: int)
  {
    m1 < m2 || (m1 == m2 && d1 <= d2)
  }

  /** The season table in dictionary order: name, first day and last day, all in the date's year. */
  const SeasonRanges: seq<(LegacySeason, (int, int), (int, int))> :=
    [(Spring, (3, 21), (6, 20)), (Summer, (6, 21), (9, 22)), (Fall, (9, 23), (12, 20)), (Winter, (12, 21), (3, 20))]

  predicate InRange(e: (LegacySeason, (int, int), (int, int)), month: int, day: int)
  {
    NotAfter(e.1.0, e.1.1, month, day) && NotAfter(month, day, e.2.0, e.2.1)
  }

  /** The first range containing the date, if any. */
  function FirstMatch(ranges: seq<(LegacySeason, (int, int), (int, int))>, month: int, day: int): Option<LegacySeason>
  {
    if ranges == [] then None
    else if InRange(ranges[0], month, day) then Some(ranges[0].0)
    else FirstMatch(ranges[1..], month, day)
  }

  /** The season of a date: the first matching range, else winter from December on, else none. */
  function SeasonOf(month: int, day: int): Option<LegacySeason>
  {
    var m := FirstMatch(SeasonRanges, month, day);
    if m.None? && month >= 12 then Some(Winter) else m
  }

  /** The season scan of `estimate_flowering_stage`: stop at the first range that holds the
      date, then fall back to winter for December. */
  method CurrentSeason(month: int, day: int) returns (season: Option<LegacySeason>)
    ensures season == SeasonOf(month, day)
  {
    season := None;
    var k := 0;
    while k < |SeasonRanges|
      invariant 0 <= k <= |SeasonRanges|
      invariant season.None?
      invariant FirstMatch(SeasonRanges, month, day) == FirstMatch(SeasonRanges[k..], month, day)
    {
      var (name, start, end) := SeasonRanges[k];
      if NotAfter(start.0, start.1, month, day) && NotAfter(month, day, end.0, end.1) {
        season := Some(name);
        break;
      }
      assert SeasonRanges[k..][1..] == SeasonRanges[k + 1..];
      k := k + 1;
    }
    if season.None? && month >= 12 {
      season := Some(Winter);
    }
  }

  /** The seasons as calendar ranges: Mar 21-Jun 20 spring, Jun 21-Sep 22 summer, Sep 23-Dec 20
      fall, Dec 21-31 winter; Jan 1-Mar 20 matches no range because winter's start lies after
      its end, so it has no season. */
  lemma SeasonCalendar(month: int, day: int)
    requires 1 <= month <= 12 && 1 <= day <= 31
    ensures SeasonOf(month, day) == Some(Spring) <==> NotAfter(3, 21, month, day) && NotAfter(month, day, 6, 20)
    ensures SeasonOf(month, day) == Some(Summer) <==> NotAfter(6, 21, month, day) && NotAfter(month, day, 9, 22)
    ensures SeasonOf(month, day) == Some(Fall) <==> NotAfter(9, 23, month, day) && NotAfter(month, day, 12, 20)
    ensures SeasonOf(month, day) == Some(Winter) <==> NotAfter(12, 21, month, day)
    ensures SeasonOf(month, day).None? <==> NotAfter(month, day, 3, 20)
  {
    var r := SeasonRanges;
    assert r[1..] == [(Summer, (6, 21), (9, 22)), (Fall, (9, 23), (12, 20)), (Winter, (12, 21), (3, 20))];
    assert r[1..][1..] == [(Fall, (9, 23), (12, 20)), (Winter, (12, 21), (3, 20))];
    assert r[1..][1..][1..] == [(Winter, (12, 21), (3, 20))];
    assert r[1..][1..][1..][1..] == [];
    assert !InRange(r[3], month, day);
    assert FirstMatch(r[1..][1..][1..], month, day) == None;
    assert FirstMatch(r[1..][1..], month, day) == if InRange(r[2], month, day) then Some(Fall) else None;
    assert FirstMatch(r[1..], month, day) ==
      if InRange(r[1], month, day) then Some(Summer) else FirstMatch(r[1..][1..], month, day);
  }

  function StageTable(sp: Species, season: LegacySeason): LegacyStage
  {
    match (sp, season)
    case (Rosemary, Spring) => Peak
    case (Rosemary, Summer) => End
    case (Rosemary, Fall) => Vegetative
    case (Rosemary, Winter) => Early
    case (Heather, Spring) => Vegetative
    case (Heather, Summer) => Early
    case (Heather, Fall) => Peak
    case (Heather, Winter) => End
    case (Eucalyptus, Spring) => Early
    case (Eucalyptus, Summer) => Peak
    case (Eucalyptus, Fall) => End
    case (Eucalyptus, Winter) => Vegetative
  }

  /** The flowering percentage of each stage. */
  function StagePercent(stage: LegacyStage): int
  {
    match stage
    case Vegetative => 0
    case Early => 30
    case Peak => 100
    case End => 50
  }

  /** The `species_stage` comprehension: an entry per species whose table has the current
      season, so none when there is no season. */
  function SpeciesStages(season: Option<LegacySeason>): (m: map<Species, LegacyStageInfo>)
    ensures season.None? ==> m == map[]
    ensures season.Some? ==> m.Keys == {Rosemary, Heather, Eucalyptus}
    ensures season.Some? ==> forall sp :: sp in m ==>
      m[sp].stage == StageTable(sp, season.value) && m[sp].floweringPercent == StagePercent(m[sp].stage)
  {
    if season.None? then map[] else
    map sp: Species | sp in {Rosemary, Heather, Eucalyptus} ::
      LegacyStageInfo(StageTable(sp, season.value), StagePercent(StageTable(sp, season.value)))
  }

  /** Standalone `estimate_flowering_stage` for a date (month, day); the NDVI and EVI arrays
      are accepted and not read. */
  method EstimateFloweringStage(ndvi: Grid, evi: Grid, month: int, day: int) returns (f: LegacyFlowering)
    ensures f.season == SeasonOf(month, day)
    ensures f.speciesStage == SpeciesStages(f.season)
  {
    var season := CurrentSeason(month, day);
    f := LegacyFlowering(season, SpeciesStages(season));
  }
}
