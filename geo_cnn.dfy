/** The numeric parts of the backend `flora_detection/geo_cnn.py`: patch extraction and
    stitching around an abstract classifier, the vegetation-health summary and the
    month-based flowering table. */
module GeoCnn {
  import opened Wrappers
  import opened Grids
  import opened Spectral
  import opened Tiling
  import opened Vegetation

  /** The ten patch channels of this copy: the six bands, then ndvi, evi, msavi and ci. */
  const BackendChannels: seq<Channel> := [Blue, Green, Red, RedEdge, Nir, Swir1, Ndvi, Evi, Msavi, Ci]

  /** A p x p x channels patch, channels last. */
  type Patch = seq<seq<seq<real>>>

  /** Every layer of the stack is an h x w grid. */
  predicate Layers(stack: seq<Grid>, h: nat, w: nat)
  {
    forall c :: 0 <= c < |stack| ==> IsGrid(stack[c], h, w)
  }

  /** The channel stack of an image. */
  function BackendStack(b: BandSet, roots: Grid): (st: seq<Grid>)
    requires Computable(b, roots)
    ensures |st| == 10 && Layers(st, Height(b), Width(b))
    ensures st[9] == SpectralIndices(b, roots).ci && st[6] == SpectralIndices(b, roots).ndvi
  {
    Stack(b, SpectralIndices(b, roots), BackendChannels)
  }

  /** `feature_stack[:, i:i+p, j:j+p]` moved to channels-last order. */
  function PatchAt(stack: seq<Grid>, h: nat, w: nat, o: (int, int), p: nat): (q: Patch)
    requires Layers(stack, h, w) && Inside(o, h, w, p)
    ensures |q| == p
    ensures forall di, dj, c :: 0 <= di < p && 0 <= dj < p && 0 <= c < |stack| ==>
      |q[di]| == p && |q[di][dj]| == |stack| && q[di][dj][c] == stack[c][o.0 + di][o.1 + dj]
  {
    seq(p, di requires 0 <= di < p =>
      seq(p, dj requires 0 <= dj < p =>
        seq(|stack|, c requires 0 <= c < |stack| => stack[c][o.0 + di][o.1 + dj])))
  }

  /** The patches of all windows, in the order of `GridOffsets`. */
  function WindowPatches(stack: seq<Grid>, h: nat, w: nat, p: nat, s: int): (ps: seq<Patch>)
    requires Layers(stack, h, w) && s > 0
    ensures |ps| == |GridOffsets(h, w, p, s)|
    ensures forall k :: 0 <= k < |ps| ==>
      Inside(GridOffsets(h, w, p, s)[k], h, w, p) && ps[k] == PatchAt(stack, h, w, GridOffsets(h, w, p, s)[k], p)
  {
    var offs := GridOffsets(h, w, p, s);
    GridOffsetsInBounds(h, w, p, s);
    seq(|offs|, k requires 0 <= k < |offs| => PatchAt(stack, h, w, offs[k], p))
  }

  /** The patch loop of `prepare_sentinel_data` and `predict_image`: for every row offset and
      then every column offset, append the window and its offset. */
  method ExtractPatches(stack: seq<Grid>, h: nat, w: nat, p: nat, s: int)
    returns (patches: seq<Patch>, offsets: seq<(int, int)>)
    requires Layers(stack, h, w) && s > 0
    ensures offsets == GridOffsets(h, w, p, s)
    ensures patches == WindowPatches(stack, h, w, p, s)
  {
    var rows, cols := RangeStep(0, h - p + 1, s), RangeStep(0, w - p + 1, s);
    RangeStepElements(0, h - p + 1, s);
    RangeStepElements(0, w - p + 1, s);
    patches, offsets := [], [];
    var a := 0;
    while a < |rows|
      invariant 0 <= a <= |rows|
      invariant offsets == Pairs(rows[..a], cols)
      invariant |patches| == |offsets|
      invariant forall k :: 0 <= k < |offsets| ==>
        Inside(offsets[k], h, w, p) && patches[k] == PatchAt(stack, h, w, offsets[k], p)
    {
      var b := 0;
      while b < |cols|
        invariant 0 <= b <= |cols|
        invariant offsets == Pairs(rows[..a], cols) + Row(rows[a], cols[..b])
        invariant |patches| == |offsets|
        invariant forall k :: 0 <= k < |offsets| ==>
          Inside(offsets[k], h, w, p) && patches[k] == PatchAt(stack, h, w, offsets[k], p)
      {
        var i, j := rows[a], cols[b];
        patches := patches + [PatchAt(stack, h, w, (i, j), p)];
        offsets := offsets + [(i, j)];
        assert Row(rows[a], cols[..b + 1]) == Row(rows[a], cols[..b]) + [(i, j)];
        b := b + 1;
      }
      assert cols[..b] == cols;
      PairsExtend(rows, cols, a);
      a := a + 1;
    }
    assert rows[..a] == rows;
  }

  /** Backend `prepare_sentinel_data` on extracted bands: the patches of every window, failing
      for a zero stride (`range`) and when no window fits (`np.transpose` of an empty array). */
  method PrepareSentinelData(b: BandSet, roots: Grid, p: nat, s: int) returns (r: Result<seq<Patch>, string>)
    requires Computable(b, roots) && s >= 0
    ensures r.Err? <==> s == 0 || |GridOffsets(Height(b), Width(b), p, s)| == 0
    ensures r.Ok? ==> r.value == WindowPatches(BackendStack(b, roots), Height(b), Width(b), p, s)
  {
    if s == 0 {
      return Err("range() arg 3 must not be zero");
    }
    var patches, offsets := ExtractPatches(BackendStack(b, roots), Height(b), Width(b), p, s);
    if |patches| == 0 {
      return Err("axes don't match array");
    }
    r := Ok(patches);
  }

  /** The argmax class the classifier assigns to each patch. */
  function PatchClasses(patches: seq<Patch>, classify: Patch -> nat): (cs: seq<int>)
    ensures |cs| == |patches|
  {
    seq(|patches|, k requires 0 <= k < |patches| => classify(patches[k]) as int)
  }

  /** Backend `predict_image` on extracted bands: tile, classify every patch with `classify`
      and stitch the classes into an h x w map. */
  method PredictImage(b: BandSet, roots: Grid, p: nat, s: int, classify: Patch -> nat, numClasses: nat)
    returns (r: Result<array2<int>, string>)
    requires Computable(b, roots) && p > 0 && s >= 0
    requires forall q :: classify(q) < numClasses
    ensures r.Err? <==> s == 0 || |GridOffsets(Height(b), Width(b), p, s)| == 0
    ensures r.Ok? ==> r.value.Length0 == Height(b) && r.value.Length1 == Width(b)
    ensures r.Ok? ==> forall y, x :: 0 <= y < Height(b) && 0 <= x < Width(b) ==>
      var ps := WindowPatches(BackendStack(b, roots), Height(b), Width(b), p, s);
      r.value[y, x] == StitchedAt(GridOffsets(Height(b), Width(b), p, s), PatchClasses(ps, classify), p, y, x, |ps|) &&
      0 <= r.value[y, x] < numClasses
  {
    if s == 0 {
      return Err("range() arg 3 must not be zero");
    }
    var h, w := Height(b), Width(b);
    var patches, offsets := ExtractPatches(BackendStack(b, roots), h, w, p, s);
    if |patches| == 0 {
      return Err("axes don't match array");
    }
    var classes := PatchClasses(patches, classify);
    var output := Stitch(offsets, classes, h, w, p);
    assert classify(patches[0]) < numClasses;
    forall y, x | 0 <= y < h && 0 <= x < w
      ensures 0 <= StitchedAt(offsets, classes, p, y, x, |offsets|) < numClasses
    {
      StitchedInRange(offsets, classes, p, y, x, numClasses);
    }
    r := Ok(output);
  }

  // ---------------------------------------------------------------- vegetation health

  /** The summary of `calculate_vegetation_health` (median and standard deviation left out). */
  datatype HealthMetrics = HealthMetrics(minNdvi: real, maxNdvi: real, averageNdvi: real, shares: HealthShares)

  predicate ValidNdvi(x: real)
  {
    -1.0 <= x <= 1.0
  }

  /** Keep the values in [-1, 1]; report min, max, mean and the category percentages of those.
      `np.min` fails when no value is kept. */
  function VegetationHealth(ndvi: Grid): (r: Result<HealthMetrics, string>)
    ensures r.Err? <==> forall x :: x in Flatten(ndvi) ==> !ValidNdvi(x)
    ensures r.Ok? ==> -1.0 <= r.value.minNdvi <= r.value.averageNdvi <= r.value.maxNdvi <= 1.0
    ensures r.Ok? ==> r.value.minNdvi in Flatten(ndvi) && r.value.maxNdvi in Flatten(ndvi)
    ensures r.Ok? ==> forall x :: x in Flatten(ndvi) && ValidNdvi(x) ==> r.value.minNdvi <= x <= r.value.maxNdvi
    ensures r.Ok? ==> SharesInRange(r.value.shares) && ShareSum(r.value.shares) == 100.0
    ensures r.Ok? ==> var valid := Filter(Flatten(ndvi), ValidNdvi);
      r.value.shares == Shares(valid) && r.value.averageNdvi == Mean(valid)
  {
    var valid := Filter(Flatten(ndvi), ValidNdvi);
    if |valid| == 0 then
      Err("zero-size array to reduction operation minimum which has no identity")
    else
      assert valid[0] in valid;
      MeanBetweenMinMax(valid);
      Ok(HealthMetrics(MinOf(valid), MaxOf(valid), Mean(valid), Shares(valid)))
  }

  // ---------------------------------------------------------------- flowering stage

  datatype Season = Spring | Summer | Autumn | Winter

  datatype Stage = Peak | Early | Late | Post | Dormant | Pre

  datatype StageInfo = StageInfo(stage: Stage, floweringPercent: int)

  /** The result of `estimate_flowering_stage`; an average is `None` where numpy gives NaN
      (no value in [-1, 1]). */
  datatype FloweringInfo = FloweringInfo(season: Season, averageNdvi: Option<real>, averageEvi: Option<real>,
                                         speciesStage: map<Species, StageInfo>)

  /** Meteorological seasons by month. */
  function SeasonOfMonth(month: int): Season
  {
    if 3 <= month <= 5 then Spring
    else if 6 <= month <= 8 then Summer
    else if 9 <= month <= 11 then Autumn
    else Winter
  }

  /** The mean of the values in [-1, 1]; `None` (NaN) when there are none. */
  function MeanValid(g: Grid): (m: Option<real>)
    ensures m.None? <==> forall x :: x in Flatten(g) ==> !ValidNdvi(x)
    ensures m.Some? ==> -1.0 <= m.value <= 1.0
    ensures m.Some? ==> m.value == Mean(Filter(Flatten(g), ValidNdvi))
  {
    var valid := Filter(Flatten(g), ValidNdvi);
    if |valid| == 0 then None
    else
      assert forall k :: 0 <= k < |valid| ==> valid[k] in valid;
      MeanBetween(valid, -1.0, 1.0);
      Some(Mean(valid))
  }

  /** `avg > t` in Python: false when the average is NaN. */
  predicate Above(avg: Option<real>, t: real)
  {
    avg.Some? && avg.value > t
  }

  /** The per-species, per-season table. */
  function StageTable(sp: Species, season: Season, month: int, avgNdvi: Option<real>): StageInfo
  {
    match sp
    case Rosemary =>
      (match season
       case Spring => if Above(avgNdvi, 0.5) then StageInfo(Peak, 80) else StageInfo(Early, 40)
       case Summer => if Above(avgNdvi, 0.4) then StageInfo(Late, 30) else StageInfo(Post, 10)
       case Autumn => StageInfo(Dormant, 0)
       case Winter => if month == 2 && Above(avgNdvi, 0.3) then StageInfo(Pre, 5) else StageInfo(Dormant, 0))
    case Heather =>
      (match season
       case Spring => StageInfo(Pre, 10)
       case Summer => if month == 8 then StageInfo(Early, 30) else StageInfo(Pre, 10)
       case Autumn => if month == 9 then StageInfo(Peak, 80) else StageInfo(Late, 40)
       case Winter => StageInfo(Dormant, 0))
    case Eucalyptus =>
      (match season
       case Spring => StageInfo(Dormant, 0)
       case Summer => StageInfo(Dormant, 0)
       case Autumn => if month == 11 then StageInfo(Pre, 10) else StageInfo(Dormant, 0)
       case Winter => if month == 12 || month == 1 then StageInfo(Peak, 70) else StageInfo(Late, 30))
  }

  /** In every table entry the percentage is 0 exactly for the dormant stage, and never above 80. */
  lemma StageTableConsistent(sp: Species, season: Season, month: int, avgNdvi: Option<real>)
    ensures var e := StageTable(sp, season, month, avgNdvi);
      (e.floweringPercent == 0 <==> e.stage == Dormant) && 0 <= e.floweringPercent <= 80
  {
  }

  /** `estimate_flowering_stage` for a date in month `month` (1..12). */
  function EstimateFloweringStage(ndvi: Grid, evi: Grid, month: int): (f: FloweringInfo)
    requires 1 <= month <= 12
    ensures f.season == Spring <==> 3 <= month <= 5
    ensures f.season == Summer <==> 6 <= month <= 8
    ensures f.season == Autumn <==> 9 <= month <= 11
    ensures f.season == Winter <==> month == 12 || month <= 2
    ensures f.speciesStage.Keys == {Rosemary, Heather, Eucalyptus}
    ensures f.averageNdvi == MeanValid(ndvi) && f.averageEvi == MeanValid(evi)
    ensures forall sp :: sp in f.speciesStage ==> f.speciesStage[sp] == StageTable(sp, f.season, month, f.averageNdvi)
  {
    var season := SeasonOfMonth(month);
    var avgNdvi := MeanValid(ndvi);
    FloweringInfo(season, avgNdvi, MeanValid(evi),
      map[Rosemary := StageTable(Rosemary, season, month, avgNdvi),
          Heather := StageTable(Heather, season, month, avgNdvi),
          Eucalyptus := StageTable(Eucalyptus, season, month, avgNdvi)])
  }

  /** Heather and eucalyptus do not depend on the NDVI array; only rosemary does. */
  lemma OnlyRosemaryReadsNdvi(ndvi1: Grid, ndvi2: Grid, evi: Grid, month: int)
    requires 1 <= month <= 12
    ensures EstimateFloweringStage(ndvi1, evi, month).speciesStage[Heather] ==
            EstimateFloweringStage(ndvi2, evi, month).speciesStage[Heather]
    ensures EstimateFloweringStage(ndvi1, evi, month).speciesStage[Eucalyptus] ==
            EstimateFloweringStage(ndvi2, evi, month).speciesStage[Eucalyptus]
  {
  }

  /** The rosemary entry does depend on the NDVI: in April it is peak with a dense canopy and
      early without one. */
  lemma RosemaryFollowsNdvi(dense: Grid, sparse: Grid, evi: Grid)
    requires Above(MeanValid(dense), 0.5) && !Above(MeanValid(sparse), 0.5)
    ensures EstimateFloweringStage(dense, evi, 4).speciesStage[Rosemary] == StageInfo(Peak, 80)
    ensures EstimateFloweringStage(sparse, evi, 4).speciesStage[Rosemary] == StageInfo(Early, 40)
  {
  }

  /** September is autumn: rosemary is dormant at 0 % and heather is at its 80 % peak. */
  lemma September(ndvi: Grid, evi: Grid)
    ensures var f := EstimateFloweringStage(ndvi, evi, 9);
      f.season == Autumn && f.speciesStage[Rosemary] == StageInfo(Dormant, 0) &&
      f.speciesStage[Heather] == StageInfo(Peak, 80)
  {
  }
}
