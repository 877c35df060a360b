/** Spectral indices, the per-pixel feature matrix and the rosemary detector of
    `flora_detection/utils.py`. The index and feature-stack functions are the same
    in the backend copy and in the standalone copy; only `detect_rosemary` differs. */
module Spectral {
  import opened Wrappers
  import opened Grids

  /** The six Sentinel-2 bands read from an image, as equally shaped grids. */
  datatype BandSet = BandSet(blue: Grid, green: Grid, red: Grid, redEdge: Grid, nir: Grid, swir1: Grid)

  /** The result of `create_spectral_indices`: one grid per index key. */
  datatype IndexSet = IndexSet(ndvi: Grid, evi: Grid, msavi: Grid, ci: Grid, swirNirRatio: Grid)

  /** A named raster layer: one of the six bands or one of the five indices. */
  datatype Channel = Blue | Green | Red | RedEdge | Nir | Swir1 | Ndvi | Evi | Msavi | Ci | SwirNirRatio

  function Height(b: BandSet): nat { Rows(b.blue) }
  function Width(b: BandSet): nat { Cols(b.blue) }

  /** All six bands share the shape of the blue band. */
  predicate Shaped(b: BandSet)
  {
    var h, w := Height(b), Width(b);
    IsGrid(b.blue, h, w) && IsGrid(b.green, h, w) && IsGrid(b.red, h, w) &&
    IsGrid(b.redEdge, h, w) && IsGrid(b.nir, h, w) && IsGrid(b.swir1, h, w)
  }

  predicate IndicesShaped(ix: IndexSet, h: nat, w: nat)
  {
    IsGrid(ix.ndvi, h, w) && IsGrid(ix.evi, h, w) && IsGrid(ix.msavi, h, w) &&
    IsGrid(ix.ci, h, w) && IsGrid(ix.swirNirRatio, h, w)
  }

  // ---------------------------------------------------------------- pixel formulas

  /** NDVI with the masked fallback: exactly 0 wherever nir + red <= 0. */
  function NdviPixel(nir: real, red: real): (v: real)
    ensures nir + red <= 0.0 ==> v == 0.0
    ensures nir + red > 0.0 ==> v * (nir + red) == nir - red
  {
    if nir + red > 0.0 then (nir - red) / (nir + red) else 0.0
  }

  /** For non-negative reflectances NDVI lies in [-1, 1] without any clipping. */
  lemma NdviInUnitRange(nir: real, red: real)
    requires nir >= 0.0 && red >= 0.0
    ensures -1.0 <= NdviPixel(nir, red) <= 1.0
  {
    if nir + red > 0.0 {
      var v := NdviPixel(nir, red);
      assert v * (nir + red) == nir - red;
      assert (v + 1.0) * (nir + red) == 2.0 * nir;
      assert (1.0 - v) * (nir + red) == 2.0 * red;
      NonNegativeFactor(v + 1.0, nir + red);
      NonNegativeFactor(1.0 - v, nir + red);
    }
  }

  function EviDenominator(nir: real, red: real, blue: real): real
  {
    nir + 6.0 * red - 7.5 * blue + 1.0
  }

  /** EVI = 2.5 (nir - red) / (nir + 6 red - 7.5 blue + 1), neither masked nor clipped. */
  function EviPixel(nir: real, red: real, blue: real): (v: real)
    requires EviDenominator(nir, red, blue) != 0.0
    ensures v * EviDenominator(nir, red, blue) == 2.5 * (nir - red)
  {
    2.5 * (nir - red) / EviDenominator(nir, red, blue)
  }

  /** The quantity under the square root of MSAVI. */
  function MsaviRadicand(nir: real, red: real): real
  {
    (2.0 * nir + 1.0) * (2.0 * nir + 1.0) - 8.0 * (nir - red)
  }

  /** `root` is the non-negative square root of `x`. */
  predicate IsSqrt(x: real, root: real)
  {
    root >= 0.0 && root * root == x
  }

  /** MSAVI = (2 nir + 1 - sqrt((2 nir + 1)^2 - 8 (nir - red))) / 2, given the square root. */
  function MsaviPixel(nir: real, red: real, root: real): (v: real)
    requires IsSqrt(MsaviRadicand(nir, red), root)
    ensures v <= (2.0 * nir + 1.0) / 2.0
  {
    (2.0 * nir + 1.0 - root) / 2.0
  }

  /** MSAVI is the smaller root of m^2 - (2 nir + 1) m + 2 (nir - red) = 0. */
  lemma MsaviSolvesQuadratic(nir: real, red: real, root: real)
    requires IsSqrt(MsaviRadicand(nir, red), root)
    ensures var m := MsaviPixel(nir, red, root);
            m * m - (2.0 * nir + 1.0) * m + 2.0 * (nir - red) == 0.0
  {
    var b := 2.0 * nir + 1.0;
    var m := MsaviPixel(nir, red, root);
    assert 2.0 * m == b - root;
    assert 4.0 * (m * m - b * m) == (b - root) * (b - root) - 2.0 * b * (b - root);
    assert (b - root) * (b - root) - 2.0 * b * (b - root) == root * root - b * b;
  }

  /** Chlorophyll index nir / red_edge - 1 (unguarded division). */
  function CiPixel(nir: real, redEdge: real): (v: real)
    requires redEdge != 0.0
    ensures (v + 1.0) * redEdge == nir
  {
    nir / redEdge - 1.0
  }

  /** SWIR/NIR ratio swir1 / nir (unguarded division). */
  function RatioPixel(swir1: real, nir: real): (v: real)
    requires nir != 0.0
    ensures v * nir == swir1
  {
    swir1 / nir
  }

  // ---------------------------------------------------------------- index grids

  /** Every pixel's unguarded denominators are non-zero and `roots` holds the MSAVI square roots. */
  predicate Computable(b: BandSet, roots: Grid)
  {
    Shaped(b) && IsGrid(roots, Height(b), Width(b)) &&
    forall i, j :: 0 <= i < Height(b) && 0 <= j < Width(b) ==>
      EviDenominator(b.nir[i][j], b.red[i][j], b.blue[i][j]) != 0.0 &&
      b.redEdge[i][j] != 0.0 && b.nir[i][j] != 0.0 &&
      IsSqrt(MsaviRadicand(b.nir[i][j], b.red[i][j]), roots[i][j])
  }

  /** `create_spectral_indices`: the five index grids, each of the band shape. */
  function SpectralIndices(b: BandSet, roots: Grid): (ix: IndexSet)
    requires Computable(b, roots)
    ensures IndicesShaped(ix, Height(b), Width(b))
    ensures forall i, j :: 0 <= i < Height(b) && 0 <= j < Width(b) ==>
      ix.ndvi[i][j] == NdviPixel(b.nir[i][j], b.red[i][j]) &&
      ix.evi[i][j] == EviPixel(b.nir[i][j], b.red[i][j], b.blue[i][j]) &&
      ix.msavi[i][j] == MsaviPixel(b.nir[i][j], b.red[i][j], roots[i][j]) &&
      ix.ci[i][j] == CiPixel(b.nir[i][j], b.redEdge[i][j]) &&
      ix.swirNirRatio[i][j] == RatioPixel(b.swir1[i][j], b.nir[i][j])
  {
    var h, w := Height(b), Width(b);
    IndexSet(
      seq(h, i requires 0 <= i < h => seq(w, j requires 0 <= j < w => NdviPixel(b.nir[i][j], b.red[i][j]))),
      seq(h, i requires 0 <= i < h => seq(w, j requires 0 <= j < w => EviPixel(b.nir[i][j], b.red[i][j], b.blue[i][j]))),
      seq(h, i requires 0 <= i < h => seq(w, j requires 0 <= j < w => MsaviPixel(b.nir[i][j], b.red[i][j], roots[i][j]))),
      seq(h, i requires 0 <= i < h => seq(w, j requires 0 <= j < w => CiPixel(b.nir[i][j], b.redEdge[i][j]))),
      seq(h, i requires 0 <= i < h => seq(w, j requires 0 <= j < w => RatioPixel(b.swir1[i][j], b.nir[i][j]))))
  }

  /** `calculate_ndvi`: allocate a zero array and write the ratio at every position
      where nir + red > 0, leaving exactly 0 elsewhere. */
  method CalculateNdvi(nir: Grid, red: Grid) returns (ndvi: array2<real>)
    requires IsGrid(nir, Rows(nir), Cols(nir)) && IsGrid(red, Rows(nir), Cols(nir))
    ensures ndvi.Length0 == Rows(nir) && ndvi.Length1 == Cols(nir)
    ensures forall i, j :: 0 <= i < ndvi.Length0 && 0 <= j < ndvi.Length1 ==>
      (nir[i][j] + red[i][j] <= 0.0 ==> ndvi[i, j] == 0.0) &&
      (nir[i][j] + red[i][j] > 0.0 ==> ndvi[i, j] * (nir[i][j] + red[i][j]) == nir[i][j] - red[i][j])
  {
    var h, w := Rows(nir), Cols(nir);
    ndvi := new real[h, w]((i, j) => 0.0);
    var i := 0;
    while i < h
      invariant 0 <= i <= h
      invariant forall y, x :: 0 <= y < h && 0 <= x < w ==>
        ndvi[y, x] == if y < i then NdviPixel(nir[y][x], red[y][x]) else 0.0
    {
      var j := 0;
      while j < w
        invariant 0 <= j <= w
        invariant forall y, x :: 0 <= y < h && 0 <= x < w ==>
          ndvi[y, x] == if y < i || (y == i && x < j) then NdviPixel(nir[y][x], red[y][x]) else 0.0
      {
        if nir[i][j] + red[i][j] > 0.0 {
          ndvi[i, j] := (nir[i][j] - red[i][j]) / (nir[i][j] + red[i][j]);
        }
        j := j + 1;
      }
      i := i + 1;
    }
  }

  // ---------------------------------------------------------------- feature matrix

  /** The column order of `create_feature_stack`. */
  const FeatureColumns: seq<Channel> :=
    [Blue, Green, Red, RedEdge, Nir, Swir1, Ndvi, Evi, Msavi, Ci, SwirNirRatio]

  function ChannelGrid(b: BandSet, ix: IndexSet, c: Channel): Grid
  {
    match c
    case Blue => b.blue
    case Green => b.green
    case Red => b.red
    case RedEdge => b.redEdge
    case Nir => b.nir
    case Swir1 => b.swir1
    case Ndvi => ix.ndvi
    case Evi => ix.evi
    case Msavi => ix.msavi
    case Ci => ix.ci
    case SwirNirRatio => ix.swirNirRatio
  }

  lemma ChannelGridShaped(b: BandSet, ix: IndexSet, c: Channel)
    requires Shaped(b) && IndicesShaped(ix, Height(b), Width(b))
    ensures IsGrid(ChannelGrid(b, ix, c), Height(b), Width(b))
  {
  }

/** The layers named by `chans`, stacked in that order (`np.stack(..., axis=0)`). */
  function Stack(b: BandSet, ix: IndexSet, chans: seq<Channel>): (st: seq<Grid>)
    requires Shaped(b) && IndicesShaped(ix, Height(b), Width(b))
    ensures |st| == |chans|
    ensures forall c :: 0 <= c < |st| ==> st[c] == ChannelGrid(b, ix, chans[c]) && IsGrid(st[c], Height(b), Width(b))
  {
    seq(|chans|, c requires 0 <= c < |chans| => ChannelGridShaped(b, ix, chans[c]); ChannelGrid(b, ix, chans[c]))
  }

  /** The eleven features of pixel (i, j), written out in column order. */
  function PixelFeatures(b: BandSet, ix: IndexSet, i: nat, j: nat): seq<real>
    requires Shaped(b) && IndicesShaped(ix, Height(b), Width(b))
    requires i < Height(b) && j < Width(b)
  {
    [b.blue[i][j], b.green[i][j], b.red[i][j], b.redEdge[i][j], b.nir[i][j], b.swir1[i][j],
     ix.ndvi[i][j], ix.evi[i][j], ix.msavi[i][j], ix.ci[i][j], ix.swirNirRatio[i][j]]
  }

  /** `create_feature_stack`: stack the eleven layers, reshape to (11, h*w) and transpose,
      giving one row of eleven features per pixel. */
  function FeatureStack(b: BandSet, ix: IndexSet): (rows: seq<seq<real>>)
    requires Shaped(b) && IndicesShaped(ix, Height(b), Width(b))
    ensures |rows| == Height(b) * Width(b)
    ensures forall k :: 0 <= k < |rows| ==> |rows[k]| == |FeatureColumns|
  {
    var n := Height(b) * Width(b);
    seq(n, k requires 0 <= k < n =>
      seq(|FeatureColumns|, c requires 0 <= c < |FeatureColumns| => ChannelVector(b, ix, FeatureColumns[c])[k]))
  }

  /** One layer flattened row-major (`reshape(n_features, h*w)` takes one such row per layer). */
  function ChannelVector(b: BandSet, ix: IndexSet, c: Channel): (v: seq<real>)
    requires Shaped(b) && IndicesShaped(ix, Height(b), Width(b))
    ensures |v| == Height(b) * Width(b)
  {
    ChannelGridShaped(b, ix, c);
    FlattenLength(ChannelGrid(b, ix, c), Height(b), Width(b));
    Flatten(ChannelGrid(b, ix, c))
  }

  /** Row i*w + j of the feature matrix holds the features of pixel (i, j), in the order
      blue, green, red, red_edge, nir, swir1, ndvi, evi, msavi, ci, swir_nir_ratio. */
  lemma FeatureRowAt(b: BandSet, ix: IndexSet, i: nat, j: nat)
    requires Shaped(b) && IndicesShaped(ix, Height(b), Width(b))
    requires i < Height(b) && j < Width(b)
    ensures i * Width(b) + j < |FeatureStack(b, ix)|
    ensures FeatureStack(b, ix)[i * Width(b) + j] == PixelFeatures(b, ix, i, j)
  {
    var h, w := Height(b), Width(b);
    RowMajorBound(h, w, i, j);
    var row := FeatureStack(b, ix)[i * w + j];
    var expected := PixelFeatures(b, ix, i, j);
    forall c | 0 <= c < |FeatureColumns|
      ensures row[c] == expected[c]
    {
      var g := ChannelGrid(b, ix, FeatureColumns[c]);
      ChannelGridShaped(b, ix, FeatureColumns[c]);
      FlattenShape(g, h, w, i, j);
    }
  }

  // ---------------------------------------------------------------- rosemary detection

  /** The demonstration thresholds: 0.3 < ndvi < 0.7 and 0.4 < swir/nir < 0.7. */
  predicate IsRosemaryPixel(ndvi: real, ratio: real)
  {
    0.3 < ndvi < 0.7 && 0.4 < ratio < 0.7
  }

  /** The model-free branch of the backend `detect_rosemary`: a zero grid with class 1
      written where both thresholds hold. */
  method DetectByThreshold(ndvi: Grid, ratio: Grid) returns (result: array2<int>)
    requires IsGrid(ndvi, Rows(ndvi), Cols(ndvi)) && IsGrid(ratio, Rows(ndvi), Cols(ndvi))
    ensures result.Length0 == Rows(ndvi) && result.Length1 == Cols(ndvi)
    ensures forall i, j :: 0 <= i < result.Length0 && 0 <= j < result.Length1 ==>
      (result[i, j] == 1 <==> IsRosemaryPixel(ndvi[i][j], ratio[i][j])) &&
      (result[i, j] == 0 <==> !IsRosemaryPixel(ndvi[i][j], ratio[i][j]))
  {
    var h, w := Rows(ndvi), Cols(ndvi);
    result := new int[h, w]((i, j) => 0);
    var i := 0;
    while i < h
      invariant 0 <= i <= h
      invariant forall y, x :: 0 <= y < h && 0 <= x < w ==>
        result[y, x] == if y < i && IsRosemaryPixel(ndvi[y][x], ratio[y][x]) then 1 else 0
    {
      var j := 0;
      while j < w
        invariant 0 <= j <= w
        invariant forall y, x :: 0 <= y < h && 0 <= x < w ==>
          result[y, x] == if (y < i || (y == i && x < j)) && IsRosemaryPixel(ndvi[y][x], ratio[y][x]) then 1 else 0
      {
        if 0.3 < ndvi[i][j] && ndvi[i][j] < 0.7 && 0.4 < ratio[i][j] && ratio[i][j] < 0.7 {
          result[i, j] := 1;
        }
        j := j + 1;
      }
      i := i + 1;
    }
  }

  /** The cells of a two-dimensional array, row by row. */
  function ToGrid(a: array2<int>): (g: seq<seq<int>>)
    reads a
    ensures IsGrid(g, a.Length0, a.Length1)
    ensures forall i, j :: 0 <= i < a.Length0 && 0 <= j < a.Length1 ==> g[i][j] == a[i, j]
  {
    seq(a.Length0, i requires 0 <= i < a.Length0 reads a =>
      seq(a.Length1, j requires 0 <= j < a.Length1 reads a => a[i, j]))
  }

  /** `ndarray.reshape(h, w)` of a vector of h*w entries: consecutive runs of w entries become
      the rows, so flattening the result gives the vector back. */
  function Reshape(v: seq<int>, h: nat, w: nat): (g: seq<seq<int>>)
    requires |v| == h * w
    ensures IsGrid(g, h, w)
    ensures Flatten(g) == v
  {
    if h == 0 then []
    else
      assert (h - 1) * w == h * w - w;
      [v[..w]] + Reshape(v[w..], h - 1, w)
  }

  /** Cell (i, j) of the reshaped grid is entry i*w + j of the row-major sequence. */
  lemma ReshapeAt(v: seq<int>, h: nat, w: nat, i: nat, j: nat)
    requires |v| == h * w && i < h && j < w
    ensures i * w + j < |v| && Reshape(v, h, w)[i][j] == v[i * w + j]
  {
    FlattenShape(Reshape(v, h, w), h, w, i, j);
  }

  /** The model branch of the backend `detect_rosemary`: one prediction per feature row,
      reshaped to the image. `model` stands for the loaded classifier's per-row prediction. */
  function DetectWithModel(b: BandSet, ix: IndexSet, model: seq<real> -> int): (g: seq<seq<int>>)
    requires Shaped(b) && IndicesShaped(ix, Height(b), Width(b))
    ensures IsGrid(g, Height(b), Width(b))
  {
    var rows := FeatureStack(b, ix);
    Reshape(seq(|rows|, k requires 0 <= k < |rows| => model(rows[k])), Height(b), Width(b))
  }

  /** The prediction for feature row i*w + j lands at pixel (i, j). */
  lemma ModelPredictionAt(b: BandSet, ix: IndexSet, model: seq<real> -> int, i: nat, j: nat)
    requires Shaped(b) && IndicesShaped(ix, Height(b), Width(b))
    requires i < Height(b) && j < Width(b)
    ensures DetectWithModel(b, ix, model)[i][j] == model(PixelFeatures(b, ix, i, j))
  {
    FeatureRowAt(b, ix, i, j);
    var rows := FeatureStack(b, ix);
    ReshapeAt(seq(|rows|, k requires 0 <= k < |rows| => model(rows[k])), Height(b), Width(b), i, j);
  }

  /** A path argument counts as given when it is neither `None` nor the empty string. */
  predicate IsTruthy(path: Option<string>)
  {
    path.Some? && path.value != ""
  }

  /** Backend `detect_rosemary` on already extracted bands: the model branch when a model
      path is given, the threshold branch otherwise. */
  method DetectRosemary(b: BandSet, roots: Grid, modelPath: Option<string>, model: seq<real> -> int)
    returns (result: seq<seq<int>>)
    requires Computable(b, roots)
    ensures IsGrid(result, Height(b), Width(b))
    ensures IsTruthy(modelPath) ==> result == DetectWithModel(b, SpectralIndices(b, roots), model)
    ensures !IsTruthy(modelPath) ==> forall i, j :: 0 <= i < Height(b) && 0 <= j < Width(b) ==>
      result[i][j] == if IsRosemaryPixel(SpectralIndices(b, roots).ndvi[i][j], SpectralIndices(b, roots).swirNirRatio[i][j]) then 1 else 0
  {
    var ix := SpectralIndices(b, roots);
    if IsTruthy(modelPath) {
      result := DetectWithModel(b, ix, model);
    } else {
      var grid := DetectByThreshold(ix.ndvi, ix.swirNirRatio);
      result := ToGrid(grid);
    }
  }

  /** Standalone-copy `detect_rosemary`: `None` without a model path; with one, a zero
      grid of the nir band's shape (its prediction step is a placeholder). */
  function DetectRosemaryLegacy(b: BandSet, modelPath: Option<string>): (r: Option<seq<seq<int>>>)
    ensures r.None? <==> !IsTruthy(modelPath)
    ensures r.Some? ==> IsGrid(r.value, Rows(b.nir), Cols(b.nir))
    ensures r.Some? ==> forall i, j :: 0 <= i < Rows(b.nir) && 0 <= j < Cols(b.nir) ==> r.value[i][j] == 0
  {
    if IsTruthy(modelPath) then Some(Constant(Rows(b.nir), Cols(b.nir), 0)) else None
  }
}
