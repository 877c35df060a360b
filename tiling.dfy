/** Patch offsets on a stride grid and the weighted stitching of per-patch classes back
    into a class map, as done by `GeoCNN.prepare_sentinel_data` and `GeoCNN.predict_image`. */
module Tiling {
  import opened Wrappers
  import opened Grids

  /** Python's `range(start, stop, step)` for a positive step. */
  function RangeStep(start: int, stop: int, step: int): (r: seq<int>)
    requires step > 0
    decreases stop - start
  {
    if start < stop then [start] + RangeStep(start + step, stop, step) else []
  }

  /** The range is the arithmetic progression start, start + step, ... that stops at the
      last value below `stop`. */
  lemma {:induction false} RangeStepElements(start: int, stop: int, step: int)
    requires step > 0
    ensures var r := RangeStep(start, stop, step);
      (forall k :: 0 <= k < |r| ==> r[k] == start + k * step && r[k] < stop) &&
      (|r| == 0 <==> start >= stop) &&
      (|r| > 0 ==> r[|r| - 1] + step >= stop)
    decreases stop - start
  {
    if start < stop {
      RangeStepElements(start + step, stop, step);
      var r := RangeStep(start, stop, step);
      var t := RangeStep(start + step, stop, step);
      forall k | 1 <= k < |r|
        ensures r[k] == start + k * step
      {
        assert r[k] == t[k - 1];
        assert (k - 1) * step + step == k * step;
      }
    }
  }

  /** `q` is the floor of m / s. */
  lemma FloorDivUnique(m: int, s: int, q: int)
    requires s > 0 && q * s <= m < q * s + s
    ensures q == m / s
  {
    var d := m / s;
    if q < d {
      MulMono(q + 1, d, s);
    } else if q > d {
      MulMono(d + 1, q, s);
    }
  }

  lemma MulMono(a: int, b: int, s: int)
    requires a <= b && s > 0
    ensures a * s <= b * s
  {
  }

  /** `range(0, m + 1, s)` has floor(m / s) + 1 entries for m >= 0, and none for m < 0. */
  lemma RangeStepCount(m: int, s: int)
    requires s > 0
    ensures |RangeStep(0, m + 1, s)| == if m >= 0 then m / s + 1 else 0
  {
    RangeStepElements(0, m + 1, s);
    var r := RangeStep(0, m + 1, s);
    if m >= 0 {
      var n := |r|;
      assert r[n - 1] == (n - 1) * s;
      FloorDivUnique(m, s, n - 1);
    }
  }

  /** The offsets (i, jj[k]) of one row of patches. */
  function Row(i: int, jj: seq<int>): (r: seq<(int, int)>)
    ensures |r| == |jj|
  {
    seq(|jj|, k requires 0 <= k < |jj| => (i, jj[k]))
  }

  /** Nested `for i in ii: for j in jj` offsets, in row-major order. */
  function Pairs(ii: seq<int>, jj: seq<int>): seq<(int, int)>
  {
    Flatten(seq(|ii|, a requires 0 <= a < |ii| => Row(ii[a], jj)))
  }

  lemma PairsAt(ii: seq<int>, jj: seq<int>, a: nat, b: nat)
    requires a < |ii| && b < |jj|
    ensures |Pairs(ii, jj)| == |ii| * |jj|
    ensures a * |jj| + b < |Pairs(ii, jj)| && Pairs(ii, jj)[a * |jj| + b] == (ii[a], jj[b])
  {
    var g := seq(|ii|, a requires 0 <= a < |ii| => Row(ii[a], jj));
    FlattenShape(g, |ii|, |jj|, a, b);
  }

  /** Extending the outer list by one value appends that value's row. */
  lemma PairsExtend(ii: seq<int>, jj: seq<int>, a: nat)
    requires a < |ii|
    ensures Pairs(ii[..a + 1], jj) == Pairs(ii[..a], jj) + Row(ii[a], jj)
  {
    var g := seq(a, k requires 0 <= k < a => Row(ii[..a][k], jj));
    var g1 := seq(a + 1, k requires 0 <= k < a + 1 => Row(ii[..a + 1][k], jj));
    assert g1 == g + [Row(ii[a], jj)];
    FlattenAppend(g, Row(ii[a], jj));
  }

  lemma PairsMembers(ii: seq<int>, jj: seq<int>, o: (int, int))
    requires o in Pairs(ii, jj)
    ensures o.0 in ii && o.1 in jj
  {
    var g := seq(|ii|, a requires 0 <= a < |ii| => Row(ii[a], jj));
    FlattenElements(g, o);
  }

  /** The top-left corners of all p x p windows taken with stride s from an h x w image. */
  function GridOffsets(h: int, w: int, p: int, s: int): seq<(int, int)>
    requires s > 0
  {
    Pairs(RangeStep(0, h - p + 1, s), RangeStep(0, w - p + 1, s))
  }

  /** Offset number a * nj + b is (a * s, b * s), where nj = floor((w - p) / s) + 1 windows fit
      across; there are (floor((h - p) / s) + 1) * nj offsets when p <= h and p <= w, else none. */
  lemma GridOffsetAt(h: int, w: int, p: int, s: int, a: nat, b: nat)
    requires s > 0
    requires a < |RangeStep(0, h - p + 1, s)| && b < |RangeStep(0, w - p + 1, s)|
    ensures var nj := |RangeStep(0, w - p + 1, s)|;
      a * nj + b < |GridOffsets(h, w, p, s)| && GridOffsets(h, w, p, s)[a * nj + b] == (a * s, b * s)
  {
    RangeStepElements(0, h - p + 1, s);
    RangeStepElements(0, w - p + 1, s);
    PairsAt(RangeStep(0, h - p + 1, s), RangeStep(0, w - p + 1, s), a, b);
  }

  lemma GridOffsetCount(h: int, w: int, p: int, s: int)
    requires s > 0
    ensures |GridOffsets(h, w, p, s)| ==
      (if h >= p then (h - p) / s + 1 else 0) * (if w >= p then (w - p) / s + 1 else 0)
  {
    var ii, jj := RangeStep(0, h - p + 1, s), RangeStep(0, w - p + 1, s);
    RangeStepCount(h - p, s);
    RangeStepCount(w - p, s);
    if |ii| > 0 && |jj| > 0 {
      PairsAt(ii, jj, 0, 0);
    } else {
      var g := seq(|ii|, a requires 0 <= a < |ii| => Row(ii[a], jj));
      FlattenLength(g, |ii|, |jj|);
    }
  }

  /** The p x p window with top-left corner o lies inside an h x w image. */
  predicate Inside(o: (int, int), h: int, w: int, p: int)
  {
    0 <= o.0 && o.0 + p <= h && 0 <= o.1 && o.1 + p <= w
  }

  /** Every window lies inside the image, so the bounds test of the stitching loop always holds. */
  lemma GridOffsetsInBounds(h: int, w: int, p: int, s: int)
    requires s > 0
    ensures forall o :: o in GridOffsets(h, w, p, s) ==> Inside(o, h, w, p)
    ensures forall k :: 0 <= k < |GridOffsets(h, w, p, s)| ==> Inside(GridOffsets(h, w, p, s)[k], h, w, p)
  {
    var ii, jj := RangeStep(0, h - p + 1, s), RangeStep(0, w - p + 1, s);
    RangeStepElements(0, h - p + 1, s);
    RangeStepElements(0, w - p + 1, s);
    forall o | o in GridOffsets(h, w, p, s)
      ensures Inside(o, h, w, p)
    {
      PairsMembers(ii, jj, o);
    }
  }

  /** A 128 x 128 image with 64-pixel patches and stride 32 gives nine windows. */
  lemma DefaultTiling()
    ensures GridOffsets(128, 128, 64, 32) ==
      [(0, 0), (0, 32), (0, 64), (32, 0), (32, 32), (32, 64), (64, 0), (64, 32), (64, 64)]
  {
    var r := RangeStep(0, 65, 32);
    assert RangeStep(96, 65, 32) == [];
    assert RangeStep(64, 65, 32) == [64];
    assert RangeStep(32, 65, 32) == [32, 64];
    assert r == [0, 32, 64];
    var g := seq(3, a requires 0 <= a < 3 => Row(r[a], r));
    assert Row(0, r) == [(0, 0), (0, 32), (0, 64)];
    assert Row(32, r) == [(32, 0), (32, 32), (32, 64)];
    assert Row(64, r) == [(64, 0), (64, 32), (64, 64)];
    assert g == [Row(0, r), Row(32, r), Row(64, r)];
    assert g[1..][1..][1..] == [];
    assert Flatten(g[1..][1..]) == Row(64, r);
    assert Flatten(g[1..]) == Row(32, r) + Row(64, r);
    assert Flatten(g) == Row(0, r) + Row(32, r) + Row(64, r);
  }

  // ---------------------------------------------------------------- stitching

  /** Weight of offset (di, dj) inside a p x p patch: 1 - (|di - p/2| + |dj - p/2|) / p. */
  function Weight(di: int, dj: int, p: int): real
    requires p > 0
  {
    1.0 - (Abs(di as real - p as real / 2.0) + Abs(dj as real - p as real / 2.0)) / p as real
  }

  function IntAbs(x: int): nat
  {
    if x >= 0 then x else -x
  }

  /** The weight test `weight > 0.5` holds iff the integer condition |2 di - p| + |2 dj - p| < p. */
  lemma WeightTest(di: int, dj: int, p: int)
    requires p > 0
    ensures Weight(di, dj, p) > 0.5 <==> IntAbs(2 * di - p) + IntAbs(2 * dj - p) < p
  {
    var pr := p as real;
    var a := Abs(di as real - pr / 2.0) + Abs(dj as real - pr / 2.0);
    assert 2.0 * a == IntAbs(2 * di - p) as real + IntAbs(2 * dj - p) as real;
    QuotientBelowHalf(a, pr);
  }

  lemma QuotientBelowHalf(a: real, p: real)
    requires p > 0.0
    ensures 1.0 - a / p > 0.5 <==> 2.0 * a < p
  {
    var q := a / p;
    assert q * p == a;
    if q < 0.5 {
      assert (0.5 - q) * p > 0.0;
    } else {
      assert (q - 0.5) * p >= 0.0;
    }
  }

  /** The window with top-left corner o covers pixel (y, x). */
  predicate Covers(o: (int, int), p: int, y: int, x: int)
  {
    o.0 <= y < o.0 + p && o.1 <= x < o.1 + p
  }

  /** The value of output pixel (y, x) after the first n patches have been stitched: a covering
      patch writes its class when the pixel is still 0 or its weight there exceeds 0.5. */
  function StitchedAt(offsets: seq<(int, int)>, classes: seq<int>, p: int, y: int, x: int, n: nat): int
    requires p > 0 && n <= |offsets| == |classes|
  {
    if n == 0 then 0
    else
      var prev := StitchedAt(offsets, classes, p, y, x, n - 1);
      var o := offsets[n - 1];
      if Covers(o, p, y, x) && (prev == 0 || Weight(y - o.0, x - o.1, p) > 0.5) then classes[n - 1] else prev
  }

  /** The overwrite rule in integer form: a covering patch replaces the pixel exactly when the
      pixel is 0 or |2 di - p| + |2 dj - p| < p; a patch that does not cover it changes nothing. */
  lemma OverwriteRule(offsets: seq<(int, int)>, classes: seq<int>, p: int, y: int, x: int, n: nat)
    requires p > 0 && n < |offsets| == |classes|
    ensures var prev := StitchedAt(offsets, classes, p, y, x, n);
      var o := offsets[n];
      StitchedAt(offsets, classes, p, y, x, n + 1) ==
        if Covers(o, p, y, x) && (prev == 0 || IntAbs(2 * (y - o.0) - p) + IntAbs(2 * (x - o.1) - p) < p)
        then classes[n] else prev
  {
    WeightTest(y - offsets[n].0, x - offsets[n].1, p);
  }

  /** One more patch: a pixel it does not cover keeps its value; a covered one follows the rule. */
  lemma StitchStep(offsets: seq<(int, int)>, classes: seq<int>, p: int, y: int, x: int, n: nat)
    requires p > 0 && n < |offsets| == |classes|
    ensures !Covers(offsets[n], p, y, x) ==>
      StitchedAt(offsets, classes, p, y, x, n + 1) == StitchedAt(offsets, classes, p, y, x, n)
    ensures Covers(offsets[n], p, y, x) ==>
      var prev := StitchedAt(offsets, classes, p, y, x, n);
      StitchedAt(offsets, classes, p, y, x, n + 1) ==
        if prev == 0 || Weight(y - offsets[n].0, x - offsets[n].1, p) > 0.5 then classes[n] else prev
  {
  }

  /** A pixel that no window covers keeps its initial 0. */
  lemma {:induction false} UncoveredStaysZero(offsets: seq<(int, int)>, classes: seq<int>, p: int, y: int, x: int, n: nat)
    requires p > 0 && n <= |offsets| == |classes|
    requires forall k :: 0 <= k < n ==> !Covers(offsets[k], p, y, x)
    ensures StitchedAt(offsets, classes, p, y, x, n) == 0
  {
    if n > 0 {
      UncoveredStaysZero(offsets, classes, p, y, x, n - 1);
    }
  }

  /** Every output value is 0 or the class of some patch covering the pixel. */
  lemma {:induction false} StitchedFromClasses(offsets: seq<(int, int)>, classes: seq<int>, p: int, y: int, x: int, n: nat)
    requires p > 0 && n <= |offsets| == |classes|
    ensures var v := StitchedAt(offsets, classes, p, y, x, n);
      v == 0 || exists k :: 0 <= k < n && Covers(offsets[k], p, y, x) && v == classes[k]
  {
    if n > 0 {
      StitchedFromClasses(offsets, classes, p, y, x, n - 1);
    }
  }

  /** With classes drawn from [0, numClasses), every output value lies in [0, numClasses). */
  lemma StitchedInRange(offsets: seq<(int, int)>, classes: seq<int>, p: int, y: int, x: int, numClasses: int)
    requires p > 0 && |offsets| == |classes| && numClasses > 0
    requires forall k :: 0 <= k < |classes| ==> 0 <= classes[k] < numClasses
    ensures 0 <= StitchedAt(offsets, classes, p, y, x, |offsets|) < numClasses
  {
    StitchedFromClasses(offsets, classes, p, y, x, |offsets|);
  }

  /** The stitching loop of `predict_image`: start from zeros and, patch by patch and cell by
      cell, write the patch class into in-image cells that are 0 or weigh more than 0.5. */
  method Stitch(offsets: seq<(int, int)>, classes: seq<int>, h: nat, w: nat, p: int)
    returns (output: array2<int>)
    requires p > 0 && |offsets| == |classes|
    ensures output.Length0 == h && output.Length1 == w
    ensures forall y, x :: 0 <= y < h && 0 <= x < w ==>
      output[y, x] == StitchedAt(offsets, classes, p, y, x, |offsets|)
  {
    output := new int[h, w]((y, x) => 0);
    var n := 0;
    while n < |offsets|
      invariant 0 <= n <= |offsets|
      invariant output.Length0 == h && output.Length1 == w
      invariant forall y, x :: 0 <= y < h && 0 <= x < w ==>
        output[y, x] == StitchedAt(offsets, classes, p, y, x, n)
    {
      StitchPatch(output, offsets, classes, p, n);
      n := n + 1;
    }
  }

  /** One iteration of the patch loop: the output moves from n stitched patches to n + 1. */
  method StitchPatch(output: array2<int>, offsets: seq<(int, int)>, classes: seq<int>, p: int, n: nat)
    modifies output
    requires p > 0 && n < |offsets| == |classes|
    requires forall y, x :: 0 <= y < output.Length0 && 0 <= x < output.Length1 ==>
      output[y, x] == StitchedAt(offsets, classes, p, y, x, n)
    ensures forall y, x :: 0 <= y < output.Length0 && 0 <= x < output.Length1 ==>
      output[y, x] == StitchedAt(offsets, classes, p, y, x, n + 1)
  {
    var i := offsets[n].0;
    forall y, x | 0 <= y < output.Length0 && 0 <= x < output.Length1 && y < i
      ensures StitchedAt(offsets, classes, p, y, x, n + 1) == StitchedAt(offsets, classes, p, y, x, n)
    {
      StitchStep(offsets, classes, p, y, x, n);
    }
    var di := 0;
    while di < p
      invariant 0 <= di <= p
      invariant forall y, x :: 0 <= y < output.Length0 && 0 <= x < output.Length1 ==>
        output[y, x] == StitchedAt(offsets, classes, p, y, x, if y < i + di then n + 1 else n)
    {
      StitchRow(output, offsets, classes, p, n, di);
      di := di + 1;
    }
    forall y, x | 0 <= y < output.Length0 && 0 <= x < output.Length1 && y >= i + p
      ensures StitchedAt(offsets, classes, p, y, x, n + 1) == StitchedAt(offsets, classes, p, y, x, n)
    {
      StitchStep(offsets, classes, p, y, x, n);
    }
  }

  /** Row di of patch n: the rows above it already hold n + 1 patches, and afterwards so does
      this one. */
  method StitchRow(output: array2<int>, offsets: seq<(int, int)>, classes: seq<int>, p: int, n: nat, di: int)
    modifies output
    requires p > 0 && n < |offsets| == |classes| && 0 <= di < p
    requires forall y, x :: 0 <= y < output.Length0 && 0 <= x < output.Length1 ==>
      output[y, x] == StitchedAt(offsets, classes, p, y, x, if y < offsets[n].0 + di then n + 1 else n)
    ensures forall y, x :: 0 <= y < output.Length0 && 0 <= x < output.Length1 ==>
      output[y, x] == StitchedAt(offsets, classes, p, y, x, if y <= offsets[n].0 + di then n + 1 else n)
  {
    var (i, j) := offsets[n];
    var row := i + di;
    forall x | 0 <= row < output.Length0 && 0 <= x < output.Length1 && x < j
      ensures StitchedAt(offsets, classes, p, row, x, n + 1) == StitchedAt(offsets, classes, p, row, x, n)
    {
      StitchStep(offsets, classes, p, row, x, n);
    }
    var dj := 0;
    while dj < p
      invariant 0 <= dj <= p
      invariant forall y, x :: 0 <= y < output.Length0 && 0 <= x < output.Length1 ==>
        output[y, x] == StitchedAt(offsets, classes, p, y, x,
          if y < row || (y == row && x < j + dj) then n + 1 else n)
    {
      if 0 <= row < output.Length0 && 0 <= j + dj < output.Length1 {
        StitchStep(offsets, classes, p, row, j + dj, n);
        var weight := Weight(di, dj, p);
        if output[row, j + dj] == 0 || weight > 0.5 {
          output[row, j + dj] := classes[n];
        }
      }
      dj := dj + 1;
    }
    forall x | 0 <= row < output.Length0 && 0 <= x < output.Length1 && x >= j + p
      ensures StitchedAt(offsets, classes, p, row, x, n + 1) == StitchedAt(offsets, classes, p, row, x, n)
    {
      StitchStep(offsets, classes, p, row, x, n);
    }
  }
}
