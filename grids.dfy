/** Two-dimensional rasters as sequences of rows, and the counting and averaging
    helpers that the NumPy reductions of the pipeline use. */
module Grids {

  type Grid = seq<seq<real>>

  /** Every row of `g` has `w` columns and there are `h` rows. */
  predicate IsGrid<T>(g: seq<seq<T>>, h: nat, w: nat)
  {
    |g| == h && forall i :: 0 <= i < h ==> |g[i]| == w
  }

  function Rows<T>(g: seq<seq<T>>): nat { |g| }

  function Cols<T>(g: seq<seq<T>>): nat { if |g| == 0 then 0 else |g[0]| }

  /** An `h` by `w` grid whose every cell holds `v` (NumPy's `np.zeros`). */
  function Constant<T>(h: nat, w: nat, v: T): (g: seq<seq<T>>)
    ensures IsGrid(g, h, w)
    ensures forall i, j :: 0 <= i < h && 0 <= j < w ==> g[i][j] == v
  {
    seq(h, i => seq(w, j => v))
  }

  /** Row-major flattening (`ndarray.flatten()`). */
  function Flatten<T>(g: seq<seq<T>>): seq<T>
  {
    if g == [] then [] else g[0] + Flatten(g[1..])
  }

  /** The row-major offset of cell (i, j) lies inside an h*w buffer. */
  lemma RowMajorBound(h: nat, w: nat, i: nat, j: nat)
    requires i < h && j < w
    ensures i * w + j < h * w
  {
    assert i * w + w <= h * w by {
      assert (i + 1) * w <= h * w;
    }
  }

  lemma {:induction false} FlattenShape<T>(g: seq<seq<T>>, h: nat, w: nat, i: nat, j: nat)
    requires IsGrid(g, h, w) && i < h && j < w
    ensures |Flatten(g)| == h * w
    ensures i * w + j < h * w && Flatten(g)[i * w + j] == g[i][j]
  {
    FlattenLength(g, h, w);
    RowMajorBound(h, w, i, j);
    if i > 0 {
      FlattenShape(g[1..], h - 1, w, i - 1, j);
      assert (i - 1) * w + j == i * w + j - w;
    }
  }

  /** Appending a row to the grid appends its cells to the flattening. */
  lemma {:induction false} FlattenAppend<T>(g: seq<seq<T>>, r: seq<T>)
    ensures Flatten(g + [r]) == Flatten(g) + r
  {
    if |g| == 0 {
      assert g + [r] == [r];
      assert Flatten([r]) == r + Flatten([r][1..]);
    } else {
      assert (g + [r])[0] == g[0];
      assert (g + [r])[1..] == g[1..] + [r];
      FlattenAppend(g[1..], r);
    }
  }

  lemma {:induction false} FlattenLength<T>(g: seq<seq<T>>, h: nat, w: nat)
    requires IsGrid(g, h, w)
    ensures |Flatten(g)| == h * w
  {
    if h > 0 {
      FlattenLength(g[1..], h - 1, w);
    }
  }

  /** Every element of the flattening comes from some cell. */
  lemma {:induction false} FlattenElements<T>(g: seq<seq<T>>, x: T)
    ensures x in Flatten(g) <==> exists i, j :: 0 <= i < |g| && 0 <= j < |g[i]| && g[i][j] == x
  {
    if g != [] {
      FlattenElements(g[1..], x);
      if x in Flatten(g[1..]) {
        var i, j :| 0 <= i < |g[1..]| && 0 <= j < |g[1..][i]| && g[1..][i][j] == x;
        assert g[i + 1][j] == x;
      }
      if exists i, j :: 0 <= i < |g| && 0 <= j < |g[i]| && g[i][j] == x {
        var i, j :| 0 <= i < |g| && 0 <= j < |g[i]| && g[i][j] == x;
        if i > 0 {
          assert g[1..][i - 1][j] == x;
        }
      }
    }
  }

  /** Number of entries of `s` that satisfy `p` (`np.sum(mask)`). */
  function CountIf<T>(s: seq<T>, p: T -> bool): (n: nat)
    ensures n <= |s|
  {
    if s == [] then 0 else CountIf(s[..|s| - 1], p) + (if p(s[|s| - 1]) then 1 else 0)
  }

  /** Entries of `s` that satisfy `p`, in order (`s[mask]`). */
  function Filter(s: seq<real>, p: real -> bool): (r: seq<real>)
    ensures |r| == CountIf(s, p)
    ensures forall x :: x in r <==> x in s && p(x)
  {
    if s == [] then [] else
      Filter(s[..|s| - 1], p) + (if p(s[|s| - 1]) then [s[|s| - 1]] else [])
  }

  function Sum(s: seq<real>): real
  {
    if s == [] then 0.0 else Sum(s[..|s| - 1]) + s[|s| - 1]
  }

  /** `np.min` of a non-empty array. */
  function MinOf(s: seq<real>): (m: real)
    requires |s| > 0
    ensures m in s && forall k :: 0 <= k < |s| ==> m <= s[k]
  {
    if |s| == 1 then s[0] else
      var m := MinOf(s[..|s| - 1]);
      if s[|s| - 1] < m then s[|s| - 1] else m
  }

  /** `np.max` of a non-empty array. */
  function MaxOf(s: seq<real>): (m: real)
    requires |s| > 0
    ensures m in s && forall k :: 0 <= k < |s| ==> s[k] <= m
  {
    if |s| == 1 then s[0] else
      var m := MaxOf(s[..|s| - 1]);
      if s[|s| - 1] > m then s[|s| - 1] else m
  }

  /** `np.mean` of a non-empty array. */
  function Mean(s: seq<real>): real
    requires |s| > 0
  {
    Sum(s) / |s| as real
  }

  /** The sum of a sequence lies between its length times its minimum and its length times its maximum. */
  lemma {:induction false} SumBetween(s: seq<real>, lo: real, hi: real)
    requires forall k :: 0 <= k < |s| ==> lo <= s[k] <= hi
    ensures |s| as real * lo <= Sum(s) <= |s| as real * hi
  {
    if s != [] {
      SumBetween(s[..|s| - 1], lo, hi);
    }
  }

  /** The mean of a non-empty sequence lies between any lower and upper bound of its entries. */
  lemma MeanBetween(s: seq<real>, lo: real, hi: real)
    requires |s| > 0
    requires forall k :: 0 <= k < |s| ==> lo <= s[k] <= hi
    ensures lo <= Mean(s) <= hi
  {
    SumBetween(s, lo, hi);
    BoundsOfQuotient(lo, Sum(s), hi, |s| as real);
  }

  /** The mean of a non-empty sequence lies between its minimum and its maximum. */
  lemma MeanBetweenMinMax(s: seq<real>)
    requires |s| > 0
    ensures MinOf(s) <= Mean(s) <= MaxOf(s)
  {
    MeanBetween(s, MinOf(s), MaxOf(s));
  }

  /** A product with a positive factor is non-negative only if the other factor is. */
  lemma NonNegativeFactor(x: real, s: real)
    requires s > 0.0 && x * s >= 0.0
    ensures x >= 0.0
  {
  }

  lemma BoundsOfQuotient(lo: real, total: real, hi: real, n: real)
    requires n > 0.0 && n * lo <= total <= n * hi
    ensures lo <= total / n <= hi
  {
    var q := total / n;
    assert q * n == total;
    assert (q - lo) * n >= 0.0;
    assert (hi - q) * n >= 0.0;
  }
}
