/**
 * `bbox_decompose`: the split of a bounding box into WMS-sized tiles.
 * Pixel counts are integers; box coordinates are exact reals.  The raster
 * width and height (geodesic length over resolution, rounded up) are
 * inputs: the geodesic and the reprojection are not part of this model.
 */
module Tiling {
  import opened Wrappers
  import opened Text
  import opened Exceptions

  datatype Box = Box(west: real, south: real, east: real, north: real)

  /** One cell: its box, its `"i_j"` label, and its raster width and height. */
  datatype Tile = Tile(box: Box, counter: string, width: int, height: int)

  const NanToInt := "cannot convert float NaN to integer"

  /** `int(np.sqrt(m))`: the integer square root. */
  function ISqrt(m: nat): (r: nat)
    ensures r * r <= m < (r + 1) * (r + 1)
  {
    if m == 0 then 0
    else
      var s := ISqrt(m - 1);
      if (s + 1) * (s + 1) <= m then s + 1 else s
  }

  /** `n_px`: the tile side in pixels; the square root of a negative budget is NaN. */
  function TileSide(maxPx: int): (r: Result<nat, Error>)
    ensures r.Ok? <==> maxPx >= 0
    ensures r.Ok? ==> r.value * r.value <= maxPx < (r.value + 1) * (r.value + 1)
  {
    if maxPx < 0 then Err(PyValueError(NanToInt)) else Ok(ISqrt(maxPx))
  }

  function Abs(x: real): real
  {
    if x < 0.0 then -x else x
  }

  /** Sum of a list of integers, folded from the left. */
  function Sum(s: seq<int>): int
  {
    if |s| == 0 then 0 else Sum(s[..|s| - 1]) + s[|s| - 1]
  }

  /** Sum of a list of reals, folded from the left as `itertools.accumulate` does. */
  function RSum(s: seq<real>): real
  {
    if |s| == 0 then 0.0 else RSum(s[..|s| - 1]) + s[|s| - 1]
  }

  /**
   * `npt`: `int(px / n)` full chunks of `n` pixels followed by `px % n`;
   * `range` of a negative count is empty.
   */
  function Chunks(px: int, n: nat): (r: seq<int>)
    requires n > 0
    ensures |r| >= 1 && r[|r| - 1] == px % n
    ensures forall i :: 0 <= i < |r| ==> 0 <= r[i] <= n
  {
    var full := if px >= 0 then px / n else 0;
    seq(full, _ => n) + [px % n]
  }

  lemma {:induction false} SumConst(count: nat, n: int)
    ensures Sum(seq(count, _ => n)) == count * n
  {
    if count > 0 {
      assert seq(count, _ => n)[..count - 1] == seq(count - 1, _ => n);
      SumConst(count - 1, n);
    }
  }

  /** The chunks of a non-negative pixel count add up to it; a negative one leaves only its remainder. */
  lemma ChunksSum(px: int, n: nat)
    requires n > 0
    ensures px >= 0 ==> Sum(Chunks(px, n)) == px && |Chunks(px, n)| == px / n + 1
    ensures px < 0 ==> Chunks(px, n) == [px % n]
  {
    var full := if px >= 0 then px / n else 0;
    var r := Chunks(px, n);
    assert r[..|r| - 1] == seq(full, _ => n);
    SumConst(full, n);
  }

  /** Every chunk but the last is a full tile side. */
  lemma ChunksFull(px: int, n: nat)
    requires n > 0
    ensures forall i :: 0 <= i < |Chunks(px, n)| - 1 ==> Chunks(px, n)[i] == n
  {
  }

  /** A pixel count that is a positive multiple of the side ends in an empty chunk. */
  lemma ChunksTrailingEmpty(px: int, n: nat)
    requires n > 0 && px >= n && px % n == 0
    ensures |Chunks(px, n)| >= 2 && Chunks(px, n)[|Chunks(px, n)| - 1] == 0
  {
    ChunksSum(px, n);
  }

  /** `dx`: each chunk's share of the extent. */
  function Steps(extent: real, npt: seq<int>, total: int): (r: seq<real>)
    requires total != 0
    ensures |r| == |npt|
  {
    seq(|npt|, i requires 0 <= i < |npt| => extent * (npt[i] as real) / (total as real))
  }

  /** `xs`: the low edge, then the low edge plus each running sum of the steps. */
  function Boundaries(low: real, steps: seq<real>): (r: seq<real>)
    ensures |r| == |steps| + 1 && r[0] == low
  {
    [low] + seq(|steps|, k requires 0 <= k < |steps| => low + RSum(steps[..k + 1]))
  }

  /** `_split_directional`: the chunks and the boundaries along one axis. */
  function SplitDirectional(low: real, high: real, px: int, n: nat): (r: Result<(seq<int>, seq<real>), Error>)
    requires n > 0
    ensures r.Ok? <==> Sum(Chunks(px, n)) != 0
    ensures r.Err? ==> r.error == PyZeroDivision
    ensures r.Ok? ==> r.value.0 == Chunks(px, n) && |r.value.1| == |r.value.0| + 1
  {
    var npt := Chunks(px, n);
    var total := Sum(npt);
    if total == 0 then Err(PyZeroDivision)
    else Ok((npt, Boundaries(low, Steps(Abs(high - low), npt, total))))
  }

  lemma {:induction false} RSumSteps(extent: real, npt: seq<int>, total: int, k: nat)
    requires total != 0 && k <= |npt|
    ensures RSum(Steps(extent, npt, total)[..k]) == extent * (Sum(npt[..k]) as real) / (total as real)
  {
    var dx := Steps(extent, npt, total);
    if k > 0 {
      RSumSteps(extent, npt, total, k - 1);
      assert dx[..k][..k - 1] == dx[..k - 1];
      assert npt[..k][..k - 1] == npt[..k - 1];
      var p := Sum(npt[..k - 1]) as real;
      var c := npt[k - 1] as real;
      var t := total as real;
      assert extent * p / t + extent * c / t == extent * (p + c) / t;
    }
  }

  /** Boundary `k` is the low edge plus the share of the extent covered by the first `k` chunks. */
  lemma BoundaryClosedForm(low: real, extent: real, npt: seq<int>, total: int, k: nat)
    requires total != 0 && k <= |npt|
    ensures Boundaries(low, Steps(extent, npt, total))[k] == low + extent * (Sum(npt[..k]) as real) / (total as real)
  {
    RSumSteps(extent, npt, total, k);
    if k == 0 {
      assert npt[..0] == [];
    }
  }

  /** Boundaries over non-negative chunks and a non-negative extent never decrease. */
  lemma BoundariesMonotone(low: real, extent: real, npt: seq<int>, total: int, k: nat)
    requires total > 0 && extent >= 0.0 && k < |npt|
    requires forall i :: 0 <= i < |npt| ==> npt[i] >= 0
    ensures var xs := Boundaries(low, Steps(extent, npt, total)); xs[k] <= xs[k + 1]
  {
    BoundaryClosedForm(low, extent, npt, total, k);
    BoundaryClosedForm(low, extent, npt, total, k + 1);
    assert npt[..k + 1][..k] == npt[..k];
    ScaleMonotone(extent, Sum(npt[..k]) as real, Sum(npt[..k + 1]) as real, total as real);
  }

  lemma BoundaryAt(low: real, extent: real, npt: seq<int>, total: int, k: nat, covered: int)
    requires total != 0 && k <= |npt| && covered == Sum(npt[..k])
    ensures Boundaries(low, Steps(extent, npt, total))[k] == low + extent * (covered as real) / (total as real)
  {
    BoundaryClosedForm(low, extent, npt, total, k);
  }

  lemma ShiftCancel(x: real, low: real, e: real, total: int)
    requires total != 0 && x == low + e * (total as real) / (total as real)
    ensures x == low + e
  {
    DivCancel(e, total as real);
  }

  lemma SumFull(s: seq<int>)
    ensures Sum(s[..|s|]) == Sum(s)
  {
    assert s[..|s|] == s;
  }

  /** The boundaries of chunks that add up to `total` end at the low edge plus the extent. */
  lemma BoundariesEnd(low: real, extent: real, npt: seq<int>, total: int)
    requires total == Sum(npt) && total != 0
    ensures Boundaries(low, Steps(extent, npt, total))[|npt|] == low + extent
  {
    SumFull(npt);
    BoundaryAt(low, extent, npt, total, |npt|, total);
    ShiftCancel(Boundaries(low, Steps(extent, npt, total))[|npt|], low, extent, total);
  }

  /**
   * Along each axis the boundaries start at the low edge, end at the low
   * edge plus the extent `|high - low|`, and never decrease.
   */
  lemma SplitCoversExtent(low: real, high: real, px: int, n: nat)
    requires n > 0
    ensures var r := SplitDirectional(low, high, px, n);
      r.Ok? ==>
        var xs := r.value.1;
        xs[0] == low && xs[|xs| - 1] == low + Abs(high - low) &&
        forall k :: 0 <= k < |xs| - 1 ==> xs[k] <= xs[k + 1]
  {
    var npt := Chunks(px, n);
    SumNonNegative(npt);
    var total := Sum(npt);
    if total != 0 {
      var extent := Abs(high - low);
      BoundariesEnd(low, extent, npt, total);
      forall k | 0 <= k < |npt|
        ensures Boundaries(low, Steps(extent, npt, total))[k] <= Boundaries(low, Steps(extent, npt, total))[k + 1]
      {
        BoundariesMonotone(low, extent, npt, total, k);
      }
    }
  }

  lemma {:induction false} SumNonNegative(s: seq<int>)
    requires forall i :: 0 <= i < |s| ==> s[i] >= 0
    ensures Sum(s) >= 0
  {
    if |s| > 0 {
      SumNonNegative(s[..|s| - 1]);
    }
  }

  lemma DivCancel(e: real, t: real)
    requires t != 0.0
    ensures e * t / t == e
  {
  }

  lemma ScaleMonotone(e: real, a: real, b: real, t: real)
    requires e >= 0.0 && a <= b && t > 0.0
    ensures e * a / t <= e * b / t
  {
    assert e * a <= e * b;
  }

  /** The sum of the chunks is zero only when the pixel count is zero or a negative multiple of the side. */
  lemma SplitFailsOnEmptyAxis(low: real, high: real, px: int, n: nat)
    requires n > 0
    ensures SplitDirectional(low, high, px, n).Err? <==> px % n == 0 && px <= 0
  {
    ChunksSum(px, n);
    if px < 0 {
      assert Sum([px % n]) == px % n by {
        assert [px % n][..0] == [];
      }
    } else if px == 0 {
      assert px % n == 0;
    }
  }

  // ---- the grid ----

  predicate Axes(xs: seq<real>, ys: seq<real>, nw: seq<int>, nh: seq<int>)
  {
    |xs| == |nw| + 1 && |ys| == |nh| + 1
  }

  function Label(i: nat, j: nat): string
  {
    NatToString(i) + "_" + NatToString(j)
  }

  /** Cell `(i, j)`: column `i` from the west, row `j` from the south. */
  function TileAt(xs: seq<real>, ys: seq<real>, nw: seq<int>, nh: seq<int>, i: nat, j: nat): Tile
    requires Axes(xs, ys, nw, nh) && i < |nw| && j < |nh|
  {
    Tile(Box(xs[i], ys[j], xs[i + 1], ys[j + 1]), Label(i, j), nw[i], nh[j])
  }

  function Row(xs: seq<real>, ys: seq<real>, nw: seq<int>, nh: seq<int>, j: nat): (r: seq<Tile>)
    requires Axes(xs, ys, nw, nh) && j < |nh|
    ensures |r| == |nw|
  {
    seq(|nw|, i requires 0 <= i < |nw| => TileAt(xs, ys, nw, nh, i, j))
  }

  /** The first `rows` rows, south to north, each west to east. */
  function Grid(xs: seq<real>, ys: seq<real>, nw: seq<int>, nh: seq<int>, rows: nat): seq<Tile>
    requires Axes(xs, ys, nw, nh) && rows <= |nh|
  {
    if rows == 0 then [] else Grid(xs, ys, nw, nh, rows - 1) + Row(xs, ys, nw, nh, rows - 1)
  }

  /** The decomposition `bbox_decompose` returns. */
  function Decomposition(bbox: Box, width: int, height: int, maxPx: int): Result<seq<Tile>, Error>
  {
    var side := TileSide(maxPx);
    if side.Err? then Err(side.error)
    else if side.value == 0 then Err(PyZeroDivision)
    else
      var sx := SplitDirectional(bbox.west, bbox.east, width, side.value);
      if sx.Err? then Err(sx.error)
      else
        var sy := SplitDirectional(bbox.south, bbox.north, height, side.value);
        if sy.Err? then Err(sy.error)
        else Ok(Grid(sx.value.1, sy.value.1, sx.value.0, sy.value.0, |sy.value.0|))
  }

  /** The inner loop of `bbox_decompose`: append row `j`'s cells, west to east. */
  method AppendRow(out: seq<Tile>, xs: seq<real>, ys: seq<real>, nw: seq<int>, nh: seq<int>, j: nat)
    returns (out': seq<Tile>)
    requires Axes(xs, ys, nw, nh) && j < |nh|
    ensures out' == out + Row(xs, ys, nw, nh, j)
  {
    out' := out;
    var i := 0;
    while i < |nw|
      invariant 0 <= i <= |nw|
      invariant out' == out + Row(xs, ys, nw, nh, j)[..i]
    {
      assert Row(xs, ys, nw, nh, j)[..i + 1] == Row(xs, ys, nw, nh, j)[..i] + [TileAt(xs, ys, nw, nh, i, j)];
      out' := out' + [Tile(Box(xs[i], ys[j], xs[i + 1], ys[j + 1]), Label(i, j), nw[i], nh[j])];
      i := i + 1;
    }
    assert Row(xs, ys, nw, nh, j)[..i] == Row(xs, ys, nw, nh, j);
  }

  /** `bbox_decompose`: the nested loop over rows and columns that appends each cell. */
  method BboxDecompose(bbox: Box, width: int, height: int, maxPx: int) returns (r: Result<seq<Tile>, Error>)
    ensures r == Decomposition(bbox, width, height, maxPx)
  {
    var side := TileSide(maxPx);
    if side.Err? {
      return Err(side.error);
    }
    if side.value == 0 {
      return Err(PyZeroDivision);
    }
    var sx := SplitDirectional(bbox.west, bbox.east, width, side.value);
    if sx.Err? {
      return Err(sx.error);
    }
    var sy := SplitDirectional(bbox.south, bbox.north, height, side.value);
    if sy.Err? {
      return Err(sy.error);
    }
    var (nw, xs) := sx.value;
    var (nh, ys) := sy.value;
    var out: seq<Tile> := [];
    var j := 0;
    while j < |nh|
      invariant 0 <= j <= |nh|
      invariant out == Grid(xs, ys, nw, nh, j)
    {
      out := AppendRow(out, xs, ys, nw, nh, j);
      j := j + 1;
    }
    return Ok(out);
  }

  lemma {:induction false} GridLength(xs: seq<real>, ys: seq<real>, nw: seq<int>, nh: seq<int>, rows: nat)
    requires Axes(xs, ys, nw, nh) && rows <= |nh|
    ensures |Grid(xs, ys, nw, nh, rows)| == rows * |nw|
  {
    if rows > 0 {
      GridLength(xs, ys, nw, nh, rows - 1);
      assert (rows - 1) * |nw| + |nw| == rows * |nw|;
    }
  }

  lemma MulLe(a: nat, b: nat, w: nat)
    requires a <= b
    ensures a * w <= b * w
  {
  }

  /** Cell `(i, j)` sits at position `j * columns + i`. */
  lemma {:induction false} GridIndex(xs: seq<real>, ys: seq<real>, nw: seq<int>, nh: seq<int>, rows: nat, i: nat, j: nat)
    requires Axes(xs, ys, nw, nh) && rows <= |nh| && i < |nw| && j < rows
    ensures j * |nw| + i < |Grid(xs, ys, nw, nh, rows)|
    ensures Grid(xs, ys, nw, nh, rows)[j * |nw| + i] == TileAt(xs, ys, nw, nh, i, j)
  {
    var w := |nw|;
    GridLength(xs, ys, nw, nh, rows - 1);
    var prev := Grid(xs, ys, nw, nh, rows - 1);
    var row := Row(xs, ys, nw, nh, rows - 1);
    assert Grid(xs, ys, nw, nh, rows) == prev + row;
    if j < rows - 1 {
      MulLe(j + 1, rows - 1, w);
      assert j * w + i < (j + 1) * w;
      GridIndex(xs, ys, nw, nh, rows - 1, i, j);
    } else {
      assert j * w + i == |prev| + i;
    }
  }

  lemma {:induction false} GridMembers(xs: seq<real>, ys: seq<real>, nw: seq<int>, nh: seq<int>, rows: nat, t: Tile)
    requires Axes(xs, ys, nw, nh) && rows <= |nh|
    requires t in Grid(xs, ys, nw, nh, rows)
    ensures exists i, j :: 0 <= i < |nw| && 0 <= j < rows && t == TileAt(xs, ys, nw, nh, i, j)
  {
    if t !in Row(xs, ys, nw, nh, rows - 1) {
      GridMembers(xs, ys, nw, nh, rows - 1, t);
    } else {
      var i :| 0 <= i < |nw| && Row(xs, ys, nw, nh, rows - 1)[i] == t;
    }
  }

  lemma MulBounded(a: int, b: int, n: int)
    requires 0 <= a <= n && 0 <= b <= n
    ensures 0 <= a * b <= n * n
  {
    assert a * b <= n * b <= n * n;
  }

  /**
   * A decomposition succeeds when both axes split; it has one cell per pair
   * of chunks, and the boundaries run from the west (south) edge over
   * `|east - west|` (`|north - south|`).
   */
  lemma DecompositionShape(bbox: Box, width: int, height: int, maxPx: int)
    requires maxPx >= 1
    ensures var n := ISqrt(maxPx);
      var sx := SplitDirectional(bbox.west, bbox.east, width, n);
      var sy := SplitDirectional(bbox.south, bbox.north, height, n);
      var r := Decomposition(bbox, width, height, maxPx);
      (r.Ok? <==> sx.Ok? && sy.Ok?) &&
      (r.Ok? ==>
        var (nw, xs) := sx.value;
        var (nh, ys) := sy.value;
        |r.value| == |nw| * |nh| &&
        xs[0] == bbox.west && xs[|nw|] == bbox.west + Abs(bbox.east - bbox.west) &&
        ys[0] == bbox.south && ys[|nh|] == bbox.south + Abs(bbox.north - bbox.south))
  {
    var n := ISqrt(maxPx);
    var sx := SplitDirectional(bbox.west, bbox.east, width, n);
    var sy := SplitDirectional(bbox.south, bbox.north, height, n);
    if sx.Ok? && sy.Ok? {
      SplitCoversExtent(bbox.west, bbox.east, width, n);
      SplitCoversExtent(bbox.south, bbox.north, height, n);
      GridLength(sx.value.1, sy.value.1, sx.value.0, sy.value.0, |sy.value.0|);
      assert |sy.value.0| * |sx.value.0| == |sx.value.0| * |sy.value.0|;
    }
  }

  /**
   * Cell `(i, j)` of a decomposition is at position `j * columns + i`, is
   * labelled `"i_j"`, spans boundaries `i` to `i + 1` and `j` to `j + 1`,
   * and carries chunk `i` as its width and chunk `j` as its height.
   */
  lemma DecompositionCell(bbox: Box, width: int, height: int, maxPx: int, i: nat, j: nat)
    requires maxPx >= 1
    requires var n := ISqrt(maxPx);
      var sx := SplitDirectional(bbox.west, bbox.east, width, n);
      var sy := SplitDirectional(bbox.south, bbox.north, height, n);
      sx.Ok? && sy.Ok? && i < |sx.value.0| && j < |sy.value.0|
    ensures var n := ISqrt(maxPx);
      var (nw, xs) := SplitDirectional(bbox.west, bbox.east, width, n).value;
      var (nh, ys) := SplitDirectional(bbox.south, bbox.north, height, n).value;
      var r := Decomposition(bbox, width, height, maxPx);
      r.Ok? && j * |nw| + i < |r.value| &&
      r.value[j * |nw| + i] == Tile(Box(xs[i], ys[j], xs[i + 1], ys[j + 1]), Label(i, j), nw[i], nh[j])
  {
    var n := ISqrt(maxPx);
    var sx := SplitDirectional(bbox.west, bbox.east, width, n);
    var sy := SplitDirectional(bbox.south, bbox.north, height, n);
    GridIndex(sx.value.1, sy.value.1, sx.value.0, sy.value.0, |sy.value.0|, i, j);
  }

  /** No cell has more pixels than the budget, and no cell has a negative size. */
  lemma DecompositionWithinBudget(bbox: Box, width: int, height: int, maxPx: int)
    ensures var r := Decomposition(bbox, width, height, maxPx);
      r.Ok? ==> forall t :: t in r.value ==> 0 <= t.width && 0 <= t.height && t.width * t.height <= maxPx
  {
    var r := Decomposition(bbox, width, height, maxPx);
    if r.Ok? {
      var n := ISqrt(maxPx);
      var sx := SplitDirectional(bbox.west, bbox.east, width, n);
      var sy := SplitDirectional(bbox.south, bbox.north, height, n);
      forall t | t in r.value ensures 0 <= t.width && 0 <= t.height && t.width * t.height <= maxPx {
        GridMembers(sx.value.1, sy.value.1, sx.value.0, sy.value.0, |sy.value.0|, t);
        MulBounded(t.width, t.height, n);
      }
    }
  }

  /** The integer square root is unique. */
  lemma ISqrtUnique(m: nat, r: nat)
    requires r * r <= m < (r + 1) * (r + 1)
    ensures ISqrt(m) == r
  {
    var s := ISqrt(m);
    if s < r {
      MulLe(s + 1, r, s + 1);
      MulLe(s + 1, r, r);
    } else if s > r {
      MulLe(r + 1, s, r + 1);
      MulLe(r + 1, s, s);
    }
  }

  /** A pixel count smaller than the side splits into one chunk spanning the whole extent. */
  lemma SplitSingleChunk(low: real, high: real, px: int, n: nat)
    requires 0 < px < n && low <= high
    ensures SplitDirectional(low, high, px, n) == Ok(([px], [low, high]))
  {
    SingleChunk(px, n);
    assert Abs(high - low) == high - low;
    BoundariesEnd(low, high - low, [px], px);
    var b := Boundaries(low, Steps(high - low, [px], px));
    assert |b| == 2 && b[0] == low && b[1] == high;
    assert b == [low, high];
  }

  lemma SingleChunk(px: int, n: nat)
    requires 0 < px < n
    ensures Chunks(px, n) == [px] && Sum([px]) == px
  {
    assert px / n == 0 && px % n == px;
    assert seq(0, _ => n) == [];
    assert [px][..0] == [];
  }

  lemma SingleCellGrid(bbox: Box, width: int, height: int)
    ensures Grid([bbox.west, bbox.east], [bbox.south, bbox.north], [width], [height], 1)
         == [Tile(bbox, "0_0", width, height)]
  {
    var xs, ys := [bbox.west, bbox.east], [bbox.south, bbox.north];
    assert Grid(xs, ys, [width], [height], 1) == Row(xs, ys, [width], [height], 0);
    assert Label(0, 0) == "0_0";
  }

  /** A box smaller than one tile side in both directions comes back whole as the single cell `"0_0"`. */
  lemma SmallBoxSingleTile(bbox: Box, width: int, height: int, maxPx: int)
    requires maxPx >= 1
    requires 0 < width < ISqrt(maxPx) && 0 < height < ISqrt(maxPx)
    requires bbox.west <= bbox.east && bbox.south <= bbox.north
    ensures Decomposition(bbox, width, height, maxPx) == Ok([Tile(bbox, "0_0", width, height)])
  {
    var n := ISqrt(maxPx);
    assert TileSide(maxPx) == Ok(n);
    SplitSingleChunk(bbox.west, bbox.east, width, n);
    SplitSingleChunk(bbox.south, bbox.north, height, n);
    var xs, ys := [bbox.west, bbox.east], [bbox.south, bbox.north];
    assert Decomposition(bbox, width, height, maxPx) == Ok(Grid(xs, ys, [width], [height], 1));
    SingleCellGrid(bbox, width, height);
  }

  /**
   * The pixel budget check before the split has no effect: a 3 x 1 raster
   * fits a budget of 4 pixels, yet it is still split into two cells.
   */
  lemma BudgetCheckIgnored()
    ensures var r := Decomposition(Box(0.0, 0.0, 3.0, 1.0), 3, 1, 4);
      3 * 1 <= 4 && r.Ok? && |r.value| == 2
  {
    ISqrtUnique(4, 2);
    assert Chunks(3, 2) == [2, 1];
    assert Sum([2, 1]) == 3 by {
      assert [2, 1][..1] == [2];
      assert [2][..0] == [];
    }
    assert Chunks(1, 2) == [1];
    assert Sum([1]) == 1 by {
      assert [1][..0] == [];
    }
    var sx := SplitDirectional(0.0, 3.0, 3, 2);
    var sy := SplitDirectional(0.0, 1.0, 1, 2);
    assert |Grid(sx.value.1, sy.value.1, sx.value.0, sy.value.0, 1)| == 2;
  }
}
