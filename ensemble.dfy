/**
 * Ensembling of segmentation models: the voxel-wise mean of the models'
 * lesion probabilities, thresholded at one half, and the three drivers that
 * apply it to every prediction file of a folder (3D-UNet, nnUNet and
 * DeepMedic outputs), including nnUNet's LPS-to-RAS affine.
 */
module Ensemble {
  import opened Results
  import opened Volumes
  import opened Text

  /** A value of numpy's uint8. */
  type U8 = x: int | 0 <= x < 256

  /** A plain numpy 3-D array, indexed `[x][y][z]`. */
  datatype Array3<T> = Array3(shape: Shape, values: seq<seq<seq<T>>>) {
    predicate Valid()
    {
      && |values| == shape.nx
      && forall x :: 0 <= x < |values| ==> |values[x]| == shape.ny && forall y :: 0 <= y < |values[x]| ==> |values[x][y]| == shape.nz
    }
  }

  datatype Voxel = Voxel(x: nat, y: nat, z: nat)

  predicate InGrid(s: Shape, v: Voxel) { v.x < s.nx && v.y < s.ny && v.z < s.nz }

  predicate Has<T>(a: Array3<T>, v: Voxel) { v.x < |a.values| && v.y < |a.values[v.x]| && v.z < |a.values[v.x][v.y]| }

  function Get<T>(a: Array3<T>, v: Voxel): T
    requires Has(a, v)
  {
    a.values[v.x][v.y][v.z]
  }

  lemma ValidHas<T>(a: Array3<T>, v: Voxel)
    requires a.Valid()
    ensures Has(a, v) <==> InGrid(a.shape, v)
  {
  }

  /** Every model's array is valid and on the first model's grid. */
  predicate Uniform(data: seq<Array3<real>>)
  {
    && |data| > 0
    && forall m :: 0 <= m < |data| ==> data[m].Valid() && data[m].shape == data[0].shape
  }

  /** The sum over models of their value at voxel `v`. */
  function ColumnSum(data: seq<Array3<real>>, v: Voxel): real
    requires forall m :: 0 <= m < |data| ==> Has(data[m], v)
  {
    if |data| == 0 then 0.0 else ColumnSum(data[..|data| - 1], v) + Get(data[|data| - 1], v)
  }

  /** The ensemble's decision at one voxel: mean over the models, compared with one half. */
  function Vote(data: seq<Array3<real>>, v: Voxel): (r: U8)
    requires |data| > 0 && forall m :: 0 <= m < |data| ==> Has(data[m], v)
    ensures r == 1 <==> ColumnSum(data, v) >= 0.5 * |data| as real
    ensures r == 0 <==> ColumnSum(data, v) < 0.5 * |data| as real
  {
    var n := |data| as real;
    MeanThreshold(ColumnSum(data, v), n);
    if ColumnSum(data, v) / n >= 0.5 then 1 else 0
  }

  /**
   * `ensemble_func`: the mean over the model axis, then `>= 0.5` as uint8.
   * The model axis is dropped, and a voxel is 1 exactly when the models'
   * probabilities there sum to at least half the number of models.
   */
  function EnsembleFunc(data: seq<Array3<real>>): (r: Array3<U8>)
    requires Uniform(data)
    ensures r.Valid() && r.shape == data[0].shape
    ensures forall v :: InGrid(r.shape, v) ==>
      && Has(r, v)
      && (Get(r, v) == 1 <==> ColumnSum(data, v) >= 0.5 * |data| as real)
      && (Get(r, v) == 0 <==> ColumnSum(data, v) < 0.5 * |data| as real)
  {
    var s := data[0].shape;
    Array3(s, seq(s.nx, x requires 0 <= x < s.nx =>
      seq(s.ny, y requires 0 <= y < s.ny =>
        seq(s.nz, z requires 0 <= z < s.nz => Vote(data, Voxel(x, y, z))))))
  }

  /** Comparing a mean with one half is comparing the sum with half the count. */
  lemma MeanThreshold(sum: real, n: real)
    requires n > 0.0
    ensures sum / n >= 0.5 <==> sum >= 0.5 * n
  {
    assert sum / n * n == sum;
    if sum / n >= 0.5 {
      assert sum / n * n >= 0.5 * n;
    } else {
      assert sum / n * n < 0.5 * n;
    }
  }

  lemma {:induction false} ColumnSumAppend(a: seq<Array3<real>>, b: seq<Array3<real>>, v: Voxel)
    requires forall m :: 0 <= m < |a| ==> Has(a[m], v)
    requires forall m :: 0 <= m < |b| ==> Has(b[m], v)
    ensures ColumnSum(a + b, v) == ColumnSum(a, v) + ColumnSum(b, v)
  {
    if |b| == 0 {
      assert a + b == a;
    } else {
      assert (a + b)[..|a + b| - 1] == a + b[..|b| - 1];
      ColumnSumAppend(a, b[..|b| - 1], v);
    }
  }

  /** Taking one model out of the list takes its value out of the sum. */
  lemma ColumnSumRemove(b: seq<Array3<real>>, j: nat, v: Voxel)
    requires j < |b|
    requires forall m :: 0 <= m < |b| ==> Has(b[m], v)
    ensures ColumnSum(b, v) == ColumnSum(b[..j] + b[j + 1..], v) + Get(b[j], v)
  {
    assert b == (b[..j] + [b[j]]) + b[j + 1..];
    ColumnSumAppend(b[..j] + [b[j]], b[j + 1..], v);
    ColumnSumAppend(b[..j], [b[j]], v);
    ColumnSumAppend(b[..j], b[j + 1..], v);
    assert ColumnSum([b[j]], v) == Get(b[j], v) by {
      assert [b[j]][..0] == [];
    }
  }

  lemma MultisetRemove<T>(b: seq<T>, j: nat)
    requires j < |b|
    ensures multiset(b) == multiset(b[..j] + b[j + 1..]) + multiset{b[j]}
  {
    assert b == b[..j] + [b[j]] + b[j + 1..];
  }

  /** Removing the same element from two permutations of each other leaves two permutations. */
  lemma MultisetRemoveMatching<T>(a: seq<T>, b: seq<T>, j: nat)
    requires multiset(a) == multiset(b) && |a| > 0 && j < |b| && b[j] == a[|a| - 1]
    ensures multiset(a[..|a| - 1]) == multiset(b[..j] + b[j + 1..])
  {
    var x, front, rest := b[j], a[..|a| - 1], b[..j] + b[j + 1..];
    MultisetRemove(b, j);
    assert a == front + [x];
    assert multiset(front) + multiset{x} == multiset(rest) + multiset{x};
    assert multiset(front) == (multiset(front) + multiset{x}) - multiset{x};
    assert multiset(rest) == (multiset(rest) + multiset{x}) - multiset{x};
  }

  /** Reordering the models does not change the sum at a voxel. */
  lemma {:induction false} ColumnSumPermutation(a: seq<Array3<real>>, b: seq<Array3<real>>, v: Voxel)
    requires multiset(a) == multiset(b)
    requires forall m :: 0 <= m < |a| ==> Has(a[m], v)
    requires forall m :: 0 <= m < |b| ==> Has(b[m], v)
    ensures ColumnSum(a, v) == ColumnSum(b, v)
    decreases |a|
  {
    if |a| == 0 {
      assert |b| == |multiset(b)| == 0;
    } else {
      var last := |a| - 1;
      var x := a[last];
      assert x in multiset(b);
      var j :| 0 <= j < |b| && b[j] == x;
      var rest := b[..j] + b[j + 1..];
      MultisetRemoveMatching(a, b, j);
      assert forall m :: 0 <= m < |rest| ==> Has(rest[m], v) by {
        assert forall m :: 0 <= m < |rest| ==> rest[m] == if m < j then b[m] else b[m + 1];
      }
      ColumnSumPermutation(a[..last], rest, v);
      ColumnSumRemove(b, j, v);
    }
  }

  /** The ensemble does not depend on the order of the model list. */
  lemma EnsembleOrderIrrelevant(data: seq<Array3<real>>, reordered: seq<Array3<real>>)
    requires Uniform(data) && multiset(reordered) == multiset(data)
    ensures Uniform(reordered)
    ensures EnsembleFunc(reordered) == EnsembleFunc(data)
  {
    assert |reordered| == |multiset(data)| == |data|;
    forall m | 0 <= m < |reordered| ensures reordered[m].Valid() && reordered[m].shape == data[0].shape {
      assert reordered[m] in multiset(data);
    }
    assert reordered[0] in multiset(data);
    var r, e := EnsembleFunc(reordered), EnsembleFunc(data);
    forall v | InGrid(e.shape, v) ensures Get(r, v) == Get(e, v) {
      ColumnSumPermutation(data, reordered, v);
    }
    ArrayExtensional(r, e);
  }

  /** Two valid arrays on one grid with the same value everywhere are equal. */
  lemma ArrayExtensional<T>(a: Array3<T>, b: Array3<T>)
    requires a.Valid() && b.Valid() && a.shape == b.shape
    requires forall v :: InGrid(a.shape, v) ==> Get(a, v) == Get(b, v)
    ensures a == b
  {
    forall x | 0 <= x < a.shape.nx ensures a.values[x] == b.values[x] {
      forall y | 0 <= y < a.shape.ny ensures a.values[x][y] == b.values[x][y] {
        forall z | 0 <= z < a.shape.nz ensures a.values[x][y][z] == b.values[x][y][z] {
          assert Get(a, Voxel(x, y, z)) == Get(b, Voxel(x, y, z));
        }
      }
    }
  }

  lemma {:induction false} ColumnSumAtLeast(data: seq<Array3<real>>, v: Voxel, lo: real)
    requires forall m :: 0 <= m < |data| ==> Has(data[m], v) && Get(data[m], v) >= lo
    ensures ColumnSum(data, v) >= lo * |data| as real
  {
    if |data| > 0 { ColumnSumAtLeast(data[..|data| - 1], v, lo); }
  }

  lemma {:induction false} ColumnSumBelow(data: seq<Array3<real>>, v: Voxel, hi: real)
    requires |data| > 0
    requires forall m :: 0 <= m < |data| ==> Has(data[m], v) && Get(data[m], v) < hi
    ensures ColumnSum(data, v) < hi * |data| as real
  {
    if |data| > 1 { ColumnSumBelow(data[..|data| - 1], v, hi); }
  }

  /** Unanimity: where every model says at least one half the ensemble says 1, where every model says less it says 0. */
  lemma EnsembleUnanimous(data: seq<Array3<real>>, v: Voxel)
    requires Uniform(data) && InGrid(data[0].shape, v)
    ensures forall m :: 0 <= m < |data| ==> Has(data[m], v)
    ensures (forall m :: 0 <= m < |data| ==> Get(data[m], v) >= 0.5) ==> Get(EnsembleFunc(data), v) == 1
    ensures (forall m :: 0 <= m < |data| ==> Get(data[m], v) < 0.5) ==> Get(EnsembleFunc(data), v) == 0
  {
    if forall m :: 0 <= m < |data| ==> Get(data[m], v) >= 0.5 {
      ColumnSumAtLeast(data, v, 0.5);
    }
    if forall m :: 0 <= m < |data| ==> Get(data[m], v) < 0.5 {
      ColumnSumBelow(data, v, 0.5);
    }
  }

  lemma {:induction false} ColumnSumMonotone(lower: seq<Array3<real>>, upper: seq<Array3<real>>, v: Voxel)
    requires |lower| == |upper|
    requires forall m :: 0 <= m < |lower| ==> Has(lower[m], v) && Has(upper[m], v) && Get(lower[m], v) <= Get(upper[m], v)
    ensures ColumnSum(lower, v) <= ColumnSum(upper, v)
  {
    if |lower| > 0 { ColumnSumMonotone(lower[..|lower| - 1], upper[..|upper| - 1], v); }
  }

  /** Monotonicity: raising any model's probabilities never turns a 1 into a 0. */
  lemma EnsembleMonotone(lower: seq<Array3<real>>, upper: seq<Array3<real>>, v: Voxel)
    requires Uniform(lower) && Uniform(upper) && |lower| == |upper| && lower[0].shape == upper[0].shape
    requires InGrid(lower[0].shape, v)
    requires forall m :: 0 <= m < |lower| ==> Get(lower[m], v) <= Get(upper[m], v)
    ensures Get(EnsembleFunc(lower), v) <= Get(EnsembleFunc(upper), v)
  {
    ColumnSumMonotone(lower, upper, v);
  }

  // ------------------------------------------------------------ nnUNet affine

  /**
   * The affine of the header metadata, in LPS: the direction block
   * (row-major, as `reshape(3, 3)` reads it), the origin as column 3, and the
   * homogeneous row 0 0 0 1.
   */
  function LpsAffine(direction: seq<real>, origin: Vec3): seq<seq<real>>
    requires |direction| == 9
  {
    [ [direction[0], direction[1], direction[2], origin.x],
      [direction[3], direction[4], direction[5], origin.y],
      [direction[6], direction[7], direction[8], origin.z],
      [0.0, 0.0, 0.0, 1.0] ]
  }

  /** Rows 0 and 1 negated: LPS to RAS. */
  function FlipXY(m: seq<seq<real>>): seq<seq<real>>
  {
    seq(|m|, row requires 0 <= row < |m| => if row < 2 then seq(|m[row]|, col requires 0 <= col < |m[row]| => -m[row][col]) else m[row])
  }

  /** The affine the nnUNet driver writes. */
  function RasAffine(direction: seq<real>, origin: Vec3): seq<seq<real>>
    requires |direction| == 9
  {
    FlipXY(LpsAffine(direction, origin))
  }

  /** One row of an affine applied to a point: `a x + b y + c z + o`. */
  function Row(a: real, b: real, c: real, o: real, v: Vec3): real
  {
    a * v.x + b * v.y + c * v.z + o
  }

  /** A negated row gives the negated coordinate. */
  lemma NegatedRow(a: real, b: real, c: real, o: real, v: Vec3)
    ensures Row(-a, -b, -c, -o, v) == -Row(a, b, c, o, v)
  {
  }

  /** The physical point of a voxel index in LPS: direction times index, plus origin. */
  function LpsPoint(direction: seq<real>, origin: Vec3, v: Vec3): Vec3
    requires |direction| == 9
  {
    Vec3(
      Row(direction[0], direction[1], direction[2], origin.x, v),
      Row(direction[3], direction[4], direction[5], origin.y, v),
      Row(direction[6], direction[7], direction[8], origin.z, v))
  }

  /** A 4x4 affine applied to a point in homogeneous coordinates (its first three rows). */
  function ApplyAffine(m: seq<seq<real>>, v: Vec3): Vec3
    requires |m| >= 3 && forall row :: 0 <= row < 3 ==> |m[row]| == 4
  {
    Vec3(
      Row(m[0][0], m[0][1], m[0][2], m[0][3], v),
      Row(m[1][0], m[1][1], m[1][2], m[1][3], v),
      Row(m[2][0], m[2][1], m[2][2], m[2][3], v))
  }

  /**
   * The written affine is 4x4, sends each voxel index to its LPS point with
   * x and y negated (the same point in RAS), and keeps the homogeneous row.
   */
  lemma RasAffineIsLpsFlipped(direction: seq<real>, origin: Vec3, v: Vec3)
    requires |direction| == 9
    ensures var m := RasAffine(direction, origin);
      && |m| == 4 && (forall row :: 0 <= row < 4 ==> |m[row]| == 4)
      && ApplyAffine(m, v) == Vec3(-LpsPoint(direction, origin, v).x, -LpsPoint(direction, origin, v).y, LpsPoint(direction, origin, v).z)
      && m[3] == [0.0, 0.0, 0.0, 1.0]
  {
    var d := direction;
    RasRows(d, origin);
    NegatedRow(d[0], d[1], d[2], origin.x, v);
    NegatedRow(d[3], d[4], d[5], origin.y, v);
  }

  /** The RAS affine written out row by row. */
  lemma RasRows(d: seq<real>, origin: Vec3)
    requires |d| == 9
    ensures RasAffine(d, origin) ==
      [ [-d[0], -d[1], -d[2], -origin.x],
        [-d[3], -d[4], -d[5], -origin.y],
        [d[6], d[7], d[8], origin.z],
        [0.0, 0.0, 0.0, 1.0] ]
  {
    var m := RasAffine(d, origin);
    assert m[0] == [-d[0], -d[1], -d[2], -origin.x];
    assert m[1] == [-d[3], -d[4], -d[5], -origin.y];
  }

  /** `affine[:3, :3] = direction.reshape(3, 3)`. */
  method SetBlock(affine: array2<real>, direction: seq<real>)
    requires |direction| == 9 && affine.Length0 == 4 && affine.Length1 == 4
    modifies affine
    ensures forall i, j :: 0 <= i < 4 && 0 <= j < 4 ==>
      affine[i, j] == if i < 3 && j < 3 then direction[3 * i + j] else old(affine[i, j])
  {
    for row := 0 to 3
      invariant forall i, j :: 0 <= i < 4 && 0 <= j < 4 ==>
        affine[i, j] == if i < row && j < 3 then direction[3 * i + j] else old(affine[i, j])
    {
      for col := 0 to 3
        invariant forall i, j :: 0 <= i < 4 && 0 <= j < 4 ==>
          affine[i, j] == if (i < row || (i == row && j < col)) && j < 3 then direction[3 * i + j] else old(affine[i, j])
      {
        affine[row, col] := direction[3 * row + col];
      }
    }
  }

  /** `affine[:3, 3] = origin`. */
  method SetOriginColumn(affine: array2<real>, origin: Vec3)
    requires affine.Length0 == 4 && affine.Length1 == 4
    modifies affine
    ensures forall i, j :: 0 <= i < 4 && 0 <= j < 4 ==>
      affine[i, j] == if i < 3 && j == 3 then Coord(origin, i) else old(affine[i, j])
  {
    for row := 0 to 3
      invariant forall i, j :: 0 <= i < 4 && 0 <= j < 4 ==>
        affine[i, j] == if i < row && j == 3 then Coord(origin, i) else old(affine[i, j])
    {
      affine[row, 3] := Coord(origin, row);
    }
  }

  /** `affine[row, :] = -affine[row, :]`. */
  method NegateRow(affine: array2<real>, row: nat)
    requires row < affine.Length0
    modifies affine
    ensures forall i, j :: 0 <= i < affine.Length0 && 0 <= j < affine.Length1 ==>
      affine[i, j] == if i == row then -old(affine[i, j]) else old(affine[i, j])
  {
    for col := 0 to affine.Length1
      invariant forall i, j :: 0 <= i < affine.Length0 && 0 <= j < affine.Length1 ==>
        affine[i, j] == if i == row && j < col then -old(affine[i, j]) else old(affine[i, j])
    {
      affine[row, col] := -affine[row, col];
    }
  }

  /**
   * The in-place construction of `ensemble_nnUNet`: zeros, [3, 3] = 1, the
   * direction block, the origin column, then rows 0 and 1 negated.
   */
  method NnUNetAffine(direction: seq<real>, origin: Vec3) returns (affine: array2<real>)
    requires |direction| == 9
    ensures fresh(affine) && affine.Length0 == 4 && affine.Length1 == 4
    ensures forall i, j :: 0 <= i < 4 && 0 <= j < 4 ==> affine[i, j] == RasAffine(direction, origin)[i][j]
  {
    affine := new real[4, 4]((_, _) => 0.0);
    affine[3, 3] := 1.0;
    SetBlock(affine, direction);
    SetOriginColumn(affine, origin);
    ghost var lps := LpsAffine(direction, origin);
    assert forall i, j :: 0 <= i < 4 && 0 <= j < 4 ==> affine[i, j] == lps[i][j];
    NegateRow(affine, 0);
    NegateRow(affine, 1);
  }

  // --------------------------------------------------------------- swapaxes

  function Swapped(s: Shape): Shape { Shape(s.nz, s.ny, s.nx) }

  /** `np.swapaxes(a, 0, 2)`: the value at [z][y][x] of the result is the value at [x][y][z]. */
  function SwapAxes02<T>(a: Array3<T>): (r: Array3<T>)
    requires a.Valid()
    ensures r.Valid() && r.shape == Swapped(a.shape)
    ensures forall v :: InGrid(a.shape, v) ==> Has(r, Voxel(v.z, v.y, v.x)) && Get(r, Voxel(v.z, v.y, v.x)) == Get(a, v)
  {
    var t := Swapped(a.shape);
    Array3(t, seq(t.nx, x requires 0 <= x < t.nx =>
      seq(t.ny, y requires 0 <= y < t.ny =>
        seq(t.nz, z requires 0 <= z < t.nz => a.values[z][y][x]))))
  }

  /** Swapping the same two axes twice gives the array back. */
  lemma SwapAxes02Involution<T>(a: Array3<T>)
    requires a.Valid()
    ensures SwapAxes02(SwapAxes02(a)) == a
  {
    var b := SwapAxes02(SwapAxes02(a));
    forall v | InGrid(a.shape, v) ensures Get(b, v) == Get(a, v) {
      assert InGrid(Swapped(a.shape), Voxel(v.z, v.y, v.x));
    }
    ArrayExtensional(b, a);
  }

  // ---------------------------------------------------------------- drivers

  /** The three drivers: `ensemble_3DUNet`, `ensemble_nnUNet`, `ensemble_deepmedic`. */
  datatype Mode = UNet3D | NnUNet | DeepMedic

  /** The file-name ending each driver processes. */
  function Suffix(mode: Mode): (r: string)
    ensures |r| > 0 && r[0] != '/'
  {
    match mode
    case UNet3D => "_probabilities.nii.gz"
    case NnUNet => ".npz"
    case DeepMedic => "_ProbMapClass1.nii.gz"
  }

  /** The output name: the suffix replaced by ".nii.gz" (with `str.replace`, so every occurrence). */
  function OutputName(mode: Mode, filename: string): string
  {
    ReplaceAll(filename, Suffix(mode), ".nii.gz")
  }

  /** When the suffix occurs only at the end of the name, the output name is the stem plus ".nii.gz". */
  lemma OutputNameOfStem(mode: Mode, stem: string)
    requires forall k :: 0 <= k < |stem| ==> !StartsWith((stem + Suffix(mode))[k..], Suffix(mode))
    ensures OutputName(mode, stem + Suffix(mode)) == stem + ".nii.gz"
  {
    ReplaceSoleSuffix(stem, Suffix(mode), ".nii.gz");
  }

  /** The files of a listing that a driver processes, in listing order. */
  function Selected(mode: Mode, listing: seq<string>): (r: seq<string>)
    ensures forall k :: 0 <= k < |r| ==> EndsWith(r[k], Suffix(mode))
  {
    if |listing| == 0 then []
    else if EndsWith(listing[0], Suffix(mode)) then [listing[0]] + Selected(mode, listing[1..])
    else Selected(mode, listing[1..])
  }

  /** Exactly the listed names with the mode's suffix are selected. */
  lemma {:induction false} SelectedMembers(mode: Mode, listing: seq<string>, f: string)
    ensures f in Selected(mode, listing) <==> f in listing && EndsWith(f, Suffix(mode))
  {
    if |listing| > 0 {
      SelectedMembers(mode, listing[1..], f);
      assert listing == [listing[0]] + listing[1..];
    }
  }

  /** The sitk metadata of an nnUNet prediction (`sitk_stuff` of its .pkl file). */
  datatype SitkMetadata = SitkMetadata(direction: seq<real>, origin: Vec3)

  /**
   * The file reads of the drivers: a prediction's probabilities (for nnUNet,
   * channel 1 of its "probabilities" array), a NIfTI file's affine, and the
   * metadata of an nnUNet prediction.
   */
  datatype EnsembleIO = EnsembleIO(
    probabilities: string -> Array3<real>,
    affine: string -> seq<seq<real>>,
    metadata: string -> SitkMetadata)

  /** One written NIfTI file. */
  datatype Saved = Saved(path: string, mask: Array3<U8>, affine: seq<seq<real>>)

  /**
   * How a driver stops: no input folder (`input_folders[0]`), predictions of
   * different shapes (`np.mean`), or a direction that is not nine numbers
   * (`reshape(3, 3)`).
   */
  datatype EnsembleError = NoInputFolders | ShapeMismatch(filename: string) | BadDirection(filename: string)

  /** The predictions of one file name, one per input folder, in folder order. */
  function Predictions(io: EnsembleIO, inputFolders: seq<string>, filename: string): (r: seq<Array3<real>>)
    ensures |r| == |inputFolders|
    ensures forall k :: 0 <= k < |r| ==> r[k] == io.probabilities(Join(inputFolders[k], filename))
  {
    seq(|inputFolders|, k requires 0 <= k < |inputFolders| => io.probabilities(Join(inputFolders[k], filename)))
  }

  /** The metadata file of an nnUNet prediction: its ".npz" replaced by ".pkl", in the first folder. */
  function MetadataPath(inputFolders: seq<string>, filename: string): string
    requires |inputFolders| > 0
  {
    Join(inputFolders[0], ReplaceAll(filename, ".npz", ".pkl"))
  }

  /**
   * What a driver writes for one selected file: the ensemble of its
   * predictions under the output name, with the first folder's affine, or
   * for nnUNet the axes-swapped ensemble with the RAS affine of its metadata.
   * nnUNet reads the metadata and reshapes its direction before it
   * ensembles, so a bad direction is reported ahead of a shape mismatch.
   */
  function EnsembleFile(mode: Mode, io: EnsembleIO, inputFolders: seq<string>, outputFolder: string, filename: string): (r: Result<Saved, EnsembleError>)
    requires |inputFolders| > 0
    ensures mode == NnUNet ==>
      (r == Err(BadDirection(filename)) <==> |io.metadata(MetadataPath(inputFolders, filename)).direction| != 9)
    ensures r == Err(ShapeMismatch(filename)) <==>
      && !Uniform(Predictions(io, inputFolders, filename))
      && (mode == NnUNet ==> |io.metadata(MetadataPath(inputFolders, filename)).direction| == 9)
    ensures r.Err? ==> r.error == ShapeMismatch(filename) || r.error == BadDirection(filename)
    ensures mode != NnUNet ==> r.Err? ==> r.error == ShapeMismatch(filename)
    ensures r.Ok? ==> r.value.path == Join(outputFolder, OutputName(mode, filename))
    ensures r.Ok? ==> r.value.mask.shape == if mode == NnUNet then Swapped(Predictions(io, inputFolders, filename)[0].shape) else Predictions(io, inputFolders, filename)[0].shape
    ensures r.Ok? <==>
      && Uniform(Predictions(io, inputFolders, filename))
      && (mode == NnUNet ==> |io.metadata(MetadataPath(inputFolders, filename)).direction| == 9)
    ensures r.Ok? && mode == NnUNet ==>
      var data, meta := Predictions(io, inputFolders, filename), io.metadata(MetadataPath(inputFolders, filename));
      && Uniform(data) && |meta.direction| == 9
      && r.value.mask == SwapAxes02(EnsembleFunc(data))
      && r.value.affine == RasAffine(meta.direction, meta.origin)
    ensures r.Ok? && mode != NnUNet ==>
      var data := Predictions(io, inputFolders, filename);
      && Uniform(data)
      && r.value.mask == EnsembleFunc(data)
      && r.value.affine == io.affine(Join(inputFolders[0], filename))
  {
    var data := Predictions(io, inputFolders, filename);
    var path := Join(outputFolder, OutputName(mode, filename));
    if mode == NnUNet then
      var meta := io.metadata(MetadataPath(inputFolders, filename));
      if |meta.direction| != 9 then Err(BadDirection(filename))
      else if !Uniform(data) then Err(ShapeMismatch(filename))
      else Ok(Saved(path, SwapAxes02(EnsembleFunc(data)), RasAffine(meta.direction, meta.origin)))
    else if !Uniform(data) then Err(ShapeMismatch(filename))
    else Ok(Saved(path, EnsembleFunc(data), io.affine(Join(inputFolders[0], filename))))
  }

  /**
   * The voxels a driver writes for one file: the vote of the folders'
   * probabilities at [x][y][z], found at [x][y][z] of the written mask, or
   * at [z][y][x] for nnUNet, whose ensemble has its axes 0 and 2 swapped.
   */
  lemma EnsembleFileVotes(mode: Mode, io: EnsembleIO, inputFolders: seq<string>, outputFolder: string, filename: string, v: Voxel)
    requires |inputFolders| > 0
    requires EnsembleFile(mode, io, inputFolders, outputFolder, filename).Ok?
    requires InGrid(Predictions(io, inputFolders, filename)[0].shape, v)
    ensures var mask, data := EnsembleFile(mode, io, inputFolders, outputFolder, filename).value.mask, Predictions(io, inputFolders, filename);
      var w := if mode == NnUNet then Voxel(v.z, v.y, v.x) else v;
      && (forall m :: 0 <= m < |data| ==> Has(data[m], v))
      && Has(mask, w)
      && (Get(mask, w) == 1 <==> ColumnSum(data, v) >= 0.5 * |inputFolders| as real)
      && (Get(mask, w) == 0 <==> ColumnSum(data, v) < 0.5 * |inputFolders| as real)
  {
    var data := Predictions(io, inputFolders, filename);
    var e := EnsembleFunc(data);
    forall m | 0 <= m < |data| ensures Has(data[m], v) {
      ValidHas(data[m], v);
    }
    if mode == NnUNet {
      assert InGrid(e.shape, v);
      assert Get(SwapAxes02(e), Voxel(v.z, v.y, v.x)) == Get(e, v);
    }
  }

  /**
   * The affine nnUNet's driver writes sends each voxel index to the RAS
   * point of the metadata's LPS geometry: x and y negated.
   */
  lemma EnsembleFileRasAffine(io: EnsembleIO, inputFolders: seq<string>, outputFolder: string, filename: string, p: Vec3)
    requires |inputFolders| > 0
    requires EnsembleFile(NnUNet, io, inputFolders, outputFolder, filename).Ok?
    ensures var m, meta := EnsembleFile(NnUNet, io, inputFolders, outputFolder, filename).value.affine, io.metadata(MetadataPath(inputFolders, filename));
      && |meta.direction| == 9
      && |m| == 4 && (forall row :: 0 <= row < 4 ==> |m[row]| == 4)
      && ApplyAffine(m, p) == Vec3(-LpsPoint(meta.direction, meta.origin, p).x, -LpsPoint(meta.direction, meta.origin, p).y, LpsPoint(meta.direction, meta.origin, p).z)
      && m[3] == [0.0, 0.0, 0.0, 1.0]
  {
    var meta := io.metadata(MetadataPath(inputFolders, filename));
    RasAffineIsLpsFlipped(meta.direction, meta.origin, p);
  }

  /**
   * A driver's loop over the listing of the first input folder, with `step`
   * the work done for one selected file: the files written, in order, and
   * whether the loop reached the end.
   */
  function Run(mode: Mode, step: string -> Result<Saved, EnsembleError>, listing: seq<string>): (seq<Saved>, Outcome<EnsembleError>)
  {
    if |listing| == 0 then ([], Pass)
    else if !EndsWith(listing[0], Suffix(mode)) then Run(mode, step, listing[1..])
    else match step(listing[0])
      case Err(e) => ([], Fail(e))
      case Ok(saved) =>
        var rest := Run(mode, step, listing[1..]);
        ([saved] + rest.0, rest.1)
  }

  /** The k-th file written is the step's result for the k-th selected name. */
  lemma {:induction false} RunWritesSelected(mode: Mode, step: string -> Result<Saved, EnsembleError>, listing: seq<string>)
    ensures var r, selected := Run(mode, step, listing), Selected(mode, listing);
      && |r.0| <= |selected|
      && forall k :: 0 <= k < |r.0| ==> step(selected[k]) == Ok(r.0[k])
  {
    if |listing| > 0 {
      var tail := listing[1..];
      RunWritesSelected(mode, step, tail);
      if EndsWith(listing[0], Suffix(mode)) && step(listing[0]).Ok? {
        var r, rest := Run(mode, step, listing), Run(mode, step, tail);
        var selected := Selected(mode, listing);
        assert r.0 == [step(listing[0]).value] + rest.0;
        assert selected == [listing[0]] + Selected(mode, tail);
        forall k | 0 < k < |r.0| ensures step(selected[k]) == Ok(r.0[k]) {
          assert r.0[k] == rest.0[k - 1] && selected[k] == Selected(mode, tail)[k - 1];
        }
      }
    }
  }

  /**
   * A run passes exactly when it writes one file per selected name;
   * otherwise it stops at the first selected name whose step fails, with
   * that step's error.
   */
  lemma {:induction false} RunStops(mode: Mode, step: string -> Result<Saved, EnsembleError>, listing: seq<string>)
    ensures var r, selected := Run(mode, step, listing), Selected(mode, listing);
      && (r.1.Pass? <==> |r.0| == |selected|)
      && (r.1.Fail? ==> |r.0| < |selected| && step(selected[|r.0|]) == Err(r.1.error))
  {
    if |listing| > 0 {
      var tail := listing[1..];
      var r, rest := Run(mode, step, listing), Run(mode, step, tail);
      var selected, later := Selected(mode, listing), Selected(mode, tail);
      RunStops(mode, step, tail);
      if !EndsWith(listing[0], Suffix(mode)) {
        assert r == rest && selected == later;
      } else if step(listing[0]).Err? {
        assert r == ([], Fail(step(listing[0]).error)) && selected == [listing[0]] + later;
      } else {
        assert r == ([step(listing[0]).value] + rest.0, rest.1) && selected == [listing[0]] + later;
        assert r.1.Fail? ==> selected[|r.0|] == later[|rest.0|];
      }
    }
  }

  /** One driver: the run over the first folder's listing, or a failure when there is no folder. */
  function Ensembled(mode: Mode, io: EnsembleIO, inputFolders: seq<string>, outputFolder: string, listing: seq<string>): (r: (seq<Saved>, Outcome<EnsembleError>))
    ensures r.1 == Fail(NoInputFolders) <==> |inputFolders| == 0
    ensures |inputFolders| == 0 ==> r.0 == []
  {
    if |inputFolders| == 0 then ([], Fail(NoInputFolders))
    else
      var step := f => EnsembleFile(mode, io, inputFolders, outputFolder, f);
      RunStops(mode, step, listing);
      Run(mode, step, listing)
  }

  /** A complete run writes one file per selected name, each under its output name and holding its ensemble. */
  lemma EnsembledWritesEverySelected(mode: Mode, io: EnsembleIO, inputFolders: seq<string>, outputFolder: string, listing: seq<string>)
    requires Ensembled(mode, io, inputFolders, outputFolder, listing).1.Pass?
    ensures var saved, selected := Ensembled(mode, io, inputFolders, outputFolder, listing).0, Selected(mode, listing);
      && |inputFolders| > 0
      && |saved| == |selected|
      && forall k :: 0 <= k < |saved| ==>
        && EnsembleFile(mode, io, inputFolders, outputFolder, selected[k]) == Ok(saved[k])
        && saved[k].path == Join(outputFolder, OutputName(mode, selected[k]))
  {
    var step := f => EnsembleFile(mode, io, inputFolders, outputFolder, f);
    RunWritesSelected(mode, step, listing);
    RunStops(mode, step, listing);
  }

  /**
   * One turn of the drivers' loop: with `saved` written before position `i`,
   * the whole run is what the turn at `i` leaves followed by the rest.
   */
  lemma RunAt(mode: Mode, step: string -> Result<Saved, EnsembleError>, listing: seq<string>, i: nat, saved: seq<Saved>)
    requires i < |listing|
    requires var rest := Run(mode, step, listing[i..]); Run(mode, step, listing) == (saved + rest.0, rest.1)
    ensures var whole, next := Run(mode, step, listing), Run(mode, step, listing[i + 1..]);
      && (!EndsWith(listing[i], Suffix(mode)) ==> whole == (saved + next.0, next.1))
      && (EndsWith(listing[i], Suffix(mode)) && step(listing[i]).Err? ==> whole == (saved, Fail(step(listing[i]).error)))
      && (EndsWith(listing[i], Suffix(mode)) && step(listing[i]).Ok? ==> whole == ((saved + [step(listing[i]).value]) + next.0, next.1))
  {
    var next := Run(mode, step, listing[i + 1..]);
    RunCons(mode, step, listing[i..], listing[i], listing[i + 1..]);
    assert saved + [] == saved;
    if EndsWith(listing[i], Suffix(mode)) && step(listing[i]).Ok? {
      assert saved + ([step(listing[i]).value] + next.0) == (saved + [step(listing[i]).value]) + next.0;
    }
  }

  /** The run of a non-empty listing, one name and then the rest. */
  lemma RunCons(mode: Mode, step: string -> Result<Saved, EnsembleError>, listing: seq<string>, name: string, rest: seq<string>)
    requires |listing| > 0 && listing[0] == name && listing[1..] == rest
    ensures Run(mode, step, listing) ==
      if !EndsWith(name, Suffix(mode)) then Run(mode, step, rest)
      else match step(name)
        case Err(e) => ([], Fail(e))
        case Ok(saved) => ([saved] + Run(mode, step, rest).0, Run(mode, step, rest).1)
  {
  }

  /** The body of the drivers' loop for one selected file. */
  method EnsembleOne(mode: Mode, io: EnsembleIO, inputFolders: seq<string>, outputFolder: string, filename: string)
    returns (r: Result<Saved, EnsembleError>)
    requires |inputFolders| > 0
    ensures r == EnsembleFile(mode, io, inputFolders, outputFolder, filename)
  {
    var data := Predictions(io, inputFolders, filename);
    var path := Join(outputFolder, OutputName(mode, filename));
    if mode == NnUNet {
      var meta := io.metadata(MetadataPath(inputFolders, filename));
      if |meta.direction| != 9 {
        return Err(BadDirection(filename));
      }
      var affine := NnUNetAffine(meta.direction, meta.origin);
      if !Uniform(data) {
        return Err(ShapeMismatch(filename));
      }
      var mask := EnsembleFunc(data);
      var rows := seq(4, i requires 0 <= i < 4 reads affine => seq(4, j requires 0 <= j < 4 reads affine => affine[i, j]));
      ghost var ras := RasAffine(meta.direction, meta.origin);
      assert |ras| == 4;
      forall i | 0 <= i < 4 ensures rows[i] == ras[i] {
        assert |ras[i]| == 4;
      }
      assert rows == ras;
      return Ok(Saved(path, SwapAxes02(mask), rows));
    }
    if !Uniform(data) {
      return Err(ShapeMismatch(filename));
    }
    var mask := EnsembleFunc(data);
    return Ok(Saved(path, mask, io.affine(Join(inputFolders[0], filename))));
  }

  /**
   * The drivers' loop: every listed file with the mode's suffix is
   * ensembled across the input folders and written under its output name;
   * the first file that fails stops the run.
   */
  method EnsembleFolder(mode: Mode, io: EnsembleIO, inputFolders: seq<string>, outputFolder: string, listing: seq<string>)
    returns (saved: seq<Saved>, r: Outcome<EnsembleError>)
    ensures (saved, r) == Ensembled(mode, io, inputFolders, outputFolder, listing)
  {
    if |inputFolders| == 0 {
      return [], Fail(NoInputFolders);
    }
    ghost var step := f => EnsembleFile(mode, io, inputFolders, outputFolder, f);
    saved := [];
    assert listing[0..] == listing;
    ghost var whole := Run(mode, step, listing);
    assert [] + whole.0 == whole.0;
    for i := 0 to |listing|
      invariant var rest := Run(mode, step, listing[i..]);
        whole == (saved + rest.0, rest.1)
    {
      var filename := listing[i];
      RunAt(mode, step, listing, i, saved);
      if !EndsWith(filename, Suffix(mode)) {
        continue;
      }
      var file := EnsembleOne(mode, io, inputFolders, outputFolder, filename);
      assert file == step(filename);
      if file.Err? {
        return saved, Fail(file.error);
      }
      saved := saved + [file.value];
    }
    assert listing[|listing|..] == [];
    assert saved + [] == saved;
    r := Pass;
  }
}
