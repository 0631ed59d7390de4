/**
 * `visualise_predictions.py`: a sheet of panels, one per requested subject,
 * each showing the FLAIR slice with the largest lesion area and an overlay
 * that tells the expert's label and a model's prediction apart.
 *
 * The pure parts (`maximum_area`, the overlay codes, the grid of rows and
 * columns, the axes of each panel, the title) are functions with lemmas.
 * The parts that change things are methods: the overlay is built in place
 * by three masked assignments, the subject loop loads and frees each
 * subject and draws on a `Figure`, and the unused axes are deleted in a loop.
 */
module VisualisePredictions {
  import opened Results
  import opened Volumes
  import opened Toolkit
  import opened Text
  import opened DatasetUtils
  import opened DatasetLoaders
  import opened SubjectLoops

  // -------------------------------------------------------------- maximum_area

  /** The label sum of slice `z`: the voxels whose third index is `z` in a C-order volume with `nz` slices. */
  function SliceSum(voxels: seq<U32>, nz: nat, z: nat): int
    requires nz > 0
    decreases |voxels|
  {
    if |voxels| == 0 then 0
    else
      var last := |voxels| - 1;
      SliceSum(voxels[..last], nz, z) + (if last % nz == z then voxels[last] else 0)
  }

  /** `mask_np.sum(axis=(0, 1))`: one sum per slice. */
  function SliceSums(voxels: seq<U32>, nz: nat): (r: seq<int>)
    ensures |r| == nz
    ensures forall z :: 0 <= z < nz ==> r[z] == SliceSum(voxels, nz, z)
  {
    seq(nz, z requires 0 <= z < nz => SliceSum(voxels, nz, z))
  }

  /** `np.argmax`: the first index holding the largest value. */
  function ArgMax(s: seq<int>): (k: nat)
    requires |s| > 0
    ensures k < |s|
    ensures forall j :: 0 <= j < |s| ==> s[j] <= s[k]
    ensures forall j :: 0 <= j < k ==> s[j] < s[k]
    decreases |s|
  {
    if |s| == 1 then 0
    else
      var k := ArgMax(s[..|s| - 1]);
      if s[|s| - 1] > s[k] then |s| - 1 else k
  }

  /** Only one index is both a maximum and before every other maximum. */
  lemma ArgMaxUnique(s: seq<int>, k: nat)
    requires k < |s|
    requires forall j :: 0 <= j < |s| ==> s[j] <= s[k]
    requires forall j :: 0 <= j < k ==> s[j] < s[k]
    ensures k == ArgMax(s)
  {
  }

  /**
   * `maximum_area`: the slice with the largest label sum, the first one on
   * ties. A volume with no slices has no sums, and `np.argmax` of them raises.
   */
  function MaximumArea(mask: LabelMap): (r: Option<nat>)
    ensures r.None? <==> mask.frame.shape.nz == 0
    ensures r.Some? ==>
      var nz, z := mask.frame.shape.nz, r.value;
      && z < nz
      && (forall y :: 0 <= y < nz ==> SliceSum(mask.voxels, nz, y) <= SliceSum(mask.voxels, nz, z))
      && (forall y :: 0 <= y < z ==> SliceSum(mask.voxels, nz, y) < SliceSum(mask.voxels, nz, z))
  {
    var nz := mask.frame.shape.nz;
    if nz == 0 then None else Some(ArgMax(SliceSums(mask.voxels, nz)))
  }

  lemma {:induction false} SumOfZeros(n: nat)
    ensures Sum(seq(n, _ => 0)) == 0
  {
    if n > 0 {
      assert seq(n, _ => 0)[..n - 1] == seq(n - 1, _ => 0);
      SumOfZeros(n - 1);
    }
  }

  /** Adding `c` to one element adds `c` to the sum. */
  lemma {:induction false} SumBump(s: seq<int>, w: nat, c: int)
    requires w < |s|
    ensures Sum(s[w := s[w] + c]) == Sum(s) + c
  {
    var t := s[w := s[w] + c];
    var n := |s| - 1;
    if w == n {
      assert t[..n] == s[..n];
    } else {
      assert t[..n] == s[..n][w := s[..n][w] + c];
      SumBump(s[..n], w, c);
    }
  }

  /** Every voxel lies in exactly one slice: the slice sums add up to the label's sum. */
  lemma {:induction false} SlicesPartition(voxels: seq<U32>, nz: nat)
    requires nz > 0
    ensures Sum(SliceSums(voxels, nz)) == Sum(voxels)
    decreases |voxels|
  {
    if |voxels| == 0 {
      assert SliceSums(voxels, nz) == seq(nz, _ => 0);
      SumOfZeros(nz);
    } else {
      var n := |voxels| - 1;
      var before := SliceSums(voxels[..n], nz);
      SlicesPartition(voxels[..n], nz);
      assert SliceSums(voxels, nz) == before[n % nz := before[n % nz] + voxels[n]];
      SumBump(before, n % nz, voxels[n]);
    }
  }

  // ---------------------------------------------------------- the overlay codes

  /**
   * The overlay code of one voxel (lines 85-88): 1 where only the expert
   * marks it, 5 where only the prediction does, 3 where both do, 0 elsewhere.
   */
  function MergeCode(expert: U32, pred: U32): real
  {
    if expert == 1 && pred == 1 then 3.0
    else if pred == 1 then 5.0
    else if expert == 1 then 1.0
    else 0.0
  }

  /** The overlay of two label maps on one grid. */
  function Merged(expert: seq<U32>, pred: seq<U32>): (r: seq<real>)
    requires |expert| == |pred|
    ensures |r| == |expert|
    ensures forall i :: 0 <= i < |r| ==> r[i] == MergeCode(expert[i], pred[i])
  {
    seq(|expert|, i requires 0 <= i < |expert| => MergeCode(expert[i], pred[i]))
  }

  /** Whether a code shows the expert's label, and whether it shows the prediction. */
  predicate ShowsExpert(code: real) { code == 1.0 || code == 3.0 }

  predicate ShowsPrediction(code: real) { code == 3.0 || code == 5.0 }

  /** The code of a voxel determines both masks at that voxel. */
  lemma MergeDecodes(expert: seq<U32>, pred: seq<U32>)
    requires |expert| == |pred|
    ensures forall i :: 0 <= i < |expert| ==>
      && (ShowsExpert(Merged(expert, pred)[i]) <==> expert[i] == 1)
      && (ShowsPrediction(Merged(expert, pred)[i]) <==> pred[i] == 1)
  {
  }

  /**
   * Lines 85-88: a zero array, then three masked assignments, each
   * overriding the ones before it.
   */
  method MergeLabels(expert: seq<U32>, pred: seq<U32>) returns (m: array<real>)
    requires |expert| == |pred|
    ensures fresh(m) && m[..] == Merged(expert, pred)
  {
    var n := |expert|;
    m := new real[n](_ => 0.0);
    for i := 0 to n
      invariant forall j :: 0 <= j < n ==> m[j] == if j < i && expert[j] == 1 then 1.0 else 0.0
    {
      if expert[i] == 1 {
        m[i] := 1.0;
      }
    }
    for i := 0 to n
      invariant forall j :: 0 <= j < n ==>
        m[j] == if j < i && pred[j] == 1 then 5.0 else if expert[j] == 1 then 1.0 else 0.0
    {
      if pred[i] == 1 {
        m[i] := 5.0;
      }
    }
    for i := 0 to n
      invariant forall j :: 0 <= j < n ==>
        m[j] == if j < i && expert[j] == 1 && pred[j] == 1 then 3.0
                else if pred[j] == 1 then 5.0 else if expert[j] == 1 then 1.0 else 0.0
    {
      if expert[i] == 1 && pred[i] == 1 {
        m[i] := 3.0;
      }
    }
  }

  // ---------------------------------------------------------------- the grid

  /** Counts up from `r` to the least root whose square reaches `n`. */
  function RootFrom(n: nat, r: nat): (s: nat)
    requires r == 0 || (r - 1) * (r - 1) < n
    ensures s * s >= n && (s == 0 || (s - 1) * (s - 1) < n)
    decreases n - r
  {
    if r * r >= n then r
    else
      assert r < n by {
        if r > 0 {
          assert r <= r * r;
        }
      }
      RootFrom(n, r + 1)
  }

  /** `np.ceil(np.sqrt(n))`: the least `r` with `r * r >= n`. */
  function CeilSqrt(n: nat): (r: nat)
    ensures r * r >= n
    ensures r == 0 || (r - 1) * (r - 1) < n
  {
    RootFrom(n, 0)
  }

  /** No smaller root reaches `n`. */
  lemma CeilSqrtLeast(n: nat, q: nat)
    requires q < CeilSqrt(n)
    ensures q * q < n
  {
    var r := CeilSqrt(n);
    MulMono(q, q, r - 1);
    MulMono(r - 1, q, r - 1);
    assert q * (r - 1) == (r - 1) * q;
  }

  /**
   * Lines 50-51: `nrows = ceil(sqrt(n))`, `ncols = ceil(n / nrows)`. With no
   * subjects the column count divides zero by zero and `plt.subplots` then
   * rejects the grid.
   */
  function GridLayout(n: nat): (r: Option<(nat, nat)>)
    ensures r.None? <==> n == 0
    ensures r.Some? ==> r.value.0 == CeilSqrt(n) && r.value.0 > 0
  {
    if n == 0 then None
    else
      var rows := CeilSqrt(n);
      Some((rows, (n + rows - 1) / rows))
  }

  lemma MulMono(a: int, b: int, c: int)
    requires a >= 0 && b <= c
    ensures a * b <= a * c
  {
    assert a * c - a * b == a * (c - b);
  }

  lemma MulOrder(a: int, b: int, c: int)
    requires a > 0
    ensures a * b < a * c <==> b < c
  {
    assert a * c - a * b == a * (c - b);
    if b < c {
      MulMono(a, 1, c - b);
    } else {
      MulMono(a, 0, b - c);
    }
  }

  lemma SquareGrows(r: int)
    ensures r >= 3 ==> (r - 1) * (r - 1) >= r
  {
    if r >= 3 {
      MulMono(r - 1, 2, r - 1);
    }
  }

  /**
   * The grid has room for every panel, no spare column and no spare row:
   * `rows * cols >= n`, `rows * (cols - 1) < n` and `(rows - 1) * cols < n`,
   * with at most as many columns as rows.
   */
  lemma GridCovers(n: nat)
    requires n > 0
    ensures var (rows, cols) := GridLayout(n).value;
      && rows >= 1 && cols >= 1 && cols <= rows
      && rows * cols >= n && rows * (cols - 1) < n && (rows - 1) * cols < n
  {
    var rows := CeilSqrt(n);
    var q := (n + rows - 1) / rows;
    var m := (n + rows - 1) % rows;
    assert rows * q + m == n + rows - 1;
    assert rows * q >= n;
    assert rows * (q - 1) == rows * q - rows;
    MulOrder(rows, 0, q);
    MulOrder(rows, q - 1, rows);
    assert (rows - 1) * q == rows * q - q;
    if q == rows {
      assert rows * q - q == rows * (q - 1);
    } else {
      MulMono(rows - 1, q, rows - 1);
    }
  }

  /**
   * What `plt.subplots` returns agrees with the branches of lines 61-67:
   * one row only for a single panel, and one column only when the grid
   * holds the panels exactly.
   */
  lemma SubplotsShape(n: nat)
    requires n > 0
    ensures var (rows, cols) := GridLayout(n).value;
      && (rows == 1 ==> cols == 1 && n == 1)
      && (cols == 1 ==> rows * cols == n && n <= 2)
  {
    GridCovers(n);
    SquareGrows(CeilSqrt(n));
  }

  /** The axes object of a panel: the single axes, an entry of a 1-D array, or a cell of a 2-D array. */
  datatype Axis = Whole | Flat(index: nat) | Cell(row: nat, col: nat)

  /** Lines 61-67: the axes of the `i`-th panel. */
  function AxisFor(i: nat, rows: nat, cols: nat): Axis
    requires cols > 0
  {
    if cols == 1 then (if rows == 1 then Whole else Flat(i))
    else Cell(i / cols, i % cols)
  }

  /**
   * An axes reference that is valid for what `plt.subplots(rows, cols)`
   * returns: the axes itself for a 1x1 grid, an index into a 1-D array of
   * `rows * cols` when one dimension is 1, and a cell of a 2-D array otherwise.
   */
  predicate InSubplots(a: Axis, rows: nat, cols: nat)
  {
    match a
    case Whole => rows == 1 && cols == 1
    case Flat(k) => (rows == 1 || cols == 1) && k < rows * cols
    case Cell(r, c) => rows > 1 && cols > 1 && r < rows && c < cols
  }

  /** The row-major place of an axes reference in the grid. */
  function Place(a: Axis, cols: nat): nat
  {
    match a
    case Whole => 0
    case Flat(k) => k
    case Cell(r, c) => r * cols + c
  }

  /** The row-major place of the grid cell at `row`, `col`. */
  function CellPlace(row: nat, col: nat, rows: nat, cols: nat): (k: nat)
    requires row < rows && col < cols
    ensures k < rows * cols
  {
    MulMono(cols, row, rows - 1);
    assert cols * (rows - 1) == rows * cols - cols;
    row * cols + col
  }

  lemma DivBelow(i: nat, rows: nat, cols: nat)
    requires cols > 0 && i < rows * cols
    ensures i / cols < rows && (i / cols) * cols + i % cols == i
  {
    var q := i / cols;
    assert q * cols + i % cols == i;
    MulOrder(cols, q, rows);
  }

  /**
   * Every panel gets a valid axes reference, at its own place in the grid,
   * so no two panels share axes.
   */
  lemma AxisPlaced(n: nat, i: nat)
    requires n > 0 && i < n
    ensures var (rows, cols) := GridLayout(n).value;
      && InSubplots(AxisFor(i, rows, cols), rows, cols)
      && Place(AxisFor(i, rows, cols), cols) == i
  {
    GridCovers(n);
    SubplotsShape(n);
    var (rows, cols) := GridLayout(n).value;
    if cols > 1 {
      DivBelow(i, rows, cols);
    }
  }

  lemma AxesDistinct(n: nat, i: nat, j: nat)
    requires i < n && j < n && i != j
    ensures var (rows, cols) := GridLayout(n).value;
      AxisFor(i, rows, cols) != AxisFor(j, rows, cols)
  {
    AxisPlaced(n, i);
    AxisPlaced(n, j);
  }

  /** The unused places all lie in the last row, right of the panels. */
  lemma UnusedInLastRow(n: nat, i: nat)
    requires n > 0
    requires var (rows, cols) := GridLayout(n).value; n <= i < rows * cols
    ensures var (rows, cols) := GridLayout(n).value; i / cols == rows - 1
  {
    GridCovers(n);
    var (rows, cols) := GridLayout(n).value;
    DivBelow(i, rows, cols);
    var q := i / cols;
    assert cols * (rows - 2) == (rows - 1) * cols - cols;
    MulOrder(cols, rows - 2, q);
  }

  datatype LegendPlace = LowerCenter | LowerRight

  /** Lines 105-110: centred below a full grid, at the lower right next to empty places. */
  function LegendFor(n: nat, rows: nat, cols: nat): LegendPlace
  {
    if n == rows * cols then LowerCenter else LowerRight
  }

  // --------------------------------------------------------------- the titles

  /** `str(k)` for any integer. */
  function IntString(k: int): string
  {
    if k < 0 then "-" + Decimal(-k) else Decimal(k)
  }

  /** Line 98: the name, a line break, and `y=` followed by the depth minus the slice. */
  function Title(name: string, depth: nat, z: nat): string
  {
    name + "\ny=" + IntString(depth - z)
  }

  lemma ParseIntString(k: int)
    ensures ParseInt(IntString(k)) == Some(k)
  {
    var magnitude: nat := if k < 0 then -k else k;
    var d := Decimal(magnitude);
    DecimalRoundTrip(magnitude);
    assert IsDigit(d[0]);
    if k < 0 {
      var t := "-" + d;
      assert t[0] == '-' && t[1..] == d;
      assert ParseInt(t) == Some(k);
    } else {
      assert d[0] != '-' && d[0] != '+';
      assert ParseInt(d) == Some(DigitsValue(d));
    }
  }

  /** The number after `y=` reads back as `depth - z`, negative or not. */
  lemma TitleShowsSlice(name: string, depth: nat, z: nat)
    ensures var t := Title(name, depth, z);
      && t[..|name| + 3] == name + "\ny="
      && ParseInt(t[|name| + 3..]) == Some(depth - z)
  {
    Halves(name + "\ny=", IntString(depth - z));
    ParseIntString(depth - z);
  }

  lemma Halves(prefix: string, rest: string)
    ensures (prefix + rest)[..|prefix|] == prefix && (prefix + rest)[|prefix|..] == rest
  {
  }

  // ----------------------------------------------------------- the prediction

  /** Line 76: `{pred_folder}/{name}.nii.gz`. */
  function PredictionPath(predFolder: string, name: string): string
  {
    predFolder + "/" + name + ".nii.gz"
  }

  /**
   * Lines 76-82: the prediction read from its file and carried onto the
   * label's grid as `resample_label_to_target` does (linear interpolation,
   * rounding, uint32); a prediction made in template space is then moved
   * back by the inverted registration and rounded again.
   */
  function Prediction(tk: Toolkit, predFolder: string, mni: bool, info: SubjectInfo, mask: LabelMap): (r: LabelMap)
    requires tk.Valid()
    ensures r.Valid() && r.frame == mask.frame
  {
    var read := tk.read(PredictionPath(predFolder, info.name));
    var onLabel := Volume(mask.frame, RoundLabels(tk.resample(read, mask.frame)));
    if mni then
      var back := InvertSyNRegistration(tk, ToReal(onLabel), info.warpToMni, info.affineToMni);
      Volume(back.frame, RoundLabels(back.voxels))
    else onLabel
  }

  /** Interpolation keeps a field within [0, hi] along a whole chain of transforms. */
  lemma {:induction false} ChainBounded(tk: Toolkit, chain: seq<Transform>, image: Image, reference: Frame, hi: real)
    requires tk.Valid() && 0.0 <= hi && Bounded(image.voxels, hi)
    ensures Bounded(ApplyChain(tk, chain, image, reference).voxels, hi)
    decreases |chain|
  {
    if |chain| > 0 {
      ChainBounded(tk, chain[1..], Volume(reference, tk.apply(chain[0], image, reference)), reference, hi);
    }
  }

  /**
   * A prediction file that holds a mask (values within [0, 1]) gives a 0/1
   * prediction on the label's grid, in either space.
   */
  lemma PredictionBinary(tk: Toolkit, predFolder: string, mni: bool, info: SubjectInfo, mask: LabelMap)
    requires tk.Valid() && Bounded(tk.read(PredictionPath(predFolder, info.name)).voxels, 1.0)
    ensures IsBinary(Prediction(tk, predFolder, mni, info, mask).voxels)
  {
    var read := tk.read(PredictionPath(predFolder, info.name));
    var field := tk.resample(read, mask.frame);
    RoundLabelsOfUnitField(field);
    if mni {
      var onLabel := Volume(mask.frame, RoundLabels(field));
      BinaryLabelsBounded(onLabel);
      var back := InvertSyNRegistration(tk, ToReal(onLabel), info.warpToMni, info.affineToMni);
      ChainBounded(tk, InverseChain(ForwardSyN(info.warpToMni, info.affineToMni)), ToReal(onLabel), mask.frame, 1.0);
      RoundLabelsOfUnitField(back.voxels);
    }
  }

  // ----------------------------------------------------------- one subject

  datatype PlotError =
    | SubjectFailure(error: SubjectError)
    | NoSlices(name: string)       // `np.argmax` of the sums of a label with no slices
    | SliceOutside(name: string)   // `image.numpy()[:, :, slice]` past FLAIR's last slice
    | NoSubjects                   // `plt.subplots` with a grid of no rows

  function Lift(o: Outcome<SubjectError>): (r: Outcome<PlotError>)
    ensures r.Pass? <==> o.Pass?
  {
    if o.Pass? then Pass else Fail(SubjectFailure(o.error))
  }

  /** Lines 71-72: `reorient_image2`, a copy of the voxels onto the RAS-oriented grid. */
  function Reoriented<T>(tk: Toolkit, v: Volume<T>): (r: Volume<T>)
    requires tk.Valid() && v.Valid()
    ensures r.Valid() && r.frame == tk.reorient(v.frame).frame
  {
    Gather(v, tk.reorient(v.frame))
  }

  /** What a panel shows: its axes, the FLAIR image, the overlay, the slice and the title. */
  datatype Panel = Panel(axis: Axis, image: Image, overlay: Volume<real>, slice: nat, title: string)

  /**
   * Lines 59-99 on one subject. The panel index `i` of `enumerate` is the
   * number of panels drawn before, since each earlier subject drew one.
   * Load (label on FLAIR's grid), reorient FLAIR and the label, pick the
   * slice, read and transport the prediction, merge, draw, free.
   */
  function PanelStep(tk: Toolkit, predFolder: string, mni: bool, rows: nat, cols: nat,
                     info: SubjectInfo, s: SubjectState, panels: seq<Panel>): (r: (Outcome<PlotError>, SubjectState, seq<Panel>))
    requires tk.Valid() && cols > 0 && StateValid(s)
    ensures StateValid(r.1)
    ensures r.0.Fail? ==> r.2 == panels
    ensures r.0.Pass? ==> |r.2| == |panels| + 1 && r.2[..|panels|] == panels
    ensures r.0.Pass? ==> r.1.fields == s.fields && r.1.saved == Some(s.fields)
    ensures r.0.Pass? ==>
      var p := r.2[|panels|];
      && p.axis == AxisFor(|panels|, rows, cols)
      && p.image.Valid() && p.overlay.Valid()
      && p.slice < p.image.frame.shape.nz && p.slice < p.overlay.frame.shape.nz
      && p.title == Title(info.name, p.image.frame.shape.nz, p.slice)
    ensures LoadStep(tk, info, s, true, true).0.Fail? ==> r == (Lift(LoadStep(tk, info, s, true, true).0), LoadStep(tk, info, s, true, true).1, panels)
    ensures LoadStep(tk, info, s, true, true).0.Pass? ==>
      var f := LoadStep(tk, info, s, true, true).1.fields;
      var flair, expert := Reoriented(tk, f.flair.value), Reoriented(tk, f.labelMap.value);
      && (r.0 == Fail(NoSlices(info.name)) <==> MaximumArea(expert).None?)
      && (MaximumArea(expert).Some? ==> (r.0 == Fail(SliceOutside(info.name)) <==> MaximumArea(expert).value >= flair.frame.shape.nz))
      && (r.0.Pass? ==>
        var p := r.2[|panels|];
        && MaximumArea(expert) == Some(p.slice)
        && p.image == flair
        && p.overlay == Volume(expert.frame, Merged(expert.voxels, Prediction(tk, predFolder, mni, info, expert).voxels)))
  {
    var (o1, s1) := LoadStep(tk, info, s, true, true);
    if o1.Fail? then (Lift(o1), s1, panels)
    else
      var f := s1.fields;
      var flair := Reoriented(tk, f.flair.value);
      var mask := Reoriented(tk, f.labelMap.value);
      var s2 := SubjectState(f.(flair := Loaded(flair), labelMap := Loaded(mask)), s1.saved);
      match MaximumArea(mask)
      case None => (Fail(NoSlices(info.name)), s2, panels)
      case Some(z) =>
        var pred := Prediction(tk, predFolder, mni, info, mask);
        var overlay := Volume(mask.frame, Merged(mask.voxels, pred.voxels));
        if z >= flair.frame.shape.nz then (Fail(SliceOutside(info.name)), s2, panels)
        else
          var panel := Panel(AxisFor(|panels|, rows, cols), flair, overlay, z, Title(info.name, flair.frame.shape.nz, z));
          var (o2, s3) := FreeStep(info, s2);
          (Lift(o2), s3, panels + [panel])
  }

  function PanelStepOf(tk: Toolkit, predFolder: string, mni: bool, rows: nat, cols: nat): Step<seq<Panel>, PlotError>
  {
    (i, s, a) requires tk.Valid() && cols > 0 && StateValid(s) => PanelStep(tk, predFolder, mni, rows, cols, i, s, a)
  }

  /** `f` agrees with `PanelStep` on every consistent subject state; the loops see the step only through this. */
  ghost predicate IsPanelStep(f: Step<seq<Panel>, PlotError>, tk: Toolkit, predFolder: string, mni: bool, rows: nat, cols: nat)
    requires tk.Valid() && cols > 0
  {
    forall i, s, a {:trigger PanelStep(tk, predFolder, mni, rows, cols, i, s, a)} :: StateValid(s) ==>
      f.requires(i, s, a) && f(i, s, a) == PanelStep(tk, predFolder, mni, rows, cols, i, s, a)
  }

  lemma PanelStepRuns(tk: Toolkit, predFolder: string, mni: bool, rows: nat, cols: nat)
    requires tk.Valid() && cols > 0
    ensures Runs(PanelStepOf(tk, predFolder, mni, rows, cols))
    ensures IsPanelStep(PanelStepOf(tk, predFolder, mni, rows, cols), tk, predFolder, mni, rows, cols)
  {
  }

  /**
   * What a drawn panel shows: the first slice of largest lesion area in the
   * reoriented expert label, and an overlay whose code at each voxel tells
   * whether the expert label and whether the prediction mark that voxel.
   */
  lemma PanelShows(tk: Toolkit, predFolder: string, mni: bool, rows: nat, cols: nat,
                   info: SubjectInfo, s: SubjectState, panels: seq<Panel>)
    requires tk.Valid() && cols > 0 && StateValid(s)
    requires PanelStep(tk, predFolder, mni, rows, cols, info, s, panels).0.Pass?
    ensures LoadStep(tk, info, s, true, true).0.Pass?
    ensures var p, f := PanelStep(tk, predFolder, mni, rows, cols, info, s, panels).2[|panels|], LoadStep(tk, info, s, true, true).1.fields;
      var expert := Reoriented(tk, f.labelMap.value);
      var pred, nz := Prediction(tk, predFolder, mni, info, expert), expert.frame.shape.nz;
      && p.slice < nz
      && (forall y :: 0 <= y < nz ==> SliceSum(expert.voxels, nz, y) <= SliceSum(expert.voxels, nz, p.slice))
      && (forall y :: 0 <= y < p.slice ==> SliceSum(expert.voxels, nz, y) < SliceSum(expert.voxels, nz, p.slice))
      && |p.overlay.voxels| == |expert.voxels| == |pred.voxels|
      && forall v :: 0 <= v < |p.overlay.voxels| ==>
        && (ShowsExpert(p.overlay.voxels[v]) <==> expert.voxels[v] == 1)
        && (ShowsPrediction(p.overlay.voxels[v]) <==> pred.voxels[v] == 1)
  {
    var f := LoadStep(tk, info, s, true, true).1.fields;
    var expert := Reoriented(tk, f.labelMap.value);
    MergeDecodes(expert.voxels, Prediction(tk, predFolder, mni, info, expert).voxels);
  }

  // ---------------------------------------------------------------- the sheet

  /** Line 47: the subjects whose name is among `images`, in catalog order. */
  function Select(subjects: seq<Subject>, images: seq<string>): (r: seq<Subject>)
    ensures forall k :: 0 <= k < |r| ==> r[k] in subjects && r[k].name in images
    ensures forall s :: s in subjects && s.name in images ==> s in r
    decreases |subjects|
  {
    if |subjects| == 0 then []
    else
      var last := subjects[|subjects| - 1];
      Select(subjects[..|subjects| - 1], images) + (if last.name in images then [last] else [])
  }

  /** Selection keeps order: selecting from two lists in a row is selecting from each. */
  lemma {:induction false} SelectConcat(a: seq<Subject>, b: seq<Subject>, images: seq<string>)
    ensures Select(a + b, images) == Select(a, images) + Select(b, images)
    decreases |b|
  {
    if |b| == 0 {
      assert a + b == a;
    } else {
      var n := |b| - 1;
      assert (a + b)[..|a + b| - 1] == a + b[..n];
      SelectConcat(a, b[..n], images);
    }
  }

  lemma {:induction false} SelectDistinct(subjects: seq<Subject>, images: seq<string>)
    requires Distinct(subjects)
    ensures Distinct(Select(subjects, images))
    decreases |subjects|
  {
    if |subjects| > 0 {
      var n := |subjects| - 1;
      var last := subjects[n];
      assert Distinct(subjects[..n]);
      SelectDistinct(subjects[..n], images);
      assert last !in subjects[..n];
    }
  }

  /** The figure of `plt.subplots(nrows, ncols)`: which grid places still hold axes, the panels drawn, the legend. */
  class Figure {
    const rows: nat
    const cols: nat
    var present: seq<bool>
    var panels: seq<Panel>
    var legend: Option<LegendPlace>

    constructor(rows: nat, cols: nat)
      ensures this.rows == rows && this.cols == cols
      ensures present == seq(rows * cols, _ => true) && panels == [] && legend == None
    {
      this.rows := rows;
      this.cols := cols;
      present := seq(rows * cols, _ => true);
      panels := [];
      legend := None;
    }

    /** `plot_image`, `plot_label` and `set_title` on one axes. */
    method Draw(p: Panel)
      modifies this`panels
      ensures panels == old(panels) + [p]
    {
      panels := panels + [p];
    }

    /** `fig.delaxes(axs[row, col])`. */
    method DelAxes(row: nat, col: nat)
      requires row < rows && col < cols && |present| == rows * cols
      modifies this
      ensures present == old(present)[CellPlace(row, col, rows, cols) := false]
      ensures panels == old(panels) && legend == old(legend)
    {
      present := present[CellPlace(row, col, rows, cols) := false];
    }

    /** `fig.legend(..., loc=...)`. */
    method SetLegend(place: LegendPlace)
      modifies this
      ensures legend == Some(place) && panels == old(panels) && present == old(present)
    {
      legend := Some(place);
    }
  }

  /** Which grid places keep their axes once the panels are drawn: the first `n`. */
  function Kept(places: nat, n: nat): (r: seq<bool>)
    ensures |r| == places && forall k :: 0 <= k < places ==> (r[k] <==> k < n)
  {
    seq(places, k => k < n)
  }

  /** Lines 102-103: the axes after the last panel are deleted, place by place. */
  method DeleteUnused(fig: Figure, n: nat)
    requires GridLayout(n) == Some((fig.rows, fig.cols))
    requires fig.present == seq(fig.rows * fig.cols, _ => true)
    modifies fig
    ensures fig.present == Kept(fig.rows * fig.cols, n)
    ensures fig.panels == old(fig.panels) && fig.legend == old(fig.legend)
  {
    GridCovers(n);
    for i := n to fig.rows * fig.cols
      invariant |fig.present| == fig.rows * fig.cols
      invariant forall k :: 0 <= k < |fig.present| ==> (fig.present[k] <==> k < n || k >= i)
      invariant fig.panels == old(fig.panels) && fig.legend == old(fig.legend)
    {
      DivBelow(i, fig.rows, fig.cols);
      fig.DelAxes(i / fig.cols, i % fig.cols);
    }
    assert fig.present == Kept(fig.rows * fig.cols, n);
  }

  /** Lines 102-110 after a passing loop: delete the unused axes, then place the legend. */
  method FinishSheet(fig: Figure, n: nat)
    requires GridLayout(n) == Some((fig.rows, fig.cols))
    requires fig.present == seq(fig.rows * fig.cols, _ => true)
    modifies fig
    ensures fig.present == Kept(fig.rows * fig.cols, n)
    ensures fig.legend == Some(LegendFor(n, fig.rows, fig.cols)) && fig.panels == old(fig.panels)
  {
    DeleteUnused(fig, n);
    fig.SetLegend(LegendFor(n, fig.rows, fig.cols));
  }

  method PanelSubject(tk: Toolkit, predFolder: string, mni: bool, subj: Subject, fig: Figure) returns (r: Outcome<PlotError>)
    requires tk.Valid() && fig.cols > 0 && subj.Valid()
    modifies subj, fig`panels
    ensures subj.Valid()
    ensures (r, subj.Snapshot(), fig.panels) == PanelStep(tk, predFolder, mni, fig.rows, fig.cols, subj.Info(), old(subj.Snapshot()), old(fig.panels))
  {
    var o := subj.LoadData(tk, true, true);
    if o.Fail? {
      return Lift(o);
    }
    var flair := subj.flair.value;
    subj.flair := Loaded(Gather(flair, tk.reorient(flair.frame)));
    var mask := subj.labelMap.value;
    subj.labelMap := Loaded(Gather(mask, tk.reorient(mask.frame)));
    var oriented := subj.labelMap.value;
    var slice := MaximumArea(oriented);
    if slice.None? {
      return Fail(NoSlices(subj.name));
    }
    var pred := Prediction(tk, predFolder, mni, subj.Info(), oriented);
    var merged := MergeLabels(oriented.voxels, pred.voxels);
    var image := subj.flair.value;
    if slice.value >= image.frame.shape.nz {
      return Fail(SliceOutside(subj.name));
    }
    var title := Title(subj.name, image.frame.shape.nz, slice.value);
    fig.Draw(Panel(AxisFor(|fig.panels|, fig.rows, fig.cols), image, Volume(oriented.frame, merged[..]), slice.value, title));
    o := subj.FreeData();
    return Lift(o);
  }

  /** The body of the subject loop, on the `i`-th subject; the other subjects keep their state. */
  method PanelIteration(tk: Toolkit, predFolder: string, mni: bool, subjects: seq<Subject>, i: nat, fig: Figure,
                        ghost f: Step<seq<Panel>, PlotError>) returns (r: Outcome<PlotError>)
    requires tk.Valid() && fig.cols > 0 && Distinct(subjects) && AllValid(subjects) && i < |subjects|
    requires Runs(f) && IsPanelStep(f, tk, predFolder, mni, fig.rows, fig.cols)
    modifies subjects[i], fig`panels
    ensures AllValid(subjects)
    ensures (r, subjects[i].Snapshot(), fig.panels) == f(subjects[i].Info(), old(subjects[i].Snapshot()), old(fig.panels))
    ensures States(subjects) == old(States(subjects))[i := subjects[i].Snapshot()]
  {
    r := PanelSubject(tk, predFolder, mni, subjects[i], fig);
    assert forall k :: 0 <= k < |subjects| && k != i ==> subjects[k] != subjects[i];
  }

  /** The `for i, subj in enumerate(dataset)` loop. */
  method PanelSweep(tk: Toolkit, predFolder: string, mni: bool, subjects: seq<Subject>, fig: Figure,
                    ghost f: Step<seq<Panel>, PlotError>) returns (r: Outcome<PlotError>)
    requires tk.Valid() && fig.cols > 0 && Distinct(subjects) && AllValid(subjects)
    requires Runs(f) && IsPanelStep(f, tk, predFolder, mni, fig.rows, fig.cols)
    modifies Objects(subjects), fig`panels
    ensures AllValid(subjects)
    ensures var spec := Sweep(f, Infos(subjects), old(States(subjects)), old(fig.panels));
      && fig.panels == spec.acc && r == spec.outcome && States(subjects) == spec.states
  {
    ghost var infos := Infos(subjects);
    ghost var start := States(subjects);
    ghost var acc := fig.panels;
    ghost var whole := Sweep(f, infos, start, acc);
    ghost var done: seq<SubjectState> := [];
    assert infos[0..] == infos && start[0..] == start && [] + whole.states == whole.states;
    var i := 0;
    while i < |subjects|
      invariant 0 <= i <= |subjects| && |done| == i
      invariant AllValid(subjects) && AllStateValid(start)
      invariant States(subjects) == done + start[i..]
      invariant acc == fig.panels
      invariant whole == Resume(done, Sweep(f, infos[i..], start[i..], acc))
    {
      r := PanelIteration(tk, predFolder, mni, subjects, i, fig, f);
      ghost var step := f(infos[i], start[i], acc);
      SweepAt(f, infos, start, i, done, acc, whole);
      Splice(done, start[i..], step.1);
      assert start[i..][1..] == start[i + 1..];
      done := done + [step.1];
      acc := step.2;
      if r.Fail? {
        return;
      }
      i := i + 1;
    }
    SweepDone(f, infos, start, done, acc, whole);
    r := Pass;
  }

  /** The number of places in a `rows` by `cols` grid. */
  function Places(rows: nat, cols: nat): (r: nat)
    ensures r == rows * cols
  {
    rows * cols
  }

  /** What a sheet ends with: the outcome, the grid, the panels, the subjects' states, the places kept, the legend. */
  datatype Sheet = Sheet(outcome: Outcome<PlotError>, rows: nat, cols: nat, panels: seq<Panel>,
                         states: seq<SubjectState>, present: seq<bool>, legend: Option<LegendPlace>)

  /**
   * Lines 59-110 on values, for a grid of `rows` by `cols` places and the
   * loop step `f`: the subject loop, and after a passing loop the deletions
   * and the legend. A failing subject ends the run with every place kept
   * and no legend.
   */
  function SheetFrom(f: Step<seq<Panel>, PlotError>, rows: nat, cols: nat, infos: seq<SubjectInfo>, states: seq<SubjectState>): (r: Sheet)
    requires |infos| == |states| && AllStateValid(states) && Runs(f)
    ensures r.rows == rows && r.cols == cols && |r.present| == rows * cols
    ensures r.outcome.Fail? ==> r.legend.None? && forall k :: 0 <= k < |r.present| ==> r.present[k]
  {
    var sweep := Sweep(f, infos, states, []);
    if sweep.outcome.Fail? then Sheet(sweep.outcome, rows, cols, sweep.acc, sweep.states, seq(Places(rows, cols), _ => true), None)
    else Sheet(Pass, rows, cols, sweep.acc, sweep.states, Kept(Places(rows, cols), |states|), Some(LegendFor(|states|, rows, cols)))
  }

  /** Lines 50-110 on values, for the selected subjects: no sheet when there are none. */
  function SheetOf(tk: Toolkit, predFolder: string, mni: bool, infos: seq<SubjectInfo>, states: seq<SubjectState>): (r: Option<Sheet>)
    requires tk.Valid() && |infos| == |states| && AllStateValid(states)
    ensures r.None? <==> |states| == 0
    ensures r.Some? ==> Some((r.value.rows, r.value.cols)) == GridLayout(|states|)
  {
    var n := |states|;
    if n == 0 then None
    else
      GridCovers(n);
      var (rows, cols) := GridLayout(n).value;
      PanelStepRuns(tk, predFolder, mni, rows, cols);
      Some(SheetFrom(PanelStepOf(tk, predFolder, mni, rows, cols), rows, cols, infos, states))
  }

  /** The figure holds what the sheet says. */
  predicate Shows(fig: Figure, sheet: Sheet)
    reads fig
  {
    && fig.rows == sheet.rows && fig.cols == sheet.cols && fig.panels == sheet.panels
    && fig.present == sheet.present && fig.legend == sheet.legend
  }

  /** Lines 59-110 on a new figure: the subject loop, then the deletions and the legend when it passes. */
  method RunSheet(tk: Toolkit, predFolder: string, mni: bool, subjects: seq<Subject>, fig: Figure,
                  ghost f: Step<seq<Panel>, PlotError>) returns (r: Outcome<PlotError>)
    requires tk.Valid() && Distinct(subjects) && AllValid(subjects)
    requires GridLayout(|subjects|) == Some((fig.rows, fig.cols))
    requires fig.present == seq(fig.rows * fig.cols, _ => true) && fig.panels == [] && fig.legend == None
    requires Runs(f) && IsPanelStep(f, tk, predFolder, mni, fig.rows, fig.cols)
    modifies Objects(subjects), fig
    ensures AllValid(subjects)
    ensures var sheet := SheetFrom(f, fig.rows, fig.cols, Infos(subjects), old(States(subjects)));
      r == sheet.outcome && States(subjects) == sheet.states && Shows(fig, sheet)
  {
    GridCovers(|subjects|);
    r := PanelSweep(tk, predFolder, mni, subjects, fig, f);
    if r.Pass? {
      FinishSheet(fig, |subjects|);
    }
  }

  /** Lines 50-110 on the selected subjects. */
  method DrawSheet(tk: Toolkit, subjects: seq<Subject>, predFolder: string, mni: bool) returns (r: Outcome<PlotError>, fig: Figure?)
    requires tk.Valid() && Distinct(subjects) && AllValid(subjects)
    modifies Objects(subjects)
    ensures AllValid(subjects)
    ensures var sheet := SheetOf(tk, predFolder, mni, Infos(subjects), old(States(subjects)));
      && (sheet.None? ==> r == Fail(NoSubjects) && fig == null && States(subjects) == old(States(subjects)))
      && (sheet.Some? ==> fig != null && fresh(fig) && r == sheet.value.outcome && States(subjects) == sheet.value.states && Shows(fig, sheet.value))
  {
    var layout := GridLayout(|subjects|);
    if layout.None? {
      return Fail(NoSubjects), null;
    }
    var (rows, cols) := layout.value;
    GridCovers(|subjects|);
    fig := new Figure(rows, cols);
    PanelStepRuns(tk, predFolder, mni, rows, cols);
    r := RunSheet(tk, predFolder, mni, subjects, fig, PanelStepOf(tk, predFolder, mni, rows, cols));
  }

  /**
   * `plot_sheet`: the requested subjects are selected from the catalog and
   * drawn; the subjects that were not selected are not touched.
   */
  method PlotSheet(tk: Toolkit, subjects: seq<Subject>, images: seq<string>, predFolder: string, mni: bool)
    returns (r: Outcome<PlotError>, fig: Figure?)
    requires tk.Valid() && Distinct(subjects) && AllValid(subjects)
    modifies Objects(subjects)
    ensures AllValid(subjects)
    ensures forall k :: 0 <= k < |subjects| && subjects[k] !in Select(subjects, images) ==>
      subjects[k].Snapshot() == old(subjects[k].Snapshot())
    ensures var sel := Select(subjects, images);
      var sheet := SheetOf(tk, predFolder, mni, Infos(sel), old(States(sel)));
      && (sheet.None? ==> r == Fail(NoSubjects) && fig == null)
      && (sheet.Some? ==> fig != null && fresh(fig) && r == sheet.value.outcome && States(sel) == sheet.value.states && Shows(fig, sheet.value))
  {
    var sel := Select(subjects, images);
    SelectDistinct(subjects, images);
    assert AllValid(sel);
    assert Objects(sel) <= Objects(subjects);
    r, fig := DrawSheet(tk, sel, predFolder, mni);
  }

  // ------------------------------------------------------------------ lemmas

  /** A panel at place `k` of the grid whose slice exists in both images it shows. */
  predicate Placed(p: Panel, k: nat, rows: nat, cols: nat)
    requires cols > 0
  {
    && p.axis == AxisFor(k, rows, cols)
    && p.slice < p.image.frame.shape.nz && p.slice < p.overlay.frame.shape.nz
  }

  /** A panel titled with `name` and its slice counted from the top. */
  predicate Titled(p: Panel, name: string)
  {
    p.title == Title(name, p.image.frame.shape.nz, p.slice)
  }

  /** A loop step that draws one panel, at the next place and with its subject's name, or none when it fails. */
  ghost predicate AppendsPanels(f: Step<seq<Panel>, PlotError>, rows: nat, cols: nat)
    requires cols > 0 && Runs(f)
  {
    forall i, s, a :: StateValid(s) ==>
      var r := f(i, s, a);
      && (r.0.Fail? ==> r.2 == a)
      && (r.0.Pass? ==> |r.2| == |a| + 1 && r.2[..|a|] == a && Placed(r.2[|a|], |a|, rows, cols) && Titled(r.2[|a|], i.name))
  }

  /** Each subject draws one panel, at the next place and with its own name, or none when it fails. */
  lemma StepAppends(tk: Toolkit, predFolder: string, mni: bool, rows: nat, cols: nat)
    requires tk.Valid() && cols > 0
    ensures Runs(PanelStepOf(tk, predFolder, mni, rows, cols))
    ensures AppendsPanels(PanelStepOf(tk, predFolder, mni, rows, cols), rows, cols)
  {
    PanelStepRuns(tk, predFolder, mni, rows, cols);
    forall i, s, a | StateValid(s)
      ensures var r := PanelStep(tk, predFolder, mni, rows, cols, i, s, a);
        && (r.0.Fail? ==> r.2 == a)
        && (r.0.Pass? ==> |r.2| == |a| + 1 && r.2[..|a|] == a && Placed(r.2[|a|], |a|, rows, cols) && Titled(r.2[|a|], i.name))
    {
    }
  }

  /**
   * The subject loop draws panels in subject order: each panel after the
   * ones given belongs to the subject of the same rank, sits at its own
   * place and carries that subject's name; a passing loop draws one per subject.
   */
  lemma {:induction false} SweepPanels(f: Step<seq<Panel>, PlotError>, rows: nat, cols: nat,
                                       infos: seq<SubjectInfo>, states: seq<SubjectState>, panels: seq<Panel>)
    requires cols > 0 && |infos| == |states| && AllStateValid(states)
    requires Runs(f) && AppendsPanels(f, rows, cols)
    requires forall k :: 0 <= k < |panels| ==> Placed(panels[k], k, rows, cols)
    ensures var r := Sweep(f, infos, states, panels);
      && |panels| <= |r.acc| <= |panels| + |states| && r.acc[..|panels|] == panels
      && (forall k :: 0 <= k < |r.acc| ==> Placed(r.acc[k], k, rows, cols))
      && (forall k :: |panels| <= k < |r.acc| ==> Titled(r.acc[k], infos[k - |panels|].name))
      && (r.outcome.Pass? ==> |r.acc| == |panels| + |states|)
    decreases |states|
  {
    if |states| > 0 {
      var (o, s, a) := f(infos[0], states[0], panels);
      if o.Pass? {
        assert AllStateValid(states[1..]);
        SweepPanels(f, rows, cols, infos[1..], states[1..], a);
        var rest := Sweep(f, infos[1..], states[1..], a);
        assert Sweep(f, infos, states, panels).acc == rest.acc;
        PanelsExtend(panels, a, rest.acc, infos);
      } else {
        assert Sweep(f, infos, states, panels).acc == panels;
      }
    }
  }

  /** The panels after one more subject's panel keep their prefix and their titles. */
  lemma PanelsExtend(panels: seq<Panel>, a: seq<Panel>, acc: seq<Panel>, infos: seq<SubjectInfo>)
    requires |infos| > 0 && |a| == |panels| + 1 && a[..|panels|] == panels && Titled(a[|panels|], infos[0].name)
    requires |a| <= |acc| <= |a| + |infos| - 1 && acc[..|a|] == a
    requires forall k :: |a| <= k < |acc| ==> Titled(acc[k], infos[1..][k - |a|].name)
    ensures acc[..|panels|] == panels
    ensures forall k :: |panels| <= k < |acc| ==> Titled(acc[k], infos[k - |panels|].name)
  {
    assert acc[..|panels|] == a[..|panels|];
    forall k | |panels| <= k < |acc|
      ensures Titled(acc[k], infos[k - |panels|].name)
    {
      if k > |panels| {
        assert infos[1..][k - |a|] == infos[k - |panels|];
      } else {
        assert acc[k] == a[k];
      }
    }
  }

  /**
   * What a passing sheet looks like: one panel per selected subject, in
   * selection order, each on valid axes of its own and titled with its
   * subject's name; the axes kept are exactly those with a panel, and the
   * legend is centred exactly when none was deleted.
   */
  predicate LaidOut(sh: Sheet, infos: seq<SubjectInfo>)
  {
    && |sh.panels| == |infos| && sh.rows * sh.cols >= |infos|
    && (forall k :: 0 <= k < |sh.panels| ==> InSubplots(sh.panels[k].axis, sh.rows, sh.cols) && Place(sh.panels[k].axis, sh.cols) == k)
    && (forall k :: 0 <= k < |sh.panels| ==> Titled(sh.panels[k], infos[k].name))
    && (forall k :: 0 <= k < |sh.present| ==> (sh.present[k] <==> k < |sh.panels|))
    && (sh.legend == Some(LowerCenter) <==> forall k :: 0 <= k < |sh.present| ==> sh.present[k])
  }

  /** Panels drawn at the places of a grid, in order, lay out a sheet. */
  lemma PanelsLayOut(panels: seq<Panel>, rows: nat, cols: nat, infos: seq<SubjectInfo>, states: seq<SubjectState>)
    requires |infos| > 0 && GridLayout(|infos|) == Some((rows, cols)) && |panels| == |infos|
    requires forall k :: 0 <= k < |panels| ==> panels[k].axis == AxisFor(k, rows, cols) && Titled(panels[k], infos[k].name)
    ensures LaidOut(Sheet(Pass, rows, cols, panels, states, Kept(Places(rows, cols), |infos|), Some(LegendFor(|infos|, rows, cols))), infos)
  {
    var n := |infos|;
    GridCovers(n);
    forall k | 0 <= k < n
      ensures InSubplots(panels[k].axis, rows, cols) && Place(panels[k].axis, cols) == k
    {
      AxisPlaced(n, k);
    }
    var kept := Kept(Places(rows, cols), n);
    if n < rows * cols {
      assert !kept[rows * cols - 1];
    }
  }

  /** The panel loop on a grid lays out its sheet when it passes. */
  lemma SheetLaysOut(f: Step<seq<Panel>, PlotError>, rows: nat, cols: nat, infos: seq<SubjectInfo>, states: seq<SubjectState>)
    requires |infos| == |states| > 0 && AllStateValid(states)
    requires GridLayout(|states|) == Some((rows, cols)) && cols > 0
    requires Runs(f) && AppendsPanels(f, rows, cols)
    ensures var sheet := SheetFrom(f, rows, cols, infos, states);
      sheet.outcome.Pass? ==> LaidOut(sheet, infos)
  {
    SweepPanels(f, rows, cols, infos, states, []);
    var r := Sweep(f, infos, states, []);
    if r.outcome.Pass? {
      forall k | 0 <= k < |r.acc|
        ensures r.acc[k].axis == AxisFor(k, rows, cols) && Titled(r.acc[k], infos[k].name)
      {
        assert k - 0 == k;
      }
      PanelsLayOut(r.acc, rows, cols, infos, r.states);
      assert SheetFrom(f, rows, cols, infos, states)
        == Sheet(Pass, rows, cols, r.acc, r.states, Kept(Places(rows, cols), |infos|), Some(LegendFor(|infos|, rows, cols)));
    }
  }

  /** The sheet of a non-empty selection is the one its grid and its panel step make. */
  lemma SheetHasGrid(tk: Toolkit, predFolder: string, mni: bool, infos: seq<SubjectInfo>, states: seq<SubjectState>, rows: nat, cols: nat)
    requires tk.Valid() && |infos| == |states| && AllStateValid(states)
    requires GridLayout(|states|) == Some((rows, cols)) && cols > 0
    requires Runs(PanelStepOf(tk, predFolder, mni, rows, cols))
    ensures SheetOf(tk, predFolder, mni, infos, states) == Some(SheetFrom(PanelStepOf(tk, predFolder, mni, rows, cols), rows, cols, infos, states))
  {
  }

  /** Every passing sheet is laid out. */
  lemma SheetPanels(tk: Toolkit, predFolder: string, mni: bool, infos: seq<SubjectInfo>, states: seq<SubjectState>)
    requires tk.Valid() && |infos| == |states| && AllStateValid(states)
    ensures var sheet := SheetOf(tk, predFolder, mni, infos, states);
      sheet.Some? && sheet.value.outcome.Pass? ==> LaidOut(sheet.value, infos)
  {
    var n := |states|;
    if n > 0 {
      GridCovers(n);
      var (rows, cols) := GridLayout(n).value;
      PanelStepRuns(tk, predFolder, mni, rows, cols);
      SheetHasGrid(tk, predFolder, mni, infos, states, rows, cols);
      StepAppends(tk, predFolder, mni, rows, cols);
      SheetLaysOut(PanelStepOf(tk, predFolder, mni, rows, cols), rows, cols, infos, states);
    }
  }

  /** A passing sheet leaves every selected subject with the fields it had. */
  lemma SheetRestoresSubjects(tk: Toolkit, predFolder: string, mni: bool, rows: nat, cols: nat,
                              infos: seq<SubjectInfo>, states: seq<SubjectState>)
    requires tk.Valid() && cols > 0 && |infos| == |states| && AllStateValid(states)
    ensures Runs(PanelStepOf(tk, predFolder, mni, rows, cols))
    ensures var r := Sweep(PanelStepOf(tk, predFolder, mni, rows, cols), infos, states, []);
      r.outcome.Pass? ==> forall k :: 0 <= k < |states| ==> r.states[k].fields == states[k].fields
  {
    PanelStepRuns(tk, predFolder, mni, rows, cols);
    SweepRestores(PanelStepOf(tk, predFolder, mni, rows, cols), infos, states, []);
  }
}
