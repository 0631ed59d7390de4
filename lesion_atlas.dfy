/**
 * `generate_stat_lobes`: the lesion volume of every subject in every lobe of
 * a structural atlas, split into the left and the right hemisphere. The
 * atlas is brought onto the template grid once; two masks split that grid
 * at the `x` index of the template's physical origin; then, subject by
 * subject, two rows per lobe are appended to a results table.
 */
module LesionAtlas {
  import opened Results
  import opened Volumes
  import opened Toolkit
  import opened DatasetUtils
  import opened DatasetLoaders
  import opened SubjectLoops

  datatype AtlasError =
    | SubjectFailure(error: SubjectError)  // an assertion of a `Subject` method
    | EmptyAtlas                           // `atlas_np.max()` of an atlas with no voxels
    | MaskShape(name: string)              // `lesion_np[mask]` with a label of another shape than the atlas

  function Lift(o: Outcome<SubjectError>): (r: Outcome<AtlasError>)
    ensures r.Pass? <==> o.Pass?
    ensures o.Fail? ==> r == Fail(SubjectFailure(o.error))
  {
    if o.Fail? then Fail(SubjectFailure(o.error)) else Pass
  }

  // ------------------------------------------------------------ the atlas

  /** `resample_image_to_target(atlas, template, interpolation="genericLabel").numpy().astype(int)`. */
  function AtlasLabels(tk: Toolkit, atlas: Image, template: Frame): (r: seq<int>)
    requires tk.Valid()
    ensures |r| == template.shape.Count()
    ensures forall i :: 0 <= i < |r| ==> r[i] == Truncate(tk.resampleGenericLabel(atlas, template)[i])
  {
    var g := tk.resampleGenericLabel(atlas, template);
    seq(|g|, i requires 0 <= i < |g| => Truncate(g[i]))
  }

  /**
   * Where a Python slice bound `k` falls on an axis of length `n`: a
   * negative bound counts from the end, and the result is clamped to [0, n].
   * `[:k]` keeps the indices below it and `[k:]` the others.
   */
  function SliceBound(k: int, n: nat): (r: nat)
    ensures r <= n
    ensures 0 <= k <= n ==> r == k
    ensures k > n ==> r == n
    ensures k < 0 ==> (n + k >= 0 ==> r == n + k) && (n + k < 0 ==> r == 0)
  {
    if k < 0 then (if n + k >= 0 then n + k else 0)
    else if k <= n then k
    else n
  }

  /** `np.zeros(n)` with `[lo:hi] = 1`. */
  function Band(n: nat, lo: nat, hi: nat): (r: seq<int>)
    ensures |r| == n
    ensures forall i :: 0 <= i < n ==> (r[i] == 1 <==> lo <= i < hi) && (r[i] == 0 <==> !(lo <= i < hi))
  {
    seq(n, i => if lo <= i < hi then 1 else 0)
  }

  /** The atlas on the template grid and the two hemisphere masks, all flattened in C order. */
  datatype Atlas = Atlas(labels: seq<int>, left: seq<int>, right: seq<int>, shape: Shape)
  {
    predicate Valid()
    {
      |labels| == |left| == |right| == shape.Count()
    }
  }

  /** In C order the voxels with `x < c` are the first `c` slabs. */
  lemma InSlabs(i: nat, c: nat, slab: nat)
    requires slab > 0
    ensures i < c * slab <==> i / slab < c
  {
    var q := i / slab;
    assert i == q * slab + i % slab;
    if q < c {
      assert (q + 1) * slab <= c * slab;
    } else {
      assert c * slab <= q * slab;
    }
  }

  lemma SlabsFit(c: nat, s: Shape)
    requires c <= s.nx
    ensures c * s.Slab() <= s.Count()
  {
    assert s.Count() == s.nx * s.Slab();
  }

  /** The grid index of the template's physical origin along `x`, rounded, as a slice bound. */
  function Midline(tk: Toolkit, template: Frame): (r: nat)
    ensures r <= template.shape.nx
  {
    SliceBound(RoundHalfEven(tk.physicalToIndex(template, Origin).x), template.shape.nx)
  }

  /**
   * Lines 23-32: the atlas labels on the template grid, the left mask (1
   * exactly where `x` lies below the midline) and the right mask (1 exactly
   * where it does not). Every voxel is in exactly one hemisphere.
   */
  function AtlasOn(tk: Toolkit, atlas: Image, template: Frame): (r: Atlas)
    requires tk.Valid()
    ensures r.Valid() && r.shape == template.shape
    ensures r.labels == AtlasLabels(tk, atlas, template)
    ensures forall i :: 0 <= i < |r.labels| ==>
      && (r.left[i] == 1 <==> i < Midline(tk, template) * template.shape.Slab())
      && (r.right[i] == 1 <==> i >= Midline(tk, template) * template.shape.Slab())
      && r.left[i] + r.right[i] == 1 && 0 <= r.left[i] <= 1
  {
    var n, m := template.shape.Count(), Midline(tk, template);
    SlabsFit(m, template.shape);
    var b := m * template.shape.Slab();
    Atlas(AtlasLabels(tk, atlas, template), Band(n, 0, b), Band(n, b, n), template.shape)
  }

  /**
   * In the driver's masks, voxel `i` is on the left exactly when its `x`
   * index, `i / (ny * nz)` in C order, lies below the midline.
   */
  lemma HemisphereByX(tk: Toolkit, atlas: Image, template: Frame, i: nat)
    requires tk.Valid() && i < template.shape.Count()
    ensures template.shape.Slab() > 0
    ensures AtlasOn(tk, atlas, template).left[i] == 1 <==> i / template.shape.Slab() < Midline(tk, template)
    ensures AtlasOn(tk, atlas, template).right[i] == 1 <==> i / template.shape.Slab() >= Midline(tk, template)
  {
    var sh, m := template.shape, Midline(tk, template);
    SlabHolds(i, sh);
    InSlabs(i, m, sh.Slab());
    var r := AtlasOn(tk, atlas, template);
    assert r.left[i] == 1 <==> i < m * sh.Slab();
    assert r.right[i] == 1 <==> i >= m * sh.Slab();
  }

  /** A grid with a voxel `i` has non-empty slabs. */
  lemma SlabHolds(i: nat, sh: Shape)
    requires i < sh.Count()
    ensures sh.Slab() > 0
  {
    assert sh.Count() == sh.nx * sh.Slab();
  }

  // ------------------------------------------------------------- the lobes

  /** `atlas_np.max()`. */
  function Max(s: seq<int>): (r: int)
    requires |s| > 0
    ensures forall i :: 0 <= i < |s| ==> s[i] <= r
    ensures exists i :: 0 <= i < |s| && s[i] == r
  {
    if |s| == 1 then s[0]
    else
      var m := Max(s[..|s| - 1]);
      assert forall i :: 0 <= i < |s| - 1 ==> s[..|s| - 1][i] == s[i];
      if s[|s| - 1] > m then s[|s| - 1] else m
  }

  /** The length of `range(atlas_np.max() + 1)`. */
  function LobeCount(labels: seq<int>): (r: nat)
    requires |labels| > 0
    ensures r == 0 <==> Max(labels) < 0
    ensures r > 0 ==> r == Max(labels) + 1
  {
    if Max(labels) + 1 > 0 then Max(labels) + 1 else 0
  }

  /** A voxel's value when it belongs to the mask `atlas == lobe & side`, and 0 otherwise. */
  function Hit(atlasLabel: int, side: int, lesion: int, lobe: int): int
  {
    if atlasLabel == lobe && side != 0 then lesion else 0
  }

  /** `lesion_np[(atlas == lobe) & side].sum()` over the first `n` voxels. */
  function Masked(labels: seq<int>, side: seq<int>, lesion: seq<U32>, lobe: int, n: nat): (r: int)
    requires n <= |labels| == |side| == |lesion|
    ensures r >= 0
  {
    if n == 0 then 0 else Masked(labels, side, lesion, lobe, n - 1) + Hit(labels[n - 1], side[n - 1], lesion[n - 1], lobe)
  }

  /** One row of the results table: `[dataset, subject, hemisphere, lobe, volume]`. */
  datatype LobeRow = LobeRow(dataset: string, subject: string, hemisphere: string, lobe: nat, volume: real)

  /** The lesion volume in millilitres that falls in `lobe` and in the hemisphere `side`. */
  function LobeVolume(at: Atlas, side: seq<int>, lesion: LabelMap, lobe: nat): (r: real)
    requires |at.labels| == |side| == |lesion.voxels|
  {
    VoxelCountToVolumeMl(Masked(at.labels, side, lesion.voxels, lobe, |side|), lesion.frame.spacing)
  }

  /**
   * The rows one subject contributes for the lobes below `lobes`: for each
   * lobe in order a left row, then a right row.
   */
  function LobeRows(dataset: string, name: string, at: Atlas, lesion: LabelMap, lobes: nat): (r: seq<LobeRow>)
    requires at.Valid() && (lobes > 0 ==> |lesion.voxels| == |at.labels|)
    ensures |r| == 2 * lobes
    ensures forall l :: 0 <= l < lobes ==>
      && r[2 * l] == LobeRow(dataset, name, "left", l, LobeVolume(at, at.left, lesion, l))
      && r[2 * l + 1] == LobeRow(dataset, name, "right", l, LobeVolume(at, at.right, lesion, l))
  {
    if lobes == 0 then []
    else
      LobeRows(dataset, name, at, lesion, lobes - 1)
        + [LobeRow(dataset, name, "left", lobes - 1, LobeVolume(at, at.left, lesion, lobes - 1)),
           LobeRow(dataset, name, "right", lobes - 1, LobeVolume(at, at.right, lesion, lobes - 1))]
  }

  // -------------------------------------------------------- the subject step

  /**
   * One iteration of the subject loop (lines 36-56): prepare the subject,
   * take the maximum of the atlas, append two rows per lobe, free the
   * subject. Indexing the label by a lobe mask needs the label to have the
   * atlas's shape; with no lobe there is no indexing.
   */
  function LobeStep(tk: Toolkit, dataset: string, at: Atlas, info: SubjectInfo, s: SubjectState, rows: seq<LobeRow>): (r: (Outcome<AtlasError>, SubjectState, seq<LobeRow>))
    requires tk.Valid() && StateValid(s) && at.Valid()
    ensures StateValid(r.1)
    ensures r.0.Fail? ==> r.2 == rows
    ensures r.0 == Fail(EmptyAtlas) <==> PrepareStep(tk, info, s).0.Pass? && |at.labels| == 0
    ensures r.0.Pass? ==> PrepareStep(tk, info, s).0.Pass? && |at.labels| > 0
    ensures r.0.Pass? ==>
      var lesion := PrepareStep(tk, info, s).1.fields.labelMap.value;
      && (LobeCount(at.labels) > 0 ==> lesion.frame.shape == at.shape)
      && r.2 == rows + LobeRows(dataset, info.name, at, lesion, LobeCount(at.labels))
      && r.1.fields == s.fields && r.1.saved == Some(s.fields)
  {
    var (o, p) := PrepareStep(tk, info, s);
    if o.Fail? then (Lift(o), p, rows)
    else if |at.labels| == 0 then (Fail(EmptyAtlas), p, rows)
    else
      var lesion := p.fields.labelMap.value;
      var lobes := LobeCount(at.labels);
      if lobes > 0 && lesion.frame.shape != at.shape then (Fail(MaskShape(info.name)), p, rows)
      else
        var (o2, freed) := FreeStep(info, p);
        (Lift(o2), freed, rows + LobeRows(dataset, info.name, at, lesion, lobes))
  }

  function LobeStepOf(tk: Toolkit, dataset: string, at: Atlas): Step<seq<LobeRow>, AtlasError>
  {
    (i, s, a) requires tk.Valid() && at.Valid() && StateValid(s) => LobeStep(tk, dataset, at, i, s, a)
  }

  /** `f` agrees with `LobeStep` on every consistent subject state; the loops see the step only through this. */
  ghost predicate IsLobeStep(f: Step<seq<LobeRow>, AtlasError>, tk: Toolkit, dataset: string, at: Atlas)
    requires tk.Valid() && at.Valid()
  {
    forall i, s, a {:trigger LobeStep(tk, dataset, at, i, s, a)} :: StateValid(s) ==> f.requires(i, s, a) && f(i, s, a) == LobeStep(tk, dataset, at, i, s, a)
  }

  lemma LobeStepRuns(tk: Toolkit, dataset: string, at: Atlas)
    requires tk.Valid() && at.Valid()
    ensures Runs(LobeStepOf(tk, dataset, at)) && IsLobeStep(LobeStepOf(tk, dataset, at), tk, dataset, at)
  {
  }

  // ------------------------------------------------------------- the methods

  /** The `results_df` data frame, to which rows are appended. */
  class ResultsTable {
    var rows: seq<LobeRow>

    /** The empty frame with the five columns. */
    constructor()
      ensures rows == []
    {
      rows := [];
    }

    /** `results_df.loc[len(results_df)] = row`. */
    method Append(row: LobeRow)
      modifies this
      ensures rows == old(rows) + [row]
    {
      rows := rows + [row];
    }
  }

  /** `np.zeros(n)` followed by the slice assignment `[lo:hi] = 1`. */
  method BandMask(n: nat, lo: nat, hi: nat) returns (m: array<int>)
    requires lo <= hi <= n
    ensures fresh(m) && m[..] == Band(n, lo, hi)
  {
    m := new int[n](_ => 0);
    for i := lo to hi
      invariant forall j :: 0 <= j < n ==> m[j] == if lo <= j < i then 1 else 0
    {
      m[i] := 1;
    }
  }

  /** Lines 23-32, computing the masks in place. */
  method PrepareAtlas(tk: Toolkit, atlas: Image, template: Frame) returns (at: Atlas)
    requires tk.Valid()
    ensures at == AtlasOn(tk, atlas, template)
  {
    var labels := AtlasLabels(tk, atlas, template);
    var center := tk.physicalToIndex(template, Origin);
    var k := RoundHalfEven(center.x);
    var n := template.shape.Count();
    var m := SliceBound(k, template.shape.nx);
    SlabsFit(m, template.shape);
    var b := m * template.shape.Slab();
    var left := BandMask(n, 0, b);
    var right := BandMask(n, b, n);
    at := Atlas(labels, left[..], right[..], template.shape);
  }

  /** The `for lobe in range(...)` loop: two rows per lobe, left before right. */
  method AppendLobeRows(table: ResultsTable, dataset: string, name: string, at: Atlas, lesion: LabelMap, lobes: nat)
    requires at.Valid() && (lobes > 0 ==> |lesion.voxels| == |at.labels|)
    modifies table
    ensures table.rows == old(table.rows) + LobeRows(dataset, name, at, lesion, lobes)
  {
    for lobe := 0 to lobes
      invariant table.rows == old(table.rows) + LobeRows(dataset, name, at, lesion, lobe)
    {
      table.Append(LobeRow(dataset, name, "left", lobe, LobeVolume(at, at.left, lesion, lobe)));
      table.Append(LobeRow(dataset, name, "right", lobe, LobeVolume(at, at.right, lesion, lobe)));
    }
  }

  method LobeSubject(tk: Toolkit, dataset: string, at: Atlas, subj: Subject, table: ResultsTable) returns (r: Outcome<AtlasError>)
    requires tk.Valid() && at.Valid() && subj.Valid()
    modifies subj, table
    ensures subj.Valid()
    ensures (r, subj.Snapshot(), table.rows) == LobeStep(tk, dataset, at, subj.Info(), old(subj.Snapshot()), old(table.rows))
  {
    var o := Prepare(tk, subj);
    if o.Fail? {
      return Lift(o);
    }
    if |at.labels| == 0 {
      return Fail(EmptyAtlas);
    }
    var lesion := subj.labelMap.value;
    var lobes := LobeCount(at.labels);
    if lobes > 0 && lesion.frame.shape != at.shape {
      return Fail(MaskShape(subj.name));
    }
    AppendLobeRows(table, dataset, subj.name, at, lesion, lobes);
    o := subj.FreeData();
    return Lift(o);
  }

  /** The body of the subject loop, on the `i`-th subject; the other subjects keep their state. */
  method LobeIteration(tk: Toolkit, dataset: string, at: Atlas, subjects: seq<Subject>, i: nat, table: ResultsTable,
                       ghost f: Step<seq<LobeRow>, AtlasError>) returns (r: Outcome<AtlasError>)
    requires tk.Valid() && at.Valid() && Distinct(subjects) && AllValid(subjects) && i < |subjects|
    requires Runs(f) && IsLobeStep(f, tk, dataset, at)
    modifies subjects[i], table
    ensures AllValid(subjects)
    ensures (r, subjects[i].Snapshot(), table.rows) == f(subjects[i].Info(), old(subjects[i].Snapshot()), old(table.rows))
    ensures States(subjects) == old(States(subjects))[i := subjects[i].Snapshot()]
  {
    r := LobeSubject(tk, dataset, at, subjects[i], table);
    assert forall k :: 0 <= k < |subjects| && k != i ==> subjects[k] != subjects[i];
  }

  /** The `for subj in dataset` loop. */
  method LobeSweep(tk: Toolkit, dataset: string, at: Atlas, subjects: seq<Subject>, table: ResultsTable,
                   ghost f: Step<seq<LobeRow>, AtlasError>) returns (r: Outcome<AtlasError>)
    requires tk.Valid() && at.Valid() && Distinct(subjects) && AllValid(subjects)
    requires Runs(f) && IsLobeStep(f, tk, dataset, at)
    modifies Objects(subjects), table
    ensures AllValid(subjects)
    ensures var spec := Sweep(f, Infos(subjects), old(States(subjects)), old(table.rows));
      && table.rows == spec.acc && r == spec.outcome && States(subjects) == spec.states
  {
    ghost var infos := Infos(subjects);
    ghost var start := States(subjects);
    ghost var acc := table.rows;
    ghost var whole := Sweep(f, infos, start, acc);
    ghost var done: seq<SubjectState> := [];
    assert infos[0..] == infos && start[0..] == start && [] + whole.states == whole.states;
    var i := 0;
    while i < |subjects|
      invariant 0 <= i <= |subjects| && |done| == i
      invariant AllValid(subjects) && AllStateValid(start)
      invariant States(subjects) == done + start[i..]
      invariant acc == table.rows
      invariant whole == Resume(done, Sweep(f, infos[i..], start[i..], acc))
    {
      r := LobeIteration(tk, dataset, at, subjects, i, table, f);
      ghost var step := f(infos[i], start[i], acc);
      SweepAt(f, infos, start, i, done, acc, whole);
      Splice(done, start[i..], step.1);
      assert start[i..][1..] == start[i + 1..];
      done := done + [step.1];
      acc := step.2;
      if r.Fail? {
        return;
      }
      i := i + 1;
    }
    SweepDone(f, infos, start, done, acc, whole);
    r := Pass;
  }

  /**
   * `generate_stat_lobes`: the atlas and masks of lines 23-32, then the
   * subject loop, whose rows are appended to `table`.
   */
  method GenerateStatLobes(tk: Toolkit, subjects: seq<Subject>, dataset: string, template: Frame, atlas: Image, table: ResultsTable)
    returns (r: Outcome<AtlasError>)
    requires tk.Valid() && Distinct(subjects) && AllValid(subjects)
    modifies Objects(subjects), table
    ensures AllValid(subjects)
    ensures var spec := Sweep(LobeStepOf(tk, dataset, AtlasOn(tk, atlas, template)), Infos(subjects), old(States(subjects)), old(table.rows));
      && table.rows == spec.acc && r == spec.outcome && States(subjects) == spec.states
  {
    var at := PrepareAtlas(tk, atlas, template);
    LobeStepRuns(tk, dataset, at);
    r := LobeSweep(tk, dataset, at, subjects, table, LobeStepOf(tk, dataset, at));
  }

  // ------------------------------------------------------------------ lemmas

  /** Every voxel lies in exactly one hemisphere mask. */
  predicate Partitioned(at: Atlas)
    requires at.Valid()
  {
    forall i :: 0 <= i < |at.labels| ==> (at.left[i] == 1 && at.right[i] == 0) || (at.left[i] == 0 && at.right[i] == 1)
  }

  /** Both masks of each lobe below `lobes`, over the first `n` voxels. */
  function BothSides(at: Atlas, lesion: seq<U32>, lobes: nat, n: nat): int
    requires at.Valid() && |lesion| == |at.labels| && n <= |lesion|
  {
    if lobes == 0 then 0
    else BothSides(at, lesion, lobes - 1, n) + Masked(at.labels, at.left, lesion, lobes - 1, n) + Masked(at.labels, at.right, lesion, lobes - 1, n)
  }

  /** What voxel `x` adds to `BothSides` over the lobes below `lobes`. */
  function VoxelHits(at: Atlas, lesion: seq<U32>, lobes: nat, x: nat): int
    requires at.Valid() && |lesion| == |at.labels| && x < |lesion|
  {
    if lobes == 0 then 0
    else VoxelHits(at, lesion, lobes - 1, x) + Hit(at.labels[x], at.left[x], lesion[x], lobes - 1) + Hit(at.labels[x], at.right[x], lesion[x], lobes - 1)
  }

  /** A voxel whose label is one of the lobes counts once, in its own hemisphere. */
  lemma {:induction false} VoxelCountedOnce(at: Atlas, lesion: seq<U32>, lobes: nat, x: nat)
    requires at.Valid() && |lesion| == |at.labels| && x < |lesion| && Partitioned(at)
    ensures VoxelHits(at, lesion, lobes, x) == if 0 <= at.labels[x] < lobes then lesion[x] else 0
  {
    if lobes > 0 {
      VoxelCountedOnce(at, lesion, lobes - 1, x);
    }
  }

  lemma {:induction false} BothSidesStep(at: Atlas, lesion: seq<U32>, lobes: nat, n: nat)
    requires at.Valid() && |lesion| == |at.labels| && 0 < n <= |lesion|
    ensures BothSides(at, lesion, lobes, n) == BothSides(at, lesion, lobes, n - 1) + VoxelHits(at, lesion, lobes, n - 1)
  {
    if lobes > 0 {
      BothSidesStep(at, lesion, lobes - 1, n);
    }
  }

  lemma {:induction false} BothSidesIsSum(at: Atlas, lesion: seq<U32>, lobes: nat, n: nat)
    requires at.Valid() && |lesion| == |at.labels| && n <= |lesion| && Partitioned(at)
    requires forall i :: 0 <= i < |lesion| ==> 0 <= at.labels[i] < lobes
    ensures BothSides(at, lesion, lobes, n) == Sum(lesion[..n])
  {
    if n == 0 {
      assert lesion[..0] == [];
      assert BothSides(at, lesion, lobes, 0) == 0 by {
        BothSidesZero(at, lesion, lobes);
      }
    } else {
      BothSidesIsSum(at, lesion, lobes, n - 1);
      BothSidesStep(at, lesion, lobes, n);
      VoxelCountedOnce(at, lesion, lobes, n - 1);
      assert lesion[..n][..n - 1] == lesion[..n - 1];
    }
  }

  lemma {:induction false} BothSidesZero(at: Atlas, lesion: seq<U32>, lobes: nat)
    requires at.Valid() && |lesion| == |at.labels|
    ensures BothSides(at, lesion, lobes, 0) == 0
  {
    if lobes > 0 {
      BothSidesZero(at, lesion, lobes - 1);
    }
  }

  /** The sum of the `volume` column. */
  function TotalVolume(rows: seq<LobeRow>): real
  {
    if |rows| == 0 then 0.0 else TotalVolume(rows[..|rows| - 1]) + rows[|rows| - 1].volume
  }

  lemma TotalVolumePair(rows: seq<LobeRow>, a: LobeRow, b: LobeRow)
    ensures TotalVolume(rows + [a, b]) == TotalVolume(rows) + a.volume + b.volume
  {
    assert (rows + [a, b])[..|rows| + 1] == rows + [a];
    assert (rows + [a])[..|rows|] == rows;
  }

  lemma {:induction false} RowsVolume(dataset: string, name: string, at: Atlas, lesion: LabelMap, lobes: nat)
    requires at.Valid() && |lesion.voxels| == |at.labels|
    ensures TotalVolume(LobeRows(dataset, name, at, lesion, lobes))
      == VoxelCountToVolumeMl(BothSides(at, lesion.voxels, lobes, |lesion.voxels|), lesion.frame.spacing)
  {
    var z := lesion.frame.spacing;
    var n := |lesion.voxels|;
    if lobes == 0 {
      VolumeMlLinear(0, 0, 0, z);
    } else {
      var prev := LobeRows(dataset, name, at, lesion, lobes - 1);
      var rows := LobeRows(dataset, name, at, lesion, lobes);
      RowsVolume(dataset, name, at, lesion, lobes - 1);
      TotalVolumePair(prev, rows[|rows| - 2], rows[|rows| - 1]);
      assert rows == prev + [rows[|rows| - 2], rows[|rows| - 1]];
      var a := BothSides(at, lesion.voxels, lobes - 1, n);
      var b := Masked(at.labels, at.left, lesion.voxels, lobes - 1, n);
      var c := Masked(at.labels, at.right, lesion.voxels, lobes - 1, n);
      VolumeMlLinear(a, b, 0, z);
      VolumeMlLinear(a + b, c, 0, z);
    }
  }

  /**
   * When no atlas label is negative, the volumes of a subject's rows add up
   * to the volume of its whole lesion: every voxel belongs to one lobe
   * (0 being the background) and to one hemisphere.
   */
  lemma RowsCoverLesion(dataset: string, name: string, at: Atlas, lesion: LabelMap)
    requires at.Valid() && |lesion.voxels| == |at.labels| > 0 && Partitioned(at)
    requires forall i :: 0 <= i < |at.labels| ==> at.labels[i] >= 0
    ensures TotalVolume(LobeRows(dataset, name, at, lesion, LobeCount(at.labels)))
      == VoxelCountToVolumeMl(Sum(lesion.voxels), lesion.frame.spacing)
  {
    var lobes := LobeCount(at.labels);
    RowsVolume(dataset, name, at, lesion, lobes);
    BothSidesIsSum(at, lesion.voxels, lobes, |lesion.voxels|);
    assert lesion.voxels[..|lesion.voxels|] == lesion.voxels;
  }

  /** The atlas and masks that the driver builds split every voxel between the hemispheres. */
  lemma AtlasPartitioned(tk: Toolkit, atlas: Image, template: Frame)
    requires tk.Valid()
    ensures Partitioned(AtlasOn(tk, atlas, template))
  {
  }

  /**
   * A passing subject step appends exactly two rows per lobe `0 ..
   * max(atlas)`, and, for a partitioned atlas without negative labels (as
   * `AtlasPartitioned` shows the driver's to be), rows whose volumes add up
   * to the subject's lesion volume.
   */
  lemma LobeStepRows(tk: Toolkit, dataset: string, at: Atlas, info: SubjectInfo, s: SubjectState, rows: seq<LobeRow>)
    requires tk.Valid() && StateValid(s) && at.Valid() && Partitioned(at)
    requires forall i :: 0 <= i < |at.labels| ==> at.labels[i] >= 0
    ensures var r := LobeStep(tk, dataset, at, info, s, rows);
      r.0.Pass? ==>
        var lesion := PrepareStep(tk, info, s).1.fields.labelMap.value;
        && |r.2| == |rows| + 2 * LobeCount(at.labels)
        && TotalVolume(r.2[|rows|..]) == VoxelCountToVolumeMl(Sum(lesion.voxels), lesion.frame.spacing)
  {
    var r := LobeStep(tk, dataset, at, info, s, rows);
    if r.0.Pass? {
      var lesion := PrepareStep(tk, info, s).1.fields.labelMap.value;
      var lobes := LobeCount(at.labels);
      assert at.labels[0] >= 0 && at.labels[0] <= Max(at.labels);
      RowsCoverLesion(dataset, info.name, at, lesion);
      assert r.2[|rows|..] == LobeRows(dataset, info.name, at, lesion, lobes);
    }
  }
}
