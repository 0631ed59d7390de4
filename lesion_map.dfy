/**
 * `generate_stat_map`: the lesion-frequency map. A map of zeros on the
 * template grid receives, subject by subject, the subject's label in
 * template space (`stat_map += label`), so that each voxel ends up counting
 * the subjects with a lesion there.
 */
module LesionMap {
  import opened Results
  import opened Volumes
  import opened Toolkit
  import opened DatasetUtils
  import opened DatasetLoaders
  import opened SubjectLoops

  datatype MapError =
    | SubjectFailure(error: SubjectError)  // an assertion of a `Subject` method
    | Broadcast(name: string)              // `stat_map += label` with a label of another shape

  function Lift(o: Outcome<SubjectError>): (r: Outcome<MapError>)
    ensures r.Pass? <==> o.Pass?
    ensures o.Fail? ==> r == Fail(SubjectFailure(o.error))
  {
    if o.Fail? then Fail(SubjectFailure(o.error)) else Pass
  }

  /** `np.zeros(template.shape)`, flattened. */
  function ZeroMap(n: nat): (r: seq<real>)
    ensures |r| == n && forall v :: 0 <= v < n ==> r[v] == 0.0
  {
    seq(n, _ => 0.0)
  }

  /** `stat_map + label`, voxel by voxel (the uint32 label widened to float). */
  function Added(acc: seq<real>, lesion: seq<U32>): (r: seq<real>)
    requires |acc| == |lesion|
    ensures |r| == |acc|
    ensures forall v :: 0 <= v < |acc| ==> r[v] - acc[v] == lesion[v] as real
  {
    seq(|acc|, v requires 0 <= v < |acc| => acc[v] + lesion[v] as real)
  }

  /**
   * One iteration of the loop: prepare the subject, add its label to the
   * map, free the subject. `shape` is the template's shape; the map always
   * has as many voxels as it, so the second test below is the same as the
   * first for a label on a valid grid.
   */
  function StatStep(tk: Toolkit, shape: Shape, info: SubjectInfo, s: SubjectState, acc: seq<real>): (r: (Outcome<MapError>, SubjectState, seq<real>))
    requires tk.Valid() && StateValid(s)
    ensures StateValid(r.1)
    ensures r.0.Fail? ==> r.2 == acc
    ensures r.0.Pass? ==>
      var p := PrepareStep(tk, info, s);
      && p.0.Pass? && |p.1.fields.labelMap.value.voxels| == |acc|
      && r.2 == Added(acc, p.1.fields.labelMap.value.voxels)
      && r.1.fields == s.fields && r.1.saved == Some(s.fields)
  {
    var (o, p) := PrepareStep(tk, info, s);
    if o.Fail? then (Lift(o), p, acc)
    else
      var lesion := p.fields.labelMap.value;
      if lesion.frame.shape != shape || |lesion.voxels| != |acc| then (Fail(Broadcast(info.name)), p, acc)
      else
        var (o2, freed) := FreeStep(info, p);
        (Lift(o2), freed, Added(acc, lesion.voxels))
  }

  function StatStepOf(tk: Toolkit, shape: Shape): Step<seq<real>, MapError>
  {
    (i, s, a) requires tk.Valid() && StateValid(s) => StatStep(tk, shape, i, s, a)
  }

  lemma StatStepRuns(tk: Toolkit, shape: Shape)
    requires tk.Valid()
    ensures Runs(StatStepOf(tk, shape)) && IsStatStep(StatStepOf(tk, shape), tk, shape)
  {
  }

  /**
   * `f` is the loop's step: it agrees with `StatStep` on every consistent
   * subject state. The drivers' loops see the step only through this
   * predicate, so that their proofs do not unfold the step itself.
   */
  ghost predicate IsStatStep(f: Step<seq<real>, MapError>, tk: Toolkit, shape: Shape)
    requires tk.Valid()
  {
    forall i, s, a {:trigger StatStep(tk, shape, i, s, a)} :: StateValid(s) ==> f.requires(i, s, a) && f(i, s, a) == StatStep(tk, shape, i, s, a)
  }

  // ------------------------------------------------------------- the methods

  /** `stat_map += label`, in place. */
  method AddLabel(statMap: array<real>, lesion: seq<U32>)
    requires statMap.Length == |lesion|
    modifies statMap
    ensures statMap[..] == Added(old(statMap[..]), lesion)
  {
    for v := 0 to statMap.Length
      invariant forall w :: 0 <= w < v ==> statMap[w] == old(statMap[w]) + lesion[w] as real
      invariant forall w :: v <= w < statMap.Length ==> statMap[w] == old(statMap[w])
    {
      statMap[v] := statMap[v] + lesion[v] as real;
    }
  }

  method StatSubject(tk: Toolkit, shape: Shape, subj: Subject, statMap: array<real>) returns (r: Outcome<MapError>)
    requires tk.Valid() && subj.Valid()
    modifies subj, statMap
    ensures subj.Valid()
    ensures (r, subj.Snapshot(), statMap[..]) == StatStep(tk, shape, subj.Info(), old(subj.Snapshot()), old(statMap[..]))
  {
    var o := Prepare(tk, subj);
    if o.Fail? {
      return Lift(o);
    }
    var lesion := subj.labelMap.value;
    if lesion.frame.shape != shape || |lesion.voxels| != statMap.Length {
      return Fail(Broadcast(subj.name));
    }
    AddLabel(statMap, lesion.voxels);
    o := subj.FreeData();
    return Lift(o);
  }

  /** The body of the loop, on the `i`-th subject of the list; the other subjects keep their state. */
  method StatIteration(tk: Toolkit, shape: Shape, subjects: seq<Subject>, i: nat, statMap: array<real>,
                       ghost f: Step<seq<real>, MapError>) returns (r: Outcome<MapError>)
    requires tk.Valid() && Distinct(subjects) && AllValid(subjects) && i < |subjects|
    requires Runs(f) && IsStatStep(f, tk, shape)
    modifies subjects[i], statMap
    ensures AllValid(subjects)
    ensures (r, subjects[i].Snapshot(), statMap[..]) == f(subjects[i].Info(), old(subjects[i].Snapshot()), old(statMap[..]))
    ensures States(subjects) == old(States(subjects))[i := subjects[i].Snapshot()]
  {
    r := StatSubject(tk, shape, subjects[i], statMap);
    assert forall k :: 0 <= k < |subjects| && k != i ==> subjects[k] != subjects[i];
  }

  /** The `for subj in dataset` loop, over a map that already exists. */
  method StatSweep(tk: Toolkit, shape: Shape, subjects: seq<Subject>, statMap: array<real>,
                   ghost f: Step<seq<real>, MapError>) returns (r: Outcome<MapError>)
    requires tk.Valid() && Distinct(subjects) && AllValid(subjects)
    requires Runs(f) && IsStatStep(f, tk, shape)
    modifies Objects(subjects), statMap
    ensures AllValid(subjects)
    ensures var spec := Sweep(f, Infos(subjects), old(States(subjects)), old(statMap[..]));
      && statMap[..] == spec.acc && r == spec.outcome && States(subjects) == spec.states
  {
    ghost var infos := Infos(subjects);
    ghost var start := States(subjects);
    ghost var acc := statMap[..];
    ghost var whole := Sweep(f, infos, start, acc);
    ghost var done: seq<SubjectState> := [];
    assert infos[0..] == infos && start[0..] == start && [] + whole.states == whole.states;
    var i := 0;
    while i < |subjects|
      invariant 0 <= i <= |subjects| && |done| == i
      invariant AllValid(subjects) && AllStateValid(start)
      invariant States(subjects) == done + start[i..]
      invariant acc == statMap[..]
      invariant whole == Resume(done, Sweep(f, infos[i..], start[i..], acc))
    {
      r := StatIteration(tk, shape, subjects, i, statMap, f);
      ghost var step := f(infos[i], start[i], acc);
      SweepAt(f, infos, start, i, done, acc, whole);
      Splice(done, start[i..], step.1);
      assert start[i..][1..] == start[i + 1..];
      done := done + [step.1];
      acc := step.2;
      if r.Fail? {
        return;
      }
      i := i + 1;
    }
    SweepDone(f, infos, start, done, acc, whole);
    r := Pass;
  }

  /**
   * `generate_stat_map`: the map of each voxel's lesion count, and the
   * subjects as the loop leaves them.
   */
  method GenerateStatMap(tk: Toolkit, subjects: seq<Subject>, template: Frame) returns (statMap: array<real>, r: Outcome<MapError>)
    requires tk.Valid() && Distinct(subjects) && AllValid(subjects)
    modifies Objects(subjects)
    ensures fresh(statMap) && AllValid(subjects)
    ensures var spec := Sweep(StatStepOf(tk, template.shape), Infos(subjects), old(States(subjects)), ZeroMap(template.shape.Count()));
      && statMap[..] == spec.acc && r == spec.outcome && States(subjects) == spec.states
  {
    StatStepRuns(tk, template.shape);
    statMap := new real[template.shape.Count()](_ => 0.0);
    assert statMap[..] == ZeroMap(template.shape.Count());
    r := StatSweep(tk, template.shape, subjects, statMap, StatStepOf(tk, template.shape));
  }

  // ------------------------------------------------------------------ lemmas

  /** The label a subject contributes: its label after the preparation, where that passes. */
  ghost function Contribution(tk: Toolkit, info: SubjectInfo, s: SubjectState, v: nat): real
    requires tk.Valid() && StateValid(s)
  {
    var p := PrepareStep(tk, info, s);
    if p.0.Pass? && v < |p.1.fields.labelMap.value.voxels| then p.1.fields.labelMap.value.voxels[v] as real else 0.0
  }

  /** The sum of the subjects' contributions at voxel `v`. */
  ghost function LesionCount(tk: Toolkit, infos: seq<SubjectInfo>, states: seq<SubjectState>, v: nat): real
    requires tk.Valid() && |infos| == |states| && AllStateValid(states)
    decreases |states|
  {
    if |states| == 0 then 0.0
    else Contribution(tk, infos[0], states[0], v) + LesionCount(tk, infos[1..], states[1..], v)
  }

  /**
   * A loop that passes adds to every voxel of the map the sum, over the
   * subjects, of their labels at that voxel.
   */
  lemma {:induction false} StatMapSums(tk: Toolkit, shape: Shape, infos: seq<SubjectInfo>, states: seq<SubjectState>, acc: seq<real>)
    requires tk.Valid() && |infos| == |states| && AllStateValid(states)
    requires Runs(StatStepOf(tk, shape))
    ensures var r := Sweep(StatStepOf(tk, shape), infos, states, acc);
      r.outcome.Pass? ==>
        && |r.acc| == |acc|
        && forall v :: 0 <= v < |acc| ==> r.acc[v] == acc[v] + LesionCount(tk, infos, states, v)
    decreases |states|
  {
    var f := StatStepOf(tk, shape);
    if |states| > 0 {
      var (o, s, a) := f(infos[0], states[0], acc);
      if o.Pass? {
        assert AllStateValid(states[1..]);
        StatMapSums(tk, shape, infos[1..], states[1..], a);
        var p := PrepareStep(tk, infos[0], states[0]);
        forall v | 0 <= v < |acc|
          ensures a[v] == acc[v] + Contribution(tk, infos[0], states[0], v)
        {
        }
      }
    }
  }

  /** Every subject's prepared label holds only 0 and 1. */
  ghost predicate BinaryContributions(tk: Toolkit, infos: seq<SubjectInfo>, states: seq<SubjectState>)
    requires tk.Valid() && |infos| == |states| && AllStateValid(states)
  {
    forall k :: 0 <= k < |states| ==>
      var p := PrepareStep(tk, infos[k], states[k]);
      p.0.Pass? ==> IsBinary(p.1.fields.labelMap.value.voxels)
  }

  /** With 0/1 labels a voxel's count lies between 0 and the number of subjects. */
  lemma {:induction false} LesionCountBounded(tk: Toolkit, infos: seq<SubjectInfo>, states: seq<SubjectState>, v: nat)
    requires tk.Valid() && |infos| == |states| && AllStateValid(states)
    requires BinaryContributions(tk, infos, states)
    ensures 0.0 <= LesionCount(tk, infos, states, v) <= |states| as real
    decreases |states|
  {
    if |states| > 0 {
      assert AllStateValid(states[1..]);
      assert BinaryContributions(tk, infos[1..], states[1..]) by {
        forall k | 0 <= k < |states| - 1
          ensures var p := PrepareStep(tk, infos[1..][k], states[1..][k]);
            p.0.Pass? ==> IsBinary(p.1.fields.labelMap.value.voxels)
        {
          assert infos[1..][k] == infos[k + 1] && states[1..][k] == states[k + 1];
        }
      }
      LesionCountBounded(tk, infos[1..], states[1..], v);
      var p := PrepareStep(tk, infos[0], states[0]);
      assert 0.0 <= Contribution(tk, infos[0], states[0], v) <= 1.0;
    }
  }

  /**
   * The finished map: from zeros, each voxel holds the subjects' lesion
   * count there, between 0 and the number of subjects for 0/1 labels.
   */
  lemma StatMapCounts(tk: Toolkit, shape: Shape, infos: seq<SubjectInfo>, states: seq<SubjectState>)
    requires tk.Valid() && |infos| == |states| && AllStateValid(states)
    requires Runs(StatStepOf(tk, shape)) && BinaryContributions(tk, infos, states)
    ensures var r := Sweep(StatStepOf(tk, shape), infos, states, ZeroMap(shape.Count()));
      r.outcome.Pass? ==>
        && |r.acc| == shape.Count()
        && forall v :: 0 <= v < |r.acc| ==> r.acc[v] == LesionCount(tk, infos, states, v) && 0.0 <= r.acc[v] <= |states| as real
  {
    StatMapSums(tk, shape, infos, states, ZeroMap(shape.Count()));
    forall v: nat {
      LesionCountBounded(tk, infos, states, v);
    }
  }

  /** A loop that passes leaves every subject with the fields it started with. */
  lemma StatMapRestoresSubjects(tk: Toolkit, shape: Shape, infos: seq<SubjectInfo>, states: seq<SubjectState>, acc: seq<real>)
    requires tk.Valid() && |infos| == |states| && AllStateValid(states)
    requires Runs(StatStepOf(tk, shape))
    ensures var r := Sweep(StatStepOf(tk, shape), infos, states, acc);
      r.outcome.Pass? ==> forall k :: 0 <= k < |states| ==> r.states[k].fields == states[k].fields
  {
    SweepRestores(StatStepOf(tk, shape), infos, states, acc);
  }
}
