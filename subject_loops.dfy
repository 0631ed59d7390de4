/**
 * The shape shared by the analysis drivers: a `for subj in dataset` loop
 * that runs a fixed sequence of `Subject` methods on each subject in turn,
 * threads an accumulator (a sum map, a results table, a list of panels)
 * through the iterations, and stops at the first assertion that fails.
 *
 * `Sweep` is that loop on values: it takes each subject's `SubjectInfo` and
 * `SubjectState` and a step function for one iteration. The drivers' methods
 * work on the `Subject` objects themselves and are proved equal to `Sweep`.
 */
module SubjectLoops {
  import opened Results
  import opened Toolkit
  import opened DatasetLoaders

  /** No subject object occurs twice in the list. */
  predicate Distinct(subjects: seq<Subject>)
  {
    forall i, j :: 0 <= i < j < |subjects| ==> subjects[i] != subjects[j]
  }

  function Objects(subjects: seq<Subject>): set<Subject>
  {
    set k | 0 <= k < |subjects| :: subjects[k]
  }

  ghost predicate AllValid(subjects: seq<Subject>)
    reads Objects(subjects)
  {
    forall k :: 0 <= k < |subjects| ==> subjects[k].Valid()
  }

  function Infos(subjects: seq<Subject>): (r: seq<SubjectInfo>)
    requires forall k :: 0 <= k < |subjects| ==> |subjects[k].transformFlairToMni| == 2
    ensures |r| == |subjects|
    ensures forall k :: 0 <= k < |subjects| ==> r[k] == subjects[k].Info()
  {
    seq(|subjects|, k requires 0 <= k < |subjects| => subjects[k].Info())
  }

  function States(subjects: seq<Subject>): (r: seq<SubjectState>)
    reads Objects(subjects)
    ensures |r| == |subjects|
    ensures forall k :: 0 <= k < |subjects| ==> r[k] == subjects[k].Snapshot()
  {
    seq(|subjects|, k requires 0 <= k < |subjects| reads Objects(subjects) => subjects[k].Snapshot())
  }

  /** What a loop over subjects leaves behind: every subject's state, the accumulator, the outcome. */
  datatype Swept<A, E> = Swept(states: seq<SubjectState>, acc: A, outcome: Outcome<E>)

  /** One iteration: a subject's fixed information, its state and the accumulator in; outcome, state and accumulator out. */
  type Step<!A, E> = (SubjectInfo, SubjectState, A) --> (Outcome<E>, SubjectState, A)

  /** A step that can run on every consistent subject state. */
  ghost predicate Runs<A(!new), E>(f: Step<A, E>)
  {
    forall i, s, a :: StateValid(s) ==> f.requires(i, s, a)
  }

  predicate AllStateValid(states: seq<SubjectState>)
  {
    forall k :: 0 <= k < |states| ==> StateValid(states[k])
  }

  /**
   * The loop on values. Subjects are visited in list order; a failing step
   * ends the loop with its outcome, and the subjects after it keep their
   * states.
   */
  function Sweep<A(!new), E>(f: Step<A, E>, infos: seq<SubjectInfo>, states: seq<SubjectState>, acc: A): (r: Swept<A, E>)
    requires |infos| == |states| && AllStateValid(states) && Runs(f)
    ensures |r.states| == |states|
    decreases |states|
  {
    if |states| == 0 then Swept([], acc, Pass)
    else
      var (o, s, a) := f(infos[0], states[0], acc);
      if o.Fail? then Swept([s] + states[1..], a, o)
      else
        var rest := Sweep(f, infos[1..], states[1..], a);
        Swept([s] + rest.states, rest.acc, rest.outcome)
  }

  /** The rest of a loop, after the states `done` of the subjects already visited. */
  function Resume<A(!new), E>(done: seq<SubjectState>, rest: Swept<A, E>): Swept<A, E>
  {
    Swept(done + rest.states, rest.acc, rest.outcome)
  }

  /** One iteration of the loop, as a driver's `while` loop performs it. */
  lemma SweepAt<A(!new), E>(f: Step<A, E>, infos: seq<SubjectInfo>, states: seq<SubjectState>, i: nat,
                      done: seq<SubjectState>, acc: A, whole: Swept<A, E>)
    requires |infos| == |states| && i < |states| && AllStateValid(states) && Runs(f)
    requires whole == Resume(done, Sweep(f, infos[i..], states[i..], acc))
    ensures var (o, s, a) := f(infos[i], states[i], acc);
      && (o.Fail? ==> whole == Swept(done + [s] + states[i + 1..], a, o))
      && (o.Pass? ==> whole == Resume(done + [s], Sweep(f, infos[i + 1..], states[i + 1..], a)))
  {
    assert infos[i..][0] == infos[i] && states[i..][0] == states[i];
    assert infos[i..][1..] == infos[i + 1..] && states[i..][1..] == states[i + 1..];
    var (o, s, a) := f(infos[i], states[i], acc);
    if o.Fail? {
      assert done + ([s] + states[i + 1..]) == done + [s] + states[i + 1..];
    } else {
      var rest := Sweep(f, infos[i + 1..], states[i + 1..], a);
      assert done + ([s] + rest.states) == done + [s] + rest.states;
    }
  }

  /** Replacing the first state after `done`. */
  lemma Splice<T>(done: seq<T>, rest: seq<T>, x: T)
    requires |rest| > 0
    ensures (done + rest)[|done| := x] == done + [x] + rest[1..]
  {
  }

  /** The loop after its last subject. */
  lemma SweepDone<A(!new), E>(f: Step<A, E>, infos: seq<SubjectInfo>, states: seq<SubjectState>,
                        done: seq<SubjectState>, acc: A, whole: Swept<A, E>)
    requires |infos| == |states| && AllStateValid(states) && Runs(f)
    requires whole == Resume(done, Sweep(f, infos[|states|..], states[|states|..], acc))
    ensures whole == Swept(done, acc, Pass)
  {
    assert done + [] == done;
  }

  /**
   * A loop whose every passing step returns its subject with the fields it
   * had (loaded, then freed) leaves every subject with its original fields
   * when it passes.
   */
  lemma {:induction false} SweepRestores<A(!new), E>(f: Step<A, E>, infos: seq<SubjectInfo>, states: seq<SubjectState>, acc: A)
    requires |infos| == |states| && AllStateValid(states) && Runs(f)
    requires forall i, s, a :: StateValid(s) && f(i, s, a).0.Pass? ==> f(i, s, a).1.fields == s.fields
    ensures var r := Sweep(f, infos, states, acc);
      r.outcome.Pass? ==> forall k :: 0 <= k < |states| ==> r.states[k].fields == states[k].fields
    decreases |states|
  {
    if |states| > 0 {
      var (o, s, a) := f(infos[0], states[0], acc);
      if o.Pass? {
        assert AllStateValid(states[1..]);
        SweepRestores(f, infos[1..], states[1..], a);
      }
    }
  }

  /** How many subjects the loop visits: all of them, or up to and including the first failure. */
  function Visited<A(!new), E>(f: Step<A, E>, infos: seq<SubjectInfo>, states: seq<SubjectState>, acc: A): nat
    requires |infos| == |states| && AllStateValid(states) && Runs(f)
    decreases |states|
  {
    if |states| == 0 then 0
    else
      var (o, s, a) := f(infos[0], states[0], acc);
      if o.Fail? then 1 else 1 + Visited(f, infos[1..], states[1..], a)
  }

  /**
   * A passing loop visits every subject; a failing loop
   * leaves the subjects after the failing one as they were.
   */
  lemma {:induction false} SweepStops<A(!new), E>(f: Step<A, E>, infos: seq<SubjectInfo>, states: seq<SubjectState>, acc: A)
    requires |infos| == |states| && AllStateValid(states) && Runs(f)
    ensures var r, n := Sweep(f, infos, states, acc), Visited(f, infos, states, acc);
      && n <= |states|
      && (r.outcome.Pass? ==> n == |states|)
      && (r.outcome.Fail? ==> n > 0 && r.states[n..] == states[n..])
    decreases |states|
  {
    if |states| > 0 {
      var (o, s, a) := f(infos[0], states[0], acc);
      if o.Fail? {
        assert Sweep(f, infos, states, acc).states[1..] == states[1..];
      } else {
        assert AllStateValid(states[1..]);
        SweepStops(f, infos[1..], states[1..], a);
        var r := Sweep(f, infos, states, acc);
        var n := Visited(f, infos[1..], states[1..], a);
        if r.outcome.Fail? {
          assert r.states[n + 1..] == Sweep(f, infos[1..], states[1..], a).states[n..];
          assert states[n + 1..] == states[1..][n..];
        }
      }
    }
  }

  // ------------------------------------- the statistics drivers' subject steps

  /**
   * The statements both statistics drivers run on a subject before reading
   * its label: `load_data()`, `extract_brain()`, `apply_transform_to_mni()`,
   * `space_integrity_check()` and `empty_label_check()`, each with its
   * default arguments. The first failure ends the sequence.
   */
  function PrepareStep(tk: Toolkit, info: SubjectInfo, s: SubjectState): (r: (Outcome<SubjectError>, SubjectState))
    requires tk.Valid() && StateValid(s)
    ensures StateValid(r.1)
    ensures s.fields.IsLoaded() ==> r == (Fail(AlreadyLoaded(info.name)), s)
    ensures r.0.Pass? ==>
      && r.1.fields.IsLoaded() && r.1.saved == Some(s.fields)
      && r.1.fields.labelMap.Loaded? && r.1.fields.labelMap.value.frame == tk.read(TemplateMni).frame
      && SpaceIntegrity(info, r.1.fields).Pass? && EmptyLabelCheck(info, r.1.fields).Pass?
  {
    var (o1, s1) := LoadStep(tk, info, s, true, true);
    if o1.Fail? then (o1, s1)
    else
      var (o2, s2) := ExtractBrainStep(info, s1);
      if o2.Fail? then (o2, s2)
      else
        var (o3, s3) := MniStep(tk, info, s2, TemplateMni);
        if o3.Fail? then (o3, s3)
        else
          var o4 := SpaceIntegrity(info, s3.fields);
          if o4.Fail? then (o4, s3)
          else (EmptyLabelCheck(info, s3.fields), s3)
  }

  method Prepare(tk: Toolkit, subj: Subject) returns (r: Outcome<SubjectError>)
    requires tk.Valid() && subj.Valid()
    modifies subj
    ensures subj.Valid()
    ensures (r, subj.Snapshot()) == PrepareStep(tk, subj.Info(), old(subj.Snapshot()))
  {
    r := subj.LoadData(tk, true, true);
    if r.Fail? {
      return;
    }
    r := subj.ExtractBrain();
    if r.Fail? {
      return;
    }
    r := subj.ApplyTransformToMni(tk, TemplateMni);
    if r.Fail? {
      return;
    }
    r := subj.SpaceIntegrityCheck();
    if r.Fail? {
      return;
    }
    r := subj.CheckEmptyLabel();
  }
}
