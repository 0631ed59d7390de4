/**
 * A subject of a stroke dataset and its loading lifecycle
 * (datasets/dataset_loaders.py).
 *
 * The four image fields hold either a path or a loaded volume. Every method
 * of `Subject` is proved equal to a step function on `SubjectState`, a value
 * copy of the fields, and the lifecycle properties are lemmas about those
 * step functions.
 */
module DatasetLoaders {
  import opened Results
  import opened Volumes
  import opened Text
  import opened Toolkit
  import opened DatasetUtils

  datatype SubjectError =
    | AlreadyLoaded(name: string)
    | NotLoaded(name: string)
    | NotAnImage(field: string)         // an image operation on a field that still holds a path
    | MaskShapeMismatch(field: string)  // mask_image with a mask of another shape
    | ShapeMismatch
    | SpacingMismatch
    | DirectionMismatch
    | EmptyLabel(name: string)
    | NrrdFailure(error: NrrdError)

  /** The image fields of a subject; `labelMap` is the source's `label`, `betMask` its `BETmask`. */
  datatype Fields = Fields(flair: Slot<Image>, dwi: Slot<Image>, labelMap: Slot<LabelMap>, betMask: Slot<LabelMap>)
  {
    /** `is_loaded`: the FLAIR field holds an image. */
    predicate IsLoaded() { flair.Loaded? }

    /** Paths only, as given at construction and as saved by `load_data`. */
    predicate PathsOnly() { flair.Path? && dwi.Path? && labelMap.Path? && betMask.Unloaded() }
  }

  /** The fields and the `_subj_paths` list that `load_data` saves. */
  datatype SubjectState = SubjectState(fields: Fields, saved: Option<Fields>)

  predicate StateValid(s: SubjectState)
  {
    var f := s.fields;
    && (f.IsLoaded() ==> f.dwi.Loaded? && s.saved.Some? && f.flair.value.Valid() && f.dwi.value.Valid())
    && (!f.IsLoaded() ==> f.PathsOnly())
    && (f.labelMap.Loaded? ==> f.labelMap.value.Valid())
    && (f.betMask.Loaded? ==> f.betMask.value.Valid())
    && (s.saved.Some? ==> s.saved.value.PathsOnly())
  }

  /** What `__post_init__` fixes: the name, the annotated modality and the transform files. */
  datatype SubjectInfo = SubjectInfo(name: string, labeledModality: string, dwiToFlair: string, warpToMni: string, affineToMni: string)

  const DwiToFlairFile: string := "dwi_to_flair_affine.mat"
  const MniFolder: string := "flair_brain_to_mni"
  const WarpFile: string := "warp.nii.gz"
  const AffineFileName: string := "affine.mat"

  /** The transform files of a subject, all in the folder of its FLAIR image. */
  function TransformInfo(name: string, flair: string, labeledModality: string): SubjectInfo
  {
    var folder := Dirname(flair);
    var mni := Join(folder, MniFolder);
    SubjectInfo(name, labeledModality, Join(folder, DwiToFlairFile), Join(mni, WarpFile), Join(mni, AffineFileName))
  }

  /** For a FLAIR file `d/f` the transforms are `d/dwi_to_flair_affine.mat` and `d/flair_brain_to_mni/{warp.nii.gz, affine.mat}`. */
  lemma TransformInfoOfChild(name: string, d: string, f: string, labeledModality: string)
    requires |d| > 0 && d[|d| - 1] != '/' && '/' !in f
    ensures var info := TransformInfo(name, d + "/" + f, labeledModality);
      && info.dwiToFlair == d + "/" + DwiToFlairFile
      && info.warpToMni == d + "/" + MniFolder + "/" + WarpFile
      && info.affineToMni == d + "/" + MniFolder + "/" + AffineFileName
  {
    DirnameOfChild(d, f);
    JoinPlain(d, DwiToFlairFile);
    JoinPlain(d, MniFolder);
    var mni := d + "/" + MniFolder;
    JoinPlain(mni, WarpFile);
    JoinPlain(mni, AffineFileName);
  }

  // ----------------------------------------------------------------- load_data

  /** The DWI image, carried onto the FLAIR grid by the DWI-to-FLAIR affine when asked. */
  function DwiOnFlair(tk: Toolkit, dwi: Image, flair: Image, dwiToFlair: string, transformToFlair: bool): (r: Image)
    requires tk.Valid() && dwi.Valid()
    ensures r.Valid()
    ensures transformToFlair ==> r.frame == flair.frame
    ensures !transformToFlair ==> r == dwi
  {
    if transformToFlair then Volume(flair.frame, tk.apply(AffineFile(dwiToFlair), dwi, flair.frame)) else dwi
  }

  /** A segmentation brought onto the FLAIR grid, only when its shape differs from FLAIR's. */
  function OnFlairGrid(tk: Toolkit, m: LabelMap, flair: Frame): (r: LabelMap)
    requires tk.Valid() && m.Valid()
    ensures r.Valid() && r.frame.shape == flair.shape
    ensures m.frame.shape == flair.shape ==> r == m
    ensures m.frame.shape != flair.shape ==> r.frame == flair
    ensures IsBinary(m.voxels) ==> IsBinary(r.voxels)
  {
    if m.frame.shape != flair.shape then ResampleLabelToTarget(tk, m, flair) else m
  }

  /** `np.logical_or(a, b).astype(np.uint32)`. */
  function Union(a: seq<U32>, b: seq<U32>): (r: seq<U32>)
    requires |a| == |b|
    ensures |r| == |a| && IsBinary(r)
    ensures Support(r) == Support(a) + Support(b)
  {
    seq(|a|, i requires 0 <= i < |a| => if a[i] != 0 || b[i] != 0 then 1 else 0)
  }

  /** The DWI annotation as it enters the union: on the FLAIR grid, then through the affine when asked. */
  function DwiAnnotation(tk: Toolkit, m: LabelMap, flair: Frame, dwiToFlair: string, transformToFlair: bool): (r: LabelMap)
    requires tk.Valid() && m.Valid()
    ensures r.Valid() && r.frame.shape == flair.shape
    ensures transformToFlair ==> r == ApplyTransformToLabel(tk, OnFlairGrid(tk, m, flair), AffineFile(dwiToFlair), flair)
    ensures !transformToFlair ==> r == OnFlairGrid(tk, m, flair)
  {
    var onGrid := OnFlairGrid(tk, m, flair);
    if transformToFlair then ApplyTransformToLabel(tk, onGrid, AffineFile(dwiToFlair), flair) else onGrid
  }

  /**
   * The label of a segmentation-file source: the union of the FLAIR-drawn
   * and the DWI-drawn annotations on the FLAIR annotation's frame. A voxel
   * is 1 exactly when either annotation marks it.
   */
  function NrrdLabel(tk: Toolkit, masks: (LabelMap, LabelMap), flair: Frame, dwiToFlair: string, transformToFlair: bool): (r: LabelMap)
    requires tk.Valid() && masks.0.Valid() && masks.1.Valid()
    ensures r.Valid() && r.frame == OnFlairGrid(tk, masks.0, flair).frame && r.frame.shape == flair.shape
    ensures IsBinary(r.voxels)
    ensures Support(r.voxels) == Support(OnFlairGrid(tk, masks.0, flair).voxels) + Support(DwiAnnotation(tk, masks.1, flair, dwiToFlair, transformToFlair).voxels)
  {
    var flairDrawn := OnFlairGrid(tk, masks.0, flair);
    var dwiDrawn := DwiAnnotation(tk, masks.1, flair, dwiToFlair, transformToFlair);
    Volume(flairDrawn.frame, Union(flairDrawn.voxels, dwiDrawn.voxels))
  }

  /** The label of an image source: cast to uint32, moved to FLAIR space when it was drawn on DWI. */
  function PlainLabel(tk: Toolkit, info: SubjectInfo, path: string, flair: Frame, transformToFlair: bool): (r: LabelMap)
    requires tk.Valid()
    ensures r.Valid()
    ensures transformToFlair && info.labeledModality == "dwi" ==> r == ApplyTransformToLabel(tk, AsU32(tk.read(path)), AffineFile(info.dwiToFlair), flair)
    ensures !(transformToFlair && info.labeledModality == "dwi") ==> r == AsU32(tk.read(path))
  {
    var l := AsU32(tk.read(path));
    if transformToFlair && info.labeledModality == "dwi" then ApplyTransformToLabel(tk, l, AffineFile(info.dwiToFlair), flair) else l
  }

  /** Python truthiness of the brain-mask field when it is not loaded: a non-empty path. */
  predicate Truthy(s: Slot<LabelMap>) { s.Path? && |s.path| > 0 }

  /**
   * The brain mask: read from its file when the field holds a non-empty
   * path, and otherwise 1 exactly where FLAIR is non-zero, on FLAIR's frame.
   */
  function BrainMask(tk: Toolkit, betMask: Slot<LabelMap>, flair: Image): (r: LabelMap)
    requires tk.Valid() && flair.Valid()
    ensures r.Valid()
    ensures Truthy(betMask) ==> r == AsU32(tk.read(betMask.path))
    ensures !Truthy(betMask) ==>
      && r.frame == flair.frame && IsBinary(r.voxels)
      && forall i :: 0 <= i < |r.voxels| ==> (r.voxels[i] == 1 <==> flair.voxels[i] != 0.0)
  {
    if Truthy(betMask) then AsU32(tk.read(betMask.path)) else Volume(flair.frame, NonZero(flair.voxels))
  }

  /** The label field after `load_data`, or the error of the segmentation file. */
  function LoadLabel(tk: Toolkit, info: SubjectInfo, labelMap: Slot<LabelMap>, flair: Frame, loadLabel: bool, transformToFlair: bool): (r: Result<Slot<LabelMap>, NrrdError>)
    requires tk.Valid() && labelMap.Path?
    ensures r.Ok? && r.value.Loaded? ==> r.value.value.Valid()
    ensures !loadLabel ==> r == Ok(labelMap)
    ensures loadLabel && Contains(labelMap.path, ".nrrd") ==>
      match ParseNrrd(tk.readNrrd(labelMap.path), tk.norm)
      case Err(e) => r == Err(e)
      case Ok(masks) => r == Ok(Loaded(NrrdLabel(tk, masks, flair, info.dwiToFlair, transformToFlair))) && IsBinary(r.value.value.voxels)
    ensures loadLabel && !Contains(labelMap.path, ".nrrd") ==> r == Ok(Loaded(PlainLabel(tk, info, labelMap.path, flair, transformToFlair)))
  {
    if !loadLabel then Ok(labelMap)
    else if Contains(labelMap.path, ".nrrd") then
      match ParseNrrd(tk.readNrrd(labelMap.path), tk.norm)
      case Err(e) => Err(e)
      case Ok(masks) => Ok(Loaded(NrrdLabel(tk, masks, flair, info.dwiToFlair, transformToFlair)))
    else Ok(Loaded(PlainLabel(tk, info, labelMap.path, flair, transformToFlair)))
  }

  /**
   * `load_data`. It refuses a loaded subject. Otherwise it saves the four
   * fields, loads FLAIR and DWI (which stay loaded even when the
   * segmentation file is rejected), then the label and the brain mask.
   */
  function LoadStep(tk: Toolkit, info: SubjectInfo, s: SubjectState, loadLabel: bool, transformToFlair: bool): (r: (Outcome<SubjectError>, SubjectState))
    requires tk.Valid() && StateValid(s)
    ensures StateValid(r.1)
    ensures s.fields.IsLoaded() ==> r == (Fail(AlreadyLoaded(info.name)), s)
    ensures !s.fields.IsLoaded() ==> r.1.fields.IsLoaded() && r.1.saved == Some(s.fields)
    ensures !s.fields.IsLoaded() ==> r.1.fields.flair == Loaded(tk.read(s.fields.flair.path))
    ensures !s.fields.IsLoaded() ==>
      var flair := tk.read(s.fields.flair.path);
      && r.1.fields.dwi == Loaded(DwiOnFlair(tk, tk.read(s.fields.dwi.path), flair, info.dwiToFlair, transformToFlair))
      && match LoadLabel(tk, info, s.fields.labelMap, flair.frame, loadLabel, transformToFlair)
         case Ok(labelMap) =>
           && r.0.Pass?
           && r.1.fields.labelMap == labelMap
           && r.1.fields.betMask == Loaded(BrainMask(tk, s.fields.betMask, flair))
         case Err(e) =>
           && r.0 == Fail(NrrdFailure(e))
           && r.1.fields.labelMap == s.fields.labelMap
           && r.1.fields.betMask == s.fields.betMask
    ensures r.0.Pass? ==> r.1.fields.betMask.Loaded? && (r.1.fields.labelMap.Loaded? <==> loadLabel)
    ensures r.0.Fail? && !s.fields.IsLoaded() ==> r.0.error.NrrdFailure? && r.1.fields.labelMap == s.fields.labelMap
  {
    var f := s.fields;
    if f.IsLoaded() then (Fail(AlreadyLoaded(info.name)), s)
    else
      var flair := tk.read(f.flair.path);
      var dwi := DwiOnFlair(tk, tk.read(f.dwi.path), flair, info.dwiToFlair, transformToFlair);
      match LoadLabel(tk, info, f.labelMap, flair.frame, loadLabel, transformToFlair)
      case Err(e) => (Fail(NrrdFailure(e)), SubjectState(Fields(Loaded(flair), Loaded(dwi), f.labelMap, f.betMask), Some(f)))
      case Ok(labelMap) => (Pass, SubjectState(Fields(Loaded(flair), Loaded(dwi), labelMap, Loaded(BrainMask(tk, f.betMask, flair))), Some(f)))
  }

  // ----------------------------------------------------------------- free_data

  /** `free_data`: refuses an unloaded subject, otherwise puts back the saved fields. */
  function FreeStep(info: SubjectInfo, s: SubjectState): (r: (Outcome<SubjectError>, SubjectState))
    requires StateValid(s)
    ensures StateValid(r.1) && !r.1.fields.IsLoaded() && r.1.saved == s.saved
    ensures !s.fields.IsLoaded() ==> r == (Fail(NotLoaded(info.name)), s)
    ensures s.fields.IsLoaded() ==> r.0.Pass? && r.1.fields == s.saved.value
  {
    if !s.fields.IsLoaded() then (Fail(NotLoaded(info.name)), s)
    else (Pass, SubjectState(s.saved.value, s.saved))
  }

  /**
   * Freeing after a load, successful or not, restores exactly the four
   * fields held before it, and loading again then behaves as the first load
   * did, whatever the options of either load.
   */
  lemma LoadFreeLoad(tk: Toolkit, info: SubjectInfo, s: SubjectState, label1: bool, toFlair1: bool, label2: bool, toFlair2: bool)
    requires tk.Valid() && StateValid(s) && !s.fields.IsLoaded()
    ensures var loaded := LoadStep(tk, info, s, label1, toFlair1).1;
      var freed := FreeStep(info, loaded);
      && freed.0.Pass?
      && freed.1.fields == s.fields
      && LoadStep(tk, info, freed.1, label2, toFlair2) == LoadStep(tk, info, s, label2, toFlair2)
  {
  }

  /** Loading twice without a free fails the second time and changes nothing. */
  lemma LoadTwiceFails(tk: Toolkit, info: SubjectInfo, s: SubjectState, label1: bool, toFlair1: bool, label2: bool, toFlair2: bool)
    requires tk.Valid() && StateValid(s)
    ensures var loaded := LoadStep(tk, info, s, label1, toFlair1).1;
      LoadStep(tk, info, loaded, label2, toFlair2) == (Fail(AlreadyLoaded(info.name)), loaded)
  {
    var loaded := LoadStep(tk, info, s, label1, toFlair1).1;
    assert loaded.fields.IsLoaded();
  }

  // ------------------------------------------------------------- extract_brain

  /**
   * `ants.mask_image(image, mask)` with the default level 1: keeps the
   * voxels where the mask is 1 and sets the others to `zero`. The mask must
   * be on a grid of the image's shape.
   */
  function MaskImage<T>(v: Volume<T>, mask: LabelMap, zero: T): (r: Option<Volume<T>>)
    ensures r.Some? <==> v.frame.shape == mask.frame.shape && |v.voxels| == |mask.voxels|
    ensures r.Some? ==>
      && r.value.frame == v.frame && |r.value.voxels| == |v.voxels|
      && forall i :: 0 <= i < |v.voxels| ==> r.value.voxels[i] == if mask.voxels[i] == 1 then v.voxels[i] else zero
  {
    if v.frame.shape == mask.frame.shape && |v.voxels| == |mask.voxels| then Some(Volume(v.frame, KeepWhere(v.voxels, mask.voxels, zero)))
    else None
  }

  /** Masking by the same mask twice is masking once. */
  lemma MaskImageIdempotent<T>(v: Volume<T>, mask: LabelMap, zero: T)
    requires MaskImage(v, mask, zero).Some?
    ensures MaskImage(MaskImage(v, mask, zero).value, mask, zero) == MaskImage(v, mask, zero)
  {
    KeepWhereIdempotent(v.voxels, mask.voxels, zero);
  }

  /**
   * `extract_brain`: FLAIR, DWI and the label, in that order, are masked by
   * the brain mask. A field masked before a failure stays masked.
   */
  function ExtractBrainStep(info: SubjectInfo, s: SubjectState): (r: (Outcome<SubjectError>, SubjectState))
    requires StateValid(s)
    ensures StateValid(r.1) && r.1.saved == s.saved && r.1.fields.betMask == s.fields.betMask
    ensures !s.fields.IsLoaded() ==> r == (Fail(NotLoaded(info.name)), s)
    ensures s.fields.IsLoaded() && !s.fields.betMask.Loaded? ==> r == (Fail(NotAnImage("BETmask")), s)
    ensures r.0.Pass? ==> s.fields.IsLoaded() && s.fields.betMask.Loaded? && s.fields.labelMap.Loaded?
    ensures r.0.Pass? ==>
      && MaskImage(s.fields.flair.value, s.fields.betMask.value, 0.0).Some?
      && MaskImage(s.fields.dwi.value, s.fields.betMask.value, 0.0).Some?
      && MaskImage(s.fields.labelMap.value, s.fields.betMask.value, 0).Some?
      && r.1.fields.flair == Loaded(MaskImage(s.fields.flair.value, s.fields.betMask.value, 0.0).value)
      && r.1.fields.dwi == Loaded(MaskImage(s.fields.dwi.value, s.fields.betMask.value, 0.0).value)
      && r.1.fields.labelMap == Loaded(MaskImage(s.fields.labelMap.value, s.fields.betMask.value, 0).value)
  {
    var f := s.fields;
    if !f.IsLoaded() then (Fail(NotLoaded(info.name)), s)
    else if !f.betMask.Loaded? then (Fail(NotAnImage("BETmask")), s)
    else
      var mask := f.betMask.value;
      var flair := MaskImage(f.flair.value, mask, 0.0);
      var dwi := MaskImage(f.dwi.value, mask, 0.0);
      if flair.None? then (Fail(MaskShapeMismatch("flair")), s)
      else if dwi.None? then (Fail(MaskShapeMismatch("dwi")), SubjectState(f.(flair := Loaded(flair.value)), s.saved))
      else
        var masked := f.(flair := Loaded(flair.value), dwi := Loaded(dwi.value));
        if !f.labelMap.Loaded? then (Fail(NotAnImage("label")), SubjectState(masked, s.saved))
        else
          var labelMap := MaskImage(f.labelMap.value, mask, 0);
          if labelMap.None? then (Fail(MaskShapeMismatch("label")), SubjectState(masked, s.saved))
          else (Pass, SubjectState(masked.(labelMap := Loaded(labelMap.value)), s.saved))
  }

  /** Extracting the brain a second time changes nothing. */
  lemma ExtractBrainIdempotent(info: SubjectInfo, s: SubjectState)
    requires StateValid(s) && ExtractBrainStep(info, s).0.Pass?
    ensures var once := ExtractBrainStep(info, s).1;
      ExtractBrainStep(info, once) == (Pass, once)
  {
    var f := s.fields;
    var mask := f.betMask.value;
    MaskImageIdempotent(f.flair.value, mask, 0.0);
    MaskImageIdempotent(f.dwi.value, mask, 0.0);
    MaskImageIdempotent(f.labelMap.value, mask, 0);
  }

  /** After brain extraction of a 0/1 label, the label is the part of the lesion inside the brain mask. */
  lemma ExtractBrainLabel(info: SubjectInfo, s: SubjectState)
    requires StateValid(s) && ExtractBrainStep(info, s).0.Pass?
    requires IsBinary(s.fields.labelMap.value.voxels) && IsBinary(s.fields.betMask.value.voxels)
    ensures var l := ExtractBrainStep(info, s).1.fields.labelMap.value.voxels;
      IsBinary(l) && Support(l) == Support(s.fields.labelMap.value.voxels) * Support(s.fields.betMask.value.voxels)
  {
  }

  // --------------------------------------------------- apply_transform_to_mni

  /** The default `template_mni` of `apply_transform_to_mni`. */
  const TemplateMni: string := "datasets/template_flair_mni.nii.gz"

  /** A label map carried to the template by the affine and then the warp. */
  function LabelToMni(tk: Toolkit, info: SubjectInfo, m: LabelMap, template: Frame): (r: LabelMap)
    requires tk.Valid()
    ensures r.Valid() && r.frame == template
    ensures IsBinary(m.voxels) ==> IsBinary(r.voxels)
  {
    var affine := ApplyTransformToLabel(tk, m, AffineFile(info.affineToMni), template);
    ApplyTransformToLabel(tk, affine, DisplacementField(info.warpToMni, false), template)
  }

  /**
   * `apply_transform_to_mni`: FLAIR, DWI, the brain mask and the label, in
   * that order, are carried onto the template grid by the affine and then
   * the warp (the forward order that `invert_SyN_registration` inverts).
   */
  function MniStep(tk: Toolkit, info: SubjectInfo, s: SubjectState, templatePath: string): (r: (Outcome<SubjectError>, SubjectState))
    requires tk.Valid() && StateValid(s)
    ensures StateValid(r.1) && r.1.saved == s.saved
    ensures !s.fields.IsLoaded() ==> r == (Fail(NotLoaded(info.name)), s)
    ensures r.0.Pass? ==> s.fields.IsLoaded() && s.fields.labelMap.Loaded? && s.fields.betMask.Loaded?
    ensures r.0.Pass? ==> r.1.fields.labelMap.Loaded? && r.1.fields.betMask.Loaded?
    ensures s.fields.IsLoaded() ==>
      var template := tk.read(templatePath).frame;
      var chain := ForwardSyN(info.warpToMni, info.affineToMni);
      && r.1.fields.flair == Loaded(ApplyChain(tk, chain, s.fields.flair.value, template))
      && r.1.fields.dwi == Loaded(ApplyChain(tk, chain, s.fields.dwi.value, template))
    ensures r.0.Pass? ==>
      var template := tk.read(templatePath).frame;
      && r.1.fields.labelMap.value.frame == template && r.1.fields.betMask.value.frame == template
      && (IsBinary(s.fields.labelMap.value.voxels) ==> IsBinary(r.1.fields.labelMap.value.voxels))
      && (IsBinary(s.fields.betMask.value.voxels) ==> IsBinary(r.1.fields.betMask.value.voxels))
    ensures r.0.Pass? ==>
      var template := tk.read(templatePath).frame;
      && r.1.fields.labelMap == Loaded(LabelToMni(tk, info, s.fields.labelMap.value, template))
      && r.1.fields.betMask == Loaded(LabelToMni(tk, info, s.fields.betMask.value, template))
  {
    var f := s.fields;
    if !f.IsLoaded() then (Fail(NotLoaded(info.name)), s)
    else
      var template := tk.read(templatePath).frame;
      var chain := ForwardSyN(info.warpToMni, info.affineToMni);
      var flair := ApplyChain(tk, chain, f.flair.value, template);
      var dwi := ApplyChain(tk, chain, f.dwi.value, template);
      var s1 := SubjectState(f.(flair := Loaded(flair), dwi := Loaded(dwi)), s.saved);
      if !f.betMask.Loaded? then (Fail(NotAnImage("BETmask")), s1)
      else
        var s2 := SubjectState(s1.fields.(betMask := Loaded(LabelToMni(tk, info, f.betMask.value, template))), s.saved);
        if !f.labelMap.Loaded? then (Fail(NotAnImage("label")), s2)
        else (Pass, SubjectState(s2.fields.(labelMap := Loaded(LabelToMni(tk, info, f.labelMap.value, template))), s.saved))
  }

  // ------------------------------------------------------- resample_to_target

  /**
   * `resample_to_target`: every field is cropped to the brain mask's
   * bounding region, FLAIR is resampled to the target spacing and padded to
   * the target shape, and the other fields are resampled onto FLAIR's grid.
   * The step then asserts FLAIR's shape and spacing.
   */
  /**
   * The mask `crop_image(image, BETmask)` crops by: the brain mask when it is
   * loaded, and for a `BETmask` of None the `get_mask(image)` that
   * `crop_image` falls back to.
   */
  function CropMask(tk: Toolkit, image: Image, betMask: Slot<LabelMap>): LabelMap
  {
    if betMask.Loaded? then betMask.value else tk.getMask(image)
  }

  /** `crop_image(image, BETmask)`: the image cut to the bounding region of its crop mask. */
  function Cropped<T>(tk: Toolkit, image: Volume<T>, mask: LabelMap): (r: Volume<T>)
    requires tk.Valid() && image.Valid()
    ensures r.Valid() && r.frame == tk.crop(image.frame, mask).frame
  {
    Gather(image, tk.crop(image.frame, mask))
  }

  /**
   * `resample_to_target`: every field is cropped to the brain mask's
   * bounding region, FLAIR is resampled to the target spacing and padded to
   * the target shape, and the other fields are resampled onto FLAIR's grid.
   * The step then asserts FLAIR's shape and spacing. With no brain mask
   * (None), FLAIR, DWI and the label are each cropped to their own
   * `get_mask`, and the step stops where the brain mask itself is resampled.
   * A brain mask that is still a path stops the first crop.
   */
  function ResampleStep(tk: Toolkit, info: SubjectInfo, s: SubjectState, shape: Shape, spacing: Vec3): (r: (Outcome<SubjectError>, SubjectState))
    requires tk.Valid() && StateValid(s)
    ensures StateValid(r.1) && r.1.saved == s.saved
    ensures !s.fields.IsLoaded() ==> r == (Fail(NotLoaded(info.name)), s)
    ensures r.0.Pass? ==> s.fields.labelMap.Loaded? && r.1.fields.IsLoaded() && r.1.fields.labelMap.Loaded? && r.1.fields.betMask.Loaded?
    ensures r.0.Pass? ==>
      var flair := r.1.fields.flair.value.frame;
      && flair.shape == shape && flair.spacing == spacing
      && r.1.fields.dwi.value.frame == flair
      && r.1.fields.labelMap.value.frame == flair
      && r.1.fields.betMask.value.frame == flair
    ensures r.0.Pass? && IsBinary(s.fields.labelMap.value.voxels) ==> IsBinary(r.1.fields.labelMap.value.voxels)
    ensures r.0.Fail? && s.fields.IsLoaded() && s.fields.labelMap.Loaded? && s.fields.betMask.Loaded? ==> r.0.error in {ShapeMismatch, SpacingMismatch}
    ensures s.fields.IsLoaded() && s.fields.betMask.Path? ==> r == (Fail(NotAnImage("BETmask")), s)
    ensures s.fields.IsLoaded() && !s.fields.betMask.Path? ==>
      var f := s.fields;
      && r.1.fields.flair.Loaded? && r.1.fields.dwi.Loaded?
      && (!f.labelMap.Loaded? ==>
        r == (Fail(NotAnImage("label")), SubjectState(f.(
          flair := Loaded(Cropped(tk, f.flair.value, CropMask(tk, f.flair.value, f.betMask))),
          dwi := Loaded(Cropped(tk, f.dwi.value, CropMask(tk, f.dwi.value, f.betMask)))), s.saved)))
      && (f.labelMap.Loaded? && f.betMask.NoPath? ==>
        && r.0 == Fail(NotAnImage("BETmask"))
        && r.1.fields.betMask == NoPath
        && r.1.fields.labelMap.Loaded? && r.1.fields.dwi.value.frame == r.1.fields.labelMap.value.frame == r.1.fields.flair.value.frame)
  {
    var f := s.fields;
    if !f.IsLoaded() then (Fail(NotLoaded(info.name)), s)
    else if f.betMask.Path? then (Fail(NotAnImage("BETmask")), s)
    else
      var flairCropped := Cropped(tk, f.flair.value, CropMask(tk, f.flair.value, f.betMask));
      var dwiCropped := Cropped(tk, f.dwi.value, CropMask(tk, f.dwi.value, f.betMask));
      var s1 := SubjectState(f.(flair := Loaded(flairCropped), dwi := Loaded(dwiCropped)), s.saved);
      if !f.labelMap.Loaded? then (Fail(NotAnImage("label")), s1)
      else
        var labelCropped := Cropped(tk, f.labelMap.value, CropMask(tk, ToReal(f.labelMap.value), f.betMask));
        var flair := tk.pad(tk.resampleToSpacing(flairCropped, spacing), shape);
        var dwi := Volume(flair.frame, tk.resample(dwiCropped, flair.frame));
        var labelMap := ResampleLabelToTarget(tk, labelCropped, flair.frame);
        if !f.betMask.Loaded? then (Fail(NotAnImage("BETmask")), SubjectState(Fields(Loaded(flair), Loaded(dwi), Loaded(labelMap), f.betMask), s.saved))
        else
          var betMask := ResampleLabelToTarget(tk, f.betMask.value, flair.frame);
          var s2 := SubjectState(Fields(Loaded(flair), Loaded(dwi), Loaded(labelMap), Loaded(betMask)), s.saved);
          if flair.frame.shape != shape then (Fail(ShapeMismatch), s2)
          else if flair.frame.spacing != spacing then (Fail(SpacingMismatch), s2)
          else (Pass, s2)
  }

  // ---------------------------------------------------- space_integrity_check

  function Abs(x: real): real { if x < 0.0 then -x else x }

  /** `numpy.isclose` with its default tolerances. */
  predicate IsClose(a: real, b: real) { Abs(a - b) <= 0.00000001 + 0.00001 * Abs(b) }

  predicate VecClose(a: Vec3, b: Vec3) { IsClose(a.x, b.x) && IsClose(a.y, b.y) && IsClose(a.z, b.z) }

  /** `numpy.allclose` on two direction matrices. */
  predicate AllClose(a: Mat3, b: Mat3) { VecClose(a.c0, b.c0) && VecClose(a.c1, b.c1) && VecClose(a.c2, b.c2) }

  lemma AllCloseReflexive(a: Mat3)
    ensures AllClose(a, a)
  {
  }

  /**
   * `space_integrity_check`. The label's shape is read either by the chained
   * `==` (when FLAIR and DWI agree) or by the assertion's message (when they
   * do not), so a label that still holds a path is reported whatever the
   * shapes.
   */
  function SpaceIntegrity(info: SubjectInfo, f: Fields): (r: Outcome<SubjectError>)
    ensures r.Pass? <==>
      && f.IsLoaded() && f.dwi.Loaded? && f.labelMap.Loaded?
      && var flair, dwi, labelMap := f.flair.value.frame, f.dwi.value.frame, f.labelMap.value.frame;
      && flair.shape == dwi.shape == labelMap.shape
      && flair.spacing == dwi.spacing == labelMap.spacing
      && AllClose(flair.direction, dwi.direction) && AllClose(flair.direction, labelMap.direction)
    ensures r == Fail(NotLoaded(info.name)) <==> !f.IsLoaded()
    ensures r == Fail(NotAnImage("label")) <==> f.IsLoaded() && f.dwi.Loaded? && !f.labelMap.Loaded?
    ensures r == Fail(ShapeMismatch) <==>
      && f.IsLoaded() && f.dwi.Loaded? && f.labelMap.Loaded?
      && !(f.flair.value.frame.shape == f.dwi.value.frame.shape == f.labelMap.value.frame.shape)
  {
    if !f.IsLoaded() then Fail(NotLoaded(info.name))
    else if !f.dwi.Loaded? then Fail(NotAnImage("dwi"))
    else if !f.labelMap.Loaded? then Fail(NotAnImage("label"))
    else
      var flair, dwi, labelMap := f.flair.value.frame, f.dwi.value.frame, f.labelMap.value.frame;
      if flair.shape != dwi.shape || dwi.shape != labelMap.shape then Fail(ShapeMismatch)
        else if flair.spacing != dwi.spacing || dwi.spacing != labelMap.spacing then Fail(SpacingMismatch)
        else if !(AllClose(flair.direction, dwi.direction) && AllClose(flair.direction, labelMap.direction)) then Fail(DirectionMismatch)
        else Pass
  }

  /** After a successful template transform every image is on the template grid, so the integrity check passes. */
  lemma MniPassesIntegrity(tk: Toolkit, info: SubjectInfo, s: SubjectState, templatePath: string)
    requires tk.Valid() && StateValid(s) && MniStep(tk, info, s, templatePath).0.Pass?
    ensures SpaceIntegrity(info, MniStep(tk, info, s, templatePath).1.fields).Pass?
  {
    var chain := ForwardSyN(info.warpToMni, info.affineToMni);
    assert |chain| > 0;
    AllCloseReflexive(tk.read(templatePath).frame.direction);
  }

  /** A successful resampling leaves every image on FLAIR's grid, so the integrity check passes. */
  lemma ResamplePassesIntegrity(tk: Toolkit, info: SubjectInfo, s: SubjectState, shape: Shape, spacing: Vec3)
    requires tk.Valid() && StateValid(s) && ResampleStep(tk, info, s, shape, spacing).0.Pass?
    ensures SpaceIntegrity(info, ResampleStep(tk, info, s, shape, spacing).1.fields).Pass?
  {
    AllCloseReflexive(ResampleStep(tk, info, s, shape, spacing).1.fields.flair.value.frame.direction);
  }

  // -------------------------------------------------------- empty_label_check

  /** The cases whose label may be empty (no visible stroke). */
  const EmptyAllowed: seq<string> := ["0006", "0037", "0032", "0016", "0020", "0150", "0151", "0170"]

  predicate AllowedEmpty(name: string)
  {
    exists k :: 0 <= k < |EmptyAllowed| && Contains(name, "sub-strokecase" + EmptyAllowed[k])
  }

  predicate HasLesion(l: LabelMap) { exists i :: 0 <= i < |l.voxels| && l.voxels[i] != 0 }

  /** `empty_label_check`: passes when the label has a non-zero voxel or the case is on the allow-list. */
  function EmptyLabelCheck(info: SubjectInfo, f: Fields): (r: Outcome<SubjectError>)
    ensures r.Pass? <==> f.IsLoaded() && f.labelMap.Loaded? && (HasLesion(f.labelMap.value) || AllowedEmpty(info.name))
    ensures r == Fail(EmptyLabel(info.name)) <==> f.IsLoaded() && f.labelMap.Loaded? && !HasLesion(f.labelMap.value) && !AllowedEmpty(info.name)
  {
    if !f.IsLoaded() then Fail(NotLoaded(info.name))
    else if !f.labelMap.Loaded? then Fail(NotAnImage("label"))
    else if HasLesion(f.labelMap.value) || AllowedEmpty(info.name) then Pass
    else Fail(EmptyLabel(info.name))
  }

  // ---------------------------------------------------------------------- save

  const Suffixes: seq<string> := ["_flair.nii.gz", "_dwi.nii.gz", "_label.nii.gz", "_BETmask.nii.gz"]

  function FieldLoaded(f: Fields, k: nat): bool
    requires k < 4
  {
    if k == 0 then f.flair.Loaded? else if k == 1 then f.dwi.Loaded? else if k == 2 then f.labelMap.Loaded? else f.betMask.Loaded?
  }

  const FieldNames: seq<string> := ["flair", "dwi", "label", "BETmask"]

  /** The files `save` writes, in order, up to the first field that is not an image. */
  function SavedFiles(folder: string, name: string, f: Fields, k: nat): (r: (seq<string>, Outcome<SubjectError>))
    requires k <= 4
    ensures |r.0| <= 4 - k
    ensures forall j :: 0 <= j < |r.0| ==> r.0[j] == Join(folder, name + Suffixes[k + j]) && FieldLoaded(f, k + j)
    ensures r.1.Pass? <==> forall j :: k <= j < 4 ==> FieldLoaded(f, j)
    ensures r.1.Pass? ==> |r.0| == 4 - k
    ensures r.1.Fail? ==> k + |r.0| < 4 && !FieldLoaded(f, k + |r.0|) && r.1 == Fail(NotAnImage(FieldNames[k + |r.0|]))
    decreases 4 - k
  {
    if k == 4 then ([], Pass)
    else if !FieldLoaded(f, k) then ([], Fail(NotAnImage(FieldNames[k])))
    else
      var rest := SavedFiles(folder, name, f, k + 1);
      ([Join(folder, name + Suffixes[k])] + rest.0, rest.1)
  }

  /** `save`: the four files of a loaded subject, one per field, with distinct names. */
  function SaveFiles(info: SubjectInfo, folder: string, f: Fields): (r: (seq<string>, Outcome<SubjectError>))
    ensures !f.IsLoaded() ==> r == ([], Fail(NotLoaded(info.name)))
    ensures f.IsLoaded() ==> r == SavedFiles(folder, info.name, f, 0)
    ensures r.1.Pass? <==> f.flair.Loaded? && f.dwi.Loaded? && f.labelMap.Loaded? && f.betMask.Loaded?
    ensures r.1.Pass? ==> |r.0| == 4 && forall j :: 0 <= j < 4 ==> r.0[j] == Join(folder, info.name + Suffixes[j])
  {
    if !f.IsLoaded() then ([], Fail(NotLoaded(info.name))) else SavedFiles(folder, info.name, f, 0)
  }

  lemma JoinSuffix(folder: string, stem: string, suffix: string)
    requires |suffix| > 0 && suffix[0] != '/'
    ensures EndsWith(Join(folder, stem + suffix), suffix)
  {
    var b := stem + suffix;
    var j := Join(folder, b);
    if StartsWith(b, "/") {
    } else if |folder| == 0 || EndsWith(folder, "/") {
      assert j == (folder + stem) + suffix;
    } else {
      assert j == (folder + "/" + stem) + suffix;
    }
  }

  lemma MarkOfSuffix(folder: string, stem: string, suffix: string, mark: char)
    requires |suffix| >= 8 && suffix[0] != '/' && suffix[|suffix| - 8] == mark
    ensures var j := Join(folder, stem + suffix); |j| >= 8 && j[|j| - 8] == mark
  {
    JoinSuffix(folder, stem, suffix);
    var j := Join(folder, stem + suffix);
    assert j[|j| - |suffix|..] == suffix;
    assert j[|j| - 8] == j[|j| - |suffix|..][|suffix| - 8];
  }

  /** Each suffix is long enough, starts with no '/', and has its mark eighth from the end. */
  lemma SuffixMarks()
    ensures forall k :: 0 <= k < 4 ==>
      |Suffixes[k]| >= 8 && Suffixes[k][0] != '/' && Suffixes[k][|Suffixes[k]| - 8] == "rilk"[k]
  {
  }

  /** The eighth character from the end of each saved file name: the `r`, `i`, `l`, `k` of its suffix. */
  lemma SaveFileMarks(info: SubjectInfo, folder: string, f: Fields)
    requires SaveFiles(info, folder, f).1.Pass?
    ensures var files := SaveFiles(info, folder, f).0;
      |files| == 4 && forall k :: 0 <= k < 4 ==> |files[k]| >= 8 && files[k][|files[k]| - 8] == "rilk"[k]
  {
    FileMarks(SaveFiles(info, folder, f).0, folder, info.name);
  }

  /** The marks of the four files `folder/stem + suffix`. */
  lemma FileMarks(files: seq<string>, folder: string, stem: string)
    requires |files| == 4 && forall k :: 0 <= k < 4 ==> files[k] == Join(folder, stem + Suffixes[k])
    ensures forall k :: 0 <= k < 4 ==> |files[k]| >= 8 && files[k][|files[k]| - 8] == "rilk"[k]
  {
    SuffixMarks();
    forall k | 0 <= k < 4
      ensures |files[k]| >= 8 && files[k][|files[k]| - 8] == "rilk"[k]
    {
      MarkOfSuffix(folder, stem, Suffixes[k], "rilk"[k]);
    }
  }

  /** Names that differ at the eighth character from the end differ. */
  lemma DistinctByMark(files: seq<string>, marks: string)
    requires |files| == |marks|
    requires forall k :: 0 <= k < |files| ==> |files[k]| >= 8 && files[k][|files[k]| - 8] == marks[k]
    requires forall i, j :: 0 <= i < j < |marks| ==> marks[i] != marks[j]
    ensures forall i, j :: 0 <= i < j < |files| ==> files[i] != files[j]
  {
    forall i, j | 0 <= i < j < |files|
      ensures files[i] != files[j]
    {
      assert files[i][|files[i]| - 8] != files[j][|files[j]| - 8];
    }
  }

  lemma MarksDistinct(marks: string)
    requires marks == "rilk"
    ensures forall i, j :: 0 <= i < j < |marks| ==> marks[i] != marks[j]
  {
  }

  /** A fully successful save writes four files with pairwise distinct names. */
  lemma SaveFilesDistinct(info: SubjectInfo, folder: string, f: Fields)
    requires SaveFiles(info, folder, f).1.Pass?
    ensures var files := SaveFiles(info, folder, f).0;
      |files| == 4 && forall i, j :: 0 <= i < j < 4 ==> files[i] != files[j]
  {
    SaveFileMarks(info, folder, f);
    MarksDistinct("rilk");
    DistinctByMark(SaveFiles(info, folder, f).0, "rilk");
  }

  // ------------------------------------------------------------------- Subject

  /**
   * A subject: its name, the modality its label was drawn on, the transform
   * files fixed at construction, and the four image fields, each a path or a
   * loaded volume.
   */
  class Subject {
    const name: string
    const labeledModality: string
    const transformDwiToFlair: string
    const transformFlairToMni: seq<string>  // [warp, affine]
    var flair: Slot<Image>
    var dwi: Slot<Image>
    var labelMap: Slot<LabelMap>
    var betMask: Slot<LabelMap>
    var saved: Option<Fields>  // `_subj_paths`, absent until the first load

    function Info(): SubjectInfo
      requires |transformFlairToMni| == 2
    {
      SubjectInfo(name, labeledModality, transformDwiToFlair, transformFlairToMni[0], transformFlairToMni[1])
    }

    function Snapshot(): SubjectState
      reads this
    {
      SubjectState(Fields(flair, dwi, labelMap, betMask), saved)
    }

    ghost predicate Valid()
      reads this
    {
      |transformFlairToMni| == 2 && StateValid(Snapshot())
    }

    /** `is_loaded`. */
    predicate IsLoaded()
      reads this
    {
      flair.Loaded?
    }

    /** The dataclass constructor followed by `__post_init__`. */
    constructor(name: string, flair: string, dwi: string, labelPath: string, labeledModality: string, betMask: Slot<LabelMap>)
      requires betMask.Unloaded()
      ensures Valid() && !IsLoaded()
      ensures Info() == TransformInfo(name, flair, labeledModality)
      ensures Snapshot() == SubjectState(Fields(Path(flair), Path(dwi), Path(labelPath), betMask), None)
    {
      this.name := name;
      this.labeledModality := labeledModality;
      var flairFolder := Dirname(flair);
      var mniFolder := Join(flairFolder, MniFolder);
      this.transformFlairToMni := [Join(mniFolder, WarpFile), Join(mniFolder, AffineFileName)];
      this.transformDwiToFlair := Join(flairFolder, DwiToFlairFile);
      this.flair := Path(flair);
      this.dwi := Path(dwi);
      this.labelMap := Path(labelPath);
      this.betMask := betMask;
      this.saved := None;
    }

    method LoadData(tk: Toolkit, loadLabel: bool, transformToFlair: bool) returns (r: Outcome<SubjectError>)
      requires tk.Valid() && Valid()
      modifies this
      ensures Valid()
      ensures (r, Snapshot()) == LoadStep(tk, Info(), old(Snapshot()), loadLabel, transformToFlair)
    {
      if IsLoaded() {
        return Fail(AlreadyLoaded(name));
      }
      saved := Some(Fields(flair, dwi, labelMap, betMask));
      var before := saved.value;

      var flairImage := tk.read(flair.path);
      flair := Loaded(flairImage);
      var dwiImage := tk.read(dwi.path);
      dwi := Loaded(dwiImage);
      var transform := AffineFile(transformDwiToFlair);
      if transformToFlair {
        dwi := Loaded(Volume(flairImage.frame, tk.apply(transform, dwiImage, flairImage.frame)));
      }

      if loadLabel {
        if Contains(labelMap.path, ".nrrd") {
          var masks := LoadNrrd(tk.readNrrd(labelMap.path), tk.norm);
          if masks.Err? {
            return Fail(NrrdFailure(masks.error));
          }
          var labelFlair, labelDwi := masks.value.0, masks.value.1;
          if labelFlair.frame.shape != flairImage.frame.shape {
            labelFlair := ResampleLabelToTarget(tk, labelFlair, flairImage.frame);
          }
          if labelDwi.frame.shape != flairImage.frame.shape {
            labelDwi := ResampleLabelToTarget(tk, labelDwi, flairImage.frame);
          }
          if transformToFlair {
            labelDwi := ApplyTransformToLabel(tk, labelDwi, transform, flairImage.frame);
          }
          labelMap := Loaded(Volume(labelFlair.frame, Union(labelFlair.voxels, labelDwi.voxels)));
        } else {
          var l := AsU32(tk.read(labelMap.path));
          if transformToFlair && labeledModality == "dwi" {
            l := ApplyTransformToLabel(tk, l, transform, flairImage.frame);
          }
          labelMap := Loaded(l);
        }
      }

      if Truthy(betMask) {
        betMask := Loaded(AsU32(tk.read(betMask.path)));
      } else {
        betMask := Loaded(Volume(flairImage.frame, NonZero(flairImage.voxels)));
      }
      return Pass;
    }

    method ExtractBrain() returns (r: Outcome<SubjectError>)
      requires Valid()
      modifies this
      ensures Valid()
      ensures (r, Snapshot()) == ExtractBrainStep(Info(), old(Snapshot()))
    {
      if !IsLoaded() {
        return Fail(NotLoaded(name));
      }
      if !betMask.Loaded? {
        return Fail(NotAnImage("BETmask"));
      }
      var mask := betMask.value;
      var maskedFlair := MaskImage(flair.value, mask, 0.0);
      if maskedFlair.None? {
        return Fail(MaskShapeMismatch("flair"));
      }
      flair := Loaded(maskedFlair.value);
      var maskedDwi := MaskImage(dwi.value, mask, 0.0);
      if maskedDwi.None? {
        return Fail(MaskShapeMismatch("dwi"));
      }
      dwi := Loaded(maskedDwi.value);
      if !labelMap.Loaded? {
        return Fail(NotAnImage("label"));
      }
      var maskedLabel := MaskImage(labelMap.value, mask, 0);
      if maskedLabel.None? {
        return Fail(MaskShapeMismatch("label"));
      }
      labelMap := Loaded(maskedLabel.value);
      return Pass;
    }

    method ApplyTransformToMni(tk: Toolkit, templatePath: string) returns (r: Outcome<SubjectError>)
      requires tk.Valid() && Valid()
      modifies this
      ensures Valid()
      ensures (r, Snapshot()) == MniStep(tk, Info(), old(Snapshot()), templatePath)
    {
      if !IsLoaded() {
        return Fail(NotLoaded(name));
      }
      var template := tk.read(templatePath).frame;
      var warp := DisplacementField(transformFlairToMni[0], false);
      var affine := AffineFile(transformFlairToMni[1]);

      var f0 := flair.value;
      var f1 := Volume(template, tk.apply(affine, f0, template));
      var f2 := Volume(template, tk.apply(warp, f1, template));
      flair := Loaded(f2);

      var d0 := dwi.value;
      var d1 := Volume(template, tk.apply(affine, d0, template));
      var d2 := Volume(template, tk.apply(warp, d1, template));
      dwi := Loaded(d2);

      ghost var chain := ForwardSyN(transformFlairToMni[0], transformFlairToMni[1]);
      assert chain[1..][1..] == [];
      assert ApplyChain(tk, chain[1..], f1, template) == f2;
      assert ApplyChain(tk, chain[1..], d1, template) == d2;

      if !betMask.Loaded? {
        return Fail(NotAnImage("BETmask"));
      }
      betMask := Loaded(ApplyTransformToLabel(tk, betMask.value, affine, template));
      betMask := Loaded(ApplyTransformToLabel(tk, betMask.value, warp, template));

      if !labelMap.Loaded? {
        return Fail(NotAnImage("label"));
      }
      labelMap := Loaded(ApplyTransformToLabel(tk, labelMap.value, affine, template));
      labelMap := Loaded(ApplyTransformToLabel(tk, labelMap.value, warp, template));
      return Pass;
    }

    method ResampleToTarget(tk: Toolkit, targetShape: Shape, targetSpacing: Vec3) returns (r: Outcome<SubjectError>)
      requires tk.Valid() && Valid()
      modifies this
      ensures Valid()
      ensures (r, Snapshot()) == ResampleStep(tk, Info(), old(Snapshot()), targetShape, targetSpacing)
    {
      if !IsLoaded() {
        return Fail(NotLoaded(name));
      }
      if betMask.Path? {
        return Fail(NotAnImage("BETmask"));
      }
      flair := Loaded(Cropped(tk, flair.value, CropMask(tk, flair.value, betMask)));
      dwi := Loaded(Cropped(tk, dwi.value, CropMask(tk, dwi.value, betMask)));
      if !labelMap.Loaded? {
        return Fail(NotAnImage("label"));
      }
      labelMap := Loaded(Cropped(tk, labelMap.value, CropMask(tk, ToReal(labelMap.value), betMask)));

      flair := Loaded(tk.resampleToSpacing(flair.value, targetSpacing));
      flair := Loaded(tk.pad(flair.value, targetShape));

      var target := flair.value.frame;
      dwi := Loaded(Volume(target, tk.resample(dwi.value, target)));
      labelMap := Loaded(ResampleLabelToTarget(tk, labelMap.value, target));
      if !betMask.Loaded? {
        return Fail(NotAnImage("BETmask"));
      }
      betMask := Loaded(ResampleLabelToTarget(tk, betMask.value, target));

      if target.shape != targetShape {
        return Fail(ShapeMismatch);
      }
      if target.spacing != targetSpacing {
        return Fail(SpacingMismatch);
      }
      return Pass;
    }

    method SpaceIntegrityCheck() returns (r: Outcome<SubjectError>)
      requires Valid()
      ensures r == SpaceIntegrity(Info(), Snapshot().fields)
    {
      if !IsLoaded() {
        return Fail(NotLoaded(name));
      }
      if !dwi.Loaded? {
        return Fail(NotAnImage("dwi"));
      }
      if !labelMap.Loaded? {
        return Fail(NotAnImage("label"));
      }
      var flairFrame, dwiFrame, labelFrame := flair.value.frame, dwi.value.frame, labelMap.value.frame;
      if flairFrame.shape != dwiFrame.shape || dwiFrame.shape != labelFrame.shape {
        return Fail(ShapeMismatch);
      }
      if flairFrame.spacing != dwiFrame.spacing || dwiFrame.spacing != labelFrame.spacing {
        return Fail(SpacingMismatch);
      }
      if !(AllClose(flairFrame.direction, dwiFrame.direction) && AllClose(flairFrame.direction, labelFrame.direction)) {
        return Fail(DirectionMismatch);
      }
      return Pass;
    }

    method CheckEmptyLabel() returns (r: Outcome<SubjectError>)
      requires Valid()
      ensures r == EmptyLabelCheck(Info(), Snapshot().fields)
    {
      if !IsLoaded() {
        return Fail(NotLoaded(name));
      }
      if !labelMap.Loaded? {
        return Fail(NotAnImage("label"));
      }
      if HasLesion(labelMap.value) || AllowedEmpty(name) {
        return Pass;
      }
      return Fail(EmptyLabel(name));
    }

    /** `save`: the names of the files written, in order, and whether all four were. */
    method Save(outputFolder: string) returns (written: seq<string>, r: Outcome<SubjectError>)
      requires Valid()
      ensures (written, r) == SaveFiles(Info(), outputFolder, Snapshot().fields)
    {
      if !IsLoaded() {
        return [], Fail(NotLoaded(name));
      }
      var f := Snapshot().fields;
      written := [];
      for k := 0 to 4
        invariant |written| == k
        invariant forall j :: 0 <= j < k ==> written[j] == Join(outputFolder, name + Suffixes[j]) && FieldLoaded(f, j)
      {
        if !FieldLoaded(f, k) {
          ghost var expected := SavedFiles(outputFolder, name, f, 0);
          assert |expected.0| == k;
          assert expected.0 == written;
          return written, Fail(NotAnImage(FieldNames[k]));
        }
        written := written + [Join(outputFolder, name + Suffixes[k])];
      }
      assert SavedFiles(outputFolder, name, f, 0).0 == written;
      r := Pass;
    }

    method FreeData() returns (r: Outcome<SubjectError>)
      requires Valid()
      modifies this
      ensures Valid()
      ensures (r, Snapshot()) == FreeStep(Info(), old(Snapshot()))
    {
      if !IsLoaded() {
        return Fail(NotLoaded(name));
      }
      var paths := saved.value;
      flair := paths.flair;
      dwi := paths.dwi;
      labelMap := paths.labelMap;
      betMask := paths.betMask;
      return Pass;
    }
  }

  // ----------------------------------------------------------------- ISLES2022

  const CaseCount: nat := 250

  /** `f"sub-strokecase{i:04d}"`. */
  function CaseName(i: nat): string
  {
    "sub-strokecase" + ZeroPadded(i, 4)
  }

  function FlairPath(folder: string, c: string): string
  {
    folder + "/" + c + "/ses-0001/anat/" + c + "_ses-0001_FLAIR.nii.gz"
  }

  function DwiPath(folder: string, c: string): string
  {
    folder + "/" + c + "/ses-0001/dwi/" + c + "_ses-0001_dwi.nii.gz"
  }

  function LabelPath(folder: string, c: string): string
  {
    folder + "/derivatives/" + c + "/ses-0001/" + c + "_ses-0001_msk.nii.gz"
  }

  /** The fields of the case named `c` before anything is loaded. */
  function CaseState(folder: string, c: string): SubjectState
  {
    SubjectState(Fields(Path(FlairPath(folder, c)), Path(DwiPath(folder, c)), Path(LabelPath(folder, c)), NoPath), None)
  }

  /** `s` is the case named `c`: unloaded, with the fixed path templates. */
  ghost predicate IsCase(s: Subject, folder: string, c: string)
    reads s
  {
    && s.Valid() && !s.IsLoaded()
    && s.name == c && s.labeledModality == "dwi"
    && s.Info() == TransformInfo(c, FlairPath(folder, c), "dwi")
    && s.Snapshot() == CaseState(folder, c)
  }

  /** Line 225: the case names, in order. */
  function CaseNames(): (r: seq<string>)
    ensures |r| == CaseCount && forall k :: 0 <= k < CaseCount ==> r[k] == CaseName(k + 1)
  {
    seq(CaseCount, k requires 0 <= k => CaseName(k + 1))
  }

  /** `ISLES2022`: 250 unloaded subjects, in case order, with the fixed path templates. */
  method Isles2022(datasetFolder: string) returns (subjects: seq<Subject>)
    ensures |subjects| == CaseCount
    ensures forall k :: 0 <= k < |subjects| ==> fresh(subjects[k]) && IsCase(subjects[k], datasetFolder, CaseName(k + 1))
  {
    var cases := CaseNames();
    subjects := CaseSubjects(datasetFolder, cases);
  }

  /** Lines 224-237: one new subject per case name, appended in order. */
  method CaseSubjects(datasetFolder: string, cases: seq<string>) returns (subjects: seq<Subject>)
    ensures |subjects| == |cases|
    ensures forall k :: 0 <= k < |subjects| ==> fresh(subjects[k]) && IsCase(subjects[k], datasetFolder, cases[k])
  {
    subjects := [];
    for i := 0 to |cases|
      invariant |subjects| == i
      invariant forall k :: 0 <= k < i ==> fresh(subjects[k]) && IsCase(subjects[k], datasetFolder, cases[k])
    {
      var c := cases[i];
      var subject := new Subject(c, FlairPath(datasetFolder, c), DwiPath(datasetFolder, c), LabelPath(datasetFolder, c), "dwi", NoPath);
      subjects := subjects + [subject];
    }
  }

  const CasePrefix: string := "sub-strokecase"

  /** A case name is the prefix followed by exactly four digits, with no '/' in it. */
  lemma CaseNameShape(i: nat)
    requires 1 <= i <= CaseCount
    ensures var c := CaseName(i);
      && |c| == |CasePrefix| + 4 && c[..|CasePrefix|] == CasePrefix && c[|CasePrefix|..] == ZeroPadded(i, 4)
      && '/' !in c && c[|c| - 1] != '/'
  {
    ZeroPaddedRoundTrip(i, 4);
    var c := CaseName(i);
    assert forall j :: |CasePrefix| <= j < |c| ==> IsDigit(c[j]);
  }

  /** The 250 cases have pairwise distinct names. */
  lemma CaseNamesDistinct(i: nat, j: nat)
    requires 1 <= i <= CaseCount && 1 <= j <= CaseCount
    requires CaseName(i) == CaseName(j)
    ensures i == j
  {
    CaseNameShape(i);
    CaseNameShape(j);
    ZeroPaddedInjective(i, j, 4);
  }

  const EmptyCaseNumbers: seq<nat> := [6, 37, 32, 16, 20, 150, 151, 170]

  /** The decimal forms of the case numbers on the allow-list. */
  lemma CodeDecimals()
    ensures Decimal(6) == "6" && Decimal(37) == "37" && Decimal(32) == "32" && Decimal(16) == "16"
    ensures Decimal(20) == "20" && Decimal(150) == "150" && Decimal(151) == "151" && Decimal(170) == "170"
  {
    assert Decimal(37) == Decimal(3) + "7";
    assert Decimal(15) == "15";
    assert Decimal(150) == Decimal(15) + "0";
    assert Decimal(17) == "17";
  }

  /** The allow-list holds the four-digit forms of the case numbers. */
  lemma AllowedCodes()
    ensures |EmptyAllowed| == |EmptyCaseNumbers|
    ensures forall k :: 0 <= k < |EmptyAllowed| ==> EmptyAllowed[k] == ZeroPadded(EmptyCaseNumbers[k], 4)
  {
    CodeDecimals();
    assert Zeros(1) == "0" && Zeros(2) == "00" && Zeros(3) == "000";
  }

  /** Of the ISLES 2022 cases, exactly the eight listed ones may have an empty label. */
  lemma AllowedEmptyCases(i: nat)
    requires 1 <= i <= CaseCount
    ensures AllowedEmpty(CaseName(i)) <==> i in EmptyCaseNumbers
  {
    var c := CaseName(i);
    CaseNameShape(i);
    var values := EmptyCaseNumbers;
    AllowedCodes();
    if AllowedEmpty(c) {
      var k :| 0 <= k < |EmptyAllowed| && Contains(c, CasePrefix + EmptyAllowed[k]);
      ContainsSameLength(c, CasePrefix + EmptyAllowed[k]);
      assert c[|CasePrefix|..] == EmptyAllowed[k];
      ZeroPaddedInjective(i, values[k], 4);
    }
    if i in EmptyCaseNumbers {
      var k :| 0 <= k < |values| && values[k] == i;
      ContainsSameLength(c, CasePrefix + EmptyAllowed[k]);
    }
  }

  /** The transform files of an ISLES 2022 case sit next to its FLAIR image, in its `anat` folder. */
  lemma IslesTransforms(datasetFolder: string, i: nat)
    requires 1 <= i <= CaseCount
    ensures var c := CaseName(i);
      var anat := datasetFolder + "/" + c + "/ses-0001/anat";
      var info := TransformInfo(c, FlairPath(datasetFolder, c), "dwi");
      && info.dwiToFlair == anat + "/" + DwiToFlairFile
      && info.warpToMni == anat + "/" + MniFolder + "/" + WarpFile
      && info.affineToMni == anat + "/" + MniFolder + "/" + AffineFileName
  {
    var c := CaseName(i);
    CaseNameShape(i);
    var anat := datasetFolder + "/" + c + "/ses-0001/anat";
    var file := c + "_ses-0001_FLAIR.nii.gz";
    assert FlairPath(datasetFolder, c) == anat + "/" + file;
    assert '/' !in file by {
      assert forall j :: |c| <= j < |file| ==> file[j] == "_ses-0001_FLAIR.nii.gz"[j - |c|];
    }
    TransformInfoOfChild(c, anat, file, "dwi");
  }
}
