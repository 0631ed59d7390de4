# Stroke lesion pipeline: a Dafny model

This project models the logic of a research pipeline for stroke MRI. The
pipeline:

- loads per-subject FLAIR and DWI images and their lesion annotations;
- applies brain extraction and registration to a template;
- ensembles the probability maps of several segmentation models;
- draws overview sheets of the predictions;
- produces lesion statistics per voxel and per atlas lobe.

The imaging toolkit itself (image reads, registration, interpolation,
resampling, cropping, reorientation) is outside the model. It appears as
the `Toolkit` datatype: abstract, total functions with the few contracts
the pipeline relies on. `Toolkit.ValidIsSatisfiable` shows that those
contracts can all be met at once, given any Euclidean norm.

## Files and modules

| file | module | what it models |
|---|---|---|
| `volumes.dfy` | `Volumes` | Frames and flat C-order volumes. Rounding and the float-to-uint32 casts. Masks, supports and sums. |
| `results.dfy` | `Results` | `Option`, `Result` and `Outcome` (pass, or fail with an error). |
| `text.dfy` | `Text` | Python's `in`, `upper()`, `split("_")[0]`, `replace`, `str()`, 4-digit zero padding and `int()`. POSIX `dirname` and `join`. |
| `toolkit.dfy` | `Toolkit` | The imaging toolkit as parameters with contracts. |
| `dataset_utils.dfy` | `DatasetUtils` | `datasets/utils.py`: |
| | | mask subtraction, Dice, millilitre volumes; |
| | | label transport (interpolate, round, cast); |
| | | the inverted SyN chain; |
| | | `load_nrrd`, as a loop plus a specification function. |
| `dataset_loaders.dfy` | `DatasetLoaders` | `datasets/dataset_loaders.py`: |
| | | the `Subject` class, whose methods rewrite its four image fields; |
| | | one step function per method, on `SubjectState`; |
| | | the `ISLES2022` catalog. |
| `subject_loops.dfy` | `SubjectLoops` | The `for subj in dataset` loop shared by the analysis drivers, as a function `Sweep`. The preparation sequence of the statistics drivers. |
| `ensemble.dfy` | `Ensemble` | `ensemble.py`: mean-and-threshold, the nnUNet affine built in place, axis swap, the suffix filter and renaming of the three drivers. |
| `visualise_predictions.dfy` | `VisualisePredictions` | `visualise_predictions.py`: maximum-area slice, overlay codes built in place, grid and axes, titles, the panel loop on a `Figure`, deletion of unused axes, legend placement. |
| `lesion_atlas.dfy` | `LesionAtlas` | `stats/lesion_atlas.py`: the hemisphere masks filled in place, per-lobe volumes, rows appended to a results table. |
| `lesion_map.dfy` | `LesionMap` | `stats/lesion_map.py`: the voxel-wise lesion count map, updated in place. |

Each method of the `Subject` class is proved equal to a step function on
`SubjectState`:

- `LoadStep`, `FreeStep` and `ExtractBrainStep`;
- `MniStep` and `ResampleStep`;
- `SpaceIntegrity` and `EmptyLabelCheck`;
- `SaveFiles`.

The properties are lemmas about those functions. A `SubjectState` holds the
four fields (each a path, `None`, or a loaded volume) and the saved
`_subj_paths`.

Each driver's loop method works on the `Subject` objects and is proved equal
to `Sweep` with that driver's step function. The lemmas about `Sweep` then
carry over to the driver:

- subject order;
- stop at the first failing assertion;
- subjects restored after a passing run.

## Where the code and its documentation differ (the model follows the code)

- `empty_label_check` allows eight case codes. Its docstring speaks of three.
- In `space_integrity_check`, `a == b == c` is Python's chained comparison, which short-circuits. The assertion's message is only built when the assertion fails, and it reads `self.label.shape` too. So the label's shape is read in every case, and a label that still holds a path is reported whatever the FLAIR and DWI shapes are.
- `ensemble_nnUNet` reads the metadata and reshapes its direction before it ensembles. A bad direction is therefore reported ahead of predictions of differing shapes.
- `ISLES2022` gives every subject no brain mask, so the brain mask is always computed from FLAIR ≠ 0.
- The 3D-UNet branch of `main` in `ensemble.py` is commented out. `ensemble_3DUNet` is still modelled as a driver.
- The output name uses `str.replace`, which replaces every occurrence of the suffix, not only the one at the end. `Text.ReplaceSoleSuffix` gives the case where the two agree.
- `load_data` reads FLAIR and DWI before the label. When the `.nrrd` label fails its assertions, the subject is left with FLAIR and DWI loaded, the label unchanged and `_subj_paths` already saved. `LoadStep` states exactly that.
- A column of zeros in the nrrd affine gives `nan` spacing directions in numpy. The model reports it as `SingularAffine`.
- The nrrd layer index follows Python indexing, so a negative layer counts from the end. A layer out of range is an error.

## Model

| member | source | states |
|---|---|---|
| Volumes.RoundHalfEven | datasets/utils.py:137 | The result is the nearest integer, and a tie goes to the even neighbour (numpy's `round`). |
| Volumes.Truncate | datasets/dataset_loaders.py:57 | A float-to-integer cast drops the fraction toward zero, for either sign. |
| Volumes.CastU32 | datasets/utils.py:137 | Storing in uint32 is the identity on [0, 2^32) and congruent to the value modulo 2^32 otherwise. |
| Volumes.RoundOfInteger | datasets/utils.py:137 | Integer-valued floats round to themselves. |
| Volumes.RoundWithin | datasets/utils.py:137 | Rounding stays within an interval whose ends are integers. |
| Volumes.RoundMonotone | datasets/utils.py:137 | Rounding is monotone. |
| Volumes.ToReal | datasets/utils.py:136 | `astype("float32")` keeps the frame and every voxel's value. |
| Volumes.AsU32 | datasets/dataset_loaders.py:57 | `astype("uint32")` truncates, then wraps, every voxel, and keeps the frame. |
| Volumes.AsU32OfToReal | datasets/dataset_loaders.py:75 | Casting a uint32 label to float and back gives it back. |
| Volumes.NonZero | datasets/dataset_loaders.py:64 | The indicator is 1 exactly where the input is non-zero, and 0 exactly where it is zero. |
| Volumes.KeepWhereAt | datasets/dataset_loaders.py:73-75 | Masking keeps a voxel where the mask is 1 and zeroes it elsewhere. |
| Volumes.KeepWhereIdempotent | datasets/dataset_loaders.py:73-75 | Masking twice by one mask is masking once. |
| Volumes.DotSelfZero | datasets/utils.py:94 | `v·v` is non-negative, and zero only for the zero vector. |
| Volumes.SumAppend | datasets/utils.py:34 | Sums are additive over concatenation. |
| Volumes.SumNonNegative | datasets/utils.py:30 | A non-negative mask has a non-negative sum. |
| Volumes.SumOfBinary | datasets/utils.py:29-34 | For a 0/1 mask, sum = `count_nonzero` = size of the support. |
| Volumes.CountNonZeroIsSupport | datasets/utils.py:29 | `count_nonzero` is the size of the support. |
| Text.ContainsShorter | datasets/dataset_loaders.py:169 | A contained string is no longer than its container. |
| Text.ContainsAt | datasets/dataset_loaders.py:169 | An occurrence at a position makes `in` true. |
| Text.ContainsSameLength | datasets/dataset_loaders.py:169 | Between strings of equal length, `in` is equality. |
| Text.Upper | datasets/utils.py:69 | Upper-casing keeps the length and maps each character. |
| Text.BeforeUnderscore | datasets/utils.py:70 | `split("_")[0]` is a prefix without `_`, followed by `_` unless it is the whole string. |
| Text.ReplaceSoleSuffix | ensemble.py:41 | Where the suffix occurs only at the end, `replace` swaps just that occurrence. |
| Text.LastSlash | datasets/dataset_loaders.py:209 | The index of the last `/`, or -1 when there is none. |
| Text.StripTrailingSlashes | datasets/dataset_loaders.py:209 | The result is a prefix of the input that does not end in `/`. |
| Text.DirnameOfChild | datasets/dataset_loaders.py:209 | `dirname(d + "/" + f)` is `d` for a file name `f` and a folder `d` without a trailing `/`. |
| Text.JoinPlain | datasets/dataset_loaders.py:210-212 | `join(a, b)` is `a/b` when `b` is relative and `a` has no trailing `/`. |
| Text.DigitChar | datasets/dataset_loaders.py:225 | The character of a decimal digit is a digit. |
| Text.Decimal | datasets/dataset_loaders.py:225 | `str(n)` is a non-empty digit string, with at most 4 digits below 10000. |
| Text.Zeros | datasets/dataset_loaders.py:225 | The padding is `k` digits. |
| Text.DecimalRoundTrip | datasets/dataset_loaders.py:225 | Reading `str(n)` back gives `n`. |
| Text.LeadingZerosIgnored | datasets/dataset_loaders.py:225 | Leading zeros do not change a digit string's value. |
| Text.ZeroPaddedRoundTrip | datasets/dataset_loaders.py:225 | `{n:04d}` is at least 4 digits and reads back as `n`. |
| Text.ZeroPaddedInjective | datasets/dataset_loaders.py:225 | Different numbers have different padded forms. |
| Text.TrimStart | datasets/utils.py:84-85 | What is removed is whitespace, and what is left does not start with whitespace. |
| Text.TrimEnd | datasets/utils.py:84-85 | What is removed is whitespace, and what is left does not end with whitespace. |
| Text.ParseInt | datasets/utils.py:84-85 | `int()` of a digit string is its value, with a `-` it is the negated value, and with a `+` it is the value. Any text it accepts is, once stripped of whitespace, a digit string with an optional sign. |
| Text.ParseIntIgnoresSpaces | datasets/utils.py:84-85 | Whitespace around a literal does not change what `int()` reads. |
| Toolkit.Inverse | datasets/utils.py:115-117 | An affine inverts to its inverse file, and a displacement field to the negated field. |
| Toolkit.Gather | visualise_predictions.py:71-72 | A voxel-copying regridding puts each output voxel's source value on the new frame. |
| DatasetUtils.SubtractMasks | datasets/utils.py:16 | The result is 0/1, and its support is `Support(x) − Support(y)`. |
| DatasetUtils.Times | datasets/utils.py:29 | The voxel-wise product keeps the length. |
| DatasetUtils.Dice | datasets/utils.py:29-34 | Both sums zero gives 1. Otherwise no overlap gives 0. |
| DatasetUtils.OverlapIsIntersection | datasets/utils.py:29 | `count_nonzero(a*b)` is the size of the intersection of the supports. |
| DatasetUtils.DiceOfBinaryMasks | datasets/utils.py:29-34 | For 0/1 masks with some voxel set, Dice = 2·\|A∩B\| / (\|A\|+\|B\|). |
| DatasetUtils.DiceBounds | datasets/utils.py:29-34 | Dice of 0/1 masks lies in [0, 1]. |
| DatasetUtils.DiceSymmetric | datasets/utils.py:29-34 | Dice is symmetric. |
| DatasetUtils.DiceSelf | datasets/utils.py:29-34 | Dice of a 0/1 mask with itself is 1, empty or not. |
| DatasetUtils.DiceAgainstEmpty | datasets/utils.py:32-33 | A non-empty mask against an empty one scores 0. |
| DatasetUtils.VoxelCountToVolumeMl | datasets/utils.py:47 | Volume × 1000 = count × the product of the spacings. |
| DatasetUtils.VolumeMlLinear | datasets/utils.py:47 | The volume is 0 for 0 voxels, additive, and scales with the count. |
| DatasetUtils.RoundLabels | datasets/utils.py:137 | Each voxel is rounded half to even, then cast to uint32. |
| DatasetUtils.RoundLabelsKeepsLabels | datasets/utils.py:137 | A field that already holds integer labels comes back unchanged. |
| DatasetUtils.RoundLabelsOfUnitField | datasets/utils.py:137 | A field within [0, 1] becomes 0/1, with 1 exactly where the value exceeds 0.5. |
| DatasetUtils.RoundLabelsOfHalf | datasets/utils.py:137 | Exactly 0.5 becomes 0. |
| DatasetUtils.RoundLabelsBounded | datasets/utils.py:137 | A field within [0, hi] rounds within [0, hi], with no wrap-around. |
| DatasetUtils.BinaryLabelsBounded | datasets/utils.py:136 | A 0/1 label cast to float lies within [0, 1]. |
| DatasetUtils.ApplyTransformToLabel | datasets/utils.py:123-137 | The result lies on the reference frame and rounds the linearly interpolated field. A 0/1 label stays 0/1. |
| DatasetUtils.ResampleLabelToTarget | datasets/utils.py:139-152 | The result lies on the target frame and rounds the resampled field. A 0/1 label stays 0/1. |
| DatasetUtils.ResampleLabelIdentity | datasets/utils.py:151-152 | Resampling onto the label's own grid gives the label back, when the resampler is the identity there. |
| DatasetUtils.ApplyChain | datasets/utils.py:119-120 | A non-empty chain ends on the reference frame. |
| DatasetUtils.InverseChain | datasets/utils.py:115-120 | The inverse chain holds the inverse steps in reverse order. |
| DatasetUtils.InverseChainInvolution | datasets/utils.py:115-120 | Inverting a chain twice gives it back. |
| DatasetUtils.InvertSyNRegistration | datasets/utils.py:103-121 | The result is the negated warp, then the inverted affine: the inverse of the forward affine-then-warp chain. |
| DatasetUtils.Lookup | datasets/utils.py:77-81 | A header lookup is `None` exactly when no item has the key. |
| DatasetUtils.ExtractMask | datasets/utils.py:84-85 | A label value that is not an integer is reported first, then a layer that is not one. A layer outside the stack, after Python's negative indexing, is an error. Otherwise the mask has the layer's voxel count, and voxel v is 1 exactly where the chosen layer holds the label value, and 0 elsewhere. |
| DatasetUtils.DecomposeAffine | datasets/utils.py:87-95 | On success the frame keeps the shape and takes the translation as its origin. |
| DatasetUtils.NormOfZero | datasets/utils.py:94 | A norm is zero exactly at the zero vector. |
| DatasetUtils.DecomposeColumn | datasets/utils.py:94-95 | A column splits into its norm and its unit direction. |
| DatasetUtils.DecomposeAffineFails | datasets/utils.py:94-95 | Decomposition fails when a column of the block is zero. |
| DatasetUtils.DecomposeAffineSound | datasets/utils.py:87-95 | On success, spacing_j·direction_j reproduces column j, and each direction has unit length. |
| DatasetUtils.DecomposeAffineRecovers | datasets/utils.py:87-95 | Unit directions with positive spacings are recovered exactly (round trip). |
| DatasetUtils.SegmentMask | datasets/utils.py:77-85 | A segment's mask is 0/1 with the grid's voxel count. |
| DatasetUtils.SegmentMasks | datasets/utils.py:77-85 | The masks of both segments are 0/1 with the grid's voxel count, and they are cut only after all four header items are found. |
| DatasetUtils.MasksOf | datasets/utils.py:77-99 | The two masks share one frame and are 0/1. |
| DatasetUtils.MasksOfSegments | datasets/utils.py:77-99 | Success holds iff all four header items exist, both segment masks can be cut and the affine decomposes. The masks are then the segments' own masks, on the decomposed frame. A missing item is reported as a missing key. |
| DatasetUtils.ParseNrrd | datasets/utils.py:62-101 | Success implies an LPS space, exactly one FLAIR-tagged value and exactly one DWI-tagged value, and two 0/1 masks on a shared frame. |
| DatasetUtils.TaggedCounted | datasets/utils.py:68-75 | A tagged header item makes the count at least 1. |
| DatasetUtils.SoleTaggedKey | datasets/utils.py:68-75 | With exactly one tagged item, the segment key the loop keeps is that item's key. |
| DatasetUtils.ParseNrrdSegments | datasets/utils.py:66-99 | On success, the FLAIR mask is the one selected by the FLAIR-tagged item's `_Layer` and `_LabelValue`, the DWI mask likewise, and both lie on the frame decomposed from the affine. |
| DatasetUtils.LoadNrrd | datasets/utils.py:66-75 | The counting loop over the header returns exactly `ParseNrrd`. |
| DatasetLoaders.TransformInfoOfChild | datasets/dataset_loaders.py:209-212 | For FLAIR `d/f`, the transforms are `d/dwi_to_flair_affine.mat` and `d/flair_brain_to_mni/{warp.nii.gz, affine.mat}`. |
| DatasetLoaders.DwiOnFlair | datasets/dataset_loaders.py:33-35 | DWI moves to FLAIR's frame exactly when asked; otherwise it is unchanged. |
| DatasetLoaders.OnFlairGrid | datasets/dataset_loaders.py:42-47 | A mask is resampled only when its shape differs from FLAIR's, and it stays 0/1. |
| DatasetLoaders.Union | datasets/dataset_loaders.py:53 | The logical OR is 0/1, and its support is the union of the supports. |
| DatasetLoaders.DwiAnnotation | datasets/dataset_loaders.py:46-51 | Only the DWI mask gets the DWI-to-FLAIR affine, and only when asked. |
| DatasetLoaders.NrrdLabel | datasets/dataset_loaders.py:38-54 | The label is 0/1, and its support is the FLAIR mask's support on the grid united with the DWI mask's. |
| DatasetLoaders.PlainLabel | datasets/dataset_loaders.py:56-59 | The cast label is transformed exactly when asked and drawn on DWI. |
| DatasetLoaders.BrainMask | datasets/dataset_loaders.py:61-64 | A non-empty path is read. Otherwise the mask is 1 exactly where FLAIR ≠ 0, on FLAIR's frame. |
| DatasetLoaders.LoadLabel | datasets/dataset_loaders.py:37-59 | The label is left alone unless asked; `.nrrd` selects the union branch, anything else the plain branch. |
| DatasetLoaders.LoadStep | datasets/dataset_loaders.py:16-64 | A loaded subject fails with `AlreadyLoaded` and is unchanged. Otherwise the fields are saved, FLAIR is the image read, and DWI is the image read, carried onto FLAIR when asked (`DwiOnFlair`). When `LoadLabel` succeeds, the step passes with that label and the brain mask `BrainMask`. When it fails, the step fails with its nrrd error and the label and brain mask are unchanged. |
| DatasetLoaders.FreeStep | datasets/dataset_loaders.py:185-194 | An unloaded subject fails with `NotLoaded`. Otherwise exactly the saved fields come back. |
| DatasetLoaders.LoadFreeLoad | datasets/dataset_loaders.py:24-27 | Load then free restores the four original fields, and a second load then does what the first would. |
| DatasetLoaders.LoadTwiceFails | datasets/dataset_loaders.py:24 | A second load without a free fails and changes nothing. |
| DatasetLoaders.MaskImage | datasets/dataset_loaders.py:73-75 | Masking succeeds iff the shapes agree; voxels where the mask is 1 are kept and the rest zeroed. |
| DatasetLoaders.MaskImageIdempotent | datasets/dataset_loaders.py:73-75 | Masking twice is masking once. |
| DatasetLoaders.ExtractBrainStep | datasets/dataset_loaders.py:66-75 | An unloaded subject, or one without a brain mask, fails unchanged. A pass masks FLAIR, DWI and the label and keeps the label uint32. |
| DatasetLoaders.ExtractBrainIdempotent | datasets/dataset_loaders.py:66-75 | Extracting the brain a second time changes nothing. |
| DatasetLoaders.ExtractBrainLabel | datasets/dataset_loaders.py:75 | A 0/1 label becomes the part of the lesion inside the brain mask (intersection of the supports). |
| DatasetLoaders.LabelToMni | datasets/dataset_loaders.py:139-143 | The label lands on the template frame and stays 0/1. |
| DatasetLoaders.MniStep | datasets/dataset_loaders.py:117-143 | An unloaded subject is refused. FLAIR and DWI go along the affine-then-warp chain onto the template. A pass also sets the label and the brain mask to `LabelToMni` of their old values on the template frame. |
| DatasetLoaders.ResampleStep | datasets/dataset_loaders.py:89-115 | An unloaded subject fails with `NotLoaded`, and a brain mask that is still a path fails the first crop with the state unchanged. With no brain mask, FLAIR and DWI are cropped to `crop_image`'s `get_mask` fallback. Then an unloaded label fails with `NotAnImage("label")`, keeping the cropped FLAIR and DWI. A loaded label gets as far as the brain-mask resample and fails there with `NotAnImage("BETmask")`. A pass puts every image on FLAIR's new grid and keeps a 0/1 label 0/1. With the label and brain mask loaded, the only failures are the shape and spacing assertions. |
| DatasetLoaders.AllCloseReflexive | datasets/dataset_loaders.py:157 | `allclose(a, a)` holds. |
| DatasetLoaders.SpaceIntegrity | datasets/dataset_loaders.py:145-157 | It passes iff the subject is loaded, the label is an image, and the shapes, spacings and directions agree (directions up to `allclose`). It fails with `NotLoaded` iff not loaded. It reports an unloaded label iff the subject and DWI are loaded, whatever the shapes. It reports `ShapeMismatch` iff all three are images whose shapes are not all equal. |
| DatasetLoaders.MniPassesIntegrity | datasets/dataset_loaders.py:133-157 | After a passing template transform the integrity check passes. |
| DatasetLoaders.ResamplePassesIntegrity | datasets/dataset_loaders.py:89-157 | After a passing resampling the integrity check passes. |
| DatasetLoaders.EmptyLabelCheck | datasets/dataset_loaders.py:159-169 | It passes iff the subject is loaded with a label that has a non-zero voxel or is allow-listed. It fails with `EmptyLabel` iff neither holds. |
| DatasetLoaders.SavedFiles | datasets/dataset_loaders.py:171-183 | The files written are `folder/name+suffix`, in order, up to the first field that is not an image, which is reported. |
| DatasetLoaders.SaveFiles | datasets/dataset_loaders.py:171-183 | An unloaded subject writes nothing and fails with `NotLoaded`. A loaded one writes `SavedFiles`. The save passes iff all four fields are images, and then the k-th file is `folder/name + suffix k`. |
| DatasetLoaders.SaveFilesDistinct | datasets/dataset_loaders.py:180-183 | A complete save writes four files with pairwise distinct names. |
| DatasetLoaders.Subject.constructor | datasets/dataset_loaders.py:205-212 | A new subject holds its four paths, is not loaded, and has its transform files derived from FLAIR's folder. |
| DatasetLoaders.Subject.LoadData | datasets/dataset_loaders.py:16-64 | The new fields and saved paths are those of `LoadStep`. |
| DatasetLoaders.Subject.ExtractBrain | datasets/dataset_loaders.py:66-75 | The new fields are those of `ExtractBrainStep`. |
| DatasetLoaders.Subject.ApplyTransformToMni | datasets/dataset_loaders.py:117-143 | The new fields are those of `MniStep`. |
| DatasetLoaders.Subject.ResampleToTarget | datasets/dataset_loaders.py:89-115 | The new fields are those of `ResampleStep`. |
| DatasetLoaders.Subject.SpaceIntegrityCheck | datasets/dataset_loaders.py:145-157 | The outcome is `SpaceIntegrity` of the current fields. |
| DatasetLoaders.Subject.CheckEmptyLabel | datasets/dataset_loaders.py:159-169 | The outcome is `EmptyLabelCheck` of the current fields. |
| DatasetLoaders.Subject.Save | datasets/dataset_loaders.py:171-183 | The files written and the outcome are `SaveFiles`. |
| DatasetLoaders.Subject.FreeData | datasets/dataset_loaders.py:185-194 | The new fields are those of `FreeStep`. |
| DatasetLoaders.CaseNames | datasets/dataset_loaders.py:225 | 250 names, the k-th being `sub-strokecase` followed by k+1 padded to 4 digits. |
| DatasetLoaders.Isles2022 | datasets/dataset_loaders.py:214-238 | 250 new unloaded subjects in case order, with the fixed path templates and `dwi` as the annotated modality. |
| DatasetLoaders.CaseSubjects | datasets/dataset_loaders.py:226-237 | One new subject per case name, appended in order. |
| DatasetLoaders.CaseNameShape | datasets/dataset_loaders.py:225 | A case name is the prefix plus exactly four digits, with no `/`. |
| DatasetLoaders.CaseNamesDistinct | datasets/dataset_loaders.py:225 | Distinct cases have distinct names. |
| DatasetLoaders.AllowedCodes | datasets/dataset_loaders.py:169 | The allow-list holds the 4-digit forms of the eight case numbers. |
| DatasetLoaders.AllowedEmptyCases | datasets/dataset_loaders.py:169 | An ISLES case may have an empty label iff its number is one of the eight. |
| DatasetLoaders.IslesTransforms | datasets/dataset_loaders.py:209-212 | An ISLES case's transforms sit in the `anat` folder of its FLAIR image. |
| SubjectLoops.Sweep | stats/lesion_map.py:21-32 | The subject loop on values returns one state per subject. |
| SubjectLoops.SweepRestores | stats/lesion_map.py:23-32 | When every passing step restores its subject, a passing loop restores every subject. |
| SubjectLoops.SweepStops | stats/lesion_map.py:21-32 | A passing loop visits every subject. A failing one stops at the failure and leaves later subjects untouched. |
| SubjectLoops.PrepareStep | stats/lesion_map.py:23-28 | Load, brain extraction, template transform, integrity and empty-label checks, stopping at the first failure. A pass leaves a loaded subject whose label is on the template and has passed both checks. |
| SubjectLoops.Prepare | stats/lesion_atlas.py:36-41 | The five method calls give exactly `PrepareStep`. |
| Ensemble.Vote | ensemble.py:20-21 | The output voxel is 1 iff the sum over models ≥ n/2 (the mean ≥ 0.5), and 0 iff it is below. |
| Ensemble.EnsembleFunc | ensemble.py:6-22 | The model axis is dropped, the grid is kept, and each voxel is the vote. |
| Ensemble.MeanThreshold | ensemble.py:20-21 | `sum/n ≥ 0.5` iff `sum ≥ n/2`. |
| Ensemble.ColumnSumPermutation | ensemble.py:20 | Permuting the models keeps each voxel's sum. |
| Ensemble.EnsembleOrderIrrelevant | ensemble.py:20 | The ensemble does not depend on the order of the model list. |
| Ensemble.EnsembleUnanimous | ensemble.py:20-21 | All models ≥ 0.5 gives 1; all below gives 0. |
| Ensemble.EnsembleMonotone | ensemble.py:20-21 | Raising any model's probabilities never turns a 1 into a 0. |
| Ensemble.NegatedRow | ensemble.py:69-70 | Negating a row negates the coordinate it gives. |
| Ensemble.RasAffineIsLpsFlipped | ensemble.py:65-70 | The written affine maps a voxel to the LPS point with x and y negated: the RAS point. |
| Ensemble.RasRows | ensemble.py:65-70 | The RAS affine, row by row: the direction and origin, with rows 0 and 1 negated, then 0 0 0 1. |
| Ensemble.SetBlock | ensemble.py:67 | The 3×3 block becomes the reshaped direction; the other entries are unchanged. |
| Ensemble.SetOriginColumn | ensemble.py:68 | Column 3 of rows 0-2 becomes the origin; the other entries are unchanged. |
| Ensemble.NegateRow | ensemble.py:69-70 | One row is negated in place; the other rows are unchanged. |
| Ensemble.NnUNetAffine | ensemble.py:65-70 | The in-place construction yields the RAS affine: the block, the origin, [3,3] = 1 with the rest of row 3 zero, and rows 0 and 1 negated. |
| Ensemble.SwapAxes02 | ensemble.py:73 | The value at [z][y][x] of the result is the value at [x][y][z]. |
| Ensemble.SwapAxes02Involution | ensemble.py:73 | Swapping twice gives the array back. |
| Ensemble.Suffix | ensemble.py:36 | Each driver's suffix is non-empty and relative. |
| Ensemble.OutputNameOfStem | ensemble.py:41 | `stem + suffix` is renamed to `stem + ".nii.gz"`. |
| Ensemble.Selected | ensemble.py:35-37 | Every selected file ends in the mode's suffix. |
| Ensemble.SelectedMembers | ensemble.py:55-58 | A file is selected iff it is listed and ends in the suffix. |
| Ensemble.Predictions | ensemble.py:61 | One prediction per input folder, in folder order, read from `folder/filename`. |
| Ensemble.EnsembleFile | ensemble.py:61-76 | For nnUNet, a direction that is not nine numbers fails first. Predictions of differing shapes then fail, and those are the only failure of the other drivers. It succeeds iff neither happens. Then the output name is the renamed file. The mask is the ensemble of the folders' predictions, with axes 0 and 2 swapped for nnUNet. The affine is the first folder's, or for nnUNet the RAS affine of the metadata. |
| Ensemble.EnsembleFileVotes | ensemble.py:61-73 | The written voxel at [x][y][z], or [z][y][x] for nnUNet, is 1 iff the folders' probabilities at [x][y][z] sum to at least n/2, and 0 otherwise. |
| Ensemble.EnsembleFileRasAffine | ensemble.py:62-75 | nnUNet's written affine is 4×4, sends each voxel index to the metadata's LPS point with x and y negated, and keeps the row 0 0 0 1. |
| Ensemble.Run | ensemble.py:55-77 | The listing loop on values: names without the suffix are skipped, the first failing step stops the loop, and every other step's file is written in order. It has no contract of its own; `RunWritesSelected` and `RunStops` state its meaning. |
| Ensemble.RunWritesSelected | ensemble.py:35-42 | The k-th file written is the step's result for the k-th selected name. |
| Ensemble.RunStops | ensemble.py:90-102 | A run passes iff it writes one file per selected name. Otherwise it stops at the first failing name, with that error. |
| Ensemble.Ensembled | ensemble.py:55 | A driver fails with `NoInputFolders` iff there is no input folder, since `input_folders[0]` raises, and then writes nothing. Otherwise it is the run over the first folder's listing. |
| Ensemble.EnsembledWritesEverySelected | ensemble.py:55-77 | A complete run writes, for each selected name, the ensemble of that name under its output name. |
| Ensemble.RunAt | ensemble.py:55-77 | One turn of the listing loop: skip, stop, or write and continue. |
| Ensemble.EnsembleOne | ensemble.py:61-76 | The loop body, with the affine built in an array before the ensemble, returns exactly `EnsembleFile`. |
| Ensemble.EnsembleFolder | ensemble.py:55-77 | The driver loop returns exactly the files and outcome of the run on values. |
| VisualisePredictions.SliceSums | visualise_predictions.py:12 | One sum per slice along the third axis. |
| VisualisePredictions.ArgMax | visualise_predictions.py:13 | The index holds the largest value, and every earlier index holds a smaller one. |
| VisualisePredictions.ArgMaxUnique | visualise_predictions.py:13 | That characterisation fixes the index. |
| VisualisePredictions.MaximumArea | visualise_predictions.py:11-13 | There is no slice iff the depth is 0. Otherwise the slice lies in [0, depth), has the largest label sum, and is the smallest such index. |
| VisualisePredictions.SlicesPartition | visualise_predictions.py:12 | The slice sums add up to the label's total sum. |
| VisualisePredictions.Merged | visualise_predictions.py:85-88 | Each voxel is coded 3 for both, 5 for the prediction only, 1 for the expert only, and 0 for neither. |
| VisualisePredictions.MergeDecodes | visualise_predictions.py:138-141 | The code at a voxel determines both masks there. |
| VisualisePredictions.MergeLabels | visualise_predictions.py:85-88 | The three in-place masked assignments, later ones overriding earlier, produce `Merged`. |
| VisualisePredictions.CeilSqrt | visualise_predictions.py:50 | `r·r ≥ n` and `(r−1)·(r−1) < n`. |
| VisualisePredictions.CeilSqrtLeast | visualise_predictions.py:50 | No smaller root reaches n. |
| VisualisePredictions.GridLayout | visualise_predictions.py:50-51 | There is no grid iff n = 0; otherwise there are ⌈√n⌉ rows. |
| VisualisePredictions.GridCovers | visualise_predictions.py:50-51 | `rows·cols ≥ n`, `rows·(cols−1) < n`, `(rows−1)·cols < n`, and `1 ≤ cols ≤ rows`. |
| VisualisePredictions.SubplotsShape | visualise_predictions.py:61-67 | One row only for one panel. One column only when the grid is exactly full. |
| VisualisePredictions.CellPlace | visualise_predictions.py:103 | A cell's row-major place lies inside the grid. |
| VisualisePredictions.AxisPlaced | visualise_predictions.py:61-67 | Panel i gets a valid axes reference at place i. |
| VisualisePredictions.AxesDistinct | visualise_predictions.py:67 | Distinct panels get distinct axes. |
| VisualisePredictions.UnusedInLastRow | visualise_predictions.py:102-103 | Every deleted place lies in the last row. |
| VisualisePredictions.ParseIntString | visualise_predictions.py:98 | `str(k)` reads back as k, for either sign. |
| VisualisePredictions.TitleShowsSlice | visualise_predictions.py:98 | The title reads as the name, a line break, `y=` and then `depth − slice`. |
| VisualisePredictions.Prediction | visualise_predictions.py:76-82 | The prediction is carried onto the label's frame. |
| VisualisePredictions.ChainBounded | visualise_predictions.py:78-82 | Interpolation along a chain keeps a field within [0, hi]. |
| VisualisePredictions.PredictionBinary | visualise_predictions.py:77-82 | A prediction file within [0, 1] gives a 0/1 prediction, in either space. |
| VisualisePredictions.PanelStep | visualise_predictions.py:59-99 | A failed load draws nothing and reports the load's error. A label with no slices fails with `NoSlices`, and a slice past FLAIR's depth with `SliceOutside`. Otherwise it draws one panel at the next place and restores the subject. The panel's slice is `MaximumArea` of the reoriented label and its image is the reoriented FLAIR. Its overlay is `Merged` of that label and the prediction carried onto it. The title is the subject's. |
| VisualisePredictions.PanelShows | visualise_predictions.py:73-96 | A drawn panel's slice is the first slice of largest lesion area in the reoriented label. At each voxel, the overlay's code shows the expert label iff the label is 1 there, and shows the prediction iff the prediction is 1 there. |
| VisualisePredictions.Select | visualise_predictions.py:47 | Exactly the catalog subjects whose name is requested are selected. |
| VisualisePredictions.SelectConcat | visualise_predictions.py:47 | Selection keeps catalog order. |
| VisualisePredictions.SelectDistinct | visualise_predictions.py:47 | Selecting from distinct subjects gives distinct subjects. |
| VisualisePredictions.Figure.constructor | visualise_predictions.py:54 | A new figure has every grid place, no panels and no legend. |
| VisualisePredictions.Figure.Draw | visualise_predictions.py:95-98 | Appends one panel. |
| VisualisePredictions.Figure.DelAxes | visualise_predictions.py:103 | Removes one place; panels and legend are unchanged. |
| VisualisePredictions.Figure.SetLegend | visualise_predictions.py:105-110 | Sets the legend place; nothing else changes. |
| VisualisePredictions.Kept | visualise_predictions.py:102-103 | Exactly the first n places are kept. |
| VisualisePredictions.DeleteUnused | visualise_predictions.py:102-103 | The deletion loop keeps exactly the places below n. |
| VisualisePredictions.FinishSheet | visualise_predictions.py:102-110 | The deletions, then a legend centred iff the grid is full. |
| VisualisePredictions.PanelSubject | visualise_predictions.py:59-99 | The loop body on a `Subject` and a `Figure` gives exactly `PanelStep`. |
| VisualisePredictions.PanelIteration | visualise_predictions.py:59-99 | One turn of the loop on subject i: the outcome, subject i's new state and the figure's panels are the step's. Every other subject is unchanged. |
| VisualisePredictions.PanelSweep | visualise_predictions.py:59-99 | The subject loop gives exactly `Sweep` with the panel step. |
| VisualisePredictions.SheetFrom | visualise_predictions.py:59-110 | A failing loop keeps every place and has no legend. |
| VisualisePredictions.SheetOf | visualise_predictions.py:50-110 | There is no sheet iff there is no subject. Otherwise the sheet has the grid of `GridLayout`. |
| VisualisePredictions.RunSheet | visualise_predictions.py:59-110 | The figure ends up as `SheetFrom` says. |
| VisualisePredictions.DrawSheet | visualise_predictions.py:50-110 | No subject gives no figure; otherwise a new figure showing `SheetOf`. |
| VisualisePredictions.PlotSheet | visualise_predictions.py:44-110 | The selection is drawn as `SheetOf` says, and unselected subjects are untouched. |
| VisualisePredictions.SweepPanels | visualise_predictions.py:59-99 | Panels follow subject order, each placed and titled by its own subject, one per subject when the loop passes. |
| VisualisePredictions.SheetLaysOut | visualise_predictions.py:61-110 | A passing loop lays out its sheet. |
| VisualisePredictions.SheetPanels | visualise_predictions.py:50-110 | A passing sheet has one panel per subject on distinct valid axes, titled in order, exactly the drawn places kept, and a centred legend iff none was deleted. |
| VisualisePredictions.SheetRestoresSubjects | visualise_predictions.py:70-99 | A passing sheet leaves every selected subject with its fields. |
| LesionAtlas.AtlasLabels | stats/lesion_atlas.py:23-24 | The atlas on the template grid, truncated to integers. |
| LesionAtlas.SliceBound | stats/lesion_atlas.py:29 | A Python slice bound: a negative one counts from the end, and the result is clamped to [0, n]. |
| LesionAtlas.Band | stats/lesion_atlas.py:28-32 | Zeros with `[lo:hi] = 1`. |
| LesionAtlas.Midline | stats/lesion_atlas.py:26-29 | The split index lies within [0, nx]. |
| LesionAtlas.AtlasOn | stats/lesion_atlas.py:23-32 | The left mask is 1 exactly for x below the midline, and the right mask exactly for the rest. |
| LesionAtlas.HemisphereByX | stats/lesion_atlas.py:28-32 | A voxel is on the left iff its x index `i / (ny·nz)` is below the midline. |
| LesionAtlas.Max | stats/lesion_atlas.py:45 | The maximum is attained and bounds every label. |
| LesionAtlas.LobeCount | stats/lesion_atlas.py:45 | `range(max+1)` has max+1 lobes, or none when max < 0. |
| LesionAtlas.Masked | stats/lesion_atlas.py:50-51 | A masked lesion sum is non-negative. |
| LesionAtlas.LobeRows | stats/lesion_atlas.py:45-54 | 2·lobes rows: for each lobe a left row, then a right row, each with its volume. |
| LesionAtlas.LobeStep | stats/lesion_atlas.py:36-56 | A failure appends nothing. A pass appends the lobe rows and restores the subject. |
| LesionAtlas.ResultsTable.constructor | stats/lesion_atlas.py:62 | A new table has no rows. |
| LesionAtlas.ResultsTable.Append | stats/lesion_atlas.py:53-54 | Appends one row. |
| LesionAtlas.BandMask | stats/lesion_atlas.py:28-32 | The in-place slice assignment produces `Band`. |
| LesionAtlas.PrepareAtlas | stats/lesion_atlas.py:23-32 | The in-place masks give exactly `AtlasOn`. |
| LesionAtlas.AppendLobeRows | stats/lesion_atlas.py:45-54 | The lobe loop appends exactly `LobeRows`. |
| LesionAtlas.LobeSubject | stats/lesion_atlas.py:36-56 | The loop body gives exactly `LobeStep`. |
| LesionAtlas.LobeIteration | stats/lesion_atlas.py:34-56 | One turn of the loop on subject i: the outcome, subject i's new state and the table's rows are the step's. Every other subject is unchanged. |
| LesionAtlas.LobeSweep | stats/lesion_atlas.py:34-56 | The subject loop gives exactly `Sweep` with the lobe step. |
| LesionAtlas.GenerateStatLobes | stats/lesion_atlas.py:7-56 | The table receives the rows of `Sweep` over the prepared atlas. |
| LesionAtlas.VoxelCountedOnce | stats/lesion_atlas.py:46-51 | A voxel in one of the lobes counts once, in its own hemisphere. |
| LesionAtlas.BothSidesIsSum | stats/lesion_atlas.py:46-51 | Over a partitioned atlas, the masked sums add up to the lesion sum. |
| LesionAtlas.RowsVolume | stats/lesion_atlas.py:46-51 | The rows' volumes add up to the volume of both sides' masked sums. |
| LesionAtlas.RowsCoverLesion | stats/lesion_atlas.py:45-51 | With no negative label, a subject's rows add up to its whole lesion volume. |
| LesionAtlas.AtlasPartitioned | stats/lesion_atlas.py:28-32 | The two hemisphere masks are disjoint and cover every voxel. |
| LesionAtlas.LobeStepRows | stats/lesion_atlas.py:45-54 | A pass appends exactly 2·(max+1) rows, whose volumes add up to the prepared lesion's volume. |
| LesionMap.ZeroMap | stats/lesion_map.py:19 | The map starts at zero on every voxel. |
| LesionMap.Added | stats/lesion_map.py:30 | Each voxel increases by the label's value. |
| LesionMap.StatStep | stats/lesion_map.py:23-32 | A failure leaves the map unchanged. A pass adds the prepared label and restores the subject. |
| LesionMap.AddLabel | stats/lesion_map.py:30 | The in-place `+=` yields `Added`. |
| LesionMap.StatSubject | stats/lesion_map.py:23-32 | The loop body gives exactly `StatStep`. |
| LesionMap.StatIteration | stats/lesion_map.py:21-32 | One turn of the loop on subject i: the outcome, subject i's new state and the map's voxels are the step's. Every other subject is unchanged. |
| LesionMap.StatSweep | stats/lesion_map.py:21-32 | The subject loop gives exactly `Sweep` with the map step. |
| LesionMap.GenerateStatMap | stats/lesion_map.py:7-33 | A new map, from zeros, as the sweep says. |
| LesionMap.StatMapSums | stats/lesion_map.py:30 | A passing loop adds, at every voxel, the sum of the subjects' labels there. |
| LesionMap.LesionCountBounded | stats/lesion_map.py:30 | With 0/1 labels a voxel's count lies in [0, number of subjects]. |
| LesionMap.StatMapCounts | stats/lesion_map.py:19-30 | The finished map holds each voxel's lesion count, bounded by the number of subjects. |
| LesionMap.StatMapRestoresSubjects | stats/lesion_map.py:23-32 | A passing loop leaves every subject with its original fields. |

## Left out

- Image and file I/O (NIfTI, nrrd, `.npz`, `.pkl` reads, `to_file`, `savefig`, `os.listdir`). These become total toolkit or IO functions. Read errors and missing files are not modelled.
- The imaging toolkit's numerics (registration, interpolation, resampling, cropping, padding, reorientation, `transform_physical_point_to_index`). These are abstract functions with contracts: frames kept, interpolation within bounds, the identity on the own grid.
- `DatasetLoaders.ResampleStep`: the crop and pad geometry is abstract. Only the two asserted postconditions, on shape and spacing, are checked. `get_mask`, which `crop_image` uses when it is given no brain mask, is an abstract toolkit operation: its thresholding and morphological clean-up are not modelled.
- `normalize`: floating-point z-scoring with `mean` and `std`.
- Float32 arithmetic. Probabilities, spacings and volumes are exact reals.
- `np.linalg.norm` is a parameter whose square is the dot product, because Dafny's reals have no square root.
- `VisualisePredictions.GridLayout`: `np.ceil(np.sqrt(n))` on floats is taken as the exact integer ceiling square root.
- matplotlib drawing: colormaps, percentile windowing, `rot90`/`flip` of the displayed slice and styling. A panel records what it shows.
- `plot_four`: only its merge is modelled, which is the same rule as `Merged`.
- `mask_image` is modelled as keeping voxels where the mask equals 1. Shapes that differ are an error rather than numpy broadcasting.
- StatStep: `stat_map += label` would broadcast a label with size-1 axes over the map. The model fails with `Broadcast` on any shape difference, so broadcasting is not modelled. The label is on the template grid after the transform to MNI, so the shapes agree whenever the template is the one the subjects were moved to.
- Upper: only ASCII letters are upper-cased. Python's `str.upper` also maps some other characters onto ASCII letters (`ı` to `I`, `ß` to `SS`, `ﬂ` to `FL`), so a header value that names FLAIR only through such characters is not seen as a FLAIR tag. Unicode case tables are not modelled.
- ParseInt: only ASCII whitespace around an ASCII sign and ASCII digits is accepted. Python's `int` also accepts underscores between digits, other Unicode whitespace and other Unicode decimal digits, and these are rejected here.
- `DatasetUtils.Dice` is stated for non-negative integer masks. Negative or fractional masks, which could make the denominator zero, are not modelled.
- The nnUNet `.pkl` holds much more than `sitk_stuff`. Only its direction and origin are kept.
- CSV writing, `print` progress output, argparse, `main` and multiprocessing.
- The files other than the six core ones: registration estimation, similarity metrics, connected components, evaluation, preprocessing launch, timing benchmarks and plotting-only scripts.
- Aliasing between subjects: the drivers require their subject list to hold distinct objects (`Distinct`).
- `VisualisePredictions.PanelStep`: the index from `enumerate` is modelled as the number of panels drawn so far, which is equal on every run that reaches the subject.
