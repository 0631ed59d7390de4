/**
 * Mask arithmetic, label transport and segmentation-file loading
 * (datasets/utils.py).
 */
module DatasetUtils {
  import opened Results
  import opened Volumes
  import opened Text
  import opened Toolkit

  // ------------------------------------------------------------ subtract_masks

  predicate IsBinary(s: seq<int>) { forall i :: 0 <= i < |s| ==> s[i] == 0 || s[i] == 1 }

  /** `logical_and(x, logical_not(y)) * 1`: the voxels of `x` that are not in `y`. */
  function SubtractMasks(x: seq<int>, y: seq<int>): (r: seq<int>)
    requires |x| == |y|
    ensures |r| == |x| && IsBinary(r)
    ensures Support(r) == Support(x) - Support(y)
  {
    seq(|x|, i requires 0 <= i < |x| => if x[i] != 0 && y[i] == 0 then 1 else 0)
  }

  // ---------------------------------------------------------- dice_coefficient

  /** Voxel-wise product `a * b`. */
  function Times(a: seq<nat>, b: seq<nat>): (r: seq<nat>)
    requires |a| == |b|
    ensures |r| == |a|
  {
    seq(|a|, i requires 0 <= i < |a| => a[i] * b[i])
  }

  /** `count_nonzero(y_true * y_pred)`. */
  function Overlap(a: seq<nat>, b: seq<nat>): nat
    requires |a| == |b|
  {
    CountNonZero(Times(a, b))
  }

  /**
   * The Dice coefficient of two non-negative masks: 1 when both are empty,
   * 0 when they share no voxel, and otherwise twice the number of shared
   * voxels over the sum of both masks.
   */
  function Dice(yTrue: seq<nat>, yPred: seq<nat>): (r: real)
    requires |yTrue| == |yPred|
    ensures Sum(yPred) == 0 && Sum(yTrue) == 0 ==> r == 1.0
    ensures !(Sum(yPred) == 0 && Sum(yTrue) == 0) && Overlap(yTrue, yPred) == 0 ==> r == 0.0
  {
    var intersection := Overlap(yTrue, yPred);
    if Sum(yPred) == 0 && Sum(yTrue) == 0 then 1.0
    else if intersection == 0 then 0.0
    else
      SumNonNegative(yPred);
      SumNonNegative(yTrue);
      2.0 * intersection as real / (Sum(yPred) + Sum(yTrue)) as real
  }

  /** The shared voxels of two non-negative masks are the intersection of their supports. */
  lemma OverlapIsIntersection(a: seq<nat>, b: seq<nat>)
    requires |a| == |b|
    ensures Overlap(a, b) == |Support(a) * Support(b)|
  {
    var t := Times(a, b);
    forall i | 0 <= i < |a|
      ensures t[i] != 0 <==> a[i] != 0 && b[i] != 0
    {
      if a[i] != 0 && b[i] != 0 { assert a[i] * b[i] >= b[i] > 0; }
    }
    assert Support(t) == Support(a) * Support(b);
    CountNonZeroIsSupport(t);
  }

  /**
   * For 0/1 masks the coefficient is the set formula 2|A∩B| / (|A|+|B|),
   * with the value 1 for two empty masks.
   */
  lemma DiceOfBinaryMasks(a: seq<nat>, b: seq<nat>)
    requires |a| == |b| && IsBinary(a) && IsBinary(b)
    ensures var A, B := Support(a), Support(b);
      Dice(a, b) == if |A| + |B| == 0 then 1.0 else 2.0 * |A * B| as real / (|A| + |B|) as real
  {
    SumOfBinary(a);
    SumOfBinary(b);
    OverlapIsIntersection(a, b);
  }

  /** Dice of 0/1 masks lies in [0, 1]. */
  lemma DiceBounds(a: seq<nat>, b: seq<nat>)
    requires |a| == |b| && IsBinary(a) && IsBinary(b)
    ensures 0.0 <= Dice(a, b) <= 1.0
  {
    DiceOfBinaryMasks(a, b);
    var A, B := Support(a), Support(b);
    assert |A - B| == |A| - |A * B|;
    assert |B - A| == |B| - |B * A|;
    assert B * A == A * B;
    if |A| + |B| != 0 {
      var num, den := 2.0 * |A * B| as real, (|A| + |B|) as real;
      assert num <= den;
      RatioAtMostOne(num, den);
    }
  }

  /** A fraction whose numerator lies between 0 and its positive denominator lies in [0, 1]. */
  lemma RatioAtMostOne(num: real, den: real)
    requires 0.0 <= num <= den && den > 0.0
    ensures 0.0 <= num / den <= 1.0
  {
    assert num / den * den == num;
  }

  lemma DiceSymmetric(a: seq<nat>, b: seq<nat>)
    requires |a| == |b|
    ensures Dice(a, b) == Dice(b, a)
  {
    assert Times(a, b) == Times(b, a);
  }

  /** A 0/1 mask agrees with itself perfectly, empty or not. */
  lemma DiceSelf(a: seq<nat>)
    requires IsBinary(a)
    ensures Dice(a, a) == 1.0
  {
    DiceOfBinaryMasks(a, a);
    assert Support(a) * Support(a) == Support(a);
  }

  /** A non-empty 0/1 mask against an empty one scores 0. */
  lemma DiceAgainstEmpty(a: seq<nat>, empty: seq<nat>)
    requires |a| == |empty| && IsBinary(a) && Support(a) != {}
    requires forall i :: 0 <= i < |empty| ==> empty[i] == 0
    ensures Dice(a, empty) == 0.0
  {
    assert Support(empty) == {};
    DiceOfBinaryMasks(a, empty);
  }

  // ------------------------------------------------- voxel_count_to_volume_ml

  /** Volume in millilitres of `count` voxels of size `zooms` millimetres. */
  function VoxelCountToVolumeMl(count: int, zooms: Vec3): (r: real)
    ensures r * 1000.0 == count as real * Product(zooms)
  {
    count as real * Product(zooms) / 1000.0
  }

  lemma VolumeMlLinear(a: int, b: int, k: int, zooms: Vec3)
    ensures VoxelCountToVolumeMl(0, zooms) == 0.0
    ensures VoxelCountToVolumeMl(a + b, zooms) == VoxelCountToVolumeMl(a, zooms) + VoxelCountToVolumeMl(b, zooms)
    ensures VoxelCountToVolumeMl(k * a, zooms) == k as real * VoxelCountToVolumeMl(a, zooms)
  {
  }

  // ---------------------------------------------------------- label transport

  /**
   * The step that brings an interpolated label field back to labels:
   * `numpy().round().astype(np.uint32)`.
   */
  function RoundLabels(field: seq<real>): (r: seq<U32>)
    ensures |r| == |field|
    ensures forall i :: 0 <= i < |field| ==> r[i] == CastU32(RoundHalfEven(field[i]))
  {
    seq(|field|, i requires 0 <= i < |field| => CastU32(RoundHalfEven(field[i])))
  }

  /** A field that already holds the labels comes back unchanged. */
  lemma RoundLabelsKeepsLabels(labels: LabelMap)
    ensures RoundLabels(ToReal(labels).voxels) == labels.voxels
  {
    var f := ToReal(labels).voxels;
    forall i | 0 <= i < |labels.voxels|
      ensures RoundLabels(f)[i] == labels.voxels[i]
    {
      RoundOfInteger(labels.voxels[i]);
    }
  }

  /**
   * A field interpolated from a 0/1 mask stays a 0/1 mask: values above one
   * half become 1, values up to and including one half become 0.
   */
  lemma RoundLabelsOfUnitField(field: seq<real>)
    requires Bounded(field, 1.0)
    ensures IsBinary(RoundLabels(field))
    ensures forall i :: 0 <= i < |field| ==> (RoundLabels(field)[i] == 1 <==> field[i] > 0.5)
  {
    forall i | 0 <= i < |field|
      ensures RoundLabels(field)[i] == (if field[i] > 0.5 then 1 else 0)
    {
      RoundWithin(field[i], 0, 1);
    }
  }

  /** Exactly one half rounds to the even neighbour 0. */
  lemma RoundLabelsOfHalf()
    ensures RoundLabels([0.5]) == [0]
  {
  }

  /** No wrap-around: a field within [0, hi] for a label value hi rounds within [0, hi]. */
  lemma RoundLabelsBounded(field: seq<real>, hi: U32)
    requires Bounded(field, hi as real)
    ensures forall i :: 0 <= i < |field| ==> RoundLabels(field)[i] == RoundHalfEven(field[i]) <= hi
  {
    forall i | 0 <= i < |field|
      ensures RoundLabels(field)[i] == RoundHalfEven(field[i]) <= hi
    {
      RoundWithin(field[i], 0, hi);
    }
  }

  /** A 0/1 label map, cast to float, lies within [0, 1]. */
  lemma BinaryLabelsBounded(labels: LabelMap)
    requires IsBinary(labels.voxels)
    ensures Bounded(ToReal(labels).voxels, 1.0)
  {
  }

  /**
   * `apply_transform_to_label`: the label map is cast to float, carried
   * through `t` onto the reference grid with linear interpolation, and
   * rounded back to labels. A 0/1 map stays a 0/1 map.
   */
  function ApplyTransformToLabel(tk: Toolkit, labels: LabelMap, t: Transform, reference: Frame): (r: LabelMap)
    requires tk.Valid()
    ensures r.Valid() && r.frame == reference
    ensures IsBinary(labels.voxels) ==> IsBinary(r.voxels)
    ensures r.voxels == RoundLabels(tk.apply(t, ToReal(labels), reference))
  {
    var transformed := tk.apply(t, ToReal(labels), reference);
    assert IsBinary(labels.voxels) ==> IsBinary(RoundLabels(transformed)) by {
      if IsBinary(labels.voxels) {
        BinaryLabelsBounded(labels);
        RoundLabelsOfUnitField(transformed);
      }
    }
    Volume(reference, RoundLabels(transformed))
  }

  /** `resample_label_to_target`: the same transport with no geometric transform. */
  function ResampleLabelToTarget(tk: Toolkit, labels: LabelMap, target: Frame): (r: LabelMap)
    requires tk.Valid()
    ensures r.Valid() && r.frame == target
    ensures IsBinary(labels.voxels) ==> IsBinary(r.voxels)
    ensures r.voxels == RoundLabels(tk.resample(ToReal(labels), target))
  {
    var resampled := tk.resample(ToReal(labels), target);
    assert IsBinary(labels.voxels) ==> IsBinary(RoundLabels(resampled)) by {
      if IsBinary(labels.voxels) {
        BinaryLabelsBounded(labels);
        RoundLabelsOfUnitField(resampled);
      }
    }
    Volume(target, RoundLabels(resampled))
  }

  /**
   * Label transport onto the label's own grid, by a resampler that reproduces
   * its input there, returns the label unchanged.
   */
  lemma ResampleLabelIdentity(tk: Toolkit, labels: LabelMap)
    requires tk.Valid() && labels.Valid()
    requires tk.resample(ToReal(labels), labels.frame) == ToReal(labels).voxels
    ensures ResampleLabelToTarget(tk, labels, labels.frame) == labels
  {
    RoundLabelsKeepsLabels(labels);
  }

  // -------------------------------------------------- invert_SyN_registration

  /** Applies transforms in order, each onto the reference grid. */
  function ApplyChain(tk: Toolkit, chain: seq<Transform>, image: Image, reference: Frame): (r: Image)
    requires tk.Valid()
    ensures |chain| > 0 ==> r.frame == reference && r.Valid()
    decreases |chain|
  {
    if |chain| == 0 then image
    else ApplyChain(tk, chain[1..], Volume(reference, tk.apply(chain[0], image, reference)), reference)
  }

  /** Template alignment: the affine first, the deformable warp second. */
  function ForwardSyN(warpFile: string, affineFile: string): seq<Transform>
  {
    [AffineFile(affineFile), DisplacementField(warpFile, false)]
  }

  /** The inverse of a chain: the inverse steps in reverse order. */
  function InverseChain(chain: seq<Transform>): (r: seq<Transform>)
    ensures |r| == |chain|
    ensures forall k :: 0 <= k < |chain| ==> r[k] == Inverse(chain[|chain| - 1 - k])
  {
    if |chain| == 0 then [] else InverseChain(chain[1..]) + [Inverse(chain[0])]
  }

  lemma {:induction false} InverseChainInvolution(chain: seq<Transform>)
    ensures InverseChain(InverseChain(chain)) == chain
  {
    var r := InverseChain(InverseChain(chain));
    assert |r| == |chain|;
    forall k | 0 <= k < |chain| ensures r[k] == chain[k] {
      assert Inverse(Inverse(chain[k])) == chain[k];
    }
  }

  /**
   * `invert_SyN_registration`: the displacement field with its vectors
   * negated is applied first and the inverted affine second, both onto the
   * image's own grid, which is the forward affine-then-warp chain inverted.
   */
  function InvertSyNRegistration(tk: Toolkit, image: Image, warpFile: string, affineFile: string): (r: Image)
    requires tk.Valid()
    ensures r == ApplyChain(tk, InverseChain(ForwardSyN(warpFile, affineFile)), image, image.frame)
    ensures r.frame == image.frame && r.Valid()
  {
    var warptx := DisplacementField(warpFile, true);
    var affinetx := InverseAffineFile(affineFile);
    var inverted := Volume(image.frame, tk.apply(warptx, image, image.frame));
    var chain := InverseChain(ForwardSyN(warpFile, affineFile));
    assert chain == [warptx, affinetx];
    assert chain[1..] == [affinetx] && chain[1..][1..] == [];
    var result := Volume(inverted.frame, tk.apply(affinetx, inverted, inverted.frame));
    assert ApplyChain(tk, [], result, image.frame) == result;
    assert ApplyChain(tk, [affinetx], inverted, image.frame) == result;
    Volume(inverted.frame, tk.apply(affinetx, inverted, inverted.frame))
  }

  // --------------------------------------------------------------- load_nrrd

  datatype NrrdError =
    | MissingKey(key: string)
    | WrongSpace(space: string)
    | SegmentCount(flair: nat, dwi: nat)
    | NotAnInteger(text: string)
    | LayerOutOfRange(layer: int)
    | SingularAffine

  const LPS: string := "left-posterior-superior"

  /** `header[key]`: the value of the first item with that key (dictionary keys are unique). */
  function Lookup(header: seq<(string, string)>, key: string): (r: Option<string>)
    ensures r.None? <==> forall i :: 0 <= i < |header| ==> header[i].0 != key
  {
    if |header| == 0 then None
    else if header[0].0 == key then Some(header[0].1)
    else Lookup(header[1..], key)
  }

  /** Whether a header value names a segmentation of the modality `tag`, ignoring case. */
  predicate Tagged(item: (string, string), tag: string)
  {
    Contains(Upper(item.1), tag)
  }

  /** Number of header items whose value names `tag`. */
  function TagCount(header: seq<(string, string)>, tag: string): nat
  {
    if |header| == 0 then 0
    else TagCount(header[..|header| - 1], tag) + (if Tagged(header[|header| - 1], tag) then 1 else 0)
  }

  /** The key of the last header item whose value names `tag`. */
  function LastTaggedKey(header: seq<(string, string)>, tag: string): string
  {
    if |header| == 0 then ""
    else if Tagged(header[|header| - 1], tag) then header[|header| - 1].0
    else LastTaggedKey(header[..|header| - 1], tag)
  }

  /** A tagged item makes the count positive. */
  lemma {:induction false} TaggedCounted(h: seq<(string, string)>, tag: string, i: nat)
    requires i < |h| && Tagged(h[i], tag)
    ensures TagCount(h, tag) >= 1
    decreases |h|
  {
    if i < |h| - 1 {
      assert h[..|h| - 1][i] == h[i];
      TaggedCounted(h[..|h| - 1], tag, i);
    }
  }

  /**
   * With exactly one tagged item, the segment key the header loop keeps is
   * that item's key.
   */
  lemma {:induction false} SoleTaggedKey(h: seq<(string, string)>, tag: string, i: nat)
    requires TagCount(h, tag) == 1 && i < |h| && Tagged(h[i], tag)
    ensures LastTaggedKey(h, tag) == h[i].0
    decreases |h|
  {
    var prefix := h[..|h| - 1];
    if i < |h| - 1 {
      assert prefix[i] == h[i];
      if Tagged(h[|h| - 1], tag) {
        TaggedCounted(prefix, tag, i);
        assert false;
      }
      SoleTaggedKey(prefix, tag, i);
    }
  }

  /** Python's indexing of a sequence of length `n`: a negative index counts from the end. */
  function LayerIndex(layer: int, n: nat): int
  {
    if layer < 0 then layer + n else layer
  }

  /**
   * `np.where(data == value, 1, 0)[layer]` with both numbers parsed from
   * their header text: voxel `v` is 1 exactly where the chosen layer holds
   * the label value. The value is parsed before the layer, and a layer
   * outside the stack is an error.
   */
  function ExtractMask(file: NrrdFile, layerText: string, valueText: string): (r: Result<seq<U32>, NrrdError>)
    requires NrrdWellFormed(file)
    ensures ParseInt(valueText).None? ==> r == Err(NotAnInteger(valueText))
    ensures ParseInt(valueText).Some? && ParseInt(layerText).None? ==> r == Err(NotAnInteger(layerText))
    ensures ParseInt(valueText).Some? && ParseInt(layerText).Some? ==>
      var layer := ParseInt(layerText).value;
      var index := LayerIndex(layer, |file.layers|);
      if 0 <= index < |file.layers| then
        && r.Ok? && |r.value| == file.shape.Count() && IsBinary(r.value)
        && forall v :: 0 <= v < |r.value| ==> (r.value[v] == 1 <==> file.layers[index][v] == ParseInt(valueText).value)
      else r == Err(LayerOutOfRange(layer))
  {
    match ParseInt(valueText)
    case None => Err(NotAnInteger(valueText))
    case Some(value) =>
      match ParseInt(layerText)
      case None => Err(NotAnInteger(layerText))
      case Some(layer) =>
        var n := |file.layers|;
        var index := LayerIndex(layer, n);
        if !(0 <= index < n) then Err(LayerOutOfRange(layer))
        else
          var data := file.layers[index];
          Ok(seq(|data|, v requires 0 <= v < |data| => if data[v] == value then 1 else 0))
  }

  /**
   * Splits the 3x3 block of an affine into voxel spacing (the column norms)
   * and direction cosines (the columns divided by their norms); the
   * translation column is the origin. A zero column has no direction.
   */
  function DecomposeAffine(block: Mat3, translation: Vec3, shape: Shape, norm: Vec3 -> real): (r: Result<Frame, NrrdError>)
    ensures r.Ok? ==> r.value.shape == shape && r.value.origin == translation
  {
    var s := Vec3(norm(block.c0), norm(block.c1), norm(block.c2));
    if s.x == 0.0 || s.y == 0.0 || s.z == 0.0 then Err(SingularAffine)
    else Ok(Frame(shape, s, Mat3(Scale(1.0 / s.x, block.c0), Scale(1.0 / s.y, block.c1), Scale(1.0 / s.z, block.c2)), translation))
  }

  /** A vector has norm zero exactly when it is the zero vector. */
  lemma NormOfZero(norm: Vec3 -> real, v: Vec3)
    requires IsNorm(norm)
    ensures norm(v) == 0.0 <==> v == Origin
  {
    DotSelfZero(v);
    if norm(v) != 0.0 { SquarePositive(norm(v)); }
  }

  /** `s` and the unit vector `d` are the length and the direction of `c`. */
  ghost predicate Decomposed(c: Vec3, s: real, d: Vec3)
  {
    s > 0.0 && Scale(s, d) == c && Dot(d, d) == 1.0
  }

  lemma DecomposeColumn(norm: Vec3 -> real, c: Vec3, s: real, d: Vec3)
    requires IsNorm(norm) && s == norm(c) && s != 0.0 && d == Scale(1.0 / s, c)
    ensures Decomposed(c, s, d)
  {
    assert Square(s) == s * s == Dot(c, c);
    assert Dot(d, d) == (1.0 / s) * (1.0 / s) * Dot(c, c);
  }

  /** The decomposition fails exactly when a column of the block is zero. */
  lemma DecomposeAffineFails(block: Mat3, translation: Vec3, shape: Shape, norm: Vec3 -> real)
    requires IsNorm(norm)
    ensures DecomposeAffine(block, translation, shape, norm).Err?
        <==> block.c0 == Origin || block.c1 == Origin || block.c2 == Origin
  {
    NormOfZero(norm, block.c0);
    NormOfZero(norm, block.c1);
    NormOfZero(norm, block.c2);
  }

  /**
   * A successful decomposition is faithful: each spacing is positive, each
   * direction column is a unit vector, and each direction column times its
   * spacing gives back the block's column.
   */
  lemma DecomposeAffineSound(block: Mat3, translation: Vec3, shape: Shape, norm: Vec3 -> real)
    requires IsNorm(norm)
    ensures var r := DecomposeAffine(block, translation, shape, norm);
      r.Ok? ==>
        && Decomposed(block.c0, r.value.spacing.x, r.value.direction.c0)
        && Decomposed(block.c1, r.value.spacing.y, r.value.direction.c1)
        && Decomposed(block.c2, r.value.spacing.z, r.value.direction.c2)
  {
    var r := DecomposeAffine(block, translation, shape, norm);
    if r.Ok? {
      var f := r.value;
      DecomposeColumn(norm, block.c0, f.spacing.x, f.direction.c0);
      DecomposeColumn(norm, block.c1, f.spacing.y, f.direction.c1);
      DecomposeColumn(norm, block.c2, f.spacing.z, f.direction.c2);
    }
  }

  lemma RecoverColumn(norm: Vec3 -> real, d: Vec3, s: real)
    requires IsNorm(norm) && s > 0.0 && Dot(d, d) == 1.0
    ensures norm(Scale(s, d)) == s && Scale(1.0 / s, Scale(s, d)) == d
  {
    var c := Scale(s, d);
    var n := norm(c);
    assert Dot(c, c) == s * s * Dot(d, d);
    assert Square(n) == n * n == s * s;
    assert (n - s) * (n + s) == n * n - s * s;
    assert n + s > 0.0;
    assert (1.0 / s) * (s * d.x) == d.x && (1.0 / s) * (s * d.y) == d.y && (1.0 / s) * (s * d.z) == d.z;
  }

  /**
   * An affine built from unit direction columns, positive spacings and a
   * translation decomposes back into exactly those parts.
   */
  lemma DecomposeAffineRecovers(direction: Mat3, spacing: Vec3, origin: Vec3, shape: Shape, norm: Vec3 -> real)
    requires IsNorm(norm)
    requires spacing.x > 0.0 && spacing.y > 0.0 && spacing.z > 0.0
    requires Dot(direction.c0, direction.c0) == 1.0 && Dot(direction.c1, direction.c1) == 1.0 && Dot(direction.c2, direction.c2) == 1.0
    ensures DecomposeAffine(Mat3(Scale(spacing.x, direction.c0), Scale(spacing.y, direction.c1), Scale(spacing.z, direction.c2)), origin, shape, norm)
         == Ok(Frame(shape, spacing, direction, origin))
  {
    RecoverColumn(norm, direction.c0, spacing.x);
    RecoverColumn(norm, direction.c1, spacing.y);
    RecoverColumn(norm, direction.c2, spacing.z);
  }

  /** The mask a segment's `_Layer` and `_LabelValue` header items select, once both are present. */
  function SegmentMask(file: NrrdFile, segment: string): (r: Result<seq<U32>, NrrdError>)
    requires NrrdWellFormed(file)
    ensures r.Ok? ==> |r.value| == file.shape.Count() && IsBinary(r.value)
  {
    match (Lookup(file.header, segment + "_Layer"), Lookup(file.header, segment + "_LabelValue"))
    case (None, _) => Err(MissingKey(segment + "_Layer"))
    case (_, None) => Err(MissingKey(segment + "_LabelValue"))
    case (Some(layer), Some(value)) => ExtractMask(file, layer, value)
  }

  /** The four header items that name the layers and label values of the two segments. */
  predicate HasSegmentKeys(h: seq<(string, string)>, flairSegment: string, dwiSegment: string)
  {
    && Lookup(h, flairSegment + "_Layer").Some? && Lookup(h, flairSegment + "_LabelValue").Some?
    && Lookup(h, dwiSegment + "_Layer").Some? && Lookup(h, dwiSegment + "_LabelValue").Some?
  }

  /**
   * What `load_nrrd` does once the two segment ids are known: the four
   * header items are looked up first, then each segment's mask is cut from
   * its layer, and both masks get the frame decomposed from the affine.
   */
  function MasksOf(file: NrrdFile, flairSegment: string, dwiSegment: string, norm: Vec3 -> real): (r: Result<(LabelMap, LabelMap), NrrdError>)
    requires NrrdWellFormed(file)
    ensures r.Ok? ==> r.value.0.frame == r.value.1.frame && r.value.0.Valid() && r.value.1.Valid()
    ensures r.Ok? ==> IsBinary(r.value.0.voxels) && IsBinary(r.value.1.voxels)
  {
    match SegmentMasks(file, flairSegment, dwiSegment)
    case Err(e) => Err(e)
    case Ok(masks) =>
      match DecomposeAffine(file.spaceDirections, file.spaceOrigin, file.shape, norm)
      case Err(e) => Err(e)
      case Ok(frame) => Ok((Volume(frame, masks.0), Volume(frame, masks.1)))
  }

  /** The four header items, looked up in the source's order, then the two masks they select. */
  function SegmentMasks(file: NrrdFile, flairSegment: string, dwiSegment: string): (r: Result<(seq<U32>, seq<U32>), NrrdError>)
    requires NrrdWellFormed(file)
    ensures r.Ok? ==> |r.value.0| == |r.value.1| == file.shape.Count() && IsBinary(r.value.0) && IsBinary(r.value.1)
  {
    var h := file.header;
    if Lookup(h, flairSegment + "_Layer").None? then Err(MissingKey(flairSegment + "_Layer"))
    else if Lookup(h, flairSegment + "_LabelValue").None? then Err(MissingKey(flairSegment + "_LabelValue"))
    else if Lookup(h, dwiSegment + "_Layer").None? then Err(MissingKey(dwiSegment + "_Layer"))
    else if Lookup(h, dwiSegment + "_LabelValue").None? then Err(MissingKey(dwiSegment + "_LabelValue"))
    else
      match SegmentMask(file, flairSegment)
      case Err(e) => Err(e)
      case Ok(flairMask) =>
        match SegmentMask(file, dwiSegment)
        case Err(e) => Err(e)
        case Ok(dwiMask) => Ok((flairMask, dwiMask))
  }

  /**
   * The masks `MasksOf` returns are the ones the two segments' header items
   * select, on the frame decomposed from the affine; it succeeds exactly
   * when the four items exist, both masks can be cut and the affine
   * decomposes, and a missing item is reported as such.
   */
  lemma MasksOfSegments(file: NrrdFile, flairSegment: string, dwiSegment: string, norm: Vec3 -> real)
    requires NrrdWellFormed(file)
    ensures var r := MasksOf(file, flairSegment, dwiSegment, norm);
      && (r.Ok? <==>
        && HasSegmentKeys(file.header, flairSegment, dwiSegment)
        && SegmentMask(file, flairSegment).Ok? && SegmentMask(file, dwiSegment).Ok?
        && DecomposeAffine(file.spaceDirections, file.spaceOrigin, file.shape, norm).Ok?)
      && (r.Ok? ==>
        && SegmentMask(file, flairSegment) == Ok(r.value.0.voxels)
        && SegmentMask(file, dwiSegment) == Ok(r.value.1.voxels)
        && DecomposeAffine(file.spaceDirections, file.spaceOrigin, file.shape, norm) == Ok(r.value.0.frame))
      && (!HasSegmentKeys(file.header, flairSegment, dwiSegment) ==> r.Err? && r.error.MissingKey?)
  {
  }

  /**
   * The specification of `load_nrrd`: the space must be LPS, exactly one
   * header value must name FLAIR and exactly one DWI (case-insensitively;
   * one value may name both), and each segment id is its key up to the
   * first underscore.
   */
  function ParseNrrd(file: NrrdFile, norm: Vec3 -> real): (r: Result<(LabelMap, LabelMap), NrrdError>)
    requires NrrdWellFormed(file)
    ensures r.Ok? ==> Lookup(file.header, "space") == Some(LPS)
    ensures r.Ok? ==> TagCount(file.header, "FLAIR") == 1 && TagCount(file.header, "DWI") == 1
    ensures r.Ok? ==> r.value.0.frame == r.value.1.frame && r.value.0.Valid() && r.value.1.Valid()
    ensures r.Ok? ==> IsBinary(r.value.0.voxels) && IsBinary(r.value.1.voxels)
  {
    var h := file.header;
    match Lookup(h, "space")
    case None => Err(MissingKey("space"))
    case Some(space) =>
      if space != LPS then Err(WrongSpace(space))
      else
        var flair, dwi := TagCount(h, "FLAIR"), TagCount(h, "DWI");
        if !(flair == 1 && dwi == 1) then Err(SegmentCount(flair, dwi))
        else MasksOf(file, BeforeUnderscore(LastTaggedKey(h, "FLAIR")), BeforeUnderscore(LastTaggedKey(h, "DWI")), norm)
  }

  /**
   * On success, the FLAIR mask is the one selected by the `_Layer` and
   * `_LabelValue` items of the FLAIR-tagged item's segment, the DWI mask
   * likewise, and both lie on the frame decomposed from the affine.
   */
  lemma ParseNrrdSegments(file: NrrdFile, norm: Vec3 -> real)
    requires NrrdWellFormed(file)
    ensures var r, h := ParseNrrd(file, norm), file.header;
      r.Ok? ==>
        && (forall i :: 0 <= i < |h| && Tagged(h[i], "FLAIR") ==> SegmentMask(file, BeforeUnderscore(h[i].0)) == Ok(r.value.0.voxels))
        && (forall i :: 0 <= i < |h| && Tagged(h[i], "DWI") ==> SegmentMask(file, BeforeUnderscore(h[i].0)) == Ok(r.value.1.voxels))
        && DecomposeAffine(file.spaceDirections, file.spaceOrigin, file.shape, norm) == Ok(r.value.0.frame)
  {
    var r, h := ParseNrrd(file, norm), file.header;
    if r.Ok? {
      var flairSegment, dwiSegment := BeforeUnderscore(LastTaggedKey(h, "FLAIR")), BeforeUnderscore(LastTaggedKey(h, "DWI"));
      assert r == MasksOf(file, flairSegment, dwiSegment, norm);
      MasksOfSegments(file, flairSegment, dwiSegment, norm);
      forall i | 0 <= i < |h| && Tagged(h[i], "FLAIR")
        ensures SegmentMask(file, BeforeUnderscore(h[i].0)) == Ok(r.value.0.voxels)
      {
        SoleTaggedKey(h, "FLAIR", i);
      }
      forall i | 0 <= i < |h| && Tagged(h[i], "DWI")
        ensures SegmentMask(file, BeforeUnderscore(h[i].0)) == Ok(r.value.1.voxels)
      {
        SoleTaggedKey(h, "DWI", i);
      }
    }
  }

  /**
   * `load_nrrd`, scanning the header items in order with a counter and the
   * latest segment id per modality.
   */
  method LoadNrrd(file: NrrdFile, norm: Vec3 -> real) returns (r: Result<(LabelMap, LabelMap), NrrdError>)
    requires NrrdWellFormed(file)
    ensures r == ParseNrrd(file, norm)
  {
    var h := file.header;
    var space := Lookup(h, "space");
    if space.None? { return Err(MissingKey("space")); }
    if space.value != LPS { return Err(WrongSpace(space.value)); }

    var dwi, flair := 0, 0;
    var flairSegment, dwiSegment := "", "";
    for i := 0 to |h|
      invariant flair == TagCount(h[..i], "FLAIR") && dwi == TagCount(h[..i], "DWI")
      invariant flairSegment == BeforeUnderscore(LastTaggedKey(h[..i], "FLAIR"))
      invariant dwiSegment == BeforeUnderscore(LastTaggedKey(h[..i], "DWI"))
    {
      var (key, value) := h[i];
      assert h[..i + 1][..i] == h[..i];
      if Contains(Upper(value), "FLAIR") {
        flairSegment := BeforeUnderscore(key);
        flair := flair + 1;
      }
      if Contains(Upper(value), "DWI") {
        dwiSegment := BeforeUnderscore(key);
        dwi := dwi + 1;
      }
    }
    assert h[..|h|] == h;
    if !(flair == 1 && dwi == 1) { return Err(SegmentCount(flair, dwi)); }
    r := MasksOf(file, flairSegment, dwiSegment, norm);
  }
}
