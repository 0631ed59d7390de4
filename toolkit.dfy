/**
 * The imaging toolkit the pipeline calls: image, segmentation-file and
 * transform I/O, transform application, resampling, cropping, padding,
 * reorientation, and numpy's vector norm. None of it is implemented here.
 * Each operation is a field of a `Toolkit` value that the model's operations
 * receive as a parameter, and `Toolkit.Valid` states the only facts about
 * them that the pipeline relies on.
 */
module Toolkit {
  import opened Volumes

  /** A geometric transform, named by the file it is read from. */
  datatype Transform =
    | AffineFile(path: string)                        // read_transform(path)
    | InverseAffineFile(path: string)                 // read_transform(path).invert()
    | DisplacementField(path: string, negated: bool)  // transform_from_displacement_field(image_read(path)), vectors negated or not

  /**
   * The inverse the pipeline uses for a transform: the inverted affine, and
   * for a displacement field the field with every vector negated (a
   * first-order approximation of the true inverse).
   */
  function Inverse(t: Transform): (r: Transform)
    ensures r.AffineFile? <==> t.InverseAffineFile?
    ensures r.DisplacementField? <==> t.DisplacementField?
  {
    match t
    case AffineFile(p) => InverseAffineFile(p)
    case InverseAffineFile(p) => AffineFile(p)
    case DisplacementField(p, n) => DisplacementField(p, !n)
  }

  /**
   * A regridding that copies voxels (cropping, reorienting): the output frame
   * and, for each output voxel, the input voxel it copies.
   */
  datatype Regrid = Regrid(frame: Frame, source: seq<nat>)

  predicate RegridFits(g: Regrid, input: Frame)
  {
    && |g.source| == g.frame.shape.Count()
    && forall i :: 0 <= i < |g.source| ==> g.source[i] < input.shape.Count()
  }

  /** Applies a voxel-copying regridding to a volume of any pixel type. */
  function Gather<T>(v: Volume<T>, g: Regrid): (r: Volume<T>)
    requires v.Valid() && RegridFits(g, v.frame)
    ensures r.Valid() && r.frame == g.frame
    ensures forall i :: 0 <= i < |r.voxels| ==> r.voxels[i] == v.voxels[g.source[i]]
  {
    Volume(g.frame, seq(|g.source|, i requires 0 <= i < |g.source| => v.voxels[g.source[i]]))
  }

  /**
   * A segmentation file as the nrrd reader returns it: a stack of label
   * layers on one grid, the header's items in order (each value in its
   * textual form), and the typed geometry fields. `spaceDirections` holds
   * the three spatial axis vectors of the "space directions" field (rows 1-3),
   * one per column.
   */
  datatype NrrdFile = NrrdFile(
    shape: Shape,
    layers: seq<seq<int>>,
    header: seq<(string, string)>,
    spaceDirections: Mat3,
    spaceOrigin: Vec3)

  predicate NrrdWellFormed(f: NrrdFile)
  {
    forall l :: 0 <= l < |f.layers| ==> |f.layers[l]| == f.shape.Count()
  }

  /** Every value lies in [0, hi]. */
  predicate Bounded(s: seq<real>, hi: real)
  {
    forall i :: 0 <= i < |s| ==> 0.0 <= s[i] <= hi
  }

  /** `norm` is the Euclidean norm: non-negative, and its square is the dot product. */
  ghost predicate IsNorm(norm: Vec3 -> real)
  {
    forall v :: norm(v) >= 0.0 && Square(norm(v)) == Dot(v, v)
  }

  datatype Toolkit = Toolkit(
    read: string -> Image,                          // image_read
    readNrrd: string -> NrrdFile,                   // nrrd.read
    apply: (Transform, Image, Frame) -> seq<real>,  // transform.apply_to_image(image, reference), linear interpolation
    resample: (Image, Frame) -> seq<real>,          // resample_image_to_target(image, target), linear interpolation
    resampleGenericLabel: (Image, Frame) -> seq<real>,  // resample_image_to_target(..., interpolation="genericLabel")
    crop: (Frame, LabelMap) -> Regrid,              // crop_image(image, mask): the mask's bounding region
    getMask: Image -> LabelMap,                     // get_mask(image): the mask crop_image uses when it is given none
    reorient: Frame -> Regrid,                      // reorient_image2(image): to RAS orientation
    resampleToSpacing: (Image, Vec3) -> Image,      // resample_image(image, spacing, use_voxels=False)
    pad: (Image, Shape) -> Image,                   // pad_image(image, shape)
    physicalToIndex: (Frame, Vec3) -> Vec3,         // transform_physical_point_to_index (continuous index)
    norm: Vec3 -> real)                             // numpy.linalg.norm of a column
  {
    /**
     * What the pipeline relies on: outputs have as many voxels as the grid
     * they are on, regriddings stay inside their input, the norm is a norm,
     * and linear interpolation (with zero outside the image) never leaves
     * the range [0, hi] of a non-negative input.
     */
    ghost predicate Valid()
    {
      && (forall p :: read(p).Valid())
      && (forall p :: NrrdWellFormed(readNrrd(p)))
      && (forall t, v, f :: |apply(t, v, f)| == f.shape.Count())
      && (forall v, f :: |resample(v, f)| == f.shape.Count())
      && (forall v, f :: |resampleGenericLabel(v, f)| == f.shape.Count())
      && (forall f, m :: RegridFits(crop(f, m), f))
      && (forall f :: RegridFits(reorient(f), f))
      && (forall v, s :: resampleToSpacing(v, s).Valid())
      && (forall v, s :: pad(v, s).Valid())
      && IsNorm(norm)
      && (forall t, v: Image, f, hi :: 0.0 <= hi && Bounded(v.voxels, hi) ==> Bounded(apply(t, v, f), hi))
      && (forall v: Image, f, hi :: 0.0 <= hi && Bounded(v.voxels, hi) ==> Bounded(resample(v, f), hi))
    }
  }

  const EmptyFrame: Frame := Frame(Shape(0, 0, 0), Vec3(1.0, 1.0, 1.0), Mat3(Vec3(1.0, 0.0, 0.0), Vec3(0.0, 1.0, 0.0), Vec3(0.0, 0.0, 1.0)), Origin)

  /**
   * A toolkit that reads every file as an empty image, interpolates to
   * zeros and regrids to an empty grid, around a given norm.
   */
  function ZeroToolkit(norm: Vec3 -> real): Toolkit
  {
    Toolkit(
      p => Volume(EmptyFrame, []),
      p => NrrdFile(Shape(0, 0, 0), [], [], EmptyFrame.direction, Origin),
      (t, v, f: Frame) => seq(f.shape.Count(), i => 0.0),
      (v, f: Frame) => seq(f.shape.Count(), i => 0.0),
      (v, f: Frame) => seq(f.shape.Count(), i => 0.0),
      (f, m) => Regrid(EmptyFrame, []),
      v => Volume(EmptyFrame, []),
      f => Regrid(EmptyFrame, []),
      (v, s) => Volume(EmptyFrame, []),
      (v, s) => Volume(EmptyFrame, []),
      (f, p) => p,
      norm)
  }

  /** `Valid` asks nothing of a toolkit beyond a Euclidean norm: any such norm completes a valid toolkit. */
  lemma ValidIsSatisfiable(norm: Vec3 -> real)
    requires IsNorm(norm)
    ensures ZeroToolkit(norm).Valid()
  {
  }
}
