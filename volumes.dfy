/**
 * Voxel volumes and their spatial frames, plus the element-wise arithmetic
 * the pipeline applies to them. A volume's voxels are flattened in C order
 * (the first axis varies slowest), as numpy lays out a 3-D array.
 */
module Volumes {

  const U32_LIMIT: int := 0x1_0000_0000

  /** A value of the unsigned 32-bit pixel type used for labels and masks. */
  type U32 = x: int | 0 <= x < U32_LIMIT

  datatype Vec3 = Vec3(x: real, y: real, z: real)

  /** A 3x3 matrix stored by its columns. */
  datatype Mat3 = Mat3(c0: Vec3, c1: Vec3, c2: Vec3)

  datatype Shape = Shape(nx: nat, ny: nat, nz: nat) {
    /** Number of voxels. */
    function Count(): nat { nx * ny * nz }
    /** Number of voxels that share one value of the first index. */
    function Slab(): nat { ny * nz }
  }

  /** Spatial metadata of a volume: grid shape, voxel spacing, direction cosines, origin. */
  datatype Frame = Frame(shape: Shape, spacing: Vec3, direction: Mat3, origin: Vec3)

  datatype Volume<T> = Volume(frame: Frame, voxels: seq<T>) {
    predicate Valid() { |voxels| == frame.shape.Count() }
  }

  /** A continuous-intensity volume (float pixels). */
  type Image = Volume<real>

  /** A categorical volume (uint32 pixels). */
  type LabelMap = Volume<U32>

  /**
   * A subject field that holds either the path of a file or the volume read
   * from it; `NoPath` is Python's `None`.
   */
  datatype Slot<T> = Path(path: string) | NoPath | Loaded(value: T) {
    predicate Unloaded() { !Loaded? }
  }

  function Dot(a: Vec3, b: Vec3): real { a.x * b.x + a.y * b.y + a.z * b.z }

  function Scale(k: real, v: Vec3): Vec3 { Vec3(k * v.x, k * v.y, k * v.z) }

  function Square(r: real): real { r * r }

  const Origin: Vec3 := Vec3(0.0, 0.0, 0.0)

  lemma SquareOfPositive(m: real)
    requires m > 0.0
    ensures Square(m) > 0.0
  {
    calc {
      Square(m);
      m * m;
    >
      0.0 * m;
    }
  }

  /** Only zero squares to zero. */
  lemma SquarePositive(n: real)
    requires n != 0.0
    ensures Square(n) > 0.0
  {
    if n > 0.0 {
      SquareOfPositive(n);
    } else {
      SquareOfPositive(-n);
      assert Square(-n) == Square(n);
    }
  }

  /** The dot product of a vector with itself vanishes only at the origin. */
  lemma DotSelfZero(v: Vec3)
    ensures Dot(v, v) >= 0.0
    ensures Dot(v, v) == 0.0 <==> v == Origin
  {
    assert Dot(v, v) == Square(v.x) + Square(v.y) + Square(v.z);
    if v.x != 0.0 { SquarePositive(v.x); }
    if v.y != 0.0 { SquarePositive(v.y); }
    if v.z != 0.0 { SquarePositive(v.z); }
  }

  function Product(v: Vec3): real { v.x * v.y * v.z }

  function Column(m: Mat3, j: nat): Vec3
    requires j < 3
  {
    if j == 0 then m.c0 else if j == 1 then m.c1 else m.c2
  }

  function Coord(v: Vec3, j: nat): real
    requires j < 3
  {
    if j == 0 then v.x else if j == 1 then v.y else v.z
  }

  // ---------------------------------------------------------------- rounding

  /**
   * numpy's `round` (and Python's `round`): to the nearest integer, ties to
   * the even neighbour.
   */
  function RoundHalfEven(x: real): (r: int)
    ensures r as real - 0.5 <= x <= r as real + 0.5
    ensures (x == r as real - 0.5 || x == r as real + 0.5) ==> r % 2 == 0
  {
    var f := x.Floor;
    var d := x - f as real;
    if d < 0.5 then f
    else if d > 0.5 then f + 1
    else if f % 2 == 0 then f else f + 1
  }

  /** Conversion of a float to an integer type: the fraction is dropped (toward zero). */
  function Truncate(x: real): (r: int)
    ensures 0.0 <= x ==> 0 <= r && r as real <= x < r as real + 1.0
    ensures x < 0.0 ==> r <= 0 && r as real - 1.0 < x <= r as real
  {
    if x >= 0.0 then x.Floor else -((-x).Floor)
  }

  /** Storing an integer in a uint32 pixel: wrap-around modulo 2^32. */
  function CastU32(n: int): (r: U32)
    ensures 0 <= n < U32_LIMIT ==> r == n
    ensures (n - r) % U32_LIMIT == 0
  {
    n % U32_LIMIT
  }

  lemma RoundOfInteger(n: int)
    ensures RoundHalfEven(n as real) == n
  {
  }

  /** Rounding never leaves an interval whose ends are integers. */
  lemma RoundWithin(x: real, lo: int, hi: int)
    requires lo as real <= x <= hi as real
    ensures lo <= RoundHalfEven(x) <= hi
  {
  }

  lemma RoundMonotone(x: real, y: real)
    requires x <= y
    ensures RoundHalfEven(x) <= RoundHalfEven(y)
  {
  }

  // ---------------------------------------------------------- voxel-wise maps

  /** `image.astype("float32")` on a label map (exact for the values used). */
  function ToReal(v: LabelMap): (r: Image)
    ensures r.frame == v.frame && |r.voxels| == |v.voxels|
    ensures forall i :: 0 <= i < |v.voxels| ==> r.voxels[i] == v.voxels[i] as real
  {
    Volume(v.frame, seq(|v.voxels|, i requires 0 <= i < |v.voxels| => v.voxels[i] as real))
  }

  /** `image.astype("uint32")`: truncate each voxel, then store it in 32 bits. */
  function AsU32(v: Image): (r: LabelMap)
    ensures r.frame == v.frame && |r.voxels| == |v.voxels|
    ensures forall i :: 0 <= i < |v.voxels| ==> r.voxels[i] == CastU32(Truncate(v.voxels[i]))
  {
    Volume(v.frame, seq(|v.voxels|, i requires 0 <= i < |v.voxels| => CastU32(Truncate(v.voxels[i]))))
  }

  lemma AsU32OfToReal(v: LabelMap)
    ensures AsU32(ToReal(v)) == v
  {
    forall i | 0 <= i < |v.voxels|
      ensures AsU32(ToReal(v)).voxels[i] == v.voxels[i]
    {
      RoundOfInteger(v.voxels[i]);
    }
  }

  /** Indicator of the non-zero voxels: `(x != 0).astype("uint32")`. */
  function NonZero(s: seq<real>): (r: seq<U32>)
    ensures |r| == |s|
    ensures forall i :: 0 <= i < |s| ==> (r[i] == 1 <==> s[i] != 0.0) && (r[i] == 0 <==> s[i] == 0.0)
  {
    seq(|s|, i requires 0 <= i < |s| => if s[i] != 0.0 then 1 else 0)
  }

  /**
   * Masking by a brain mask, as the toolkit's `mask_image` does with its
   * default level 1: a voxel keeps its value where the mask is 1 and becomes
   * `zero` everywhere else.
   */
  function KeepWhere<T>(s: seq<T>, mask: seq<U32>, zero: T): (r: seq<T>)
    requires |s| == |mask|
    ensures |r| == |s|
  {
    seq(|s|, i requires 0 <= i < |s| => if mask[i] == 1 then s[i] else zero)
  }

  lemma KeepWhereAt<T>(s: seq<T>, mask: seq<U32>, zero: T, i: nat)
    requires |s| == |mask| && i < |s|
    ensures mask[i] == 1 ==> KeepWhere(s, mask, zero)[i] == s[i]
    ensures mask[i] != 1 ==> KeepWhere(s, mask, zero)[i] == zero
  {
  }

  /** Masking twice by the same mask is masking once. */
  lemma KeepWhereIdempotent<T>(s: seq<T>, mask: seq<U32>, zero: T)
    requires |s| == |mask|
    ensures KeepWhere(KeepWhere(s, mask, zero), mask, zero) == KeepWhere(s, mask, zero)
  {
  }

  /** Indices of the non-zero entries. */
  function Support(s: seq<int>): set<nat>
  {
    set i: nat | i < |s| && s[i] != 0
  }

  // -------------------------------------------------------------------- sums

  /** Sum of a sequence, accumulated from the front as a loop would. */
  function Sum(s: seq<int>): int
  {
    if |s| == 0 then 0 else Sum(s[..|s| - 1]) + s[|s| - 1]
  }

  /** numpy's `count_nonzero`. */
  function CountNonZero(s: seq<int>): nat
  {
    if |s| == 0 then 0 else CountNonZero(s[..|s| - 1]) + (if s[|s| - 1] != 0 then 1 else 0)
  }

  lemma {:induction false} SumAppend(s: seq<int>, t: seq<int>)
    ensures Sum(s + t) == Sum(s) + Sum(t)
  {
    if |t| == 0 {
      assert s + t == s;
    } else {
      assert (s + t)[..|s + t| - 1] == s + t[..|t| - 1];
      SumAppend(s, t[..|t| - 1]);
    }
  }

  lemma {:induction false} SumNonNegative(s: seq<int>)
    requires forall i :: 0 <= i < |s| ==> s[i] >= 0
    ensures Sum(s) >= 0
  {
    if |s| > 0 { SumNonNegative(s[..|s| - 1]); }
  }

  /** For a 0/1 mask the sum is the number of set voxels. */
  lemma {:induction false} SumOfBinary(s: seq<int>)
    requires forall i :: 0 <= i < |s| ==> s[i] == 0 || s[i] == 1
    ensures Sum(s) == CountNonZero(s) == |Support(s)|
  {
    if |s| > 0 {
      var p := s[..|s| - 1];
      SumOfBinary(p);
      assert Support(s) == Support(p) + (if s[|s| - 1] != 0 then {|s| - 1} else {});
    } else {
      assert Support(s) == {};
    }
  }

  /** The number of non-zero entries is the size of the support. */
  lemma {:induction false} CountNonZeroIsSupport(s: seq<int>)
    ensures CountNonZero(s) == |Support(s)|
  {
    if |s| > 0 {
      var p := s[..|s| - 1];
      CountNonZeroIsSupport(p);
      assert Support(s) == Support(p) + (if s[|s| - 1] != 0 then {|s| - 1} else {});
    } else {
      assert Support(s) == {};
    }
  }
}
