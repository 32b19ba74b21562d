/** The intensity normalizer of normalize_nifti.py: a NIfTI volume's voxel
    values are mapped linearly so that the volume's minimum becomes -32767
    and its maximum 32767, and the result is stored as signed 16-bit with the
    input's affine and header.

    Voxel values are exact `real`s: floating-point rounding and the final
    conversion to int16 are not modelled. The voxel grid is kept flat, in
    an array, beside its shape. */
module NormalizeNifti {

  /** The voxel type a NIfTI header records for the data on disk. */
  datatype VoxelType = Int16 | Float32 | Float64 | OtherType(code: int)

  /** A NIfTI header: the stored voxel type and the remaining fields. */
  datatype NiftiHeader = NiftiHeader(dataType: VoxelType, fields: map<string, string>)

  /** The 4x4 voxel-to-world transform, row by row. */
  type Affine = seq<seq<real>>

  /** A loaded NIfTI image: its voxel data as floating values (what
      `get_fdata()` yields), the grid shape, the affine and the header. */
  datatype NiftiImage = NiftiImage(data: array<real>, shape: seq<nat>, affine: Affine, header: NiftiHeader)

  /** `np.max` over the voxels. */
  function SeqMax(s: seq<real>): (m: real)
    requires |s| > 0
    ensures forall i :: 0 <= i < |s| ==> s[i] <= m
    ensures m in s
    decreases |s|
  {
    if |s| == 1 then s[0]
    else
      var rest := SeqMax(s[1..]);
      if s[0] >= rest then s[0] else rest
  }

  /** `np.min` over the voxels. */
  function SeqMin(s: seq<real>): (m: real)
    requires |s| > 0
    ensures forall i :: 0 <= i < |s| ==> m <= s[i]
    ensures m in s
    decreases |s|
  {
    if |s| == 1 then s[0]
    else
      var rest := SeqMin(s[1..]);
      if s[0] <= rest then s[0] else rest
  }

  /** `minmax_nifti`: the pair (min, max) of the voxel values. Both bound
      every voxel and both are the value of some voxel. */
  function MinMaxNifti(voxels: seq<real>): (r: (real, real))
    requires |voxels| > 0
    ensures r.0 <= r.1
    ensures forall i :: 0 <= i < |voxels| ==> r.0 <= voxels[i] <= r.1
    ensures r.0 in voxels && r.1 in voxels
  {
    (SeqMin(voxels), SeqMax(voxels))
  }

  /** The scale `a = 65534 / (max - min)`: positive, and it stretches the
      input range to a width of exactly 65534. */
  function Scale(lo: real, hi: real): (a: real)
    requires lo < hi
    ensures a > 0.0
    ensures a * (hi - lo) == 65534.0
  {
    65534.0 / (hi - lo)
  }

  /** The offset `b = 32767 - a * max`. */
  function Offset(lo: real, hi: real): (b: real)
    requires lo < hi
    ensures hi * Scale(lo, hi) + b == 32767.0
    ensures lo * Scale(lo, hi) + b == -32767.0
  {
    32767.0 - Scale(lo, hi) * hi
  }

  /** One voxel after the rescale for a volume whose range is [lo, hi]:
      multiplied by the scale, then shifted by the offset. */
  function Rescale(x: real, lo: real, hi: real): (y: real)
    requires lo < hi
    ensures y + 32767.0 == (x - lo) * Scale(lo, hi)
  {
    x * Scale(lo, hi) + Offset(lo, hi)
  }

  /** The maximum maps to 32767 and the minimum to 32767 - 65534 = -32767. */
  lemma RescaleEndpoints(lo: real, hi: real)
    requires lo < hi
    ensures Rescale(hi, lo, hi) == 32767.0
    ensures Rescale(lo, lo, hi) == -32767.0
  {
    var a := Scale(lo, hi);
    assert lo * a - hi * a == -(a * (hi - lo));
  }

  /** A volume is degenerate when all its voxels are equal, so max == min. */
  predicate NonConstant(voxels: seq<real>)
  {
    |voxels| > 0 && SeqMin(voxels) < SeqMax(voxels)
  }

  /** Every voxel multiplied by `a`, then shifted by `b`. */
  function AffineMap(s: seq<real>, a: real, b: real): (r: seq<real>)
    ensures |r| == |s|
    ensures forall i :: 0 <= i < |s| ==> r[i] == s[i] * a + b
  {
    seq(|s|, i requires 0 <= i < |s| => s[i] * a + b)
  }

  /** The affine map with the scale and offset of the range [lo, hi] sends
      every value through `Rescale`. */
  lemma AffineMapRescales(s: seq<real>, lo: real, hi: real)
    requires lo < hi
    ensures forall i :: 0 <= i < |s| ==> AffineMap(s, Scale(lo, hi), Offset(lo, hi))[i] == Rescale(s[i], lo, hi)
  {
  }

  /** The voxel values `normalize_nifti` writes for the voxels `s`: the
      affine map with the volume's own scale and offset, which rescales
      each voxel against the volume's range. */
  function Normalized(s: seq<real>): (r: seq<real>)
    requires NonConstant(s)
    ensures |r| == |s|
    ensures forall i :: 0 <= i < |s| ==> r[i] == Rescale(s[i], SeqMin(s), SeqMax(s))
  {
    var lo, hi := SeqMin(s), SeqMax(s);
    AffineMapRescales(s, lo, hi);
    AffineMap(s, Scale(lo, hi), Offset(lo, hi))
  }

  /** `normalize_nifti` without the file write: a new image whose voxels are
      a rescaled copy of the input's, with the input's shape and affine and
      its header retagged for int16 storage. The input is left as it was. */
  method Normalize(img: NiftiImage) returns (out: NiftiImage)
    requires NonConstant(img.data[..])
    ensures fresh(out.data)
    ensures img.data[..] == old(img.data[..])
    ensures out.data[..] == Normalized(img.data[..])
    ensures out.shape == img.shape && out.affine == img.affine
    ensures out.header == img.header.(dataType := Int16)
  {
    var range := MinMaxNifti(img.data[..]);
    var a := Scale(range.0, range.1);
    var b := Offset(range.0, range.1);
    var voxels := ScaledCopy(img.data, a, b);
    out := NiftiImage(voxels, img.shape, img.affine, img.header.(dataType := Int16));
  }

  /** The copy, `*= a` and `+= b` steps of `normalize_nifti`: copy the
      voxels, multiply the copy by `a` in place, then add `b` in place. */
  method ScaledCopy(src: array<real>, a: real, b: real) returns (dst: array<real>)
    ensures fresh(dst)
    ensures dst[..] == AffineMap(src[..], a, b)
  {
    dst := CopyVoxels(src);
    MultiplyInPlace(dst, a);
    AddInPlace(dst, b);
    assert forall i :: 0 <= i < dst.Length ==> dst[..][i] == AffineMap(src[..], a, b)[i];
  }

  /** `array.copy()`: a fresh array with the same values. */
  method CopyVoxels(src: array<real>) returns (dst: array<real>)
    ensures fresh(dst)
    ensures dst[..] == src[..]
  {
    dst := new real[src.Length];
    for i := 0 to src.Length
      invariant forall j :: 0 <= j < i ==> dst[j] == src[j]
    {
      dst[i] := src[i];
    }
  }

  /** `voxels *= a`. */
  method MultiplyInPlace(voxels: array<real>, a: real)
    modifies voxels
    ensures forall i :: 0 <= i < voxels.Length ==> voxels[i] == old(voxels[i]) * a
  {
    for i := 0 to voxels.Length
      invariant forall j :: 0 <= j < i ==> voxels[j] == old(voxels[j]) * a
      invariant forall j :: i <= j < voxels.Length ==> voxels[j] == old(voxels[j])
    {
      voxels[i] := voxels[i] * a;
    }
  }

  /** `voxels += b`. */
  method AddInPlace(voxels: array<real>, b: real)
    modifies voxels
    ensures forall i :: 0 <= i < voxels.Length ==> voxels[i] == old(voxels[i]) + b
  {
    for i := 0 to voxels.Length
      invariant forall j :: 0 <= j < i ==> voxels[j] == old(voxels[j]) + b
      invariant forall j :: i <= j < voxels.Length ==> voxels[j] == old(voxels[j])
    {
      voxels[i] := voxels[i] + b;
    }
  }

  /** The rescale is strictly increasing, so it keeps the voxels' order. */
  lemma RescaleStrictlyIncreasing(x: real, y: real, lo: real, hi: real)
    requires lo < hi
    ensures x < y <==> Rescale(x, lo, hi) < Rescale(y, lo, hi)
  {
    var a, b := Scale(lo, hi), Offset(lo, hi);
    assert Rescale(x, lo, hi) == x * a + b && Rescale(y, lo, hi) == y * a + b;
    AffineIncreasing(x, y, a, b);
  }

  /** Multiplying by a positive `a` and adding `b` keeps strict order. */
  lemma AffineIncreasing(x: real, y: real, a: real, b: real)
    requires a > 0.0
    ensures x < y <==> x * a + b < y * a + b
  {
    assert (y * a + b) - (x * a + b) == (y - x) * a;
    if x < y {
      assert (y - x) * a > 0.0;
    } else {
      assert (x - y) * a >= 0.0;
      assert (y - x) * a == -((x - y) * a);
    }
  }

  /** Values inside [lo, hi] land inside [-32767, 32767], which int16 can
      hold. */
  lemma RescaleInRange(x: real, lo: real, hi: real)
    requires lo < hi
    requires lo <= x <= hi
    ensures -32767.0 <= Rescale(x, lo, hi) <= 32767.0
  {
    var a := Scale(lo, hi);
    RescaleEndpoints(lo, hi);
    assert Rescale(x, lo, hi) - Rescale(lo, lo, hi) == (x - lo) * a;
    assert Rescale(hi, lo, hi) - Rescale(x, lo, hi) == (hi - x) * a;
    assert (x - lo) * a >= 0.0;
    assert (hi - x) * a >= 0.0;
  }

  /** The middle of the input range maps to zero. */
  lemma RescaleMidpoint(lo: real, hi: real)
    requires lo < hi
    ensures Rescale((lo + hi) / 2.0, lo, hi) == 0.0
  {
    var a := Scale(lo, hi);
    RescaleEndpoints(lo, hi);
    assert (lo + hi) / 2.0 * a == (lo * a + hi * a) / 2.0;
  }

  /** Every normalized voxel lies in [-32767, 32767], and voxels keep their
      relative order, ties included. */
  lemma NormalizedInRangeAndOrdered(s: seq<real>, i: nat, j: nat)
    requires NonConstant(s)
    requires i < |s| && j < |s|
    ensures -32767.0 <= Normalized(s)[i] <= 32767.0
    ensures s[i] < s[j] <==> Normalized(s)[i] < Normalized(s)[j]
    ensures s[i] == s[j] <==> Normalized(s)[i] == Normalized(s)[j]
  {
    var lo, hi := SeqMin(s), SeqMax(s);
    RescaleInRange(s[i], lo, hi);
    RescaleStrictlyIncreasing(s[i], s[j], lo, hi);
    RescaleStrictlyIncreasing(s[j], s[i], lo, hi);
  }

  /** The normalized volume's minimum is exactly -32767 and its maximum
      exactly 32767. */
  lemma NormalizedExtrema(s: seq<real>)
    requires NonConstant(s)
    ensures MinMaxNifti(Normalized(s)) == (-32767.0, 32767.0)
  {
    NormalizedMax(s);
    NormalizedMin(s);
  }

  lemma NormalizedMax(s: seq<real>)
    requires NonConstant(s)
    ensures SeqMax(Normalized(s)) == 32767.0
  {
    var out := Normalized(s);
    var lo, hi := SeqMin(s), SeqMax(s);
    var i :| 0 <= i < |s| && s[i] == hi;
    RescaleEndpoints(lo, hi);
    assert out[i] == Rescale(hi, lo, hi) == 32767.0;
    var k :| 0 <= k < |out| && out[k] == SeqMax(out);
    assert out[k] == Rescale(s[k], lo, hi);
    RescaleInRange(s[k], lo, hi);
  }

  lemma NormalizedMin(s: seq<real>)
    requires NonConstant(s)
    ensures SeqMin(Normalized(s)) == -32767.0
  {
    var out := Normalized(s);
    var lo, hi := SeqMin(s), SeqMax(s);
    var i :| 0 <= i < |s| && s[i] == lo;
    RescaleEndpoints(lo, hi);
    assert out[i] == Rescale(lo, lo, hi) == -32767.0;
    var k :| 0 <= k < |out| && out[k] == SeqMin(out);
    assert out[k] == Rescale(s[k], lo, hi);
    RescaleInRange(s[k], lo, hi);
  }
}
