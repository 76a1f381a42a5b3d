/** The reference quantizers `_quantize` and `_quantize_vectorized`, the
    effective integer zero point, the native affine fake-quantize primitive that the
    forward passes call, and `_permute_to_axis_zero`.

    A per-tensor tensor is a flat `seq<real>` (every operation here is elementwise).
    A per-channel tensor is a `seq<seq<real>>` indexed by channel first: the layout
    that `_permute_to_axis_zero` produces; `x[c]` is the slice of channel c. */
module Quantization {
  import opened Numerics

  // ---------------------------------------------------------------------------
  // _quantize and _quantize_vectorized

  /** One element of `_quantize`: round(x / scale + zp), clamped into
      [qMin, qMax] when `clamp` is set. */
  function QuantizeValue(x: real, scale: real, zp: real, qMin: int, qMax: int, clamp: bool): int
    requires scale > 0.0
  {
    var xq := Round(x / scale + zp);
    if clamp then Clamp(xq, qMin, qMax) else xq
  }

  /** `_quantize(x, scale, zp, q_min, q_max, clamp)` on a tensor: with clamp every
      code lies in [qMin, qMax]. */
  function Quantize(x: seq<real>, scale: real, zp: real, qMin: int, qMax: int, clamp: bool): (xq: seq<int>)
    requires scale > 0.0
    ensures |xq| == |x|
    ensures clamp && qMin <= qMax ==> forall i :: 0 <= i < |x| ==> qMin <= xq[i] <= qMax
  {
    seq(|x|, i requires 0 <= i < |x| => QuantizeValue(x[i], scale, zp, qMin, qMax, clamp))
  }

  /** Without clamp every code of `_quantize` is the integer nearest to
      x / scale + zp, a tie going to the even one; no other integer qualifies. */
  lemma UnclampedCodeIsNearest(x: seq<real>, scale: real, zp: real, qMin: int, qMax: int, i: int, n: int)
    requires scale > 0.0 && 0 <= i < |x|
    ensures var v := x[i] / scale + zp;
      Quantize(x, scale, zp, qMin, qMax, false)[i] == n <==>
        -0.5 <= v - n as real <= 0.5 && (v - n as real == 0.5 || v - n as real == -0.5 ==> n % 2 == 0)
  {
  }

  /** `X_q.clamp(q_min, q_max)` on a tensor of integer codes. */
  function ClampCodes(xq: seq<int>, qMin: int, qMax: int): (r: seq<int>)
    ensures |r| == |xq|
    ensures qMin <= qMax ==> forall i :: 0 <= i < |r| ==> qMin <= r[i] <= qMax
  {
    seq(|xq|, i requires 0 <= i < |xq| => Clamp(xq[i], qMin, qMax))
  }

  /** Clamping the unclamped codes afterwards (line 156) gives exactly the codes of
      `_quantize` with clamp on. */
  lemma ClampAfterQuantize(x: seq<real>, scale: real, zp: real, qMin: int, qMax: int)
    requires scale > 0.0
    ensures ClampCodes(Quantize(x, scale, zp, qMin, qMax, false), qMin, qMax)
         == Quantize(x, scale, zp, qMin, qMax, true)
  {
  }

  /** `_quantize_vectorized`: scale and zp are reshaped so that they broadcast along
      the channel axis, then the formula of `_quantize` is applied elementwise. The
      result is `_quantize` applied to each channel slice with that channel's scale
      and zero point. */
  function QuantizeVectorized(x: seq<seq<real>>, scale: seq<real>, zp: seq<real>, qMin: int, qMax: int, clamp: bool)
    : (xq: seq<seq<int>>)
    requires |scale| == |x| && |zp| == |x|
    requires forall c :: 0 <= c < |scale| ==> scale[c] > 0.0
    ensures |xq| == |x|
    ensures forall c :: 0 <= c < |x| ==> xq[c] == Quantize(x[c], scale[c], zp[c], qMin, qMax, clamp)
  {
    seq(|x|, c requires 0 <= c < |x| =>
      seq(|x[c]|, k requires 0 <= k < |x[c]| =>
        var v := Round(x[c][k] / scale[c] + zp[c]);
        if clamp then Clamp(v, qMin, qMax) else v))
  }

  // ---------------------------------------------------------------------------
  // The effective integer zero point

  /** The zero point exactly as lines 141, 152, 177 and 192 compute it:
      int((zp + 0.5).clamp(q_min, q_max)), where int() truncates toward zero. */
  function TruncatedZeroPoint(zp: real, qMin: int, qMax: int): (z: int)
    ensures qMin <= qMax ==> qMin <= z <= qMax
  {
    Trunc(ClampReal(zp + 0.5, qMin as real, qMax as real))
  }

  /** Truncation turns the integral zero point -3 into -2. */
  lemma TruncatedZeroPointShiftsNegativeIntegers()
    ensures TruncatedZeroPoint(-3.0, -128, 127) == -2
  {
  }

  /** The zero point rounded half up and clamped: floor((zp + 0.5).clamp(q_min, q_max)).
      It is the integer nearest to the clamped zp (a tie going up), so an integral
      zero point inside the range is kept as it is. */
  function EffectiveZeroPoint(zp: real, qMin: int, qMax: int): int
  {
    ClampReal(zp + 0.5, qMin as real, qMax as real).Floor
  }

  /** The effective zero point lies in [qMin, qMax] and is the integer nearest to
      the clamped zero point, a tie going up. */
  lemma EffectiveZeroPointIsNearest(zp: real, qMin: int, qMax: int)
    requires qMin <= qMax
    ensures var z := EffectiveZeroPoint(zp, qMin, qMax);
      qMin <= z <= qMax && -0.5 <= ClampReal(zp, qMin as real, qMax as real) - z as real < 0.5
  {
  }

  /** An integral zero point inside the range is its own effective zero point. */
  lemma EffectiveZeroPointKeepsIntegers(n: int, qMin: int, qMax: int)
    requires qMin <= n <= qMax
    ensures EffectiveZeroPoint(n as real, qMin, qMax) == n
  {
  }

  /** Where the clamped value is not negative (always so when qMin >= 0) the code as
      written and the corrected one agree. */
  lemma TruncatedZeroPointAgreesWhenNonNegative(zp: real, qMin: int, qMax: int)
    requires 0 <= qMin <= qMax || ClampReal(zp + 0.5, qMin as real, qMax as real) >= 0.0
    ensures TruncatedZeroPoint(zp, qMin, qMax) == EffectiveZeroPoint(zp, qMin, qMax)
  {
  }

  // ---------------------------------------------------------------------------
  // The native affine fake-quantize primitive

  /** One element of torch.fake_quantize_per_tensor_affine:
      (clamp(round(x / scale + zp), qMin, qMax) - zp) * scale. The result is a point of
      the grid {(q - zp) * scale | qMin <= q <= qMax}. */
  function FakeQuantizeValue(x: real, scale: real, zp: int, qMin: int, qMax: int): (y: real)
    requires scale > 0.0
    ensures qMin <= qMax ==> (qMin - zp) as real * scale <= y <= (qMax - zp) as real * scale
  {
    var q := Clamp(Round(x / scale + zp as real), qMin, qMax);
    assert qMin <= qMax ==> (qMin - zp) as real * scale <= (q - zp) as real * scale by {
      if qMin <= qMax { MulMonotone((qMin - zp) as real, (q - zp) as real, scale); }
    }
    assert qMin <= qMax ==> (q - zp) as real * scale <= (qMax - zp) as real * scale by {
      if qMin <= qMax { MulMonotone((q - zp) as real, (qMax - zp) as real, scale); }
    }
    (q - zp) as real * scale
  }

  lemma MulMonotone(a: real, b: real, s: real)
    requires a <= b && s > 0.0
    ensures a * s <= b * s
  {
  }

  /** torch.fake_quantize_per_tensor_affine: the dequantized codes of `_quantize`
      with clamp on. */
  function FakeQuantizePerTensorAffine(x: seq<real>, scale: real, zp: int, qMin: int, qMax: int): (y: seq<real>)
    requires scale > 0.0
    ensures |y| == |x|
    ensures forall i :: 0 <= i < |x| ==>
      y[i] == (Quantize(x, scale, zp as real, qMin, qMax, true)[i] - zp) as real * scale
    ensures qMin <= qMax ==> forall i :: 0 <= i < |x| ==>
      (qMin - zp) as real * scale <= y[i] <= (qMax - zp) as real * scale
  {
    seq(|x|, i requires 0 <= i < |x| => FakeQuantizeValue(x[i], scale, zp, qMin, qMax))
  }

  /** torch.fake_quantize_per_channel_affine: every channel slice is fake-quantized
      with its own scale and zero point, exactly as the per-tensor primitive would. */
  function FakeQuantizePerChannelAffine(x: seq<seq<real>>, scale: seq<real>, zp: seq<int>, qMin: int, qMax: int)
    : (y: seq<seq<real>>)
    requires |scale| == |x| && |zp| == |x|
    requires forall c :: 0 <= c < |scale| ==> scale[c] > 0.0
    ensures |y| == |x|
    ensures forall c :: 0 <= c < |x| ==> y[c] == FakeQuantizePerTensorAffine(x[c], scale[c], zp[c], qMin, qMax)
  {
    seq(|x|, c requires 0 <= c < |x| =>
      seq(|x[c]|, k requires 0 <= k < |x[c]| => FakeQuantizeValue(x[c][k], scale[c], zp[c], qMin, qMax)))
  }

  /** Quantizing a grid point gives back its code: quantize(dequantize(q)) == q. */
  lemma QuantizeDequantize(q: int, scale: real, zp: int, qMin: int, qMax: int)
    requires scale > 0.0 && qMin <= q <= qMax
    ensures QuantizeValue((q - zp) as real * scale, scale, zp as real, qMin, qMax, true) == q
  {
    assert (q - zp) as real * scale / scale + zp as real == q as real;
    RoundIsUnique(q as real, q);
  }

  /** Fake quantization is idempotent: a fake-quantized value is a grid point and
      stays where it is. */
  lemma FakeQuantizeIdempotent(x: real, scale: real, zp: int, qMin: int, qMax: int)
    requires scale > 0.0 && qMin <= qMax
    ensures FakeQuantizeValue(FakeQuantizeValue(x, scale, zp, qMin, qMax), scale, zp, qMin, qMax)
         == FakeQuantizeValue(x, scale, zp, qMin, qMax)
  {
    var q := Clamp(Round(x / scale + zp as real), qMin, qMax);
    assert FakeQuantizeValue(x, scale, zp, qMin, qMax) == (q - zp) as real * scale;
    FakeQuantizeFixesGridPoints(q, scale, zp, qMin, qMax);
  }

  /** A grid point (q - zp) * scale with q in range is left where it is. */
  lemma FakeQuantizeFixesGridPoints(q: int, scale: real, zp: int, qMin: int, qMax: int)
    requires scale > 0.0 && qMin <= q <= qMax
    ensures FakeQuantizeValue((q - zp) as real * scale, scale, zp, qMin, qMax) == (q - zp) as real * scale
  {
    QuantizeDequantize(q, scale, zp, qMin, qMax);
  }

  /** The same on a whole tensor: fake-quantizing a fake-quantized tensor with the
      same parameters changes nothing. */
  lemma FakeQuantizeTensorIdempotent(x: seq<real>, scale: real, zp: int, qMin: int, qMax: int)
    requires scale > 0.0 && qMin <= qMax
    ensures var y := FakeQuantizePerTensorAffine(x, scale, zp, qMin, qMax);
      FakeQuantizePerTensorAffine(y, scale, zp, qMin, qMax) == y
  {
    var y := FakeQuantizePerTensorAffine(x, scale, zp, qMin, qMax);
    var yy := FakeQuantizePerTensorAffine(y, scale, zp, qMin, qMax);
    forall i | 0 <= i < |x| ensures yy[i] == y[i] {
      FakeQuantizeIdempotent(x[i], scale, zp, qMin, qMax);
    }
  }

  /** Inside the representable range fake quantization moves a value by at most half
      a step. */
  lemma FakeQuantizeError(x: real, scale: real, zp: int, qMin: int, qMax: int)
    requires scale > 0.0
    requires qMin <= Round(x / scale + zp as real) <= qMax
    ensures -scale / 2.0 <= FakeQuantizeValue(x, scale, zp, qMin, qMax) - x <= scale / 2.0
  {
    var q := Round(x / scale + zp as real);
    RoundIsNearest(x / scale + zp as real);
    var e := x / scale + zp as real - q as real;
    assert FakeQuantizeValue(x, scale, zp, qMin, qMax) == (q - zp) as real * scale;
    assert (q - zp) as real * scale - x == -e * scale;
    assert -0.5 * scale <= -e * scale <= 0.5 * scale;
  }

  // ---------------------------------------------------------------------------
  // _permute_to_axis_zero

  /** A dimension index as torch reads it: a negative d counts from the end. */
  function NormalizeDim(d: int, ndim: nat): int
  {
    if d < 0 then d + ndim else d
  }

  /** The axis list of `_permute_to_axis_zero`: list(range(ndim)), then
      list[axis] = 0, then list[0] = axis. Read as torch reads it, it is the identity
      with positions 0 and axis swapped. */
  function PermuteToAxisZero(ndim: nat, axis: int): (dims: seq<int>)
    requires -(ndim as int) <= axis < ndim
    ensures |dims| == ndim
    ensures forall i :: 0 <= i < ndim ==>
      NormalizeDim(dims[i], ndim) ==
        (if i == 0 then NormalizeDim(axis, ndim) else if i == NormalizeDim(axis, ndim) then 0 else i)
  {
    var identity := seq(ndim, i => i);
    var withZero := identity[NormalizeDim(axis, ndim) := 0];
    withZero[0 := axis]
  }

  /** Tensor.permute(dims) on a shape, or on an index tuple: entry i of the result is
      entry dims[i] of the input. */
  function Permute<T>(s: seq<T>, dims: seq<int>): (r: seq<T>)
    requires |dims| == |s|
    requires forall i :: 0 <= i < |dims| ==> 0 <= NormalizeDim(dims[i], |s|) < |s|
    ensures |r| == |s|
  {
    seq(|s|, i requires 0 <= i < |s| => s[NormalizeDim(dims[i], |s|)])
  }

  /** Permuting with the list of `_permute_to_axis_zero` moves the channel axis to the
      front, and permuting again with the same list restores the original order:
      this is why line 64 permutes back with the list that line 60 produced. */
  lemma PermuteToAxisZeroIsInvolution<T>(s: seq<T>, axis: int)
    requires -|s| <= axis < |s|
    ensures
      var dims := PermuteToAxisZero(|s|, axis);
      (forall i :: 0 <= i < |dims| ==> 0 <= NormalizeDim(dims[i], |s|) < |s|) &&
      Permute(s, dims)[0] == s[NormalizeDim(axis, |s|)] &&
      Permute(Permute(s, dims), dims) == s
  {
    var dims := PermuteToAxisZero(|s|, axis);
    var p := Permute(s, dims);
    var pp := Permute(p, dims);
    forall i | 0 <= i < |s| ensures pp[i] == s[i] {
      var j := NormalizeDim(dims[i], |s|);
      assert pp[i] == p[j];
      assert NormalizeDim(dims[j], |s|) == i;
    }
  }
}
