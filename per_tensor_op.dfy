/** `_LearnableFakeQuantizePerTensorOp`: one scale and one zero point for the whole
    tensor. The autograd context is an explicit value: `Forward` returns what
    `ctx.save_for_backward` and `ctx.other` keep, and `Backward` consumes it. */
module PerTensorOp {
  import opened Numerics
  import opened Quantization
  import opened Gradients

  /** What forward keeps for backward: X, scale and the zero point before rounding
      (line 139), and q_min, q_max, X_fq and grad_factor (line 144). */
  datatype Saved = Saved(x: seq<real>, scale: real, zeroPoint: real, qMin: int, qMax: int,
                         xfq: seq<real>, gradFactor: real)

  predicate WellFormed(s: Saved)
  {
    s.scale > 0.0 && |s.xfq| == |s.x|
  }

  /** The gradients backward returns for X, scale and zero_point; dScale and
      dZeroPoint stand for the one-element tensors `.sum().unsqueeze(0)` makes. */
  datatype Grads = Grads(dX: seq<real>, dScale: real, dZeroPoint: real)

  /** The unclamped codes backward recomputes (lines 152-153). */
  function Codes(s: Saved): (xq: seq<int>)
    requires s.scale > 0.0
  {
    Quantize(s.x, s.scale, EffectiveZeroPoint(s.zeroPoint, s.qMin, s.qMax) as real, s.qMin, s.qMax, false)
  }

  /** forward: the effective integer zero point, then the native per-tensor
      fake-quantize. The output saved.xfq holds the dequantized clamped codes of the
      reference quantizer; the zero point is saved before rounding. */
  function Forward(x: seq<real>, scale: real, zeroPoint: real, qMin: int, qMax: int, gradFactor: real)
    : (saved: Saved)
    requires scale > 0.0
    ensures WellFormed(saved)
    ensures saved.x == x && saved.scale == scale && saved.zeroPoint == zeroPoint
    ensures saved.qMin == qMin && saved.qMax == qMax && saved.gradFactor == gradFactor
    ensures var z := EffectiveZeroPoint(zeroPoint, qMin, qMax);
      forall i :: 0 <= i < |x| ==>
        saved.xfq[i] == (Quantize(x, scale, z as real, qMin, qMax, true)[i] - z) as real * scale
  {
    var z := EffectiveZeroPoint(zeroPoint, qMin, qMax);
    Saved(x, scale, zeroPoint, qMin, qMax, FakeQuantizePerTensorAffine(x, scale, z, qMin, qMax), gradFactor)
  }

  /** The output of forward lies on the grid between (qMin - z) * scale and
      (qMax - z) * scale, z the effective zero point. */
  lemma ForwardStaysInRange(x: seq<real>, scale: real, zeroPoint: real, qMin: int, qMax: int, gradFactor: real)
    requires scale > 0.0 && qMin <= qMax
    ensures var z := EffectiveZeroPoint(zeroPoint, qMin, qMax);
      var xfq := Forward(x, scale, zeroPoint, qMin, qMax, gradFactor).xfq;
      forall i :: 0 <= i < |x| ==> (qMin - z) as real * scale <= xfq[i] <= (qMax - z) as real * scale
  {
  }

  /** forward's output as line 141 is written: the int64 cast truncates the
      clamped zp + 0.5 toward zero instead of flooring it. */
  function ForwardAsWritten(x: seq<real>, scale: real, zeroPoint: real, qMin: int, qMax: int): (xfq: seq<real>)
    requires scale > 0.0
    ensures |xfq| == |x|
  {
    FakeQuantizePerTensorAffine(x, scale, TruncatedZeroPoint(zeroPoint, qMin, qMax), qMin, qMax)
  }

  /** With qMin >= 0 the forward as written and the corrected forward agree. */
  lemma ForwardAsWrittenAgreesWhenNonNegative(x: seq<real>, scale: real, zeroPoint: real, qMin: int, qMax: int,
                                              gradFactor: real)
    requires scale > 0.0 && 0 <= qMin <= qMax
    ensures ForwardAsWritten(x, scale, zeroPoint, qMin, qMax) == Forward(x, scale, zeroPoint, qMin, qMax, gradFactor).xfq
  {
  }

  /** With the signed 8-bit range, an integral zero point -3 and scale 1, the forward
      as written maps 130 to 129 where the native op with zero point -3, and the
      corrected forward, give 130. */
  lemma ForwardAsWrittenShiftsOutput()
    ensures ForwardAsWritten([130.0], 1.0, -3.0, -128, 127) == [129.0]
    ensures Forward([130.0], 1.0, -3.0, -128, 127, 1.0).xfq == FakeQuantizePerTensorAffine([130.0], 1.0, -3, -128, 127)
    ensures FakeQuantizePerTensorAffine([130.0], 1.0, -3, -128, 127) == [130.0]
  {
  }

  /** `_calculate_scale_grad(...).sum()` for the unclamped codes xq: the masked
      input gradient and the clamped codes feed the elementwise scale gradient. */
  function ScaleGradSum(dY: seq<real>, x: seq<real>, xfq: seq<real>, xq: seq<int>, scale: real, z: int,
                        qMin: int, qMax: int): real
    requires |x| == |dY| && |xfq| == |dY| && |xq| == |dY| && scale > 0.0
  {
    Sum(ScaleGrads(MaskedGrad(dY, xq, qMin, qMax), x, xfq, ClampCodes(xq, qMin, qMax), scale, z, qMin, qMax))
  }

  /** `_calculate_zero_point_grad(...).sum()` for the unclamped codes xq. */
  function ZeroPointGradSum(dY: seq<real>, xq: seq<int>, scale: real, qMin: int, qMax: int): real
    requires |xq| == |dY|
  {
    Sum(ZeroPointGrads(MaskedGrad(dY, xq, qMin, qMax), ClampCodes(xq, qMin, qMax), scale, qMin, qMax))
  }

  /** The value backward computes, as one expression. */
  function BackwardResult(s: Saved, dY: seq<real>): (g: Grads)
    requires WellFormed(s) && |dY| == |s.x|
    ensures |g.dX| == |dY|
  {
    var z := EffectiveZeroPoint(s.zeroPoint, s.qMin, s.qMax);
    var xq := Codes(s);
    Grads(MaskedGrad(dY, xq, s.qMin, s.qMax),
          ScaleGradSum(dY, s.x, s.xfq, xq, s.scale, z, s.qMin, s.qMax) * s.gradFactor,
          ZeroPointGradSum(dY, xq, s.scale, s.qMin, s.qMax) * s.gradFactor)
  }

  /** backward, step by step: the masked input gradient from the unclamped codes,
      the codes clamped, then the scale and zero-point gradients. */
  method Backward(s: Saved, dY: seq<real>) returns (g: Grads)
    requires WellFormed(s) && |dY| == |s.x|
    ensures g == BackwardResult(s, dY)
  {
    var zeroPoint := EffectiveZeroPoint(s.zeroPoint, s.qMin, s.qMax);
    var xq := Quantize(s.x, s.scale, zeroPoint as real, s.qMin, s.qMax, false);
    var gradX := XGradPerTensor(dY, xq, s.qMin, s.qMax);
    xq := ClampCodes(xq, s.qMin, s.qMax);
    var gradScale := ReduceScaleGradient(s, dY, zeroPoint, gradX, xq);
    var gradZeroPoint := ReduceZeroPointGradient(s, dY, gradX, xq);
    g := Grads(gradX, gradScale, gradZeroPoint);
  }

  /** `_calculate_scale_grad(...).sum().unsqueeze(0)` then `grad_scale *=
      grad_factor`, the one-element tensor held as its one value. */
  method ReduceScaleGradient(s: Saved, dY: seq<real>, zeroPoint: int, gradX: seq<real>, clamped: seq<int>)
    returns (gradScale: real)
    requires WellFormed(s) && |dY| == |s.x|
    requires zeroPoint == EffectiveZeroPoint(s.zeroPoint, s.qMin, s.qMax)
    requires gradX == MaskedGrad(dY, Codes(s), s.qMin, s.qMax) && clamped == ClampCodes(Codes(s), s.qMin, s.qMax)
    ensures gradScale == BackwardResult(s, dY).dScale
  {
    ghost var expected := BackwardResult(s, dY);
    assert expected.dScale == ScaleGradSum(dY, s.x, s.xfq, Codes(s), s.scale, zeroPoint, s.qMin, s.qMax) * s.gradFactor;
    assert |gradX| == |dY| && |clamped| == |dY|;
    gradScale := Sum(ScaleGrads(gradX, s.x, s.xfq, clamped, s.scale, zeroPoint, s.qMin, s.qMax));
    gradScale := gradScale * s.gradFactor;
  }

  /** `_calculate_zero_point_grad(...).sum().unsqueeze(0)` then `grad_zp *=
      grad_factor`, the one-element tensor held as its one value. */
  method ReduceZeroPointGradient(s: Saved, dY: seq<real>, gradX: seq<real>, clamped: seq<int>)
    returns (gradZeroPoint: real)
    requires WellFormed(s) && |dY| == |s.x|
    requires gradX == MaskedGrad(dY, Codes(s), s.qMin, s.qMax) && clamped == ClampCodes(Codes(s), s.qMin, s.qMax)
    ensures gradZeroPoint == BackwardResult(s, dY).dZeroPoint
  {
    ghost var expected := BackwardResult(s, dY);
    assert expected.dZeroPoint == ZeroPointGradSum(dY, Codes(s), s.scale, s.qMin, s.qMax) * s.gradFactor;
    assert |gradX| == |dY| && |clamped| == |dY|;
    gradZeroPoint := Sum(ZeroPointGrads(gradX, clamped, s.scale, s.qMin, s.qMax));
    gradZeroPoint := gradZeroPoint * s.gradFactor;
  }

  /** The scale gradient of backward is the summed elementwise scale gradient times
      grad_factor. */
  lemma BackwardScaleIsSum(s: Saved, dY: seq<real>)
    requires WellFormed(s) && |dY| == |s.x|
    ensures BackwardResult(s, dY).dScale
         == ScaleGradSum(dY, s.x, s.xfq, Codes(s), s.scale, EffectiveZeroPoint(s.zeroPoint, s.qMin, s.qMax),
                         s.qMin, s.qMax) * s.gradFactor
  {
  }

  /** The zero-point gradient of backward is the summed elementwise zero-point
      gradient times grad_factor. */
  lemma BackwardZeroPointIsSum(s: Saved, dY: seq<real>)
    requires WellFormed(s) && |dY| == |s.x|
    ensures BackwardResult(s, dY).dZeroPoint == ZeroPointGradSum(dY, Codes(s), s.scale, s.qMin, s.qMax) * s.gradFactor
  {
  }

  // ---------------------------------------------------------------------------
  // Properties of backward

  /** The input gradient has the shape of dY, equals dY exactly where the UNCLAMPED
      code lies in [qMin, qMax] (an element exactly at a boundary passes its
      gradient) and is 0 elsewhere. */
  lemma InputGradientIsMasked(s: Saved, dY: seq<real>)
    requires WellFormed(s) && |dY| == |s.x|
    ensures var g := BackwardResult(s, dY);
      |g.dX| == |dY| &&
      forall i :: 0 <= i < |dY| ==>
        g.dX[i] == (if s.qMin <= Codes(s)[i] <= s.qMax then dY[i] else 0.0)
  {
  }

  /** The contribution of one element to the scale gradient: nothing from a
      saturated element (its input gradient is masked to 0), qMin - z or qMax - z on
      a boundary, and (xfq - x) / scale strictly inside. */
  function ScaleContribution(dy: real, x: real, xfq: real, code: int, scale: real, z: int, qMin: int, qMax: int): real
    requires scale > 0.0
  {
    if code < qMin || qMax < code then 0.0
    else if code == qMin then (qMin - z) as real * dy
    else if code == qMax then (qMax - z) as real * dy
    else (xfq - x) / scale * dy
  }

  /** One element of the scale gradient, with the facts the mask and the clamp
      establish about it. */
  lemma ScaleGradAt(dX: real, dy: real, x: real, xfq: real, code: int, clamped: int, scale: real, z: int,
                    qMin: int, qMax: int)
    requires scale > 0.0 && qMin < qMax
    requires qMin <= code <= qMax ==> clamped == code && dX == dy
    requires code < qMin || qMax < code ==> dX == 0.0
    ensures ScaleGrad(dX, x, xfq, clamped, scale, z, qMin, qMax)
         == ScaleContribution(dy, x, xfq, code, scale, z, qMin, qMax)
  {
  }

  /** The contributions of a whole tensor to the scale gradient. */
  function ScaleContributions(dY: seq<real>, x: seq<real>, xfq: seq<real>, xq: seq<int>, scale: real, z: int,
                              qMin: int, qMax: int): seq<real>
    requires |x| == |dY| && |xfq| == |dY| && |xq| == |dY| && scale > 0.0
  {
    seq(|dY|, i requires 0 <= i < |dY| => ScaleContribution(dY[i], x[i], xfq[i], xq[i], scale, z, qMin, qMax))
  }

  /** Element by element, the scale gradients of the masked input gradient and the
      clamped codes are the three-regime contributions. */
  lemma ScaleGradsAreContributions(dY: seq<real>, x: seq<real>, xfq: seq<real>, xq: seq<int>, scale: real, z: int,
                                   qMin: int, qMax: int)
    requires |x| == |dY| && |xfq| == |dY| && |xq| == |dY| && scale > 0.0 && qMin < qMax
    ensures ScaleGrads(MaskedGrad(dY, xq, qMin, qMax), x, xfq, ClampCodes(xq, qMin, qMax), scale, z, qMin, qMax)
         == ScaleContributions(dY, x, xfq, xq, scale, z, qMin, qMax)
  {
    var dX := MaskedGrad(dY, xq, qMin, qMax);
    var clamped := ClampCodes(xq, qMin, qMax);
    var grads := ScaleGrads(dX, x, xfq, clamped, scale, z, qMin, qMax);
    var contributions := ScaleContributions(dY, x, xfq, xq, scale, z, qMin, qMax);
    forall i | 0 <= i < |dY| ensures grads[i] == contributions[i] {
      ScaleGradAt(dX[i], dY[i], x[i], xfq[i], xq[i], clamped[i], scale, z, qMin, qMax);
    }
    assert grads == contributions;
  }

  /** Summed over a tensor, the scale gradients of the masked input gradient and the
      clamped codes are the sum of the three-regime contributions. */
  lemma ScaleGradSumClosedForm(dY: seq<real>, x: seq<real>, xfq: seq<real>, xq: seq<int>, scale: real, z: int,
                               qMin: int, qMax: int)
    requires |x| == |dY| && |xfq| == |dY| && |xq| == |dY| && scale > 0.0 && qMin < qMax
    ensures ScaleGradSum(dY, x, xfq, xq, scale, z, qMin, qMax) == Sum(ScaleContributions(dY, x, xfq, xq, scale, z, qMin, qMax))
  {
    ScaleGradsAreContributions(dY, x, xfq, xq, scale, z, qMin, qMax);
  }

  /** The scale gradient is grad_factor times the sum over all elements of the
      three-regime contribution, read off the unclamped codes. */
  lemma ScaleGradientClosedForm(s: Saved, dY: seq<real>)
    requires WellFormed(s) && |dY| == |s.x| && s.qMin < s.qMax
    ensures BackwardResult(s, dY).dScale ==
      Sum(ScaleContributions(dY, s.x, s.xfq, Codes(s), s.scale, EffectiveZeroPoint(s.zeroPoint, s.qMin, s.qMax),
                             s.qMin, s.qMax)) * s.gradFactor
  {
    BackwardScaleIsSum(s, dY);
    ScaleGradSumClosedForm(dY, s.x, s.xfq, Codes(s), s.scale, EffectiveZeroPoint(s.zeroPoint, s.qMin, s.qMax),
                           s.qMin, s.qMax);
  }

  /** The gradient mass of the elements whose unclamped code is exactly on a
      boundary: only they reach the zero-point gradient. */
  function BoundaryMass(dY: seq<real>, xq: seq<int>, qMin: int, qMax: int): seq<real>
    requires |xq| == |dY|
  {
    seq(|dY|, i requires 0 <= i < |dY| => if xq[i] == qMin || xq[i] == qMax then dY[i] else 0.0)
  }

  /** One element of the zero-point gradient, with the facts the mask and the clamp
      establish about it. */
  lemma ZeroPointGradAt(dX: real, dy: real, code: int, clamped: int, scale: real, qMin: int, qMax: int)
    requires qMin < qMax
    requires qMin <= code <= qMax ==> clamped == code && dX == dy
    requires code < qMin || qMax < code ==> dX == 0.0
    ensures ZeroPointGrad(dX, clamped, scale, qMin, qMax)
         == -scale * (if code == qMin || code == qMax then dy else 0.0)
  {
  }

  /** Element by element, the zero-point gradients of the masked input gradient and
      the clamped codes are the boundary mass times -scale. */
  lemma ZeroPointGradsAreScaledMass(dY: seq<real>, xq: seq<int>, scale: real, qMin: int, qMax: int)
    requires |xq| == |dY| && qMin < qMax
    ensures ZeroPointGrads(MaskedGrad(dY, xq, qMin, qMax), ClampCodes(xq, qMin, qMax), scale, qMin, qMax)
         == Scaled(BoundaryMass(dY, xq, qMin, qMax), -scale)
  {
    var dX := MaskedGrad(dY, xq, qMin, qMax);
    var clamped := ClampCodes(xq, qMin, qMax);
    forall i | 0 <= i < |dY|
      ensures ZeroPointGrads(dX, clamped, scale, qMin, qMax)[i] == Scaled(BoundaryMass(dY, xq, qMin, qMax), -scale)[i]
    {
      ZeroPointGradAt(dX[i], dY[i], xq[i], clamped[i], scale, qMin, qMax);
    }
  }

  /** Summed over a tensor, the zero-point gradients of the masked input gradient
      and the clamped codes are -scale times the boundary mass. */
  lemma ZeroPointGradSumClosedForm(dY: seq<real>, xq: seq<int>, scale: real, qMin: int, qMax: int)
    requires |xq| == |dY| && qMin < qMax
    ensures ZeroPointGradSum(dY, xq, scale, qMin, qMax) == -scale * Sum(BoundaryMass(dY, xq, qMin, qMax))
  {
    ZeroPointGradsAreScaledMass(dY, xq, scale, qMin, qMax);
    SumScaled(BoundaryMass(dY, xq, qMin, qMax), -scale);
  }

  /** The zero-point gradient is -scale * grad_factor times the gradient mass on the
      boundaries: saturated elements are masked out of dX and interior elements have
      local gradient 0. */
  lemma ZeroPointGradientClosedForm(s: Saved, dY: seq<real>)
    requires WellFormed(s) && |dY| == |s.x| && s.qMin < s.qMax
    ensures BackwardResult(s, dY).dZeroPoint == -s.scale * Sum(BoundaryMass(dY, Codes(s), s.qMin, s.qMax)) * s.gradFactor
  {
    BackwardZeroPointIsSum(s, dY);
    ZeroPointGradSumClosedForm(dY, Codes(s), s.scale, s.qMin, s.qMax);
  }

  /** When every code is strictly inside the range the zero point gets no gradient. */
  lemma InteriorCodesGiveNoZeroPointGradient(s: Saved, dY: seq<real>)
    requires WellFormed(s) && |dY| == |s.x| && s.qMin < s.qMax
    requires forall i :: 0 <= i < |s.x| ==> s.qMin < Codes(s)[i] < s.qMax
    ensures BackwardResult(s, dY).dZeroPoint == 0.0
  {
    ZeroPointGradientClosedForm(s, dY);
    SumZeros(BoundaryMass(dY, Codes(s), s.qMin, s.qMax));
  }

  /** grad_factor scales the scale and zero-point gradients and leaves the input
      gradient as it is. */
  lemma GradFactorScalesOnlyQParams(s: Saved, dY: seq<real>, f: real)
    requires WellFormed(s) && |dY| == |s.x|
    ensures var unit := BackwardResult(s.(gradFactor := 1.0), dY);
      var g := BackwardResult(s.(gradFactor := f), dY);
      g.dX == unit.dX && g.dScale == f * unit.dScale && g.dZeroPoint == f * unit.dZeroPoint
  {
  }

  // ---------------------------------------------------------------------------
  // Concrete scenarios

  /** X = [0, 0.4, 0.6, 1], scale 0.5, zero point 0, range [0, 3]: the codes are
      [0, 1, 1, 2] and the output is [0, 0.5, 0.5, 1]. */
  lemma ScenarioWideRange()
    ensures Forward([0.0, 0.4, 0.6, 1.0], 0.5, 0.0, 0, 3, 1.0).xfq == [0.0, 0.5, 0.5, 1.0]
  {
  }

  /** The same X with range [0, 1]: the last code 2 saturates to 1, the output is
      [0, 0.5, 0.5, 0.5], and for dY = [1, 1, 1, 1] the input gradient is [1, 1, 1, 0],
      the scale gradient 2 (two elements on the upper boundary, qMax - z = 1 each) and
      the zero-point gradient -1.5 (three boundary elements, -scale each). */
  lemma ScenarioNarrowRange()
    ensures Forward([0.0, 0.4, 0.6, 1.0], 0.5, 0.0, 0, 1, 1.0).xfq == [0.0, 0.5, 0.5, 0.5]
    ensures BackwardResult(Forward([0.0, 0.4, 0.6, 1.0], 0.5, 0.0, 0, 1, 1.0), [1.0, 1.0, 1.0, 1.0])
         == Grads([1.0, 1.0, 1.0, 0.0], 2.0, -1.5)
  {
    var s := Forward([0.0, 0.4, 0.6, 1.0], 0.5, 0.0, 0, 1, 1.0);
    assert EffectiveZeroPoint(0.0, 0, 1) == 0;
    assert Round(0.8) == 1 && Round(1.2) == 1 && Round(2.0) == 2 && Round(0.0) == 0;
    assert s.xfq == [0.0, 0.5, 0.5, 0.5];
    assert Codes(s) == [0, 1, 1, 2];
    var dY := [1.0, 1.0, 1.0, 1.0];
    ScaleGradientClosedForm(s, dY);
    ZeroPointGradientClosedForm(s, dY);
    assert BoundaryMass(dY, Codes(s), 0, 1) == [1.0, 1.0, 1.0, 0.0];
    assert ScaleContributions(dY, s.x, s.xfq, Codes(s), s.scale, 0, 0, 1) == [0.0, 1.0, 1.0, 0.0];
  }
}
