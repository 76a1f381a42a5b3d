/** The gradient helpers: the saturation mask for the input gradient
    (`_calculate_X_grad_per_tensor`, `_calculate_X_grad_per_channel`) and the
    elementwise scale and zero-point gradients (`_calculate_scale_grad`,
    `_calculate_zero_point_grad`). Codes are integers; the source keeps them in a
    floating-point tensor with integral values. */
module Gradients {
  import opened Numerics
  import opened Quantization

  // ---------------------------------------------------------------------------
  // Input gradient

  /** The straight-through rule: dY passes where the code lies in [qMin, qMax] and
      is 0 elsewhere. */
  function MaskedGrad(dY: seq<real>, xq: seq<int>, qMin: int, qMax: int): seq<real>
    requires |xq| == |dY|
  {
    seq(|dY|, i requires 0 <= i < |dY| => if qMin <= xq[i] <= qMax then dY[i] else 0.0)
  }

  /** `_calculate_X_grad_per_tensor`: the mask (Xq >= q_min) * (Xq <= q_max), a
      buffer zeros_like(dY), and res[mask] = dY[mask]. The result has the shape of dY,
      equals dY exactly where the code is in range and is 0 elsewhere. */
  method XGradPerTensor(dY: seq<real>, xq: seq<int>, qMin: int, qMax: int) returns (dX: seq<real>)
    requires |xq| == |dY|
    ensures |dX| == |dY|
    ensures forall i :: 0 <= i < |dY| ==> (qMin <= xq[i] <= qMax ==> dX[i] == dY[i])
    ensures forall i :: 0 <= i < |dY| ==> (xq[i] < qMin || qMax < xq[i] ==> dX[i] == 0.0)
    ensures dX == MaskedGrad(dY, xq, qMin, qMax)
  {
    var mask := seq(|xq|, i requires 0 <= i < |xq| => qMin <= xq[i] && xq[i] <= qMax);
    var res := new real[|dY|](_ => 0.0);
    for i := 0 to |dY|
      invariant forall j :: 0 <= j < i ==> res[j] == (if mask[j] then dY[j] else 0.0)
      invariant forall j :: i <= j < |dY| ==> res[j] == 0.0
    {
      if mask[i] {
        res[i] := dY[i];
      }
    }
    dX := res[..];
  }

  /** Lines 61-63: a buffer zeros_like(X) whose slice i receives
      round(X[i] / scale[i] + zp[i]), the unclamped codes of channel i. */
  method UnclampedChannelCodes(x: seq<seq<real>>, scale: seq<real>, zeroPoint: seq<int>, qMin: int, qMax: int)
    returns (xq: seq<seq<int>>)
    requires |scale| >= |x| && |zeroPoint| >= |x|
    requires forall c :: 0 <= c < |x| ==> scale[c] > 0.0
    ensures |xq| == |x|
    ensures forall c :: 0 <= c < |x| ==> xq[c] == Quantize(x[c], scale[c], zeroPoint[c] as real, qMin, qMax, false)
  {
    var n := |x|;
    var buffer := new seq<int>[n](c requires 0 <= c < n => seq(|x[c]|, _ => 0));
    for i := 0 to n
      invariant forall c :: 0 <= c < i ==>
        buffer[c] == Quantize(x[c], scale[c], zeroPoint[c] as real, qMin, qMax, false)
    {
      buffer[i] := Quantize(x[i], scale[i], zeroPoint[i] as real, qMin, qMax, false);
    }
    xq := buffer[..];
  }

  /** `_calculate_X_grad_per_channel`, on tensors indexed by channel first: the
      unclamped codes of every channel, then the mask of the per-tensor rule (lines
      65-67 repeat lines 50-52) applied to every element. The result is the per-tensor
      rule applied slice by slice, each slice with its own channel's codes. */
  method XGradPerChannel(dY: seq<seq<real>>, x: seq<seq<real>>, scale: seq<real>, zeroPoint: seq<int>,
                         qMin: int, qMax: int) returns (dX: seq<seq<real>>)
    requires |dY| == |x| && |scale| >= |x| && |zeroPoint| >= |x|
    requires forall c :: 0 <= c < |x| ==> |dY[c]| == |x[c]| && scale[c] > 0.0
    ensures |dX| == |dY|
    ensures forall c :: 0 <= c < |dY| ==>
      dX[c] == MaskedGrad(dY[c], Quantize(x[c], scale[c], zeroPoint[c] as real, qMin, qMax, false), qMin, qMax)
  {
    var n := |x|;
    var codes := UnclampedChannelCodes(x, scale, zeroPoint, qMin, qMax);
    var res := new seq<real>[n](c requires 0 <= c < n => seq(|dY[c]|, _ => 0.0));
    for c := 0 to n
      invariant forall d :: 0 <= d < c ==> res[d] == MaskedGrad(dY[d], codes[d], qMin, qMax)
    {
      assert |codes[c]| == |dY[c]|;
      res[c] := XGradPerTensor(dY[c], codes[c], qMin, qMax);
    }
    dX := res[..];
  }

  // ---------------------------------------------------------------------------
  // Scale and zero-point gradients

  /** One element of `_calculate_scale_grad`, written with the source's three
      indicators. For qMin < qMax exactly one indicator is 1, so the local gradient is
      qMin - zp at the lower boundary, qMax - zp at the upper one and (xfq - x) / scale
      strictly inside, times gradX. */
  function ScaleGrad(gradX: real, x: real, xfq: real, xq: int, scale: real, zeroPoint: int, qMin: int, qMax: int)
    : (g: real)
    requires scale > 0.0
    ensures qMin < qMax ==>
      g == gradX * (if xq == qMin then (qMin - zeroPoint) as real
                    else if xq == qMax then (qMax - zeroPoint) as real
                    else (xfq - x) / scale)
  {
    var small := if xq == qMin then 1.0 else 0.0;
    var big := if xq == qMax then 1.0 else 0.0;
    var middle := 1.0 - small - big;
    (small * (qMin - zeroPoint) as real + big * (qMax - zeroPoint) as real + middle * ((xfq - x) / scale)) * gradX
  }

  /** One element of `_calculate_zero_point_grad`: the saturation indicator is
      (xq == qMin) + (xq == qMax); for qMin < qMax the local gradient is -scale at
      either boundary and 0 strictly inside, times gradX. */
  function ZeroPointGrad(gradX: real, xq: int, scale: real, qMin: int, qMax: int): (g: real)
    ensures qMin < qMax ==> g == (if xq == qMin || xq == qMax then -scale * gradX else 0.0)
  {
    var saturate := (if xq == qMin then 1.0 else 0.0) + (if xq == qMax then 1.0 else 0.0);
    var unsaturate := 1.0 - saturate;
    (saturate * -scale + unsaturate * 0.0) * gradX
  }

  /** `_calculate_scale_grad` on a tensor. */
  function ScaleGrads(gradX: seq<real>, x: seq<real>, xfq: seq<real>, xq: seq<int>, scale: real, zeroPoint: int,
                      qMin: int, qMax: int): seq<real>
    requires |gradX| == |x| && |xfq| == |x| && |xq| == |x| && scale > 0.0
  {
    seq(|x|, i requires 0 <= i < |x| => ScaleGrad(gradX[i], x[i], xfq[i], xq[i], scale, zeroPoint, qMin, qMax))
  }

  /** `_calculate_zero_point_grad` on a tensor. */
  function ZeroPointGrads(gradX: seq<real>, xq: seq<int>, scale: real, qMin: int, qMax: int): seq<real>
    requires |xq| == |gradX|
  {
    seq(|gradX|, i requires 0 <= i < |gradX| => ZeroPointGrad(gradX[i], xq[i], scale, qMin, qMax))
  }
}
