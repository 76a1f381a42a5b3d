/** `_LearnableFakeQuantizePerChannelOp`: one scale and one zero point per slice
    along the channel axis. Tensors are held channel-major, x[c] being the elements
    of channel c in order (the layout `_permute_to_axis_zero` produces); `ndim` is
    the rank of the original tensor and `chAxis` the channel axis in it. */
module PerChannelOp {
  import opened Wrappers
  import opened Numerics
  import opened Quantization
  import opened Gradients
  import PerTensorOp

  /** What forward keeps for backward: X, scale and the zero points before rounding
      (line 175), and q_min, q_max, X_fq, ch_axis and grad_factor (line 180). */
  datatype Saved = Saved(x: seq<seq<real>>, ndim: nat, scale: seq<real>, zeroPoint: seq<real>, chAxis: int,
                         qMin: int, qMax: int, xfq: seq<seq<real>>, gradFactor: real)

  /** One scale and one zero point per channel, every scale positive, and X_fq
      shaped like X. */
  predicate WellFormed(s: Saved)
  {
    |s.scale| == |s.x| && |s.zeroPoint| == |s.x| && |s.xfq| == |s.x| &&
    forall c :: 0 <= c < |s.x| ==> s.scale[c] > 0.0 && |s.xfq[c]| == |s.x[c]|
  }

  /** The gradients backward returns for X, scale and zero_point, one scale and one
      zero-point gradient per channel. */
  datatype Grads = Grads(dX: seq<seq<real>>, dScale: seq<real>, dZeroPoint: seq<real>)

  /** Why backward fails. AxisNotFound: ch_axis is not one of 0 .. ndim - 1; outside
      -ndim .. ndim - 1 the indexing `X.shape[ch_axis]` raises IndexError (line 189),
      and for a negative ch_axis inside it `set.remove(ch_axis)` raises KeyError
      (line 205). ZeroDimGradient: X is 1-D and ch_axis is 0, so no axis is left to
      reduce; `sum(())` at lines 208-211 reduces every axis into a 0-d gradient, and
      autograd refuses a 0-d gradient for the one-scale-per-channel parameter. */
  datatype BackwardError = AxisNotFound | ZeroDimGradient

  /** The zero points backward and forward use (lines 177 and 192), channel by
      channel; each is the corrected effective zero point, which floors where the
      int64 cast truncates. */
  function EffectiveZeroPoints(zeroPoint: seq<real>, qMin: int, qMax: int): (z: seq<int>)
    ensures |z| == |zeroPoint|
  {
    seq(|zeroPoint|, c requires 0 <= c < |zeroPoint| => EffectiveZeroPoint(zeroPoint[c], qMin, qMax))
  }

  /** Every channel's zero point lies in the range and is the nearest integer to the
      clamped zp, a half rounding up. */
  lemma EffectiveZeroPointsAreNearest(zeroPoint: seq<real>, qMin: int, qMax: int)
    requires qMin <= qMax
    ensures var z := EffectiveZeroPoints(zeroPoint, qMin, qMax);
      forall c :: 0 <= c < |z| ==>
        qMin <= z[c] <= qMax && -0.5 <= ClampReal(zeroPoint[c], qMin as real, qMax as real) - z[c] as real < 0.5
  {
  }

  /** Lines 204-206: the axes other than ch_axis, in increasing order, over which
      the gradients are summed; `set.remove` raises KeyError, here None, when ch_axis
      is not one of 0 .. ndim - 1 (a negative ch_axis included). */
  function ReductionAxes(ndim: nat, chAxis: int): (axes: Option<seq<nat>>)
    ensures axes.Some? <==> 0 <= chAxis < ndim
    ensures axes.Some? ==>
      |axes.value| == ndim - 1 &&
      (forall d :: 0 <= d < ndim ==> (d in axes.value <==> d != chAxis)) &&
      (forall i, j :: 0 <= i < j < |axes.value| ==> axes.value[i] < axes.value[j])
  {
    if 0 <= chAxis < ndim then
      var axes := seq(ndim - 1, i requires 0 <= i < ndim - 1 => if i < chAxis then i as nat else (i + 1) as nat);
      assert forall d :: 0 <= d < ndim ==> (d in axes <==> d != chAxis) by {
        forall d | 0 <= d < ndim && d != chAxis ensures d in axes {
          var i := if d < chAxis then d else d - 1;
          assert axes[i] == d;
        }
      }
      Some(axes)
    else None
  }

  /** forward: the effective integer zero points, then the native per-channel
      fake-quantize. Every channel of the output is what the per-tensor op makes of
      that channel with its own scale and zero point. */
  function Forward(x: seq<seq<real>>, ndim: nat, scale: seq<real>, zeroPoint: seq<real>, chAxis: int,
                   qMin: int, qMax: int, gradFactor: real): (saved: Saved)
    requires |scale| == |x| && |zeroPoint| == |x|
    requires forall c :: 0 <= c < |x| ==> scale[c] > 0.0
    ensures WellFormed(saved)
    ensures saved.x == x && saved.ndim == ndim && saved.scale == scale && saved.zeroPoint == zeroPoint
    ensures saved.chAxis == chAxis && saved.qMin == qMin && saved.qMax == qMax && saved.gradFactor == gradFactor
    ensures forall c :: 0 <= c < |x| ==>
      saved.xfq[c] == PerTensorOp.Forward(x[c], scale[c], zeroPoint[c], qMin, qMax, gradFactor).xfq
  {
    var z := EffectiveZeroPoints(zeroPoint, qMin, qMax);
    Saved(x, ndim, scale, zeroPoint, chAxis, qMin, qMax, FakeQuantizePerChannelAffine(x, scale, z, qMin, qMax),
          gradFactor)
  }

  /** dY has the shape of X. */
  predicate Matches(s: Saved, dY: seq<seq<real>>)
  {
    |dY| == |s.x| && forall c :: 0 <= c < |dY| ==> |dY[c]| == |s.x[c]|
  }

  /** The unclamped codes of channel c, from its effective zero point (lines 61-63). */
  function ChannelCodes(s: Saved, c: int): (xq: seq<int>)
    requires WellFormed(s) && 0 <= c < |s.x|
    ensures |xq| == |s.x[c]|
  {
    PerTensorOp.Codes(Channel(s, c))
  }

  /** The input gradient: dY masked by the unclamped codes, channel by channel. */
  function InputGrad(s: Saved, dY: seq<seq<real>>): (dX: seq<seq<real>>)
    requires WellFormed(s) && Matches(s, dY)
    ensures |dX| == |dY|
  {
    seq(|dY|, c requires 0 <= c < |dY| => MaskedGrad(dY[c], ChannelCodes(s, c), s.qMin, s.qMax))
  }

  /** dX has dY's shape and passes dY[c][i] exactly where channel c's unclamped code
      round(x / scale[c] + zp[c]) lies in [q_min, q_max], and is 0 elsewhere. */
  lemma InputGradIsMasked(s: Saved, dY: seq<seq<real>>)
    requires WellFormed(s) && Matches(s, dY)
    ensures var dX := InputGrad(s, dY);
      |dX| == |dY| &&
      forall c :: 0 <= c < |dY| ==>
        (|dX[c]| == |dY[c]| &&
         forall i :: 0 <= i < |dY[c]| ==>
           var code := Quantize(s.x[c], s.scale[c], EffectiveZeroPoint(s.zeroPoint[c], s.qMin, s.qMax) as real,
                                s.qMin, s.qMax, false)[i];
           dX[c][i] == (if s.qMin <= code <= s.qMax then dY[c][i] else 0.0))
  {
  }

  /** Channel c's entry of the scale gradient before grad_factor: the elementwise
      scale gradients of the channel, from the masked input gradient and the
      clamped codes, summed over the reduction axes. */
  function ChannelScaleGrad(s: Saved, dY: seq<seq<real>>, c: int): real
    requires WellFormed(s) && Matches(s, dY) && 0 <= c < |s.x|
  {
    PerTensorOp.ScaleGradSum(dY[c], s.x[c], s.xfq[c], ChannelCodes(s, c), s.scale[c],
                             EffectiveZeroPoint(s.zeroPoint[c], s.qMin, s.qMax), s.qMin, s.qMax)
  }

  /** Channel c's entry of the zero-point gradient before grad_factor. */
  function ChannelZeroPointGrad(s: Saved, dY: seq<seq<real>>, c: int): real
    requires WellFormed(s) && Matches(s, dY) && 0 <= c < |s.x|
  {
    PerTensorOp.ZeroPointGradSum(dY[c], ChannelCodes(s, c), s.scale[c], s.qMin, s.qMax)
  }

  /** The per-channel sums of the scale gradient, before grad_factor. */
  function ScaleSums(s: Saved, dY: seq<seq<real>>): (sums: seq<real>)
    requires WellFormed(s) && Matches(s, dY)
    ensures |sums| == |dY|
  {
    seq(|dY|, c requires 0 <= c < |dY| => ChannelScaleGrad(s, dY, c))
  }

  /** The per-channel sums of the zero-point gradient, before grad_factor. */
  function ZeroPointSums(s: Saved, dY: seq<seq<real>>): (sums: seq<real>)
    requires WellFormed(s) && Matches(s, dY)
    ensures |sums| == |dY|
  {
    seq(|dY|, c requires 0 <= c < |dY| => ChannelZeroPointGrad(s, dY, c))
  }

  /** The value backward computes, as one expression. It fails with AxisNotFound
      exactly when ch_axis is not one of 0 .. ndim - 1, and with ZeroDimGradient
      exactly when X is 1-D and ch_axis is 0; otherwise it has one scale and one zero-point gradient
      per channel. */
  function BackwardResult(s: Saved, dY: seq<seq<real>>): (g: Result<Grads, BackwardError>)
    requires WellFormed(s) && Matches(s, dY)
    ensures g == Failure(AxisNotFound) <==> s.chAxis < 0 || s.ndim <= s.chAxis
    ensures g == Failure(ZeroDimGradient) <==> s.ndim == 1 && s.chAxis == 0
    ensures g.Success? ==> |g.value.dX| == |g.value.dScale| == |g.value.dZeroPoint| == |s.x|
  {
    match ReductionAxes(s.ndim, s.chAxis)
    case None => Failure(AxisNotFound)
    case Some(axes) =>
      if axes == [] then Failure(ZeroDimGradient)
      else
        Success(Grads(InputGrad(s, dY), Scaled(ScaleSums(s, dY), s.gradFactor),
                      Scaled(ZeroPointSums(s, dY), s.gradFactor)))
  }

  /** backward, step by step: the effective zero points, the masked input gradient,
      the clamped codes of every channel (`_quantize_vectorized` with its default
      clamp), the reduction axes, the per-channel sums of the elementwise scale and
      zero-point gradients, and those sums multiplied in place by grad_factor. */
  method Backward(s: Saved, dY: seq<seq<real>>) returns (g: Result<Grads, BackwardError>)
    requires WellFormed(s) && Matches(s, dY)
    ensures g == BackwardResult(s, dY)
  {
    var n := |s.x|;
    var zeroPoint := EffectiveZeroPoints(s.zeroPoint, s.qMin, s.qMax);
    var gradX := XGradPerChannel(dY, s.x, s.scale, zeroPoint, s.qMin, s.qMax);
    assert gradX == InputGrad(s, dY);
    var xq := QuantizeVectorized(s.x, s.scale, AsReals(zeroPoint), s.qMin, s.qMax, true);
    var axes := ReductionAxes(s.ndim, s.chAxis);
    if axes.None? {
      return Failure(AxisNotFound);
    }
    if axes.value == [] {
      return Failure(ZeroDimGradient);
    }
    forall c | 0 <= c < n
      ensures |gradX[c]| == |s.x[c]| && |xq[c]| == |s.x[c]|
      ensures Sum(ScaleGrads(gradX[c], s.x[c], s.xfq[c], xq[c], s.scale[c], zeroPoint[c], s.qMin, s.qMax))
           == ChannelScaleGrad(s, dY, c)
      ensures Sum(ZeroPointGrads(gradX[c], xq[c], s.scale[c], s.qMin, s.qMax)) == ChannelZeroPointGrad(s, dY, c)
    {
      ChannelInputsAt(s, dY, gradX, xq, zeroPoint, c);
    }
    var scaleSums := seq(n, c requires 0 <= c < n =>
      Sum(ScaleGrads(gradX[c], s.x[c], s.xfq[c], xq[c], s.scale[c], zeroPoint[c], s.qMin, s.qMax)));
    var zeroPointSums := seq(n, c requires 0 <= c < n =>
      Sum(ZeroPointGrads(gradX[c], xq[c], s.scale[c], s.qMin, s.qMax)));
    assert scaleSums == ScaleSums(s, dY);
    assert zeroPointSums == ZeroPointSums(s, dY);
    var gradScale := new real[n](c requires 0 <= c < n => scaleSums[c]);
    var gradZeroPoint := new real[n](c requires 0 <= c < n => zeroPointSums[c]);
    assert gradScale[..] == scaleSums && gradZeroPoint[..] == zeroPointSums;
    MultiplyInPlace(gradScale, s.gradFactor);
    MultiplyInPlace(gradZeroPoint, s.gradFactor);
    g := Success(Grads(gradX, gradScale[..], gradZeroPoint[..]));
  }

  /** Channel c of what backward computes with: the masked input gradient,
      the clamped codes and the effective zero point of that channel. */
  lemma ChannelInputsAt(s: Saved, dY: seq<seq<real>>, gradX: seq<seq<real>>, xq: seq<seq<int>>,
                        zeroPoint: seq<int>, c: int)
    requires WellFormed(s) && Matches(s, dY) && 0 <= c < |s.x|
    requires zeroPoint == EffectiveZeroPoints(s.zeroPoint, s.qMin, s.qMax)
    requires gradX == InputGrad(s, dY)
    requires xq == QuantizeVectorized(s.x, s.scale, AsReals(zeroPoint), s.qMin, s.qMax, true)
    ensures zeroPoint[c] == EffectiveZeroPoint(s.zeroPoint[c], s.qMin, s.qMax)
    ensures gradX[c] == MaskedGrad(dY[c], ChannelCodes(s, c), s.qMin, s.qMax)
    ensures xq[c] == ClampCodes(ChannelCodes(s, c), s.qMin, s.qMax)
    ensures |gradX[c]| == |s.x[c]| && |xq[c]| == |s.x[c]|
    ensures Sum(ScaleGrads(gradX[c], s.x[c], s.xfq[c], xq[c], s.scale[c], zeroPoint[c], s.qMin, s.qMax))
         == ChannelScaleGrad(s, dY, c)
    ensures Sum(ZeroPointGrads(gradX[c], xq[c], s.scale[c], s.qMin, s.qMax)) == ChannelZeroPointGrad(s, dY, c)
  {
  }

  // ---------------------------------------------------------------------------
  // Properties

  /** The per-tensor op's saved state for channel c. */
  function Channel(s: Saved, c: int): (t: PerTensorOp.Saved)
    requires WellFormed(s) && 0 <= c < |s.x|
    ensures PerTensorOp.WellFormed(t)
  {
    PerTensorOp.Saved(s.x[c], s.scale[c], s.zeroPoint[c], s.qMin, s.qMax, s.xfq[c], s.gradFactor)
  }

  /** When backward succeeds, it is the per-tensor backward applied to every
      channel with that channel's scale, zero point, output and gradient: the
      gradients of one channel depend on nothing outside it. */
  lemma BackwardIsPerTensorPerChannel(s: Saved, dY: seq<seq<real>>, c: int)
    requires WellFormed(s) && Matches(s, dY) && BackwardResult(s, dY).Success? && 0 <= c < |s.x|
    ensures var g := BackwardResult(s, dY).value;
      var t := PerTensorOp.BackwardResult(Channel(s, c), dY[c]);
      g.dX[c] == t.dX && g.dScale[c] == t.dScale && g.dZeroPoint[c] == t.dZeroPoint
  {
    assert |dY[c]| == |s.x[c]|;
    SucceededAt(s, dY, c);
    ChannelIsPerTensor(s, dY, c);
  }

  /** Backward succeeds with the masked input gradient and the two per-channel sums
      times grad_factor. */
  lemma Succeeded(s: Saved, dY: seq<seq<real>>)
    requires WellFormed(s) && Matches(s, dY) && BackwardResult(s, dY).Success?
    ensures BackwardResult(s, dY).value
         == Grads(InputGrad(s, dY), Scaled(ScaleSums(s, dY), s.gradFactor), Scaled(ZeroPointSums(s, dY), s.gradFactor))
  {
  }

  /** Channel c's entries of a successful backward: the masked input gradient of
      the channel and its two sums times grad_factor. */
  lemma SucceededAt(s: Saved, dY: seq<seq<real>>, c: int)
    requires WellFormed(s) && Matches(s, dY) && BackwardResult(s, dY).Success? && 0 <= c < |s.x|
    ensures var g := BackwardResult(s, dY).value;
      g.dX[c] == InputGrad(s, dY)[c] &&
      g.dScale[c] == ChannelScaleGrad(s, dY, c) * s.gradFactor &&
      g.dZeroPoint[c] == ChannelZeroPointGrad(s, dY, c) * s.gradFactor
  {
    Succeeded(s, dY);
    assert ScaleSums(s, dY)[c] == ChannelScaleGrad(s, dY, c);
    assert ZeroPointSums(s, dY)[c] == ChannelZeroPointGrad(s, dY, c);
  }

  /** Channel c's input gradient and summed gradients are those of the per-tensor
      backward of channel c. */
  lemma ChannelIsPerTensor(s: Saved, dY: seq<seq<real>>, c: int)
    requires WellFormed(s) && Matches(s, dY) && 0 <= c < |s.x|
    ensures var t := PerTensorOp.BackwardResult(Channel(s, c), dY[c]);
      InputGrad(s, dY)[c] == t.dX &&
      ChannelScaleGrad(s, dY, c) * s.gradFactor == t.dScale &&
      ChannelZeroPointGrad(s, dY, c) * s.gradFactor == t.dZeroPoint
  {
    assert |dY[c]| == |s.x[c]|;
    PerTensorOp.BackwardScaleIsSum(Channel(s, c), dY[c]);
    PerTensorOp.BackwardZeroPointIsSum(Channel(s, c), dY[c]);
  }

  /** A channel whose unclamped codes all lie strictly inside the range gets no
      zero-point gradient, whatever the other channels hold. */
  lemma InteriorChannelGetsNoZeroPointGradient(s: Saved, dY: seq<seq<real>>, c: int)
    requires WellFormed(s) && Matches(s, dY) && BackwardResult(s, dY).Success? && 0 <= c < |s.x| && s.qMin < s.qMax
    requires forall i :: 0 <= i < |s.x[c]| ==> s.qMin < ChannelCodes(s, c)[i] < s.qMax
    ensures BackwardResult(s, dY).value.dZeroPoint[c] == 0.0
  {
    BackwardIsPerTensorPerChannel(s, dY, c);
    PerTensorOp.InteriorCodesGiveNoZeroPointGradient(Channel(s, c), dY[c]);
  }
}
