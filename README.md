# Learnable fake quantization, modelled in Dafny

This project models the reference arithmetic of PyTorch's learnable fake
quantization (`torch/quantization/_learnable_fake_quantize.py`). A tensor is
mapped to an integer grid with `round(x / scale + zero_point)`, clamped to
`[quant_min, quant_max]`, and mapped back with `(q - zero_point) * scale`. The
backward passes use the straight-through estimator for the input gradient, and
closed-form gradients for the scale and the zero point. The project also models
the `_LearnableFakeQuantize` module: its construction checks, its three mode
flags, the dispatch in `forward`, and the key handling of
`_load_from_state_dict`.

Modules, leaves first:

- `Numerics` (numerics.dfy) holds the scalar semantics over exact reals:
  - `torch.round`, which rounds half to even;
  - Python `int()` and the int64 cast, which truncate toward zero;
  - `clamp`, `sum`, and in-place `*=`.
- `Quantization` (quantize.dfy) holds:
  - `_quantize` and `_quantize_vectorized`;
  - the effective integer zero point;
  - the native affine fake-quantize primitive, specified by its formula;
  - `_permute_to_axis_zero`.
- `Gradients` (gradients.dfy) holds the four `_calculate_*` helpers. The two input-gradient helpers fill `zeros_like` buffers in loops, as the source does.
- `PerTensorOp` (per_tensor_op.dfy) and `PerChannelOp` (per_channel_op.dfy) are the two autograd ops:
  - `ctx` is a `Saved` value that forward returns and backward consumes;
  - each backward is a method over buffers, proved equal to a function, and the properties are proved about that function.
- `FakeQuantizeModule` (learnable_fake_quantize.dfy) holds the module as a class. Its fields are the parameters, the `requires_grad` flags and the three uint8 flags.

Modelling choices:

- Arithmetic is exact `real`, and every scale must be positive. The source's `x * (1.0 / scale)` is written `x / scale`; the two are equal over the reals.
- Codes are `int`.
- A per-tensor tensor is a flat `seq<real>`, because every operation on it is elementwise.
- A per-channel tensor is a `seq<seq<real>>` indexed by channel first. This is the layout that `_permute_to_axis_zero` produces, and `x[c]` holds the elements of channel `c`. Summing over every axis except `ch_axis` is then summing each `x[c]`.
- The module's `forward` takes the observer's `calculate_qparams` result as arguments. It also takes the gradient factor.
- The input-gradient mask is computed on the unclamped codes (lines 50, 65, 153). An element whose code is exactly `q_min` or `q_max` therefore passes its gradient. Only elements that the clamp moves get 0. The scale and zero-point gradients detect the boundaries on the clamped codes (lines 156, 202). Both rules are proved from the code's own steps (`PerTensorOp.InputGradientIsMasked`, `PerTensorOp.ScaleGradientClosedForm`).

## Model

| member | source | states |
|---|---|---|
| Numerics.RoundIsNearest | torch/quantization/_learnable_fake_quantize.py:12 | `torch.round` lands within 1/2 of its argument, and a tie goes to the even integer |
| Numerics.RoundIsUnique | torch/quantization/_learnable_fake_quantize.py:12 | any integer within 1/2 that obeys the tie rule is `Round`'s result, so rounding is determined |
| Numerics.Trunc | torch/quantization/_learnable_fake_quantize.py:141 | `int()` truncates toward zero: floor bounds for non-negative values, ceiling bounds for negative ones |
| Numerics.Clamp | torch/quantization/_learnable_fake_quantize.py:14 | the result lies in `[lo, hi]`; it equals its input exactly when the input is in range; below `lo` gives `lo` and above `hi` gives `hi` |
| Numerics.MultiplyInPlace | torch/quantization/_learnable_fake_quantize.py:163-164 | `t *= f` leaves every element multiplied by `f`, in place |
| Quantization.Quantize | torch/quantization/_learnable_fake_quantize.py:9-15 | the codes have the input's shape; with `clamp` every code lies in `[q_min, q_max]` |
| Quantization.UnclampedCodeIsNearest | torch/quantization/_learnable_fake_quantize.py:12-15 | without `clamp`, a code equals `n` if and only if `n` is the nearest integer to `x/scale + zp`, with ties to even |
| Quantization.ClampCodes | torch/quantization/_learnable_fake_quantize.py:156 | clamped codes keep the shape and lie in `[q_min, q_max]` |
| Quantization.ClampAfterQuantize | torch/quantization/_learnable_fake_quantize.py:153-156 | clamping the unclamped codes afterwards gives exactly `_quantize` with `clamp=True` |
| Quantization.QuantizeVectorized | torch/quantization/_learnable_fake_quantize.py:17-28 | broadcasting scale and zp along the channel axis gives, for each channel, `_quantize` with that channel's scale and zero point |
| Quantization.TruncatedZeroPoint | torch/quantization/_learnable_fake_quantize.py:141 | the zero point as written, `int((zp + 0.5).clamp(q_min, q_max))`, lies in `[q_min, q_max]` |
| Quantization.TruncatedZeroPointShiftsNegativeIntegers | torch/quantization/_learnable_fake_quantize.py:141 | as written, the integral zero point -3 in range [-128, 127] becomes -2 |
| Quantization.EffectiveZeroPointIsNearest | torch/quantization/_learnable_fake_quantize.py:152 | the corrected zero point (also at lines 141, 177 and 192) lies in `[q_min, q_max]` and is within 1/2 of the clamped zp, rounding half up |
| Quantization.EffectiveZeroPointKeepsIntegers | torch/quantization/_learnable_fake_quantize.py:152 | an integral zero point inside the range is kept as it is |
| Quantization.TruncatedZeroPointAgreesWhenNonNegative | torch/quantization/_learnable_fake_quantize.py:141 | as written and corrected agree whenever `q_min >= 0`, or whenever the clamped value is not negative |
| Quantization.FakeQuantizeValue | torch/quantization/_learnable_fake_quantize.py:142-143 | a fake-quantized value lies between `(q_min - zp) * scale` and `(q_max - zp) * scale` |
| Quantization.FakeQuantizePerTensorAffine | torch/quantization/_learnable_fake_quantize.py:142-143 | the native per-tensor op returns `(clamped code - zp) * scale` elementwise, with the codes of `_quantize`, so every output lies between `(q_min - zp) * scale` and `(q_max - zp) * scale` |
| Quantization.FakeQuantizePerChannelAffine | torch/quantization/_learnable_fake_quantize.py:178-179 | the native per-channel op fake-quantizes each channel with its own parameters |
| Quantization.QuantizeDequantize | torch/quantization/_learnable_fake_quantize.py:142-143 | quantizing the grid point of an in-range code gives the code back |
| Quantization.FakeQuantizeIdempotent | torch/quantization/_learnable_fake_quantize.py:142-143 | fake quantization is idempotent on a value |
| Quantization.FakeQuantizeFixesGridPoints | torch/quantization/_learnable_fake_quantize.py:142-143 | a grid point `(q - zp) * scale` with `q` in range is a fixed point of fake quantization |
| Quantization.FakeQuantizeTensorIdempotent | torch/quantization/_learnable_fake_quantize.py:142-143 | fake quantization is idempotent on a tensor |
| Quantization.FakeQuantizeError | torch/quantization/_learnable_fake_quantize.py:142-143 | when the unclamped code is in range, fake quantization moves a value by at most `scale / 2` |
| Quantization.PermuteToAxisZero | torch/quantization/_learnable_fake_quantize.py:30-35 | the axis list is the identity with positions 0 and `axis` swapped; a negative axis is normalised as Python indexing does |
| Quantization.Permute | torch/quantization/_learnable_fake_quantize.py:34 | permuting by an axis list keeps the rank |
| Quantization.PermuteToAxisZeroIsInvolution | torch/quantization/_learnable_fake_quantize.py:60-64 | the permutation brings the channel axis to the front, and applying the same list again restores the original order (line 64) |
| Gradients.XGradPerTensor | torch/quantization/_learnable_fake_quantize.py:37-53 | the buffer has dY's shape; it holds dY exactly where `q_min <= Xq <= q_max` and 0 elsewhere |
| Gradients.UnclampedChannelCodes | torch/quantization/_learnable_fake_quantize.py:61-63 | the loop fills slice `i` with channel `i`'s unclamped codes |
| Gradients.XGradPerChannel | torch/quantization/_learnable_fake_quantize.py:55-68 | the per-channel input gradient is the per-tensor mask applied slice by slice, each slice with its own channel's codes |
| Gradients.ScaleGrad | torch/quantization/_learnable_fake_quantize.py:70-99 | for `q_min < q_max` exactly one regime applies: `q_min - zp` at the lower boundary, `q_max - zp` at the upper one, `(Xfq - X)/scale` inside; times grad_X |
| Gradients.ZeroPointGrad | torch/quantization/_learnable_fake_quantize.py:101-126 | for `q_min < q_max` the local gradient is `-scale * grad_X` at either boundary and 0 strictly inside |
| PerTensorOp.Forward | torch/quantization/_learnable_fake_quantize.py:137-145 | the function keeps X, scale, the unrounded zp, the range and grad_factor; the output holds the dequantized clamped codes for the effective zero point |
| PerTensorOp.ForwardAsWritten | torch/quantization/_learnable_fake_quantize.py:141-143 | the output as written, with the truncated zero point, has X's shape |
| PerTensorOp.ForwardAsWrittenAgreesWhenNonNegative | torch/quantization/_learnable_fake_quantize.py:141-143 | for `0 <= q_min <= q_max` the forward as written and the corrected forward give the same output |
| PerTensorOp.ForwardAsWrittenShiftsOutput | torch/quantization/_learnable_fake_quantize.py:141-143 | X = [130], scale 1, zp -3, range [-128, 127]: as written the output is [129]; the corrected forward equals the native op with zp -3, which gives [130] |
| PerTensorOp.ForwardStaysInRange | torch/quantization/_learnable_fake_quantize.py:137-145 | the output of forward lies between `(q_min - z) * scale` and `(q_max - z) * scale`, `z` the effective zero point |
| PerTensorOp.BackwardResult | torch/quantization/_learnable_fake_quantize.py:147-166 | the input gradient has dY's shape |
| PerTensorOp.Backward | torch/quantization/_learnable_fake_quantize.py:147-166 | the step-by-step backward equals `BackwardResult`; the one-element gradient tensors are held as their one value |
| PerTensorOp.ReduceScaleGradient | torch/quantization/_learnable_fake_quantize.py:158-163 | summing the elementwise scale gradients of the masked input gradient and the clamped codes, then multiplying by grad_factor, gives the scale gradient of `BackwardResult` |
| PerTensorOp.ReduceZeroPointGradient | torch/quantization/_learnable_fake_quantize.py:160-164 | the summed elementwise zero-point gradients times grad_factor give the zero-point gradient of `BackwardResult` |
| PerTensorOp.InputGradientIsMasked | torch/quantization/_learnable_fake_quantize.py:153-155 | dX equals dY exactly where the unclamped code is in range, and 0 elsewhere |
| PerTensorOp.ScaleGradsAreContributions | torch/quantization/_learnable_fake_quantize.py:156-159 | elementwise, the scale gradient of the masked gradient and the clamped code is the three-regime contribution read off the unclamped code |
| PerTensorOp.ScaleGradSumClosedForm | torch/quantization/_learnable_fake_quantize.py:158-159 | summed, the scale gradients are the sum of the three-regime contributions |
| PerTensorOp.ScaleGradientClosedForm | torch/quantization/_learnable_fake_quantize.py:156-163 | dScale is grad_factor times the sum of the per-element contributions: 0 if saturated, `(q_min - z)dy` or `(q_max - z)dy` on a boundary, `(Xfq - X)/scale * dy` inside |
| PerTensorOp.ZeroPointGradsAreScaledMass | torch/quantization/_learnable_fake_quantize.py:156-161 | elementwise, the zero-point gradients are `-scale` times dY on the boundary codes and 0 elsewhere |
| PerTensorOp.ZeroPointGradSumClosedForm | torch/quantization/_learnable_fake_quantize.py:160-161 | summed zero-point gradients are `-scale` times the gradient mass on the boundary codes |
| PerTensorOp.ZeroPointGradientClosedForm | torch/quantization/_learnable_fake_quantize.py:160-164 | dZeroPoint is `grad_factor * -scale *` the sum of dY over elements whose unclamped code is exactly `q_min` or `q_max` |
| PerTensorOp.InteriorCodesGiveNoZeroPointGradient | torch/quantization/_learnable_fake_quantize.py:116-126 | if every code is strictly inside the range, dZeroPoint is 0 |
| PerTensorOp.GradFactorScalesOnlyQParams | torch/quantization/_learnable_fake_quantize.py:163-166 | grad_factor multiplies dScale and dZeroPoint and leaves dX unscaled |
| PerTensorOp.ScenarioWideRange | torch/quantization/_learnable_fake_quantize.py:137-145 | X = [0, 0.4, 0.6, 1], scale 0.5, range [0, 3] gives [0, 0.5, 0.5, 1] |
| PerTensorOp.ScenarioNarrowRange | torch/quantization/_learnable_fake_quantize.py:137-166 | with range [0, 1]: output [0, 0.5, 0.5, 0.5]; for dY = 1, dX = [1, 1, 1, 0], dScale = 2, dZeroPoint = -1.5 |
| PerChannelOp.EffectiveZeroPointsAreNearest | torch/quantization/_learnable_fake_quantize.py:177 | every channel's corrected zero point lies in `[q_min, q_max]` and is within 1/2 of that channel's clamped zp, a tie going up |
| PerChannelOp.ReductionAxes | torch/quantization/_learnable_fake_quantize.py:204-206 | the reduction axes are every axis except `ch_axis`, in increasing order; removal fails exactly when `ch_axis` is not in `0 .. ndim-1` |
| PerChannelOp.Forward | torch/quantization/_learnable_fake_quantize.py:173-181 | each output channel is the per-tensor forward of that channel with its own scale and zero point; the function keeps ch_axis and the unrounded zero points |
| PerChannelOp.ChannelCodes | torch/quantization/_learnable_fake_quantize.py:61-63 | a channel's unclamped codes have the channel's shape |
| PerChannelOp.InputGradIsMasked | torch/quantization/_learnable_fake_quantize.py:193-194 | dX has dY's shape and holds `dY[c][i]` exactly where channel `c`'s unclamped code `round(x / scale[c] + zp[c])` lies in `[q_min, q_max]`, and 0 elsewhere |
| PerChannelOp.BackwardResult | torch/quantization/_learnable_fake_quantize.py:183-216 | backward fails with `AxisNotFound` if and only if `ch_axis` is not in `0 .. ndim-1` (an `IndexError` at line 189 when `ch_axis` is outside `-ndim .. ndim-1`, a `KeyError` at line 205 when it is negative inside that range), and with `ZeroDimGradient` if and only if X is 1-D and `ch_axis` is 0 (line 208 then sums over every axis); otherwise dX, dScale and dZeroPoint have one entry per channel |
| PerChannelOp.Backward | torch/quantization/_learnable_fake_quantize.py:183-216 | the buffer-based backward, with one fresh buffer entry per channel for the summed gradients and the in-place `*=`, equals `BackwardResult` |
| PerChannelOp.BackwardIsPerTensorPerChannel | torch/quantization/_learnable_fake_quantize.py:183-216 | whenever backward succeeds (a valid axis and X of rank 2 or more), channel `c`'s dX, dScale and dZeroPoint are the per-tensor backward of channel `c` alone |
| PerChannelOp.InteriorChannelGetsNoZeroPointGradient | torch/quantization/_learnable_fake_quantize.py:208-211 | when backward succeeds, a channel whose codes are all strictly inside the range gets zero-point gradient 0 |
| FakeQuantizeModule.CheckConfig | torch/quantization/_learnable_fake_quantize.py:246-263 | construction succeeds if and only if `quant_min < quant_max`, `channel_len` is -1 or positive, and the range fits the dtype; it reports which assertion fails first |
| FakeQuantizeModule.FloorLog2 | torch/quantization/_learnable_fake_quantize.py:272-273 | the bitwidth `k` satisfies `2^k <= quant_max - quant_min + 1 < 2^(k+1)` |
| FakeQuantizeModule.Broadcast | torch/quantization/_learnable_fake_quantize.py:336-337 | `copy_` keeps the destination's length and broadcasts a one-element source |
| FakeQuantizeModule.TruncAllTruncatesTowardZero | torch/quantization/_learnable_fake_quantize.py:358-360 | every float zero point becomes the integer next to it toward zero (floor bounds when non-negative, ceiling bounds when negative), so an integral one is kept |
| FakeQuantizeModule.Dispatch | torch/quantization/_learnable_fake_quantize.py:339-366 | with fake_quant off, X is returned unchanged; the output always has X's shape |
| FakeQuantizeModule.MissingKeysAreAbsentLocalKeys | torch/quantization/_learnable_fake_quantize.py:376-386 | a key is appended to missing_keys if and only if loading is strict, the key is absent, and it is prefix + "scale" or prefix + "zero_point" |
| FakeQuantizeModule.Observed | torch/quantization/_learnable_fake_quantize.py:335-337 | the static-estimate step keeps each parameter's length |
| FakeQuantizeModule.LearnableFakeQuantize.constructor | torch/quantization/_learnable_fake_quantize.py:243-273 | after the checks: the flags are (1, 1, 0); the parameters have one element, or `channel_len` copies, all requiring grad; ch_axis is the observer's or -1; the bitwidth is the floor of log2 |
| FakeQuantizeModule.LearnableFakeQuantize.ToggleObserverUpdate | torch/quantization/_learnable_fake_quantize.py:303-306 | only static_enabled changes, to int(enabled), `enabled` defaulting to true; self is returned |
| FakeQuantizeModule.LearnableFakeQuantize.ToggleQParamLearning | torch/quantization/_learnable_fake_quantize.py:308-313 | only learning_enabled and the two requires_grad flags change, to enabled, which defaults to true; self is returned |
| FakeQuantizeModule.LearnableFakeQuantize.ToggleFakeQuant | torch/quantization/_learnable_fake_quantize.py:315-318 | only fake_quant_enabled changes, to int(enabled), `enabled` defaulting to true; self is returned |
| FakeQuantizeModule.LearnableFakeQuantize.EnableParamLearning | torch/quantization/_learnable_fake_quantize.py:275-283 | the flags (fake_quant, static, learning) become (1, 0, 1), both parameters require grad, and self is returned |
| FakeQuantizeModule.LearnableFakeQuantize.EnableStaticEstimate | torch/quantization/_learnable_fake_quantize.py:285-292 | the flags become (1, 1, 0) and no parameter requires grad |
| FakeQuantizeModule.LearnableFakeQuantize.EnableStaticObservation | torch/quantization/_learnable_fake_quantize.py:294-301 | the flags become (0, 1, 0), so forward returns X, and no parameter requires grad |
| FakeQuantizeModule.LearnableFakeQuantize.Forward | torch/quantization/_learnable_fake_quantize.py:329-366 | the observer's qparams are copied in only when static_enabled is 1; the result is `Dispatch` on the new parameters and flags |
| FakeQuantizeModule.LearnableFakeQuantize.LoadFromStateDict | torch/quantization/_learnable_fake_quantize.py:374-386 | a present key copies into scale or replaces zero_point, an absent one leaves the parameter alone, and missing_keys grows by exactly the absent local keys when strict |
| FakeQuantizeModule.DispatchIsIdempotent | torch/quantization/_learnable_fake_quantize.py:339-364 | with fake quantization on, applying forward to its own output with the same parameters changes nothing, on every path |
| FakeQuantizeModule.LearningPathAgreesOnIntegralZeroPoints | torch/quantization/_learnable_fake_quantize.py:339-364 | for in-range integral zero points, the corrected learnable ops and the native ops produce the same output |

## Left out

- IEEE floating point is not modelled: rounding error in `x * (1.0 / scale)`, NaN and Inf for a zero scale, float32 casts and dtype conversion. The model uses exact reals, and every scale must be positive.
- The native `torch.fake_quantize_per_tensor_affine` and `torch.fake_quantize_per_channel_affine` are foreign code. They are specified by their formula `(clamp(round(x/s + zp)) - zp) * s`. Their own argument checks (dtype, zero point in range) are not modelled. On the non-learning per-channel path (line 358) the float zero point is converted by truncation, like the int64 cast.
- Autograd plumbing is not modelled: `ctx`, `requires_grad` beyond a boolean field, device moves, and the `None` gradients for `q_min`, `q_max`, `ch_axis` and `grad_factor`. `Grads` holds only the three tensor gradients.
- The observer (`activation_post_process` and `calculate_qparams`, lines 326-331) is outside the model. Its dtype range, qscheme and ch_axis are the fields of `Observer`, and its qparams are arguments to `Forward`.
- `FakeQuantizeModule.FloorLog2`: exact integer log2. It does not model the double-precision `torch.log2`.
- The `use_grad_scaling` branch (lines 342-345) reads `self.weight`, which the module does not define. The gradient factor is an argument to `Forward` instead.
- Line 341, `self.zero_point.clamp(...)`, discards its result, so the model does nothing there.
- `observe_quant_params` (lines 321-323) only prints.
- `_save_to_state_dict` (lines 368-372) is outside the model.
- `_load_from_state_dict` leaves out three things:
  - the `super()` call (nn.Module code, which includes loading the flag buffers);
  - the `TypeError` that nn.Module's `setattr` raises when the value is not a `Parameter`;
  - the `requires_grad` of a loaded zero point.
- The caller's `missing_keys` list is modelled as a value that the method returns extended.
- Errors the source raises from library code become preconditions:
  - a `copy_` whose source does not broadcast;
  - `.item()` on a parameter with more than one element;
  - a channel count different from the number of scales.
- `PerTensorOp.Forward`: uses the corrected zero point, the floor of the clamped `zp + 0.5`, where line 141 truncates it. The two differ only when that value is a negative non-integer, which needs `q_min < 0`; `PerTensorOp.ForwardAsWritten` is the forward as written.
- `PerTensorOp.BackwardResult`: uses the corrected zero point where line 152 truncates it; the two agree whenever `q_min >= 0`.
- `PerChannelOp.Forward`: uses the corrected zero points where line 177 truncates them; the two agree whenever `q_min >= 0`. It does not check `ch_axis`, because the native op does that.
- `PerChannelOp.BackwardResult`: uses the corrected zero points where line 192 truncates them; the two agree whenever `q_min >= 0`. For a 1-D X with `ch_axis` 0 it returns the error `ZeroDimGradient` in place of the 0-d total that `sum(())` computes and that autograd then refuses for the one-per-channel scale; that shape check is autograd's and is not modelled otherwise.
- `FakeQuantizeModule.LearningPathAgreesOnIntegralZeroPoints`: holds for the corrected learnable ops. As written, line 141 moves a negative integral zero point by one, so with a signed range the two paths can differ (`PerTensorOp.ForwardAsWrittenShiftsOutput`).
- Tensor shapes beyond the channel-major slices are not modelled. `ndim` is carried only for the axis bookkeeping of backward.
- torch/testing/_internal/distributed/rpc_utils.py is not part of this model. It is test-harness plumbing with no logic to verify.

## Findings

| source | as written | input that shows it | evidently intended | confidence | as-written member | corrected member |
|---|---|---|---|---|---|---|
| torch/quantization/_learnable_fake_quantize.py:141 | `int((zero_point + 0.5).clamp(q_min, q_max))` rounds half up with Python `int()`, which truncates toward zero (likewise `.type(torch.int64)` at lines 152, 177 and 192) | zero_point = -3.0 with range [-128, 127]: -2.5 truncates to -2, so an integral zero point moves by one | round to the nearest integer, i.e. floor of the shifted, clamped value, which keeps every in-range integer | not executed | Quantization.TruncatedZeroPoint, Quantization.TruncatedZeroPointShiftsNegativeIntegers, PerTensorOp.ForwardAsWritten, PerTensorOp.ForwardAsWrittenShiftsOutput | Quantization.EffectiveZeroPoint, Quantization.EffectiveZeroPointKeepsIntegers |

The ops use the corrected `EffectiveZeroPoint`.
`Quantization.TruncatedZeroPointAgreesWhenNonNegative` shows that the two definitions agree for every non-negative range, such as the default [0, 255].
