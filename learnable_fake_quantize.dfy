/** `_LearnableFakeQuantize`: an nn.Module holding a learnable scale and zero point,
    three uint8 flags (fake quantization, static observer estimates, parameter
    learning), and a forward that dispatches to the learnable ops or to the native
    fake-quantize ops. Tensors passed to forward are held channel-major, as in the
    per-channel op; the observer is represented by the properties the module reads
    from it (its dtype range, qscheme and ch_axis) and by the qparams it returns. */
module FakeQuantizeModule {
  import opened Wrappers
  import opened Numerics
  import opened Quantization
  import PerTensorOp
  import PerChannelOp

  datatype QScheme = PerTensorAffine | PerTensorSymmetric | PerChannelAffine | PerChannelSymmetric

  predicate IsPerChannel(q: QScheme)
  {
    q == PerChannelAffine || q == PerChannelSymmetric
  }

  /** What the module reads from its observer: the range of the observer's dtype
      (torch.iinfo), its qscheme, and its ch_axis when it has one. */
  datatype Observer = Observer(dtypeMin: int, dtypeMax: int, qscheme: QScheme, chAxis: Option<int>)

  /** The assertions of `__init__`, in the order they are checked. */
  datatype ConfigError = QuantRangeError | ChannelLenError | QuantMinOutOfBound | QuantMaxOutOfBound

  /** Which assertion of `__init__` fails first, if any: quant_min < quant_max, then a
      channel_len other than -1 must be positive, then quant_min and quant_max must lie
      in the observer's dtype range. */
  function CheckConfig(observer: Observer, quantMin: int, quantMax: int, channelLen: int): (e: Option<ConfigError>)
    ensures e.None? <==>
      quantMin < quantMax && (channelLen == -1 || channelLen > 0) &&
      observer.dtypeMin <= quantMin && quantMax <= observer.dtypeMax
    ensures e == Some(QuantRangeError) <==> quantMax <= quantMin
    ensures e == Some(ChannelLenError) <==> quantMin < quantMax && channelLen != -1 && channelLen <= 0
    ensures e == Some(QuantMinOutOfBound) ==> quantMin < observer.dtypeMin
    ensures e == Some(QuantMaxOutOfBound) ==> observer.dtypeMax < quantMax && observer.dtypeMin <= quantMin
  {
    if quantMax <= quantMin then Some(QuantRangeError)
    else if channelLen != -1 && channelLen <= 0 then Some(ChannelLenError)
    else if quantMin < observer.dtypeMin then Some(QuantMinOutOfBound)
    else if observer.dtypeMax < quantMax then Some(QuantMaxOutOfBound)
    else None
  }

  function Pow2(k: nat): (p: nat)
    ensures p >= 1
  {
    if k == 0 then 1 else 2 * Pow2(k - 1)
  }

  /** `int(torch.log2(n))` for a positive integer: the exponent of the largest
      power of two not above n. */
  function {:induction false} FloorLog2(n: nat): (k: nat)
    requires n >= 1
    ensures Pow2(k) <= n < Pow2(k + 1)
  {
    if n == 1 then 0 else 1 + FloorLog2(n / 2)
  }

  /** `Tensor.copy_(src)` into a tensor of n elements: src must have n elements or
      one; a single element is broadcast. */
  predicate Broadcastable(src: seq<real>, n: nat)
  {
    |src| == n || |src| == 1
  }

  function Broadcast(src: seq<real>, n: nat): (r: seq<real>)
    requires Broadcastable(src, n)
    ensures |r| == n
    ensures forall i :: 0 <= i < n ==> r[i] == src[if |src| == n then i else 0]
  {
    if |src| == n then src else seq(n, _ => src[0])
  }

  /** The shapes the quantization parameters must have for the chosen op: one scale
      and one zero point per channel for the per-channel schemes, and a single one
      (`.item()`) otherwise; every scale positive. */
  predicate ParamsFit(x: seq<seq<real>>, qscheme: QScheme, scale: seq<real>, zeroPoint: seq<real>)
  {
    if IsPerChannel(qscheme) then
      |scale| == |x| && |zeroPoint| == |x| && forall c :: 0 <= c < |x| ==> scale[c] > 0.0
    else
      |scale| == 1 && |zeroPoint| == 1 && scale[0] > 0.0
  }

  /** Python int() of every zero point. */
  function TruncAll(zeroPoint: seq<real>): (z: seq<int>)
    ensures |z| == |zeroPoint|
  {
    seq(|zeroPoint|, c requires 0 <= c < |zeroPoint| => Trunc(zeroPoint[c]))
  }

  /** Every zero point is cut toward zero to the integer next to it, so an integral
      zero point is kept as it is. */
  lemma TruncAllTruncatesTowardZero(zeroPoint: seq<real>)
    ensures var z := TruncAll(zeroPoint);
      forall c :: 0 <= c < |z| ==>
        (0.0 <= zeroPoint[c] ==> z[c] as real <= zeroPoint[c] < z[c] as real + 1.0) &&
        (zeroPoint[c] < 0.0 ==> z[c] as real - 1.0 < zeroPoint[c] <= z[c] as real) &&
        (zeroPoint[c] == zeroPoint[c].Floor as real ==> z[c] == zeroPoint[c].Floor)
  {
  }

  /** The part of forward after the observer step (lines 339-366), given the current
      parameters and flags. With fake quantization off X is returned unchanged. With
      learning on, the learnable op of the scheme runs with the given grad_factor
      (which only its backward reads). With learning off the native op runs on the
      parameters as they are, the zero point cast by truncation. */
  function Dispatch(x: seq<seq<real>>, ndim: nat, scale: seq<real>, zeroPoint: seq<real>, fakeQuantEnabled: int,
                    learningEnabled: int, qscheme: QScheme, chAxis: int, quantMin: int, quantMax: int,
                    gradFactor: real): (y: seq<seq<real>>)
    requires fakeQuantEnabled == 1 ==> ParamsFit(x, qscheme, scale, zeroPoint)
    ensures fakeQuantEnabled != 1 ==> y == x
    ensures |y| == |x| && forall c :: 0 <= c < |x| ==> |y[c]| == |x[c]|
  {
    if fakeQuantEnabled != 1 then x
    else if learningEnabled == 1 then
      if IsPerChannel(qscheme) then
        PerChannelOp.Forward(x, ndim, scale, zeroPoint, chAxis, quantMin, quantMax, gradFactor).xfq
      else
        seq(|x|, c requires 0 <= c < |x| =>
          PerTensorOp.Forward(x[c], scale[0], zeroPoint[0], quantMin, quantMax, gradFactor).xfq)
    else if IsPerChannel(qscheme) then
      FakeQuantizePerChannelAffine(x, scale, TruncAll(zeroPoint), quantMin, quantMax)
    else
      seq(|x|, c requires 0 <= c < |x| =>
        FakeQuantizePerTensorAffine(x[c], scale[0], Trunc(zeroPoint[0]), quantMin, quantMax))
  }

  /** The keys `_load_from_state_dict` appends to missing_keys, in order: prefix +
      name for every local name whose key is absent, when strict. */
  function MissingKeys(stateDict: map<string, seq<real>>, prefix: string, strict: bool, names: seq<string>)
    : seq<string>
  {
    if names == [] then []
    else
      var key := prefix + names[|names| - 1];
      MissingKeys(stateDict, prefix, strict, names[..|names| - 1]) +
      (if key !in stateDict && strict then [key] else [])
  }

  /** A key is reported missing exactly when loading is strict, the key is absent
      and it is prefix + one of the local names. */
  lemma {:induction false} MissingKeysAreAbsentLocalKeys(stateDict: map<string, seq<real>>, prefix: string,
                                                        strict: bool, names: seq<string>, key: string)
    ensures key in MissingKeys(stateDict, prefix, strict, names) <==>
      strict && key !in stateDict && exists i :: 0 <= i < |names| && key == prefix + names[i]
  {
    if names != [] {
      var init := names[..|names| - 1];
      MissingKeysAreAbsentLocalKeys(stateDict, prefix, strict, init, key);
      if strict && key !in stateDict && exists i :: 0 <= i < |names| && key == prefix + names[i] {
        var i :| 0 <= i < |names| && key == prefix + names[i];
        if i < |names| - 1 {
          assert init[i] == names[i];
        }
      }
      if exists i :: 0 <= i < |init| && key == prefix + init[i] {
        var i :| 0 <= i < |init| && key == prefix + init[i];
        assert names[i] == init[i];
      }
    }
  }

  /** The parameter values after the static-estimate step: the observer's values
      copied in when static_enabled is 1, the current ones otherwise. */
  function Observed(current: seq<real>, observed: seq<real>, staticEnabled: int): (r: seq<real>)
    requires staticEnabled == 1 ==> Broadcastable(observed, |current|)
    ensures |r| == |current|
  {
    if staticEnabled == 1 then Broadcast(observed, |current|) else current
  }

  class LearnableFakeQuantize {
    const quantMin: int
    const quantMax: int
    const useGradScaling: bool
    const dtypeMin: int
    const dtypeMax: int
    const qscheme: QScheme
    const chAxis: int
    const bitwidth: nat
    var scale: seq<real>
    var zeroPoint: seq<real>
    var scaleRequiresGrad: bool
    var zeroPointRequiresGrad: bool
    var fakeQuantEnabled: int
    var staticEnabled: int
    var learningEnabled: int

    /** The range is non-empty and inside the dtype's, and every flag is 0 or 1. */
    ghost predicate Valid()
      reads this
    {
      quantMin < quantMax && dtypeMin <= quantMin && quantMax <= dtypeMax &&
      fakeQuantEnabled in {0, 1} && staticEnabled in {0, 1} && learningEnabled in {0, 1}
    }

    /** `__init__` once its assertions hold: one scale and one zero point, or
        channelLen of each, all parameters requiring gradients, fake quantization
        and static estimates on, learning off. */
    constructor (observer: Observer, quantMin: int := 0, quantMax: int := 255, scale: real := 1.0,
                 zeroPoint: real := 0.0, channelLen: int := -1, useGradScaling: bool := false)
      requires CheckConfig(observer, quantMin, quantMax, channelLen).None?
      ensures Valid()
      ensures this.quantMin == quantMin && this.quantMax == quantMax && this.useGradScaling == useGradScaling
      ensures dtypeMin == observer.dtypeMin && dtypeMax == observer.dtypeMax && qscheme == observer.qscheme
      ensures chAxis == (if observer.chAxis.Some? then observer.chAxis.value else -1)
      ensures var n := if channelLen == -1 then 1 else channelLen;
        this.scale == seq(n, _ => scale) && this.zeroPoint == seq(n, _ => zeroPoint)
      ensures scaleRequiresGrad && zeroPointRequiresGrad
      ensures fakeQuantEnabled == 1 && staticEnabled == 1 && learningEnabled == 0
      ensures Pow2(bitwidth) <= quantMax - quantMin + 1 < Pow2(bitwidth + 1)
    {
      this.quantMin := quantMin;
      this.quantMax := quantMax;
      this.useGradScaling := useGradScaling;
      var n := if channelLen == -1 then 1 else channelLen;
      this.scale := seq(n, _ => scale);
      this.zeroPoint := seq(n, _ => zeroPoint);
      scaleRequiresGrad := true;
      zeroPointRequiresGrad := true;
      dtypeMin := observer.dtypeMin;
      dtypeMax := observer.dtypeMax;
      qscheme := observer.qscheme;
      chAxis := if observer.chAxis.Some? then observer.chAxis.value else -1;
      fakeQuantEnabled := 1;
      staticEnabled := 1;
      learningEnabled := 0;
      bitwidth := FloorLog2(quantMax - quantMin + 1);
    }

    /** `toggle_observer_update`: static_enabled becomes int(enabled); returns self. */
    method ToggleObserverUpdate(enabled: bool := true) returns (self: LearnableFakeQuantize)
      requires Valid()
      modifies this`staticEnabled
      ensures Valid() && self == this
      ensures staticEnabled == (if enabled then 1 else 0)
    {
      staticEnabled := if enabled then 1 else 0;
      self := this;
    }

    /** `toggle_qparam_learning`: learning_enabled becomes int(enabled) and both
        parameters require gradients exactly when enabled; returns self. */
    method ToggleQParamLearning(enabled: bool := true) returns (self: LearnableFakeQuantize)
      requires Valid()
      modifies this`learningEnabled, this`scaleRequiresGrad, this`zeroPointRequiresGrad
      ensures Valid() && self == this
      ensures learningEnabled == (if enabled then 1 else 0)
      ensures scaleRequiresGrad == enabled && zeroPointRequiresGrad == enabled
    {
      learningEnabled := if enabled then 1 else 0;
      scaleRequiresGrad := enabled;
      zeroPointRequiresGrad := enabled;
      self := this;
    }

    /** `toggle_fake_quant`: fake_quant_enabled becomes int(enabled); returns self. */
    method ToggleFakeQuant(enabled: bool := true) returns (self: LearnableFakeQuantize)
      requires Valid()
      modifies this`fakeQuantEnabled
      ensures Valid() && self == this
      ensures fakeQuantEnabled == (if enabled then 1 else 0)
    {
      fakeQuantEnabled := if enabled then 1 else 0;
      self := this;
    }

    /** `enable_param_learning`: learning on, fake quantization on, observer updates
        off; returns self. */
    method EnableParamLearning() returns (self: LearnableFakeQuantize)
      requires Valid()
      modifies this`learningEnabled, this`scaleRequiresGrad, this`zeroPointRequiresGrad
      modifies this`fakeQuantEnabled, this`staticEnabled
      ensures Valid() && self == this
      ensures learningEnabled == 1 && fakeQuantEnabled == 1 && staticEnabled == 0
      ensures scaleRequiresGrad && zeroPointRequiresGrad
    {
      var m := ToggleQParamLearning(true);
      m := m.ToggleFakeQuant(true);
      m := m.ToggleObserverUpdate(false);
      self := this;
    }

    /** `enable_static_estimate`: learning off, fake quantization on, observer
        updates on. The source returns nothing here. */
    method EnableStaticEstimate()
      requires Valid()
      modifies this`learningEnabled, this`scaleRequiresGrad, this`zeroPointRequiresGrad
      modifies this`fakeQuantEnabled, this`staticEnabled
      ensures Valid()
      ensures learningEnabled == 0 && fakeQuantEnabled == 1 && staticEnabled == 1
      ensures !scaleRequiresGrad && !zeroPointRequiresGrad
    {
      var m := ToggleQParamLearning(false);
      m := m.ToggleFakeQuant(true);
      m := m.ToggleObserverUpdate(true);
    }

    /** `enable_static_observation`: learning off, fake quantization off (forward
        returns X), observer updates on. The source returns nothing here. */
    method EnableStaticObservation()
      requires Valid()
      modifies this`learningEnabled, this`scaleRequiresGrad, this`zeroPointRequiresGrad
      modifies this`fakeQuantEnabled, this`staticEnabled
      ensures Valid()
      ensures learningEnabled == 0 && fakeQuantEnabled == 0 && staticEnabled == 1
      ensures !scaleRequiresGrad && !zeroPointRequiresGrad
    {
      var m := ToggleQParamLearning(false);
      m := m.ToggleFakeQuant(false);
      m := m.ToggleObserverUpdate(true);
    }

    /** `forward`, given the observer's qparams for this input and the gradient
        factor: when static_enabled is 1 the qparams are copied into scale and
        zero_point (broadcast as `copy_` does), and then the output is `Dispatch` on
        the resulting parameters and flags. */
    method Forward(x: seq<seq<real>>, ndim: nat, observedScale: seq<real>, observedZeroPoint: seq<real>,
                   gradFactor: real) returns (y: seq<seq<real>>)
      requires Valid()
      requires staticEnabled == 1 ==>
        Broadcastable(observedScale, |scale|) && Broadcastable(observedZeroPoint, |zeroPoint|)
      requires fakeQuantEnabled == 1 ==>
        ParamsFit(x, qscheme, Observed(scale, observedScale, staticEnabled),
                  Observed(zeroPoint, observedZeroPoint, staticEnabled))
      modifies this`scale, this`zeroPoint
      ensures Valid()
      ensures scale == Observed(old(scale), observedScale, staticEnabled)
      ensures zeroPoint == Observed(old(zeroPoint), observedZeroPoint, staticEnabled)
      ensures y == Dispatch(x, ndim, scale, zeroPoint, fakeQuantEnabled, learningEnabled, qscheme, chAxis,
                            quantMin, quantMax, gradFactor)
    {
      if staticEnabled == 1 {
        scale := Broadcast(observedScale, |scale|);
        zeroPoint := Broadcast(observedZeroPoint, |zeroPoint|);
      }
      y := Dispatch(x, ndim, scale, zeroPoint, fakeQuantEnabled, learningEnabled, qscheme, chAxis,
                    quantMin, quantMax, gradFactor);
    }

    /** The key logic of `_load_from_state_dict`: for "scale" then "zero_point", a
        present key copies its value into scale (broadcast as `copy_` does) or
        replaces zero_point; an absent key is appended to missing_keys when strict.
        The caller's list is returned extended. */
    method LoadFromStateDict(stateDict: map<string, seq<real>>, prefix: string, strict: bool,
                             missingKeys: seq<string>) returns (missing: seq<string>)
      requires Valid()
      requires prefix + "scale" in stateDict ==> Broadcastable(stateDict[prefix + "scale"], |scale|)
      modifies this`scale, this`zeroPoint
      ensures Valid()
      ensures scale == (if prefix + "scale" in stateDict then Broadcast(stateDict[prefix + "scale"], |old(scale)|)
                        else old(scale))
      ensures zeroPoint == (if prefix + "zero_point" in stateDict then stateDict[prefix + "zero_point"]
                            else old(zeroPoint))
      ensures missing == missingKeys + MissingKeys(stateDict, prefix, strict, ["scale", "zero_point"])
    {
      var localState := ["scale", "zero_point"];
      missing := missingKeys;
      for i := 0 to |localState|
        invariant missing == missingKeys + MissingKeys(stateDict, prefix, strict, localState[..i])
        invariant scale == (if i > 0 && prefix + "scale" in stateDict
                            then Broadcast(stateDict[prefix + "scale"], |old(scale)|) else old(scale))
        invariant zeroPoint == (if i > 1 && prefix + "zero_point" in stateDict
                                then stateDict[prefix + "zero_point"] else old(zeroPoint))
      {
        var name := localState[i];
        var key := prefix + name;
        assert localState[..i + 1][..i] == localState[..i];
        if key in stateDict {
          var val := stateDict[key];
          if name == "scale" {
            scale := Broadcast(val, |scale|);
          } else {
            zeroPoint := val;
          }
        } else if strict {
          missing := missing + [key];
        }
      }
      assert localState[..|localState|] == localState;
    }
  }

  // ---------------------------------------------------------------------------
  // Properties of forward

  /** With fake quantization on, the output is fake-quantized: forward applied to
      its own output with the same parameters and flags changes nothing. */
  lemma DispatchIsIdempotent(x: seq<seq<real>>, ndim: nat, scale: seq<real>, zeroPoint: seq<real>,
                             learningEnabled: int, qscheme: QScheme, chAxis: int, quantMin: int, quantMax: int,
                             gradFactor: real)
    requires ParamsFit(x, qscheme, scale, zeroPoint) && quantMin <= quantMax
    ensures var y :=
        Dispatch(x, ndim, scale, zeroPoint, 1, learningEnabled, qscheme, chAxis, quantMin, quantMax, gradFactor);
      Dispatch(y, ndim, scale, zeroPoint, 1, learningEnabled, qscheme, chAxis, quantMin, quantMax, gradFactor) == y
  {
    var y := Dispatch(x, ndim, scale, zeroPoint, 1, learningEnabled, qscheme, chAxis, quantMin, quantMax, gradFactor);
    var yy := Dispatch(y, ndim, scale, zeroPoint, 1, learningEnabled, qscheme, chAxis, quantMin, quantMax, gradFactor);
    forall c | 0 <= c < |x| ensures yy[c] == y[c] {
      var k := if IsPerChannel(qscheme) then c else 0;
      var z := if learningEnabled == 1 then EffectiveZeroPoint(zeroPoint[k], quantMin, quantMax)
               else Trunc(zeroPoint[k]);
      assert y[c] == FakeQuantizePerTensorAffine(x[c], scale[k], z, quantMin, quantMax);
      assert yy[c] == FakeQuantizePerTensorAffine(y[c], scale[k], z, quantMin, quantMax);
      FakeQuantizeTensorIdempotent(x[c], scale[k], z, quantMin, quantMax);
    }
    assert yy == y;
  }

  /** When every zero point is an integer in [quant_min, quant_max], the learnable
      path (learning on) and the native path (learning off) compute the same output. */
  lemma LearningPathAgreesOnIntegralZeroPoints(x: seq<seq<real>>, ndim: nat, scale: seq<real>, zeroPoint: seq<int>,
                                               qscheme: QScheme, chAxis: int, quantMin: int, quantMax: int,
                                               gradFactor: real)
    requires ParamsFit(x, qscheme, scale, AsReals(zeroPoint))
    requires forall c :: 0 <= c < |zeroPoint| ==> quantMin <= zeroPoint[c] <= quantMax
    ensures Dispatch(x, ndim, scale, AsReals(zeroPoint), 1, 1, qscheme, chAxis, quantMin, quantMax, gradFactor)
         == Dispatch(x, ndim, scale, AsReals(zeroPoint), 1, 0, qscheme, chAxis, quantMin, quantMax, gradFactor)
  {
    var zp := AsReals(zeroPoint);
    var learned := Dispatch(x, ndim, scale, zp, 1, 1, qscheme, chAxis, quantMin, quantMax, gradFactor);
    var native := Dispatch(x, ndim, scale, zp, 1, 0, qscheme, chAxis, quantMin, quantMax, gradFactor);
    forall c | 0 <= c < |x| ensures learned[c] == native[c] {
      var k := if IsPerChannel(qscheme) then c else 0;
      EffectiveZeroPointKeepsIntegers(zeroPoint[k], quantMin, quantMax);
      assert Trunc(zp[k]) == zeroPoint[k];
      assert learned[c] == FakeQuantizePerTensorAffine(x[c], scale[k], zeroPoint[k], quantMin, quantMax);
    }
    assert learned == native;
  }

}
