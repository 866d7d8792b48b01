/**
 * `DefaultSmoothingOscilationEWMA`: the oscillation gate decides which steps count, and each
 * counted step moves the estimate towards the model's weights, S := S·(1 − a) + x·a. The
 * estimate starts as a copy of the weights handed to `__setDictionary__`.
 */
module Ewma {
  import opened Wrappers
  import opened Sums
  import opened RunningMean
  import opened WeightMaps
  import opened SmoothingBase
  import opened Oscillation

  /** The metadata default for `movingAvgParam`. */
  const DefaultMovingAvgParam: real := 0.27

  /** One entry's update with parameter `a`. */
  function Blend(a: real): (real, real) -> real
  {
    (s, x) => s * (1.0 - a) + x * a
  }

  /** The estimate of one entry after the samples `xs`, starting from `s0`. */
  function EwmaOf(s0: real, xs: seq<real>, a: real): real
  {
    if |xs| == 0 then s0 else EwmaOf(s0, xs[..|xs| - 1], a) * (1.0 - a) + xs[|xs| - 1] * a
  }

  /** The estimate dictionary after the samples `xs`, starting from `acc`. */
  function EwmaAll(acc: Weights, xs: seq<Weights>, a: real): (r: Weights)
    ensures r.Keys == acc.Keys
  {
    if |xs| == 0 then acc
    else Pointwise(EwmaAll(acc, xs[..|xs| - 1], a), xs[|xs| - 1], xs[|xs| - 1].Keys, Blend(a))
  }

  /** Entry by entry, the dictionary estimate is the scalar one over that entry's column. */
  lemma {:induction false} EwmaAllColumn(acc: Weights, xs: seq<Weights>, a: real, k: string)
    requires k in acc && forall i :: 0 <= i < |xs| ==> k in xs[i]
    ensures EwmaAll(acc, xs, a)[k] == EwmaOf(acc[k], Column(xs, k), a)
  {
    if |xs| > 0 {
      var init := xs[..|xs| - 1];
      EwmaAllColumn(acc, init, a, k);
      assert Column(xs, k)[..|xs| - 1] == Column(init, k);
    }
  }

  /** A product of two non-negative reals is non-negative. */
  lemma MulNonneg(p: real, q: real)
    requires 0.0 <= p && 0.0 <= q
    ensures 0.0 <= p * q
  {
  }

  /** A convex step stays between the bounds of what it combines. */
  lemma BlendBounded(s: real, x: real, a: real, lo: real, hi: real)
    requires 0.0 < a < 1.0 && lo <= s <= hi && lo <= x <= hi
    ensures lo <= s * (1.0 - a) + x * a <= hi
  {
    MulNonneg(s - lo, 1.0 - a);
    MulNonneg(x - lo, a);
    MulNonneg(hi - s, 1.0 - a);
    MulNonneg(hi - x, a);
    assert s * (1.0 - a) + x * a - lo == (s - lo) * (1.0 - a) + (x - lo) * a;
    assert hi - (s * (1.0 - a) + x * a) == (hi - s) * (1.0 - a) + (hi - x) * a;
  }

  /** For 0 < a < 1 the estimate never leaves the range of the start value and the samples. */
  lemma {:induction false} EwmaBounded(s0: real, xs: seq<real>, a: real, lo: real, hi: real)
    requires 0.0 < a < 1.0 && lo <= s0 <= hi
    requires forall i :: 0 <= i < |xs| ==> lo <= xs[i] <= hi
    ensures lo <= EwmaOf(s0, xs, a) <= hi
  {
    if |xs| > 0 {
      EwmaBounded(s0, xs[..|xs| - 1], a, lo, hi);
      BlendBounded(EwmaOf(s0, xs[..|xs| - 1], a), xs[|xs| - 1], a, lo, hi);
    }
  }

  /**
   * The start value's influence decays geometrically: two runs over the same samples differ by
   * (1 − a)ⁿ times the difference of their start values. This is why starting from a copy of
   * the weights instead of zeros matters.
   */
  lemma {:induction false} StartValueDecays(s0: real, t0: real, xs: seq<real>, a: real)
    ensures EwmaOf(s0, xs, a) - EwmaOf(t0, xs, a) == Pow(1.0 - a, |xs|) * (s0 - t0)
  {
    if |xs| > 0 {
      var init := xs[..|xs| - 1];
      StartValueDecays(s0, t0, init, a);
      StepScalesDifference(EwmaOf(s0, init, a), EwmaOf(t0, init, a), xs[|xs| - 1], a, Pow(1.0 - a, |init|), s0 - t0);
    }
  }

  /** One step multiplies the difference of two estimates by 1 − a. */
  lemma StepScalesDifference(u: real, v: real, x: real, a: real, p: real, d: real)
    requires u - v == p * d
    ensures (u * (1.0 - a) + x * a) - (v * (1.0 - a) + x * a) == ((1.0 - a) * p) * d
  {
    assert (u * (1.0 - a) + x * a) - (v * (1.0 - a) + x * a) == (u - v) * (1.0 - a);
  }

  /** With a = 0.5, start 2.0 and one sample 4.0 the estimate is 3.0. */
  lemma HalfwayExample()
    ensures EwmaOf(2.0, [4.0], 0.5) == 3.0
  {
    assert [4.0][..0] == [];
  }

  class EwmaSmoothing {
    const core: SmoothingCore
    const gate: OscillationGate
    const movingAvgParam: real
    var weightsSum: Weights

    ghost predicate Valid()
      reads gate.lossContainer, gate.tensorPrevSum
    {
      gate.Valid() && 0.0 < movingAvgParam < 1.0
    }

    /** What `__getSmoothedWeights__` hands out: `{}` while disabled or before any counted step. */
    ghost function Smoothed(): Weights
      reads this, core, gate
    {
      if !core.enabled || gate.countWeights == 0 then map[] else weightsSum
    }

    constructor (config: OscillationConfig, a: real)
      requires ValidateConfig(config).Ok? && ValidateMovingAvgParam(a).Ok?
      requires config.lossContainerSize > 0 && config.weightSumContainerSize > 0
      ensures Valid() && fresh(core) && fresh(gate) && fresh(gate.lossContainer) && fresh(gate.tensorPrevSum)
      ensures gate.config == config && movingAvgParam == a && weightsSum == map[] && !core.enabled
      ensures gate.countWeights == 0 && !gate.alwaysOn && gate.lossContainer.pushed == []
    {
      core := new SmoothingCore();
      gate := new OscillationGate(config);
      weightsSum := map[];
      movingAvgParam := a;
    }

    /** `calcMean`: every entry of the sample blended into the estimate, `KeyError` on an unknown name. */
    method CalcMean(weights: Weights, order: seq<string>) returns (err: Option<Raised>)
      requires Enumerates(order, weights)
      modifies this`weightsSum
      ensures var j := FirstMissing(order, old(weightsSum));
              && weightsSum == Pointwise(old(weightsSum), weights, Visited(order, j), Blend(movingAvgParam))
              && err == (if j < |order| then Some(KeyError(order[j])) else None)
      ensures weights.Keys <= old(weightsSum).Keys ==>
                err.None? && weightsSum == Pointwise(old(weightsSum), weights, weights.Keys, Blend(movingAvgParam))
    {
      MissingIffUnknownName(old(weightsSum), weights, order);
      if weights.Keys <= weightsSum.Keys {
        UpdateAll(weightsSum, weights, order, Blend(movingAvgParam));
      }
      weightsSum, err := UpdateEntries(weightsSum, weights, order, Blend(movingAvgParam));
    }

    /**
     * `__call__`: the loss goes through the oscillation gate; a counted step blends the model's
     * weights into the estimate.
     */
    method Call(loss: real, total: int, maxTotal: nat, weights: Weights, order: seq<string>) returns (r: Result<bool>)
      requires Valid() && Enumerates(order, weights)
      modifies gate`countWeights, gate`weightsComputed, gate`alwaysOn, gate.lossContainer, this`weightsSum
      ensures Valid()
      ensures gate.lossContainer.pushed == old(gate.lossContainer.pushed) + [loss]
      ensures gate.LossDiff().Some?
      ensures (Ok(gate.weightsComputed), gate.alwaysOn) == Gate(gate.config, gate.LossDiff(), old(gate.alwaysOn), total, maxTotal)
      ensures var accepted := gate.alwaysOn || gate.weightsComputed;
              && gate.countWeights == old(gate.countWeights) + (if accepted then 1 else 0)
              && (!accepted ==> r == Ok(false) && weightsSum == old(weightsSum))
              && (accepted && weights.Keys <= old(weightsSum).Keys ==>
                    r == Ok(true) && weightsSum == Pointwise(old(weightsSum), weights, weights.Keys, Blend(movingAvgParam)))
              && (accepted && !(weights.Keys <= old(weightsSum).Keys) ==> r.Err? && r.error.KeyError?)
    {
      var accepted := gate.Call(loss, total, maxTotal);
      if accepted {
        MissingIffUnknownName(weightsSum, weights, order);
        var err := CalcMean(weights, order);
        if err.Some? {
          return Err(err.value);
        }
        return Ok(true);
      }
      return Ok(false);
    }

    /** `__getSmoothedWeights__`: a copy of the estimate once a step was counted, `{}` before. */
    method GetSmoothedWeights() returns (r: Weights)
      ensures r == Smoothed()
    {
      var average := core.BaseSmoothedWeights();
      if average.Some? {
        return average.value;
      }
      if gate.countWeights == 0 {
        return map[];
      }
      return weightsSum;
    }

    /** `__setDictionary__`: enables the strategy and starts each named entry at the given value. */
    method SetDictionary(dictionary: Weights)
      modifies core, this`weightsSum
      ensures core.enabled && core.savedWeightsState == old(core.savedWeightsState)
      ensures weightsSum == old(weightsSum) + dictionary
    {
      core.SetDictionary();
      weightsSum := weightsSum + dictionary;
    }

    /** `__isSmoothingGoodEnough__` on the strategy's own smoothed weights. */
    method IsSmoothingGoodEnough(order: seq<string>) returns (r: Result<bool>)
      requires Valid() && Enumerates(order, Smoothed())
      modifies gate`divisionCounter, gate`goodEnoughCounter, gate.tensorPrevSum
      ensures Valid() && gate.GoodEnoughFrom(old(gate.divisionCounter), old(gate.goodEnoughCounter), old(gate.tensorPrevSum.pushed),
                                              old(Smoothed()), order, r)
    {
      var smoothed := GetSmoothedWeights();
      r := gate.IsSmoothingGoodEnough(smoothed, order);
    }
  }

  /**
   * The constructor's checks in the source's order: the metadata's own validation, then the
   * moving-average parameter, whose rejection surfaces as `AttributeError`.
   */
  method CreateEwma(config: OscillationConfig, a: real) returns (r: Result<EwmaSmoothing>)
    requires config.lossContainerSize > 0 && config.weightSumContainerSize > 0
    ensures r.Ok? <==> ValidateConfig(config).Ok? && 0.0 < a < 1.0
    ensures ValidateConfig(config).Err? ==> r == Err(ValidateConfig(config).error)
    ensures ValidateConfig(config).Ok? && !(0.0 < a < 1.0) ==> r == Err(AttributeError)
    ensures r.Ok? ==> fresh(r.value) && r.value.Valid() && r.value.movingAvgParam == a && r.value.gate.config == config
  {
    var c := ValidateConfig(config);
    if c.Err? {
      return Err(c.error);
    }
    var p := ValidateMovingAvgParam(a);
    if p.Err? {
      return Err(p.error);
    }
    var e := new EwmaSmoothing(config, a);
    r := Ok(e);
  }

  /**
   * A run of the estimate: enabled with the dictionary `d`, then `calcMean` on each sample in
   * turn, every sample naming only entries of `d`. The estimate is the dictionary fold of the
   * samples, entry by entry the scalar recurrence over that entry's column.
   */
  method RunEwma(d: Weights, xs: seq<Weights>, orders: seq<seq<string>>, a: real) returns (estimate: Weights)
    requires 0.0 < a < 1.0 && |orders| == |xs|
    requires forall i :: 0 <= i < |xs| ==> xs[i].Keys <= d.Keys && Enumerates(orders[i], xs[i])
    ensures estimate == EwmaAll(d, xs, a)
  {
    DefaultsAreValid();
    var e: EwmaSmoothing := new EwmaSmoothing(DefaultConfig(), a);
    e.SetDictionary(d);
    assert e.weightsSum == d;
    var i := 0;
    while i < |xs|
      invariant 0 <= i <= |xs|
      invariant e.movingAvgParam == a && e.weightsSum == EwmaAll(d, xs[..i], a)
      modifies e`weightsSum
    {
      var err := e.CalcMean(xs[i], orders[i]);
      assert xs[..i + 1][..i] == xs[..i];
      i := i + 1;
    }
    assert xs[..i] == xs;
    estimate := e.weightsSum;
  }
}
