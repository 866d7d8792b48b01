/**
 * `DefaultSmoothingOscilationGeneralizedMean`: the oscillation gate decides which steps count,
 * and each counted step feeds the model's weights to a `RunningGeneralMeanWeights` made by
 * `__setDictionary__` from zeros with the metadata's `generalizedMeanPower` (default 1).
 */
module GeneralizedMean {
  import opened Wrappers
  import opened Sums
  import opened RunningMean
  import opened WeightMaps
  import opened SmoothingBase
  import opened Oscillation

  /** The metadata default for `generalizedMeanPower`. */
  const DefaultPower := 1

  /** What `getWeights` hands out for the averages `avg`: their roots when `power > 1`. */
  function Rooted(avg: Weights, power: int, root: real -> real): (r: Weights)
    ensures r.Keys == avg.Keys
    ensures power <= 1 ==> r == avg
  {
    if power > 1 then map k | k in avg :: root(avg[k]) else avg
  }

  /** Feeding one more sample after `xs` is one more `Step` at count `n + |xs|`. */
  lemma {:induction false} AddAllSnoc(avg: Weights, n: nat, xs: seq<Weights>, x: Weights, power: int)
    ensures AddAll(avg, n, xs + [x], power) == Step(AddAll(avg, n, xs, power), x, n + |xs|, power)
    decreases |xs|
  {
    if |xs| == 0 {
      assert ([] + [x])[1..] == [];
    } else {
      assert (xs + [x])[0] == xs[0] && (xs + [x])[1..] == xs[1..] + [x];
      AddAllSnoc(Step(avg, xs[0], n, power), n + 1, xs[1..], x, power);
    }
  }

  /** The same, for the prefixes of one sequence of samples. */
  lemma AddAllPrefix(avg: Weights, xs: seq<Weights>, i: nat, power: int)
    requires i < |xs|
    ensures AddAll(avg, 0, xs[..i + 1], power) == Step(AddAll(avg, 0, xs[..i], power), xs[i], i, power)
  {
    assert xs[..i + 1] == xs[..i] + [xs[i]];
    AddAllSnoc(avg, 0, xs[..i], xs[i], power);
  }

  class GeneralizedMeanSmoothing {
    const core: SmoothingCore
    const gate: OscillationGate
    const generalizedMeanPower: int
    /** `None` until `__setDictionary__` succeeded. */
    var mean: RunningGeneralMeanWeights?

    ghost predicate Valid()
      reads this, gate.lossContainer, gate.tensorPrevSum
    {
      gate.Valid() && (mean != null ==> mean.power == generalizedMeanPower && mean.power > 0)
    }

    /** What `__getSmoothedWeights__` returns or raises. */
    ghost function Smoothed(root: real -> real): Result<Weights>
      reads this, core, mean
    {
      if !core.enabled then Ok(map[])
      else if mean == null then Err(AttributeError)
      else Ok(Rooted(mean.weightsDictAvg, mean.power, root))
    }

    constructor (config: OscillationConfig, generalizedMeanPower: int)
      requires ValidateConfig(config).Ok?
      requires config.lossContainerSize > 0 && config.weightSumContainerSize > 0
      ensures Valid() && fresh(core) && fresh(gate) && fresh(gate.lossContainer) && fresh(gate.tensorPrevSum)
      ensures gate.config == config && this.generalizedMeanPower == generalizedMeanPower
      ensures mean == null && !core.enabled && gate.countWeights == 0
    {
      core := new SmoothingCore();
      gate := new OscillationGate(config);
      this.generalizedMeanPower := generalizedMeanPower;
      mean := null;
    }

    /**
     * `__setDictionary__`: enables the strategy, then builds the running mean from zeros; a power
     * of 0 or less raises after the strategy was enabled, and the old running mean stays.
     */
    method SetDictionary(dictionary: Weights) returns (err: Option<Raised>)
      requires Valid()
      modifies core, this`mean
      ensures Valid() && core.enabled && core.savedWeightsState == old(core.savedWeightsState)
      ensures generalizedMeanPower <= 0 ==> err == Some(Rejected(NegativePower)) && mean == old(mean)
      ensures generalizedMeanPower > 0 ==>
                && err.None? && mean != null && fresh(mean)
                && mean.weightsDictAvg == Zeros(dictionary) && mean.N == 0
    {
      core.SetDictionary();
      var m := Create(dictionary, true, generalizedMeanPower);
      if m.Err? {
        return Some(m.error);
      }
      mean := m.value;
      err := None;
    }

    /** `calcMean`: the sample goes to the running mean; before `__setDictionary__` there is none. */
    method CalcMean(weights: Weights, order: seq<string>) returns (err: Option<Raised>)
      requires Valid() && Enumerates(order, weights)
      modifies mean
      ensures Valid()
      ensures mean == null ==> err == Some(AttributeError)
      ensures mean != null ==>
                && mean.weightsDictAvg.Keys == old(mean.weightsDictAvg).Keys
                && (err.None? <==> weights.Keys <= old(mean.weightsDictAvg).Keys)
                && (err.None? ==> mean.N == old(mean.N) + 1
                                  && mean.weightsDictAvg == Step(old(mean.weightsDictAvg), weights, old(mean.N), mean.power))
                && (err.Some? ==> err == Some(Rejected(UnknownWeightName)) && mean.N == old(mean.N))
    {
      if mean == null {
        return Some(AttributeError);
      }
      AddWeightsOutcome(mean.weightsDictAvg, weights, order, mean.N, mean.power);
      err := mean.AddWeights(weights, order);
    }

    /**
     * `__call__`: the loss goes through the oscillation gate; a counted step feeds the model's
     * weights to the running mean, whose error propagates.
     */
    method Call(loss: real, total: int, maxTotal: nat, weights: Weights, order: seq<string>) returns (r: Result<bool>)
      requires Valid() && Enumerates(order, weights)
      modifies gate`countWeights, gate`weightsComputed, gate`alwaysOn, gate.lossContainer, mean
      ensures Valid()
      ensures gate.lossContainer.pushed == old(gate.lossContainer.pushed) + [loss]
      ensures gate.LossDiff().Some?
      ensures (Ok(gate.weightsComputed), gate.alwaysOn) == Gate(gate.config, gate.LossDiff(), old(gate.alwaysOn), total, maxTotal)
      ensures var accepted := gate.alwaysOn || gate.weightsComputed;
              && gate.countWeights == old(gate.countWeights) + (if accepted then 1 else 0)
              && (!accepted ==> r == Ok(false) && (mean != null ==> mean.N == old(mean.N) && mean.weightsDictAvg == old(mean.weightsDictAvg)))
              && (accepted && mean == null ==> r == Err(AttributeError))
              && (accepted && mean != null && weights.Keys <= old(mean.weightsDictAvg).Keys ==>
                    && r == Ok(true) && mean.N == old(mean.N) + 1
                    && mean.weightsDictAvg == Step(old(mean.weightsDictAvg), weights, old(mean.N), mean.power))
              && (accepted && mean != null && !(weights.Keys <= old(mean.weightsDictAvg).Keys) ==>
                    r == Err(Rejected(UnknownWeightName)) && mean.N == old(mean.N))
    {
      var accepted := gate.Call(loss, total, maxTotal);
      if !accepted {
        return Ok(false);
      }
      if mean == null {
        return Err(AttributeError);
      }
      assert mean.N == old(mean.N) && mean.weightsDictAvg == old(mean.weightsDictAvg);
      var err := CalcMean(weights, order);
      if err.Some? {
        return Err(err.value);
      }
      return Ok(true);
    }

    /** `__getSmoothedWeights__`: `{}` while disabled, otherwise the running mean's weights. */
    method GetSmoothedWeights(root: real -> real) returns (r: Result<Weights>)
      requires Valid()
      ensures r == Smoothed(root)
    {
      var average := core.BaseSmoothedWeights();
      if average.Some? {
        return Ok(average.value);
      }
      if mean == null {
        return Err(AttributeError);
      }
      var w := mean.GetWeights(root);
      assert w == Rooted(mean.weightsDictAvg, mean.power, root);
      r := Ok(w);
    }

    /**
     * `__isSmoothingGoodEnough__`: past the soft margin the smoothed weights are read, and an
     * error there propagates after the division counter was advanced; otherwise the oscillation
     * check runs on them.
     */
    method IsSmoothingGoodEnough(order: seq<string>, root: real -> real) returns (r: Result<bool>)
      requires Valid() && (Smoothed(root).Ok? ==> Enumerates(order, Smoothed(root).value))
      modifies gate`divisionCounter, gate`goodEnoughCounter, gate.tensorPrevSum
      ensures Valid()
      ensures gate.countWeights as int <= gate.config.softMarginAdditionalLoops ==>
                && r == Ok(false) && gate.divisionCounter == old(gate.divisionCounter)
                && gate.goodEnoughCounter == old(gate.goodEnoughCounter)
                && gate.tensorPrevSum.pushed == old(gate.tensorPrevSum.pushed)
      ensures gate.countWeights as int > gate.config.softMarginAdditionalLoops && old(Smoothed(root)).Err? ==>
                && r == Err(AttributeError) && gate.divisionCounter == old(gate.divisionCounter) + 1
                && gate.goodEnoughCounter == old(gate.goodEnoughCounter)
                && gate.tensorPrevSum.pushed == old(gate.tensorPrevSum.pushed)
      ensures old(Smoothed(root)).Ok? ==> gate.GoodEnoughFrom(old(gate.divisionCounter), old(gate.goodEnoughCounter), old(gate.tensorPrevSum.pushed),
                                                                   old(Smoothed(root)).value, order, r)
    {
      if gate.countWeights as int <= gate.config.softMarginAdditionalLoops {
        return Ok(false);
      }
      var smoothed := GetSmoothedWeights(root);
      if smoothed.Err? {
        gate.divisionCounter := gate.divisionCounter + 1;
        return Err(smoothed.error);
      }
      r := gate.IsSmoothingGoodEnough(smoothed.value, order);
    }
  }

  /**
   * A run of the running mean: `__setDictionary__` with `d` and a positive power, then one
   * `calcMean` per sample, every sample naming exactly the entries of `d`. The averages are
   * the fold of the samples from zeros (with power 1 the arithmetic mean, see
   * `ZeroStartIsArithmeticMean`).
   */
  method RunGeneralizedMean(d: Weights, xs: seq<Weights>, orders: seq<seq<string>>, power: int)
    returns (averages: Weights)
    requires power > 0 && |orders| == |xs|
    requires forall i :: 0 <= i < |xs| ==> xs[i].Keys == d.Keys && Enumerates(orders[i], xs[i])
    ensures averages == AddAll(Zeros(d), 0, xs, power)
  {
    DefaultsAreValid();
    var g: GeneralizedMeanSmoothing := new GeneralizedMeanSmoothing(DefaultConfig(), power);
    var _ := g.SetDictionary(d);
    var m := g.mean;
    var i := 0;
    while i < |xs|
      invariant 0 <= i <= |xs|
      invariant g.Valid() && g.mean == m && m != null && m.power == power
      invariant m.N == i && m.weightsDictAvg == AddAll(Zeros(d), 0, xs[..i], power)
      modifies m
    {
      ghost var before := m.weightsDictAvg;
      assert xs[i].Keys <= before.Keys;
      var err := g.CalcMean(xs[i], orders[i]);
      assert m.weightsDictAvg == Step(before, xs[i], i, power);
      AddAllPrefix(Zeros(d), xs, i, power);
      i := i + 1;
    }
    assert xs[..i] == xs;
    averages := m.weightsDictAvg;
  }
}
