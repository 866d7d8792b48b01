/**
 * `DefaultSmoothingBorderline`: once the epoch loop's training-step total passes a fixed
 * number of batches, every call adds the model's weights into a running sum; the smoothed
 * weights are that sum divided by the number of calls that added.
 */
module Borderline {
  import opened Wrappers
  import opened Sums
  import opened RunningMean
  import opened WeightMaps
  import opened SmoothingBase

  /** `numbOfBatchAfterSwitchOn` of the metadata and of its test variant. */
  const DefaultSwitchOn := 3000
  const TestSwitchOn := 10

  class BorderlineSmoothing {
    /** The `Smoothing` base part: `enabled` and the saved snapshots. */
    const core: SmoothingCore
    const numbOfBatchAfterSwitchOn: int
    var sumWeights: Weights
    var previousWeights: Weights
    var countWeights: nat

    /** `__setDictionary__` and the restore always give both dictionaries the same names. */
    ghost predicate Valid()
      reads this
    {
      sumWeights.Keys == previousWeights.Keys
    }

    constructor (numbOfBatchAfterSwitchOn: int)
      ensures Valid() && fresh(core) && !core.enabled && core.savedWeightsState == map[]
      ensures this.numbOfBatchAfterSwitchOn == numbOfBatchAfterSwitchOn
      ensures sumWeights == map[] && previousWeights == map[] && countWeights == 0
    {
      core := new SmoothingCore();
      this.numbOfBatchAfterSwitchOn := numbOfBatchAfterSwitchOn;
      sumWeights := map[];
      previousWeights := map[];
      countWeights := 0;
    }

    /**
     * `__call__` with the step total `total` and the model's weights `weights` (entries in
     * `order`): past the switch-on point the call is counted, each entry is added into the sum,
     * and the previous weights become the sample. An entry the sums lack raises `KeyError`
     * after the count and the earlier entries were updated.
     */
    method Call(total: int, weights: Weights, order: seq<string>) returns (r: Result<bool>)
      requires Valid() && Enumerates(order, weights)
      modifies this`sumWeights, this`previousWeights, this`countWeights
      ensures Valid()
      ensures total <= numbOfBatchAfterSwitchOn ==>
                && r == Ok(false) && countWeights == old(countWeights)
                && sumWeights == old(sumWeights) && previousWeights == old(previousWeights)
      ensures total > numbOfBatchAfterSwitchOn ==>
                var j := FirstMissing(order, old(sumWeights));
                && countWeights == old(countWeights) + 1
                && sumWeights == Pointwise(old(sumWeights), weights, Visited(order, j), Add)
                && previousWeights == Pointwise(old(previousWeights), weights, Visited(order, j), Replace)
                && r == (if j < |order| then Err(KeyError(order[j])) else Ok(true))
    {
      if total > numbOfBatchAfterSwitchOn {
        countWeights := countWeights + 1;
        FirstMissingSameKeys(order, sumWeights, previousWeights);
        var s, err := UpdateEntries(sumWeights, weights, order, Add);
        var p, _ := UpdateEntries(previousWeights, weights, order, Replace);
        sumWeights, previousWeights := s, p;
        if err.Some? {
          return Err(err.value);
        }
        return Ok(true);
      }
      return Ok(false);
    }

    /**
     * `__getSmoothedWeights__`: `{}` while disabled or before any call added, otherwise the
     * sums divided by the number of adding calls.
     */
    method GetSmoothedWeights() returns (r: Weights)
      ensures r == (if core.enabled then Averaged(sumWeights, countWeights) else map[])
    {
      var average := core.BaseSmoothedWeights();
      if average.Some? {
        return average.value;
      }
      if countWeights == 0 {
        return map[];
      }
      r := map k | k in sumWeights :: sumWeights[k] / (countWeights as real);
    }

    /** `__setDictionary__`: enables the strategy and sets a zero sum and previous entry per name. */
    method SetDictionary(dictionary: Weights)
      requires Valid()
      modifies core, this`sumWeights, this`previousWeights
      ensures Valid() && core.enabled && core.savedWeightsState == old(core.savedWeightsState)
      ensures sumWeights == old(sumWeights) + Zeros(dictionary)
      ensures previousWeights == old(previousWeights) + Zeros(dictionary)
    {
      core.SetDictionary();
      sumWeights := sumWeights + Zeros(dictionary);
      previousWeights := previousWeights + Zeros(dictionary);
    }

    /**
     * `__setstate__`: a state saved with only the key ingredients comes back with empty
     * dictionaries, no counted calls and the strategy disabled; otherwise nothing is reset.
     */
    method SetState(onlyKeyIngredients: bool)
      modifies core`enabled, this`sumWeights, this`previousWeights, this`countWeights
      ensures onlyKeyIngredients ==>
                Valid() && previousWeights == map[] && countWeights == 0 && sumWeights == map[] && !core.enabled
      ensures !onlyKeyIngredients ==>
                && previousWeights == old(previousWeights) && countWeights == old(countWeights)
                && sumWeights == old(sumWeights) && core.enabled == old(core.enabled)
    {
      if onlyKeyIngredients {
        previousWeights := map[];
        countWeights := 0;
        sumWeights := map[];
        core.enabled := false;
      }
    }
  }

  /**
   * From the zero sums of `__setDictionary__`, the smoothed weights after the samples `xs`
   * are, entry by entry, the arithmetic mean of the samples.
   */
  lemma BorderlineIsArithmeticMean(d: Weights, xs: seq<Weights>, k: string)
    requires k in d && |xs| > 0 && forall i :: 0 <= i < |xs| ==> k in xs[i]
    ensures k in Averaged(SumAll(Zeros(d), xs), |xs|)
    ensures Averaged(SumAll(Zeros(d), xs), |xs|)[k] == Sum(Column(xs, k)) / (|xs| as real)
  {
    var sum := SumAll(Zeros(d), xs);
    SumAllColumn(Zeros(d), xs, k);
    assert sum[k] == Sum(Column(xs, k));
    var avg := Averaged(sum, |xs|);
    assert avg[k] == sum[k] / (|xs| as real);
  }

  /**
   * The same estimate as `RunningGeneralMeanWeights` with power 1 and zero start: the two
   * strategies agree on every entry.
   */
  lemma BorderlineAgreesWithRunningMean(d: Weights, xs: seq<Weights>, k: string)
    requires k in d && |xs| > 0 && forall i :: 0 <= i < |xs| ==> k in xs[i]
    ensures Averaged(SumAll(Zeros(d), xs), |xs|)[k] == AddAll(Zeros(d), 0, xs, 1)[k]
  {
    BorderlineIsArithmeticMean(d, xs, k);
    ZeroStartIsArithmeticMean(d, xs, k);
    PowerOneColumn(xs, k);
    assert LiftedColumn(xs, k, 1) == Column(xs, k);
  }

  /**
   * A run of the strategy: enabled with the dictionary `d`, then one call per sample, all past
   * the switch-on point and naming the same entries as `d`. Every counted call adds exactly
   * once, so the smoothed weights are the sums of the samples over their number and the
   * previous weights are the last sample.
   */
  method RunBorderline(d: Weights, xs: seq<Weights>, orders: seq<seq<string>>) returns (smoothed: Weights)
    requires |orders| == |xs| > 0
    requires forall i :: 0 <= i < |xs| ==> xs[i].Keys == d.Keys && Enumerates(orders[i], xs[i])
    ensures smoothed == Averaged(SumAll(Zeros(d), xs), |xs|)
    ensures forall k :: k in d ==> smoothed[k] == Sum(Column(xs, k)) / (|xs| as real)
  {
    var b: BorderlineSmoothing := new BorderlineSmoothing(0);
    b.SetDictionary(d);
    assert b.sumWeights == Zeros(d) && b.previousWeights == Zeros(d);
    var i := 0;
    while i < |xs|
      invariant 0 <= i <= |xs|
      invariant b.Valid() && b.core.enabled && b.numbOfBatchAfterSwitchOn == 0
      invariant b.countWeights == i && b.sumWeights == SumAll(Zeros(d), xs[..i])
      modifies b`sumWeights, b`previousWeights, b`countWeights
    {
      UpdateAll(b.sumWeights, xs[i], orders[i], Add);
      var r := b.Call(i + 1, xs[i], orders[i]);
      assert xs[..i + 1][..i] == xs[..i];
      i := i + 1;
    }
    assert xs[..i] == xs;
    smoothed := b.GetSmoothedWeights();
    forall k | k in d
      ensures smoothed[k] == Sum(Column(xs, k)) / (|xs| as real)
    {
      BorderlineIsArithmeticMean(d, xs, k);
    }
  }
}
