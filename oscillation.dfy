/**
 * `_SmoothingOscilationBase` of the default classes: the start gate that decides per training
 * step whether the smoothed weights take the current model weights into account, the latch
 * that keeps it open, and the stop gate that counts how often the smoothed weights have
 * settled. The combination rule itself (`calcMean`) belongs to the strategy using the gate.
 */
module Oscillation {
  import opened Wrappers
  import opened Sums
  import opened Circular
  import opened RunningMean
  import opened WeightMaps

  /** `_SmoothingOscilationBase_Metadata`. */
  datatype OscillationConfig = OscillationConfig(
    weightSumContainerSize: int, weightSumContainerSizeStartAt: int, softMarginAdditionalLoops: int,
    batchPercentMaxStart: real, batchPercentMinStart: real,
    epsilon: real, hardEpsilon: real, weightsEpsilon: real,
    lossContainerSize: int, lossContainerDelayedStartAt: int)

  /** The metadata constructor's defaults. */
  function DefaultConfig(): OscillationConfig
  {
    OscillationConfig(10, 5, 20, 0.9988, 0.02, 0.000001, 0.00000001, 0.0000001, 50, 25)
  }

  /**
   * The defaults of the test metadata of the three oscillation strategies
   * (`Test_DefaultSmoothingOscilationGeneralizedMean_Metadata`, `..._EWMA_Metadata` and
   * `..._WeightedMean_Metadata`). `_Test_SmoothingOscilationBase_Metadata` lists the same values,
   * but it passes a `device` that is not in scope, so constructing it raises `NameError`.
   */
  function TestConfig(): OscillationConfig
  {
    OscillationConfig(10, 5, 3, 0.85, 0.1, 0.0001, 0.000000001, 0.00001, 5, 2)
  }

  const SizeMessage := "lossContainerDelayedStartAt cannot be greater than weightSumContainerSize."
  const EpsilonMessage := "Hard epsilon cannot be greater than epsilon."

  /** The metadata constructor's validation, in the source's order. */
  function ValidateConfig(c: OscillationConfig): (r: Result<OscillationConfig>)
    ensures r.Ok? <==> c.weightSumContainerSizeStartAt < c.weightSumContainerSize && c.hardEpsilon <= c.epsilon
    ensures r.Ok? ==> r.value == c
    ensures r.Err? ==> r.error == Rejected(if c.weightSumContainerSize <= c.weightSumContainerSizeStartAt
                                           then SizeMessage else EpsilonMessage)
  {
    if c.weightSumContainerSize <= c.weightSumContainerSizeStartAt then Err(Rejected(SizeMessage))
    else if c.hardEpsilon > c.epsilon then Err(Rejected(EpsilonMessage))
    else Ok(c)
  }

  /** The default metadata passes its own validation. */
  lemma DefaultsAreValid()
    ensures ValidateConfig(DefaultConfig()).Ok?
  {
  }

  /** So do the values of the strategies' test metadata. */
  lemma TestDefaultsAreValid()
    ensures ValidateConfig(TestConfig()).Ok?
  {
  }

  /**
   * `DefaultSmoothingOscilationEWMA.__setMovingAvgParam`: only 0 < a < 1 is accepted. For any
   * other value the error message is formatted with `self.__name__`, which a strategy instance
   * does not have, so what escapes is `AttributeError` and the message is never built.
   */
  function ValidateMovingAvgParam(a: real): (r: Result<real>)
    ensures r.Ok? <==> 0.0 < a < 1.0
    ensures r.Ok? ==> r.value == a
    ensures r.Err? ==> r.error == AttributeError
  {
    if a >= 1.0 || a <= 0.0 then Err(AttributeError)
    else Ok(a)
  }

  /** `smoothingEndCheckTypeDict`. */
  const EndCheckTypes: seq<string> := ["std", "wgsum"]

  /** The weighted-mean metadata's check of `smoothingEndCheckType`. */
  function ValidateEndCheckType(t: string): (r: Result<string>)
    ensures r.Ok? <==> t == "std" || t == "wgsum"
    ensures r.Ok? ==> r.value == t
  {
    if t !in EndCheckTypes then Err(Rejected("Unknown type of smoothingEndCheckType"))
    else Ok(t)
  }

  /**
   * `abs(getAverage() - getAverage(startAt))` over the items in iteration order; `None` when
   * the second average raises.
   */
  function AvgDiff(items: seq<real>, startAt: int): Option<real>
  {
    var a1 := AverageFrom(items, 0);
    var a2 := AverageFrom(items, startAt);
    if a1.Some? && a2.Some? then Some(Abs(a1.value - a2.value)) else None
  }

  /**
   * The difference is missing exactly when the delayed average raises, on an empty buffer with a
   * negative `startAt`; so it is defined after any push, and it is never negative.
   */
  lemma AvgDiffMeaning(items: seq<real>, startAt: int)
    ensures AvgDiff(items, startAt).None? <==> |items| == 0 && startAt < 0
    ensures AvgDiff(items, startAt).Some? ==> 0.0 <= AvgDiff(items, startAt).value
  {
  }

  function MinStart(c: OscillationConfig, maxTotal: nat): real
  {
    c.batchPercentMinStart * (maxTotal as real)
  }

  /**
   * What `canComputeWeights` returns for loss-average difference `d` after `total` of the
   * epoch loop's `maxTotal` training steps.
   */
  predicate StartGate(c: OscillationConfig, d: real, total: int, maxTotal: nat)
  {
    || (d < c.epsilon && total as real >= MinStart(c, maxTotal))
    || total as real > c.batchPercentMaxStart * (maxTotal as real)
  }

  /** When `canComputeWeights` latches `alwaysOn`. */
  predicate HardLatch(c: OscillationConfig, d: real, total: int, maxTotal: nat)
  {
    d < c.hardEpsilon && total as real > MinStart(c, maxTotal)
  }

  /**
   * One `canComputeWeights` call on loss difference `d` (`None` when an average raises) with
   * latch value `latched`: its answer and the new latch.
   */
  function Gate(c: OscillationConfig, d: Option<real>, latched: bool, total: int, maxTotal: nat): (r: (Result<bool>, bool))
    ensures r.0.Err? <==> d.None?
    ensures r.0.Err? ==> r.0.error == TypeError && r.1 == latched
    ensures latched ==> r.1
  {
    if d.None? then (Err(TypeError), latched)
    else (Ok(StartGate(c, d.value, total, maxTotal)), latched || HardLatch(c, d.value, total, maxTotal))
  }

  /**
   * Once latched the strategy keeps combining weights whatever the gate answers; a call that
   * latches (with validated metadata) is itself accepted; and a latch only opens on the hard
   * epsilon after the minimum start.
   */
  lemma GateLatch(c: OscillationConfig, d: real, latched: bool, total: int, maxTotal: nat)
    requires ValidateConfig(c).Ok?
    ensures var g := Gate(c, Some(d), latched, total, maxTotal);
            && g.0.Ok?
            && (latched ==> g.1)
            && (g.1 && !latched <==> HardLatch(c, d, total, maxTotal) && !latched)
            && (g.1 && !latched ==> g.0.value)
  {
    if HardLatch(c, d, total, maxTotal) {
      LatchOpensGate(c, d, total, maxTotal);
    }
  }

  /** With validated metadata a step that latches also passes the gate itself. */
  lemma LatchOpensGate(c: OscillationConfig, d: real, total: int, maxTotal: nat)
    requires ValidateConfig(c).Ok? && HardLatch(c, d, total, maxTotal)
    ensures StartGate(c, d, total, maxTotal)
  {
  }

  /** For a fixed loss difference the gate, once open, stays open as the step count grows. */
  lemma GateMonotoneInSteps(c: OscillationConfig, d: real, total: int, later: int, maxTotal: nat)
    requires total <= later && StartGate(c, d, total, maxTotal)
    ensures StartGate(c, d, later, maxTotal)
  {
  }

  /** `_smoothingGoodEnoughCheck(val)` on counter value `counter`: the answer and the new counter. */
  function CheckStep(counter: nat, softMargin: int, weightsEpsilon: real, val: real): (bool, nat)
  {
    if val < weightsEpsilon then
      if softMargin >= counter then (false, counter + 1) else (true, counter)
    else (false, counter)
  }

  /**
   * One check answers `True` only below the epsilon and then leaves the counter alone; otherwise
   * the counter stays or, below the epsilon, absorbs the value by growing by one.
   */
  lemma CheckStepMeaning(counter: nat, softMargin: int, weightsEpsilon: real, val: real)
    ensures var r := CheckStep(counter, softMargin, weightsEpsilon, val);
            && (r.0 <==> val < weightsEpsilon && softMargin < counter)
            && (r.0 ==> r.1 == counter)
            && (r.1 == counter || (r.1 == counter + 1 && !r.0 && val < weightsEpsilon))
  {
  }

  /** The answers of `_smoothingGoodEnoughCheck` to `vals` in turn, and the final counter. */
  function RunChecks(counter: nat, softMargin: int, weightsEpsilon: real, vals: seq<real>): (r: (seq<bool>, nat))
    ensures |r.0| == |vals|
  {
    if |vals| == 0 then ([], counter)
    else
      var prev := RunChecks(counter, softMargin, weightsEpsilon, vals[..|vals| - 1]);
      var step := CheckStep(prev.1, softMargin, weightsEpsilon, vals[|vals| - 1]);
      (prev.0 + [step.0], step.1)
  }

  /** How many of `vals` are below `eps`. */
  function CountBelow(vals: seq<real>, eps: real): nat
  {
    if |vals| == 0 then 0
    else CountBelow(vals[..|vals| - 1], eps) + (if vals[|vals| - 1] < eps then 1 else 0)
  }

  /** How many below-epsilon values the counter absorbs before the check answers `True`. */
  function Absorbed(softMargin: int): nat
  {
    if softMargin + 1 < 0 then 0 else softMargin + 1
  }

  /**
   * The soft margin: the counter is the number of below-epsilon values seen, capped at
   * `softMarginAdditionalLoops + 1`, and never goes down; the check answers `True` for a value
   * exactly when it is below epsilon and at least that many below-epsilon values came before
   * it, so from the (`softMarginAdditionalLoops` + 2)-th one on.
   */
  lemma {:induction false} SoftMargin(softMargin: int, eps: real, vals: seq<real>)
    ensures RunChecks(0, softMargin, eps, vals).1 == Min(CountBelow(vals, eps), Absorbed(softMargin))
    ensures forall i :: 0 <= i < |vals| ==>
              (RunChecks(0, softMargin, eps, vals).0[i] <==> vals[i] < eps && CountBelow(vals[..i], eps) >= Absorbed(softMargin))
  {
    if |vals| > 0 {
      var init := vals[..|vals| - 1];
      SoftMargin(softMargin, eps, init);
      var r := RunChecks(0, softMargin, eps, vals);
      var p := RunChecks(0, softMargin, eps, init);
      forall i | 0 <= i < |vals|
        ensures r.0[i] <==> vals[i] < eps && CountBelow(vals[..i], eps) >= Absorbed(softMargin)
      {
        if i < |vals| - 1 {
          assert r.0[i] == p.0[i];
          assert init[i] == vals[i] && init[..i] == vals[..i];
        } else {
          assert vals[..i] == init;
        }
      }
    }
  }

  /** With the test metadata's margin of 3 (`Test_DefaultSmoothingOscilationEWMA_Metadata`) the check first answers `True` at the fifth small value. */
  lemma SoftMarginOfThree()
    ensures RunChecks(0, 3, 1.0, [0.0, 0.0, 0.0, 0.0, 0.0]).0 == [false, false, false, false, true]
  {
    var z := [0.0, 0.0, 0.0, 0.0, 0.0];
    SoftMargin(3, 1.0, z);
    assert CountBelow(z[..0], 1.0) == 0;
    assert z[..1] == z[..0] + [0.0] && CountBelow(z[..1], 1.0) == 1;
    assert z[..2] == z[..1] + [0.0] && CountBelow(z[..2], 1.0) == 2;
    assert z[..3] == z[..2] + [0.0] && CountBelow(z[..3], 1.0) == 3;
    assert z[..4] == z[..3] + [0.0] && CountBelow(z[..4], 1.0) == 4;
  }

  /** The loss and weight-sum buffers, the counters and the latch of one strategy object. */
  class OscillationGate {
    const config: OscillationConfig
    var countWeights: nat
    var divisionCounter: nat
    var goodEnoughCounter: nat
    var alwaysOn: bool
    var weightsComputed: bool
    const lossContainer: CircularList<real>
    const tensorPrevSum: CircularList<real>

    ghost predicate Valid()
      reads lossContainer, tensorPrevSum
    {
      && ValidateConfig(config).Ok?
      && lossContainer != tensorPrevSum
      && lossContainer.Valid() && lossContainer.arrayMax == config.lossContainerSize > 0
      && tensorPrevSum.Valid() && tensorPrevSum.arrayMax == config.weightSumContainerSize > 0
    }

    /** The losses in the loss buffer, newest first. */
    ghost function LossItems(): seq<real>
      reads lossContainer
      requires lossContainer.Valid()
    {
      Reverse(LastN(lossContainer.pushed, |lossContainer.slots|))
    }

    /** The difference of the two loss averages, `None` while the buffer is empty. */
    ghost function LossDiff(): Option<real>
      reads lossContainer
      requires lossContainer.Valid()
    {
      AvgDiff(LossItems(), config.lossContainerDelayedStartAt)
    }

    /** The weight sums in their buffer, newest first. */
    ghost function SumItems(): seq<real>
      reads tensorPrevSum
      requires tensorPrevSum.Valid()
    {
      Reverse(LastN(tensorPrevSum.pushed, |tensorPrevSum.slots|))
    }

    constructor (config: OscillationConfig)
      requires ValidateConfig(config).Ok?
      requires config.lossContainerSize > 0 && config.weightSumContainerSize > 0
      ensures Valid() && this.config == config && fresh(lossContainer) && fresh(tensorPrevSum)
      ensures countWeights == 0 && divisionCounter == 0 && goodEnoughCounter == 0
      ensures !alwaysOn && !weightsComputed
      ensures lossContainer.pushed == [] && tensorPrevSum.pushed == []
    {
      this.config := config;
      countWeights := 0;
      tensorPrevSum := new CircularList<real>(config.weightSumContainerSize as nat);
      divisionCounter := 0;
      goodEnoughCounter := 0;
      alwaysOn := false;
      weightsComputed := false;
      lossContainer := new CircularList<real>(config.lossContainerSize as nat);
    }

    /**
     * `canComputeWeights`: compares the two loss averages with `epsilon` and the step count
     * with the two start fractions, and latches `alwaysOn` on the hard epsilon.
     */
    method CanComputeWeights(total: int, maxTotal: nat) returns (r: Result<bool>)
      requires Valid()
      modifies this`alwaysOn
      ensures Valid() && LossDiff() == old(LossDiff())
      ensures (r, alwaysOn) == Gate(config, LossDiff(), old(alwaysOn), total, maxTotal)
    {
      ghost var items := LossItems();
      var avg1 := GetAverage(lossContainer, 0);
      var avg2 := GetAverage(lossContainer, config.lossContainerDelayedStartAt);
      assert avg1 == AverageFrom(items, 0) && avg2 == AverageFrom(items, config.lossContainerDelayedStartAt);
      if avg1.None? || avg2.None? {
        return Err(TypeError);
      }
      var absAvgDiff := Abs(avg1.value - avg2.value);
      assert AvgDiff(items, config.lossContainerDelayedStartAt) == Some(absAvgDiff);
      var minStart := config.batchPercentMinStart * (maxTotal as real);
      if absAvgDiff < config.hardEpsilon && total as real > minStart {
        alwaysOn := true;
      }
      r := Ok((absAvgDiff < config.epsilon && total as real >= minStart)
              || total as real > config.batchPercentMaxStart * (maxTotal as real));
    }

    /** `lossContainer.pushBack(loss)`, after which both loss averages are defined. */
    method PushLoss(loss: real)
      requires Valid()
      modifies lossContainer
      ensures Valid()
      ensures lossContainer.pushed == old(lossContainer.pushed) + [loss]
      ensures LossDiff().Some?
    {
      lossContainer.PushBack(loss);
      lossContainer.ItemsAreNewestFirst();
    }

    /**
     * `__call__` up to `calcMean`: push the loss, run the start gate, and count the step when
     * the latch or the gate is open. The answer says whether the strategy combines the current
     * weights.
     */
    method Call(loss: real, total: int, maxTotal: nat) returns (accepted: bool)
      requires Valid()
      modifies this`countWeights, this`weightsComputed, this`alwaysOn, lossContainer
      ensures Valid()
      ensures lossContainer.pushed == old(lossContainer.pushed) + [loss]
      ensures LossDiff().Some?
      ensures (Ok(weightsComputed), alwaysOn) == Gate(config, LossDiff(), old(alwaysOn), total, maxTotal)
      ensures accepted == (alwaysOn || weightsComputed)
      ensures countWeights == old(countWeights) + (if accepted then 1 else 0)
    {
      PushLoss(loss);
      ghost var d := LossDiff();
      var r := CanComputeWeights(total, maxTotal);
      ghost var g := Gate(config, d, old(alwaysOn), total, maxTotal);
      assert d.Some? && (r, alwaysOn) == g && g.0.Ok?;
      weightsComputed := r.value;
      accepted := alwaysOn || weightsComputed;
      if accepted {
        countWeights := countWeights + 1;
      }
      assert LossDiff() == d;
    }

    /** `_smoothingGoodEnoughCheck(val)`. */
    method GoodEnoughCheck(val: real) returns (r: bool)
      modifies this`goodEnoughCounter
      ensures (r, goodEnoughCounter) == CheckStep(old(goodEnoughCounter), config.softMarginAdditionalLoops, config.weightsEpsilon, val)
    {
      var ret := val < config.weightsEpsilon;
      if ret {
        if config.softMarginAdditionalLoops >= goodEnoughCounter {
          goodEnoughCounter := goodEnoughCounter + 1;
          return false;
        }
        return ret;
      }
      return false;
    }

    /** The difference of the two weight-sum averages, `None` while the buffer is empty. */
    ghost function SumDiff(): Option<real>
      reads tensorPrevSum
      requires tensorPrevSum.Valid()
    {
      AvgDiff(SumItems(), config.weightSumContainerSizeStartAt)
    }

    /** The part of `__isSmoothingGoodEnough__` after the weight sum is known. */
    method PushAndCheck(absSum: real) returns (r: bool)
      requires Valid()
      modifies this`goodEnoughCounter, tensorPrevSum
      ensures Valid()
      ensures tensorPrevSum.pushed == old(tensorPrevSum.pushed) + [absSum]
      ensures SumDiff().Some?
      ensures (r, goodEnoughCounter)
              == CheckStep(old(goodEnoughCounter), config.softMarginAdditionalLoops, config.weightsEpsilon, SumDiff().value)
    {
      tensorPrevSum.PushBack(absSum);
      tensorPrevSum.ItemsAreNewestFirst();
      ghost var items := SumItems();
      AvgDiffMeaning(items, config.weightSumContainerSizeStartAt);
      var avg1 := GetAverage(tensorPrevSum, 0);
      var avg2 := GetAverage(tensorPrevSum, config.weightSumContainerSizeStartAt);
      assert avg1 == AverageFrom(items, 0) && avg2 == AverageFrom(items, config.weightSumContainerSizeStartAt);
      r := GoodEnoughCheck(Abs(avg1.value - avg2.value));
    }

    /**
     * What `__isSmoothingGoodEnough__` answered with `r` and did to the counters and the weight-sum
     * buffer, for the smoothed weights `smoothed` visited in `order`, when the division counter,
     * the good-enough counter and the buffer's pushes were `division0`, `goodEnough0` and `sums0`
     * before the call.
     */
    ghost predicate GoodEnoughFrom(division0: nat, goodEnough0: nat, sums0: seq<real>,
                                   smoothed: Weights, order: seq<string>, r: Result<bool>)
      reads this, lossContainer, tensorPrevSum
      requires Valid() && Enumerates(order, smoothed)
    {
      && (countWeights as int <= config.softMarginAdditionalLoops ==>
            && r == Ok(false) && divisionCounter == division0
            && goodEnoughCounter == goodEnough0 && tensorPrevSum.pushed == sums0)
      && (countWeights as int > config.softMarginAdditionalLoops ==> divisionCounter == division0 + 1)
      && (countWeights as int > config.softMarginAdditionalLoops && smoothed == map[] ==>
            && r == Err(Rejected(EmptyStack))
            && goodEnoughCounter == goodEnough0 && tensorPrevSum.pushed == sums0)
      && (countWeights as int > config.softMarginAdditionalLoops && smoothed != map[] ==>
            && (NamesPresent(order, smoothed); tensorPrevSum.pushed == sums0 + [AbsSum(order, smoothed)])
            && SumDiff().Some? && r.Ok?
            && (r.value, goodEnoughCounter)
               == CheckStep(goodEnough0, config.softMarginAdditionalLoops, config.weightsEpsilon, SumDiff().value))
    }

    /**
     * `__isSmoothingGoodEnough__` given the strategy's smoothed weights, whose entries are
     * visited in `order`: nothing happens until more than `softMarginAdditionalLoops` steps were
     * counted; then Σ|w| is pushed into the weight-sum buffer and the difference of its two
     * averages goes through the soft-margin check.
     */
    method IsSmoothingGoodEnough(smoothed: Weights, order: seq<string>) returns (r: Result<bool>)
      requires Valid() && Enumerates(order, smoothed)
      modifies this`divisionCounter, this`goodEnoughCounter, tensorPrevSum
      ensures Valid()
      ensures GoodEnoughFrom(old(divisionCounter), old(goodEnoughCounter), old(tensorPrevSum.pushed), smoothed, order, r)
    {
      if countWeights as int <= config.softMarginAdditionalLoops {
        return Ok(false);
      }
      divisionCounter := divisionCounter + 1;
      var absSum := SumAllWeights(order, smoothed);
      if absSum.Err? {
        return Err(absSum.error);
      }
      var ok := PushAndCheck(absSum.value);
      r := Ok(ok);
    }
  }
}
