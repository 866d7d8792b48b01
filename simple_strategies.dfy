/**
 * The two strategies of the strategy family that do not average weights themselves:
 * `DisabledSmoothing`, which never takes the model's weights into account, and
 * `DefaultPytorchAveragedSmoothing`, whose averaging is delegated to PyTorch's SWA model and of
 * which only the start gate and the number of updates it requests are modelled.
 */
module SimpleStrategies {
  import opened Wrappers
  import opened RunningMean
  import opened SmoothingBase

  class DisabledSmoothing {
    const core: SmoothingCore

    constructor ()
      ensures fresh(core) && !core.enabled && core.savedWeightsState == map[]
    {
      core := new SmoothingCore();
    }

    /** `__call__`: the weights are never taken into account, and nothing changes. */
    method Call(total: int, weights: Weights) returns (r: bool)
      ensures !r
    {
      r := false;
    }

    /** `__isSmoothingGoodEnough__`: never good enough, so it never ends training early. */
    method IsSmoothingGoodEnough() returns (r: bool)
      ensures !r
    {
      r := false;
    }

    /** `__getSmoothedWeights__`: always `{}`, enabled or not, so no smoothed test runs. */
    method GetSmoothedWeights() returns (r: Weights)
      ensures r == map[]
    {
      var _ := core.BaseSmoothedWeights();
      r := map[];
    }

    /** `__setDictionary__`: only the base part runs, which enables the strategy. */
    method SetDictionary(dictionary: Weights)
      modifies core
      ensures core.enabled && core.savedWeightsState == old(core.savedWeightsState)
    {
      core.SetDictionary();
    }
  }

  /** The metadata default for `smoothingStartPercent`. */
  const DefaultStartPercent := 0.8

  /** `DefaultPytorchAveragedSmoothing.__call__`'s gate: average once past the start fraction. */
  predicate AveragedSmoothingGate(total: int, smoothingStartPercent: real, maxTotal: nat)
  {
    total as real > smoothingStartPercent * (maxTotal as real)
  }

  /** With the default start fraction 0.8 the averaged model starts after 80 of 100 steps. */
  lemma AveragedSmoothingStartsAfterEightyPercent(total: int)
    ensures AveragedSmoothingGate(total, DefaultStartPercent, 100) <==> total > 80
  {
  }

  /** Once open, the gate stays open for every later step total. */
  lemma AveragedSmoothingGateMonotone(total: int, later: int, smoothingStartPercent: real, maxTotal: nat)
    requires total <= later
    ensures AveragedSmoothingGate(total, smoothingStartPercent, maxTotal) ==>
              AveragedSmoothingGate(later, smoothingStartPercent, maxTotal)
  {
  }

  /**
   * `DefaultPytorchAveragedSmoothing`: `updates` counts the calls of the SWA model's
   * `update_parameters`, whose averaged state dict is an input of `GetSmoothedWeights`.
   */
  class AveragedSmoothing {
    const core: SmoothingCore
    const smoothingStartPercent: real
    var updates: nat

    constructor (smoothingStartPercent: real)
      ensures fresh(core) && !core.enabled && core.savedWeightsState == map[]
      ensures this.smoothingStartPercent == smoothingStartPercent && updates == 0
    {
      core := new SmoothingCore();
      this.smoothingStartPercent := smoothingStartPercent;
      updates := 0;
    }

    /** `__call__`: past the start fraction the SWA model is updated and the call counts. */
    method Call(total: int, maxTotal: nat) returns (r: bool)
      modifies this`updates
      ensures r == AveragedSmoothingGate(total, smoothingStartPercent, maxTotal)
      ensures updates == old(updates) + (if r then 1 else 0)
    {
      r := total as real > smoothingStartPercent * (maxTotal as real);
      if r {
        updates := updates + 1;
      }
    }

    /** `__isSmoothingGoodEnough__`: never good enough. */
    method IsSmoothingGoodEnough() returns (r: bool)
      ensures !r
    {
      r := false;
    }

    /** `__getSmoothedWeights__`: `{}` while disabled, otherwise the SWA model's state dict. */
    method GetSmoothedWeights(swaWeights: Weights) returns (r: Weights)
      ensures r == (if core.enabled then swaWeights else map[])
    {
      var average := core.BaseSmoothedWeights();
      if average.Some? {
        return average.value;
      }
      r := swaWeights;
    }
  }

  /**
   * A run of `DefaultPytorchAveragedSmoothing` over the step totals `totals`: the SWA model is
   * updated once per step past the start fraction.
   */
  method RunAveraged(totals: seq<int>, smoothingStartPercent: real, maxTotal: nat) returns (updates: nat)
    ensures updates == |set i | 0 <= i < |totals| && AveragedSmoothingGate(totals[i], smoothingStartPercent, maxTotal)|
  {
    var s: AveragedSmoothing := new AveragedSmoothing(smoothingStartPercent);
    var i := 0;
    ghost var counted: set<int> := {};
    while i < |totals|
      invariant 0 <= i <= |totals|
      invariant counted == set j | 0 <= j < i && AveragedSmoothingGate(totals[j], smoothingStartPercent, maxTotal)
      invariant s.updates == |counted|
      modifies s`updates
    {
      var r := s.Call(totals[i], maxTotal);
      ghost var next := set j | 0 <= j < i + 1 && AveragedSmoothingGate(totals[j], smoothingStartPercent, maxTotal);
      if r {
        assert next == counted + {i};
      } else {
        assert next == counted;
      }
      counted := next;
      i := i + 1;
    }
    updates := s.updates;
  }
}
