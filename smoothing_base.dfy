/**
 * The state shared by every smoothing strategy, from the `Smoothing` base class of the main
 * framework file: the `enabled` switch and the dictionary of saved weight snapshots.
 */
module SmoothingBase {
  import opened Wrappers
  import opened RunningMean

  class SmoothingCore {
    /** Set by `__setDictionary__`; until then no strategy hands out weights. */
    var enabled: bool
    var savedWeightsState: map<string, Weights>

    constructor ()
      ensures !enabled && savedWeightsState == map[]
    {
      enabled := false;
      savedWeightsState := map[];
    }

    /**
     * The base `__getSmoothedWeights__`: `{}` while disabled; once enabled it falls off the end
     * of the function and so returns `None`.
     */
    method BaseSmoothedWeights() returns (r: Option<Weights>)
      ensures r == (if enabled then None else Some(map[]))
    {
      if !enabled {
        return Some(map[]);
      }
      return None;
    }

    /** `getWeights(key)`: the snapshot saved under `key`, or `None` (with a warning). */
    method GetWeights(key: string) returns (r: Option<Weights>)
      ensures r.Some? <==> key in savedWeightsState
      ensures r.Some? ==> r.value == savedWeightsState[key]
    {
      if key in savedWeightsState {
        return Some(savedWeightsState[key]);
      }
      return None;
    }

    method SetDictionary()
      modifies this
      ensures enabled && savedWeightsState == old(savedWeightsState)
    {
      enabled := true;
    }

    /**
     * `saveWeights(weights, key, canOverride)`: stores a copy under `key`. Without `canOverride`
     * it still overwrites a key that is already present, and only a new key is left unsaved.
     */
    method SaveWeights(weights: Weights, key: string, canOverride: bool)
      modifies this
      ensures enabled == old(enabled)
      ensures savedWeightsState == if canOverride || key in old(savedWeightsState)
                                   then old(savedWeightsState)[key := weights]
                                   else old(savedWeightsState)
    {
      if canOverride {
        savedWeightsState := savedWeightsState[key := weights];
      } else if key in savedWeightsState {
        savedWeightsState := savedWeightsState[key := weights];
      }
    }
  }

  /** Saving with `canOverride` and reading the key back returns the saved weights. */
  method SaveThenGet(core: SmoothingCore, weights: Weights, key: string) returns (r: Option<Weights>)
    modifies core
    ensures r == Some(weights)
  {
    core.SaveWeights(weights, key, true);
    r := core.GetWeights(key);
  }
}
