/**
 * The weight-pinning part of `Model` in `smoothing/convolutional.py`: a copy of some weights
 * (`weightsStateDict`), a tag saying which weights the copy holds (`weightsStateDictType`),
 * and `swapWeights`, which exchanges that copy with the model's own weights.
 */
module ConvModel {
  import opened Wrappers
  import opened RunningMean

  /** The two tags `swapWeights` accepts: `'plain'` and `'smoothing'`. */
  datatype DictType = Plain | Smoothing

  /** What `swapWeights` raises when no copy is pinned or the tag is unknown. */
  const SwapError := "unknown command or unset variables"

  /** The model's parameters and the pinned copy with its tag; `None` is Python's `None`. */
  datatype ModelValue = ModelValue(weights: Weights, stateDict: Option<Weights>, stateDictType: Option<DictType>)

  /** The state of a new model: its parameters, nothing pinned. */
  function Fresh(weights: Weights): ModelValue
  {
    ModelValue(weights, None, None)
  }

  /** The other tag. */
  function Flip(t: DictType): (u: DictType)
    ensures u != t
  {
    if t == Plain then Smoothing else Plain
  }

  /** `pinAverageWeights`: the copy becomes `w`, tagged `'plain'`; parameters are untouched. */
  function Pin(m: ModelValue, w: Weights): ModelValue
  {
    m.(stateDict := Some(w), stateDictType := Some(Plain))
  }

  /**
   * `load_state_dict` in its strict form: the dictionary must name exactly the parameters of the
   * model, and then it replaces all of them.
   */
  function Load(weights: Weights, dictionary: Weights): (r: Result<Weights>)
    ensures r.Ok? <==> dictionary.Keys == weights.Keys
    ensures r.Ok? ==> r.value == dictionary
    ensures r.Err? ==> r.error == Rejected(LoadError)
  {
    if dictionary.Keys == weights.Keys then Ok(dictionary) else Err(Rejected(LoadError))
  }

  /**
   * `swapWeights`: with a copy pinned under a known tag, the copy is loaded into the model, the
   * model's former weights become the copy, the tag flips and the new tag is returned.
   */
  function Swap(m: ModelValue): Result<(ModelValue, DictType)>
  {
    if m.stateDictType.None? || m.stateDict.None? then Err(Rejected(SwapError))
    else
      var loaded := Load(m.weights, m.stateDict.value);
      if loaded.Err? then Err(loaded.error)
      else
        var t := Flip(m.stateDictType.value);
        Ok((ModelValue(loaded.value, Some(m.weights), Some(t)), t))
  }

  /** `swapWeights` fails exactly when nothing is pinned, or when the copy names other parameters. */
  lemma SwapFails(m: ModelValue)
    ensures Swap(m).Err? <==>
            m.stateDictType.None? || m.stateDict.None? || m.stateDict.value.Keys != m.weights.Keys
    ensures (m.stateDictType.None? || m.stateDict.None?) ==> Swap(m) == Err(Rejected(SwapError))
    ensures m.stateDictType.Some? && m.stateDict.Some? && m.stateDict.value.Keys != m.weights.Keys ==>
              Swap(m) == Err(Rejected(LoadError))
  {
  }

  /**
   * A successful swap exchanges the parameters with the copy, keeps the parameter names and
   * returns the flipped tag, which it also stores.
   */
  lemma SwapExchanges(m: ModelValue)
    requires Swap(m).Ok?
    ensures var (m1, t) := Swap(m).value;
            && m1.weights == m.stateDict.value && m1.stateDict == Some(m.weights)
            && m1.weights.Keys == m.weights.Keys
            && m1.stateDictType == Some(t) && t != m.stateDictType.value
  {
  }

  /** Swapping twice restores the model, the copy and the tag. */
  lemma SwapTwice(m: ModelValue)
    requires Swap(m).Ok?
    ensures Swap(Swap(m).value.0).Ok?
    ensures Swap(Swap(m).value.0).value.0 == m
    ensures Swap(Swap(m).value.0).value.1 == m.stateDictType.value
  {
  }

  /** A swap right after pinning `w` loads `w`, keeps the former weights and reports `'smoothing'`. */
  lemma PinThenSwap(m: ModelValue, w: Weights)
    ensures w.Keys == m.weights.Keys ==> Swap(Pin(m, w)) == Ok((ModelValue(w, Some(m.weights), Some(Smoothing)), Smoothing))
    ensures w.Keys != m.weights.Keys ==> Swap(Pin(m, w)) == Err(Rejected(LoadError))
  {
  }

  /** Nothing is pinned on a new model, so its first swap raises. */
  lemma FreshSwapFails(weights: Weights)
    ensures Swap(Fresh(weights)) == Err(Rejected(SwapError))
  {
  }

  class Model {
    var weights: Weights
    var weightsStateDict: Option<Weights>
    var weightsStateDictType: Option<DictType>

    function Value(): ModelValue
      reads this
    {
      ModelValue(weights, weightsStateDict, weightsStateDictType)
    }

    constructor (parameters: Weights)
      ensures Value() == Fresh(parameters)
    {
      weights := parameters;
      weightsStateDict := None;
      weightsStateDictType := None;
    }

    /** `cloneStateDict`: a fresh dictionary filled entry by entry, in the given order. With tensors
      * as values a `torch.clone` of an entry is the entry itself, so the result equals the original. */
    static method CloneStateDict(w: Weights, order: seq<string>) returns (r: Weights)
      requires Enumerates(order, w)
      ensures r == w
    {
      r := map[];
      var i := 0;
      while i < |order|
        invariant 0 <= i <= |order|
        invariant r.Keys == Visited(order, i)
        invariant forall k :: k in r ==> r[k] == w[k]
      {
        VisitNext(order, i);
        r := r[order[i] := w[order[i]]];
        i := i + 1;
      }
      VisitedAll(order, w);
    }

    /** `pinAverageWeights`: the copy flag decides only whether the copy shares the caller's tensors. */
    method PinAverageWeights(w: Weights, order: seq<string>, copy: bool)
      requires Enumerates(order, w)
      modifies this`weightsStateDict, this`weightsStateDictType
      ensures Value() == Pin(old(Value()), w)
    {
      if copy {
        var cloned := CloneStateDict(w, order);
        weightsStateDict := Some(cloned);
      } else {
        weightsStateDict := Some(w);
      }
      weightsStateDictType := Some(Plain);
    }

    /** `swapWeights`; on an error nothing changes. */
    method SwapWeights() returns (r: Result<DictType>)
      modifies this
      ensures Swap(old(Value())).Ok? ==> Value() == Swap(old(Value())).value.0 && r == Ok(Swap(old(Value())).value.1)
      ensures Swap(old(Value())).Err? ==> Value() == old(Value()) && r == Err(Swap(old(Value())).error)
    {
      if weightsStateDictType.None? || weightsStateDict.None? {
        return Err(Rejected(SwapError));
      }
      var tmp := weights;
      var loaded := Load(weights, weightsStateDict.value);
      if loaded.Err? {
        return Err(loaded.error);
      }
      weights := loaded.value;
      weightsStateDict := Some(tmp);
      var t := Flip(weightsStateDictType.value);
      weightsStateDictType := Some(t);
      return Ok(t);
    }
  }
}
