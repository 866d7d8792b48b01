/**
 * The `Smoothing` class of the oldest variant (`smoothing/convolutional.py`): a running sum of
 * the model's weights and the previous weights, gated by `countWeights` alone. There is no
 * switch and no separate call counter: every call of `lastWeightDifference`,
 * `fullAverageWeights` or `lateStartAverageWeights` counts, and `getStateDict` divides the
 * sums by all of those calls, the early ones that added nothing included.
 */
module ConvSmoothing {
  import opened Wrappers
  import opened Sums
  import opened RunningMean
  import opened WeightMaps

  /** `numbOfBatchAfterSwitchOn`, fixed by the constructor. */
  const SwitchOn := 2000

  /** The weight state of the class; the loss bookkeeping of `forwardLossFun` is not modelled. */
  datatype Accumulator = Accumulator(sumWeights: Weights, previousWeights: Weights, countWeights: nat)

  /** The state the constructor leaves. */
  function Initial(): Accumulator
  {
    Accumulator(map[], map[], 0)
  }

  /** `setDictionary`: a zero sum and previous entry per parameter, replacing any there was. */
  function WithDictionary(s: Accumulator, dictionary: Weights): (r: Accumulator)
    ensures r.countWeights == s.countWeights
    ensures r.sumWeights.Keys == s.sumWeights.Keys + dictionary.Keys
    ensures r.previousWeights.Keys == s.previousWeights.Keys + dictionary.Keys
    ensures forall k :: k in dictionary ==> r.sumWeights[k] == 0.0 && r.previousWeights[k] == 0.0
    ensures forall k :: k in s.sumWeights && k !in dictionary ==> r.sumWeights[k] == s.sumWeights[k]
    ensures forall k :: k in s.previousWeights && k !in dictionary ==> r.previousWeights[k] == s.previousWeights[k]
  {
    s.(sumWeights := s.sumWeights + Zeros(dictionary), previousWeights := s.previousWeights + Zeros(dictionary))
  }

  /** The state `setDictionary(d)` on a new object leaves. */
  function Started(d: Weights): Accumulator
  {
    WithDictionary(Initial(), d)
  }

  /**
   * `addToAverageWeights`: every parameter, in `named_parameters` order, is added into its sum;
   * a parameter without a sum raises `KeyError` after the earlier ones were added.
   */
  ghost function AddToAverage(s: Accumulator, w: Weights, order: seq<string>): (Accumulator, Option<Raised>)
  {
    var j := FirstMissing(order, s.sumWeights);
    (s.(sumWeights := Pointwise(s.sumWeights, w, Visited(order, j), Add)),
     if j < |order| then Some(KeyError(order[j])) else None)
  }

  /**
   * `comparePrevWeights`: adds the weights into the sums, then records the difference from the
   * previous weights and copies the weights over them.
   */
  ghost function ComparePrev(s: Accumulator, w: Weights, order: seq<string>): (Accumulator, Result<Weights>)
    requires Enumerates(order, w)
  {
    var added := AddToAverage(s, w, order);
    var s1 := added.0;
    if added.1.Some? then (s1, Err(added.1.value))
    else
      var prev := s1.previousWeights;
      var j := FirstMissing(order, prev);
      MissingIffUnknownName(prev, w, order);
      (s1.(previousWeights := Pointwise(prev, w, Visited(order, j), Replace)),
       if j < |order| then Err(KeyError(order[j])) else Ok(Difference(w, prev)))
  }

  /**
   * `lastWeightDifference`: one more on `countWeights`, and past the switch-on point
   * `comparePrevWeights`; before it, `None`.
   */
  ghost function LastDifference(s: Accumulator, w: Weights, order: seq<string>): (Accumulator, Result<Option<Weights>>)
    requires Enumerates(order, w)
  {
    var s1 := s.(countWeights := s.countWeights + 1);
    if s1.countWeights > SwitchOn then
      var compared := ComparePrev(s1, w, order);
      (compared.0, if compared.1.Err? then Err(compared.1.error) else Ok(Some(compared.1.value)))
    else (s1, Ok(None))
  }

  /** `fullAverageWeights`: one more on `countWeights`, then `addToAverageWeights`. */
  ghost function FullAverage(s: Accumulator, w: Weights, order: seq<string>): (Accumulator, Option<Raised>)
  {
    AddToAverage(s.(countWeights := s.countWeights + 1), w, order)
  }

  /**
   * `lateStartAverageWeights`: one more on `countWeights`; past the switch-on point
   * `addToAverageWeights`, before it `dict(model)`, which raises `TypeError` because the model
   * object is not iterable.
   */
  ghost function LateStartAverage(s: Accumulator, w: Weights, order: seq<string>): (Accumulator, Option<Raised>)
  {
    var s1 := s.(countWeights := s.countWeights + 1);
    if s1.countWeights > SwitchOn then AddToAverage(s1, w, order) else (s1, Some(TypeError))
  }

  /**
   * `getStateDict`: every sum divided by `countWeights`. With nothing counted and some sum
   * present the division of the tensors gives `inf`/`nan`, which no real number stands for:
   * `None`.
   */
  function StateDict(s: Accumulator): (r: Option<Weights>)
    ensures r.None? <==> s.countWeights == 0 && s.sumWeights != map[]
    ensures r.Some? ==> r.value.Keys == s.sumWeights.Keys
    ensures r.Some? ==> forall k :: k in r.value ==> r.value[k] * (s.countWeights as real) == s.sumWeights[k]
  {
    if s.sumWeights == map[] then Some(map[])
    else if s.countWeights == 0 then None
    else Some(Averaged(s.sumWeights, s.countWeights))
  }

  class Smoothing {
    var sumWeights: Weights
    var previousWeights: Weights
    var countWeights: nat

    function Value(): Accumulator
      reads this
    {
      Accumulator(sumWeights, previousWeights, countWeights)
    }

    constructor ()
      ensures Value() == Initial()
    {
      sumWeights := map[];
      previousWeights := map[];
      countWeights := 0;
    }

    method AddToAverageWeights(weights: Weights, order: seq<string>) returns (err: Option<Raised>)
      requires Enumerates(order, weights)
      modifies this`sumWeights
      ensures (Value(), err) == AddToAverage(old(Value()), weights, order)
    {
      var s;
      s, err := UpdateEntries(sumWeights, weights, order, Add);
      sumWeights := s;
    }

    method GetStateDict() returns (average: Option<Weights>)
      ensures average == StateDict(Value())
    {
      if sumWeights == map[] {
        return Some(map[]);
      }
      if countWeights == 0 {
        return None;
      }
      average := Some(map k | k in sumWeights :: sumWeights[k] / (countWeights as real));
    }

    method FullAverageWeights(weights: Weights, order: seq<string>) returns (err: Option<Raised>)
      requires Enumerates(order, weights)
      modifies this`sumWeights, this`countWeights
      ensures (Value(), err) == FullAverage(old(Value()), weights, order)
    {
      countWeights := countWeights + 1;
      err := AddToAverageWeights(weights, order);
    }

    method LateStartAverageWeights(weights: Weights, order: seq<string>) returns (err: Option<Raised>)
      requires Enumerates(order, weights)
      modifies this`sumWeights, this`countWeights
      ensures (Value(), err) == LateStartAverage(old(Value()), weights, order)
    {
      countWeights := countWeights + 1;
      if countWeights > SwitchOn {
        err := AddToAverageWeights(weights, order);
        return;
      }
      return Some(TypeError);
    }

    /** The substract loop of `comparePrevWeights`. */
    method CopyPrevious(weights: Weights, order: seq<string>) returns (r: Result<Weights>)
      requires Enumerates(order, weights)
      modifies this`previousWeights
      ensures var prev := old(previousWeights);
              var j := FirstMissing(order, prev);
              && previousWeights == Pointwise(prev, weights, Visited(order, j), Replace)
              && (j < |order| ==> r == Err(KeyError(order[j])))
              && (j == |order| ==> weights.Keys <= prev.Keys && r == Ok(Difference(weights, prev)))
    {
      var prev := previousWeights;
      MissingIffUnknownName(prev, weights, order);
      var p, err := UpdateEntries(prev, weights, order, Replace);
      previousWeights := p;
      if err.Some? {
        return Err(err.value);
      }
      r := Ok(map k | k in weights :: weights[k] - prev[k]);
    }

    method ComparePrevWeights(weights: Weights, order: seq<string>) returns (r: Result<Weights>)
      requires Enumerates(order, weights)
      modifies this`sumWeights, this`previousWeights
      ensures (Value(), r) == ComparePrev(old(Value()), weights, order)
    {
      var err := AddToAverageWeights(weights, order);
      if err.Some? {
        return Err(err.value);
      }
      r := CopyPrevious(weights, order);
    }

    method LastWeightDifference(weights: Weights, order: seq<string>) returns (r: Result<Option<Weights>>)
      requires Enumerates(order, weights)
      modifies this`sumWeights, this`previousWeights, this`countWeights
      ensures (Value(), r) == LastDifference(old(Value()), weights, order)
    {
      countWeights := countWeights + 1;
      if countWeights > SwitchOn {
        var d := ComparePrevWeights(weights, order);
        if d.Err? {
          return Err(d.error);
        }
        return Ok(Some(d.value));
      }
      return Ok(None);
    }

    method SetDictionary(dictionary: Weights)
      modifies this`sumWeights, this`previousWeights
      ensures Value() == WithDictionary(old(Value()), dictionary)
    {
      sumWeights := sumWeights + Zeros(dictionary);
      previousWeights := previousWeights + Zeros(dictionary);
    }
  }

  /** The samples that `lastWeightDifference` adds: those after the first `SwitchOn` calls. */
  function Late(xs: seq<Weights>): (l: seq<Weights>)
    ensures |xs| <= SwitchOn ==> l == []
    ensures |xs| > SwitchOn ==> |l| == |xs| - SwitchOn && forall i :: 0 <= i < |l| ==> l[i] == xs[SwitchOn + i]
  {
    if |xs| <= SwitchOn then [] else xs[SwitchOn..]
  }

  lemma LateSnoc(xs: seq<Weights>, x: Weights)
    ensures Late(xs + [x]) == if |xs| >= SwitchOn then Late(xs) + [x] else []
  {
    if |xs| >= SwitchOn {
      assert (xs + [x])[SwitchOn..] == Late(xs) + [x];
    }
  }

  lemma SumAllSnoc(acc: Weights, ys: seq<Weights>, y: Weights)
    ensures SumAll(acc, ys + [y]) == Pointwise(SumAll(acc, ys), y, y.Keys, Add)
  {
    assert (ys + [y])[..|ys|] == ys;
  }

  /** `lastWeightDifference` on each sample in turn, stopping at the first error. */
  ghost function DifferencesAll(s: Accumulator, xs: seq<Weights>, orders: seq<seq<string>>): (Accumulator, Option<Raised>)
    requires AllEnumerate(xs, orders)
    decreases |xs|
  {
    if |xs| == 0 then (s, None)
    else
      var n := |xs| - 1;
      var before := DifferencesAll(s, xs[..n], orders[..n]);
      if before.1.Some? then before
      else
        var r := LastDifference(before.0, xs[n], orders[n]);
        (r.0, if r.1.Err? then Some(r.1.error) else None)
  }

  /** `fullAverageWeights` on each sample in turn, stopping at the first error. */
  ghost function FullAll(s: Accumulator, xs: seq<Weights>, orders: seq<seq<string>>): (Accumulator, Option<Raised>)
    requires AllEnumerate(xs, orders)
    decreases |xs|
  {
    if |xs| == 0 then (s, None)
    else
      var n := |xs| - 1;
      var before := FullAll(s, xs[..n], orders[..n]);
      if before.1.Some? then before else FullAverage(before.0, xs[n], orders[n])
  }

  /** The fold over one more sample: the call on the state the earlier samples left. */
  lemma DifferencesSnoc(s: Accumulator, xs: seq<Weights>, orders: seq<seq<string>>, x: Weights, order: seq<string>)
    requires AllEnumerate(xs, orders) && Enumerates(order, x) && DifferencesAll(s, xs, orders).1.None?
    ensures AllEnumerate(xs + [x], orders + [order])
    ensures DifferencesAll(s, xs + [x], orders + [order]).0 == LastDifference(DifferencesAll(s, xs, orders).0, x, order).0
    ensures DifferencesAll(s, xs + [x], orders + [order]).1.None? <==> LastDifference(DifferencesAll(s, xs, orders).0, x, order).1.Ok?
  {
    assert (xs + [x])[..|xs|] == xs;
    assert (orders + [order])[..|xs|] == orders;
  }

  lemma FullSnoc(s: Accumulator, xs: seq<Weights>, orders: seq<seq<string>>, x: Weights, order: seq<string>)
    requires AllEnumerate(xs, orders) && Enumerates(order, x) && FullAll(s, xs, orders).1.None?
    ensures AllEnumerate(xs + [x], orders + [order])
    ensures FullAll(s, xs + [x], orders + [order]).0 == FullAverage(FullAll(s, xs, orders).0, x, order).0
    ensures FullAll(s, xs + [x], orders + [order]).1 == FullAverage(FullAll(s, xs, orders).0, x, order).1
  {
    assert (xs + [x])[..|xs|] == xs;
    assert (orders + [order])[..|xs|] == orders;
  }

  /** Adding a sample whose names all have sums raises nothing and adds every entry. */
  lemma AddedInFull(s: Accumulator, w: Weights, order: seq<string>)
    requires Enumerates(order, w) && w.Keys <= s.sumWeights.Keys
    ensures AddToAverage(s, w, order).1.None?
    ensures AddToAverage(s, w, order).0 == s.(sumWeights := Pointwise(s.sumWeights, w, w.Keys, Add))
  {
    UpdateAll(s.sumWeights, w, order, Add);
  }

  /** A call within the first `SwitchOn` only counts. */
  lemma EarlyDifference(p: Accumulator, x: Weights, order: seq<string>)
    requires Enumerates(order, x) && p.countWeights < SwitchOn
    ensures LastDifference(p, x, order).0 == p.(countWeights := p.countWeights + 1)
    ensures LastDifference(p, x, order).1 == Ok(None)
  {
  }

  /**
   * A later call on sums and previous weights that name the sample's parameters adds the
   * sample, returns its difference from the previous weights and makes it the previous weights.
   */
  lemma CountedDifference(p: Accumulator, x: Weights, order: seq<string>)
    requires Enumerates(order, x) && p.countWeights >= SwitchOn
    requires p.sumWeights.Keys == x.Keys && p.previousWeights.Keys == x.Keys
    ensures LastDifference(p, x, order).1 == Ok(Some(Difference(x, p.previousWeights)))
    ensures LastDifference(p, x, order).0.countWeights == p.countWeights + 1
    ensures LastDifference(p, x, order).0.sumWeights == Pointwise(p.sumWeights, x, x.Keys, Add)
    ensures LastDifference(p, x, order).0.previousWeights == x
  {
    var s1 := p.(countWeights := p.countWeights + 1);
    AddedInFull(s1, x, order);
    UpdateAll(p.previousWeights, x, order, Replace);
    ReplaceAll(p.previousWeights, x);
  }

  /**
   * `lastWeightDifference` after `setDictionary(d)`, on samples that all name the parameters of
   * `d`: nothing raises, every call counts, and the sums hold exactly the samples after the
   * first `SwitchOn` calls.
   */
  lemma {:induction false} DifferencesCountEveryCall(d: Weights, xs: seq<Weights>, orders: seq<seq<string>>)
    requires AllEnumerate(xs, orders) && forall i :: 0 <= i < |xs| ==> xs[i].Keys == d.Keys
    ensures DifferencesAll(Started(d), xs, orders).1.None?
    ensures DifferencesAll(Started(d), xs, orders).0.countWeights == |xs|
    ensures DifferencesAll(Started(d), xs, orders).0.sumWeights == SumAll(Zeros(d), Late(xs))
    ensures DifferencesAll(Started(d), xs, orders).0.previousWeights == if |xs| > SwitchOn then xs[|xs| - 1] else Zeros(d)
    decreases |xs|
  {
    if |xs| > 0 {
      var n := |xs| - 1;
      var init, x := xs[..n], xs[n];
      assert xs == init + [x];
      assert orders == orders[..n] + [orders[n]];
      DifferencesCountEveryCall(d, init, orders[..n]);
      var p := DifferencesAll(Started(d), init, orders[..n]).0;
      DifferencesSnoc(Started(d), init, orders[..n], x, orders[n]);
      LateSnoc(init, x);
      if n >= SwitchOn {
        CountedDifference(p, x, orders[n]);
        SumAllSnoc(Zeros(d), Late(init), x);
      } else {
        EarlyDifference(p, x, orders[n]);
      }
    }
  }

  /**
   * `fullAverageWeights` after `setDictionary(d)`, on samples that all name the parameters of
   * `d`: nothing raises, every call counts and every sample is added.
   */
  lemma {:induction false} FullCountsEveryCall(d: Weights, xs: seq<Weights>, orders: seq<seq<string>>)
    requires AllEnumerate(xs, orders) && forall i :: 0 <= i < |xs| ==> xs[i].Keys == d.Keys
    ensures FullAll(Started(d), xs, orders).1.None?
    ensures FullAll(Started(d), xs, orders).0.countWeights == |xs|
    ensures FullAll(Started(d), xs, orders).0.sumWeights == SumAll(Zeros(d), xs)
    decreases |xs|
  {
    if |xs| > 0 {
      var n := |xs| - 1;
      var init, x := xs[..n], xs[n];
      assert xs == init + [x];
      assert orders == orders[..n] + [orders[n]];
      FullCountsEveryCall(d, init, orders[..n]);
      var p := FullAll(Started(d), init, orders[..n]).0;
      FullSnoc(Started(d), init, orders[..n], x, orders[n]);
      AddedInFull(p.(countWeights := p.countWeights + 1), x, orders[n]);
      SumAllSnoc(Zeros(d), init, x);
    }
  }

  /** Entry `k` of a state dictionary whose sums are the samples `ys` added to zeros, over `count` calls. */
  lemma StateDictEntry(d: Weights, ys: seq<Weights>, count: nat, s: Accumulator, k: string)
    requires k in d && forall i :: 0 <= i < |ys| ==> k in ys[i]
    requires count > 0 && s.countWeights == count && s.sumWeights == SumAll(Zeros(d), ys)
    ensures StateDict(s).Some? && k in StateDict(s).value
    ensures StateDict(s).value[k] == Sum(Column(ys, k)) / (count as real)
  {
    SumAllColumn(Zeros(d), ys, k);
  }

  /**
   * `getStateDict` after `n > 0` calls of `lastWeightDifference` that followed
   * `setDictionary(d)`: entry `k` is the sum over the samples after the first `SwitchOn`
   * calls divided by all `n` calls, so it is zero for the first `SwitchOn` calls.
   */
  lemma DifferencesStateDict(d: Weights, xs: seq<Weights>, orders: seq<seq<string>>, k: string)
    requires AllEnumerate(xs, orders) && forall i :: 0 <= i < |xs| ==> xs[i].Keys == d.Keys
    requires |xs| > 0 && k in d
    ensures forall i :: 0 <= i < |Late(xs)| ==> k in Late(xs)[i]
    ensures var r := StateDict(DifferencesAll(Started(d), xs, orders).0);
            && r.Some? && k in r.value
            && r.value[k] == Sum(Column(Late(xs), k)) / (|xs| as real)
  {
    var s := DifferencesAll(Started(d), xs, orders).0;
    var late := Late(xs);
    DifferencesCountEveryCall(d, xs, orders);
    assert forall i :: 0 <= i < |late| ==> k in late[i] by {
      forall i | 0 <= i < |late| ensures k in late[i] {
        assert late[i] == xs[SwitchOn + i];
      }
    }
    StateDictEntry(d, late, |xs|, s, k);
  }

  /** Within the first `SwitchOn` calls that quotient is zero: nothing has been added yet. */
  lemma DifferencesStateDictEarly(d: Weights, xs: seq<Weights>, orders: seq<seq<string>>, k: string)
    requires AllEnumerate(xs, orders) && forall i :: 0 <= i < |xs| ==> xs[i].Keys == d.Keys
    requires 0 < |xs| <= SwitchOn && k in d
    ensures var r := StateDict(DifferencesAll(Started(d), xs, orders).0);
            r.Some? && k in r.value && r.value[k] == 0.0
  {
    DifferencesStateDict(d, xs, orders, k);
    assert Column(Late(xs), k) == [];
    ZeroQuotient(|xs| as real);
  }

  lemma ZeroQuotient(n: real)
    requires n > 0.0
    ensures Sum([]) / n == 0.0
  {
  }

  /** The fraction of the `|xs|` calls that added their sample. */
  function LateShare(xs: seq<Weights>): real
    requires |xs| > 0
  {
    (|Late(xs)| as real) / (|xs| as real)
  }

  /** The mean of parameter `k` over the samples that were added. */
  function LateMean(xs: seq<Weights>, k: string): real
    requires |xs| > SwitchOn && forall i :: 0 <= i < |xs| ==> k in xs[i]
  {
    Sum(Column(Late(xs), k)) / (|Late(xs)| as real)
  }

  /**
   * Past the switch-on point that quotient is the mean of the added samples scaled down by the
   * fraction of calls that added anything: `getStateDict` is not the mean of what it summed.
   */
  lemma DifferencesStateDictScalesLateMean(d: Weights, xs: seq<Weights>, orders: seq<seq<string>>, k: string)
    requires AllEnumerate(xs, orders) && forall i :: 0 <= i < |xs| ==> xs[i].Keys == d.Keys
    requires |xs| > SwitchOn && k in d
    ensures forall i :: 0 <= i < |xs| ==> k in xs[i]
    ensures var r := StateDict(DifferencesAll(Started(d), xs, orders).0);
            r.Some? && k in r.value && r.value[k] == LateShare(xs) * LateMean(xs, k)
  {
    DifferencesStateDict(d, xs, orders, k);
    ScaledEntry(StateDict(DifferencesAll(Started(d), xs, orders).0), xs, k);
  }

  lemma ScaledEntry(r: Option<Weights>, xs: seq<Weights>, k: string)
    requires |xs| > SwitchOn && forall i :: 0 <= i < |xs| ==> k in xs[i]
    requires forall i :: 0 <= i < |Late(xs)| ==> k in Late(xs)[i]
    requires r.Some? && k in r.value && r.value[k] == Sum(Column(Late(xs), k)) / (|xs| as real)
    ensures r.value[k] == LateShare(xs) * LateMean(xs, k)
  {
    var late := Late(xs);
    var total := Sum(Column(late, k));
    var m, n := |late| as real, |xs| as real;
    Rescale(r.value[k], total, m, n, LateShare(xs), LateMean(xs, k));
  }

  /** A sum over `n` is the share `m / n` of the mean over `m`. */
  lemma Rescale(x: real, total: real, m: real, n: real, share: real, mean: real)
    requires m > 0.0 && n > 0.0 && x == total / n && share == m / n && mean == total / m
    ensures x == share * mean
  {
  }

  /**
   * `getStateDict` after `n > 0` calls of `fullAverageWeights` that followed `setDictionary(d)`:
   * entry `k` is the arithmetic mean of the samples.
   */
  lemma FullStateDictIsMean(d: Weights, xs: seq<Weights>, orders: seq<seq<string>>, k: string)
    requires AllEnumerate(xs, orders) && forall i :: 0 <= i < |xs| ==> xs[i].Keys == d.Keys
    requires |xs| > 0 && k in d
    ensures forall i :: 0 <= i < |xs| ==> k in xs[i]
    ensures var r := StateDict(FullAll(Started(d), xs, orders).0);
            r.Some? && k in r.value && r.value[k] == Sum(Column(xs, k)) / (|xs| as real)
  {
    FullCountsEveryCall(d, xs, orders);
    StateDictEntry(d, xs, |xs|, FullAll(Started(d), xs, orders).0, k);
  }

  /**
   * `lateStartAverageWeights` counts like `fullAverageWeights` on every call, agrees with it
   * past the switch-on point and raises `TypeError`, adding nothing, before it.
   */
  lemma LateStartIsDelayedFull(s: Accumulator, w: Weights, order: seq<string>)
    ensures LateStartAverage(s, w, order).0.countWeights == s.countWeights + 1
    ensures s.countWeights >= SwitchOn ==> LateStartAverage(s, w, order) == FullAverage(s, w, order)
    ensures s.countWeights < SwitchOn ==>
              LateStartAverage(s, w, order).1 == Some(TypeError)
              && LateStartAverage(s, w, order).0.sumWeights == s.sumWeights
  {
  }

  /** On a new object after `setDictionary`, the first call of `lateStartAverageWeights` raises. */
  lemma LateStartRaisesAtFirst(d: Weights, w: Weights, order: seq<string>)
    ensures LateStartAverage(Started(d), w, order).1 == Some(TypeError)
  {
  }

  /** After `setDictionary` on a new object nothing is counted yet: `getStateDict` is `nan` unless `d` is empty. */
  lemma StartedStateDict(d: Weights)
    ensures StateDict(Started(d)) == if d == map[] then Some(map[]) else None
  {
    if d != map[] {
      var k :| k in d;
      assert k in Started(d).sumWeights;
    }
  }
}
