/**
 * The `Smoothing` class of the older framework file (`smoothing/smoothingFramework.py`): a
 * running sum of the model's weights and the previous weights, gated by a call counter.
 * `Data.__train__` calls both `lastWeightDifference` and `call` after every optimizer step,
 * so every step past the switch-on point adds the model's weights twice and counts twice.
 */
module LegacySmoothing {
  import opened Wrappers
  import opened Sums
  import opened RunningMean
  import opened WeightMaps

  /** `numbOfBatchAfterSwitchOn`, fixed by the constructor. */
  const SwitchOn := 2000

  /** The counting and weight state of the class; `mainWeights` is kept apart. */
  datatype Smoother = Smoother(enabled: bool, sumWeights: Weights, previousWeights: Weights,
                               countWeights: nat, counter: nat)

  /** The state the constructor leaves, and the one a key-ingredient restore comes back with. */
  function Initial(): Smoother
  {
    Smoother(false, map[], map[], 0, 0)
  }

  /** `setDictionary`: a zero sum and previous entry per parameter, and the switch on. */
  function WithDictionary(s: Smoother, dictionary: Weights): (r: Smoother)
    ensures r.enabled && r.countWeights == s.countWeights && r.counter == s.counter
    ensures r.sumWeights.Keys == s.sumWeights.Keys + dictionary.Keys
    ensures r.previousWeights.Keys == s.previousWeights.Keys + dictionary.Keys
    ensures forall k :: k in dictionary ==> r.sumWeights[k] == 0.0 && r.previousWeights[k] == 0.0
    ensures forall k :: k in s.sumWeights && k !in dictionary ==> r.sumWeights[k] == s.sumWeights[k]
  {
    s.(enabled := true, sumWeights := s.sumWeights + Zeros(dictionary),
       previousWeights := s.previousWeights + Zeros(dictionary))
  }

  /** `addToAverageWeights`: while enabled, every parameter is added into its sum. */
  ghost function AddToAverage(s: Smoother, w: Weights, order: seq<string>): (Smoother, Option<Raised>)
  {
    if !s.enabled then (s, None)
    else
      var j := FirstMissing(order, s.sumWeights);
      (s.(sumWeights := Pointwise(s.sumWeights, w, Visited(order, j), Add)),
       if j < |order| then Some(KeyError(order[j])) else None)
  }

  /**
   * `comparePrevWeights`: adds the weights into the sums, then records the difference from the
   * previous weights and copies the weights over them.
   */
  ghost function ComparePrev(s: Smoother, w: Weights, order: seq<string>): (Smoother, Result<Weights>)
    requires Enumerates(order, w)
  {
    var added := AddToAverage(s, w, order);
    var s1 := added.0;
    if added.1.Some? then (s1, Err(added.1.value))
    else
      var prev := s1.previousWeights;
      var j := FirstMissing(order, prev);
      MissingIffUnknownName(prev, w, order);
      (s1.(previousWeights := Pointwise(prev, w, Visited(order, j), Replace)),
       if j < |order| then Err(KeyError(order[j])) else Ok(Difference(w, prev)))
  }

  /**
   * `lastWeightDifference`, and equally `call` (which writes the same two loops out and leaves
   * the difference in `helper.substract`): nothing while disabled; otherwise one more on the
   * counter, and past the switch-on point one more counted sample and `comparePrevWeights`.
   */
  ghost function Observe(s: Smoother, w: Weights, order: seq<string>): (Smoother, Result<Option<Weights>>)
    requires Enumerates(order, w)
  {
    if !s.enabled then (s, Ok(None))
    else if s.counter + 1 <= SwitchOn then (s.(counter := s.counter + 1), Ok(None))
    else
      var compared := ComparePrev(s.(counter := s.counter + 1, countWeights := s.countWeights + 1), w, order);
      (compared.0, if compared.1.Err? then Err(compared.1.error) else Ok(Some(compared.1.value)))
  }

  /** What one `__train__` leaves: the new state, `helper.diff`, `helper.substract` or an error. */
  datatype TrainOutcome = TrainOutcome(state: Smoother, error: Option<Raised>,
                                       diff: Option<Weights>, substract: Option<Weights>)

  /** `__train__`'s smoothing part: `lastWeightDifference`, then `call`. */
  ghost function TrainStep(s: Smoother, w: Weights, order: seq<string>): TrainOutcome
    requires Enumerates(order, w)
  {
    var first := Observe(s, w, order);
    if first.1.Err? then TrainOutcome(first.0, Some(first.1.error), None, None)
    else
      var second := Observe(first.0, w, order);
      if second.1.Err? then TrainOutcome(second.0, Some(second.1.error), first.1.value, None)
      else TrainOutcome(second.0, None, first.1.value, second.1.value)
  }

  /** The training steps `xs` in turn, stopping at the first error. */
  ghost function TrainAll(s: Smoother, xs: seq<Weights>, orders: seq<seq<string>>): (Smoother, Option<Raised>)
    requires AllEnumerate(xs, orders)
    decreases |xs|
  {
    if |xs| == 0 then (s, None)
    else
      var n := |xs| - 1;
      var before := TrainAll(s, xs[..n], orders[..n]);
      if before.1.Some? then before
      else var o := TrainStep(before.0, xs[n], orders[n]); (o.state, o.error)
  }

  lemma SplitLast<T>(xs: seq<T>)
    requires |xs| > 0
    ensures xs == xs[..|xs| - 1] + [xs[|xs| - 1]]
  {
  }

  /** `TrainAll` up to the last sample, then the step on that sample. */
  lemma TrainAllLast(s: Smoother, xs: seq<Weights>, orders: seq<seq<string>>)
    requires AllEnumerate(xs, orders) && |xs| > 0
    requires TrainAll(s, xs[..|xs| - 1], orders[..|xs| - 1]).1.None?
    ensures var o := TrainStep(TrainAll(s, xs[..|xs| - 1], orders[..|xs| - 1]).0, xs[|xs| - 1], orders[|xs| - 1]);
            TrainAll(s, xs, orders) == (o.state, o.error)
  {
  }

  /** `TrainAll` over one more sample: the step on the state the earlier samples left. */
  lemma TrainAllSnoc(s: Smoother, xs: seq<Weights>, orders: seq<seq<string>>, x: Weights, order: seq<string>)
    requires AllEnumerate(xs, orders) && Enumerates(order, x) && TrainAll(s, xs, orders).1.None?
    ensures AllEnumerate(xs + [x], orders + [order])
    ensures TrainAll(s, xs + [x], orders + [order]).0 == TrainStep(TrainAll(s, xs, orders).0, x, order).state
    ensures TrainAll(s, xs + [x], orders + [order]).1 == TrainStep(TrainAll(s, xs, orders).0, x, order).error
  {
    assert (xs + [x])[..|xs|] == xs;
    assert (orders + [order])[..|xs|] == orders;
  }

  /** `getWeights`: `{}` before any counted sample or while disabled, else the mean of the sums. */
  function Smoothed(s: Smoother): (r: Weights)
    ensures !s.enabled || s.countWeights == 0 ==> r == map[]
    ensures s.enabled && s.countWeights > 0 ==>
              r.Keys == s.sumWeights.Keys
              && forall k :: k in r ==> r[k] * (s.countWeights as real) == s.sumWeights[k]
  {
    if s.countWeights == 0 || !s.enabled then map[] else Averaged(s.sumWeights, s.countWeights)
  }

  class Smoothing {
    var enabled: bool
    var sumWeights: Weights
    var previousWeights: Weights
    var countWeights: nat
    var counter: nat
    var mainWeights: Option<Weights>

    function Value(): Smoother
      reads this
    {
      Smoother(enabled, sumWeights, previousWeights, countWeights, counter)
    }

    constructor ()
      ensures Value() == Initial() && mainWeights.None?
    {
      enabled := false;
      sumWeights := map[];
      previousWeights := map[];
      countWeights := 0;
      counter := 0;
      mainWeights := None;
    }

    method AddToAverageWeights(weights: Weights, order: seq<string>) returns (err: Option<Raised>)
      requires Enumerates(order, weights)
      modifies this`sumWeights
      ensures (Value(), err) == AddToAverage(old(Value()), weights, order)
    {
      if !enabled {
        return None;
      }
      var s;
      s, err := UpdateEntries(sumWeights, weights, order, Add);
      sumWeights := s;
    }

    /** The substract loop shared by `comparePrevWeights` and `call`. */
    method CopyPrevious(weights: Weights, order: seq<string>) returns (r: Result<Weights>)
      requires Enumerates(order, weights)
      modifies this`previousWeights
      ensures var prev := old(previousWeights);
              var j := FirstMissing(order, prev);
              && previousWeights == Pointwise(prev, weights, Visited(order, j), Replace)
              && (j < |order| ==> r == Err(KeyError(order[j])))
              && (j == |order| ==> weights.Keys <= prev.Keys && r == Ok(Difference(weights, prev)))
    {
      var prev := previousWeights;
      MissingIffUnknownName(prev, weights, order);
      var p, err := UpdateEntries(prev, weights, order, Replace);
      previousWeights := p;
      if err.Some? {
        return Err(err.value);
      }
      r := Ok(map k | k in weights :: weights[k] - prev[k]);
    }

    method ComparePrevWeights(weights: Weights, order: seq<string>) returns (r: Result<Weights>)
      requires Enumerates(order, weights)
      modifies this`sumWeights, this`previousWeights
      ensures (Value(), r) == ComparePrev(old(Value()), weights, order)
    {
      var err := AddToAverageWeights(weights, order);
      if err.Some? {
        return Err(err.value);
      }
      r := CopyPrevious(weights, order);
    }

    method LastWeightDifference(weights: Weights, order: seq<string>) returns (r: Result<Option<Weights>>)
      requires Enumerates(order, weights)
      modifies this`sumWeights, this`previousWeights, this`countWeights, this`counter
      ensures (Value(), r) == Observe(old(Value()), weights, order)
    {
      if !enabled {
        return Ok(None);
      }
      counter := counter + 1;
      if counter > SwitchOn {
        countWeights := countWeights + 1;
        var d := ComparePrevWeights(weights, order);
        if d.Err? {
          return Err(d.error);
        }
        return Ok(Some(d.value));
      }
      return Ok(None);
    }

    /** `call`: returns what it leaves in `helper.substract`; its two loops are those of `comparePrevWeights`. */
    method Call(weights: Weights, order: seq<string>) returns (substract: Result<Option<Weights>>)
      requires Enumerates(order, weights)
      modifies this`sumWeights, this`previousWeights, this`countWeights, this`counter
      ensures (Value(), substract) == Observe(old(Value()), weights, order)
    {
      if !enabled {
        return Ok(None);
      }
      counter := counter + 1;
      if counter > SwitchOn {
        countWeights := countWeights + 1;
        // the adding loop, then the substract loop: `comparePrevWeights` while enabled
        var d := ComparePrevWeights(weights, order);
        if d.Err? {
          return Err(d.error);
        }
        return Ok(Some(d.value));
      }
      return Ok(None);
    }

    /** `Data.__train__`'s smoothing part. */
    method Train(weights: Weights, order: seq<string>) returns (o: TrainOutcome)
      requires Enumerates(order, weights)
      modifies this`sumWeights, this`previousWeights, this`countWeights, this`counter
      ensures o == TrainStep(old(Value()), weights, order) && Value() == o.state
    {
      var diff := LastWeightDifference(weights, order);
      if diff.Err? {
        return TrainOutcome(Value(), Some(diff.error), None, None);
      }
      var substract := Call(weights, order);
      if substract.Err? {
        return TrainOutcome(Value(), Some(substract.error), diff.value, None);
      }
      o := TrainOutcome(Value(), None, diff.value, substract.value);
    }

    method GetWeights() returns (average: Weights)
      ensures average == Smoothed(Value())
    {
      if countWeights == 0 || !enabled {
        return map[];
      }
      average := map k | k in sumWeights :: sumWeights[k] / (countWeights as real);
    }

    method SetDictionary(dictionary: Weights)
      modifies this`enabled, this`sumWeights, this`previousWeights
      ensures Value() == WithDictionary(old(Value()), dictionary)
    {
      sumWeights := sumWeights + Zeros(dictionary);
      previousWeights := previousWeights + Zeros(dictionary);
      enabled := true;
    }

    /** `saveMainWeight`: keeps the model's weights before the smoothed test. */
    method SaveMainWeight(weights: Weights)
      modifies this`mainWeights
      ensures mainWeights == Some(weights)
    {
      mainWeights := Some(weights);
    }

    /**
     * `__setstate__(__getstate__())`: saved with only the key ingredients, the object comes
     * back disabled and empty, as the constructor leaves it; otherwise unchanged.
     */
    method Restore(onlyKeyIngredients: bool)
      modifies this
      ensures onlyKeyIngredients ==> Value() == Initial() && mainWeights.None?
      ensures !onlyKeyIngredients ==> Value() == old(Value()) && mainWeights == old(mainWeights)
    {
      if onlyKeyIngredients {
        previousWeights := map[];
        countWeights := 0;
        counter := 0;
        mainWeights := None;
        sumWeights := map[];
        enabled := false;
      }
    }
  }

  /** While disabled a training step changes nothing and hands out no differences. */
  lemma DisabledStepIsInert(s: Smoother, w: Weights, order: seq<string>)
    requires !s.enabled && Enumerates(order, w)
    ensures TrainStep(s, w, order) == TrainOutcome(s, None, None, None)
  {
  }

  /**
   * One `lastWeightDifference` or `call` past the switch-on point, on sums and previous
   * weights that name exactly the sample's parameters: one more count, the sample added into
   * the sums and copied over the previous weights, and the step from them handed out.
   */
  lemma ObserveCounted(s: Smoother, w: Weights, order: seq<string>)
    requires Enumerates(order, w) && s.enabled && s.counter + 1 > SwitchOn
    requires s.sumWeights.Keys == w.Keys && s.previousWeights.Keys == w.Keys
    ensures Observe(s, w, order).1 == Ok(Some(Difference(w, s.previousWeights)))
    ensures Observe(s, w, order).0.counter == s.counter + 1
    ensures Observe(s, w, order).0.countWeights == s.countWeights + 1
    ensures Observe(s, w, order).0.enabled
    ensures Observe(s, w, order).0.sumWeights == Pointwise(s.sumWeights, w, w.Keys, Add)
    ensures Observe(s, w, order).0.previousWeights == w
  {
    var t := s.(counter := s.counter + 1, countWeights := s.countWeights + 1);
    ObservePastSwitchOn(s, w, order);
    ComparePrevAll(t, w, order);
  }

  /** Past the switch-on point `Observe` is `comparePrevWeights` on the advanced counters. */
  lemma ObservePastSwitchOn(s: Smoother, w: Weights, order: seq<string>)
    requires Enumerates(order, w) && s.enabled && s.counter + 1 > SwitchOn
    ensures var c := ComparePrev(s.(counter := s.counter + 1, countWeights := s.countWeights + 1), w, order);
            Observe(s, w, order) == (c.0, if c.1.Err? then Err(c.1.error) else Ok(Some(c.1.value)))
  {
  }

  /** `comparePrevWeights` on sums and previous weights naming exactly the sample's parameters. */
  lemma ComparePrevAll(s: Smoother, w: Weights, order: seq<string>)
    requires Enumerates(order, w) && s.enabled
    requires s.sumWeights.Keys == w.Keys && s.previousWeights.Keys == w.Keys
    ensures ComparePrev(s, w, order) ==
            (s.(sumWeights := Pointwise(s.sumWeights, w, w.Keys, Add), previousWeights := w),
             Ok(Difference(w, s.previousWeights)))
  {
    AddToAverageAll(s, w, order);
    var s1 := s.(sumWeights := Pointwise(s.sumWeights, w, w.Keys, Add));
    UpdateAll(s.previousWeights, w, order, Replace);
    ReplaceAll(s.previousWeights, w);
  }

  lemma AddToAverageAll(s: Smoother, w: Weights, order: seq<string>)
    requires Enumerates(order, w) && s.enabled && w.Keys <= s.sumWeights.Keys
    ensures AddToAverage(s, w, order) == (s.(sumWeights := Pointwise(s.sumWeights, w, w.Keys, Add)), None)
  {
    UpdateAll(s.sumWeights, w, order, Add);
  }

  /**
   * `helper.substract` is always zero: `call` runs right after `lastWeightDifference` copied
   * the same weights over the previous ones. Past the switch-on point the step adds the
   * sample twice and counts it twice.
   */
  lemma SubstractIsZero(s: Smoother, w: Weights, order: seq<string>)
    requires Enumerates(order, w) && s.enabled && s.counter + 1 > SwitchOn
    requires s.sumWeights.Keys == w.Keys && s.previousWeights.Keys == w.Keys
    ensures TrainStep(s, w, order).error.None?
    ensures TrainStep(s, w, order).diff == Some(Difference(w, s.previousWeights))
    ensures TrainStep(s, w, order).substract == Some(Zeros(w))
    ensures TrainStep(s, w, order).state.enabled
    ensures TrainStep(s, w, order).state.counter == s.counter + 2
    ensures TrainStep(s, w, order).state.countWeights == s.countWeights + 2
    ensures TrainStep(s, w, order).state.sumWeights == Pointwise(Pointwise(s.sumWeights, w, w.Keys, Add), w, w.Keys, Add)
    ensures TrainStep(s, w, order).state.previousWeights == w
  {
    ObserveCounted(s, w, order);
    var s1 := Observe(s, w, order).0;
    ObserveCounted(s1, w, order);
    DifferenceSelf(w);
  }

  /** The step from a sample to itself is zero everywhere. */
  lemma DifferenceSelf(w: Weights)
    ensures Difference(w, w) == Zeros(w)
  {
  }

  /** Up to the switch-on point a training step only advances the counter by two. */
  lemma EarlyStep(s: Smoother, w: Weights, order: seq<string>)
    requires Enumerates(order, w) && s.enabled && s.counter + 2 <= SwitchOn
    ensures TrainStep(s, w, order).error.None?
    ensures TrainStep(s, w, order).diff.None? && TrainStep(s, w, order).substract.None?
    ensures TrainStep(s, w, order).state == s.(counter := s.counter + 2)
  {
  }

  /** The samples that are counted: those from step `SwitchOn / 2` on. */
  function Late(xs: seq<Weights>): (l: seq<Weights>)
    ensures |xs| <= SwitchOn / 2 ==> l == []
    ensures |xs| > SwitchOn / 2 ==> |l| == |xs| - SwitchOn / 2
  {
    if |xs| <= SwitchOn / 2 then [] else xs[SwitchOn / 2..]
  }

  /** Every sample twice in a row, as `lastWeightDifference` and `call` add it. */
  function Twice(ys: seq<Weights>): (t: seq<Weights>)
    ensures |t| == 2 * |ys|
  {
    if |ys| == 0 then [] else Twice(ys[..|ys| - 1]) + [ys[|ys| - 1], ys[|ys| - 1]]
  }

  /** The state `setDictionary` on a new object leaves. */
  function Started(d: Weights): Smoother
  {
    WithDictionary(Initial(), d)
  }

  lemma LateSnoc(xs: seq<Weights>, x: Weights)
    ensures Late(xs + [x]) == if |xs| >= SwitchOn / 2 then Late(xs) + [x] else []
  {
    if |xs| >= SwitchOn / 2 {
      assert (xs + [x])[SwitchOn / 2..] == Late(xs) + [x];
    }
  }

  lemma TwiceSumSnoc(acc: Weights, ys: seq<Weights>, y: Weights)
    ensures SumAll(acc, Twice(ys + [y])) ==
            Pointwise(Pointwise(SumAll(acc, Twice(ys)), y, y.Keys, Add), y, y.Keys, Add)
  {
    var t := Twice(ys);
    assert (ys + [y])[..|ys|] == ys;
    assert Twice(ys + [y]) == t + [y, y];
    assert (t + [y, y])[..|t| + 1] == t + [y];
    assert (t + [y])[..|t|] == t;
  }

  /**
   * Paired counting: after `setDictionary(d)` and training steps whose weights all name the
   * parameters of `d`, no step raises, the counter is two per step, and the sums hold every
   * sample from step `SwitchOn / 2` on twice, counted twice.
   */
  lemma {:induction false} PairedCounting(d: Weights, xs: seq<Weights>, orders: seq<seq<string>>)
    requires AllEnumerate(xs, orders) && forall i :: 0 <= i < |xs| ==> xs[i].Keys == d.Keys
    ensures TrainAll(Started(d), xs, orders).1.None?
    ensures TrainAll(Started(d), xs, orders).0.enabled
    ensures TrainAll(Started(d), xs, orders).0.counter == 2 * |xs|
    ensures TrainAll(Started(d), xs, orders).0.countWeights == 2 * |Late(xs)|
    ensures TrainAll(Started(d), xs, orders).0.sumWeights == SumAll(Zeros(d), Twice(Late(xs)))
    ensures TrainAll(Started(d), xs, orders).0.previousWeights ==
            if |xs| > SwitchOn / 2 then xs[|xs| - 1] else Zeros(d)
    decreases |xs|
  {
    if |xs| > 0 {
      var n := |xs| - 1;
      var init, x := xs[..n], xs[n];
      PairedCounting(d, init, orders[..n]);
      var p := TrainAll(Started(d), init, orders[..n]).0;
      TrainAllLast(Started(d), xs, orders);
      PairedStep(d, init, x, orders[n], p);
      SplitLast(xs);
    } else {
      assert TrainAll(Started(d), xs, orders) == (Started(d), None);
      assert Late(xs) == [] && Twice(Late(xs)) == [];
    }
  }

  /** One training step keeps the paired counts, the doubled late sums and the previous sample. */
  lemma PairedStep(d: Weights, init: seq<Weights>, x: Weights, order: seq<string>, p: Smoother)
    requires Enumerates(order, x) && x.Keys == d.Keys && forall i :: 0 <= i < |init| ==> init[i].Keys == d.Keys
    requires p.enabled && p.counter == 2 * |init| && p.countWeights == 2 * |Late(init)|
    requires p.sumWeights == SumAll(Zeros(d), Twice(Late(init)))
    requires p.previousWeights == if |init| > SwitchOn / 2 then init[|init| - 1] else Zeros(d)
    ensures var o := TrainStep(p, x, order);
            && o.error.None? && o.state.enabled && o.state.counter == 2 * (|init| + 1)
            && o.state.countWeights == 2 * |Late(init + [x])|
            && o.state.sumWeights == SumAll(Zeros(d), Twice(Late(init + [x])))
            && o.state.previousWeights == if |init| + 1 > SwitchOn / 2 then x else Zeros(d)
  {
    if |init| >= SwitchOn / 2 {
      CountedStep(d, init, x, order, p);
    } else {
      EarlyStep(p, x, order);
      LateSnoc(init, x);
    }
  }

  /** After `setDictionary(d)`, training steps whose weights all name the parameters of `d` raise nothing. */
  lemma StartedRaisesNothing(d: Weights, xs: seq<Weights>, orders: seq<seq<string>>)
    requires AllEnumerate(xs, orders) && forall i :: 0 <= i < |xs| ==> xs[i].Keys == d.Keys
    ensures TrainAll(Started(d), xs, orders).1.None?
  {
    PairedCounting(d, xs, orders);
  }

  /** One training step past the switch-on point extends the doubled late sums by the sample. */
  lemma CountedStep(d: Weights, init: seq<Weights>, x: Weights, order: seq<string>, p: Smoother)
    requires Enumerates(order, x) && x.Keys == d.Keys && |init| >= SwitchOn / 2
    requires p.enabled && p.counter == 2 * |init| && p.countWeights == 2 * |Late(init)|
    requires p.sumWeights == SumAll(Zeros(d), Twice(Late(init))) && p.previousWeights.Keys == d.Keys
    ensures TrainStep(p, x, order).error.None?
    ensures TrainStep(p, x, order).state.enabled
    ensures TrainStep(p, x, order).state.counter == 2 * (|init| + 1)
    ensures TrainStep(p, x, order).state.countWeights == 2 * |Late(init + [x])|
    ensures TrainStep(p, x, order).state.sumWeights == SumAll(Zeros(d), Twice(Late(init + [x])))
    ensures TrainStep(p, x, order).state.previousWeights == x
  {
    SubstractIsZero(p, x, order);
    LateSnoc(init, x);
    TwiceSumSnoc(Zeros(d), Late(init), x);
  }

  /** Entry `k` summed over the doubled samples is twice the sum over the samples. */
  lemma {:induction false} TwiceColumn(ys: seq<Weights>, k: string)
    requires forall i :: 0 <= i < |ys| ==> k in ys[i]
    ensures forall i :: 0 <= i < |Twice(ys)| ==> k in Twice(ys)[i]
    ensures Sum(Column(Twice(ys), k)) == 2.0 * Sum(Column(ys, k))
    decreases |ys|
  {
    if |ys| > 0 {
      var n := |ys| - 1;
      var init, y := ys[..n], ys[n];
      TwiceColumn(init, k);
      var t := Twice(init);
      assert Twice(ys) == t + [y, y];
      assert Column(Twice(ys), k) == Column(t, k) + [y[k]] + [y[k]];
      assert Column(ys, k) == Column(init, k) + [y[k]];
      SumSnoc(Column(t, k) + [y[k]], y[k]);
      SumSnoc(Column(t, k), y[k]);
      SumSnoc(Column(init, k), y[k]);
    }
  }

  /**
   * `getWeights` after more than `SwitchOn / 2` steps is, parameter by parameter, the
   * arithmetic mean of the samples from step `SwitchOn / 2` on: the doubled sum over the
   * doubled count.
   */
  lemma SmoothedIsLateMean(d: Weights, xs: seq<Weights>, orders: seq<seq<string>>, k: string)
    requires AllEnumerate(xs, orders) && forall i :: 0 <= i < |xs| ==> xs[i].Keys == d.Keys
    requires |xs| > SwitchOn / 2 && k in d
    ensures forall i :: 0 <= i < |Late(xs)| ==> k in Late(xs)[i]
    ensures var s := TrainAll(Started(d), xs, orders).0;
            k in Smoothed(s) && Smoothed(s)[k] == Sum(Column(Late(xs), k)) / (|Late(xs)| as real)
  {
    PairedCounting(d, xs, orders);
    LateMean(d, xs, k, TrainAll(Started(d), xs, orders).0);
  }

  /** The mean `getWeights` hands out for the sums and count of the late samples, doubled. */
  lemma LateMean(d: Weights, xs: seq<Weights>, k: string, s: Smoother)
    requires forall i :: 0 <= i < |xs| ==> xs[i].Keys == d.Keys
    requires |xs| > SwitchOn / 2 && k in d
    requires s.enabled && s.countWeights == 2 * |Late(xs)| && s.sumWeights == SumAll(Zeros(d), Twice(Late(xs)))
    ensures forall i :: 0 <= i < |Late(xs)| ==> k in Late(xs)[i]
    ensures k in Smoothed(s) && Smoothed(s)[k] == Sum(Column(Late(xs), k)) / (|Late(xs)| as real)
  {
    var l := Late(xs);
    assert forall i :: 0 <= i < |l| ==> l[i] == xs[SwitchOn / 2 + i];
    DoubledSumEntry(d, l, k);
    SmoothedEntry(s, k);
    DivideTwice(Sum(Column(l, k)), |l| as real);
  }

  /** Entry `k` of the sums over the doubled samples, started from zeros. */
  lemma DoubledSumEntry(d: Weights, l: seq<Weights>, k: string)
    requires k in d && forall i :: 0 <= i < |l| ==> k in l[i]
    ensures SumAll(Zeros(d), Twice(l))[k] == 2.0 * Sum(Column(l, k))
  {
    TwiceColumn(l, k);
    SumAllColumn(Zeros(d), Twice(l), k);
  }

  /** Entry `k` of what `getWeights` hands out once something was counted. */
  lemma SmoothedEntry(s: Smoother, k: string)
    requires s.enabled && s.countWeights > 0 && k in s.sumWeights
    ensures k in Smoothed(s) && Smoothed(s)[k] == s.sumWeights[k] / (s.countWeights as real)
  {
  }

  lemma DivideTwice(total: real, n: real)
    requires n > 0.0
    ensures (2.0 * total) / (2.0 * n) == total / n
  {
  }
}
