/**
 * `RunningGeneralMeanWeights`: a running power mean of weight dictionaries. Each entry keeps
 * the mean of the samples raised to `power`; reading the weights takes the `power`-th root
 * (left abstract) when `power > 1`.
 */
module RunningMean {
  import opened Wrappers
  import opened Sums

  /** A weight dictionary: one scalar per parameter name. */
  type Weights = map<string, real>

  /** What `addWeights` raises for a name the averages lack. */
  const UnknownWeightName := "Unknown weight name"

  /** What the constructor raises for a power of 0 or less. */
  const NegativePower := "Power cannot be negative"

  /** What one sample contributes: `x ** power` when `power > 1`, `x` itself otherwise. */
  function Lifted(x: real, power: int): real
  {
    if power > 1 then Pow(x, power as nat) else x
  }

  /** `avg.mul_(N).add_(x ** power).div_(N + 1)` on one entry. */
  function Updated(avg: real, n: nat, x: real, power: int): real
  {
    (avg * (n as real) + Lifted(x, power)) / ((n + 1) as real)
  }

  /** One update of an entry: the new mean times `N + 1` is the old mean times `N` plus the lifted sample. */
  lemma UpdatedScales(avg: real, n: nat, x: real, power: int)
    ensures Updated(avg, n, x, power) * ((n + 1) as real) == avg * (n as real) + Lifted(x, power)
  {
  }

  /** `torch.zeros_like` for every entry. */
  function Zeros(w: Weights): (z: Weights)
    ensures z.Keys == w.Keys && forall k :: k in z ==> z[k] == 0.0
  {
    map k | k in w :: 0.0
  }

  /** The entries of `avg` whose names are in `keys` (and in `w`) updated with `w`'s sample. */
  function UpdateKeys(avg: Weights, w: Weights, keys: set<string>, n: nat, power: int): (r: Weights)
    ensures r.Keys == avg.Keys
  {
    map k | k in avg :: if k in keys && k in w then Updated(avg[k], n, w[k], power) else avg[k]
  }

  /** A successful `addWeights(w)` on the averages, before `N` is bumped. */
  function Step(avg: Weights, w: Weights, n: nat, power: int): (r: Weights)
    ensures r.Keys == avg.Keys
  {
    UpdateKeys(avg, w, w.Keys, n, power)
  }

  /** `order` lists every key of `w` exactly once: the dictionary's iteration order. */
  ghost predicate Enumerates(order: seq<string>, w: Weights)
  {
    && (forall k :: k in w <==> k in order)
    && (forall i, j :: 0 <= i < j < |order| ==> order[i] != order[j])
  }

  /** Each sample is enumerated by the order beside it. */
  ghost predicate AllEnumerate(xs: seq<Weights>, orders: seq<seq<string>>)
  {
    |orders| == |xs| && forall i :: 0 <= i < |xs| ==> Enumerates(orders[i], xs[i])
  }

  /** The names among the first `i` of `order`. */
  ghost function Visited(order: seq<string>, i: nat): set<string>
    requires i <= |order|
  {
    set t | 0 <= t < i :: order[t]
  }

  lemma VisitNext(order: seq<string>, i: nat)
    requires i < |order|
    requires forall a, b :: 0 <= a < b < |order| ==> order[a] != order[b]
    ensures Visited(order, i + 1) == Visited(order, i) + {order[i]}
    ensures order[i] !in Visited(order, i)
  {
  }

  lemma VisitedAll(order: seq<string>, w: Weights)
    requires Enumerates(order, w)
    ensures Visited(order, |order|) == w.Keys
  {
  }

  /** Folding one more name into the partially updated averages. */
  lemma UpdateOneMore(avg: Weights, w: Weights, keys: set<string>, key: string, n: nat, power: int)
    requires key in avg && key in w && key !in keys
    ensures UpdateKeys(avg, w, keys + {key}, n, power)
            == UpdateKeys(avg, w, keys, n, power)[key := Updated(UpdateKeys(avg, w, keys, n, power)[key], n, w[key], power)]
  {
  }

  /**
   * `avg` is `avg0` with the sample folded into the entries named before the first name of
   * `order` that `avg0` lacks.
   */
  ghost predicate StoppedAt(avg0: Weights, w: Weights, order: seq<string>, avg: Weights, n: nat, power: int)
  {
    exists j :: 0 <= j < |order| && order[j] !in avg0
      && (forall t :: 0 <= t < j ==> order[t] in avg0)
      && avg == UpdateKeys(avg0, w, Visited(order, j), n, power)
  }

  /**
   * `avg` is `avg0` with the sample `w` folded into the first `i` names of `order`, all of which
   * `avg0` knows.
   */
  ghost predicate Folded(avg0: Weights, w: Weights, order: seq<string>, i: nat, avg: Weights, n: nat, power: int)
  {
    && i <= |order|
    && (forall t :: 0 <= t < i ==> order[t] in avg0)
    && avg == UpdateKeys(avg0, w, Visited(order, i), n, power)
  }

  /** Folding in the next name, which the averages know. */
  lemma FoldNext(avg0: Weights, w: Weights, order: seq<string>, i: nat, avg: Weights, n: nat, power: int)
    requires Enumerates(order, w) && Folded(avg0, w, order, i, avg, n, power)
    requires i < |order| && order[i] in avg
    ensures Folded(avg0, w, order, i + 1, avg[order[i] := Updated(avg[order[i]], n, w[order[i]], power)], n, power)
  {
    VisitNext(order, i);
    UpdateOneMore(avg0, w, Visited(order, i), order[i], n, power);
  }

  /** At an unknown name `order[i]`: the sample is not a subset, and the fold stopped there. */
  lemma UnknownKeyExit(avg0: Weights, w: Weights, order: seq<string>, i: nat, avg: Weights, n: nat, power: int)
    requires Enumerates(order, w) && Folded(avg0, w, order, i, avg, n, power)
    requires i < |order| && order[i] !in avg
    ensures !(w.Keys <= avg0.Keys)
    ensures StoppedAt(avg0, w, order, avg, n, power)
  {
    assert order[i] in w;
  }

  /** Past the last name: every name was known, and all of them were folded in. */
  lemma AllKeysExit(avg0: Weights, w: Weights, order: seq<string>, avg: Weights, n: nat, power: int)
    requires Enumerates(order, w) && Folded(avg0, w, order, |order|, avg, n, power)
    ensures w.Keys <= avg0.Keys
    ensures avg == Step(avg0, w, n, power)
  {
    VisitedAll(order, w);
  }

  /**
   * `addWeights(w)` on the averages, from position `i` of `order` on: each known name is updated
   * in turn, and the first unknown name stops the visit with the error.
   */
  function AddFrom(avg: Weights, w: Weights, order: seq<string>, i: nat, n: nat, power: int): (r: (Weights, Option<Raised>))
    requires i <= |order| && forall t :: 0 <= t < |order| ==> order[t] in w
    ensures r.0.Keys == avg.Keys
    ensures r.1.Some? ==> r.1 == Some(Rejected(UnknownWeightName))
    decreases |order| - i
  {
    if i == |order| then (avg, None)
    else if order[i] !in avg then (avg, Some(Rejected(UnknownWeightName)))
    else AddFrom(avg[order[i] := Updated(avg[order[i]], n, w[order[i]], power)], w, order, i + 1, n, power)
  }

  /** The rest of the visit, once the first `i` names were folded in. */
  lemma {:induction false} AddFromFolded(avg0: Weights, w: Weights, order: seq<string>, i: nat, avg: Weights, n: nat, power: int)
    requires Enumerates(order, w) && Folded(avg0, w, order, i, avg, n, power)
    ensures AddFrom(avg, w, order, i, n, power).1.None? <==> w.Keys <= avg0.Keys
    ensures AddFrom(avg, w, order, i, n, power).1.None? ==> AddFrom(avg, w, order, i, n, power).0 == Step(avg0, w, n, power)
    ensures AddFrom(avg, w, order, i, n, power).1.Some? ==> StoppedAt(avg0, w, order, AddFrom(avg, w, order, i, n, power).0, n, power)
    decreases |order| - i
  {
    if i == |order| {
      AllKeysExit(avg0, w, order, avg, n, power);
    } else if order[i] !in avg {
      UnknownKeyExit(avg0, w, order, i, avg, n, power);
    } else {
      FoldNext(avg0, w, order, i, avg, n, power);
      AddFromFolded(avg0, w, order, i + 1, avg[order[i] := Updated(avg[order[i]], n, w[order[i]], power)], n, power);
    }
  }

  /**
   * `addWeights(w)` succeeds exactly when every name of `w` is known; then every entry is one
   * `Step` further. Otherwise the entries named before the first unknown name are updated.
   */
  lemma AddWeightsOutcome(avg: Weights, w: Weights, order: seq<string>, n: nat, power: int)
    requires Enumerates(order, w)
    ensures AddFrom(avg, w, order, 0, n, power).1.None? <==> w.Keys <= avg.Keys
    ensures AddFrom(avg, w, order, 0, n, power).1.None? ==> AddFrom(avg, w, order, 0, n, power).0 == Step(avg, w, n, power)
    ensures AddFrom(avg, w, order, 0, n, power).1.Some? ==> StoppedAt(avg, w, order, AddFrom(avg, w, order, 0, n, power).0, n, power)
  {
    assert Visited(order, 0) == {};
    AddFromFolded(avg, w, order, 0, avg, n, power);
  }

  class RunningGeneralMeanWeights {
    var weightsDictAvg: Weights
    var N: nat
    const power: int

    ghost predicate Valid()
      reads this
    {
      power > 0
    }

    constructor (initWeights: Weights, setToZeros: bool, power: int)
      requires power > 0
      ensures Valid() && this.power == power
      ensures weightsDictAvg == (if setToZeros then Zeros(initWeights) else initWeights)
      ensures N == (if setToZeros then 0 else 1)
    {
      if setToZeros {
        weightsDictAvg := Zeros(initWeights);
        N := 0;
      } else {
        weightsDictAvg := initWeights;
        N := 1;
      }
      this.power := power;
    }

    /**
     * `addWeights(weights)`, visiting the keys in `order`. An unknown name raises after the
     * names before it were already folded in, and then `N` is not bumped.
     */
    method AddWeights(weights: Weights, order: seq<string>) returns (err: Option<Raised>)
      requires Valid() && Enumerates(order, weights)
      modifies this
      ensures Valid()
      ensures (weightsDictAvg, err) == AddFrom(old(weightsDictAvg), weights, order, 0, old(N), power)
      ensures N == old(N) + (if err.None? then 1 else 0)
    {
      var i := 0;
      while i < |order|
        invariant 0 <= i <= |order| && N == old(N)
        invariant AddFrom(weightsDictAvg, weights, order, i, N, power) == AddFrom(old(weightsDictAvg), weights, order, 0, old(N), power)
      {
        var key := order[i];
        if key !in weightsDictAvg {
          return Some(Rejected(UnknownWeightName));
        }
        weightsDictAvg := weightsDictAvg[key := Updated(weightsDictAvg[key], N, weights[key], power)];
        i := i + 1;
      }
      N := N + 1;
      err := None;
    }

    /** `getWeights()`: the averages themselves, or their `power`-th roots when `power > 1`. */
    method GetWeights(root: real -> real) returns (r: Weights)
      requires Valid()
      ensures r.Keys == weightsDictAvg.Keys
      ensures forall k :: k in r ==> r[k] == (if power > 1 then root(weightsDictAvg[k]) else weightsDictAvg[k])
    {
      if power > 1 {
        r := map k | k in weightsDictAvg :: root(weightsDictAvg[k]);
      } else {
        r := weightsDictAvg;
      }
    }
  }

  /** The constructor's validation: a power of 0 or less raises before any object is handed out. */
  method Create(initWeights: Weights, setToZeros: bool, power: int) returns (r: Result<RunningGeneralMeanWeights>)
    ensures r.Err? <==> power <= 0
    ensures r.Err? ==> r.error == Rejected(NegativePower)
    ensures r.Ok? ==> fresh(r.value) && r.value.Valid() && r.value.power == power
                      && r.value.weightsDictAvg == (if setToZeros then Zeros(initWeights) else initWeights)
                      && r.value.N == (if setToZeros then 0 else 1)
  {
    if power <= 0 {
      return Err(Rejected(NegativePower));
    }
    var m := new RunningGeneralMeanWeights(initWeights, setToZeros, power);
    r := Ok(m);
  }

  /** The averages after successful `addWeights` calls with the samples `xs`, starting at count `n`. */
  function AddAll(avg: Weights, n: nat, xs: seq<Weights>, power: int): (r: Weights)
    ensures r.Keys == avg.Keys
    decreases |xs|
  {
    if |xs| == 0 then avg else AddAll(Step(avg, xs[0], n, power), n + 1, xs[1..], power)
  }

  /** The lifted values of entry `k` across the samples. */
  function LiftedColumn(xs: seq<Weights>, k: string, power: int): (c: seq<real>)
    requires forall i :: 0 <= i < |xs| ==> k in xs[i]
    ensures |c| == |xs|
  {
    seq(|xs|, i requires 0 <= i < |xs| => Lifted(xs[i][k], power))
  }

  /**
   * The running mean is a true mean: after the samples `xs`, entry `k` times the final count is
   * the initial entry times the initial count plus the sum of the lifted samples.
   */
  lemma {:induction false} MeanOfSamples(avg: Weights, n: nat, xs: seq<Weights>, power: int, k: string)
    requires k in avg && forall i :: 0 <= i < |xs| ==> k in xs[i]
    ensures AddAll(avg, n, xs, power)[k] * ((n + |xs|) as real)
            == avg[k] * (n as real) + Sum(LiftedColumn(xs, k, power))
    decreases |xs|
  {
    if |xs| > 0 {
      var a1 := Step(avg, xs[0], n, power);
      UpdatedScales(avg[k], n, xs[0][k], power);
      assert a1[k] == Updated(avg[k], n, xs[0][k], power);
      MeanOfSamples(a1, n + 1, xs[1..], power, k);
      assert LiftedColumn(xs, k, power) == [Lifted(xs[0][k], power)] + LiftedColumn(xs[1..], k, power);
      assert n + 1 + |xs[1..]| == n + |xs|;
    }
  }

  lemma DivideOut(x: real, n: real, total: real)
    requires n != 0.0 && x * n == total
    ensures x == total / n
  {
  }

  /** The closed form of the running mean once at least one sample has been counted. */
  lemma MeanClosedForm(avg: Weights, n: nat, xs: seq<Weights>, power: int, k: string)
    requires k in avg && forall i :: 0 <= i < |xs| ==> k in xs[i]
    requires 0 < n + |xs|
    ensures AddAll(avg, n, xs, power)[k]
            == (avg[k] * (n as real) + Sum(LiftedColumn(xs, k, power))) / ((n + |xs|) as real)
  {
    MeanOfSamples(avg, n, xs, power, k);
    DivideOut(AddAll(avg, n, xs, power)[k], (n + |xs|) as real,
              avg[k] * (n as real) + Sum(LiftedColumn(xs, k, power)));
  }

  /** With `setToZeros` and power 1 the estimate after x1..xn is (x1 + ... + xn) / n. */
  lemma ZeroStartIsArithmeticMean(init: Weights, xs: seq<Weights>, k: string)
    requires k in init && |xs| > 0 && forall i :: 0 <= i < |xs| ==> k in xs[i]
    ensures AddAll(Zeros(init), 0, xs, 1)[k]
            == Sum(LiftedColumn(xs, k, 1)) / (|xs| as real)
  {
    MeanClosedForm(Zeros(init), 0, xs, 1, k);
  }

  /** For power 1 a sample contributes its own value. */
  lemma PowerOneColumn(xs: seq<Weights>, k: string)
    requires forall i :: 0 <= i < |xs| ==> k in xs[i]
    ensures forall i :: 0 <= i < |xs| ==> LiftedColumn(xs, k, 1)[i] == xs[i][k]
  {
  }

  /** Without `setToZeros` the initial weights count as the first sample. */
  lemma InitialWeightsCountOnce(init: Weights, xs: seq<Weights>, k: string)
    requires k in init && forall i :: 0 <= i < |xs| ==> k in xs[i]
    ensures AddAll(init, 1, xs, 1)[k]
            == (init[k] + Sum(LiftedColumn(xs, k, 1))) / ((1 + |xs|) as real)
  {
    MeanClosedForm(init, 1, xs, 1, k);
  }

  /** The unit test with the initial weights (2, 5) counted once: adding (2, 5) and (5, 8) gives (3, 6). */
  lemma UnitTestInitialWeights()
    ensures AddAll(map["a" := 2.0, "b" := 5.0], 1, [map["a" := 2.0, "b" := 5.0], map["a" := 5.0, "b" := 8.0]], 1)
            == map["a" := 3.0, "b" := 6.0]
  {
    var w25, w58 := map["a" := 2.0, "b" := 5.0], map["a" := 5.0, "b" := 8.0];
    var r := map["a" := 3.0, "b" := 6.0];
    assert Step(w25, w25, 1, 1) == w25;
    assert Step(w25, w58, 2, 1) == r;
    assert [w25, w58][1..] == [w58];
    assert AddAll(r, 3, [], 1) == r;
    assert AddAll(w25, 2, [w58], 1) == r;
  }

  /** The unit tests from zeros: (2, 5) then (6, 7) give (4, 6), and with power 2 the mean of squares (20, 37). */
  lemma UnitTestZeroStart()
    ensures AddAll(map["a" := 0.0, "b" := 0.0], 0, [map["a" := 2.0, "b" := 5.0], map["a" := 6.0, "b" := 7.0]], 1)
            == map["a" := 4.0, "b" := 6.0]
    ensures AddAll(map["a" := 0.0, "b" := 0.0], 0, [map["a" := 2.0, "b" := 5.0], map["a" := 6.0, "b" := 7.0]], 2)
            == map["a" := 20.0, "b" := 37.0]
  {
    var w25, w67 := map["a" := 2.0, "b" := 5.0], map["a" := 6.0, "b" := 7.0];
    var z := map["a" := 0.0, "b" := 0.0];
    assert [w25, w67][1..] == [w67];
    var r1 := map["a" := 4.0, "b" := 6.0];
    assert Step(z, w25, 0, 1) == w25;
    assert Step(w25, w67, 1, 1) == r1;
    assert AddAll(r1, 2, [], 1) == r1;
    assert AddAll(w25, 1, [w67], 1) == r1;
    var sq := map["a" := 4.0, "b" := 25.0];
    var r2 := map["a" := 20.0, "b" := 37.0];
    assert Pow(2.0, 2) == 4.0 && Pow(5.0, 2) == 25.0 && Pow(6.0, 2) == 36.0 && Pow(7.0, 2) == 49.0;
    assert Step(z, w25, 0, 2) == sq;
    assert Step(sq, w67, 1, 2) == r2;
    assert AddAll(r2, 2, [], 2) == r2;
    assert AddAll(sq, 1, [w67], 2) == r2;
  }
}
