/**
 * `DefaultSmoothingOscilationWeightedMean`: every counted step pushes a copy of the model's
 * weights into a ring buffer of `weightsArraySize` snapshots; the smoothed weights are the
 * mean of the buffered snapshots, newest first, weighted 1, 1/d, 1/d², … by the
 * `DefaultWeightDecay` iterator with decay d.
 */
module WeightedMean {
  import opened Wrappers
  import opened Sums
  import opened Circular
  import opened RunningMean
  import opened WeightMaps
  import opened SmoothingBase
  import opened Oscillation

  /** `DefaultWeightDecay()`'s decay and the metadata's default buffer size. */
  const DefaultDecay: real := 1.1
  const DefaultWeightsArraySize := 20

  /** A copied state dictionary: its entries and the order `items()` visits them in. */
  datatype Snapshot = Snapshot(entries: Weights, order: seq<string>)

  ghost predicate Ordered(s: Snapshot)
  {
    Enumerates(s.order, s.entries)
  }

  /** The `i`-th value `DefaultWeightDecay` yields after `iter()`: 1 divided `i` times by d. */
  function Decay(wd: real, i: nat): real
    requires wd != 0.0
  {
    if i == 0 then 1.0 else Decay(wd, i - 1) / wd
  }

  /** The `i`-th weight is d⁻ⁱ. */
  lemma {:induction false} DecayIsInversePower(wd: real, i: nat)
    requires wd != 0.0
    ensures Decay(wd, i) * Pow(wd, i) == 1.0
  {
    if i > 0 {
      DecayIsInversePower(wd, i - 1);
      assert Decay(wd, i) * wd == Decay(wd, i - 1);
      assert Decay(wd, i) * Pow(wd, i) == (Decay(wd, i) * wd) * Pow(wd, i - 1);
    }
  }

  lemma {:induction false} DecayPositive(wd: real, i: nat)
    requires wd > 0.0
    ensures Decay(wd, i) > 0.0
  {
    if i > 0 {
      DecayPositive(wd, i - 1);
    }
  }

  /** `wgSum` after `n` snapshots: the sum of the first `n` weights. */
  function DecaySum(wd: real, n: nat): real
    requires wd != 0.0
  {
    if n == 0 then 0.0 else DecaySum(wd, n - 1) + Decay(wd, n - 1)
  }

  /** With a positive decay the weight sum of at least one snapshot is positive. */
  lemma {:induction false} DecaySumPositive(wd: real, n: nat)
    requires wd > 0.0 && n > 0
    ensures DecaySum(wd, n) > 0.0
  {
    DecayPositive(wd, n - 1);
    if n > 1 {
      DecaySumPositive(wd, n - 1);
    }
  }

  /** `average[key] += val.mul(weight)` on one entry. */
  function Scaled(weight: real): (real, real) -> real
  {
    (acc, x) => acc + x * weight
  }

  /** The position of the first snapshot naming an entry `base` lacks; `|snaps|` when none does. */
  function FirstBad(snaps: seq<Snapshot>, base: Weights): (b: nat)
    ensures b <= |snaps|
    ensures forall i :: 0 <= i < b ==> FirstMissing(snaps[i].order, base) == |snaps[i].order|
    ensures b < |snaps| ==> FirstMissing(snaps[b].order, base) < |snaps[b].order|
  {
    if |snaps| == 0 then 0
    else if FirstMissing(snaps[0].order, base) < |snaps[0].order| then 0
    else 1 + FirstBad(snaps[1..], base)
  }

  /** The accumulator after adding each snapshot times its weight, the `i`-th with weight d⁻ⁱ. */
  function WeightedSum(base: Weights, snaps: seq<Snapshot>, wd: real): (r: Weights)
    requires wd != 0.0
    ensures r.Keys == base.Keys
  {
    if |snaps| == 0 then base
    else
      var last := snaps[|snaps| - 1];
      Pointwise(WeightedSum(base, snaps[..|snaps| - 1], wd), last.entries, last.entries.Keys, Scaled(Decay(wd, |snaps| - 1)))
  }

  /** The accumulator after one more snapshot is the previous one with that snapshot added in. */
  lemma WeightedSumSnoc(base: Weights, snaps: seq<Snapshot>, wd: real, i: nat)
    requires wd != 0.0 && i < |snaps|
    ensures WeightedSum(base, snaps[..i + 1], wd) ==
            Pointwise(WeightedSum(base, snaps[..i], wd), snaps[i].entries, snaps[i].entries.Keys, Scaled(Decay(wd, i)))
  {
    assert snaps[..i + 1][..i] == snaps[..i];
  }

  /** What a weight sum of zero gives; the tensors would hold infinities there. */
  const ZeroWeightSum := "division by a zero weight sum"

  /**
   * `__getSmoothedWeights__` over the buffered snapshots `snaps`, newest first: zeros named after
   * the newest snapshot, then each snapshot added with its weight, then every entry divided by
   * the weight sum. The first `next()` raises for a decay of 0, and an entry the newest
   * snapshot lacks raises `KeyError`.
   */
  function WeightedAverage(snaps: seq<Snapshot>, wd: real): (r: Result<Weights>)
    ensures r.Ok? && |snaps| == 0 ==> r.value == map[]
    ensures r.Ok? && |snaps| > 0 ==> r.value.Keys == snaps[0].entries.Keys
  {
    if |snaps| == 0 then Ok(map[])
    else if wd == 0.0 then Err(ZeroDivisionError)
    else
      var base := Zeros(snaps[0].entries);
      var b := FirstBad(snaps, base);
      if b < |snaps| then Err(KeyError(snaps[b].order[FirstMissing(snaps[b].order, base)]))
      else if DecaySum(wd, |snaps|) == 0.0 then Err(Rejected(ZeroWeightSum))
      else
        Ok(Divided(WeightedSum(base, snaps, wd), DecaySum(wd, |snaps|)))
  }

  /** Every entry divided by `total`. */
  function Divided(sum: Weights, total: real): (r: Weights)
    requires total != 0.0
    ensures r.Keys == sum.Keys && forall k :: k in r ==> r[k] == sum[k] / total
  {
    map k | k in sum :: sum[k] / total
  }

  /** No snapshot before position `i` names an entry `base` lacks. */
  ghost predicate GoodPrefix(snaps: seq<Snapshot>, base: Weights, i: nat)
    requires i <= |snaps|
  {
    forall j :: 0 <= j < i ==> FirstMissing(snaps[j].order, base) == |snaps[j].order|
  }

  lemma GoodPrefixExtend(snaps: seq<Snapshot>, base: Weights, i: nat)
    requires i < |snaps| && GoodPrefix(snaps, base, i)
    requires FirstMissing(snaps[i].order, base) == |snaps[i].order|
    ensures GoodPrefix(snaps, base, i + 1)
  {
  }

  /** The first bad snapshot is the first one after a run of good ones that is not good itself. */
  lemma {:induction false} FirstBadAt(snaps: seq<Snapshot>, base: Weights, i: nat)
    requires i <= |snaps|
    requires GoodPrefix(snaps, base, i)
    requires i < |snaps| ==> FirstMissing(snaps[i].order, base) < |snaps[i].order|
    ensures FirstBad(snaps, base) == i
    decreases i
  {
    if i > 0 {
      assert forall j :: 0 <= j < i - 1 ==> snaps[1..][j] == snaps[j + 1];
      assert GoodPrefix(snaps[1..], base, i - 1);
      FirstBadAt(snaps[1..], base, i - 1);
    }
  }

  lemma ZeroDecayExit(snaps: seq<Snapshot>, wd: real)
    requires |snaps| > 0 && wd == 0.0
    ensures WeightedAverage(snaps, wd) == Err(ZeroDivisionError) && DecayAfter(snaps, wd) == 1.0
  {
  }

  lemma KeyErrorExit(snaps: seq<Snapshot>, wd: real, i: nat)
    requires wd != 0.0 && i < |snaps| && FirstBad(snaps, Zeros(snaps[0].entries)) == i
    ensures var base := Zeros(snaps[0].entries);
            WeightedAverage(snaps, wd) == Err(KeyError(snaps[i].order[FirstMissing(snaps[i].order, base)]))
    ensures DecayAfter(snaps, wd) == Decay(wd, i + 1)
  {
  }

  lemma CompleteExit(snaps: seq<Snapshot>, wd: real)
    requires wd != 0.0 && |snaps| > 0 && FirstBad(snaps, Zeros(snaps[0].entries)) == |snaps|
    ensures var base := Zeros(snaps[0].entries);
            WeightedAverage(snaps, wd) ==
              if DecaySum(wd, |snaps|) == 0.0 then Err(Rejected(ZeroWeightSum))
              else Ok(Divided(WeightedSum(base, snaps, wd), DecaySum(wd, |snaps|)))
    ensures DecayAfter(snaps, wd) == Decay(wd, |snaps|)
  {
  }

  /** `currentWd` after that call: `next()` ran once per snapshot up to and including a failing one. */
  function DecayAfter(snaps: seq<Snapshot>, wd: real): real
  {
    if |snaps| == 0 || wd == 0.0 then 1.0
    else
      var b := FirstBad(snaps, Zeros(snaps[0].entries));
      Decay(wd, if b < |snaps| then b + 1 else |snaps|)
  }

  /** Entry `k` of the snapshots, each times its weight, summed. */
  function DecayedColumn(snaps: seq<Snapshot>, k: string, wd: real): real
    requires wd != 0.0 && forall i :: 0 <= i < |snaps| ==> k in snaps[i].entries
  {
    if |snaps| == 0 then 0.0
    else DecayedColumn(snaps[..|snaps| - 1], k, wd) + snaps[|snaps| - 1].entries[k] * Decay(wd, |snaps| - 1)
  }

  /** A sample that names only entries of the newest one, in a well-formed order, raises no `KeyError`. */
  lemma {:induction false} NoBadSnapshot(snaps: seq<Snapshot>, base: Weights)
    requires forall i :: 0 <= i < |snaps| ==> Ordered(snaps[i]) && snaps[i].entries.Keys <= base.Keys
    ensures FirstBad(snaps, base) == |snaps|
  {
    if |snaps| > 0 {
      MissingIffUnknownName(base, snaps[0].entries, snaps[0].order);
      NoBadSnapshot(snaps[1..], base);
    }
  }

  /**
   * The error cases, each way round: a decay of 0 raises as soon as there is a snapshot; with a
   * nonzero decay a `KeyError` is raised exactly when some snapshot names an entry the newest
   * one lacks.
   */
  lemma KeyErrorIffForeignName(snaps: seq<Snapshot>, wd: real)
    requires forall i :: 0 <= i < |snaps| ==> Ordered(snaps[i])
    ensures |snaps| > 0 && wd == 0.0 ==> WeightedAverage(snaps, wd) == Err(ZeroDivisionError)
    ensures |snaps| > 0 && wd != 0.0 ==>
              (WeightedAverage(snaps, wd).Err? && WeightedAverage(snaps, wd).error.KeyError?
               <==> exists i :: 0 <= i < |snaps| && !(snaps[i].entries.Keys <= snaps[0].entries.Keys))
  {
    if |snaps| > 0 && wd != 0.0 {
      var base := Zeros(snaps[0].entries);
      var b := FirstBad(snaps, base);
      if b < |snaps| {
        MissingIffUnknownName(base, snaps[b].entries, snaps[b].order);
      } else if i :| 0 <= i < |snaps| && !(snaps[i].entries.Keys <= snaps[0].entries.Keys) {
        MissingIffUnknownName(base, snaps[i].entries, snaps[i].order);
        assert false;
      }
    }
  }

  /** With a positive decay the only error left is the `KeyError`: the weight sum is never zero. */
  lemma PositiveDecayNeverZeroSum(snaps: seq<Snapshot>, wd: real)
    requires wd > 0.0
    ensures WeightedAverage(snaps, wd) != Err(Rejected(ZeroWeightSum))
  {
    if |snaps| > 0 {
      DecaySumPositive(wd, |snaps|);
    }
  }

  /** Entry `k` of the weighted sum is the decayed sum of that entry's column. */
  lemma {:induction false} WeightedSumColumn(base: Weights, snaps: seq<Snapshot>, wd: real, k: string)
    requires wd != 0.0 && k in base && forall i :: 0 <= i < |snaps| ==> k in snaps[i].entries
    ensures WeightedSum(base, snaps, wd)[k] == base[k] + DecayedColumn(snaps, k, wd)
  {
    if |snaps| > 0 {
      var n := |snaps|;
      var init := snaps[..n - 1];
      WeightedSumColumn(base, init, wd, k);
      WeightedSumStep(base, snaps, wd, k);
    }
  }

  /** One more snapshot adds its entry times its weight. */
  lemma WeightedSumStep(base: Weights, snaps: seq<Snapshot>, wd: real, k: string)
    requires wd != 0.0 && |snaps| > 0 && k in base && k in snaps[|snaps| - 1].entries
    ensures WeightedSum(base, snaps, wd)[k]
            == WeightedSum(base, snaps[..|snaps| - 1], wd)[k] + snaps[|snaps| - 1].entries[k] * Decay(wd, |snaps| - 1)
  {
    var last := snaps[|snaps| - 1];
    var w := Decay(wd, |snaps| - 1);
    var prev := WeightedSum(base, snaps[..|snaps| - 1], wd);
    assert WeightedSum(base, snaps, wd) == Pointwise(prev, last.entries, last.entries.Keys, Scaled(w));
    assert Scaled(w)(prev[k], last.entries[k]) == prev[k] + last.entries[k] * w;
  }

  /**
   * When every snapshot has the newest one's entries, entry `k` of the smoothed weights is the
   * weighted mean Σ d⁻ⁱ·xᵢ / Σ d⁻ⁱ of its column, newest first.
   */
  lemma WeightedMeanOfColumn(snaps: seq<Snapshot>, wd: real, k: string)
    requires |snaps| > 0 && wd > 0.0 && k in snaps[0].entries
    requires forall i :: 0 <= i < |snaps| ==> Ordered(snaps[i]) && snaps[i].entries.Keys == snaps[0].entries.Keys
    ensures WeightedAverage(snaps, wd).Ok? && k in WeightedAverage(snaps, wd).value
    ensures WeightedAverage(snaps, wd).value[k] == DecayedColumn(snaps, k, wd) / DecaySum(wd, |snaps|)
  {
    var base := Zeros(snaps[0].entries);
    NoBadSnapshot(snaps, base);
    DecaySumPositive(wd, |snaps|);
    WeightedSumColumn(base, snaps, wd, k);
    var sum := WeightedSum(base, snaps, wd);
    assert sum[k] == DecayedColumn(snaps, k, wd);
    assert WeightedAverage(snaps, wd) == Ok(Divided(sum, DecaySum(wd, |snaps|)));
  }

  /** An entry that holds one value throughout sums to that value times the weight sum. */
  lemma {:induction false} ConstantDecayedColumn(snaps: seq<Snapshot>, k: string, wd: real, v: real)
    requires wd != 0.0 && forall i :: 0 <= i < |snaps| ==> k in snaps[i].entries && snaps[i].entries[k] == v
    ensures DecayedColumn(snaps, k, wd) == v * DecaySum(wd, |snaps|)
  {
    if |snaps| > 0 {
      ConstantDecayedColumn(snaps[..|snaps| - 1], k, wd, v);
    }
  }

  /** An entry that did not change across the buffered snapshots comes out unchanged. */
  lemma ConstantEntryIsKept(snaps: seq<Snapshot>, wd: real, k: string, v: real)
    requires |snaps| > 0 && wd > 0.0 && k in snaps[0].entries
    requires forall i :: 0 <= i < |snaps| ==> Ordered(snaps[i]) && snaps[i].entries.Keys == snaps[0].entries.Keys
    requires forall i :: 0 <= i < |snaps| ==> snaps[i].entries[k] == v
    ensures WeightedAverage(snaps, wd).Ok? && WeightedAverage(snaps, wd).value[k] == v
  {
    WeightedMeanOfColumn(snaps, wd, k);
    ConstantColumnMean(snaps, k, wd, v);
  }

  /** The weighted mean of a constant column is that constant. */
  lemma ConstantColumnMean(snaps: seq<Snapshot>, k: string, wd: real, v: real)
    requires |snaps| > 0 && wd > 0.0 && forall i :: 0 <= i < |snaps| ==> k in snaps[i].entries && snaps[i].entries[k] == v
    ensures DecaySum(wd, |snaps|) > 0.0 && DecayedColumn(snaps, k, wd) / DecaySum(wd, |snaps|) == v
  {
    ConstantDecayedColumn(snaps, k, wd, v);
    DecaySumPositive(wd, |snaps|);
    DivideExact(DecayedColumn(snaps, k, wd), v, DecaySum(wd, |snaps|));
  }

  lemma DivideExact(x: real, v: real, total: real)
    requires total != 0.0 && x == v * total
    ensures x / total == v
  {
  }

  /** Decay 2 over the snapshots 11 (newest) and 5 gives (11 + 5/2) / 1.5 = 9. */
  lemma DecayTwoExample()
    ensures WeightedAverage([Snapshot(map["w" := 11.0], ["w"]), Snapshot(map["w" := 5.0], ["w"])], 2.0)
            == Ok(map["w" := 9.0])
  {
    var snaps := [Snapshot(map["w" := 11.0], ["w"]), Snapshot(map["w" := 5.0], ["w"])];
    WeightedMeanOfColumn(snaps, 2.0, "w");
    assert snaps[..1] == [snaps[0]] && snaps[..1][..0] == [];
    assert DecayedColumn(snaps, "w", 2.0) == 13.5;
    assert DecaySum(2.0, 2) == 1.5;
    var r := WeightedAverage(snaps, 2.0).value;
    assert r.Keys == {"w"} && r["w"] == 9.0;
    assert r == map["w" := 9.0];
  }

  /** `DefaultWeightDecay`: an iterator whose `next()` yields the current weight and divides it by d. */
  class WeightDecay {
    const weightDecay: real
    var currentWd: real

    constructor (weightDecay: real)
      ensures this.weightDecay == weightDecay && currentWd == 1.0
    {
      this.weightDecay := weightDecay;
      currentWd := 1.0;
    }

    /** `__iter__`: restarts at weight 1. */
    method Iter()
      modifies this
      ensures currentWd == 1.0
    {
      currentWd := 1.0;
    }

    /** `__next__`: the current weight, then the division (which raises for d = 0). */
    method Next() returns (r: Result<real>)
      modifies this
      ensures weightDecay == 0.0 ==> r == Err(ZeroDivisionError) && currentWd == old(currentWd)
      ensures weightDecay != 0.0 ==> r == Ok(old(currentWd)) && currentWd == old(currentWd) / weightDecay
    {
      if weightDecay == 0.0 {
        return Err(ZeroDivisionError);
      }
      r := Ok(currentWd);
      currentWd := currentWd / weightDecay;
    }
  }

  /** `next()` on an iterator that has yielded `i` weights: d⁻ⁱ, or the error for d = 0. */
  method NextWeight(it: WeightDecay, ghost i: nat) returns (r: Result<real>)
    requires it.weightDecay == 0.0 ==> it.currentWd == 1.0
    requires it.weightDecay != 0.0 ==> it.currentWd == Decay(it.weightDecay, i)
    modifies it
    ensures it.weightDecay == 0.0 ==> r == Err(ZeroDivisionError) && it.currentWd == 1.0
    ensures it.weightDecay != 0.0 ==> r == Ok(Decay(it.weightDecay, i)) && it.currentWd == Decay(it.weightDecay, i + 1)
  {
    r := it.Next();
  }

  /**
   * One pass of that loop: snapshot `i` times its weight d⁻ⁱ added into the accumulator, or the
   * `KeyError` for its first entry the accumulator lacks.
   */
  method AddSnapshot(items: seq<Snapshot>, base: Weights, wd: real, i: nat, average: Weights, wgSum: real, weight: real)
    returns (acc: Weights, sum: real, err: Option<Raised>)
    requires wd != 0.0 && i < |items| && Ordered(items[i]) && GoodPrefix(items, base, i)
    requires average == WeightedSum(base, items[..i], wd) && wgSum == DecaySum(wd, i) && weight == Decay(wd, i)
    ensures err.Some? ==> FirstBad(items, base) == i &&
                          err.value == KeyError(items[i].order[FirstMissing(items[i].order, base)])
    ensures err.None? ==> GoodPrefix(items, base, i + 1) &&
                          acc == WeightedSum(base, items[..i + 1], wd) && sum == DecaySum(wd, i + 1)
  {
    var s := items[i];
    FirstMissingSameKeys(s.order, average, base);
    acc, err := UpdateEntries(average, s.entries, s.order, Scaled(weight));
    sum := wgSum + weight;
    if err.Some? {
      FirstBadAt(items, base, i);
      return;
    }
    GoodPrefixExtend(items, base, i);
    MissingIffUnknownName(average, s.entries, s.order);
    UpdateAll(average, s.entries, s.order, Scaled(weight));
    WeightedSumSnoc(base, items, wd, i);
  }

  /**
   * The loop of `__getSmoothedWeights__` over the buffered snapshots, newest first, drawing the
   * weights from `it`.
   */
  method AverageSnapshots(items: seq<Snapshot>, it: WeightDecay) returns (r: Result<Weights>)
    requires forall i :: 0 <= i < |items| ==> Ordered(items[i])
    modifies it
    ensures r == WeightedAverage(items, it.weightDecay)
    ensures it.currentWd == DecayAfter(items, it.weightDecay)
  {
    var wd := it.weightDecay;
    if |items| == 0 {
      it.Iter();
      return Ok(map[]);
    }
    var base := Zeros(items[0].entries);
    var average := base;
    it.Iter();
    var wgSum := 0.0;
    var i := 0;
    while i < |items|
      invariant 0 <= i <= |items|
      invariant GoodPrefix(items, base, i)
      invariant it.weightDecay == wd
      invariant wd == 0.0 ==> i == 0 && it.currentWd == 1.0
      invariant wd != 0.0 ==> average == WeightedSum(base, items[..i], wd) && wgSum == DecaySum(wd, i)
      invariant wd != 0.0 ==> it.currentWd == Decay(wd, i)
    {
      var weight := NextWeight(it, i);
      if weight.Err? {
        ZeroDecayExit(items, wd);
        return Err(weight.error);
      }
      var acc, sum, err := AddSnapshot(items, base, wd, i, average, wgSum, weight.value);
      if err.Some? {
        KeyErrorExit(items, wd, i);
        return Err(err.value);
      }
      average, wgSum := acc, sum;
      i := i + 1;
    }
    assert items[..i] == items;
    FirstBadAt(items, base, i);
    CompleteExit(items, wd);
    if wgSum == 0.0 {
      return Err(Rejected(ZeroWeightSum));
    }
    r := Ok(Divided(average, wgSum));
  }

  /** Every item the ring buffer yields is one of its slots. */
  lemma ItemsOrdered(c: CircularList<Snapshot>)
    requires c.arrayIndex <= |c.slots| && forall i :: 0 <= i < |c.slots| ==> Ordered(c.slots[i])
    ensures forall i :: 0 <= i < |c.Items()| ==> Ordered(c.Items()[i])
  {
    var front, back := Reverse(c.slots[..c.arrayIndex]), Reverse(c.slots[c.arrayIndex..]);
    assert forall i :: 0 <= i < |front| ==> front[i] == c.slots[c.arrayIndex - 1 - i];
    assert forall i :: 0 <= i < |back| ==> back[i] == c.slots[|c.slots| - 1 - i];
  }

  /** An enumeration of one dictionary enumerates every dictionary with the same names. */
  lemma EnumeratesSameKeys(order: seq<string>, a: Weights, b: Weights)
    requires Enumerates(order, a) && a.Keys == b.Keys
    ensures Enumerates(order, b)
  {
    assert forall k :: k in b <==> k in a;
  }

  class WeightedMeanSmoothing {
    const core: SmoothingCore
    const gate: OscillationGate
    /** `weightsArray`: the last `weightsArraySize` snapshots. */
    const weightsArray: CircularList<Snapshot>
    /** `smoothingMetadata.weightIter`. */
    const weightIter: WeightDecay
    const smoothingEndCheckType: string

    ghost predicate Valid()
      reads gate.lossContainer, gate.tensorPrevSum, weightsArray
    {
      && gate.Valid() && weightsArray.Valid() && weightsArray.arrayMax > 0
      && (forall i :: 0 <= i < |weightsArray.slots| ==> Ordered(weightsArray.slots[i]))
      && smoothingEndCheckType in EndCheckTypes
    }

    /** The snapshots as `__getSmoothedWeights__` visits them, newest first. */
    ghost function Buffered(): seq<Snapshot>
      reads weightsArray
      requires weightsArray.Valid()
    {
      weightsArray.Items()
    }

    /** What `__getSmoothedWeights__` returns or raises. */
    ghost function SmoothedResult(): Result<Weights>
      reads core`enabled, gate`countWeights, weightsArray
      requires weightsArray.Valid()
    {
      if !core.enabled || gate.countWeights == 0 then Ok(map[])
      else WeightedAverage(Buffered(), weightIter.weightDecay)
    }

    /** The order its entries are visited in: that of the newest snapshot. */
    ghost function SmoothedOrder(): seq<string>
      reads core`enabled, gate`countWeights, weightsArray
      requires weightsArray.Valid()
    {
      if !core.enabled || gate.countWeights == 0 || |Buffered()| == 0 then [] else Buffered()[0].order
    }

    /** The smoothed weights, when there are any, are enumerated by `SmoothedOrder()`. */
    lemma SmoothedOrderEnumerates()
      requires Valid() && SmoothedResult().Ok?
      ensures Enumerates(SmoothedOrder(), SmoothedResult().value)
    {
      if core.enabled && gate.countWeights > 0 && |Buffered()| > 0 {
        ItemsOrdered(weightsArray);
        EnumeratesSameKeys(Buffered()[0].order, Buffered()[0].entries, SmoothedResult().value);
      }
    }

    constructor (config: OscillationConfig, weightsArraySize: nat, weightDecay: real, smoothingEndCheckType: string)
      requires ValidateConfig(config).Ok? && smoothingEndCheckType in EndCheckTypes
      requires config.lossContainerSize > 0 && config.weightSumContainerSize > 0 && weightsArraySize > 0
      ensures Valid() && fresh(core) && fresh(gate) && fresh(weightsArray) && fresh(weightIter)
      ensures fresh(gate.lossContainer) && fresh(gate.tensorPrevSum)
      ensures gate.config == config && weightsArray.arrayMax == weightsArraySize && weightsArray.pushed == []
      ensures weightsArray.slots == [] && weightsArray.arrayIndex == 0
      ensures weightIter.weightDecay == weightDecay && this.smoothingEndCheckType == smoothingEndCheckType
      ensures !core.enabled && gate.countWeights == 0
    {
      core := new SmoothingCore();
      gate := new OscillationGate(config);
      weightsArray := new CircularList<Snapshot>(weightsArraySize);
      weightIter := new WeightDecay(weightDecay);
      this.smoothingEndCheckType := smoothingEndCheckType;
    }

    /** `calcMean`: a copy of the model's weights is pushed into the ring buffer. */
    method CalcMean(weights: Weights, order: seq<string>)
      requires Valid() && Enumerates(order, weights)
      modifies weightsArray
      ensures Valid() && weightsArray.pushed == old(weightsArray.pushed) + [Snapshot(weights, order)]
      ensures weightsArray.arrayMax == old(weightsArray.arrayMax)
      ensures |old(weightsArray.slots)| < weightsArray.arrayMax ==>
                weightsArray.slots == old(weightsArray.slots) + [Snapshot(weights, order)]
      ensures |old(weightsArray.slots)| == weightsArray.arrayMax ==>
                weightsArray.slots == old(weightsArray.slots)[old(weightsArray.arrayIndex) := Snapshot(weights, order)]
      ensures weightsArray.arrayIndex == (old(weightsArray.arrayIndex) + 1) % weightsArray.arrayMax
    {
      weightsArray.PushBack(Snapshot(weights, order));
    }

    /** `__call__`: the oscillation gate, then a snapshot for every counted step. */
    method Call(loss: real, total: int, maxTotal: nat, weights: Weights, order: seq<string>) returns (accepted: bool)
      requires Valid() && Enumerates(order, weights)
      modifies gate`countWeights, gate`weightsComputed, gate`alwaysOn, gate.lossContainer, weightsArray
      ensures Valid()
      ensures gate.lossContainer.pushed == old(gate.lossContainer.pushed) + [loss]
      ensures gate.LossDiff().Some?
      ensures (Ok(gate.weightsComputed), gate.alwaysOn) == Gate(gate.config, gate.LossDiff(), old(gate.alwaysOn), total, maxTotal)
      ensures accepted == (gate.alwaysOn || gate.weightsComputed)
      ensures gate.countWeights == old(gate.countWeights) + (if accepted then 1 else 0)
      ensures weightsArray.pushed == old(weightsArray.pushed) + (if accepted then [Snapshot(weights, order)] else [])
    {
      accepted := gate.Call(loss, total, maxTotal);
      if accepted {
        CalcMean(weights, order);
      }
    }

    /**
     * `__getSmoothedWeights__`: `{}` while disabled or before a counted step, otherwise the
     * weighted mean of the buffered snapshots; the weight iterator is restarted and advanced once
     * per visited snapshot.
     */
    method GetSmoothedWeights() returns (r: Result<Weights>, order: seq<string>)
      requires Valid()
      modifies weightIter
      ensures r == SmoothedResult() && order == SmoothedOrder()
      ensures weightIter.currentWd
              == if !core.enabled || gate.countWeights == 0 then old(weightIter.currentWd)
                 else DecayAfter(Buffered(), weightIter.weightDecay)
    {
      var average := core.BaseSmoothedWeights();
      if average.Some? {
        return Ok(average.value), [];
      }
      if gate.countWeights == 0 {
        return Ok(map[]), [];
      }
      var items := weightsArray.Iterate();
      weightsArray.ItemsAreNewestFirst();
      ItemsOrdered(weightsArray);
      r := AverageSnapshots(items, weightIter);
      order := if |items| == 0 then [] else items[0].order;
    }

    /** `__setDictionary__`: only the base part, which enables the strategy. */
    method SetDictionary()
      modifies core
      ensures core.enabled && core.savedWeightsState == old(core.savedWeightsState)
    {
      core.SetDictionary();
    }

    /**
     * `__isSmoothingGoodEnough__` with the `'wgsum'` check: past the soft margin, Σ|w| of the
     * smoothed weights goes through the weight-sum buffer; an error of `__getSmoothedWeights__`
     * propagates after the division counter was advanced.
     */
    method IsSmoothingGoodEnough() returns (r: Result<bool>)
      requires Valid() && smoothingEndCheckType == "wgsum"
      modifies weightIter, gate`divisionCounter, gate`goodEnoughCounter, gate.tensorPrevSum
      ensures Valid()
      ensures gate.countWeights as int <= gate.config.softMarginAdditionalLoops ==>
                && r == Ok(false) && weightIter.currentWd == old(weightIter.currentWd)
                && gate.divisionCounter == old(gate.divisionCounter) && gate.goodEnoughCounter == old(gate.goodEnoughCounter)
                && gate.tensorPrevSum.pushed == old(gate.tensorPrevSum.pushed)
      ensures gate.countWeights as int > gate.config.softMarginAdditionalLoops && old(SmoothedResult()).Err? ==>
                && r == Err(old(SmoothedResult()).error) && gate.divisionCounter == old(gate.divisionCounter) + 1
                && gate.goodEnoughCounter == old(gate.goodEnoughCounter)
                && gate.tensorPrevSum.pushed == old(gate.tensorPrevSum.pushed)
      ensures old(SmoothedResult()).Ok? ==>
                (SmoothedOrderEnumerates(); gate.GoodEnoughFrom(old(gate.divisionCounter), old(gate.goodEnoughCounter), old(gate.tensorPrevSum.pushed),
                                                     old(SmoothedResult()).value, old(SmoothedOrder()), r))
    {
      if gate.countWeights as int <= gate.config.softMarginAdditionalLoops {
        return Ok(false);
      }
      if SmoothedResult().Ok? {
        SmoothedOrderEnumerates();
      }
      var smoothed, order := GetSmoothedWeights();
      if smoothed.Err? {
        gate.divisionCounter := gate.divisionCounter + 1;
        return Err(smoothed.error);
      }
      r := gate.IsSmoothingGoodEnough(smoothed.value, order);
    }
  }

  /**
   * The metadata's validation and the constructor: an unknown `smoothingEndCheckType` is
   * rejected after the oscillation parameters were checked.
   */
  method CreateWeightedMean(config: OscillationConfig, weightsArraySize: nat, weightDecay: real, smoothingEndCheckType: string)
    returns (r: Result<WeightedMeanSmoothing>)
    requires config.lossContainerSize > 0 && config.weightSumContainerSize > 0 && weightsArraySize > 0
    ensures r.Ok? <==> ValidateConfig(config).Ok? && smoothingEndCheckType in EndCheckTypes
    ensures ValidateConfig(config).Err? ==> r == Err(ValidateConfig(config).error)
    ensures r.Ok? ==> fresh(r.value) && r.value.Valid() && r.value.weightIter.weightDecay == weightDecay
  {
    var c := ValidateConfig(config);
    if c.Err? {
      return Err(c.error);
    }
    var t := ValidateEndCheckType(smoothingEndCheckType);
    if t.Err? {
      return Err(t.error);
    }
    assert smoothingEndCheckType in EndCheckTypes;
    var w := new WeightedMeanSmoothing(config, weightsArraySize, weightDecay, smoothingEndCheckType);
    r := Ok(w);
  }
}
