/**
 * `Timer`: two optional time stamps and running statistics of the differences recorded so far.
 * The clock reading is a parameter of `Start`/`End`; CUDA synchronisation is not modelled.
 */
module Timing {
  import opened Wrappers
  import opened Sums

  class Timer {
    var timeStart: Option<real>
    var timeEnd: Option<real>
    var modelTimeSum: real
    var modelTimeCount: nat
    /** The differences added to the statistics since the last clear, oldest first. */
    ghost var recorded: seq<real>

    ghost predicate Valid()
      reads this
    {
      modelTimeSum == Sum(recorded) && modelTimeCount == |recorded|
    }

    constructor ()
      ensures Valid() && timeStart.None? && timeEnd.None? && recorded == []
    {
      timeStart := None;
      timeEnd := None;
      modelTimeSum := 0.0;
      modelTimeCount := 0;
      recorded := [];
    }

    method Start(now: real)
      requires Valid()
      modifies this
      ensures Valid() && timeStart == Some(now) && timeEnd == old(timeEnd) && recorded == old(recorded)
    {
      timeStart := Some(now);
    }

    method End(now: real)
      requires Valid()
      modifies this
      ensures Valid() && timeEnd == Some(now) && timeStart == old(timeStart) && recorded == old(recorded)
    {
      timeEnd := Some(now);
    }

    /** `getDiff`: defined exactly when both stamps are set. */
    method GetDiff() returns (d: Option<real>)
      ensures d.Some? <==> timeStart.Some? && timeEnd.Some?
      ensures d.Some? ==> d.value == timeEnd.value - timeStart.value
    {
      if timeStart.Some? && timeEnd.Some? {
        return Some(timeEnd.value - timeStart.value);
      }
      return None;
    }

    /** `addToStatistics`: records the difference when it is defined, and nothing otherwise. */
    method AddToStatistics()
      requires Valid()
      modifies this
      ensures Valid() && timeStart == old(timeStart) && timeEnd == old(timeEnd)
      ensures if old(timeStart).Some? && old(timeEnd).Some?
              then recorded == old(recorded) + [old(timeEnd).value - old(timeStart).value]
              else recorded == old(recorded)
    {
      var tmp := GetDiff();
      if tmp.Some? {
        SumSnoc(recorded, tmp.value);
        modelTimeSum := modelTimeSum + tmp.value;
        modelTimeCount := modelTimeCount + 1;
        recorded := recorded + [tmp.value];
      }
    }

    method GetTimeSum() returns (s: real)
      requires Valid()
      ensures s == Sum(recorded)
    {
      s := modelTimeSum;
    }

    method GetCount() returns (n: nat)
      requires Valid()
      ensures n == |recorded|
    {
      n := modelTimeCount;
    }

    method ClearTime()
      requires Valid()
      modifies this
      ensures Valid() && timeStart.None? && timeEnd.None? && recorded == old(recorded)
    {
      timeStart := None;
      timeEnd := None;
    }

    method ClearStatistics()
      requires Valid()
      modifies this
      ensures Valid() && recorded == [] && timeStart == old(timeStart) && timeEnd == old(timeEnd)
    {
      modelTimeSum := 0.0;
      modelTimeCount := 0;
      recorded := [];
    }

    /** `getAverage`: the mean of the recorded differences, `None` before any was recorded. */
    method GetAverage() returns (avg: Option<real>)
      requires Valid()
      ensures avg.None? <==> recorded == []
      ensures avg.Some? ==> avg.value == Sum(recorded) / (|recorded| as real)
    {
      if modelTimeCount != 0 {
        return Some(modelTimeSum / (modelTimeCount as real));
      }
      return None;
    }

    /**
     * `__setstate__(__getstate__())`: saved with only the key ingredients, both stamps and the
     * statistics come back reset; otherwise everything comes back as it was.
     */
    method Restore(onlyKeyIngredients: bool)
      requires Valid()
      modifies this
      ensures Valid()
      ensures onlyKeyIngredients ==> timeStart.None? && timeEnd.None? && recorded == []
      ensures !onlyKeyIngredients ==> timeStart == old(timeStart) && timeEnd == old(timeEnd)
                                      && recorded == old(recorded)
    {
      if onlyKeyIngredients {
        timeStart := None;
        timeEnd := None;
        modelTimeSum := 0.0;
        modelTimeCount := 0;
        recorded := [];
      }
    }
  }

  /** The unit test: intervals 1.0-2.5, 3.0-5.5 and 10.0-25.7 give their sum and their mean. */
  method StatisticsScenario() returns (total: real, avg: Option<real>)
    ensures total == (2.5 - 1.0) + (5.5 - 3.0) + (25.7 - 10.0)
    ensures avg == Some(((2.5 - 1.0) + (5.5 - 3.0) + (25.7 - 10.0)) / 3.0)
  {
    var t := new Timer();
    t.Start(1.0);
    t.End(2.5);
    t.AddToStatistics();
    t.Start(3.0);
    t.End(5.5);
    t.AddToStatistics();
    t.Start(10.0);
    t.End(25.7);
    t.AddToStatistics();
    var r := [2.5 - 1.0, 5.5 - 3.0, 25.7 - 10.0];
    assert t.recorded == r;
    assert r[1..][1..] == [25.7 - 10.0];
    assert Sum(r) == r[0] + (r[1] + (r[2] + Sum([])));
    total := t.GetTimeSum();
    avg := t.GetAverage();
  }
}
