/**
 * What the train and test loop effects mean for a run stopped by the save-and-exit flag. The
 * lemmas about resuming describe a `LoopsState` pickled on its own, as its unit test does: the
 * framework's own run never carries a loops state into another process, because an interrupted
 * `epochLoop` tears its container down before the run is saved (`RestartAfterInterrupt`).
 */
module LoopResume {
  import opened Wrappers
  import opened Resume
  import opened Signal
  import opened RunningMean
  import opened SmoothingBase
  import opened Framework

  /**
   * A save-and-exit stop followed by the next run. The interrupted `epochLoop` calls
   * `epochLoopTearDown` before `modelRun` saves, so the saved `Data` holds `epochHelper = None`
   * (and `__setstate__` keeps it so, with or without `only_Key_Ingredients`); `next` is the
   * next run's flag. That run's `epochLoop` builds a new container: its epochs run from 0 and its
   * loops start from a fresh loops state, on which every `decide` of any sequence of queue
   * operations `ops` answers batch 0. No train or test loop is resumed from the stop. `second`
   * is `None` when the first run was not interrupted.
   */
  method RestartAfterInterrupt(data: Data, epochs: nat, flag: SaveAndExitFlag, next: SaveAndExitFlag, core: SmoothingCore,
                               smoothed: Option<Weights>, shouldTrain: bool, shouldTest: bool, startTestAtEpoch: seq<int>,
                               step: (Weights, nat) -> Weights, schedulers: Option<seq<Option<seq<int>>>>, ops: seq<Op>)
    returns (first: EpochOutcome, second: Option<EpochOutcome>, ghost ran: seq<nat>, ghost start: LoopsValue)
    requires data.epochHelper != null ==> data.epochHelper.loopsState.Valid()
    requires Coherent(data.testHelper)
    modifies data, data.epochHelper, (if data.epochHelper != null then {data.epochHelper.loopsState} else {}), flag, next, core
    ensures second.Some? <==> first.Interrupted?
    ensures first.Interrupted? ==> start == Fresh() && |ran| <= epochs && forall i :: 0 <= i < |ran| ==> ran[i] == i
    ensures first.Interrupted? ==>
              forall i :: 0 <= i < |RunOps(start, ops).decisions| ==> RunOps(start, ops).decisions[i] == StartAt(At(0))
  {
    ghost var used, ran1, start1;
    first, used, ran1, start1 := data.EpochLoop(epochs, flag, core, smoothed, shouldTrain, shouldTest, startTestAtEpoch, step, schedulers);
    if !first.Interrupted? {
      return first, None, [], Fresh();
    }
    assert data.epochHelper == null;
    var outcome;
    outcome, used, ran, start := data.EpochLoop(epochs, next, core, smoothed, shouldTrain, shouldTest, startTestAtEpoch, step, schedulers);
    second := Some(outcome);
    FreshAndClearedStartAtZero(start, ops);
  }

  /** Stepping on `lo..mid-1` and then on `mid..hi-1` is stepping on `lo..hi-1`. */
  lemma {:induction false} TrainStepsSplit(w: Weights, step: (Weights, nat) -> Weights, lo: nat, mid: nat, hi: nat)
    requires lo <= mid <= hi
    ensures TrainSteps(TrainSteps(w, step, lo, mid), step, mid, hi) == TrainSteps(w, step, lo, hi)
    decreases hi
  {
    if hi == mid {
    } else {
      TrainStepsSplit(w, step, lo, mid, hi - 1);
    }
  }

  /**
   * Within one process no loop resumes: once the working queue is exhausted (or was never
   * filled, the history being empty) a loop starts at batch 0, and a loop that stops appends
   * exactly one record and leaves the queue exhausted for the next loop.
   */
  lemma TrainWithinOneProcess(v: LoopsValue, ended0: bool, n: nat, raisedAt: Option<nat>, polls: nat)
    requires WellFormed(v) && (v.pop == Some([]) || v == Fresh())
    ensures DecideOn(v).0 == StartAt(At(0))
    ensures var e := TrainEffect(v, ended0, n, raisedAt, polls);
            && !e.outcome.Skipped?
            && (e.outcome.Exited? || e.outcome.Completed? ==>
                  e.loops.pop == Some([]) && |e.loops.numbArray| == |v.numbArray| + 1
                  && e.loops.numbArray[..|v.numbArray|] == v.numbArray)
  {
    var (d, decided) := DecideOn(v);
    assert d == StartAt(At(0)) && decided == LoopsValue(v.numbArray, Some([]));
    TrainOnExhaustedQueue(v.numbArray, ended0, n, raisedAt, polls);
  }

  /** A train loop on an exhausted queue starts at 0 and, when it stops, appends one record. */
  lemma TrainOnExhaustedQueue(h: seq<Record>, ended0: bool, n: nat, raisedAt: Option<nat>, polls: nat)
    ensures WellFormed(LoopsValue(h, Some([])))
    ensures var e := TrainRun(StartAt(At(0)), LoopsValue(h, Some([])), ended0, n, raisedAt, polls);
            && !e.outcome.Skipped?
            && (e.outcome.Exited? || e.outcome.Completed? ==>
                  e.loops.pop == Some([]) && |e.loops.numbArray| == |h| + 1 && e.loops.numbArray[..|h|] == h)
  {
    var e := TrainRun(StartAt(At(0)), LoopsValue(h, Some([])), ended0, n, raisedAt, polls);
    if e.outcome.Exited? {
      assert e.loops == LoopsValue(h + [Record(At(e.outcome.batch), ended0)], Some([]));
    } else if e.outcome.Completed? {
      assert e.loops == LoopsValue(h + [Record(At(n - 1), true)], Some([]));
    }
  }

  /** The same for a test loop, whatever test helper it inherits. */
  lemma TestWithinOneProcess(v: LoopsValue, helper0: Option<TestDataContainer>, sizes: seq<nat>, raisedAt: Option<nat>, polls: nat)
    requires WellFormed(v) && (v.pop == Some([]) || v == Fresh()) && Coherent(helper0)
    ensures var e := TestEffect(v, helper0, sizes, raisedAt, polls);
            && !e.outcome.Skipped?
            && (e.outcome.Exited? || e.outcome.Completed? ==>
                  e.loops.pop == Some([]) && |e.loops.numbArray| == |v.numbArray| + 1
                  && e.loops.numbArray[..|v.numbArray|] == v.numbArray)
  {
    var (d, decided) := DecideOn(v);
    assert d == StartAt(At(0)) && decided == LoopsValue(v.numbArray, Some([]));
    TestOnExhaustedQueue(v.numbArray, helper0, sizes, raisedAt, polls);
  }

  /** A test loop on an exhausted queue starts at 0 and, when it stops, appends one record. */
  lemma TestOnExhaustedQueue(h: seq<Record>, helper0: Option<TestDataContainer>, sizes: seq<nat>, raisedAt: Option<nat>, polls: nat)
    requires Coherent(helper0)
    ensures WellFormed(LoopsValue(h, Some([])))
    ensures var e := TestRun(StartAt(At(0)), LoopsValue(h, Some([])), helper0, sizes, raisedAt, polls);
            && !e.outcome.Skipped?
            && (e.outcome.Exited? || e.outcome.Completed? ==>
                  e.loops.pop == Some([]) && |e.loops.numbArray| == |h| + 1 && e.loops.numbArray[..|h|] == h)
  {
    var e := TestRun(StartAt(At(0)), LoopsValue(h, Some([])), helper0, sizes, raisedAt, polls);
    if e.outcome.Exited? {
      var ended0 := helper0.Some? && helper0.value.loopEnded;
      assert e.loops == LoopsValue(h + [Record(At(e.outcome.batch), ended0)], Some([]));
    } else if e.outcome.Completed? {
      assert e.loops == LoopsValue(h + [Record(At(e.outcome.last), true)], Some([]));
    }
  }

  /**
   * The train batch total grows before the flag is read and the test batch total after it: on
   * the same loops state and flag, a train loop and a test loop stop at the same batch, and the
   * train loop counts the flagged batch while the test loop does not.
   */
  lemma CountingOrder(v: LoopsValue, sizes: seq<nat>, raisedAt: Option<nat>, polls: nat)
    requires WellFormed(v)
    ensures var tr := TrainEffect(v, false, |sizes|, raisedAt, polls);
            var te := TestEffect(v, None, sizes, raisedAt, polls);
            && (tr.outcome.Exited? <==> te.outcome.Exited?)
            && (tr.outcome.Exited? ==> tr.outcome == te.outcome && tr.polls == te.polls
                                       && tr.counted == tr.polls && te.counted + 1 == te.polls)
            && (tr.outcome.Completed? ==> tr.counted == tr.polls)
            && (te.outcome.Completed? ==> te.counted == te.polls)
  {
    var d := DecideOn(v).0;
    TrainRunCounts(d, DecideOn(v).1, false, |sizes|, raisedAt, polls);
    TestRunCounts(d, DecideOn(v).1, sizes, raisedAt, polls);
  }

  /** A train loop reads the flag once per batch it counts, the flagged batch included. */
  lemma TrainRunCounts(d: Decision, decided: LoopsValue, ended0: bool, n: nat, raisedAt: Option<nat>, polls: nat)
    requires WellFormed(decided) && decided.pop.Some?
    ensures var e := TrainRun(d, decided, ended0, n, raisedAt, polls);
            && (e.outcome.Exited? <==> d.StartAt? && ExitBatch(StartIndex(d.start), n, raisedAt, polls).Some?)
            && (e.outcome.Exited? ==> e.outcome == Exited(ExitBatch(StartIndex(d.start), n, raisedAt, polls).value)
                                      && e.polls == ExitBatch(StartIndex(d.start), n, raisedAt, polls).value - StartIndex(d.start) + 1)
            && (e.outcome.Exited? || e.outcome.Completed? ==> e.counted == e.polls)
  {
  }

  /** A test loop without a carried helper reads the flag once more than it counts when it stops there. */
  lemma TestRunCounts(d: Decision, decided: LoopsValue, sizes: seq<nat>, raisedAt: Option<nat>, polls: nat)
    requires WellFormed(decided) && decided.pop.Some?
    ensures var e := TestRun(d, decided, None, sizes, raisedAt, polls);
            && (e.outcome.Exited? <==> d.StartAt? && ExitBatch(StartIndex(d.start), |sizes|, raisedAt, polls).Some?)
            && (e.outcome.Exited? ==> e.outcome == Exited(ExitBatch(StartIndex(d.start), |sizes|, raisedAt, polls).value)
                                      && e.polls == ExitBatch(StartIndex(d.start), |sizes|, raisedAt, polls).value - StartIndex(d.start) + 1
                                      && e.counted + 1 == e.polls)
            && (e.outcome.Completed? ==> e.counted == e.polls)
  {
  }

  /** On a fresh loops state `decide` makes an empty working queue and answers batch 0. */
  lemma FreshDecide()
    ensures DecideOn(Fresh()) == (StartAt(At(0)), LoopsValue([], Some([])))
  {
    var empty := LoopsValue([], Some([]));
    assert WithWorkingCopy(Fresh()) == empty;
    assert CanRunOn(empty) == Ok((StartAt(At(0)), empty));
  }

  /** A train loop that starts at batch 0 on an empty history and is stopped at batch `k` leaves `[[k, False]]`. */
  lemma FirstTrainLoopExits(n: nat, raisedAt: Option<nat>, polls: nat, e: LoopEffect)
    requires e == TrainRun(StartAt(At(0)), LoopsValue([], Some([])), false, n, raisedAt, polls)
    requires e.outcome.Exited?
    ensures e.outcome.batch == e.processedTo < n
    ensures e.loops == LoopsValue([Record(At(e.outcome.batch), false)], Some([]))
  {
    var exit := ExitBatch(0, n, raisedAt, polls);
    assert [] + [Record(At(exit.value), false)] == [Record(At(exit.value), false)];
  }

  /**
   * A train loop that is the first sub-loop of a fresh run and is stopped by the flag at batch
   * `k` has trained on `0..k-1` and imprints `[k, False]`; a `LoopsState` pickled on its own at
   * that point reloads as that history alone (see `ReloadedTrainLoopCompletes`).
   */
  lemma FreshTrainLoopExits(n: nat, raisedAt: Option<nat>, polls: nat, e: LoopEffect)
    requires e == TrainEffect(Fresh(), false, n, raisedAt, polls) && e.outcome.Exited?
    ensures e.outcome.batch == e.processedTo < n
    ensures e.loops == LoopsValue([Record(At(e.outcome.batch), false)], Some([]))
    ensures Reload(e.loops) == LoopsValue([Record(At(e.outcome.batch), false)], None)
  {
    FreshDecide();
    FirstTrainLoopExits(n, raisedAt, polls, e);
  }

  /**
   * A `LoopsState` unpickled with the history `[[k, False]]`: it makes the train loop resume at
   * batch `k` and, with no flag, train on `k..n-1`, so together with the stopped loop every
   * batch is stepped on exactly once and in order. The resumed loop's imprint overwrites
   * field 0 with `True` and leaves the record unfinished, so a state pickled again and reloaded
   * re-enters the loop at batch 1.
   */
  lemma ReloadedTrainLoopCompletes(k: nat, n: nat, polls: nat, e: LoopEffect, w: Weights, step: (Weights, nat) -> Weights)
    requires k < n
    requires e == TrainEffect(LoopsValue([Record(At(k), false)], None), false, n, None, polls)
    ensures DecideOn(LoopsValue([Record(At(k), false)], None)).0 == StartAt(At(k))
    ensures e == LoopEffect(Completed(n - 1), LoopsValue([Record(TrueMark, false)], Some([])), n - k, n - k, n)
    ensures TrainSteps(TrainSteps(w, step, 0, k), step, k, e.processedTo) == TrainSteps(w, step, 0, n)
    ensures Reload(e.loops) == LoopsValue([Record(TrueMark, false)], None)
    ensures DecideOn(Reload(e.loops)).0 == StartAt(TrueMark) && StartIndex(TrueMark) == 1
  {
    ResumedTrainRun(k, n, polls, e);
    var e' := LoopEffect(Completed(n - 1), LoopsValue([Record(TrueMark, false)], Some([])), n - k, n - k, n);
    assert e.processedTo == n && e.loops == e'.loops;
    TrainStepsSplit(w, step, 0, k, n);
    TrueMarkRestartsAtOne();
  }

  /** The loop effect of that resumed call. */
  lemma ResumedTrainRun(k: nat, n: nat, polls: nat, e: LoopEffect)
    requires k < n
    requires e == TrainEffect(LoopsValue([Record(At(k), false)], None), false, n, None, polls)
    ensures DecideOn(LoopsValue([Record(At(k), false)], None)).0 == StartAt(At(k))
    ensures e == LoopEffect(Completed(n - 1), LoopsValue([Record(TrueMark, false)], Some([])), n - k, n - k, n)
  {
    var rec := Record(At(k), false);
    var copy := LoopsValue([rec], Some([rec]));
    assert WithWorkingCopy(LoopsValue([rec], None)) == copy;
    assert CanRunOn(copy) == Ok((StartAt(At(k)), copy));
  }

  /** A reloaded history `[[True, False]]` makes the train loop start at batch 1. */
  lemma TrueMarkRestartsAtOne()
    ensures DecideOn(LoopsValue([Record(TrueMark, false)], None)).0 == StartAt(TrueMark)
    ensures StartIndex(TrueMark) == 1
  {
    var rec := Record(TrueMark, false);
    var copy := LoopsValue([rec], Some([rec]));
    assert WithWorkingCopy(LoopsValue([rec], None)) == copy;
    assert CanRunOn(copy) == Ok((StartAt(TrueMark), copy));
  }
}
