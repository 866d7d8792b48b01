/**
 * The control skeleton of the main framework's `Data` class (`trainLoop`, `testLoop`,
 * `epochLoop`, `resetEpochState`, `_updateTotalNumbLoops`) together with `DefaultData.__epoch__`.
 * The loops ask the epoch's `LoopsState` where to start, read the save-and-exit flag once per
 * batch and imprint where they stopped. Tensors, the data loaders and the model are abstracted:
 * a train loader is its number of batches, a test loader the label count of each batch, and the
 * model's parameters are a `Weights` value that the optimizer step (a parameter) updates.
 */
module Framework {
  import opened Wrappers
  import opened Resume
  import opened Signal
  import opened RunningMean
  import opened SmoothingBase

  /** `trainHelper`: the fields of `TrainDataContainer` the control flow reads. */
  datatype TrainDataContainer = TrainDataContainer(batchNumber: Option<nat>, loopEnded: bool)

  /** `testHelper`: the fields of `TestDataContainer` the control flow reads. */
  datatype TestDataContainer = TestDataContainer(batchNumber: Option<nat>, loopEnded: bool, predSizeSum: nat)

  /** How one call of `trainLoop` or `testLoop` ends. */
  datatype LoopOutcome =
    | Skipped               // `decide` answered `None`
    | Exited(batch: nat)    // the flag was seen at this batch
    | Completed(last: nat)  // the loop ran out; `last` was imprinted as finished
    | ZeroDivision          // the loop summary divided by zero

  /** The name under which the model's own weights are saved while the smoothed ones are tested. */
  const MainKey := "main"

  /** `__howManyTrainInvInOneEpoch__` and `__howManyTestInvInOneEpoch__` of `DefaultData`. */
  const TrainCallsPerEpoch: nat := 1
  const TestCallsPerEpoch: nat := 2

  /** The first batch index a loop hands out; `Skip` never gets that far. */
  function StartOf(d: Decision): nat
  {
    if d.StartAt? then StartIndex(d.start) else 0
  }

  /** How many of the batches `0..upTo-1` a loop starting at `start` visits. */
  function Visits(start: nat, upTo: nat): nat
  {
    if start < upTo then upTo - start else 0
  }

  /**
   * The batch at which a loop over `start..n-1` first sees the save-and-exit flag, where the
   * read made at batch `b` is read number `polls + (b - start)`; `None` when no read sees it.
   */
  function ExitBatch(start: nat, n: nat, raisedAt: Option<nat>, polls: nat): (r: Option<nat>)
    ensures r.Some? ==> start <= r.value < n && SeenAt(raisedAt, polls + (r.value - start))
    ensures r.Some? ==> forall k :: polls <= k < polls + (r.value - start) ==> !SeenAt(raisedAt, k)
    ensures r.None? ==> forall k :: polls <= k < polls + Visits(start, n) ==> !SeenAt(raisedAt, k)
  {
    if raisedAt.None? then None
    else
      var b := start + (if raisedAt.value <= polls then 0 else raisedAt.value - polls);
      if b < n then Some(b) else None
  }

  /** The model's parameters after the optimizer has stepped on batches `lo..hi-1`, in order. */
  function TrainSteps(w: Weights, step: (Weights, nat) -> Weights, lo: nat, hi: nat): Weights
    decreases hi
  {
    if hi <= lo then w else step(TrainSteps(w, step, lo, hi - 1), hi - 1)
  }

  /** How many labels batches `lo..hi-1` hold. */
  function LabelCount(sizes: seq<nat>, lo: nat, hi: nat): nat
    requires hi <= |sizes|
    decreases hi
  {
    if hi <= lo then 0 else LabelCount(sizes, lo, hi - 1) + sizes[hi - 1]
  }

  /**
   * What one loop call does: its outcome, the loops state it leaves, how much it adds to the
   * epoch's batch total, how many times it reads the flag, and the batches `start..processedTo-1`
   * it worked on.
   */
  datatype LoopEffect = LoopEffect(outcome: LoopOutcome, loops: LoopsValue, counted: nat, polls: nat, processedTo: nat)

  /**
   * One `trainLoop` call on loops state `v` with `n` batches, when the train helper's
   * `loopEnded` is `ended0` and the flag is first seen by read `raisedAt` of which `polls` were
   * made before. The batch total grows before the flag is read, so a flagged batch counts. The
   * accuracy summary divides by the number of labels seen, so a call that processes no batch
   * raises before imprinting.
   */
  function TrainEffect(v: LoopsValue, ended0: bool, n: nat, raisedAt: Option<nat>, polls: nat): (e: LoopEffect)
    requires WellFormed(v)
    ensures e.counted <= n && e.polls <= n && WellFormed(e.loops)
  {
    TrainRun(DecideOn(v).0, DecideOn(v).1, ended0, n, raisedAt, polls)
  }

  /** `TrainEffect` once `decide` has answered `d` and left the loops state `decided`. */
  function TrainRun(d: Decision, decided: LoopsValue, ended0: bool, n: nat, raisedAt: Option<nat>, polls: nat): (e: LoopEffect)
    requires WellFormed(decided) && decided.pop.Some?
    ensures e.counted <= n && e.polls <= n && WellFormed(e.loops)
  {
    if d.Skip? then LoopEffect(Skipped, decided, 0, 0, 0)
    else
      var start := StartIndex(d.start);
      var exit := ExitBatch(start, n, raisedAt, polls);
      if exit.Some? then
        LoopEffect(Exited(exit.value), ImprintOn(decided, At(exit.value), ended0).value,
                   exit.value - start + 1, exit.value - start + 1, exit.value)
      else if n <= start then LoopEffect(ZeroDivision, decided, 0, 0, n)
      else LoopEffect(Completed(n - 1), ImprintOn(decided, At(n - 1), true).value, n - start, n - start, n)
  }

  /**
   * What a test helper carried over from an earlier call satisfies: labels are only counted
   * after the batch number was set.
   */
  predicate Coherent(h: Option<TestDataContainer>)
  {
    h.Some? && 0 < h.value.predSizeSum ==> h.value.batchNumber.Some?
  }

  /**
   * One `testLoop` call, the test helper being `helper0` on entry: like `TrainEffect`, except
   * that the batch total grows only after the flag was read, and that the summary divides by
   * the helper's label count, so the call raises when no label was counted. A loop that
   * processed no batch imprints the batch number its helper already held.
   */
  function TestEffect(v: LoopsValue, helper0: Option<TestDataContainer>, sizes: seq<nat>, raisedAt: Option<nat>, polls: nat): (e: LoopEffect)
    requires WellFormed(v) && Coherent(helper0)
    ensures e.counted <= |sizes| && e.polls <= |sizes| && WellFormed(e.loops)
  {
    TestRun(DecideOn(v).0, DecideOn(v).1, helper0, sizes, raisedAt, polls)
  }

  /** `TestEffect` once `decide` has answered `d` and left the loops state `decided`. */
  function TestRun(d: Decision, decided: LoopsValue, helper0: Option<TestDataContainer>, sizes: seq<nat>, raisedAt: Option<nat>, polls: nat): (e: LoopEffect)
    requires WellFormed(decided) && decided.pop.Some? && Coherent(helper0)
    ensures e.counted <= |sizes| && e.polls <= |sizes| && WellFormed(e.loops)
  {
    var n := |sizes|;
    var ended0 := helper0.Some? && helper0.value.loopEnded;
    var pred0 := if helper0.Some? then helper0.value.predSizeSum else 0;
    if d.Skip? then LoopEffect(Skipped, decided, 0, 0, 0)
    else
      var start := StartIndex(d.start);
      var exit := ExitBatch(start, n, raisedAt, polls);
      if exit.Some? then
        LoopEffect(Exited(exit.value), ImprintOn(decided, At(exit.value), ended0).value,
                   exit.value - start, exit.value - start + 1, exit.value)
      else if pred0 + LabelCount(sizes, start, n) == 0 then
        LoopEffect(ZeroDivision, decided, Visits(start, n), Visits(start, n), n)
      else
        assert n <= start ==> LabelCount(sizes, start, n) == 0;
        var last := if start < n then n - 1 else helper0.value.batchNumber.value;
        LoopEffect(Completed(last), ImprintOn(decided, At(last), true).value, Visits(start, n), Visits(start, n), n)
  }

  /** One sub-loop call made by `__epoch__`, with the parameters the model held for a test. */
  datatype SubLoop = TrainPass | TestPass(weights: Weights)

  /** Python truthiness of `__getSmoothedWeights__`'s result: `None` and `{}` are false. */
  predicate NonEmpty(wg: Option<Weights>)
  {
    wg.Some? && wg.value != map[]
  }

  /**
   * The sub-loops `__epoch__` calls, in order: train when asked; nothing more when the flag is
   * seen after training; otherwise, when the epoch is a test epoch, a test with the trained
   * parameters and, when smoothed weights exist, a test with those.
   */
  function EpochPlan(shouldTrain: bool, stopped: bool, testEpoch: bool, trained: Weights, smoothed: Option<Weights>): seq<SubLoop>
  {
    (if shouldTrain then [TrainPass] else [])
    + (if stopped || !testEpoch then []
       else [TestPass(trained)] + (if NonEmpty(smoothed) then [TestPass(smoothed.value)] else []))
  }

  /** How `epochLoop` ends: `None` on the flag, the statistics at the end, or an exception. */
  datatype EpochOutcome = Interrupted | Finished | Failed(error: Raised)

  /** Whether a scheduler registered for `epochStep` steps after epoch `epochNumb`. */
  predicate Fires(epochStep: Option<seq<int>>, epochNumb: nat)
  {
    epochStep.None? || (epochNumb as int) + 1 in epochStep.value
  }

  /**
   * `schedulerStep`: the indices, in order, of the registered schedulers that step after epoch
   * `epochNumb`; none when no scheduler list was given.
   */
  method SchedulerStep(epochNumb: nat, schedulers: Option<seq<Option<seq<int>>>>) returns (stepped: seq<nat>)
    ensures schedulers.None? ==> stepped == []
    ensures schedulers.Some? ==> forall i: nat :: i in stepped <==> i < |schedulers.value| && Fires(schedulers.value[i], epochNumb)
    ensures forall j, k :: 0 <= j < k < |stepped| ==> stepped[j] < stepped[k]
  {
    stepped := [];
    if schedulers.None? {
      return;
    }
    var list := schedulers.value;
    var i := 0;
    while i < |list|
      invariant i <= |list|
      invariant forall k: nat :: k in stepped <==> k < i && Fires(list[k], epochNumb)
      invariant forall j, k :: 0 <= j < k < |stepped| ==> stepped[j] < stepped[k]
      invariant forall j :: 0 <= j < |stepped| ==> stepped[j] < i
    {
      if Fires(list[i], epochNumb) {
        stepped := stepped + [i];
      }
      i := i + 1;
    }
  }

  /**
   * `DefaultData_Metadata.startTestAtEpoch`: the given list, or for the default `-1` (written
   * `None` here) every number `0..epoch`.
   */
  function StartTestAtEpoch(epoch: nat, arg: Option<seq<int>>): (r: seq<int>)
    ensures arg.Some? ==> r == arg.value
    ensures arg.None? ==> |r| == epoch + 1 && forall i :: 0 <= i < |r| ==> r[i] == i
  {
    if arg.Some? then arg.value else seq(epoch + 1, i => i)
  }

  /** Whether `__epoch__` tests during the epoch with index `epochNumber`. */
  predicate TestEpoch(shouldTest: bool, epochNumber: nat, startTestAtEpoch: seq<int>)
  {
    shouldTest && (epochNumber as int) + 1 in startTestAtEpoch
  }

  /** With the default list every one of the `epoch` epochs is a test epoch. */
  lemma DefaultTestsEveryEpoch(epoch: nat, ep: nat)
    requires ep < epoch
    ensures TestEpoch(true, ep, StartTestAtEpoch(epoch, None))
  {
    assert StartTestAtEpoch(epoch, None)[ep + 1] == ep + 1;
  }

  /**
   * A given list holds one-based epoch numbers: the list `[0, 1, 2]` makes the first two
   * epochs, and no other, test epochs.
   */
  lemma ListedEpochsAreOneBased(ep: nat)
    ensures TestEpoch(true, ep, StartTestAtEpoch(10, Some([0, 1, 2]))) <==> ep < 2
  {
  }

  /** `epochHelper`: the state of one run of `epochLoop`. */
  class EpochDataContainer {
    var epochNumber: nat
    var trainTotalNumber: nat
    var testTotalNumber: nat
    var maxTrainTotalNumber: nat
    var maxTestTotalNumber: nat
    var averaged: bool
    const loopsState: LoopsState

    /** `setEpochLoop`: a new container whose totals are zeroed. */
    constructor ()
      ensures epochNumber == 0 && trainTotalNumber == 0 && testTotalNumber == 0 && !averaged
      ensures maxTrainTotalNumber == 0 && maxTestTotalNumber == 0
      ensures fresh(loopsState) && loopsState.Valid() && loopsState.Value() == Fresh()
    {
      epochNumber := 0;
      trainTotalNumber := 0;
      testTotalNumber := 0;
      maxTrainTotalNumber := 0;
      maxTestTotalNumber := 0;
      averaged := false;
      loopsState := new LoopsState();
    }
  }

  class Data {
    var trainHelper: Option<TrainDataContainer>
    var testHelper: Option<TestDataContainer>
    var epochHelper: EpochDataContainer?
    /** The model's parameters. */
    var modelWeights: Weights
    /** `len(trainloader)`. */
    const trainBatches: nat
    /** `labels.size(0)` of each batch of `testloader`. */
    const testBatchSizes: seq<nat>

    constructor (trainBatches: nat, testBatchSizes: seq<nat>, weights: Weights)
      ensures this.trainBatches == trainBatches && this.testBatchSizes == testBatchSizes
      ensures modelWeights == weights && trainHelper.None? && testHelper.None? && epochHelper == null
    {
      this.trainBatches := trainBatches;
      this.testBatchSizes := testBatchSizes;
      modelWeights := weights;
      trainHelper := None;
      testHelper := None;
      epochHelper := null;
    }

    /** The batch loop of `trainLoop`, from the `for` statement to its end. */
    method TrainBatches(helperEpoch: EpochDataContainer, flag: SaveAndExitFlag, step: (Weights, nat) -> Weights, start: nat)
      returns (exit: Option<nat>)
      requires trainHelper.Some?
      modifies this`trainHelper, this`modelWeights, helperEpoch`trainTotalNumber, flag
      ensures exit == ExitBatch(start, trainBatches, flag.raisedAt, old(flag.polls))
      ensures var reached := if exit.Some? then exit.value + 1 else trainBatches;
              helperEpoch.trainTotalNumber == old(helperEpoch.trainTotalNumber) + Visits(start, reached)
              && flag.polls == old(flag.polls) + Visits(start, reached)
      ensures modelWeights == TrainSteps(old(modelWeights), step, start, if exit.Some? then exit.value else trainBatches)
      ensures trainHelper.Some? && trainHelper.value.loopEnded == old(trainHelper.value.loopEnded)
      ensures exit.Some? ==> trainHelper.value.batchNumber == Some(exit.value)
    {
      var batch := 0;
      while batch < trainBatches
        invariant batch <= trainBatches
        invariant ExitBatch(start, batch, flag.raisedAt, old(flag.polls)).None?
        invariant helperEpoch.trainTotalNumber == old(helperEpoch.trainTotalNumber) + Visits(start, batch)
        invariant flag.polls == old(flag.polls) + Visits(start, batch)
        invariant modelWeights == TrainSteps(old(modelWeights), step, start, batch)
        invariant trainHelper.Some? && trainHelper.value.loopEnded == old(trainHelper.value.loopEnded)
      {
        if batch < start {
          batch := batch + 1;
          continue;
        }
        trainHelper := Some(trainHelper.value.(batchNumber := Some(batch)));
        helperEpoch.trainTotalNumber := helperEpoch.trainTotalNumber + 1;
        var raised := flag.Poll();
        if raised {
          return Some(batch);
        }
        modelWeights := step(modelWeights, batch);
        batch := batch + 1;
      }
      return None;
    }

    /** `trainLoop` after `decide` answered a start: the batches, the imprint and the teardown. */
    method TrainFrom(helperEpoch: EpochDataContainer, flag: SaveAndExitFlag, step: (Weights, nat) -> Weights, d: Decision)
      returns (outcome: LoopOutcome)
      requires d.StartAt? && helperEpoch.loopsState.Valid() && helperEpoch.loopsState.popNumbArray.Some?
      modifies this`trainHelper, this`modelWeights, helperEpoch`trainTotalNumber, helperEpoch.loopsState, flag
      ensures helperEpoch.loopsState.Valid()
      ensures var ended0 := old(trainHelper).Some? && old(trainHelper).value.loopEnded;
              var e := TrainRun(d, old(helperEpoch.loopsState.Value()), ended0, trainBatches, flag.raisedAt, old(flag.polls));
              && outcome == e.outcome
              && helperEpoch.loopsState.Value() == e.loops
              && helperEpoch.trainTotalNumber == old(helperEpoch.trainTotalNumber) + e.counted
              && flag.polls == old(flag.polls) + e.polls
              && modelWeights == TrainSteps(old(modelWeights), step, StartIndex(d.start), e.processedTo)
      ensures outcome.ZeroDivision? <==> trainHelper.Some?
      ensures outcome.ZeroDivision? ==> trainHelper.value.loopEnded
    {
      var start := StartIndex(d.start);
      if trainHelper.None? {
        trainHelper := Some(TrainDataContainer(None, false));
      }
      var exit := TrainBatches(helperEpoch, flag, step, start);
      if exit.Some? {
        var err := helperEpoch.loopsState.Imprint(At(exit.value), trainHelper.value.loopEnded);
        trainHelper := None;
        return Exited(exit.value);
      }
      trainHelper := Some(trainHelper.value.(loopEnded := true));
      if trainBatches <= start {
        return ZeroDivision;
      }
      var err := helperEpoch.loopsState.Imprint(At(trainBatches - 1), true);
      trainHelper := None;
      return Completed(trainBatches - 1);
    }

    /**
     * `trainLoop`: decide where to start, run the batches, and imprint where the loop stopped,
     * tearing the helper down on every exit except the division by zero.
     */
    method TrainLoop(helperEpoch: EpochDataContainer, flag: SaveAndExitFlag, step: (Weights, nat) -> Weights)
      returns (outcome: LoopOutcome)
      requires helperEpoch.loopsState.Valid()
      modifies this`trainHelper, this`modelWeights, helperEpoch`trainTotalNumber, helperEpoch.loopsState, flag
      ensures helperEpoch.loopsState.Valid()
      ensures var ended0 := old(trainHelper).Some? && old(trainHelper).value.loopEnded;
              var e := TrainEffect(old(helperEpoch.loopsState.Value()), ended0, trainBatches, flag.raisedAt, old(flag.polls));
              && outcome == e.outcome
              && helperEpoch.loopsState.Value() == e.loops
              && helperEpoch.trainTotalNumber == old(helperEpoch.trainTotalNumber) + e.counted
              && flag.polls == old(flag.polls) + e.polls
              && modelWeights == TrainSteps(old(modelWeights), step, StartOf(DecideOn(old(helperEpoch.loopsState.Value())).0), e.processedTo)
      ensures outcome.ZeroDivision? <==> trainHelper.Some?
      ensures outcome.ZeroDivision? ==> trainHelper.value.loopEnded
      ensures helperEpoch.trainTotalNumber <= old(helperEpoch.trainTotalNumber) + trainBatches
    {
      var d := helperEpoch.loopsState.Decide();
      if d.Skip? {
        trainHelper := None;
        return Skipped;
      }
      outcome := TrainFrom(helperEpoch, flag, step, d);
    }

    /** The batch loop of `testLoop`, from the `for` statement to its end. */
    method TestBatches(helperEpoch: EpochDataContainer, flag: SaveAndExitFlag, start: nat)
      returns (exit: Option<nat>)
      requires testHelper.Some?
      modifies this`testHelper, helperEpoch`testTotalNumber, flag
      ensures exit == ExitBatch(start, |testBatchSizes|, flag.raisedAt, old(flag.polls))
      ensures var reached := if exit.Some? then exit.value else |testBatchSizes|;
              helperEpoch.testTotalNumber == old(helperEpoch.testTotalNumber) + Visits(start, reached)
              && flag.polls == old(flag.polls) + Visits(start, if exit.Some? then exit.value + 1 else reached)
      ensures testHelper.Some? && testHelper.value.loopEnded == old(testHelper.value.loopEnded)
      ensures exit.None? ==> testHelper.value.predSizeSum
                             == old(testHelper.value.predSizeSum) + LabelCount(testBatchSizes, start, |testBatchSizes|)
      ensures exit.None? && start < |testBatchSizes| ==> testHelper.value.batchNumber == Some(|testBatchSizes| - 1)
      ensures exit.None? && |testBatchSizes| <= start ==> testHelper == old(testHelper)
    {
      var batch := 0;
      while batch < |testBatchSizes|
        invariant batch <= |testBatchSizes|
        invariant ExitBatch(start, batch, flag.raisedAt, old(flag.polls)).None?
        invariant helperEpoch.testTotalNumber == old(helperEpoch.testTotalNumber) + Visits(start, batch)
        invariant flag.polls == old(flag.polls) + Visits(start, batch)
        invariant testHelper.Some? && testHelper.value.loopEnded == old(testHelper.value.loopEnded)
        invariant testHelper.value.predSizeSum == old(testHelper.value.predSizeSum) + LabelCount(testBatchSizes, start, batch)
        invariant start < batch ==> testHelper.value.batchNumber == Some(batch - 1)
        invariant batch <= start ==> testHelper == old(testHelper)
      {
        if batch < start {
          batch := batch + 1;
          continue;
        }
        testHelper := Some(testHelper.value.(batchNumber := Some(batch)));
        var raised := flag.Poll();
        if raised {
          return Some(batch);
        }
        helperEpoch.testTotalNumber := helperEpoch.testTotalNumber + 1;
        testHelper := Some(testHelper.value.(predSizeSum := testHelper.value.predSizeSum + testBatchSizes[batch]));
        batch := batch + 1;
      }
      return None;
    }

    /** `testLoop` after `decide` answered a start: the batches, the imprint and the teardown. */
    method TestFrom(helperEpoch: EpochDataContainer, flag: SaveAndExitFlag, d: Decision) returns (outcome: LoopOutcome)
      requires d.StartAt? && helperEpoch.loopsState.Valid() && helperEpoch.loopsState.popNumbArray.Some?
      requires Coherent(testHelper)
      modifies this`testHelper, helperEpoch`testTotalNumber, helperEpoch.loopsState, flag
      ensures helperEpoch.loopsState.Valid() && Coherent(testHelper)
      ensures var e := TestRun(d, old(helperEpoch.loopsState.Value()), old(testHelper), testBatchSizes, flag.raisedAt, old(flag.polls));
              && outcome == e.outcome
              && helperEpoch.loopsState.Value() == e.loops
              && helperEpoch.testTotalNumber == old(helperEpoch.testTotalNumber) + e.counted
              && flag.polls == old(flag.polls) + e.polls
      ensures outcome.ZeroDivision? <==> testHelper.Some?
      ensures outcome.ZeroDivision? ==> testHelper.value.loopEnded && testHelper.value.predSizeSum == 0
    {
      var start := StartIndex(d.start);
      if testHelper.None? {
        testHelper := Some(TestDataContainer(None, false, 0));
      }
      var exit := TestBatches(helperEpoch, flag, start);
      if exit.Some? {
        var err := helperEpoch.loopsState.Imprint(At(exit.value), testHelper.value.loopEnded);
        testHelper := None;
        return Exited(exit.value);
      }
      testHelper := Some(testHelper.value.(loopEnded := true));
      if testHelper.value.predSizeSum == 0 {
        return ZeroDivision;
      }
      assert |testBatchSizes| <= start ==> LabelCount(testBatchSizes, start, |testBatchSizes|) == 0;
      var last := testHelper.value.batchNumber.value;
      var err := helperEpoch.loopsState.Imprint(At(last), true);
      testHelper := None;
      return Completed(last);
    }

    /** `testLoop`: as `trainLoop`, with the test loader and the test batch total. */
    method TestLoop(helperEpoch: EpochDataContainer, flag: SaveAndExitFlag) returns (outcome: LoopOutcome)
      requires helperEpoch.loopsState.Valid() && Coherent(testHelper)
      modifies this`testHelper, helperEpoch`testTotalNumber, helperEpoch.loopsState, flag
      ensures helperEpoch.loopsState.Valid() && Coherent(testHelper)
      ensures var e := TestEffect(old(helperEpoch.loopsState.Value()), old(testHelper), testBatchSizes, flag.raisedAt, old(flag.polls));
              && outcome == e.outcome
              && helperEpoch.loopsState.Value() == e.loops
              && helperEpoch.testTotalNumber == old(helperEpoch.testTotalNumber) + e.counted
              && flag.polls == old(flag.polls) + e.polls
      ensures outcome.ZeroDivision? <==> testHelper.Some?
      ensures outcome.ZeroDivision? ==> testHelper.value.loopEnded && testHelper.value.predSizeSum == 0
      ensures helperEpoch.testTotalNumber <= old(helperEpoch.testTotalNumber) + |testBatchSizes|
    {
      ghost var v0 := helperEpoch.loopsState.Value();
      var d := helperEpoch.loopsState.Decide();
      assert TestEffect(v0, testHelper, testBatchSizes, flag.raisedAt, flag.polls)
             == TestRun(d, helperEpoch.loopsState.Value(), testHelper, testBatchSizes, flag.raisedAt, flag.polls);
      if d.Skip? {
        testHelper := None;
        return Skipped;
      }
      outcome := TestFrom(helperEpoch, flag, d);
    }

    method SetModelNormalWeights(helperEpoch: EpochDataContainer, weights: Weights)
      modifies this`modelWeights, helperEpoch`averaged
      ensures modelWeights == weights && !helperEpoch.averaged
    {
      modelWeights := weights;
      helperEpoch.averaged := false;
    }

    method SetModelSmoothedWeights(helperEpoch: EpochDataContainer, weights: Weights)
      modifies this`modelWeights, helperEpoch`averaged
      ensures modelWeights == weights && helperEpoch.averaged
    {
      modelWeights := weights;
      helperEpoch.averaged := true;
    }

    /** A `trainLoop` call as `__epoch__` sees it: only its exception escapes. */
    method TrainOnce(helperEpoch: EpochDataContainer, flag: SaveAndExitFlag, step: (Weights, nat) -> Weights)
      returns (err: Option<Raised>)
      requires helperEpoch.loopsState.Valid()
      modifies this`trainHelper, this`modelWeights, helperEpoch`trainTotalNumber, helperEpoch.loopsState, flag
      ensures helperEpoch.loopsState.Valid()
      ensures err.Some? ==> err.value == ZeroDivisionError
      ensures helperEpoch.trainTotalNumber <= old(helperEpoch.trainTotalNumber) + trainBatches
      ensures old(flag.polls) <= flag.polls
    {
      var o := TrainLoop(helperEpoch, flag, step);
      err := if o.ZeroDivision? then Some(ZeroDivisionError) else None;
    }

    /** A `testLoop` call as `__epoch__` sees it: only its exception escapes. */
    method TestOnce(helperEpoch: EpochDataContainer, flag: SaveAndExitFlag) returns (err: Option<Raised>)
      requires helperEpoch.loopsState.Valid() && Coherent(testHelper)
      modifies this`testHelper, helperEpoch`testTotalNumber, helperEpoch.loopsState, flag
      ensures helperEpoch.loopsState.Valid() && Coherent(testHelper)
      ensures err.Some? ==> err.value == ZeroDivisionError
      ensures helperEpoch.testTotalNumber <= old(helperEpoch.testTotalNumber) + |testBatchSizes|
      ensures old(flag.polls) <= flag.polls
    {
      var o := TestLoop(helperEpoch, flag);
      err := if o.ZeroDivision? then Some(ZeroDivisionError) else None;
    }

    /**
     * The test part of `__epoch__`: the normal test, the `'main'` snapshot, and when smoothed
     * weights exist a test with them followed by the restore of `'main'`.
     */
    method TestPhase(helperEpoch: EpochDataContainer, flag: SaveAndExitFlag, core: SmoothingCore, smoothed: Option<Weights>)
      returns (err: Option<Raised>, ghost ran: seq<SubLoop>)
      requires helperEpoch.loopsState.Valid() && Coherent(testHelper)
      modifies this`testHelper, this`modelWeights, helperEpoch`testTotalNumber, helperEpoch`averaged,
               helperEpoch.loopsState, flag, core
      ensures helperEpoch.loopsState.Valid() && Coherent(testHelper)
      ensures err.Some? ==> err.value == ZeroDivisionError
      ensures helperEpoch.testTotalNumber <= old(helperEpoch.testTotalNumber) + TestCallsPerEpoch * |testBatchSizes|
      ensures old(flag.polls) <= flag.polls
      ensures err.None? ==>
                && ran == [TestPass(old(modelWeights))] + (if NonEmpty(smoothed) then [TestPass(smoothed.value)] else [])
                && modelWeights == old(modelWeights)
                && core.savedWeightsState == old(core.savedWeightsState)[MainKey := old(modelWeights)]
                && helperEpoch.averaged == (if NonEmpty(smoothed) then false else old(helperEpoch.averaged))
    {
      ran := [TestPass(modelWeights)];
      err := TestOnce(helperEpoch, flag);
      if err.Some? {
        return;
      }
      core.SaveWeights(modelWeights, MainKey, true);
      if NonEmpty(smoothed) {
        SetModelSmoothedWeights(helperEpoch, smoothed.value);
        helperEpoch.averaged := true;
        ran := ran + [TestPass(modelWeights)];
        err := TestOnce(helperEpoch, flag);
        if err.Some? {
          return;
        }
        var main := core.GetWeights(MainKey);
        SetModelNormalWeights(helperEpoch, main.value);
      }
    }

    /**
     * `DefaultData.__epoch__`. `smoothed` is what the strategy's `__getSmoothedWeights__`
     * answers; the framework's train loop does not call the strategy, so the answer is the same
     * for every epoch. The ghost results are the parameters after training, the index of the
     * flag read after training and the sub-loops called, in order.
     */
    method DefaultEpoch(helperEpoch: EpochDataContainer, flag: SaveAndExitFlag, core: SmoothingCore,
                        smoothed: Option<Weights>, shouldTrain: bool, shouldTest: bool,
                        startTestAtEpoch: seq<int>, step: (Weights, nat) -> Weights)
      returns (err: Option<Raised>, ghost trained: Weights, ghost stopRead: nat, ghost ran: seq<SubLoop>)
      requires helperEpoch.loopsState.Valid() && Coherent(testHelper)
      modifies this`trainHelper, this`testHelper, this`modelWeights, helperEpoch`trainTotalNumber,
               helperEpoch`testTotalNumber, helperEpoch`averaged, helperEpoch.loopsState, flag, core
      ensures helperEpoch.loopsState.Valid() && Coherent(testHelper)
      ensures err.Some? ==> err.value == ZeroDivisionError
      ensures helperEpoch.trainTotalNumber <= old(helperEpoch.trainTotalNumber) + TrainCallsPerEpoch * trainBatches
      ensures helperEpoch.testTotalNumber <= old(helperEpoch.testTotalNumber) + TestCallsPerEpoch * |testBatchSizes|
      ensures !shouldTrain ==> trained == old(modelWeights)
      ensures err.None? ==> old(flag.polls) <= stopRead < flag.polls
      ensures err.None? ==>
                var stopped := flag.SetAt(stopRead);
                var testEpoch := TestEpoch(shouldTest, helperEpoch.epochNumber, startTestAtEpoch);
                var tested := !stopped && testEpoch;
                && ran == EpochPlan(shouldTrain, stopped, testEpoch, trained, smoothed)
                && modelWeights == trained
                && core.savedWeightsState == (if tested then old(core.savedWeightsState)[MainKey := trained]
                                              else old(core.savedWeightsState))
                && helperEpoch.averaged == (if tested && NonEmpty(smoothed) then false else old(helperEpoch.averaged))
    {
      ran := [];
      trained := modelWeights;
      stopRead := flag.polls;
      if shouldTrain {
        ran := [TrainPass];
        err := TrainOnce(helperEpoch, flag, step);
        if err.Some? {
          return;
        }
      }
      trained := modelWeights;
      stopRead := flag.polls;
      var stop := flag.Poll();
      if stop {
        return None, trained, stopRead, ran;
      }
      if TestEpoch(shouldTest, helperEpoch.epochNumber, startTestAtEpoch) {
        ghost var tests;
        err, tests := TestPhase(helperEpoch, flag, core, smoothed);
        ran := ran + tests;
      } else {
        err := None;
      }
    }

    /** `_updateTotalNumbLoops`: the number of batches the whole run visits, per loader. */
    method UpdateTotalNumbLoops(epochs: nat)
      requires epochHelper != null
      modifies epochHelper`maxTrainTotalNumber, epochHelper`maxTestTotalNumber
      ensures epochHelper.maxTrainTotalNumber == TrainCallsPerEpoch * epochs * trainBatches
      ensures epochHelper.maxTestTotalNumber == TestCallsPerEpoch * epochs * |testBatchSizes|
    {
      epochHelper.maxTrainTotalNumber := TrainCallsPerEpoch * epochs * trainBatches;
      epochHelper.maxTestTotalNumber := TestCallsPerEpoch * epochs * |testBatchSizes|;
    }

    /** `resetEpochState`: forget every recorded sub-loop. */
    method ResetEpochState()
      requires epochHelper != null
      modifies epochHelper.loopsState
      ensures epochHelper.loopsState.Valid() && epochHelper.loopsState.Value() == Fresh()
    {
      epochHelper.loopsState.Clear();
    }

    /**
     * The body of `epochLoop` for an epoch that is not skipped, up to the flag check: record the
     * epoch number, size the run, run `__epoch__` and, unless it raised, step the schedulers;
     * `stepped` lists the schedulers that stepped.
     */
    method EpochStep(ep: nat, epochs: nat, flag: SaveAndExitFlag, core: SmoothingCore, smoothed: Option<Weights>,
                     shouldTrain: bool, shouldTest: bool, startTestAtEpoch: seq<int>,
                     step: (Weights, nat) -> Weights, schedulers: Option<seq<Option<seq<int>>>>)
      returns (err: Option<Raised>, stepped: seq<nat>)
      requires epochHelper != null && epochHelper.loopsState.Valid() && Coherent(testHelper)
      modifies this`trainHelper, this`testHelper, this`modelWeights, epochHelper, epochHelper.loopsState, flag, core
      ensures epochHelper.loopsState.Valid() && Coherent(testHelper)
      ensures err.Some? ==> err.value == ZeroDivisionError && stepped == []
      ensures err.None? && schedulers.None? ==> stepped == []
      ensures err.None? && schedulers.Some? ==>
                forall i: nat :: i in stepped <==> i < |schedulers.value| && Fires(schedulers.value[i], ep)
      ensures epochHelper.epochNumber == ep
      ensures epochHelper.maxTrainTotalNumber == TrainCallsPerEpoch * epochs * trainBatches
      ensures epochHelper.maxTestTotalNumber == TestCallsPerEpoch * epochs * |testBatchSizes|
      ensures epochHelper.trainTotalNumber <= old(epochHelper.trainTotalNumber) + TrainCallsPerEpoch * trainBatches
      ensures epochHelper.testTotalNumber <= old(epochHelper.testTotalNumber) + TestCallsPerEpoch * |testBatchSizes|
    {
      epochHelper.epochNumber := ep;
      UpdateTotalNumbLoops(epochs);
      ghost var trained, stopRead, ran;
      err, trained, stopRead, ran := DefaultEpoch(epochHelper, flag, core, smoothed, shouldTrain, shouldTest, startTestAtEpoch, step);
      stepped := [];
      if err.None? {
        stepped := SchedulerStep(ep, schedulers);
      }
    }

    /**
     * `epochLoop` over `epochs` epochs. The ghost results are the epoch container used, the
     * indices of the epochs whose `__epoch__` ran, in order, and the loops state the run starts
     * from: a fresh one when there was no container (`setEpochLoop`), otherwise the container's.
     */
    method EpochLoop(epochs: nat, flag: SaveAndExitFlag, core: SmoothingCore, smoothed: Option<Weights>,
                     shouldTrain: bool, shouldTest: bool, startTestAtEpoch: seq<int>,
                     step: (Weights, nat) -> Weights, schedulers: Option<seq<Option<seq<int>>>>)
      returns (outcome: EpochOutcome, ghost used: EpochDataContainer, ghost ran: seq<nat>, ghost start: LoopsValue)
      requires epochHelper != null ==> epochHelper.loopsState.Valid()
      requires Coherent(testHelper)
      modifies this, epochHelper, (if epochHelper != null then {epochHelper.loopsState} else {}), flag, core
      ensures Coherent(testHelper)
      ensures old(epochHelper) == null ==> fresh(used) && start == Fresh()
      ensures old(epochHelper) != null ==> used == old(epochHelper) && start == old(epochHelper.loopsState.Value())
      ensures outcome.Failed? ==> outcome.error == ZeroDivisionError && epochHelper == used
      ensures !outcome.Failed? ==> epochHelper == null
      ensures outcome.Finished? ==> used.loopsState.Value() == Fresh()
      ensures outcome.Interrupted? ==> 0 < flag.polls && flag.SetAt(flag.polls - 1)
      ensures var e0 := if old(epochHelper) == null then 0 else old(epochHelper.epochNumber);
              && (forall i :: 0 <= i < |ran| ==> ran[i] == e0 + i)
              && |ran| <= Visits(e0, epochs)
              && (outcome.Finished? ==> |ran| == Visits(e0, epochs))
      ensures 0 < |ran| ==> used.maxTrainTotalNumber == TrainCallsPerEpoch * epochs * trainBatches
      ensures 0 < |ran| ==> used.maxTestTotalNumber == TestCallsPerEpoch * epochs * |testBatchSizes|
      ensures old(epochHelper) == null ==>
                used.trainTotalNumber <= used.maxTrainTotalNumber && used.testTotalNumber <= used.maxTestTotalNumber
    {
      if epochHelper == null {
        epochHelper := new EpochDataContainer();
      }
      var eh := epochHelper;
      used := eh;
      start := eh.loopsState.Value();
      ghost var e0 := eh.epochNumber;
      ghost var t0 := eh.trainTotalNumber;
      ghost var s0 := eh.testTotalNumber;
      ran := [];
      var ep := 0;
      while ep < epochs
        invariant ep <= epochs
        invariant epochHelper == eh && used == eh
        invariant old(epochHelper) == null ==> fresh(eh) && fresh(eh.loopsState) && t0 == 0 && s0 == 0 && e0 == 0
        invariant old(epochHelper) != null ==> eh == old(epochHelper) && e0 == old(epochHelper.epochNumber)
        invariant eh.loopsState.Valid() && Coherent(testHelper)
        invariant eh.epochNumber == if ep <= e0 then e0 else ep - 1
        invariant |ran| == Visits(e0, ep) && forall i :: 0 <= i < |ran| ==> ran[i] == e0 + i
        invariant eh.trainTotalNumber <= t0 + |ran| * (TrainCallsPerEpoch * trainBatches)
        invariant eh.testTotalNumber <= s0 + |ran| * (TestCallsPerEpoch * |testBatchSizes|)
        invariant 0 < |ran| ==> eh.maxTrainTotalNumber == TrainCallsPerEpoch * epochs * trainBatches
        invariant 0 < |ran| ==> eh.maxTestTotalNumber == TestCallsPerEpoch * epochs * |testBatchSizes|
        invariant old(epochHelper) == null && |ran| == 0 ==> eh.maxTrainTotalNumber == 0 && eh.maxTestTotalNumber == 0
      {
        if ep < eh.epochNumber {
          ep := ep + 1;
          continue;
        }
        var err, stepped := EpochStep(ep, epochs, flag, core, smoothed, shouldTrain, shouldTest, startTestAtEpoch, step, schedulers);
        MulSucc(|ran|, TrainCallsPerEpoch * trainBatches);
        MulSucc(|ran|, TestCallsPerEpoch * |testBatchSizes|);
        ran := ran + [ep];
        WithinMax(|ran|, epochs, TrainCallsPerEpoch, trainBatches);
        WithinMax(|ran|, epochs, TestCallsPerEpoch, |testBatchSizes|);
        if err.Some? {
          return Failed(err.value), used, ran, start;
        }
        var stop := flag.Poll();
        if stop {
          epochHelper := null;
          return Interrupted, used, ran, start;
        }
        ep := ep + 1;
      }
      ResetEpochState();
      epochHelper := null;
      outcome := Finished;
      WithinMax(|ran|, epochs, TrainCallsPerEpoch, trainBatches);
      WithinMax(|ran|, epochs, TestCallsPerEpoch, |testBatchSizes|);
    }
  }

  lemma MulSucc(k: nat, c: nat)
    ensures (k + 1) * c == k * c + c
  {
  }

  lemma WithinMax(k: nat, epochs: nat, calls: nat, n: nat)
    requires k <= epochs
    ensures k * (calls * n) <= calls * epochs * n
  {
    assert calls * epochs * n == epochs * (calls * n);
  }
}
