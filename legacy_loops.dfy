/**
 * The control skeleton of the older framework's `Data` class (`trainLoop`, `testLoop`,
 * `__epoch__`, `epochLoop`, `resetEpochState`, `resetFullEpochState` and the key-ingredient
 * restore). The loops number their batches from the stored `batchNumbTrain`/`batchNumbTest`,
 * store the number of the batch at hand and read the save-and-exit flag before doing any work
 * on it. The loaders are abstracted to their numbers of batches, the optimizer to a step
 * function on the model's parameters, and each train step hands the new parameters to the
 * `Smoothing` object through `lastWeightDifference` and `call`.
 */
module LegacyLoops {
  import opened Wrappers
  import opened Signal
  import opened RunningMean
  import opened Sums
  import opened WeightMaps
  import opened LegacySmoothing

  /** How a loop, an epoch or the epoch loop returns: normally, at the flag, or by an exception. */
  datatype LoopEnd = Completed | Interrupted | Failed(error: Raised)

  /** The fields of `Data` the control flow reads and writes, with the model's parameters. */
  datatype DataValue = DataValue(batchNumbTrain: nat, batchNumbTest: nat, epochNumb: nat,
                                 trainHelper: bool, testHelper: bool, epochHelper: bool,
                                 model: Weights)

  /** Everything a loop changes: the data object, the smoothing object and the flag's reads. */
  datatype World = World(data: DataValue, smoother: Smoother, mainWeights: Option<Weights>, polls: nat)

  datatype Run = Run(world: World, end: LoopEnd)

  /** The optimizer step on loader position `i` keeps the model's parameter names. */
  ghost predicate KeepsNames(step: (Weights, nat) -> Weights, order: seq<string>)
  {
    forall w: Weights, i: nat {:trigger step(w, i)} :: Enumerates(order, w) ==> Enumerates(order, step(w, i))
  }

  /** What a train batch changes: the stored batch number, the model, the smoothing object and the flag's reads. */
  datatype TrainState = TrainState(batch: nat, model: Weights, smoother: Smoother, polls: nat)

  datatype TrainRun = TrainRun(state: TrainState, end: LoopEnd)

  /**
   * Positions `i..n-1` of `trainLoop`'s `for` loop, whose batches are numbered from `start`:
   * store the number, read the flag and return if it is set, else step the optimizer and hand
   * the new parameters to `lastWeightDifference` and `call`; an exception there ends the loop.
   */
  ghost function TrainBatches(t: TrainState, step: (Weights, nat) -> Weights, order: seq<string>,
                              raisedAt: Option<nat>, start: nat, n: nat, i: nat): (r: TrainRun)
    requires i <= n && Enumerates(order, t.model) && KeepsNames(step, order)
    ensures Enumerates(order, r.state.model)
    ensures r.state.polls == t.polls + (if r.end.Completed? then n - i else r.state.batch - start - i + 1)
    ensures r.end.Completed? ==> forall k :: t.polls <= k < r.state.polls ==> !SeenAt(raisedAt, k)
    ensures r.end.Completed? ==> r.state.batch == if i < n then start + n - 1 else t.batch
    ensures !r.end.Completed? ==> start + i <= r.state.batch < start + n
    ensures r.end.Interrupted? ==>
              && SeenAt(raisedAt, r.state.polls - 1)
              && (forall k :: t.polls <= k < r.state.polls - 1 ==> !SeenAt(raisedAt, k))
    decreases n - i
  {
    if i == n then TrainRun(t, Completed)
    else if SeenAt(raisedAt, t.polls) then TrainRun(t.(batch := start + i, polls := t.polls + 1), Interrupted)
    else
      var model := step(t.model, i);
      var o := TrainStep(t.smoother, model, order);
      var next := TrainState(start + i, model, o.state, t.polls + 1);
      if o.error.Some? then TrainRun(next, Failed(o.error.value))
      else TrainBatches(next, step, order, raisedAt, start, n, i + 1)
  }

  /** One position of the batch loop, unfolded. */
  lemma TrainBatchesUnfold(t: TrainState, step: (Weights, nat) -> Weights, order: seq<string>,
                           raisedAt: Option<nat>, start: nat, n: nat, i: nat)
    requires i < n && Enumerates(order, t.model) && KeepsNames(step, order)
    ensures var model := step(t.model, i);
            var o := TrainStep(t.smoother, model, order);
            var next := TrainState(start + i, model, o.state, t.polls + 1);
            TrainBatches(t, step, order, raisedAt, start, n, i)
            == if SeenAt(raisedAt, t.polls) then TrainRun(t.(batch := start + i, polls := t.polls + 1), Interrupted)
               else if o.error.Some? then TrainRun(next, Failed(o.error.value))
               else TrainBatches(next, step, order, raisedAt, start, n, i + 1)
  {
  }

  /** `trainLoop` over `n` batches: the helper exists during the loop and goes on completion. */
  ghost function TrainLoopRun(w: World, step: (Weights, nat) -> Weights, order: seq<string>,
                              raisedAt: Option<nat>, n: nat): (r: Run)
    requires Enumerates(order, w.data.model) && KeepsNames(step, order)
    ensures Enumerates(order, r.world.data.model)
    ensures r.world.data.epochNumb == w.data.epochNumb && r.world.data.epochHelper == w.data.epochHelper
  {
    var t := TrainState(w.data.batchNumbTrain, w.data.model, w.smoother, w.polls);
    var r := TrainBatches(t, step, order, raisedAt, w.data.batchNumbTrain, n, 0);
    var data := w.data.(batchNumbTrain := r.state.batch, model := r.state.model, trainHelper := !r.end.Completed?);
    Run(World(data, r.state.smoother, w.mainWeights, r.state.polls), r.end)
  }

  /** What a test batch changes: the stored batch number and the flag's reads. */
  datatype TestState = TestState(batch: nat, polls: nat)

  datatype TestRun = TestRun(state: TestState, interrupted: bool)

  /** Positions `i..n-1` of `testLoop`'s `for` loop: store the batch number, then read the flag. */
  function TestBatches(t: TestState, raisedAt: Option<nat>, start: nat, n: nat, i: nat): (r: TestRun)
    requires i <= n
    ensures r.state.polls == t.polls + (if r.interrupted then r.state.batch - start - i + 1 else n - i)
    ensures !r.interrupted ==> forall k :: t.polls <= k < r.state.polls ==> !SeenAt(raisedAt, k)
    ensures !r.interrupted ==> r.state.batch == if i < n then start + n - 1 else t.batch
    ensures r.interrupted ==>
              && start + i <= r.state.batch < start + n
              && SeenAt(raisedAt, r.state.polls - 1)
              && (forall k :: t.polls <= k < r.state.polls - 1 ==> !SeenAt(raisedAt, k))
    decreases n - i
  {
    if i == n then TestRun(t, false)
    else if SeenAt(raisedAt, t.polls) then TestRun(TestState(start + i, t.polls + 1), true)
    else TestBatches(TestState(start + i, t.polls + 1), raisedAt, start, n, i + 1)
  }

  /**
   * `testLoop` over `n` batches: like `trainLoop` without the optimizer and the smoothing
   * object, except that the summary divides by the size of the test set, which is empty exactly
   * when the loader has no batch.
   */
  function TestLoopRun(w: World, raisedAt: Option<nat>, n: nat): (r: Run)
    ensures r.world.data.model == w.data.model && r.world.smoother == w.smoother && r.world.mainWeights == w.mainWeights
    ensures r.world.data.epochNumb == w.data.epochNumb && r.world.data.epochHelper == w.data.epochHelper
  {
    var r := TestBatches(TestState(w.data.batchNumbTest, w.polls), raisedAt, w.data.batchNumbTest, n, 0);
    var end := if r.interrupted then Interrupted else if n == 0 then Failed(ZeroDivisionError) else Completed;
    var data := w.data.(batchNumbTest := r.state.batch, testHelper := !end.Completed?);
    Run(w.(data := data, polls := r.state.polls), end)
  }

  /**
   * The test part of `__epoch__`: the plain test, `saveMainWeight`, and, when `getWeights` is
   * not empty, the model is given the smoothed weights and tested again. The parameters are not
   * put back. An interrupted test does not end the epoch early.
   */
  ghost function TestPhaseRun(w: World, raisedAt: Option<nat>, nTest: nat): (r: Run)
    ensures r.world.data.model.Keys == w.data.model.Keys
    ensures r.world.data.epochNumb == w.data.epochNumb && r.world.data.epochHelper == w.data.epochHelper
  {
    var plain := TestLoopRun(w, raisedAt, nTest);
    if plain.end.Failed? then plain
    else
      var w1 := plain.world.(mainWeights := Some(plain.world.data.model));
      var average := Smoothed(w1.smoother);
      if average == map[] then Run(w1, Completed)
      else if average.Keys != w1.data.model.Keys then Run(w1, Failed(Rejected(LoadError)))
      else
        var smoothed := TestLoopRun(w1.(data := w1.data.(model := average)), raisedAt, nTest);
        if smoothed.end.Failed? then smoothed else Run(smoothed.world, Completed)
  }

  /** The train part of `__epoch__`: `trainLoop` when the train flag is on. */
  ghost function TrainPhaseRun(w: World, step: (Weights, nat) -> Weights, order: seq<string>, raisedAt: Option<nat>,
                               trainFlag: bool, nTrain: nat): (r: Run)
    requires Enumerates(order, w.data.model) && KeepsNames(step, order)
    ensures Enumerates(order, r.world.data.model)
    ensures r.world.data.epochNumb == w.data.epochNumb && r.world.data.epochHelper == w.data.epochHelper
  {
    if trainFlag then TrainLoopRun(w, step, order, raisedAt, nTrain) else Run(w, Completed)
  }

  /** The rest of `__epoch__` after the train part `t`: return at the flag, then test if asked. */
  ghost function AfterTrain(t: Run, raisedAt: Option<nat>, testFlag: bool, nTest: nat): (r: Run)
    ensures r.world.data.model.Keys == t.world.data.model.Keys
    ensures r.world.data.epochNumb == t.world.data.epochNumb && r.world.data.epochHelper == t.world.data.epochHelper
  {
    if t.end.Failed? then t
    else
      var w1 := t.world.(polls := t.world.polls + 1);
      if SeenAt(raisedAt, t.world.polls) then Run(w1, Interrupted)
      else if !testFlag then Run(w1, Completed)
      else TestPhaseRun(w1, raisedAt, nTest)
  }

  /** `__epoch__`: train if asked, return at the flag, then test if asked. */
  ghost function EpochRun(w: World, step: (Weights, nat) -> Weights, order: seq<string>, raisedAt: Option<nat>,
                          trainFlag: bool, testFlag: bool, nTrain: nat, nTest: nat): (r: Run)
    requires Enumerates(order, w.data.model) && KeepsNames(step, order)
    ensures Enumerates(order, r.world.data.model)
    ensures r.world.data.epochNumb == w.data.epochNumb && r.world.data.epochHelper == w.data.epochHelper
  {
    AfterTrain(TrainPhaseRun(w, step, order, raisedAt, trainFlag, nTrain), raisedAt, testFlag, nTest)
  }

  /** `resetEpochState`: both batch counters back to zero. */
  function ResetEpoch(d: DataValue): (r: DataValue)
    ensures r.batchNumbTrain == 0 && r.batchNumbTest == 0
    ensures r == d.(batchNumbTrain := r.batchNumbTrain, batchNumbTest := r.batchNumbTest)
  {
    d.(batchNumbTrain := 0, batchNumbTest := 0)
  }

  /**
   * Epochs `e..epochs-1` of `epochLoop`: each epoch is followed by a read of the flag, which
   * returns with the counters as they are, and then by `resetEpochState`. After the last epoch
   * `resetFullEpochState` also zeroes `epochNumb`, and the epoch helper goes.
   */
  ghost function EpochsFrom(w: World, step: (Weights, nat) -> Weights, order: seq<string>, raisedAt: Option<nat>,
                            trainFlag: bool, testFlag: bool, nTrain: nat, nTest: nat, e: nat, epochs: nat): Run
    requires Enumerates(order, w.data.model) && KeepsNames(step, order)
    decreases epochs - e, 1
  {
    if e >= epochs then Run(w.(data := ResetEpoch(w.data).(epochNumb := 0, epochHelper := false)), Completed)
    else
      var r := EpochRun(w, step, order, raisedAt, trainFlag, testFlag, nTrain, nTest);
      AfterEpoch(r, step, order, raisedAt, trainFlag, testFlag, nTrain, nTest, e, epochs)
  }

  /** What follows epoch `e`, which ended as `r`: an exception ends the loop, then the flag is read. */
  ghost function AfterEpoch(r: Run, step: (Weights, nat) -> Weights, order: seq<string>, raisedAt: Option<nat>,
                            trainFlag: bool, testFlag: bool, nTrain: nat, nTest: nat, e: nat, epochs: nat): Run
    requires e < epochs && Enumerates(order, r.world.data.model) && KeepsNames(step, order)
    decreases epochs - e, 0
  {
    if r.end.Failed? then r
    else
      var w1 := r.world.(polls := r.world.polls + 1);
      if SeenAt(raisedAt, r.world.polls) then Run(w1, Interrupted)
      else EpochsFrom(w1.(data := ResetEpoch(w1.data)), step, order, raisedAt, trainFlag, testFlag, nTrain, nTest, e + 1, epochs)
  }

  /**
   * `epochLoop`: a new epoch helper, then `epochs` epochs. `epochNumb` only offsets the epoch
   * labels, so a resumed loop runs every epoch again.
   */
  ghost function EpochLoopRun(w: World, step: (Weights, nat) -> Weights, order: seq<string>, raisedAt: Option<nat>,
                              trainFlag: bool, testFlag: bool, nTrain: nat, nTest: nat, epochs: nat): Run
    requires Enumerates(order, w.data.model) && KeepsNames(step, order)
  {
    EpochsFrom(w.(data := w.data.(epochHelper := true)), step, order, raisedAt, trainFlag, testFlag, nTrain, nTest, 0, epochs)
  }

  /**
   * The test part of `__epoch__` never returns at the flag, never changes the smoothing
   * object, and leaves the model holding the smoothed weights whenever they were handed over:
   * `mainWeights` keeps the trained model but is not copied back. An empty test loader raises
   * in the first summary; otherwise only a smoothed dictionary naming other parameters raises.
   */
  lemma TestPhaseLeavesAverage(w: World, raisedAt: Option<nat>, nTest: nat)
    ensures var r := TestPhaseRun(w, raisedAt, nTest);
            var average := Smoothed(w.smoother);
            && !r.end.Interrupted?
            && r.world.smoother == w.smoother
            && (nTest == 0 ==> r.end == Failed(ZeroDivisionError) && r.world.data.model == w.data.model
                               && r.world.mainWeights == w.mainWeights)
            && (nTest > 0 ==>
                  && r.world.mainWeights == Some(w.data.model)
                  && (r.end.Failed? <==> average != map[] && average.Keys != w.data.model.Keys)
                  && (r.end.Failed? ==> r.end == Failed(Rejected(LoadError)))
                  && r.world.data.model == if average != map[] && average.Keys == w.data.model.Keys then average else w.data.model)
  {
  }

  /** Epochs `e..epochs-1` end with the counters zeroed and no helper, or leave `epochNumb` and the helper as they were. */
  lemma {:induction false} EpochsFromEnd(w: World, step: (Weights, nat) -> Weights, order: seq<string>, raisedAt: Option<nat>,
                                         trainFlag: bool, testFlag: bool, nTrain: nat, nTest: nat, e: nat, epochs: nat)
    requires Enumerates(order, w.data.model) && KeepsNames(step, order)
    ensures var r := EpochsFrom(w, step, order, raisedAt, trainFlag, testFlag, nTrain, nTest, e, epochs);
            && (r.end.Completed? ==> r.world.data.batchNumbTrain == 0 && r.world.data.batchNumbTest == 0
                                     && r.world.data.epochNumb == 0 && !r.world.data.epochHelper)
            && (!r.end.Completed? ==> r.world.data.epochNumb == w.data.epochNumb && r.world.data.epochHelper == w.data.epochHelper)
    decreases epochs - e
  {
    if e < epochs {
      var r := EpochRun(w, step, order, raisedAt, trainFlag, testFlag, nTrain, nTest);
      if !r.end.Failed? && !SeenAt(raisedAt, r.world.polls) {
        var w1 := r.world.(polls := r.world.polls + 1);
        EpochsFromEnd(w1.(data := ResetEpoch(w1.data)), step, order, raisedAt, trainFlag, testFlag, nTrain, nTest, e + 1, epochs);
        NextEpoch(w, step, order, raisedAt, trainFlag, testFlag, nTrain, nTest, e, epochs);
      }
    }
  }

  /** Past the flag read after epoch `e`, the loop goes on with the counters reset. */
  lemma NextEpoch(w: World, step: (Weights, nat) -> Weights, order: seq<string>, raisedAt: Option<nat>,
                  trainFlag: bool, testFlag: bool, nTrain: nat, nTest: nat, e: nat, epochs: nat)
    requires Enumerates(order, w.data.model) && KeepsNames(step, order) && e < epochs
    ensures var r := EpochRun(w, step, order, raisedAt, trainFlag, testFlag, nTrain, nTest);
            var w1 := r.world.(polls := r.world.polls + 1);
            !r.end.Failed? && !SeenAt(raisedAt, r.world.polls) ==>
              EpochsFrom(w, step, order, raisedAt, trainFlag, testFlag, nTrain, nTest, e, epochs) ==
              EpochsFrom(w1.(data := ResetEpoch(w1.data)), step, order, raisedAt, trainFlag, testFlag, nTrain, nTest, e + 1, epochs)
  {
  }

  /**
   * `epochLoop` ends in one of two ways: completed, with both batch counters and `epochNumb`
   * zeroed and the epoch helper gone, or returned early (at the flag or by an exception) with
   * the epoch helper still there and `epochNumb` as it was.
   */
  lemma EpochLoopEnds(w: World, step: (Weights, nat) -> Weights, order: seq<string>, raisedAt: Option<nat>,
                      trainFlag: bool, testFlag: bool, nTrain: nat, nTest: nat, epochs: nat)
    requires Enumerates(order, w.data.model) && KeepsNames(step, order)
    ensures var r := EpochLoopRun(w, step, order, raisedAt, trainFlag, testFlag, nTrain, nTest, epochs);
            && (r.end.Completed? ==> r.world.data.batchNumbTrain == 0 && r.world.data.batchNumbTest == 0
                                     && r.world.data.epochNumb == 0 && !r.world.data.epochHelper)
            && (!r.end.Completed? ==> r.world.data.epochHelper && r.world.data.epochNumb == w.data.epochNumb)
  {
    EpochsFromEnd(w.(data := w.data.(epochHelper := true)), step, order, raisedAt, trainFlag, testFlag, nTrain, nTest, 0, epochs);
  }

  /** The model after the optimizer has stepped at loader positions `0..k-1`. */
  ghost function Stepped(m: Weights, step: (Weights, nat) -> Weights, k: nat): Weights
    decreases k
  {
    if k == 0 then m else step(Stepped(m, step, k - 1), k - 1)
  }

  /** The models handed to the smoothing object at the first `k` positions, in turn. */
  ghost function Trajectory(m: Weights, step: (Weights, nat) -> Weights, k: nat): (ms: seq<Weights>)
    ensures |ms| == k
    decreases k
  {
    if k == 0 then [] else Trajectory(m, step, k - 1) + [Stepped(m, step, k)]
  }

  /** The same parameter order at every position. */
  function Repeat(order: seq<string>, k: nat): (r: seq<seq<string>>)
    ensures |r| == k && forall j :: 0 <= j < k ==> r[j] == order
  {
    seq(k, _ => order)
  }

  /**
   * After `k` positions that all reached the smoothing object: the model is the `k`-th stepped
   * model and the smoothing state and error are those of `TrainAll` over the trajectory.
   */
  ghost predicate Fed(m0: Weights, s0: Smoother, step: (Weights, nat) -> Weights, order: seq<string>, k: nat,
                      t: TrainState, error: Option<Raised>)
  {
    && AllEnumerate(Trajectory(m0, step, k), Repeat(order, k))
    && t.model == Stepped(m0, step, k)
    && TrainAll(s0, Trajectory(m0, step, k), Repeat(order, k)).0 == t.smoother
    && TrainAll(s0, Trajectory(m0, step, k), Repeat(order, k)).1 == error
  }

  /** One more position that reaches the smoothing object extends the trajectory by one model. */
  lemma FedStep(m0: Weights, s0: Smoother, step: (Weights, nat) -> Weights, order: seq<string>, i: nat, t: TrainState,
                batch: nat, polls: nat)
    requires KeepsNames(step, order) && Enumerates(order, t.model) && Fed(m0, s0, step, order, i, t, None)
    ensures var o := TrainStep(t.smoother, step(t.model, i), order);
            Fed(m0, s0, step, order, i + 1, TrainState(batch, step(t.model, i), o.state, polls), o.error)
  {
    var xs, os := Trajectory(m0, step, i), Repeat(order, i);
    var x := step(t.model, i);
    assert Stepped(m0, step, i + 1) == x;
    assert Trajectory(m0, step, i + 1) == xs + [x];
    assert Repeat(order, i + 1) == os + [order];
    TrainAllSnoc(s0, xs, os, x, order);
  }

  /** What `Fed` promises at the end of a train loop that returned `r` from batch number `start`. */
  ghost predicate FedUntil(m0: Weights, s0: Smoother, step: (Weights, nat) -> Weights, order: seq<string>,
                           start: nat, n: nat, r: TrainRun)
  {
    && (r.end.Completed? ==> Fed(m0, s0, step, order, n, r.state, None))
    && (r.end.Interrupted? ==> r.state.batch >= start && Fed(m0, s0, step, order, r.state.batch - start, r.state, None))
    && (r.end.Failed? ==> r.state.batch >= start && Fed(m0, s0, step, order, r.state.batch - start + 1, r.state, Some(r.end.error)))
  }

  /** A position whose smoothing step raises ends the loop there, fed up to that position. */
  lemma FailingPosition(t: TrainState, step: (Weights, nat) -> Weights, order: seq<string>,
                        raisedAt: Option<nat>, start: nat, n: nat, i: nat, m0: Weights, s0: Smoother)
    requires i < n && Enumerates(order, t.model) && KeepsNames(step, order) && !SeenAt(raisedAt, t.polls)
    requires var o := TrainStep(t.smoother, step(t.model, i), order);
             o.error.Some? && Fed(m0, s0, step, order, i + 1, TrainState(start + i, step(t.model, i), o.state, t.polls + 1), o.error)
    ensures FedUntil(m0, s0, step, order, start, n, TrainBatches(t, step, order, raisedAt, start, n, i))
  {
    var o := TrainStep(t.smoother, step(t.model, i), order);
    var next := TrainState(start + i, step(t.model, i), o.state, t.polls + 1);
    var r := TrainBatches(t, step, order, raisedAt, start, n, i);
    assert r == TrainRun(next, Failed(o.error.value));
    FailedAt(m0, s0, step, order, start, n, i, r);
  }

  lemma FailedAt(m0: Weights, s0: Smoother, step: (Weights, nat) -> Weights, order: seq<string>,
                 start: nat, n: nat, i: nat, r: TrainRun)
    requires r.end.Failed? && r.state.batch == start + i
    requires Fed(m0, s0, step, order, i + 1, r.state, Some(r.end.error))
    ensures FedUntil(m0, s0, step, order, start, n, r)
  {
    assert r.state.batch - start + 1 == i + 1;
  }

  /** A position whose smoothing step does not raise hands the rest of the loop the stepped state. */
  lemma ContinuingPosition(t: TrainState, step: (Weights, nat) -> Weights, order: seq<string>,
                           raisedAt: Option<nat>, start: nat, n: nat, i: nat)
    requires i < n && Enumerates(order, t.model) && KeepsNames(step, order) && !SeenAt(raisedAt, t.polls)
    requires TrainStep(t.smoother, step(t.model, i), order).error.None?
    ensures var o := TrainStep(t.smoother, step(t.model, i), order);
            TrainBatches(t, step, order, raisedAt, start, n, i) ==
            TrainBatches(TrainState(start + i, step(t.model, i), o.state, t.polls + 1), step, order, raisedAt, start, n, i + 1)
  {
  }

  /**
   * The positions a train loop gets through feed the smoothing object exactly the stepped
   * models: on completion all `n`, at the flag the ones before the batch it was read at, and on
   * an exception every one up to the failing batch, whose error is `TrainAll`'s.
   */
  lemma {:induction false} BatchesFeedSmoother(t: TrainState, step: (Weights, nat) -> Weights, order: seq<string>,
                                               raisedAt: Option<nat>, start: nat, n: nat, i: nat, m0: Weights, s0: Smoother)
    requires i <= n && Enumerates(order, t.model) && KeepsNames(step, order)
    requires Fed(m0, s0, step, order, i, t, None)
    ensures FedUntil(m0, s0, step, order, start, n, TrainBatches(t, step, order, raisedAt, start, n, i))
    decreases n - i
  {
    if i < n && !SeenAt(raisedAt, t.polls) {
      var model := step(t.model, i);
      var o := TrainStep(t.smoother, model, order);
      var next := TrainState(start + i, model, o.state, t.polls + 1);
      FedStep(m0, s0, step, order, i, t, start + i, t.polls + 1);
      if o.error.None? {
        BatchesFeedSmoother(next, step, order, raisedAt, start, n, i + 1, m0, s0);
        ContinuingPosition(t, step, order, raisedAt, start, n, i);
      } else {
        FailingPosition(t, step, order, raisedAt, start, n, i, m0, s0);
      }
    } else {
      StoppedPosition(t, step, order, raisedAt, start, n, i, m0, s0);
    }
  }

  /** At the end of the loader, or at a set flag, the loop stops fed up to that position. */
  lemma StoppedPosition(t: TrainState, step: (Weights, nat) -> Weights, order: seq<string>,
                        raisedAt: Option<nat>, start: nat, n: nat, i: nat, m0: Weights, s0: Smoother)
    requires i <= n && Enumerates(order, t.model) && KeepsNames(step, order)
    requires i == n || SeenAt(raisedAt, t.polls)
    requires Fed(m0, s0, step, order, i, t, None)
    ensures FedUntil(m0, s0, step, order, start, n, TrainBatches(t, step, order, raisedAt, start, n, i))
  {
    var r := TrainBatches(t, step, order, raisedAt, start, n, i);
    if i == n {
      assert r == TrainRun(t, Completed);
    } else {
      assert r == TrainRun(t.(batch := start + i, polls := t.polls + 1), Interrupted);
      InterruptedAt(m0, s0, step, order, start, n, i, t, r);
    }
  }

  lemma InterruptedAt(m0: Weights, s0: Smoother, step: (Weights, nat) -> Weights, order: seq<string>,
                      start: nat, n: nat, i: nat, t: TrainState, r: TrainRun)
    requires r.end.Interrupted? && r.state == t.(batch := start + i, polls := t.polls + 1)
    requires Fed(m0, s0, step, order, i, t, None)
    ensures FedUntil(m0, s0, step, order, start, n, r)
  {
    assert r.state.batch - start == i;
  }

  /** Two dictionaries that the same order enumerates name the same parameters. */
  lemma SameNames(order: seq<string>, w: Weights, v: Weights)
    requires Enumerates(order, w) && Enumerates(order, v)
    ensures w.Keys == v.Keys
  {
    assert forall k :: k in w.Keys <==> k in v.Keys;
  }

  /** Every model of the trajectory names the parameters of the first one. */
  lemma TrajectoryNames(m: Weights, step: (Weights, nat) -> Weights, order: seq<string>, k: nat)
    requires Enumerates(order, m) && AllEnumerate(Trajectory(m, step, k), Repeat(order, k))
    ensures forall j :: 0 <= j < k ==> Trajectory(m, step, k)[j].Keys == m.Keys
  {
    var xs := Trajectory(m, step, k);
    forall j | 0 <= j < k
      ensures xs[j].Keys == m.Keys
    {
      SameNames(order, xs[j], m);
    }
  }

  /**
   * A train loop started right after `setDictionary` with the model's own parameters never
   * raises, and what it hands the smoothing object is the trajectory of stepped models.
   */
  lemma StartedLoopFeeds(t: TrainState, step: (Weights, nat) -> Weights, order: seq<string>, raisedAt: Option<nat>,
                          start: nat, n: nat)
    requires Enumerates(order, t.model) && KeepsNames(step, order) && t.smoother == Started(t.model)
    ensures var r := TrainBatches(t, step, order, raisedAt, start, n, 0);
            && !r.end.Failed?
            && (r.end.Completed? ==> Fed(t.model, t.smoother, step, order, n, r.state, None))
  {
    assert Trajectory(t.model, step, 0) == [] && Repeat(order, 0) == [];
    BatchesFeedSmoother(t, step, order, raisedAt, start, n, 0, t.model, t.smoother);
    StartedNeverRaises(t.model, t.smoother, step, order, start, n, TrainBatches(t, step, order, raisedAt, start, n, 0));
  }

  /** Training steps after `setDictionary` with the model's own parameters raise nothing. */
  lemma StartedNeverRaises(m: Weights, s0: Smoother, step: (Weights, nat) -> Weights, order: seq<string>,
                           start: nat, n: nat, r: TrainRun)
    requires Enumerates(order, m) && s0 == Started(m)
    ensures FedUntil(m, s0, step, order, start, n, r) ==> !r.end.Failed?
  {
    if FedUntil(m, s0, step, order, start, n, r) && r.end.Failed? {
      var k := r.state.batch - start + 1;
      assert Fed(m, s0, step, order, k, r.state, Some(r.end.error));
      StartedFedNothing(m, step, order, k, r.state, Some(r.end.error));
    }
  }

  /** Whatever the stepped models fed after `setDictionary` with the model's own parameters, no error. */
  lemma StartedFedNothing(m: Weights, step: (Weights, nat) -> Weights, order: seq<string>, k: nat,
                          t: TrainState, error: Option<Raised>)
    requires Enumerates(order, m) && Fed(m, Started(m), step, order, k, t, error)
    ensures error.None?
  {
    TrajectoryNames(m, step, order, k);
    StartedRaisesNothing(m, Trajectory(m, step, k), Repeat(order, k));
  }

  /**
   * Paired counting through the loop: after a completed train loop of `n` batches started
   * right after `setDictionary`, `getWeights` is `{}` while no more than `SwitchOn / 2` batches
   * ran, and otherwise, parameter by parameter, the mean of the models from batch
   * `SwitchOn / 2` on; the model is the last stepped one.
   */
  lemma TrainLoopAveragesLateModels(w: World, step: (Weights, nat) -> Weights, order: seq<string>,
                                    raisedAt: Option<nat>, n: nat, k: string)
    requires Enumerates(order, w.data.model) && KeepsNames(step, order) && w.smoother == Started(w.data.model)
    requires k in w.data.model
    ensures var r := TrainLoopRun(w, step, order, raisedAt, n);
            var xs := Trajectory(w.data.model, step, n);
            && !r.end.Failed?
            && (r.end.Completed? ==> r.world.data.model == Stepped(w.data.model, step, n))
            && (r.end.Completed? && n <= SwitchOn / 2 ==> Smoothed(r.world.smoother) == map[])
            && (r.end.Completed? && n > SwitchOn / 2 ==>
                  && (forall i :: 0 <= i < |Late(xs)| ==> k in Late(xs)[i])
                  && k in Smoothed(r.world.smoother)
                  && Smoothed(r.world.smoother)[k] == Sum(Column(Late(xs), k)) / (|Late(xs)| as real))
  {
    var m := w.data.model;
    var xs := Trajectory(m, step, n);
    StartedLoopFeeds(TrainState(w.data.batchNumbTrain, m, w.smoother, w.polls), step, order, raisedAt, w.data.batchNumbTrain, n);
    var r := TrainLoopRun(w, step, order, raisedAt, n);
    if r.end.Completed? {
      TrajectoryNames(m, step, order, n);
      PairedCounting(m, xs, Repeat(order, n));
      if n > SwitchOn / 2 {
        SmoothedIsLateMean(m, xs, Repeat(order, n), k);
      }
    }
  }

  class LegacyData {
    var batchNumbTrain: nat
    var batchNumbTest: nat
    var epochNumb: nat
    /** Whether `trainHelper`, `testHelper` and `epochHelper` hold a container (are not `None`). */
    var trainHelper: bool
    var testHelper: bool
    var epochHelper: bool
    /** The model's parameters. */
    var model: Weights
    /** `len(trainloader)` and `len(testloader)`. */
    const trainBatches: nat
    const testBatches: nat

    function Value(): DataValue
      reads this
    {
      DataValue(batchNumbTrain, batchNumbTest, epochNumb, trainHelper, testHelper, epochHelper, model)
    }

    ghost function WorldOf(sm: Smoothing, flag: SaveAndExitFlag): World
      reads this, sm, flag
    {
      World(Value(), sm.Value(), sm.mainWeights, flag.polls)
    }

    constructor (trainBatches: nat, testBatches: nat, model: Weights)
      ensures Value() == DataValue(0, 0, 0, false, false, false, model)
      ensures this.trainBatches == trainBatches && this.testBatches == testBatches
    {
      this.trainBatches := trainBatches;
      this.testBatches := testBatches;
      batchNumbTrain := 0;
      batchNumbTest := 0;
      epochNumb := 0;
      trainHelper := false;
      testHelper := false;
      epochHelper := false;
      this.model := model;
    }

    /** The part of the world a train batch changes. */
    ghost function TrainStateOf(sm: Smoothing, flag: SaveAndExitFlag): TrainState
      reads this, sm, flag
    {
      TrainState(batchNumbTrain, model, sm.Value(), flag.polls)
    }

    /** One position of `trainLoop`'s `for` loop; `stop` says how the loop ends there, if it does. */
    method TrainBatch(sm: Smoothing, flag: SaveAndExitFlag, step: (Weights, nat) -> Weights, order: seq<string>,
                      start: nat, i: nat) returns (stop: Option<LoopEnd>)
      requires i < trainBatches && Enumerates(order, model) && KeepsNames(step, order)
      modifies this`batchNumbTrain, this`model, sm`sumWeights, sm`previousWeights, sm`countWeights, sm`counter, flag
      ensures Enumerates(order, model) && (stop.Some? ==> !stop.value.Completed?)
      ensures var rest := TrainBatches(old(TrainStateOf(sm, flag)), step, order, flag.raisedAt, start, trainBatches, i);
              if stop.Some? then rest == TrainRun(TrainStateOf(sm, flag), stop.value)
              else rest == TrainBatches(TrainStateOf(sm, flag), step, order, flag.raisedAt, start, trainBatches, i + 1)
    {
      ghost var t := TrainStateOf(sm, flag);
      TrainBatchesUnfold(t, step, order, flag.raisedAt, start, trainBatches, i);
      batchNumbTrain := start + i;
      var raised := flag.Poll();
      if raised {
        return Some(Interrupted);
      }
      model := step(model, i);
      var o := sm.Train(model, order);
      assert TrainStateOf(sm, flag) == TrainState(start + i, model, o.state, t.polls + 1);
      if o.error.Some? {
        return Some(Failed(o.error.value));
      }
      return None;
    }

    /** `trainLoop`. */
    method TrainLoop(sm: Smoothing, flag: SaveAndExitFlag, step: (Weights, nat) -> Weights, order: seq<string>)
      returns (end: LoopEnd)
      requires Enumerates(order, model) && KeepsNames(step, order)
      modifies this`batchNumbTrain, this`trainHelper, this`model
      modifies sm`sumWeights, sm`previousWeights, sm`countWeights, sm`counter, flag
      ensures var r := TrainBatches(old(TrainStateOf(sm, flag)), step, order, flag.raisedAt, old(batchNumbTrain), trainBatches, 0);
              && TrainStateOf(sm, flag) == r.state && end == r.end && trainHelper == !r.end.Completed?
    {
      ghost var t0 := TrainStateOf(sm, flag);
      var start := batchNumbTrain;
      trainHelper := true;
      var i := 0;
      while i < trainBatches
        invariant i <= trainBatches && Enumerates(order, model) && trainHelper
        invariant TrainBatches(TrainStateOf(sm, flag), step, order, flag.raisedAt, start, trainBatches, i) ==
                  TrainBatches(t0, step, order, flag.raisedAt, start, trainBatches, 0)
        modifies this`batchNumbTrain, this`model, sm`sumWeights, sm`previousWeights, sm`countWeights, sm`counter, flag
      {
        var stop := TrainBatch(sm, flag, step, order, start, i);
        if stop.Some? {
          return stop.value;
        }
        i := i + 1;
      }
      trainHelper := false;
      return Completed;
    }

    /** `testLoop`. */
    method TestLoop(flag: SaveAndExitFlag) returns (end: LoopEnd)
      modifies this`batchNumbTest, this`testHelper, flag
      ensures var r := TestBatches(TestState(old(batchNumbTest), old(flag.polls)), flag.raisedAt, old(batchNumbTest), testBatches, 0);
              && batchNumbTest == r.state.batch && flag.polls == r.state.polls
              && end == (if r.interrupted then Interrupted else if testBatches == 0 then Failed(ZeroDivisionError) else Completed)
              && testHelper == !end.Completed?
    {
      ghost var t0 := TestState(batchNumbTest, flag.polls);
      var start := batchNumbTest;
      testHelper := true;
      var i := 0;
      while i < testBatches
        invariant i <= testBatches && testHelper
        invariant TestBatches(TestState(batchNumbTest, flag.polls), flag.raisedAt, start, testBatches, i) ==
                  TestBatches(t0, flag.raisedAt, start, testBatches, 0)
        modifies this`batchNumbTest, flag
      {
        batchNumbTest := start + i;
        var raised := flag.Poll();
        if raised {
          return Interrupted;
        }
        i := i + 1;
      }
      if testBatches == 0 {
        return Failed(ZeroDivisionError);
      }
      testHelper := false;
      return Completed;
    }

    /** The test part of `__epoch__`. */
    method TestPhase(sm: Smoothing, flag: SaveAndExitFlag) returns (end: LoopEnd)
      modifies this`batchNumbTest, this`testHelper, this`model, sm`mainWeights, flag
      ensures var r := TestPhaseRun(old(WorldOf(sm, flag)), flag.raisedAt, testBatches);
              WorldOf(sm, flag) == r.world && end == r.end
    {
      ghost var plain := TestLoopRun(WorldOf(sm, flag), flag.raisedAt, testBatches);
      end := TestLoop(flag);
      assert WorldOf(sm, flag) == plain.world && end == plain.end;
      if end.Failed? {
        return;
      }
      sm.SaveMainWeight(model);
      ghost var w1 := plain.world.(mainWeights := Some(plain.world.data.model));
      assert WorldOf(sm, flag) == w1;
      var average := sm.GetWeights();
      if average == map[] {
        return Completed;
      }
      if average.Keys != model.Keys {
        return Failed(Rejected(LoadError));
      }
      model := average;
      ghost var smoothed := TestLoopRun(w1.(data := w1.data.(model := average)), flag.raisedAt, testBatches);
      end := TestLoop(flag);
      assert WorldOf(sm, flag) == smoothed.world && end == smoothed.end;
      if !end.Failed? {
        end := Completed;
      }
    }

    /** The train part of `__epoch__`. */
    method TrainPhase(sm: Smoothing, flag: SaveAndExitFlag, step: (Weights, nat) -> Weights, order: seq<string>,
                      trainFlag: bool) returns (end: LoopEnd)
      requires Enumerates(order, model) && KeepsNames(step, order)
      modifies this`batchNumbTrain, this`trainHelper, this`model
      modifies sm`sumWeights, sm`previousWeights, sm`countWeights, sm`counter, flag
      ensures var r := TrainPhaseRun(old(WorldOf(sm, flag)), step, order, flag.raisedAt, trainFlag, trainBatches);
              WorldOf(sm, flag) == r.world && end == r.end
    {
      end := Completed;
      if trainFlag {
        end := TrainLoop(sm, flag, step, order);
      }
    }

    /** The part of `__epoch__` after the train part, which ended with `trained`. */
    method FinishEpoch(sm: Smoothing, flag: SaveAndExitFlag, trained: LoopEnd, testFlag: bool) returns (end: LoopEnd)
      modifies this`batchNumbTest, this`testHelper, this`model, sm`mainWeights, flag
      ensures var r := AfterTrain(Run(old(WorldOf(sm, flag)), trained), flag.raisedAt, testFlag, testBatches);
              WorldOf(sm, flag) == r.world && end == r.end
    {
      end := trained;
      if end.Failed? {
        return;
      }
      var raised := flag.Poll();
      if raised {
        return Interrupted;
      }
      if !testFlag {
        return Completed;
      }
      end := TestPhase(sm, flag);
    }

    /** `__epoch__`. */
    method Epoch(sm: Smoothing, flag: SaveAndExitFlag, step: (Weights, nat) -> Weights, order: seq<string>,
                 trainFlag: bool, testFlag: bool) returns (end: LoopEnd)
      requires Enumerates(order, model) && KeepsNames(step, order)
      modifies this`batchNumbTrain, this`trainHelper, this`batchNumbTest, this`testHelper, this`model
      modifies sm`sumWeights, sm`previousWeights, sm`countWeights, sm`counter, sm`mainWeights, flag
      ensures var r := EpochRun(old(WorldOf(sm, flag)), step, order, flag.raisedAt, trainFlag, testFlag, trainBatches, testBatches);
              WorldOf(sm, flag) == r.world && end == r.end
    {
      ghost var w0 := WorldOf(sm, flag);
      var trained := TrainPhase(sm, flag, step, order, trainFlag);
      ghost var t := Run(WorldOf(sm, flag), trained);
      assert t == TrainPhaseRun(w0, step, order, flag.raisedAt, trainFlag, trainBatches);
      end := FinishEpoch(sm, flag, trained, testFlag);
    }

    /** `resetEpochState`. */
    method ResetEpochState()
      modifies this`batchNumbTrain, this`batchNumbTest
      ensures Value() == ResetEpoch(old(Value()))
    {
      batchNumbTrain := 0;
      batchNumbTest := 0;
    }

    /** `resetFullEpochState`: the epoch counters and `epochNumb`. */
    method ResetFullEpochState()
      modifies this`batchNumbTrain, this`batchNumbTest, this`epochNumb
      ensures Value() == ResetEpoch(old(Value())).(epochNumb := 0)
    {
      ResetEpochState();
      epochNumb := 0;
    }

    /** The flag read and `resetEpochState` after epoch `e`, which ended with `ended`. */
    method EndEpoch(sm: Smoothing, flag: SaveAndExitFlag, step: (Weights, nat) -> Weights, order: seq<string>,
                    trainFlag: bool, testFlag: bool, ended: LoopEnd, e: nat, epochs: nat) returns (stop: Option<LoopEnd>)
      requires e < epochs && Enumerates(order, model) && KeepsNames(step, order)
      modifies this`batchNumbTrain, this`batchNumbTest, flag
      ensures Enumerates(order, model)
      ensures var rest := AfterEpoch(Run(old(WorldOf(sm, flag)), ended), step, order, flag.raisedAt, trainFlag, testFlag,
                                     trainBatches, testBatches, e, epochs);
              if stop.Some? then WorldOf(sm, flag) == rest.world && stop.value == rest.end
              else rest == EpochsFrom(WorldOf(sm, flag), step, order, flag.raisedAt, trainFlag, testFlag,
                                      trainBatches, testBatches, e + 1, epochs)
    {
      if ended.Failed? {
        return Some(ended);
      }
      var raised := flag.Poll();
      if raised {
        return Some(Interrupted);
      }
      ResetEpochState();
      return None;
    }

    /** `epochLoop`. */
    method EpochLoop(sm: Smoothing, flag: SaveAndExitFlag, step: (Weights, nat) -> Weights, order: seq<string>,
                     trainFlag: bool, testFlag: bool, epochs: nat) returns (end: LoopEnd)
      requires Enumerates(order, model) && KeepsNames(step, order)
      modifies this, sm`sumWeights, sm`previousWeights, sm`countWeights, sm`counter, sm`mainWeights, flag
      ensures var r := EpochLoopRun(old(WorldOf(sm, flag)), step, order, flag.raisedAt, trainFlag, testFlag,
                                    trainBatches, testBatches, epochs);
              WorldOf(sm, flag) == r.world && end == r.end
    {
      epochHelper := true;
      ghost var w0 := WorldOf(sm, flag);
      assert w0 == old(WorldOf(sm, flag)).(data := old(WorldOf(sm, flag)).data.(epochHelper := true));
      var e := 0;
      while e < epochs
        invariant e <= epochs && Enumerates(order, model)
        invariant EpochsFrom(WorldOf(sm, flag), step, order, flag.raisedAt, trainFlag, testFlag, trainBatches, testBatches, e, epochs) ==
                  EpochsFrom(w0, step, order, flag.raisedAt, trainFlag, testFlag, trainBatches, testBatches, 0, epochs)
        modifies this`batchNumbTrain, this`trainHelper, this`batchNumbTest, this`testHelper, this`model
        modifies sm`sumWeights, sm`previousWeights, sm`countWeights, sm`counter, sm`mainWeights, flag
      {
        ghost var before := WorldOf(sm, flag);
        var ended := Epoch(sm, flag, step, order, trainFlag, testFlag);
        assert Run(WorldOf(sm, flag), ended) ==
               EpochRun(before, step, order, flag.raisedAt, trainFlag, testFlag, trainBatches, testBatches);
        assert AfterEpoch(Run(WorldOf(sm, flag), ended), step, order, flag.raisedAt, trainFlag, testFlag,
                          trainBatches, testBatches, e, epochs)
               == EpochsFrom(before, step, order, flag.raisedAt, trainFlag, testFlag, trainBatches, testBatches, e, epochs);
        var stop := EndEpoch(sm, flag, step, order, trainFlag, testFlag, ended, e, epochs);
        if stop.Some? {
          return stop.value;
        }
        e := e + 1;
      }
      ghost var last := WorldOf(sm, flag);
      ResetFullEpochState();
      epochHelper := false;
      assert WorldOf(sm, flag) == last.(data := ResetEpoch(last.data).(epochNumb := 0, epochHelper := false));
      return Completed;
    }

    /**
     * `__setstate__`: a key-ingredient save brings the counters back as zero and without
     * helpers; a full save restores them as they were.
     */
    method Restore(onlyKeyIngredients: bool)
      modifies this`batchNumbTrain, this`batchNumbTest, this`epochNumb, this`trainHelper, this`testHelper, this`epochHelper
      ensures onlyKeyIngredients ==> Value() == DataValue(0, 0, 0, false, false, false, old(model))
      ensures !onlyKeyIngredients ==> Value() == old(Value())
    {
      if onlyKeyIngredients {
        batchNumbTrain := 0;
        batchNumbTest := 0;
        epochNumb := 0;
        trainHelper := false;
        testHelper := false;
        epochHelper := false;
      }
    }
  }
}
