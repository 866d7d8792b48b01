# Weight-smoothing training framework: a verified model

This project models the logic of a small PyTorch training framework whose point is *weight
smoothing*: while a network trains, a strategy object keeps an average of its weights
(an arithmetic running mean, an exponentially weighted mean, a decayed weighted mean over a
ring of snapshots, or a plain sum over the late batches), decides when to start averaging,
and the epoch loop evaluates the model both with its own weights and with the smoothed ones.
Runs can be interrupted by a save-and-exit signal, and the train, test and epoch loops keep
bookkeeping (`LoopsState`) meant for resuming them. A `LoopsState` pickled on its own does
resume a stopped loop where it stopped; the main framework's own run, however, tears the epoch
container that holds it down before the run is saved, so the next run starts afresh
(`LoopResume.RestartAfterInterrupt`).

The model covers three generations of the code:

- the main framework (`smoothing/framework/smoothingFramework.py` and
  `smoothing/framework/defaultClasses.py`): the ring buffer `CircularList`, the resumable loop
  record `LoopsState`, the running means, the train/test/epoch loop skeleton, the sampler that
  resumes an epoch, the smoothing base class and the strategy family with its start and stop
  gates and its configuration checks;
- the older framework (`smoothing/smoothingFramework.py`): a counter-gated sum smoother,
  its key-ingredient reset on restore, and the batch counters of its loops;
- the oldest variant (`smoothing/convolutional.py`): the same sum smoother without a switch,
  and the `plain`/`smoothing` weight-swap state machine of its model;

plus the step learning-rate schedule of the wide-ResNet experiment, and the `Timer` statistics
and the `onOff` parser that all three framework files repeat. The table cites the copies in `smoothing/framework/smoothingFramework.py`. The `onOff` copies in
`smoothing/smoothingFramework.py` (lines 186-192) and `smoothing/convolutional.py` (lines
162-168) are the same function. The older `Timer` copies (lines 314-370 and 293-330 of those
files) share `start`, `end`, `getDiff`, `addToStatistics`, `clearTime`, `clearStatistics` and
`getAverage`, which behave the same (without the CUDA synchronisation and the warnings). Neither
defines `getTimeSum` or `getCount`, so `Timing.Timer.GetTimeSum` and `Timing.Timer.GetCount`
model only the main copy. `Timing.Timer.Restore` models the key-ingredient `__setstate__` of the
main copy and of `smoothing/smoothingFramework.py` (lines 355-370); the `Timer` of
`smoothing/convolutional.py` is a plain class whose pickle keeps every field.

Weights are maps from parameter names to reals (one real stands for a whole tensor; all the
arithmetic is elementwise), losses are reals, and Python's `None` is `Option.None`. An
exception the source raises is an `Err` of a `Result`, or the `Some` of an `Option<Raised>`.
Objects whose fields the source updates are classes whose methods are proved against
functions on values; those functions carry the lemmas. The save-and-exit signal, the data,
the model's training step and the random draws of the sampler are inputs.

## Model

| member | source | states |
|---|---|---|
| Circular.Overwrite | smoothing/framework/smoothingFramework.py:294-297 | `del` at the write index (when it lies inside the list) followed by `insert` replaces that slot in place; while filling, the item is appended |
| Circular.PushKeepsRing | smoothing/framework/smoothingFramework.py:294-298 | a push preserves the ring invariant: while filling the write index equals the length, the index stays below the capacity, the length is min(n, capacity), and reading from the write index on gives the last pushes oldest first |
| Circular.CircularList.constructor | smoothing/framework/smoothingFramework.py:289-292 | a new buffer is empty, its write index is 0 and its capacity is the one given |
| Circular.CircularList.ItemsAreNewestFirst | smoothing/framework/smoothingFramework.py:269-279 | the iteration order (indices `arrayIndex-1` down to 0, then `len-1` down to `arrayIndex`) is exactly the last min(n, capacity) pushed items, newest first |
| Circular.CircularList.ItemAt | smoothing/framework/smoothingFramework.py:269-279 | step `k` of `__iter__` reads the slot `VisitedSlot(arrayIndex, len, k)`: first `arrayIndex-1` down to 0, then `len-1` down to `arrayIndex` |
| Circular.CircularList.PushBack | smoothing/framework/smoothingFramework.py:294-298 | keeps the ring invariant; appends while not full, otherwise overwrites the slot at the old write index; the index advances modulo the capacity |
| Circular.CircularList.Reset | smoothing/framework/smoothingFramework.py:333-336 | empties the buffer and zeroes the write index, keeping the capacity |
| Circular.CircularList.Len | smoothing/framework/smoothingFramework.py:341-342 | the length is min(number of pushes, capacity) |
| Circular.CircularList.Iterate | smoothing/framework/smoothingFramework.py:269-287 | the iterator's index list visits the last min(n, capacity) pushed items newest first |
| Circular.OverwriteShifts | smoothing/framework/smoothingFramework.py:294-298 | overwriting the oldest slot of a full ring drops the oldest item and appends the new one in chronological order |
| Circular.GetAverage | smoothing/framework/smoothingFramework.py:300-327 | `getAverage(startAt)` is the mean of the iteration order after the `startAt` newest items; 0 when empty or `len <= startAt`; a negative `startAt` on an empty buffer raises |
| Circular.SumOf | smoothing/framework/smoothingFramework.py:310 | Python's `sum` over the slots is the sum of the list |
| Circular.AverageOver | smoothing/framework/smoothingFramework.py:308-327 | the body of `getAverage` on the slots gives the average of the iteration order, since both hold the same items |
| Circular.SkippingAverage | smoothing/framework/smoothingFramework.py:313-327 | the two passes (copy the item at position `startAt`, add those after it) divide the sum of the items from `startAt` on by `len - startAt` |
| Circular.ArraySumIsItemSum | smoothing/framework/smoothingFramework.py:310 | the sum over the raw slots equals the sum over the iteration order |
| Circular.AverageTail | smoothing/framework/smoothingFramework.py:316-327 | the first item copied plus the rest added is the tail sum the average divides |
| Circular.CapacityThreeScenario | smoothing/framework/test/test_smoothingFramework.py:69-93 | capacity 3 after pushing 1..5 holds 5, 4, 3 newest first; averages from 0, 1 and 2 are 4.0, 3.5 and 3.0; one item averaged from 1 is 0; the empty average is 0 |
| Circular.OverwriteScenario | smoothing/framework/test/test_smoothingFramework.py:49-67 | capacity 2 after pushing 1, 2, 3, 4 holds the slots [3, 4] |
| Circular.IterationScenario | smoothing/framework/test/test_smoothingFramework.py:95-122 | capacity 3 after pushing 1..5 iterates 5, 4, 3 and averages 3.5 from position 1 |
| Resume.Fresh | smoothing/framework/smoothingFramework.py:909-911 | a new `LoopsState` has an empty history and no working queue, which is well formed |
| Resume.Reload | smoothing/framework/smoothingFramework.py:913-920 | pickling and unpickling keeps the history and drops the working queue |
| Resume.WithWorkingCopy | smoothing/framework/smoothingFramework.py:940-942 | `tryCreateNew` copies the history into the working queue only when there is none; it never touches the history |
| Resume.CanRunOn | smoothing/framework/smoothingFramework.py:944-961 | raises "State not started" exactly when there is no working queue; pops a finished head record and answers skip; answers the index of an unfinished head and leaves the queue; answers 0 on an empty queue |
| Resume.DecideOn | smoothing/framework/smoothingFramework.py:963-965 | `decide` never raises, keeps the history and always leaves a working queue |
| Resume.ImprintOn | smoothing/framework/smoothingFramework.py:922-934 | raises `TypeError` exactly without a working queue; appends `[numb, isEnd]` on an empty queue; with one unfinished queued record writes field 0 of the first history record (finally `True`) without touching the ended flags; otherwise changes nothing |
| Resume.Clear | smoothing/framework/smoothingFramework.py:936-938 | `clear` gives the state of a new object |
| Resume.LoopsState.constructor | smoothing/framework/smoothingFramework.py:909-911 | the new object holds the fresh state |
| Resume.LoopsState.GetState | smoothing/framework/smoothingFramework.py:913-916 | the pickled state is the history alone |
| Resume.LoopsState.SetState | smoothing/framework/smoothingFramework.py:918-920 | unpickling restores the history and drops the working queue |
| Resume.LoopsState.Imprint | smoothing/framework/smoothingFramework.py:922-934 | the object moves to the state `ImprintOn` gives, and stays as it was when that raises |
| Resume.LoopsState.Clear | smoothing/framework/smoothingFramework.py:936-938 | the object returns to the fresh state |
| Resume.LoopsState.TryCreateNew | smoothing/framework/smoothingFramework.py:940-942 | the object moves to `WithWorkingCopy` of its state |
| Resume.LoopsState.CanRun | smoothing/framework/smoothingFramework.py:944-961 | answers and new state as `CanRunOn`; nothing changes when it raises |
| Resume.LoopsState.Decide | smoothing/framework/smoothingFramework.py:963-965 | answer and new state as `DecideOn` |
| Resume.NoResumeWithinOneProcess | smoothing/framework/smoothingFramework.py:902-907 | within one process a state with an exhausted working queue (or a fresh one) answers 0 to every `decide`, whatever is imprinted in between |
| Resume.FreshAndClearedStartAtZero | smoothing/framework/smoothingFramework.py:936-942 | a fresh and a cleared `LoopsState` answer 0 to every `decide` of the process |
| Resume.DecideN | smoothing/framework/smoothingFramework.py:963-965 | `n` consecutive `decide` calls give `n` answers and leave a well-formed state |
| Resume.LazyCopy | smoothing/framework/smoothingFramework.py:940-942 | copying the history lazily on the first `decide` answers as copying it at once |
| Resume.ReplayQueue | smoothing/framework/smoothingFramework.py:944-958 | `k` finished records at the head of the queue are skipped one per `decide` and popped |
| Resume.ReplayThenStart | smoothing/framework/smoothingFramework.py:944-965 | after unpickling, the finished records are skipped and the next `decide` resumes the first unfinished record, or starts at 0 |
| Resume.ResumedLoopIsResumedAgain | smoothing/framework/smoothingFramework.py:928-931 | because `imprint` writes into the first record, a resumed last loop that finishes stays unfinished; once the state is pickled and reloaded it is resumed again, from batch 1 when it is the only record |
| Resume.ResumeAfterReplay | smoothing/framework/smoothingFramework.py:944-965 | replaying the finished records and resuming the last leaves exactly that one queued |
| Resume.LazyCopyState | smoothing/framework/smoothingFramework.py:940-942 | after one `decide` the lazily and the eagerly copied states coincide |
| Resume.DecideNStep | smoothing/framework/smoothingFramework.py:963-965 | one more `decide` continues from the state `n` calls left |
| Resume.UnitTestImprints | smoothing/framework/test/test_smoothingFramework.py:175-182 | imprinting (64, ended) and (32, unfinished) after the first `decide` appends both records |
| Resume.UnitTestResume | smoothing/framework/test/test_smoothingFramework.py:184-190 | after the pickle round trip the answers are skip, then 32 |
| Resume.UnitTestAllFinished | smoothing/framework/test/test_smoothingFramework.py:192-210 | with both records finished the answers are skip, skip, then 0 |
| RunningMean.UpdatedScales | smoothing/framework/smoothingFramework.py:234-238 | one update of an entry: the new mean times `N + 1` is the old mean times `N` plus the lifted sample |
| RunningMean.Zeros | smoothing/framework/smoothingFramework.py:214-218 | `zeros_like` keeps every name and sets every entry to 0 |
| RunningMean.Step | smoothing/framework/smoothingFramework.py:249-259 | a successful `addWeights` keeps the set of names |
| RunningMean.RunningGeneralMeanWeights.constructor | smoothing/framework/smoothingFramework.py:205-232 | the averages start as zeros with `N = 0` under `setToZeros`, else as the initial weights with `N = 1` |
| RunningMean.Create | smoothing/framework/smoothingFramework.py:225-232 | a power of 0 or less raises "Power cannot be negative", any other builds the object above |
| RunningMean.RunningGeneralMeanWeights.AddWeights | smoothing/framework/smoothingFramework.py:249-259 | the averages and the error are those of visiting the names in order, updating each known entry and stopping at the first unknown one (`AddFrom`); `N` is bumped only when no error was raised |
| RunningMean.AddFrom | smoothing/framework/smoothingFramework.py:249-259 | the visit keeps the set of names of the averages, and the only error it can raise is "Unknown weight name" |
| RunningMean.AddWeightsOutcome | smoothing/framework/smoothingFramework.py:249-259 | the visit succeeds exactly when every name of the sample is known, and then every entry is one running-mean step further; otherwise exactly the entries named before the first unknown name are updated |
| RunningMean.RunningGeneralMeanWeights.GetWeights | smoothing/framework/smoothingFramework.py:240-247 | the averages themselves for power 1, their roots for a higher power, under the same names |
| RunningMean.AddAll | smoothing/framework/smoothingFramework.py:249-259 | a run of successful `addWeights` calls keeps the set of names |
| RunningMean.LiftedColumn | smoothing/framework/smoothingFramework.py:234-238 | one lifted value of entry `k` per sample |
| RunningMean.MeanOfSamples | smoothing/framework/smoothingFramework.py:192-265 | the running mean is a true mean: entry times final count equals initial entry times initial count plus the sum of all lifted samples |
| RunningMean.MeanClosedForm | smoothing/framework/smoothingFramework.py:192-265 | the same as a quotient once the count is positive |
| RunningMean.ZeroStartIsArithmeticMean | smoothing/framework/smoothingFramework.py:214-218 | from zeros with power 1 the estimate is the arithmetic mean of the samples |
| RunningMean.InitialWeightsCountOnce | smoothing/framework/smoothingFramework.py:219-223 | without `setToZeros` the initial weights count as one sample |
| RunningMean.UnitTestInitialWeights | smoothing/framework/test/test_smoothingFramework.py:231-247 | the initial weights (2, 5) plus (2, 5) and (5, 8) average to (3, 6) |
| RunningMean.UnitTestZeroStart | smoothing/framework/test/test_smoothingFramework.py:248-281 | from zeros, (2, 5) and (6, 7) average to (4, 6), and with power 2 to the mean squares (20, 37) |
| WeightMaps.UpdateEntries | smoothing/framework/defaultClasses.py:402-406 | the per-entry loop over a state dictionary: the entries before the first name the accumulator lacks are combined, and exactly then `KeyError` names that entry |
| WeightMaps.Pointwise | smoothing/framework/defaultClasses.py:402-406 | folding the sample into the entries named in a given set keeps the accumulator's names; this is the state the per-entry loop leaves after visiting that set |
| WeightMaps.FirstMissing | smoothing/framework/defaultClasses.py:402-406 | the position at which the per-entry loop raises `KeyError`: every earlier name is present in the accumulator and the one there is not, or the end of the order when all are |
| WeightMaps.MissingIffUnknownName | smoothing/framework/defaultClasses.py:402-406 | the loop raises exactly when the sample names an entry the accumulator lacks |
| WeightMaps.UpdateAll | smoothing/framework/defaultClasses.py:402-406 | without an error every entry of the sample is combined |
| WeightMaps.ReplaceAll | smoothing/framework/defaultClasses.py:406 | copying every entry over an accumulator with the same names yields the sample |
| WeightMaps.SumAllWeights | smoothing/framework/smoothingFramework.py:2541-2550 | the sum of the absolute values of all entries, never negative; an empty dictionary raises from `torch.stack` |
| WeightMaps.SumAllColumn | smoothing/framework/defaultClasses.py:400-406 | an accumulated entry is its start value plus the column sum of the samples |
| WeightMaps.Averaged | smoothing/framework/defaultClasses.py:411-420 | with a positive count every entry times the count is the sum; with none the result is `{}` |
| WeightMaps.Difference | smoothing/convolutional.py:833-839 | the step from the previous weights: previous plus step is the new entry, for every parameter |
| Sampler.Range | smoothing/framework/smoothingFramework.py:148 | `range(lo, hi)` has `hi - lo` elements, none when `hi <= lo` |
| Sampler.SliceStart | smoothing/framework/smoothingFramework.py:148 | where `list[start:]` begins: clipped to the length, a negative start counting from the end |
| Sampler.RangeOnce | smoothing/framework/smoothingFramework.py:148 | `range(lo, hi)` holds every integer of `[lo, hi)` exactly once and nothing else |
| Sampler.RemainingIndices | smoothing/framework/smoothingFramework.py:148 | after skipping `startIndex` batches, every data index from `startIndex * batchSize` on remains exactly once, and no earlier one |
| Sampler.Swap | smoothing/framework/smoothingFramework.py:149 | one exchange of `random.shuffle` is a permutation that moves exactly the two items |
| Sampler.Shuffle | smoothing/framework/smoothingFramework.py:149 | `random.shuffle` with any draws yields a permutation |
| Sampler.BaseSampler.constructor | smoothing/framework/smoothingFramework.py:147-149 | the sequence is a permutation of the remaining indices |
| Sampler.BaseSampler.Len | smoothing/framework/smoothingFramework.py:154-155 | `__len__` is the length of the sequence |
| Sampler.BaseSampler.Iterate | smoothing/framework/smoothingFramework.py:151-152 | `__iter__` yields the sequence in order |
| Sampler.ResumedSampler | smoothing/framework/smoothingFramework.py:142-155 | a sampler resumed at batch `startIndex` visits each index from `startIndex * batchSize` on exactly once and no earlier index |
| Signal.SaveAndExitFlag.constructor | smoothing/framework/smoothingFramework.py:23-28 | the flag starts unread, with the read that first sees it as a parameter |
| Signal.SaveAndExitFlag.Poll | smoothing/framework/smoothingFramework.py:39-40 | a read sees the flag exactly from the arrival point on |
| Signal.SaveAndExitFlag.StaysSet | smoothing/framework/smoothingFramework.py:23-28 | nothing resets the flag: once seen set, every later read sees it set |
| SmoothingBase.SmoothingCore.constructor | smoothing/framework/smoothingFramework.py:1860-1866 | a new strategy is disabled and has no saved snapshots |
| SmoothingBase.SmoothingCore.BaseSmoothedWeights | smoothing/framework/smoothingFramework.py:1875-1885 | `{}` while disabled and `None` once enabled, since the `else` branch does not return |
| SmoothingBase.SmoothingCore.GetWeights | smoothing/framework/smoothingFramework.py:1893-1901 | the snapshot saved under the key, and `None` exactly when there is none |
| SmoothingBase.SmoothingCore.SetDictionary | smoothing/framework/smoothingFramework.py:1903-1907 | `__setDictionary__` enables the strategy and keeps the snapshots |
| SmoothingBase.SmoothingCore.SaveWeights | smoothing/framework/smoothingFramework.py:1909-1915 | stores the weights under the key with `canOverride`, and without it only when the key is already present |
| SmoothingBase.SaveThenGet | smoothing/framework/smoothingFramework.py:1893-1912 | reading back a key just saved with `canOverride` returns the saved weights |
| Oscillation.ValidateConfig | smoothing/framework/defaultClasses.py:204-210 | the metadata is accepted exactly when the delayed start is below the weight-sum buffer size and the hard epsilon is at most epsilon; otherwise the first failing check's message is raised |
| Oscillation.DefaultsAreValid | smoothing/framework/defaultClasses.py:160-210 | the default metadata passes its own validation |
| Oscillation.TestDefaultsAreValid | smoothing/framework/defaultClasses.py:554-566 | the values of the strategies' test metadata pass validation (the base test class `_Test_SmoothingOscilationBase_Metadata` itself raises `NameError` at line 238 before validating) |
| Oscillation.ValidateMovingAvgParam | smoothing/framework/defaultClasses.py:578-580 | a moving-average parameter is accepted exactly when it lies strictly between 0 and 1; any other value raises `AttributeError`, because the message is formatted with `self.__name__`, which an instance lacks |
| Oscillation.ValidateEndCheckType | smoothing/framework/defaultClasses.py:666-669 | an end-check type is accepted exactly when it is `'std'` or `'wgsum'` |
| Oscillation.AvgDiffMeaning | smoothing/framework/defaultClasses.py:275-278 | the absolute difference of the two loss averages is never negative, and it is undefined (the average raises) exactly on an empty buffer with a negative start |
| Oscillation.StartGate | smoothing/framework/defaultClasses.py:279-295 | `canComputeWeights` answers `True` exactly when the loss difference is below epsilon once the minimum start fraction of the training steps is reached, or when the maximum start fraction is passed whatever the losses |
| Oscillation.HardLatch | smoothing/framework/defaultClasses.py:279-283 | `alwaysOn` is set exactly when the loss difference is below the hard epsilon and strictly more than the minimum start fraction of the steps were made |
| Oscillation.Gate | smoothing/framework/defaultClasses.py:269-295 | one `canComputeWeights` call: it raises `TypeError` exactly when an average is undefined, and then leaves the latch alone; a set latch is never cleared |
| Oscillation.GateLatch | smoothing/framework/defaultClasses.py:269-295 | a latched strategy stays latched; the latch opens exactly on the hard epsilon after the minimum start; a call that latches is itself accepted |
| Oscillation.LatchOpensGate | smoothing/framework/defaultClasses.py:282-295 | with validated metadata the hard-epsilon condition implies the gate's own condition |
| Oscillation.GateMonotoneInSteps | smoothing/framework/defaultClasses.py:287-295 | for a fixed loss difference an open gate stays open as the step count grows |
| Oscillation.RunChecks | smoothing/framework/defaultClasses.py:301-308 | one answer of `_smoothingGoodEnoughCheck` per value |
| Oscillation.CheckStep | smoothing/framework/defaultClasses.py:301-308 | one `_smoothingGoodEnoughCheck` as a function of the counter: its answer and the new counter, described by `CheckStepMeaning` |
| Oscillation.CheckStepMeaning | smoothing/framework/defaultClasses.py:301-308 | `True` exactly for a value below the weights epsilon once the counter has passed the soft margin, and then with the counter unchanged; otherwise the counter stays or, on a small value answered `False`, grows by one |
| Oscillation.SoftMargin | smoothing/framework/defaultClasses.py:301-308 | the counter is the number of below-epsilon values seen, capped at the margin plus one; a value is accepted exactly when it is below epsilon and at least that many below-epsilon values preceded it |
| Oscillation.SoftMarginOfThree | smoothing/framework/defaultClasses.py:554-566 | with the margin of 3 of `Test_DefaultSmoothingOscilationEWMA_Metadata`, `_smoothingGoodEnoughCheck` first answers `True` at the fifth value below epsilon |
| Oscillation.OscillationGate.constructor | smoothing/framework/defaultClasses.py:254-267 | both buffers empty, all counters 0, the latch and the computed flag off |
| Oscillation.OscillationGate.CanComputeWeights | smoothing/framework/defaultClasses.py:269-295 | answer and latch are `Gate` of the loss difference; the loss buffer is untouched |
| Oscillation.OscillationGate.PushLoss | smoothing/framework/defaultClasses.py:337 | the loss is appended to the buffer, after which both averages exist |
| Oscillation.OscillationGate.Call | smoothing/framework/defaultClasses.py:335-347 | pushes the loss, runs the gate, and counts the step exactly when the latch or the gate is open, which is also the answer |
| Oscillation.OscillationGate.GoodEnoughCheck | smoothing/framework/defaultClasses.py:301-308 | answer and counter are one `CheckStep` |
| Oscillation.OscillationGate.PushAndCheck | smoothing/framework/defaultClasses.py:326-332 | pushes the weight sum and answers the soft-margin check on the difference of the two weight-sum averages |
| Oscillation.OscillationGate.IsSmoothingGoodEnough | smoothing/framework/defaultClasses.py:310-333 | nothing happens until more than the margin of steps were counted; then the division counter goes up, an empty dictionary raises from `sumAllWeights`, and otherwise Σ\|w\| is pushed and checked |
| Borderline.BorderlineSmoothing.constructor | smoothing/framework/defaultClasses.py:374-392 | no sums, no previous weights, no counted calls, disabled |
| Borderline.BorderlineSmoothing.Call | smoothing/framework/defaultClasses.py:394-409 | up to the switch-on point nothing changes and the answer is `False`; past it the call is counted, sums and previous weights take the sample entry by entry, and a name the sums lack raises `KeyError` after the earlier entries |
| Borderline.BorderlineSmoothing.GetSmoothedWeights | smoothing/framework/defaultClasses.py:411-420 | `{}` while disabled, else the sums divided by the count (`{}` with no counted call) |
| Borderline.BorderlineSmoothing.SetDictionary | smoothing/framework/defaultClasses.py:422-430 | enables the strategy and gives every name a zero sum and a zero previous entry |
| Borderline.BorderlineIsArithmeticMean | smoothing/framework/defaultClasses.py:394-420 | after the samples, every smoothed entry is the arithmetic mean of the samples |
| Borderline.BorderlineAgreesWithRunningMean | smoothing/framework/defaultClasses.py:394-420 | the strategy agrees with `RunningGeneralMeanWeights` of power 1 from zeros |
| Borderline.RunBorderline | smoothing/framework/defaultClasses.py:394-430 | a run past the switch-on point over samples with the dictionary's names has the sums over their number as smoothed weights |
| Borderline.BorderlineSmoothing.SetState | smoothing/framework/defaultClasses.py:442-448 | a state saved with only the key ingredients comes back with empty dictionaries, no counted call and disabled; any other state keeps everything |
| Ewma.EwmaAll | smoothing/framework/defaultClasses.py:585-592 | blending samples into the estimate keeps its set of names |
| Ewma.EwmaAllColumn | smoothing/framework/defaultClasses.py:585-592 | entry by entry, the dictionary estimate is the scalar recurrence S := S·(1 − a) + x·a over that entry's samples |
| Ewma.EwmaBounded | smoothing/framework/defaultClasses.py:578-592 | with 0 < a < 1 the estimate stays between the smallest and the largest of the start value and the samples |
| Ewma.StartValueDecays | smoothing/framework/defaultClasses.py:604-613 | two runs over the same samples differ by (1 − a)ⁿ times the difference of their start values, so the start value's weight decays geometrically |
| Ewma.HalfwayExample | smoothing/framework/defaultClasses.py:589-592 | worked example of the update rule: with a = 0.5, start 2 and sample 4 the estimate is 3 |
| Ewma.BlendBounded | smoothing/framework/defaultClasses.py:589-592 | one blend with 0 < a < 1 stays between the bounds of the estimate and the sample |
| Ewma.StepScalesDifference | smoothing/framework/defaultClasses.py:589-592 | one blend of two estimates with the same sample multiplies their difference by 1 − a |
| Ewma.EwmaSmoothing.constructor | smoothing/framework/defaultClasses.py:572-576 | an empty estimate, a fresh gate, disabled |
| Ewma.EwmaSmoothing.CalcMean | smoothing/framework/defaultClasses.py:585-592 | every entry before the first unknown name is blended, and exactly then `KeyError` names that entry; with known names all entries are blended |
| Ewma.EwmaSmoothing.Call | smoothing/framework/defaultClasses.py:335-347 | the loss goes through the gate; a counted step blends the sample in and answers `True`, an uncounted one changes no estimate and answers `False` |
| Ewma.EwmaSmoothing.GetSmoothedWeights | smoothing/framework/defaultClasses.py:594-602 | `{}` while disabled or before a counted step, otherwise a copy of the estimate |
| Ewma.EwmaSmoothing.SetDictionary | smoothing/framework/defaultClasses.py:604-613 | enables the strategy and starts each named entry at its given value, not at zero |
| Ewma.EwmaSmoothing.IsSmoothingGoodEnough | smoothing/framework/defaultClasses.py:310-333 | the oscillation stop check on the strategy's own smoothed weights |
| Ewma.CreateEwma | smoothing/framework/defaultClasses.py:572-580 | construction succeeds exactly with valid metadata and 0 < a < 1; invalid metadata raises its own message first, and valid metadata with an out-of-range `a` raises `AttributeError` |
| Ewma.RunEwma | smoothing/framework/defaultClasses.py:585-613 | a run from `__setDictionary__` through `calcMean` on each sample ends in the fold of the samples |
| GeneralizedMean.Rooted | smoothing/framework/smoothingFramework.py:240-247 | the roots keep the names, and for power 1 the averages are handed out as they are |
| GeneralizedMean.AddAllSnoc | smoothing/framework/defaultClasses.py:506-507 | one more sample is one more running-mean step at the count reached so far |
| GeneralizedMean.AddAllPrefix | smoothing/framework/defaultClasses.py:506-507 | the running mean over a prefix one sample longer is one more step on the shorter prefix |
| GeneralizedMean.GeneralizedMeanSmoothing.constructor | smoothing/framework/defaultClasses.py:502-504 | no running mean yet, disabled, no counted step |
| GeneralizedMean.GeneralizedMeanSmoothing.SetDictionary | smoothing/framework/defaultClasses.py:515-520 | enables the strategy, then builds a running mean from zeros with count 0; a power of 0 or less raises after enabling and keeps the old mean |
| GeneralizedMean.GeneralizedMeanSmoothing.CalcMean | smoothing/framework/defaultClasses.py:506-507 | an `AttributeError` before `__setDictionary__`; otherwise one `addWeights` with its error cases |
| GeneralizedMean.GeneralizedMeanSmoothing.Call | smoothing/framework/defaultClasses.py:335-347 | the loss goes through the gate; a counted step feeds the sample to the running mean, whose error propagates |
| GeneralizedMean.GeneralizedMeanSmoothing.GetSmoothedWeights | smoothing/framework/defaultClasses.py:509-513 | `{}` while disabled, otherwise the running mean's weights; `AttributeError` when enabled without a mean |
| GeneralizedMean.GeneralizedMeanSmoothing.IsSmoothingGoodEnough | smoothing/framework/defaultClasses.py:310-333 | nothing before the margin; then an error reading the smoothed weights propagates after the division counter moved, and otherwise the oscillation check runs on them |
| GeneralizedMean.RunGeneralizedMean | smoothing/framework/defaultClasses.py:506-520 | after `__setDictionary__` and one `calcMean` per sample the averages are the running mean of the samples from zeros |
| WeightedMean.DecayIsInversePower | smoothing/framework/defaultClasses.py:16-27 | the `i`-th weight the decay iterator yields is d⁻ⁱ |
| WeightedMean.DecayPositive | smoothing/framework/defaultClasses.py:16-27 | with a positive decay every weight is positive |
| WeightedMean.DecaySumPositive | smoothing/framework/defaultClasses.py:742-747 | with a positive decay and at least one snapshot the weight sum is positive |
| WeightedMean.FirstBad | smoothing/framework/defaultClasses.py:743-746 | the first snapshot naming an entry the accumulator lacks: all before it are complete |
| WeightedMean.WeightedSum | smoothing/framework/defaultClasses.py:743-747 | adding weighted snapshots keeps the accumulator's names |
| WeightedMean.WeightedAverage | smoothing/framework/defaultClasses.py:728-751 | with no snapshot the result is `{}`; otherwise it names exactly the entries of the newest snapshot |
| WeightedMean.Divided | smoothing/framework/defaultClasses.py:749-750 | every entry divided by the weight sum |
| WeightedMean.NoBadSnapshot | smoothing/framework/defaultClasses.py:743-746 | snapshots naming only entries of the newest one raise no `KeyError` |
| WeightedMean.KeyErrorIffForeignName | smoothing/framework/defaultClasses.py:741-751 | a decay of 0 raises `ZeroDivisionError` at the first snapshot; otherwise `KeyError` is raised exactly when some snapshot names an entry the newest one lacks |
| WeightedMean.PositiveDecayNeverZeroSum | smoothing/framework/defaultClasses.py:742-750 | with a positive decay the division by the weight sum never fails |
| WeightedMean.WeightedSumColumn | smoothing/framework/defaultClasses.py:743-747 | an entry of the weighted sum is its start plus the decayed sum of its column |
| WeightedMean.WeightedSumStep | smoothing/framework/defaultClasses.py:744-746 | one more snapshot adds its entry times its weight |
| WeightedMean.WeightedMeanOfColumn | smoothing/framework/defaultClasses.py:728-751 | every smoothed entry is the weighted mean Σ d⁻ⁱ·xᵢ / Σ d⁻ⁱ of its column, newest first |
| WeightedMean.ConstantDecayedColumn | smoothing/framework/defaultClasses.py:743-747 | a constant column sums to the constant times the weight sum |
| WeightedMean.ConstantEntryIsKept | smoothing/framework/defaultClasses.py:728-751 | an entry unchanged across the buffer comes out unchanged |
| WeightedMean.ConstantColumnMean | smoothing/framework/defaultClasses.py:743-750 | the weighted mean of a constant column is that constant |
| WeightedMean.DecayTwoExample | smoothing/framework/defaultClasses.py:728-751 | worked example of the weighted mean: decay 2 over 11 (newest) and 5 gives (11 + 5/2) / 1.5 = 9 |
| WeightedMean.WeightDecay.constructor | smoothing/framework/defaultClasses.py:17-18 | the iterator keeps its decay and starts at weight 1 |
| WeightedMean.WeightDecay.Iter | smoothing/framework/defaultClasses.py:20-22 | `iter()` restarts at weight 1 |
| WeightedMean.WeightDecay.Next | smoothing/framework/defaultClasses.py:24-27 | `next()` yields the current weight and divides it by the decay; a decay of 0 raises and leaves the weight |
| WeightedMean.AverageSnapshots | smoothing/framework/defaultClasses.py:736-751 | the loop over the buffered snapshots computes `WeightedAverage` and advances the iterator once per visited snapshot |
| WeightedMean.ItemsOrdered | smoothing/framework/smoothingFramework.py:269-287 | every item the ring buffer yields is one of its slots |
| WeightedMean.WeightedMeanSmoothing.constructor | smoothing/framework/defaultClasses.py:709-719 | an empty snapshot buffer of the configured size, a fresh gate, disabled |
| WeightedMean.WeightedMeanSmoothing.SmoothedOrderEnumerates | smoothing/framework/defaultClasses.py:736-751 | the smoothed weights are visited in the newest snapshot's order |
| WeightedMean.WeightedMeanSmoothing.CalcMean | smoothing/framework/defaultClasses.py:721-726 | a copy of the sample goes into the ring buffer, appended while it has room and overwriting the oldest slot once full |
| WeightedMean.WeightedMeanSmoothing.Call | smoothing/framework/defaultClasses.py:335-347 | the gate as in the base; exactly the counted steps push a snapshot |
| WeightedMean.WeightedMeanSmoothing.GetSmoothedWeights | smoothing/framework/defaultClasses.py:728-751 | `{}` while disabled or before a counted step, otherwise the weighted mean of the buffer; the iterator is advanced once per visited snapshot |
| WeightedMean.WeightedMeanSmoothing.SetDictionary | smoothing/framework/defaultClasses.py:753-757 | only enables the strategy |
| WeightedMean.WeightedMeanSmoothing.IsSmoothingGoodEnough | smoothing/framework/defaultClasses.py:783-785 | the `'wgsum'` check: the oscillation stop check on the smoothed weights, an error of `__getSmoothedWeights__` propagating after the division counter moved |
| WeightedMean.CreateWeightedMean | smoothing/framework/defaultClasses.py:655-669 | construction succeeds exactly with valid oscillation metadata and a known end-check type, the oscillation checks coming first |
| SimpleStrategies.DisabledSmoothing.constructor | smoothing/framework/defaultClasses.py:133-138 | a disabled strategy with no snapshots |
| SimpleStrategies.DisabledSmoothing.Call | smoothing/framework/defaultClasses.py:143-145 | the weights are never taken into account |
| SimpleStrategies.DisabledSmoothing.IsSmoothingGoodEnough | smoothing/framework/defaultClasses.py:140-141 | never good enough |
| SimpleStrategies.DisabledSmoothing.GetSmoothedWeights | smoothing/framework/defaultClasses.py:147-149 | always `{}` |
| SimpleStrategies.DisabledSmoothing.SetDictionary | smoothing/framework/defaultClasses.py:151-153 | only enables the strategy |
| SimpleStrategies.AveragedSmoothingStartsAfterEightyPercent | smoothing/framework/defaultClasses.py:819 | worked example of the start rule: with the default start fraction 0.8 the averaged model starts after 80 of 100 steps |
| SimpleStrategies.AveragedSmoothingGateMonotone | smoothing/framework/defaultClasses.py:845 | once open the gate stays open for every later step total |
| SimpleStrategies.AveragedSmoothing.constructor | smoothing/framework/defaultClasses.py:837-839 | disabled, no snapshots, no SWA update yet |
| SimpleStrategies.AveragedSmoothing.Call | smoothing/framework/defaultClasses.py:841-847 | past the start fraction the SWA model is updated once and the answer is `True` |
| SimpleStrategies.AveragedSmoothing.IsSmoothingGoodEnough | smoothing/framework/defaultClasses.py:849-850 | never good enough |
| SimpleStrategies.AveragedSmoothing.GetSmoothedWeights | smoothing/framework/defaultClasses.py:858-862 | `{}` while disabled, otherwise the SWA model's state dictionary |
| SimpleStrategies.RunAveraged | smoothing/framework/defaultClasses.py:841-847 | over a run the SWA model is updated exactly once per step past the start fraction |
| Timing.Timer.constructor | smoothing/framework/smoothingFramework.py:517-522 | no stamps and no recorded differences |
| Timing.Timer.Start | smoothing/framework/smoothingFramework.py:524-527 | sets the start stamp to the clock reading and nothing else |
| Timing.Timer.End | smoothing/framework/smoothingFramework.py:529-532 | sets the end stamp to the clock reading and nothing else |
| Timing.Timer.GetDiff | smoothing/framework/smoothingFramework.py:534-538 | the difference end minus start, defined exactly when both stamps are set |
| Timing.Timer.AddToStatistics | smoothing/framework/smoothingFramework.py:540-546 | records the difference exactly when it is defined; the stamps stay |
| Timing.Timer.GetTimeSum | smoothing/framework/smoothingFramework.py:548-549 | the sum of the recorded differences |
| Timing.Timer.GetCount | smoothing/framework/smoothingFramework.py:564-565 | the number of recorded differences |
| Timing.Timer.ClearTime | smoothing/framework/smoothingFramework.py:551-553 | clears both stamps and keeps the statistics |
| Timing.Timer.ClearStatistics | smoothing/framework/smoothingFramework.py:555-557 | clears the statistics and keeps the stamps |
| Timing.Timer.GetAverage | smoothing/framework/smoothingFramework.py:559-562 | the mean of the recorded differences, `None` exactly when none was recorded |
| Timing.Timer.Restore | smoothing/framework/smoothingFramework.py:570-585 | a pickle round trip with only the key ingredients resets stamps and statistics, and otherwise keeps everything |
| Timing.StatisticsScenario | smoothing/framework/test/test_smoothingFramework.py:155-172 | the intervals 1.0–2.5, 3.0–5.5 and 10.0–25.7 give their sum and their mean |
| Switches.OnOff | smoothing/framework/smoothingFramework.py:393-399 | `True` exactly for "on", "True" and "true", `False` exactly for "off", "False" and "false", `None` for anything else |
| Switches.OnOffReadsPrintedBool | smoothing/framework/smoothingFramework.py:393-399 | parsing the printed form of a boolean gives it back |
| LrSchedule.OptimFactorCountsMilestones | smoothing/experiments/exp_copy_wide_resnet.py:106-115 | the `if`/`elif` chain counts exactly the milestones 60, 120 and 160 the epoch has passed |
| LrSchedule.LearningRateStages | smoothing/experiments/exp_copy_wide_resnet.py:106-115 | the rate is `init`, `init`·0.2, `init`·0.04 and `init`·0.008 in the four stages |
| LrSchedule.OptimFactorMonotone | smoothing/experiments/exp_copy_wide_resnet.py:106-115 | a later epoch never passes fewer milestones |
| LrSchedule.PowShrinks | smoothing/experiments/exp_copy_wide_resnet.py:115 | powers of a factor in [0, 1] such as 0.2 stay in [0, 1] and shrink as the exponent grows |
| LrSchedule.LearningRateNonIncreasing | smoothing/experiments/exp_copy_wide_resnet.py:106-115 | for a non-negative initial rate the rate stays in [0, `init`] and never rises |
| Framework.ExitBatch | smoothing/framework/smoothingFramework.py:1514-1529 | the batch at which the loop first sees the save-and-exit flag lies in the visited range, and no earlier read saw it; with `None` no read of the loop sees it |
| Framework.Visits | smoothing/framework/smoothingFramework.py:1514-1516 | a loop that starts at batch `start` goes through the batches from `start` up to the loader's end and skips the earlier ones (none when it starts past the end) |
| Framework.TrainSteps | smoothing/framework/smoothingFramework.py:1437-1447 | the model's parameters after `__train__`'s optimizer step on each batch of a range, in batch order |
| Framework.LabelCount | smoothing/framework/smoothingFramework.py:1715 | the labels a test loop adds to `predSizeSum` over a range of batches, one batch's `labels.size(0)` at a time |
| Framework.Coherent | smoothing/framework/smoothingFramework.py:1692-1715 | a carried-over test helper that has counted labels already holds a batch number, because `batchNumber` is set before `predSizeSum` grows |
| Framework.TrainEffect | smoothing/framework/smoothingFramework.py:1493-1601 | a `trainLoop` call counts at most one batch per loader batch, reads the flag at most once per batch and leaves a well-formed loops state |
| Framework.TrainRun | smoothing/framework/smoothingFramework.py:1505-1601 | the same, once `decide` has answered |
| Framework.TestEffect | smoothing/framework/smoothingFramework.py:1671-1725 | a `testLoop` call counts at most one batch per loader batch, reads the flag at most once per batch and leaves a well-formed loops state |
| Framework.NonEmpty | smoothing/framework/defaultClasses.py:1039 | the truth of `if(wg)`: smoothed weights count only when they are neither `None` nor `{}` |
| Framework.TestEpoch | smoothing/framework/defaultClasses.py:1033 | `__epoch__` tests exactly when testing is on and the one-based epoch number is in `startTestAtEpoch` |
| Framework.EpochPlan | smoothing/framework/defaultClasses.py:1026-1049 | the sub-loops `__epoch__` runs, in order: train when asked; nothing more after a flag seen while training; otherwise, in a test epoch, a test with the trained weights and, when smoothed weights exist, a test with those |
| Framework.TestRun | smoothing/framework/smoothingFramework.py:1677-1725 | the same, once `decide` has answered |
| Framework.SchedulerStep | smoothing/framework/smoothingFramework.py:1945-1950 | exactly the schedulers registered for every epoch or for epoch number `epochNumb + 1` step, in list order; none without a list |
| Framework.StartTestAtEpoch | smoothing/framework/defaultClasses.py:882-885 | the given list, or for the default `-1` the numbers `0..epoch` |
| Framework.DefaultTestsEveryEpoch | smoothing/framework/defaultClasses.py:882-885 | with the default list every epoch of the run is a test epoch |
| Framework.ListedEpochsAreOneBased | smoothing/framework/defaultClasses.py:1034 | worked example of the test-epoch rule: a given list holds one-based epoch numbers, so `[0, 1, 2]` tests in the first two epochs and no other |
| Framework.EpochDataContainer.constructor | smoothing/framework/smoothingFramework.py:1755-1760 | `setEpochLoop`: epoch 0, zero running totals, a fresh loops state, not averaged; the two max totals start at 0 where the source leaves them `None` until `_updateTotalNumbLoops` sets them, which the epoch loop does before it reads them |
| Framework.Data.constructor | smoothing/framework/smoothingFramework.py:1328-1349 | a data object with its loaders and no helpers |
| Framework.Data.TrainBatches | smoothing/framework/smoothingFramework.py:1514-1585 | the batch loop stops exactly at `ExitBatch`, counts every visited batch including the flagged one, steps the optimizer on every batch before it, and records the flagged batch number |
| Framework.Data.TrainFrom | smoothing/framework/smoothingFramework.py:1505-1601 | outcome, loops state, batch total, flag reads and parameters are those of `TrainRun`; the helper survives exactly when the accuracy summary divides by zero |
| Framework.Data.TrainLoop | smoothing/framework/smoothingFramework.py:1493-1601 | outcome, loops state, batch total, flag reads and parameters are those of `TrainEffect`, and the batch total grows by at most the loader's length |
| Framework.Data.TestBatches | smoothing/framework/smoothingFramework.py:1686-1716 | the batch loop stops exactly at `ExitBatch` and counts the visited batches except the flagged one; a completed loop has the label count and the last batch number |
| Framework.Data.TestFrom | smoothing/framework/smoothingFramework.py:1677-1725 | outcome, loops state, batch total and flag reads are those of `TestRun`; the helper survives exactly when the summary divides by a zero label count |
| Framework.Data.TestLoop | smoothing/framework/smoothingFramework.py:1671-1725 | outcome, loops state, batch total and flag reads are those of `TestEffect`, and the batch total grows by at most the loader's length |
| Framework.Data.SetModelNormalWeights | smoothing/framework/smoothingFramework.py:1842-1844 | the model takes the weights and is marked not averaged |
| Framework.Data.SetModelSmoothedWeights | smoothing/framework/smoothingFramework.py:1846-1848 | the model takes the weights and is marked averaged |
| Framework.Data.TrainOnce | smoothing/framework/smoothingFramework.py:1592 | only the accuracy summary's `ZeroDivisionError` escapes a train loop |
| Framework.Data.TestOnce | smoothing/framework/smoothingFramework.py:1632-1664 | only the summary's `ZeroDivisionError` escapes a test loop |
| Framework.Data.TestPhase | smoothing/framework/defaultClasses.py:1034-1049 | the normal test, then the snapshot `'main'`; with smoothed weights a second test with them and the restore of `'main'`, leaving the trained parameters in the model |
| Framework.Data.DefaultEpoch | smoothing/framework/defaultClasses.py:1026-1049 | train when asked; stop when the flag is seen after training; otherwise in a test epoch the sub-loops of `EpochPlan`, with the model ending on the trained parameters and `'main'` saved |
| Framework.Data.UpdateTotalNumbLoops | smoothing/framework/smoothingFramework.py:1747-1753 | the run's batch totals per loader: calls per epoch times epochs times batches |
| Framework.Data.ResetEpochState | smoothing/framework/smoothingFramework.py:1815-1816 | the epoch's loops state returns to the fresh state |
| Framework.Data.EpochStep | smoothing/framework/smoothingFramework.py:1778-1784 | records the epoch number, sizes the run and runs `__epoch__` within the per-epoch batch bounds; the schedulers step (as `SchedulerStep` selects them) only when `__epoch__` did not raise |
| Framework.Data.EpochLoop | smoothing/framework/smoothingFramework.py:1766-1813 | the epochs from the stored epoch number on run in order; a finished run clears the loops state and tears the container down; an interrupted run stops right after a flag read saw the flag; totals never exceed the run's maxima |
| LoopResume.TrainStepsSplit | smoothing/framework/smoothingFramework.py:1514-1551 | stepping on one range of batches and then on the next is stepping on their union |
| LoopResume.TrainWithinOneProcess | smoothing/framework/smoothingFramework.py:1500-1601 | within one process a train loop starts at batch 0 and a stopped or completed loop appends exactly one record to the history |
| LoopResume.TestWithinOneProcess | smoothing/framework/smoothingFramework.py:1671-1725 | the same for a test loop |
| LoopResume.CountingOrder | smoothing/framework/smoothingFramework.py:1524-1525 | train and test loops stop at the same batch; the train loop counts the flagged batch and the test loop does not |
| LoopResume.FreshDecide | smoothing/framework/smoothingFramework.py:963-965 | on a fresh state `decide` answers batch 0 with an empty working queue |
| LoopResume.FirstTrainLoopExits | smoothing/framework/smoothingFramework.py:1525-1529 | a first train loop stopped at batch `k` leaves the history `[[k, False]]` |
| LoopResume.FreshTrainLoopExits | smoothing/framework/smoothingFramework.py:1493-1529 | such a loop trained on `0..k-1`, and a `LoopsState` pickled on its own at that point reloads as the history `[k, False]` alone |
| LoopResume.ReloadedTrainLoopCompletes | smoothing/framework/smoothingFramework.py:913-965 | a `LoopsState` unpickled with that history makes the train loop resume at batch `k` and train on `k..n-1`, so with the stopped loop every batch is stepped on exactly once and in order; its imprint leaves the record unfinished, so a state pickled again re-enters at batch 1 |
| LoopResume.RestartAfterInterrupt | smoothing/framework/smoothingFramework.py:1762-1789 | after an interrupted `epochLoop` the container is gone, so the next `epochLoop` starts at epoch 0 from a fresh loops state on which every `decide` answers batch 0: the framework's run never resumes a loop |
| LoopResume.ResumedTrainRun | smoothing/framework/smoothingFramework.py:1493-1601 | the effect of that resumed call |
| LoopResume.TrueMarkRestartsAtOne | smoothing/framework/smoothingFramework.py:944-961 | a history `[[True, False]]` makes the loop start at batch 1, since `True` counts as 1 |
| LegacySmoothing.WithDictionary | smoothing/smoothingFramework.py:1147-1156 | `setDictionary` switches the smoother on and gives every parameter a zero sum and previous entry, keeping the other entries and the counters |
| LegacySmoothing.TrainAllSnoc | smoothing/smoothingFramework.py:853-862 | training on one more sample is one more `__train__` step on the state the earlier samples left |
| LegacySmoothing.Smoothed | smoothing/smoothingFramework.py:1135-1145 | `{}` before any counted sample or while disabled; otherwise every entry times the count is the sum |
| LegacySmoothing.Smoothing.constructor | smoothing/smoothingFramework.py:1101-1119 | disabled, empty sums and previous weights, both counters 0, no saved main weights |
| LegacySmoothing.Smoothing.AddToAverageWeights | smoothing/smoothingFramework.py:1220-1225 | new state and error as `AddToAverage`: nothing while disabled, otherwise each parameter added into its sum, `KeyError` after the earlier ones |
| LegacySmoothing.Smoothing.CopyPrevious | smoothing/smoothingFramework.py:1249-1252 | the entries before the first unknown name are copied over the previous weights; with all names known the result is the step from the previous weights |
| LegacySmoothing.Smoothing.ComparePrevWeights | smoothing/smoothingFramework.py:1246-1252 | new state and result as `ComparePrev` |
| LegacySmoothing.Smoothing.LastWeightDifference | smoothing/smoothingFramework.py:1254-1261 | new state and result as `Observe`: nothing while disabled, one more call counted, and past the switch-on point one more counted sample and `comparePrevWeights` |
| LegacySmoothing.Smoothing.Call | smoothing/smoothingFramework.py:1121-1133 | `call` has the same effect as `lastWeightDifference` and leaves the same step in `helper.substract` |
| LegacySmoothing.Smoothing.Train | smoothing/smoothingFramework.py:860-862 | `__train__`'s smoothing part is `TrainStep`: `lastWeightDifference`, then `call`, stopping at the first error |
| LegacySmoothing.Smoothing.GetWeights | smoothing/smoothingFramework.py:1135-1145 | the smoothed weights are `Smoothed` of the state |
| LegacySmoothing.Smoothing.SetDictionary | smoothing/smoothingFramework.py:1147-1156 | the state becomes `WithDictionary` of the old state |
| LegacySmoothing.Smoothing.SaveMainWeight | smoothing/smoothingFramework.py:1217-1218 | the model's weights are kept as the main weights |
| LegacySmoothing.Smoothing.Restore | smoothing/smoothingFramework.py:1158-1185 | a pickle round trip with only the key ingredients comes back as a new smoother; otherwise everything is kept |
| LegacySmoothing.DisabledStepIsInert | smoothing/smoothingFramework.py:1122-1123 | while disabled a training step changes nothing and hands out nothing |
| LegacySmoothing.ObserveCounted | smoothing/smoothingFramework.py:1254-1261 | past the switch-on point one call counts, adds the sample into the sums, copies it over the previous weights and hands out the step |
| LegacySmoothing.ObservePastSwitchOn | smoothing/smoothingFramework.py:1257-1260 | past the switch-on point `lastWeightDifference` is `comparePrevWeights` on the advanced counters |
| LegacySmoothing.ComparePrevAll | smoothing/smoothingFramework.py:1246-1252 | with exactly the sample's names `comparePrevWeights` adds the sample, replaces the previous weights and returns the step |
| LegacySmoothing.AddToAverageAll | smoothing/smoothingFramework.py:1220-1225 | with known names every parameter is added into its sum and nothing raises |
| LegacySmoothing.SubstractIsZero | smoothing/smoothingFramework.py:860-862 | `helper.substract` is always zero, since `call` runs right after the same weights were copied over the previous ones; past the switch-on point a step adds the sample twice and counts it twice |
| LegacySmoothing.DifferenceSelf | smoothing/smoothingFramework.py:1132 | the step from a sample to itself is zero |
| LegacySmoothing.EarlyStep | smoothing/smoothingFramework.py:1124-1125 | up to the switch-on point a training step only advances the call counter by two |
| LegacySmoothing.Late | smoothing/smoothingFramework.py:1109 | the samples counted are those from step `2000 / 2` on |
| LegacySmoothing.Twice | smoothing/smoothingFramework.py:860-862 | every sample twice in a row, so twice as many |
| LegacySmoothing.LateSnoc | smoothing/smoothingFramework.py:1124-1125 | one more step adds its sample to the counted ones exactly when at least `SwitchOn / 2` steps came before |
| LegacySmoothing.TwiceSumSnoc | smoothing/smoothingFramework.py:1130 | the sums over the doubled samples with one more sample are the earlier sums with that sample added twice |
| LegacySmoothing.PairedCounting | smoothing/smoothingFramework.py:853-862 | after `setDictionary(d)` and steps whose weights name the parameters of `d`, nothing raises, the call counter is two per step and the sums hold every late sample twice, counted twice |
| LegacySmoothing.StartedRaisesNothing | smoothing/smoothingFramework.py:1147-1156 | after `setDictionary(d)` such steps never raise |
| LegacySmoothing.CountedStep | smoothing/smoothingFramework.py:853-862 | a step past the switch-on point extends the doubled late sums by the sample |
| LegacySmoothing.TwiceColumn | smoothing/smoothingFramework.py:1130 | an entry summed over the doubled samples is twice its sum over the samples |
| LegacySmoothing.SmoothedIsLateMean | smoothing/smoothingFramework.py:1135-1145 | `getWeights` after more than 1000 steps is, parameter by parameter, the arithmetic mean of the samples from step 1000 on: the doubling cancels |
| LegacySmoothing.LateMean | smoothing/smoothingFramework.py:1143-1144 | for sums and count holding every late sample twice, the mean handed out is the late samples' arithmetic mean |
| LegacySmoothing.DoubledSumEntry | smoothing/smoothingFramework.py:1130 | an entry of the sums over the doubled samples, started from zeros, is twice that entry summed over the samples |
| LegacySmoothing.SmoothedEntry | smoothing/smoothingFramework.py:1143-1144 | an entry handed out once something was counted is its sum over the count |
| LegacyLoops.TrainBatches | smoothing/smoothingFramework.py:923-940 | the batches `trainLoop` gets through: on completion the flag was clear at every read and the last batch number is stored; at the flag, the read at the stored batch saw it and none before; otherwise an exception stopped the loop inside the range; the model keeps its parameter names |
| LegacyLoops.TrainLoopRun | smoothing/smoothingFramework.py:917-943 | `trainLoop` leaves `epochNumb` and the epoch helper alone and keeps the model's parameter names |
| LegacyLoops.TestBatches | smoothing/smoothingFramework.py:978-1006 | the batches `testLoop` gets through: all of them with the flag clear at every read, or up to the batch whose read saw the flag |
| LegacyLoops.TestLoopRun | smoothing/smoothingFramework.py:978-1006 | `testLoop` changes neither the model nor the smoothing object nor the saved main weights |
| LegacyLoops.TestPhaseRun | smoothing/smoothingFramework.py:1027-1040 | the test part of `__epoch__` keeps the parameter names, `epochNumb` and the epoch helper |
| LegacyLoops.TrainPhaseRun | smoothing/smoothingFramework.py:1023-1024 | the train part of `__epoch__` keeps the parameter names, `epochNumb` and the epoch helper |
| LegacyLoops.AfterTrain | smoothing/smoothingFramework.py:1026-1040 | what follows training in `__epoch__` keeps the parameter names, `epochNumb` and the epoch helper |
| LegacyLoops.EpochRun | smoothing/smoothingFramework.py:1014-1043 | an epoch keeps the parameter names, `epochNumb` and the epoch helper |
| LegacyLoops.ResetEpoch | smoothing/smoothingFramework.py:1071-1073 | `resetEpochState` zeroes both batch counters and changes nothing else |
| LegacyLoops.TestPhaseLeavesAverage | smoothing/smoothingFramework.py:1027-1040 | the test part never returns at the flag and never changes the smoothing object; with no test batch it raises `ZeroDivisionError` first; otherwise `mainWeights` holds the trained model and the model ends up holding the smoothed weights whenever `getWeights` is not empty and names its parameters, and raises when it names others |
| LegacyLoops.EpochsFromEnd | smoothing/smoothingFramework.py:1055-1068 | the remaining epochs end either completed, with the counters, `epochNumb` and the epoch helper cleared, or early with `epochNumb` and the helper as they were |
| LegacyLoops.NextEpoch | smoothing/smoothingFramework.py:1059-1063 | past the flag check after an epoch the loop goes on from the state `resetEpochState` leaves |
| LegacyLoops.EpochLoopEnds | smoothing/smoothingFramework.py:1045-1069 | `epochLoop` completes with both batch counters and `epochNumb` zeroed and the epoch helper gone, or returns early with the helper still there and `epochNumb` as it was |
| LegacyLoops.Trajectory | smoothing/smoothingFramework.py:923-937 | one model per batch, the model after the optimizer stepped at each earlier position |
| LegacyLoops.Stepped | smoothing/smoothingFramework.py:853-858 | the model after `model.optimizer.step()` has run at each of the loader positions before `k`, in order |
| LegacyLoops.Fed | smoothing/smoothingFramework.py:853-862 | after `k` positions that reached the smoothing object, the model is the `k`-times stepped one and the smoother's state and error are those of feeding it the trajectory in order |
| LegacyLoops.Repeat | smoothing/smoothingFramework.py:853-862 | every step enumerates the parameters in the same order |
| LegacyLoops.FedStep | smoothing/smoothingFramework.py:853-862 | a batch that reaches the smoothing object extends what was fed by the newly stepped model |
| LegacyLoops.FailingPosition | smoothing/smoothingFramework.py:935-937 | an exception in the smoothing step ends the loop at that batch, with everything up to it fed |
| LegacyLoops.ContinuingPosition | smoothing/smoothingFramework.py:923-940 | a batch whose smoothing step raises nothing hands the stepped model and smoothing state to the next batch |
| LegacyLoops.BatchesFeedSmoother | smoothing/smoothingFramework.py:917-943 | the smoothing object is fed exactly the stepped models of the batches the loop got through, however the loop ends |
| LegacyLoops.SameNames | smoothing/smoothingFramework.py:1250 | two dictionaries enumerated by the same order name the same parameters |
| LegacyLoops.TrajectoryNames | smoothing/smoothingFramework.py:923-937 | every model fed names the parameters of the first |
| LegacyLoops.StartedLoopFeeds | smoothing/smoothingFramework.py:917-943 | a train loop right after `setDictionary` with the model's own parameters never raises and on completion has fed the whole trajectory |
| LegacyLoops.StartedNeverRaises | smoothing/smoothingFramework.py:1147-1156 | after `setDictionary` with the model's own parameters the smoothing steps of a train loop never raise |
| LegacyLoops.TrainLoopAveragesLateModels | smoothing/smoothingFramework.py:917-943 | after a completed train loop of `n` batches started right after `setDictionary`, the model is the `n`-times stepped one and `getWeights` is `{}` for `n <= 1000`, otherwise the arithmetic mean of the models fed from batch 1000 on |
| LegacyLoops.LegacyData.constructor | smoothing/smoothingFramework.py:743-792 | all counters zero, no helpers, the given loaders' sizes and model |
| LegacyLoops.LegacyData.TrainBatch | smoothing/smoothingFramework.py:923-940 | one batch of `trainLoop`: the state after it and how the loop ends there, if it does, match `TrainBatches` |
| LegacyLoops.LegacyData.TrainLoop | smoothing/smoothingFramework.py:917-943 | the loop's new state and end are `TrainBatches` from the stored batch number, and the helper survives exactly when the loop did not complete |
| LegacyLoops.LegacyData.TestLoop | smoothing/smoothingFramework.py:978-1006 | the stored batch number and flag reads as `TestBatches`; the loop ends at the flag, raises `ZeroDivisionError` on an empty test set, or completes |
| LegacyLoops.LegacyData.TestPhase | smoothing/smoothingFramework.py:1027-1040 | the new state and end are `TestPhaseRun` of the old state |
| LegacyLoops.LegacyData.TrainPhase | smoothing/smoothingFramework.py:1023-1024 | the new state and end are `TrainPhaseRun` of the old state |
| LegacyLoops.LegacyData.FinishEpoch | smoothing/smoothingFramework.py:1026-1040 | the new state and end are `AfterTrain` of the old state |
| LegacyLoops.LegacyData.Epoch | smoothing/smoothingFramework.py:1014-1043 | the new state and end are `EpochRun` of the old state |
| LegacyLoops.LegacyData.ResetEpochState | smoothing/smoothingFramework.py:1071-1073 | the state becomes `ResetEpoch` of the old one |
| LegacyLoops.LegacyData.ResetFullEpochState | smoothing/smoothingFramework.py:1075-1077 | both batch counters and `epochNumb` zero, nothing else changed |
| LegacyLoops.LegacyData.EndEpoch | smoothing/smoothingFramework.py:1059-1063 | the flag check and `resetEpochState` after an epoch: either the loop stops as `AfterEpoch` says or it goes on with the remaining epochs |
| LegacyLoops.LegacyData.EpochLoop | smoothing/smoothingFramework.py:1045-1069 | the new state and end are `EpochLoopRun` of the old state |
| LegacyLoops.LegacyData.Restore | smoothing/smoothingFramework.py:793-816 | a pickle round trip with only the key ingredients brings the counters back as zero and without helpers; a full one restores everything |
| ConvSmoothing.WithDictionary | smoothing/convolutional.py:847-853 | `setDictionary` gives every parameter of the dictionary a zero sum and previous entry, keeping the other entries and the count |
| ConvSmoothing.StateDict | smoothing/convolutional.py:817-821 | `getStateDict` is every sum divided by the count: each entry times the count is its sum; with nothing counted and some sum present the division gives `inf`/`nan` (`None`) |
| ConvSmoothing.Smoothing.constructor | smoothing/convolutional.py:778-793 | empty sums and previous weights, count 0 |
| ConvSmoothing.Smoothing.AddToAverageWeights | smoothing/convolutional.py:813-815 | new state and error as `AddToAverage`: each parameter added into its sum in order, `KeyError` at the first one without a sum |
| ConvSmoothing.Smoothing.GetStateDict | smoothing/convolutional.py:817-821 | the result is `StateDict` of the state |
| ConvSmoothing.Smoothing.FullAverageWeights | smoothing/convolutional.py:823-825 | new state and error as `FullAverage`: count one more, then add the sample |
| ConvSmoothing.Smoothing.LateStartAverageWeights | smoothing/convolutional.py:827-831 | new state and error as `LateStartAverage` |
| ConvSmoothing.Smoothing.CopyPrevious | smoothing/convolutional.py:835-838 | the entries before the first unknown name are copied over the previous weights; with all names known the result is the step from the previous weights |
| ConvSmoothing.Smoothing.ComparePrevWeights | smoothing/convolutional.py:833-839 | new state and result as `ComparePrev`: the sample added into the sums, its step from the previous weights returned and copied over them |
| ConvSmoothing.Smoothing.LastWeightDifference | smoothing/convolutional.py:841-845 | new state and result as `LastDifference`: count one more, then `comparePrevWeights` past 2000 calls, `None` before |
| ConvSmoothing.Smoothing.SetDictionary | smoothing/convolutional.py:847-853 | the state becomes `WithDictionary` of the old one |
| ConvSmoothing.Late | smoothing/convolutional.py:786 | the samples after the first 2000 calls, in order |
| ConvSmoothing.LateSnoc | smoothing/convolutional.py:843 | one more call adds its sample to the late ones exactly when at least 2000 calls came before |
| ConvSmoothing.SumAllSnoc | smoothing/convolutional.py:813-815 | the sums over one more sample are the earlier sums plus that sample |
| ConvSmoothing.DifferencesSnoc | smoothing/convolutional.py:841-845 | a run of `lastWeightDifference` over one more sample is one more call on the state the earlier ones left |
| ConvSmoothing.FullSnoc | smoothing/convolutional.py:823-825 | a run of `fullAverageWeights` over one more sample is one more call on the state the earlier ones left |
| ConvSmoothing.AddedInFull | smoothing/convolutional.py:813-815 | when every name has a sum nothing raises and every entry is added |
| ConvSmoothing.EarlyDifference | smoothing/convolutional.py:841-845 | within the first 2000 calls `lastWeightDifference` only counts and returns `None` |
| ConvSmoothing.CountedDifference | smoothing/convolutional.py:841-845 | past 2000 calls it counts, adds the sample, returns its step from the previous weights and makes it the previous weights |
| ConvSmoothing.DifferencesCountEveryCall | smoothing/convolutional.py:841-853 | after `setDictionary(d)` on a new object, with samples naming the parameters of `d`: nothing raises, every call counts and the sums hold exactly the samples after the first 2000 calls |
| ConvSmoothing.FullCountsEveryCall | smoothing/convolutional.py:823-825 | after `setDictionary(d)` on a new object: nothing raises, every call counts and every sample is added |
| ConvSmoothing.StateDictEntry | smoothing/convolutional.py:817-821 | an entry of `getStateDict` is the entry's sum over the added samples divided by the count |
| ConvSmoothing.DifferencesStateDict | smoothing/convolutional.py:817-821 | after `n > 0` calls of `lastWeightDifference` an entry of `getStateDict` is its sum over the late samples divided by all `n` calls |
| ConvSmoothing.DifferencesStateDictEarly | smoothing/convolutional.py:841-845 | within the first 2000 calls every entry of `getStateDict` is zero |
| ConvSmoothing.DifferencesStateDictScalesLateMean | smoothing/convolutional.py:817-845 | past 2000 calls an entry of `getStateDict` is the mean of the late samples scaled by the share of calls that added anything, so it is not that mean |
| ConvSmoothing.FullStateDictIsMean | smoothing/convolutional.py:817-825 | after `n > 0` calls of `fullAverageWeights` an entry of `getStateDict` is the arithmetic mean of the samples |
| ConvSmoothing.LateStartIsDelayedFull | smoothing/convolutional.py:827-831 | `lateStartAverageWeights` always counts; past 2000 calls it is `fullAverageWeights`; before, it adds nothing and raises `TypeError` |
| ConvSmoothing.LateStartRaisesAtFirst | smoothing/convolutional.py:827-831 | its first call after `setDictionary` on a new object raises |
| ConvSmoothing.StartedStateDict | smoothing/convolutional.py:817-821 | right after `setDictionary` nothing is counted, so `getStateDict` is `{}` for an empty dictionary and `nan` otherwise |
| ConvModel.Flip | smoothing/convolutional.py:943-952 | the tag after a swap is never the tag before it |
| ConvModel.Load | smoothing/convolutional.py:944-951 | strict `load_state_dict` succeeds exactly when the dictionary names the model's parameters, and then the model holds it |
| ConvModel.SwapFails | smoothing/convolutional.py:940-954 | `swapWeights` raises exactly when nothing is pinned or the copy names other parameters, with the message of each case |
| ConvModel.SwapExchanges | smoothing/convolutional.py:940-954 | a successful swap exchanges parameters and copy, keeps the names and flips and returns the tag |
| ConvModel.SwapTwice | smoothing/convolutional.py:940-954 | two swaps restore the model, the copy and the tag |
| ConvModel.PinThenSwap | smoothing/convolutional.py:933-954 | a swap right after pinning `w` loads `w`, keeps the former weights as the copy and reports `'smoothing'`, or raises when `w` names other parameters |
| ConvModel.FreshSwapFails | smoothing/convolutional.py:895-911 | a new model has nothing pinned, so its first swap raises |
| ConvModel.Model.constructor | smoothing/convolutional.py:895-911 | the model holds its parameters and nothing is pinned |
| ConvModel.Model.CloneStateDict | smoothing/convolutional.py:927-931 | the dictionary built entry by entry holds exactly the original's keys and values; with tensors as values a per-entry `torch.clone` is the identity, so only the loop is modelled |
| ConvModel.Model.PinAverageWeights | smoothing/convolutional.py:933-938 | the copy becomes the given weights, tagged `'plain'`, whatever the copy flag; parameters untouched |
| ConvModel.Model.SwapWeights | smoothing/convolutional.py:940-954 | new state and result as `Swap`; on an error nothing changes |

## Left out

- Tensor numerics: a tensor is one real, so shapes, devices, dtypes, `requires_grad`, float rounding, `inf` and `nan` are not modelled; places where the source would produce `inf`/`nan` are named below.
- The standard-deviation end check of the weighted mean (`_sumWeightsToArrayStd`, `__isSmoothingGoodEnough__std` and the NaN sentinel in `smoothing/framework/defaultClasses.py:787-812`): it is floating-point statistics over tensors; the `'wgsum'` check and the validation of the end-check name are modelled.
- The `power`-th root of `RunningGeneralMeanWeights.getWeights` for `power > 1`: real roots are not available, so the root is a parameter of the read; `power == 1` is exact.
- The save-and-exit signal handlers and their registration with `signal.signal`: they run asynchronously; the flag is a latch seen by every read from the first one that sees it on.
- File and pickle persistence (`tryLoad`, `trySave`, `torch.save`/`torch.load`, `modelRun`, `runObjs`, `Statistics.saveSelf`/`load`): I/O. A pickle round trip is modelled only through its effect on state, as the `Restore`/`SetState` methods. That `modelRun` always saves with only the key ingredients (`smoothing/smoothingFramework.py:1447`) is a caller choice and is a parameter here.
- The defects of some `__setstate__`/`__getstate__` methods (the broken signature of `CircularList.__setstate__`, the missing `tensorPrevSum_1`/`tensorPrevSum_2` of the EWMA and weighted-mean `__setstate__`, the `None` returned by the generalized mean's `__getstate__`): these methods raise or lose all state, and nothing in the core relies on them.
- Output streams, logging, `prepareOutput` and every `print`: stdout and file handles. This includes the debug printing of `__afterTrain__`/`__afterTrainLoop__` of the older file and its loss statistics per 32 batches.
- `TEST_MODE` and its loop caps: a debugging switch.
- The commented-out early stop on "good enough" in the main train loop, and the commented-out smoothing call of that loop: the code does not run them, so the model does not either; the smoothed weights the epoch tests use are an input.
- `DefaultPytorchAveragedSmoothing`'s averaging, which PyTorch's `swa_utils` performs: a foreign library; only its start gate is modelled.
- Dataset, transform and loader setup, the models, optimizers and schedulers, and `Wide_ResNet`: collaborators. A loader is its number of batches (and, for the main test loop, the labels per batch), an optimizer step is a function on the parameters, the scheduler step is counted.
- The random draws of `BaseSampler`'s seeded `random.shuffle`: randomness; the draws are an input consumed as `random.shuffle` consumes them.
- The clock of `Timer` and its CUDA synchronisation: time readings are parameters.
- Aliasing of tensors: dictionaries are values. So `pinAverageWeights`'s copy flag has no effect on the value, a `state_dict()` that shares storage with the model is not modelled, and `load_state_dict` is all-or-nothing rather than possibly copying some entries before it raises.
- ConvModel.SwapExchanges, ConvModel.SwapTwice: hold because dictionaries are values; in the source `tmp = self.state_dict()` shares storage with the model's parameters and `load_state_dict` copies into that storage, so the kept copy would end up holding the newly loaded weights, and a second swap would not bring back the former ones.
- LegacyLoops.TestPhaseLeavesAverage: `mainWeights` is modelled as a copy of the trained weights; in the source `saveMainWeight` keeps `model.getWeights()`, a `state_dict()` sharing storage with the model, so loading the smoothed weights would overwrite `mainWeights` as well.
- ConvModel.Model.CloneStateDict: the fresh storage that `torch.clone` gives each entry is not modelled; the clone is equal to the original as a value.
- `CircularList` with capacity 0: the source's `pushBack` stores the item and then raises `ZeroDivisionError` on `% 0`; the constructors of the buffer and of the strategies that own buffers require a positive capacity.
- The weighted mean with a weight sum of exactly zero: impossible for a positive decay, which is proved; for a negative decay it is an error value rather than the tensors' `inf`/`nan`.
- ConvSmoothing.StateDict: with nothing counted and some sum present the tensor division gives `inf`/`nan`; this is `None`.
- `lateStartAverageWeights`'s early branch `dict(model)`: it is called with the model object, which is not iterable, so it is a `TypeError`.
- The loss bookkeeping of `forwardLossFun` in the older smoothing classes, and the helper statistics of the loops (`Statistics.addLoss`, accuracies): floating-point reporting with no effect on control flow or weights.
- The epoch labels derived from `epochNumb` in the older epoch loop: printing only; the loop itself runs every epoch.
- The `Data` loops of `smoothing/convolutional.py` (`__train__`, `trainLoop`, `testLoop`, `epochLoop`): that file trains at import and does not parse; only its smoother, model swap, `Timer` and `onOff` are modelled. Its `trainLoop` also pins `averageWeights`, which is bound only when the debug printing ran.
- The older file's `Smoothing.getStateDict` (`smoothing/smoothingFramework.py:1228-1232`): no code calls it. Its `fullAverageWeights` and `lateStartAverageWeights` are commented out (1234-1244).
- The constructors of the oscillation strategies require metadata that has passed validation; `CreateEwma`, `CreateWeightedMean` and `RunningMean.Create` model the raise of an invalid configuration before any object exists.
- Plotting, `averageStatistics` CSV handling, `commandLineArg`, `useDeterministic` and the experiment scripts: I/O or glue without logic of their own.
