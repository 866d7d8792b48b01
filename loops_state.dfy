/**
 * `LoopsState`: the bookkeeping meant to let a restarted run resume its train and test loops
 * (the main framework's epoch loop drops it on a save-and-exit stop; see `LoopResume`).
 * A history of `[index, ended]` records survives pickling; a working queue, copied from the
 * history by the first `decide` after construction or unpickling, is consumed one record per
 * finished sub-loop. `decide` answers: skip this sub-loop, or start it at a given batch index.
 */
module Resume {
  import opened Wrappers

  /** What the queue operations raise before `start` or `canRun` made a queue. */
  const NotStarted := "State not started"

  /**
   * Field 0 of a record. It normally holds a batch index; `imprint` can overwrite it with the
   * Python value `True`, which compares as 1 wherever the index is used.
   */
  datatype Mark = At(n: nat) | TrueMark

  function StartIndex(m: Mark): nat
  {
    match m
    case At(n) => n
    case TrueMark => 1
  }

  datatype Record = Record(numb: Mark, ended: bool)

  /** What `decide`/`canRun` return: `None` (skip the sub-loop) or the batch to start from. */
  datatype Decision = Skip | StartAt(start: Mark)

  /** The two lists of a `LoopsState`; `pop == None` until a working copy is made. */
  datatype LoopsValue = LoopsValue(numbArray: seq<Record>, pop: Option<seq<Record>>)

  /** The working queue is always what is left of the history after dropping some leading records. */
  ghost predicate WellFormed(v: LoopsValue)
  {
    v.pop.Some? ==> |v.pop.value| <= |v.numbArray| && v.pop.value == v.numbArray[|v.numbArray| - |v.pop.value|..]
  }

  function Fresh(): (v: LoopsValue)
    ensures WellFormed(v)
  {
    LoopsValue([], None)
  }

  /** `__setstate__(__getstate__())`: the history survives, the working queue is dropped. */
  function Reload(v: LoopsValue): (r: LoopsValue)
    ensures WellFormed(r) && r.numbArray == v.numbArray && r.pop.None?
  {
    LoopsValue(v.numbArray, None)
  }

  function WithWorkingCopy(v: LoopsValue): (r: LoopsValue)
    requires WellFormed(v)
    ensures WellFormed(r) && r.numbArray == v.numbArray && r.pop.Some?
    ensures v.pop.Some? ==> r == v
  {
    if v.pop.None? then LoopsValue(v.numbArray, Some(v.numbArray)) else v
  }

  /** `canRun`: the answer together with the state it leaves. */
  function CanRunOn(v: LoopsValue): (r: Result<(Decision, LoopsValue)>)
    requires WellFormed(v)
    ensures r.Err? <==> v.pop.None?
    ensures r.Err? ==> r.error == Rejected(NotStarted)
    ensures r.Ok? ==> WellFormed(r.value.1) && r.value.1.numbArray == v.numbArray
    ensures r.Ok? && r.value.0.Skip? ==> v.pop.value != [] && v.pop.value[0].ended
                                         && r.value.1.pop == Some(v.pop.value[1..])
    ensures r.Ok? && r.value.0.StartAt? ==> r.value.1 == v
  {
    if v.pop.None? then Err(Rejected(NotStarted))
    else if |v.pop.value| != 0 then
      var head := v.pop.value[0];
      if head.ended then Ok((Skip, LoopsValue(v.numbArray, Some(v.pop.value[1..]))))
      else Ok((StartAt(head.numb), v))
    else Ok((StartAt(At(0)), v))
  }

  /** `decide`: make the working copy if there is none, then `canRun`. It never raises. */
  function DecideOn(v: LoopsValue): (r: (Decision, LoopsValue))
    requires WellFormed(v)
    ensures WellFormed(r.1) && r.1.numbArray == v.numbArray && r.1.pop.Some?
  {
    CanRunOn(WithWorkingCopy(v)).value
  }

  /**
   * `imprint(numb, isEnd)`. With one unfinished record left in the queue it overwrites field 0
   * of the FIRST history record, first with `numb` and then with `True`; with an empty queue it
   * appends `[numb, isEnd]`; otherwise it does nothing. `len(None)` raises a `TypeError`.
   */
  function ImprintOn(v: LoopsValue, numb: Mark, isEnd: bool): (r: Result<LoopsValue>)
    requires WellFormed(v)
    ensures r.Err? <==> v.pop.None?
    ensures r.Err? ==> r.error == TypeError
    ensures r.Ok? ==> WellFormed(r.value)
    ensures r.Ok? ==> |v.numbArray| <= |r.value.numbArray| <= |v.numbArray| + 1
    // no existing record ever becomes (or stops being) ended
    ensures r.Ok? ==> forall i :: 0 <= i < |v.numbArray| ==> r.value.numbArray[i].ended == v.numbArray[i].ended
    ensures r.Ok? && |r.value.numbArray| == |v.numbArray| + 1 ==>
              r.value.numbArray == v.numbArray + [Record(numb, isEnd)]
  {
    if v.pop.None? then Err(TypeError)
    else if |v.pop.value| == 1 && !v.pop.value[0].ended then
      var first := v.numbArray[0];
      var once := v.numbArray[0 := Record(numb, first.ended)];
      Ok(LoopsValue(once[0 := Record(TrueMark, once[0].ended)], Some([])))
    else if |v.pop.value| == 0 then
      Ok(LoopsValue(v.numbArray + [Record(numb, isEnd)], Some([])))
    else Ok(v)
  }

  function Clear(v: LoopsValue): (r: LoopsValue)
    ensures r == Fresh()
  {
    LoopsValue([], None)
  }

  class LoopsState {
    var numbArray: seq<Record>
    var popNumbArray: Option<seq<Record>>

    function Value(): LoopsValue
      reads this
    {
      LoopsValue(numbArray, popNumbArray)
    }

    ghost predicate Valid()
      reads this
    {
      WellFormed(Value())
    }

    constructor ()
      ensures Valid() && Value() == Fresh()
    {
      numbArray := [];
      popNumbArray := None;
    }

    /** `__getstate__`: the pickled state is the history alone. */
    method GetState() returns (state: seq<Record>)
      ensures state == numbArray
    {
      state := numbArray;
    }

    /** `__setstate__`: restore the history and drop the working queue. */
    method SetState(state: seq<Record>)
      modifies this
      ensures Valid() && Value() == LoopsValue(state, None)
    {
      numbArray := state;
      popNumbArray := None;
    }

    method Imprint(numb: Mark, isEnd: bool) returns (err: Option<Raised>)
      requires Valid()
      modifies this
      ensures Valid()
      ensures var r := ImprintOn(old(Value()), numb, isEnd);
              if r.Ok? then err.None? && Value() == r.value
              else err == Some(r.error) && Value() == old(Value())
    {
      if popNumbArray.None? {
        return Some(TypeError);
      }
      var pop := popNumbArray.value;
      if |pop| == 1 && !pop[0].ended {
        numbArray := numbArray[0 := Record(numb, numbArray[0].ended)];
        numbArray := numbArray[0 := Record(TrueMark, numbArray[0].ended)];
        popNumbArray := Some([]);
      } else if |pop| == 0 {
        numbArray := numbArray + [Record(numb, isEnd)];
        popNumbArray := Some([]);
      }
      err := None;
    }

    method Clear()
      modifies this
      ensures Valid() && Value() == Fresh()
    {
      popNumbArray := None;
      numbArray := [];
    }

    method TryCreateNew()
      requires Valid()
      modifies this
      ensures Valid() && Value() == WithWorkingCopy(old(Value()))
    {
      if popNumbArray.None? {
        popNumbArray := Some(numbArray);
      }
    }

    method CanRun() returns (r: Result<Decision>)
      requires Valid()
      modifies this
      ensures Valid()
      ensures var c := CanRunOn(old(Value()));
              if c.Ok? then r == Ok(c.value.0) && Value() == c.value.1
              else r == Err(c.error) && Value() == old(Value())
    {
      if popNumbArray.None? {
        return Err(Rejected(NotStarted));
      }
      var pop := popNumbArray.value;
      if |pop| != 0 {
        var head := pop[0];
        if head.ended {
          popNumbArray := Some(pop[1..]);
          return Ok(Skip);
        } else {
          return Ok(StartAt(head.numb));
        }
      } else {
        return Ok(StartAt(At(0)));
      }
    }

    method Decide() returns (d: Decision)
      requires Valid()
      modifies this
      ensures Valid()
      ensures (d, Value()) == DecideOn(old(Value()))
    {
      TryCreateNew();
      var r := CanRun();
      d := r.value;
    }
  }

  /** One call on a `LoopsState` within a single process (no pickling in between). */
  datatype Op = DecideOp | ImprintOp(numb: Mark, isEnd: bool)

  datatype Run = Run(decisions: seq<Decision>, final: Result<LoopsValue>)

  /** The answers of every `decide` in `ops`, stopping at the first call that raises. */
  function RunOps(v: LoopsValue, ops: seq<Op>): Run
    requires WellFormed(v)
    decreases |ops|
  {
    if |ops| == 0 then Run([], Ok(v))
    else match ops[0]
      case DecideOp =>
        var (d, v1) := DecideOn(v);
        var rest := RunOps(v1, ops[1..]);
        Run([d] + rest.decisions, rest.final)
      case ImprintOp(numb, isEnd) =>
        var r := ImprintOn(v, numb, isEnd);
        if r.Err? then Run([], Err(r.error)) else RunOps(r.value, ops[1..])
  }

  /**
   * Within one process, a state whose working queue is exhausted (or that was never filled, with
   * an empty history) answers "start at 0" to every `decide`, whatever is imprinted meanwhile.
   */
  lemma {:induction false} NoResumeWithinOneProcess(v: LoopsValue, ops: seq<Op>)
    requires WellFormed(v)
    requires v.pop == Some([]) || (v.pop.None? && v.numbArray == [])
    ensures forall i :: 0 <= i < |RunOps(v, ops).decisions| ==> RunOps(v, ops).decisions[i] == StartAt(At(0))
    decreases |ops|
  {
    if |ops| > 0 {
      match ops[0]
      case DecideOp =>
        var (d, v1) := DecideOn(v);
        assert d == StartAt(At(0)) && v1.pop == Some([]);
        NoResumeWithinOneProcess(v1, ops[1..]);
        DecideThenRest(v, ops);
      case ImprintOp(numb, isEnd) =>
        var r := ImprintOn(v, numb, isEnd);
        if r.Ok? {
          assert r.value.pop == Some([]);
          NoResumeWithinOneProcess(r.value, ops[1..]);
          assert RunOps(v, ops) == RunOps(r.value, ops[1..]);
        } else {
          assert RunOps(v, ops).decisions == [];
        }
    }
  }

  /** A leading `decide` puts its answer before those of the rest. */
  lemma RunOpsDecide(v: LoopsValue, ops: seq<Op>)
    requires WellFormed(v) && |ops| > 0 && ops[0].DecideOp?
    ensures RunOps(v, ops).decisions == [DecideOn(v).0] + RunOps(DecideOn(v).1, ops[1..]).decisions
  {
  }

  /** A leading `decide` answering 0, followed by answers that are all 0, gives answers that are all 0. */
  lemma DecideThenRest(v: LoopsValue, ops: seq<Op>)
    requires WellFormed(v) && |ops| > 0 && ops[0].DecideOp? && DecideOn(v).0 == StartAt(At(0))
    requires forall i :: 0 <= i < |RunOps(DecideOn(v).1, ops[1..]).decisions| ==>
                         RunOps(DecideOn(v).1, ops[1..]).decisions[i] == StartAt(At(0))
    ensures forall i :: 0 <= i < |RunOps(v, ops).decisions| ==> RunOps(v, ops).decisions[i] == StartAt(At(0))
  {
    RunOpsDecide(v, ops);
    ZeroBeforeZeros(DecideOn(v).0, RunOps(DecideOn(v).1, ops[1..]).decisions);
  }

  /** An answer 0 put before answers that are all 0. */
  lemma ZeroBeforeZeros(d: Decision, rest: seq<Decision>)
    requires d == StartAt(At(0)) && forall i :: 0 <= i < |rest| ==> rest[i] == StartAt(At(0))
    ensures forall i :: 0 <= i < |[d] + rest| ==> ([d] + rest)[i] == StartAt(At(0))
  {
    forall i | 0 <= i < |[d] + rest|
      ensures ([d] + rest)[i] == StartAt(At(0))
    {
      if i > 0 {
        assert ([d] + rest)[i] == rest[i - 1];
      }
    }
  }

  /** A fresh and a cleared `LoopsState` both answer 0 to every `decide` of the process. */
  lemma FreshAndClearedStartAtZero(v: LoopsValue, ops: seq<Op>)
    ensures forall i :: 0 <= i < |RunOps(Fresh(), ops).decisions| ==> RunOps(Fresh(), ops).decisions[i] == StartAt(At(0))
    ensures Clear(v) == Fresh()
  {
    NoResumeWithinOneProcess(Fresh(), ops);
  }

  /** `n` consecutive `decide` calls: their answers and the state they leave. */
  function DecideN(v: LoopsValue, n: nat): (seq<Decision>, LoopsValue)
    requires WellFormed(v)
    ensures WellFormed(DecideN(v, n).1) && |DecideN(v, n).0| == n
    decreases n
  {
    if n == 0 then ([], v)
    else
      var (d, v1) := DecideOn(v);
      var (ds, v2) := DecideN(v1, n - 1);
      ([d] + ds, v2)
  }

  /** The working copy is made lazily, so `decide` behaves as if it had been copied at once. */
  lemma {:induction false} LazyCopy(h: seq<Record>, n: nat)
    ensures DecideN(LoopsValue(h, None), n).0 == DecideN(LoopsValue(h, Some(h)), n).0
    ensures DecideOn(DecideN(LoopsValue(h, None), n).1) == DecideOn(DecideN(LoopsValue(h, Some(h)), n).1)
  {
    var lazy, eager := LoopsValue(h, None), LoopsValue(h, Some(h));
    assert DecideOn(lazy) == DecideOn(eager);
    if n > 0 {
      LazyCopyState(h, n);
    }
  }

  /** The queue form of the replay: skipping `k` finished records from a queue suffix of `h`. */
  lemma {:induction false} ReplayQueue(h: seq<Record>, q: seq<Record>, k: nat)
    requires WellFormed(LoopsValue(h, Some(q)))
    requires k <= |q|
    requires forall i :: 0 <= i < k ==> q[i].ended
    ensures DecideN(LoopsValue(h, Some(q)), k).0 == seq(k, i => Skip)
    ensures DecideN(LoopsValue(h, Some(q)), k).1 == LoopsValue(h, Some(q[k..]))
    decreases k
  {
    if k > 0 {
      var v := LoopsValue(h, Some(q));
      var (d, v1) := DecideOn(v);
      assert d == Skip && v1 == LoopsValue(h, Some(q[1..]));
      ReplayQueue(h, q[1..], k - 1);
      assert q[1..][k - 1..] == q[k..];
      assert DecideN(v, k).0 == [Skip] + seq(k - 1, i => Skip);
    }
  }

  /** After the skips, the next `decide` resumes the first unfinished record, or starts at 0. */
  lemma ReplayThenStart(h: seq<Record>, k: nat)
    requires k <= |h|
    requires forall i :: 0 <= i < k ==> h[i].ended
    requires k < |h| ==> !h[k].ended
    ensures var (ds, v) := DecideN(LoopsValue(h, None), k);
            ds == seq(k, i => Skip)
            && DecideOn(v).0 == (if k < |h| then StartAt(h[k].numb) else StartAt(At(0)))
  {
    LazyCopy(h, k);
    assert h[|h| - |h|..] == h;
    ReplayQueue(h, h, k);
    DecideOnSuffix(h, k);
  }

  /** `decide` on the queue of the records from `k` on: resume record `k`, or start at 0 when none is left. */
  lemma DecideOnSuffix(h: seq<Record>, k: nat)
    requires k <= |h| && (k < |h| ==> !h[k].ended)
    ensures WellFormed(LoopsValue(h, Some(h[k..])))
    ensures DecideOn(LoopsValue(h, Some(h[k..]))).0 == if k < |h| then StartAt(h[k].numb) else StartAt(At(0))
  {
    if k < |h| {
      assert h[k..][0] == h[k];
    } else {
      assert h[k..] == [];
    }
  }

  /**
   * The consequence of `imprint` writing into the first history record: when the resumed loop
   * is the last record and then finishes, that record stays unfinished. Once pickled and reloaded
   * the same record is resumed again, from its old index when other records precede it, and
   * from batch 1 (`True`) when it is the only one.
   */
  lemma ResumedLoopIsResumedAgain(h: seq<Record>, k: nat, numb: Mark, isEnd: bool)
    requires k + 1 == |h|
    requires forall i :: 0 <= i < k ==> h[i].ended
    requires !h[k].ended
    ensures ImprintOn(DecideN(LoopsValue(h, None), k + 1).1, numb, isEnd)
            == Ok(LoopsValue(h[0 := Record(TrueMark, h[0].ended)], Some([])))
    ensures DecideN(LoopsValue(h[0 := Record(TrueMark, h[0].ended)], None), k).0 == seq(k, i => Skip)
    ensures DecideOn(DecideN(LoopsValue(h[0 := Record(TrueMark, h[0].ended)], None), k).1).0
            == StartAt(if k == 0 then TrueMark else h[k].numb)
  {
    ResumedLoopImprint(h, k, numb, isEnd);
    RestartAfterImprint(h, k);
  }

  /** After the restart the records before the rewritten one are skipped and it is resumed. */
  lemma RestartAfterImprint(h: seq<Record>, k: nat)
    requires k + 1 == |h|
    requires forall i :: 0 <= i < k ==> h[i].ended
    requires !h[k].ended
    ensures DecideN(LoopsValue(h[0 := Record(TrueMark, h[0].ended)], None), k).0 == seq(k, i => Skip)
    ensures DecideOn(DecideN(LoopsValue(h[0 := Record(TrueMark, h[0].ended)], None), k).1).0
            == StartAt(if k == 0 then TrueMark else h[k].numb)
  {
    var h2 := h[0 := Record(TrueMark, h[0].ended)];
    assert forall i :: 0 <= i < k ==> h2[i].ended;
    assert !h2[k].ended && h2[k].numb == if k == 0 then TrueMark else h[k].numb;
    ReplayThenStart(h2, k);
  }

  /** The `imprint` after resuming the last record rewrites field 0 of the first record to `True`. */
  lemma ResumedLoopImprint(h: seq<Record>, k: nat, numb: Mark, isEnd: bool)
    requires k + 1 == |h|
    requires forall i :: 0 <= i < k ==> h[i].ended
    requires !h[k].ended
    ensures ImprintOn(DecideN(LoopsValue(h, None), k + 1).1, numb, isEnd)
            == Ok(LoopsValue(h[0 := Record(TrueMark, h[0].ended)], Some([])))
  {
    ResumeAfterReplay(h, k);
    ImprintLastQueued(h, numb, isEnd);
  }

  /** `imprint` with only the last, unfinished record queued writes `True` into the first record. */
  lemma ImprintLastQueued(h: seq<Record>, numb: Mark, isEnd: bool)
    requires |h| > 0 && !h[|h| - 1].ended
    ensures WellFormed(LoopsValue(h, Some([h[|h| - 1]])))
    ensures ImprintOn(LoopsValue(h, Some([h[|h| - 1]])), numb, isEnd)
            == Ok(LoopsValue(h[0 := Record(TrueMark, h[0].ended)], Some([])))
  {
    assert h[|h| - 1..] == [h[|h| - 1]];
    var once := h[0 := Record(numb, h[0].ended)];
    assert once[0 := Record(TrueMark, once[0].ended)] == h[0 := Record(TrueMark, h[0].ended)];
  }

  /** Replaying the finished records and resuming the last one leaves only that one queued. */
  lemma ResumeAfterReplay(h: seq<Record>, k: nat)
    requires k + 1 == |h|
    requires forall i :: 0 <= i < k ==> h[i].ended
    requires !h[k].ended
    ensures DecideN(LoopsValue(h, None), k + 1).1 == LoopsValue(h, Some([h[k]]))
  {
    ReplayQueue(h, h, k);
    var vk := LoopsValue(h, Some(h[k..]));
    assert h[k..] == [h[k]];
    assert DecideOn(vk) == (StartAt(h[k].numb), vk);
    DecideNStep(LoopsValue(h, Some(h)), k);
    LazyCopyState(h, k + 1);
  }

  /** After at least one `decide` the lazily and the eagerly copied states coincide. */
  lemma LazyCopyState(h: seq<Record>, n: nat)
    requires 0 < n
    ensures DecideN(LoopsValue(h, None), n) == DecideN(LoopsValue(h, Some(h)), n)
  {
    var lazy, eager := LoopsValue(h, None), LoopsValue(h, Some(h));
    assert WithWorkingCopy(lazy) == eager;
    assert WithWorkingCopy(eager) == eager;
    var step := DecideOn(eager);
    assert DecideOn(lazy) == step;
    var rest := DecideN(step.1, n - 1);
    assert DecideN(lazy, n) == ([step.0] + rest.0, rest.1);
    assert DecideN(eager, n) == ([step.0] + rest.0, rest.1);
  }

  /** One more `decide` after `n` of them. */
  lemma {:induction false} DecideNStep(v: LoopsValue, n: nat)
    requires WellFormed(v)
    ensures DecideN(v, n + 1).1 == DecideOn(DecideN(v, n).1).1
    decreases n
  {
    if n > 0 {
      DecideNStep(DecideOn(v).1, n - 1);
    }
  }

  /**
   * The first unit test, up to the pickle round trip: after the first decide (0, see
   * `FreshAndClearedStartAtZero`), imprint (64, ended) and imprint (32, unfinished).
   */
  lemma UnitTestImprints()
    ensures ImprintOn(LoopsValue([], Some([])), At(64), true) == Ok(LoopsValue([Record(At(64), true)], Some([])))
    ensures ImprintOn(LoopsValue([Record(At(64), true)], Some([])), At(32), false)
            == Ok(LoopsValue([Record(At(64), true), Record(At(32), false)], Some([])))
  {
    assert [Record(At(64), true)] + [Record(At(32), false)] == [Record(At(64), true), Record(At(32), false)];
    assert [] + [Record(At(64), true)] == [Record(At(64), true)];
  }

  /** The first unit test after the round trip: skip the finished loop, resume the other at 32. */
  lemma UnitTestResume()
    ensures DecideN(LoopsValue([Record(At(64), true), Record(At(32), false)], None), 2).0 == [Skip, StartAt(At(32))]
  {
    var h := [Record(At(64), true), Record(At(32), false)];
    var v1 := LoopsValue(h, Some([h[1]]));
    assert DecideOn(LoopsValue(h, None)) == (Skip, v1);
    assert DecideOn(v1) == (StartAt(At(32)), v1);
    assert DecideN(v1, 1).0 == [StartAt(At(32))];
  }

  /** The second unit test: with (32, ended) instead, skip, skip and then 0. */
  lemma UnitTestAllFinished()
    ensures ImprintOn(LoopsValue([Record(At(64), true)], Some([])), At(32), true)
            == Ok(LoopsValue([Record(At(64), true), Record(At(32), true)], Some([])))
    ensures DecideN(LoopsValue([Record(At(64), true), Record(At(32), true)], None), 3).0 == [Skip, Skip, StartAt(At(0))]
  {
    var h := [Record(At(64), true), Record(At(32), true)];
    assert [Record(At(64), true)] + [Record(At(32), true)] == h;
    var v1 := LoopsValue(h, Some([h[1]]));
    var v2 := LoopsValue(h, Some([]));
    assert DecideOn(LoopsValue(h, None)) == (Skip, v1);
    assert DecideOn(v1) == (Skip, v2);
    assert DecideOn(v2) == (StartAt(At(0)), v2);
    assert DecideN(v2, 1).0 == [StartAt(At(0))];
    assert DecideN(v1, 2).0 == [Skip, StartAt(At(0))];
  }
}
