/**
 * `BaseSampler`: the data indices still to visit in an epoch resumed at batch `startIndex`,
 * shuffled with a seeded generator. The generator is not modelled: its draws are an input,
 * consumed the way `random.shuffle` consumes them (swap position `i` with a drawn position at
 * most `i`, from the last position down to position 1).
 */
module Sampler {
  /** The integers `lo, lo + 1, …, hi - 1`: Python's `range(lo, hi)`. */
  function Range(lo: int, hi: int): (r: seq<int>)
    ensures |r| == if lo < hi then hi - lo else 0
    decreases hi - lo
  {
    if lo >= hi then [] else [lo] + Range(lo + 1, hi)
  }

  /** Where `list[start:]` begins in a list of length `n`; a negative start counts from the end. */
  function SliceStart(n: nat, start: int): (lo: nat)
    ensures lo <= n
    ensures start >= 0 ==> lo == if start < n then start else n
    ensures start < 0 ==> lo == if n + start > 0 then n + start else 0
  {
    if start >= 0 then (if start < n then start else n)
    else if n + start > 0 then n + start else 0
  }

  /** `list(range(dataSize))[startIndex * batchSize:]` before shuffling. */
  function Remaining(dataSize: int, batchSize: int, startIndex: int): seq<int>
  {
    var n := if dataSize > 0 then dataSize else 0;
    Range(SliceStart(n, startIndex * batchSize), n)
  }

  /** Every integer of `[lo, hi)` occurs exactly once in `Range(lo, hi)`, and nothing else. */
  lemma {:induction false} RangeOnce(lo: int, hi: int, x: int)
    ensures multiset(Range(lo, hi))[x] == if lo <= x < hi then 1 else 0
    decreases hi - lo
  {
    if lo < hi {
      RangeOnce(lo + 1, hi, x);
      assert multiset(Range(lo, hi)) == multiset{lo} + multiset(Range(lo + 1, hi));
    }
  }

  /**
   * The indices left after skipping `startIndex` batches of `batchSize`: each index of the data
   * from the resume point on appears exactly once.
   */
  lemma RemainingIndices(dataSize: nat, batchSize: nat, startIndex: nat, x: int)
    ensures multiset(Remaining(dataSize, batchSize, startIndex))[x] ==
            if startIndex * batchSize <= x < dataSize then 1 else 0
    ensures |Remaining(dataSize, batchSize, startIndex)| ==
            if startIndex * batchSize < dataSize then dataSize - startIndex * batchSize else 0
  {
    var start := startIndex * batchSize;
    var lo := SliceStart(dataSize, start);
    assert lo == if start < dataSize then start else dataSize;
    assert Remaining(dataSize, batchSize, startIndex) == Range(lo, dataSize);
    RangeOnce(lo, dataSize, x);
  }

  /** `s` with the items at `i` and `j` exchanged. */
  function Swap<T>(s: seq<T>, i: nat, j: nat): (r: seq<T>)
    requires i < |s| && j < |s|
    ensures |r| == |s| && multiset(r) == multiset(s)
    ensures r[i] == s[j] && r[j] == s[i] && forall k :: 0 <= k < |s| && k != i && k != j ==> r[k] == s[k]
  {
    var r := s[i := s[j]][j := s[i]];
    assert multiset(s[i := s[j]]) == multiset(s) - multiset{s[i]} + multiset{s[j]};
    r
  }

  /** The draws `random.shuffle` needs for `n` items: one per position `n - 1` down to 1. */
  ghost predicate DrawsFit(n: nat, draws: seq<int>)
  {
    |draws| == (if n > 0 then n - 1 else 0) && forall k :: 0 <= k < |draws| ==> 0 <= draws[k] <= n - 1 - k
  }

  /** `random.shuffle` with the given draws: the result is a permutation of `s`. */
  method Shuffle<T>(s: seq<T>, draws: seq<int>) returns (t: seq<T>)
    requires DrawsFit(|s|, draws)
    ensures |t| == |s| && multiset(t) == multiset(s)
  {
    t := s;
    var k := 0;
    while k < |draws|
      invariant 0 <= k <= |draws|
      invariant |t| == |s| && multiset(t) == multiset(s)
    {
      t := Swap(t, |s| - 1 - k, draws[k]);
      k := k + 1;
    }
  }

  class BaseSampler {
    var sequence: seq<int>

    /** The remaining indices of the epoch, shuffled. */
    constructor (dataSize: int, batchSize: int, startIndex: int, draws: seq<int>)
      requires DrawsFit(|Remaining(dataSize, batchSize, startIndex)|, draws)
      ensures multiset(sequence) == multiset(Remaining(dataSize, batchSize, startIndex))
    {
      var shuffled := Shuffle(Remaining(dataSize, batchSize, startIndex), draws);
      sequence := shuffled;
    }

    /** `__len__`. */
    method Len() returns (n: nat)
      ensures n == |sequence|
    {
      n := |sequence|;
    }

    /** `__iter__`: the indices in their shuffled order. */
    method Iterate() returns (indices: seq<int>)
      ensures indices == sequence
    {
      indices := sequence;
    }
  }

  /**
   * A sampler resumed at batch `startIndex` visits each index from `startIndex * batchSize` on
   * exactly once, in some order, and no earlier index.
   */
  method ResumedSampler(dataSize: nat, batchSize: nat, startIndex: nat, draws: seq<int>) returns (indices: seq<int>)
    requires DrawsFit(|Remaining(dataSize, batchSize, startIndex)|, draws)
    ensures forall x :: multiset(indices)[x] == if startIndex * batchSize <= x < dataSize then 1 else 0
  {
    var sampler := new BaseSampler(dataSize, batchSize, startIndex, draws);
    indices := sampler.Iterate();
    forall x
      ensures multiset(indices)[x] == if startIndex * batchSize <= x < dataSize then 1 else 0
    {
      RemainingIndices(dataSize, batchSize, startIndex, x);
    }
  }
}
