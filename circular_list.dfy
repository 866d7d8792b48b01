/**
 * The fixed-capacity ring buffer `CircularList` of the main framework file: a push overwrites
 * the oldest slot once the buffer is full, iteration yields the newest item first, and
 * `getAverage(startAt)` averages the items after skipping the `startAt` newest ones.
 */
module Circular {
  import opened Wrappers
  import opened Sums

  function Min(a: nat, b: nat): nat { if a < b then a else b }

  /** The last `k` items of `s`, oldest first. */
  function LastN<T>(s: seq<T>, k: nat): seq<T>
    requires k <= |s|
  {
    s[|s| - k..]
  }

  /** The slots in the order they were written: the oldest retained item first. */
  function Chronological<T>(slots: seq<T>, index: nat): seq<T>
    requires index <= |slots|
  {
    slots[index..] + slots[..index]
  }

  /**
   * The ring invariant on plain values: while filling, the write index is the length; once
   * full, reading from the write index onwards gives the retained items oldest first, and
   * those are the last min(n, capacity) of everything pushed.
   */
  ghost predicate RingState<T>(slots: seq<T>, index: nat, capacity: nat, pushed: seq<T>)
  {
    && index <= |slots| <= capacity
    && (|slots| < capacity ==> index == |slots|)
    && (0 < capacity ==> index < capacity)
    && |slots| == Min(|pushed|, capacity)
    && Chronological(slots, index) == LastN(pushed, |slots|)
  }

  /** The slots after the source's `del array[i]` (when i < len) and `insert(i, x)`. */
  function Overwrite<T>(slots: seq<T>, index: nat, x: T): (r: seq<T>)
    requires index <= |slots|
    ensures index < |slots| ==> r == slots[index := x]
    ensures index == |slots| ==> r == slots + [x]
  {
    var rest := if index < |slots| then slots[..index] + slots[index + 1..] else slots;
    rest[..index] + [x] + rest[index..]
  }

  lemma PushKeepsRing<T>(slots: seq<T>, index: nat, capacity: nat, pushed: seq<T>, x: T)
    requires RingState(slots, index, capacity, pushed) && 0 < capacity
    ensures RingState(Overwrite(slots, index, x), (index + 1) % capacity, capacity, pushed + [x])
  {
    if |slots| < capacity {
      PushWhileFilling(slots, index, capacity, pushed, x);
    } else {
      PushWhenFull(slots, index, capacity, pushed, x);
    }
  }

  /** While filling, a push appends and the write index follows the length (or wraps to 0). */
  lemma PushWhileFilling<T>(slots: seq<T>, index: nat, capacity: nat, pushed: seq<T>, x: T)
    requires RingState(slots, index, capacity, pushed) && 0 < capacity && |slots| < capacity
    ensures RingState(Overwrite(slots, index, x), (index + 1) % capacity, capacity, pushed + [x])
  {
    // while filling, the slots are everything pushed so far
    assert index == |slots| == |pushed|;
    assert slots == Chronological(slots, index) == LastN(pushed, |slots|) == pushed;
    var b := Overwrite(slots, index, x);
    assert b == pushed + [x];
    assert LastN(pushed + [x], |b|) == b;
    var next := (index + 1) % capacity;
    if next == 0 {
      assert Chronological(b, next) == b;
    } else {
      assert next == |b|;
      assert Chronological(b, next) == b;
    }
  }

  /** Once full, a push overwrites the oldest slot and the write index moves on, wrapping. */
  lemma PushWhenFull<T>(slots: seq<T>, index: nat, capacity: nat, pushed: seq<T>, x: T)
    requires RingState(slots, index, capacity, pushed) && 0 < capacity && |slots| == capacity
    ensures RingState(Overwrite(slots, index, x), (index + 1) % capacity, capacity, pushed + [x])
  {
    var b := Overwrite(slots, index, x);
    var next := (index + 1) % capacity;
    OverwriteShifts(slots, index, x, next);
    assert LastN(pushed + [x], |b|) == LastN(pushed, |slots|)[1..] + [x];
  }

  class CircularList<T> {
    var slots: seq<T>
    var arrayIndex: nat
    var arrayMax: nat
    /** Everything pushed since construction or the last `Reset`, oldest first. */
    ghost var pushed: seq<T>

    ghost predicate Valid()
      reads this
    {
      RingState(slots, arrayIndex, arrayMax, pushed)
    }

    /** The order in which the source's iterator visits the slots. */
    function Items(): seq<T>
      reads this
      requires arrayIndex <= |slots|
    {
      Reverse(slots[..arrayIndex]) + Reverse(slots[arrayIndex..])
    }

    constructor (maxCapacity: nat)
      ensures Valid() && arrayMax == maxCapacity
      ensures slots == [] && arrayIndex == 0 && pushed == []
    {
      slots := [];
      arrayIndex := 0;
      arrayMax := maxCapacity;
      pushed := [];
    }

    /** Retention: iteration yields the last min(n, arrayMax) pushed items, newest first. */
    lemma ItemsAreNewestFirst()
      requires Valid()
      ensures Items() == Reverse(LastN(pushed, |slots|))
      ensures |Items()| == Min(|pushed|, arrayMax)
    {
      ReverseConcat(slots[arrayIndex..], slots[..arrayIndex]);
      assert Reverse(LastN(pushed, |slots|)) == Reverse(Chronological(slots, arrayIndex));
    }

    method PushBack(number: T)
      requires Valid() && 0 < arrayMax
      modifies this
      ensures Valid() && arrayMax == old(arrayMax)
      ensures pushed == old(pushed) + [number]
      ensures |old(slots)| < arrayMax ==> slots == old(slots) + [number]
      ensures |old(slots)| == arrayMax ==> slots == old(slots)[old(arrayIndex) := number]
      ensures arrayIndex == (old(arrayIndex) + 1) % arrayMax
    {
      PushKeepsRing(slots, arrayIndex, arrayMax, pushed, number);
      slots := Overwrite(slots, arrayIndex, number);
      arrayIndex := (1 + arrayIndex) % arrayMax;
      pushed := pushed + [number];
    }

    method Reset()
      modifies this
      ensures Valid() && arrayMax == old(arrayMax)
      ensures slots == [] && arrayIndex == 0 && pushed == []
    {
      slots := [];
      arrayIndex := 0;
      pushed := [];
    }

    method Len() returns (n: nat)
      requires Valid()
      ensures n == Min(|pushed|, arrayMax)
    {
      n := |slots|;
    }

    /** Step `k` of the iteration reads the slot `VisitedSlot` names. */
    lemma ItemAt(k: nat)
      requires arrayIndex <= |slots| && k < |slots|
      ensures Items()[k] == slots[VisitedSlot(arrayIndex, |slots|, k)]
    {
    }

    /** The source's iterator: the slots in the order of `IterationIndices`. */
    method Iterate() returns (items: seq<T>)
      requires Valid()
      ensures items == Reverse(LastN(pushed, |slots|))
      ensures |items| == Min(|pushed|, arrayMax)
    {
      var indexArray := IterationIndices(arrayIndex, |slots|);
      ghost var all := Items();
      items := [];
      var k := 0;
      while k < |indexArray|
        invariant 0 <= k <= |indexArray| == |all|
        invariant items == all[..k]
      {
        ItemAt(k);
        assert slots[indexArray[k]] == all[k];
        items := items + [slots[indexArray[k]]];
        assert items == all[..k + 1];
        k := k + 1;
      }
      assert items == all;
      ItemsAreNewestFirst();
    }
  }

  /** The slot read at step `j` of an iteration over `len` slots with write index `index`. */
  function VisitedSlot(index: nat, len: nat, j: nat): (r: nat)
    requires index <= len && j < len
    ensures r < len
  {
    if j < index then index - 1 - j else len - 1 - (j - index)
  }

  /** The iterator's index list: `index - 1` down to 0, then `len - 1` down to `index`. */
  method IterationIndices(index: nat, len: nat) returns (indexArray: seq<nat>)
    requires index <= len
    ensures |indexArray| == len
    ensures forall j :: 0 <= j < len ==> indexArray[j] == VisitedSlot(index, len, j)
  {
    indexArray := [];
    var i := index;
    while i > 0
      invariant 0 <= i <= index
      invariant |indexArray| == index - i
      invariant forall j :: 0 <= j < |indexArray| ==> indexArray[j] == index - 1 - j
    {
      i := i - 1;
      indexArray := indexArray + [i];
    }
    var h := len;
    while h > index
      invariant index <= h <= len
      invariant |indexArray| == index + (len - h)
      invariant forall j :: 0 <= j < index ==> indexArray[j] == index - 1 - j
      invariant forall j :: index <= j < |indexArray| ==> indexArray[j] == len - 1 - (j - index)
    {
      h := h - 1;
      indexArray := indexArray + [h];
    }
  }

  /** Overwriting the oldest slot of a full ring drops the oldest item and appends the new one. */
  lemma OverwriteShifts<T>(a: seq<T>, i: nat, x: T, next: nat)
    requires i < |a|
    requires next == (i + 1) % |a|
    ensures a[i := x][next..] + a[i := x][..next] == (a[i..] + a[..i])[1..] + [x]
  {
    var b := a[i := x];
    if i + 1 < |a| {
      assert next == i + 1;
      assert b[next..] == a[i + 1..];
      assert b[..next] == a[..i] + [x];
    } else {
      assert next == 0;
      assert b[..next] == [];
      assert b == a[..i] + [x];
      assert a[i..] == [a[i]];
    }
  }

  /**
   * What `getAverage(startAt)` returns for the items in iteration order. `None` stands for the
   * `TypeError` raised when a negative `startAt` meets an empty buffer.
   */
  function AverageFrom(items: seq<real>, startAt: int): Option<real>
  {
    if startAt == 0 then Some(if |items| == 0 then 0.0 else Sum(items) / (|items| as real))
    else if |items| <= startAt then Some(0.0)
    else if 0 < startAt then Some(Sum(items[startAt..]) / ((|items| - startAt) as real))
    else if |items| == 0 then None
    else Some((items[0] + Sum(items)) / ((|items| - startAt) as real))
  }

  /** `getAverage`: the mean over the buffer after skipping the `startAt` newest items. */
  method GetAverage(c: CircularList<real>, startAt: int) returns (r: Option<real>)
    requires c.Valid()
    ensures r == AverageFrom(Reverse(LastN(c.pushed, |c.slots|)), startAt)
  {
    var items := c.Iterate();
    ArraySumIsItemSum(c);
    r := AverageOver(c.slots, items, startAt);
  }

  /** Python's `sum` over a list, left to right. */
  method SumOf(s: seq<real>) returns (total: real)
    ensures total == Sum(s)
  {
    total := 0.0;
    var i := 0;
    while i < |s|
      invariant 0 <= i <= |s|
      invariant total == Sum(s[..i])
    {
      SumSnoc(s[..i], s[i]);
      assert s[..i + 1] == s[..i] + [s[i]];
      total := total + s[i];
      i := i + 1;
    }
    assert s[..|s|] == s;
  }

  /** The body of `getAverage`, given the raw slots and the iteration order of the same items. */
  method AverageOver(slots: seq<real>, items: seq<real>, startAt: int) returns (r: Option<real>)
    requires |slots| == |items| && Sum(slots) == Sum(items)
    ensures r == AverageFrom(items, startAt)
  {
    var l := |slots|;
    if startAt == 0 {
      var total := SumOf(slots);
      return Some(if l != 0 then total / (l as real) else 0.0);
    }
    if l <= startAt {
      return Some(0.0);
    }
    r := SkippingAverage(items, startAt);
  }

  /** The two passes of `getAverage` for a non-zero `startAt` below the length. */
  method SkippingAverage(items: seq<real>, startAt: int) returns (r: Option<real>)
    requires startAt != 0 && startAt < |items|
    ensures r == AverageFrom(items, startAt)
  {
    var count := |items| - startAt;
    var tmpSum: Option<real> := None;
    var i := 0;
    while i < |items|
      invariant 0 <= i <= |items|
      invariant tmpSum.None? && (i == 0 || i <= startAt)
    {
      if startAt <= i {
        tmpSum := Some(items[i]);
        break;
      }
      i := i + 1;
    }
    if tmpSum.None? {
      assert |items| == 0;
      return None;
    }
    var first := tmpSum.value;
    var s := first;
    var from := if startAt + 1 < 0 then 0 else startAt + 1;
    var j := from;
    while j < |items|
      invariant from <= j <= |items|
      invariant s == first + Sum(items[from..j])
    {
      SumSnoc(items[from..j], items[j]);
      assert items[from..j + 1] == items[from..j] + [items[j]];
      s := s + items[j];
      j := j + 1;
    }
    assert s == first + Sum(items[from..|items|]);
    AverageTail(items, startAt, first, from);
    r := Some(s / (count as real));
  }

  lemma ArraySumIsItemSum(c: CircularList<real>)
    requires c.Valid()
    ensures Sum(c.slots) == Sum(Reverse(LastN(c.pushed, |c.slots|)))
  {
    c.ItemsAreNewestFirst();
    var a := c.slots;
    var k := c.arrayIndex;
    assert a == a[..k] + a[k..];
    SumConcat(a[..k], a[k..]);
    SumConcat(Reverse(a[..k]), Reverse(a[k..]));
    SumReverse(a[..k]);
    SumReverse(a[k..]);
  }

  lemma AverageTail(items: seq<real>, startAt: int, first: real, from: int)
    requires startAt != 0 && startAt < |items| && 0 < |items|
    requires from == if startAt + 1 < 0 then 0 else startAt + 1
    requires first == items[if startAt < 0 then 0 else startAt]
    ensures AverageFrom(items, startAt)
         == Some((first + Sum(items[from..|items|])) / ((|items| - startAt) as real))
  {
    assert items[from..|items|] == items[from..];
    if 0 < startAt {
      assert items[startAt..] == [items[startAt]] + items[startAt + 1..];
    } else {
      assert items[from..] == items;
    }
  }

  /** The unit-test scenario: capacity 3, pushes 1..5, then averages from 0, 1 and 2. */
  lemma CapacityThreeScenario()
    ensures Reverse(LastN([1.0, 2.0, 3.0, 4.0, 5.0], Min(5, 3))) == [5.0, 4.0, 3.0]
    ensures AverageFrom([5.0, 4.0, 3.0], 0) == Some(4.0)
    ensures AverageFrom([5.0, 4.0, 3.0], 1) == Some(3.5)
    ensures AverageFrom([5.0, 4.0, 3.0], 2) == Some(3.0)
    ensures AverageFrom([10.0], 1) == Some(0.0)
    ensures AverageFrom([], 0) == Some(0.0)
  {
    assert LastN([1.0, 2.0, 3.0, 4.0, 5.0], 3) == [3.0, 4.0, 5.0];
    assert [5.0, 4.0, 3.0][1..] == [4.0, 3.0];
    assert [5.0, 4.0, 3.0][2..] == [3.0];
  }

  /** The unit test with capacity 2: after pushing 1, 2, 3, 4 the slots hold [3, 4]. */
  method OverwriteScenario() returns (full: seq<real>)
    ensures full == [3.0, 4.0]
  {
    var c := new CircularList<real>(2);
    c.PushBack(1.0);
    ghost var s1 := c.slots;
    assert s1 == [1.0] && c.arrayIndex == 1 && c.arrayMax == 2;
    c.PushBack(2.0);
    ghost var s2 := c.slots;
    assert s2 == s1 + [2.0] == [1.0, 2.0] && c.arrayIndex == 0;
    c.PushBack(3.0);
    ghost var s3 := c.slots;
    assert s3 == s2[0 := 3.0] == [3.0, 2.0] && c.arrayIndex == 1;
    c.PushBack(4.0);
    assert c.slots == s3[1 := 4.0];
    full := c.slots;
  }

  /** The unit test with capacity 3: after pushing 1..5, iteration and the skip-one average. */
  method IterationScenario() returns (items: seq<real>, skipOne: Option<real>)
    ensures items == [5.0, 4.0, 3.0]
    ensures skipOne == Some(3.5)
  {
    var d := new CircularList<real>(3);
    d.PushBack(1.0);
    d.PushBack(2.0);
    d.PushBack(3.0);
    d.PushBack(4.0);
    d.PushBack(5.0);
    assert d.pushed == [1.0, 2.0, 3.0, 4.0, 5.0] && |d.slots| == 3;
    CapacityThreeScenario();
    items := d.Iterate();
    skipOne := GetAverage(d, 1);
  }
}
