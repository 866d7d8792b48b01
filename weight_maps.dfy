/**
 * The per-entry loops over a state dictionary that several strategies share: visit the entries
 * of a sample `w` in dictionary order and fold each into the accumulator entry of the same name.
 * A name the accumulator lacks raises `KeyError` after the earlier names were already folded in.
 */
module WeightMaps {
  import opened Wrappers
  import opened Sums
  import opened RunningMean

  /** What `torch.stack` raises for an empty list of tensors. */
  const EmptyStack := "stack expects a non-empty TensorList"

  /** The accumulator with the entries named in `keys` (and present in `w`) combined by `f`. */
  function Pointwise(acc: Weights, w: Weights, keys: set<string>, f: (real, real) -> real): (r: Weights)
    ensures r.Keys == acc.Keys
  {
    map k | k in acc :: if k in keys && k in w then f(acc[k], w[k]) else acc[k]
  }

  /** The position in `order` of the first name `acc` lacks; `|order|` when it has them all. */
  function FirstMissing(order: seq<string>, acc: Weights): (j: nat)
    ensures j <= |order|
    ensures forall t :: 0 <= t < j ==> order[t] in acc
    ensures j < |order| ==> order[j] !in acc
  {
    if |order| == 0 then 0
    else if order[0] !in acc then 0
    else 1 + FirstMissing(order[1..], acc)
  }

  /** Any position before which every name is present and at which one is missing is `FirstMissing`. */
  lemma {:induction false} FirstMissingAt(order: seq<string>, acc: Weights, i: nat)
    requires i <= |order|
    requires forall t :: 0 <= t < i ==> order[t] in acc
    requires i == |order| || order[i] !in acc
    ensures FirstMissing(order, acc) == i
    decreases i
  {
    if i > 0 {
      assert order[0] in acc;
      FirstMissingAt(order[1..], acc, i - 1);
    }
  }

  lemma PointwiseOneMore(acc: Weights, w: Weights, keys: set<string>, key: string, f: (real, real) -> real)
    requires key in acc && key in w && key !in keys
    ensures Pointwise(acc, w, keys + {key}, f) == Pointwise(acc, w, keys, f)[key := f(acc[key], w[key])]
  {
  }

  /**
   * `for key, val in w.items(): acc[key] = f(acc[key], val)`, with the entries visited in
   * `order`. The key error names the first missing entry, and the entries before it are
   * already combined.
   */
  method UpdateEntries(acc: Weights, w: Weights, order: seq<string>, f: (real, real) -> real)
    returns (r: Weights, err: Option<Raised>)
    requires Enumerates(order, w)
    ensures r == Pointwise(acc, w, Visited(order, FirstMissing(order, acc)), f)
    ensures err == if FirstMissing(order, acc) < |order| then Some(KeyError(order[FirstMissing(order, acc)])) else None
  {
    r := acc;
    var i := 0;
    while i < |order|
      invariant 0 <= i <= |order|
      invariant forall t :: 0 <= t < i ==> order[t] in acc
      invariant r == Pointwise(acc, w, Visited(order, i), f)
    {
      var key := order[i];
      if key !in r {
        FirstMissingAt(order, acc, i);
        return r, Some(KeyError(key));
      }
      VisitNext(order, i);
      PointwiseOneMore(acc, w, Visited(order, i), key, f);
      r := r[key := f(r[key], w[key])];
      i := i + 1;
    }
    FirstMissingAt(order, acc, i);
    err := None;
  }

  /** With no key error every entry of the sample was combined. */
  lemma UpdateAll(acc: Weights, w: Weights, order: seq<string>, f: (real, real) -> real)
    requires Enumerates(order, w) && w.Keys <= acc.Keys
    ensures FirstMissing(order, acc) == |order|
    ensures Pointwise(acc, w, Visited(order, |order|), f) == Pointwise(acc, w, w.Keys, f)
  {
    FirstMissingAt(order, acc, |order|);
    VisitedAll(order, w);
  }

  /** A key error happens exactly when the sample names an entry the accumulator lacks. */
  lemma MissingIffUnknownName(acc: Weights, w: Weights, order: seq<string>)
    requires Enumerates(order, w)
    ensures FirstMissing(order, acc) < |order| <==> !(w.Keys <= acc.Keys)
  {
    var j := FirstMissing(order, acc);
    if j == |order| {
      assert forall k :: k in w ==> k in acc by {
        forall k | k in w
          ensures k in acc
        {
          var t :| 0 <= t < |order| && order[t] == k;
        }
      }
    }
  }

  /** Every name of an enumeration is an entry. */
  lemma NamesPresent(order: seq<string>, w: Weights)
    requires Enumerates(order, w)
    ensures forall i :: 0 <= i < |order| ==> order[i] in w
  {
    forall i | 0 <= i < |order|
      ensures order[i] in w
    {
      assert order[i] in order;
    }
  }

  /** `dict(w)` restricted to names and summed: Σ|w[k]| visited in `order`. */
  function AbsSum(order: seq<string>, w: Weights): real
    requires forall i :: 0 <= i < |order| ==> order[i] in w
  {
    if |order| == 0 then 0.0
    else AbsSum(order[..|order| - 1], w) + Abs(w[order[|order| - 1]])
  }

  function Abs(x: real): real { if x < 0.0 then -x else x }

  /**
   * `sumAllWeights`: the sum of the absolute values of every entry. `torch.stack` of an empty
   * list raises, so an empty dictionary is an error.
   */
  method SumAllWeights(order: seq<string>, w: Weights) returns (r: Result<real>)
    requires Enumerates(order, w)
    ensures r.Err? <==> w == map[]
    ensures r.Err? ==> r.error == Rejected(EmptyStack)
    ensures r.Ok? ==> r.value == AbsSum(order, w) && 0.0 <= r.value
  {
    if |order| == 0 {
      assert w.Keys == {};
      return Err(Rejected(EmptyStack));
    }
    assert order[0] in w;
    var total := 0.0;
    var i := 0;
    while i < |order|
      invariant 0 <= i <= |order|
      invariant total == AbsSum(order[..i], w) && 0.0 <= total
    {
      assert order[..i + 1][..i] == order[..i];
      total := total + Abs(w[order[i]]);
      i := i + 1;
    }
    assert order[..|order|] == order;
    r := Ok(total);
  }

  /** `acc.add_(x)` on one entry. */
  function Add(acc: real, x: real): real { acc + x }

  /** `prev.copy_(x)` on one entry. */
  function Replace(prev: real, x: real): real { x }

  /** Which names `FirstMissing` stops at depends only on the accumulator's key set. */
  lemma {:induction false} FirstMissingSameKeys(order: seq<string>, a: Weights, b: Weights)
    requires a.Keys == b.Keys
    ensures FirstMissing(order, a) == FirstMissing(order, b)
    decreases |order|
  {
    if |order| > 0 && order[0] in a {
      assert order[0] in b;
      FirstMissingSameKeys(order[1..], a, b);
    }
  }

  /** Copying every entry of a sample over an accumulator with the same names gives the sample. */
  lemma ReplaceAll(prev: Weights, w: Weights)
    requires prev.Keys == w.Keys
    ensures Pointwise(prev, w, w.Keys, Replace) == w
  {
  }

  /** Entry `k` across the samples. */
  function Column(xs: seq<Weights>, k: string): (c: seq<real>)
    requires forall i :: 0 <= i < |xs| ==> k in xs[i]
    ensures |c| == |xs| && forall i :: 0 <= i < |xs| ==> c[i] == xs[i][k]
  {
    seq(|xs|, i requires 0 <= i < |xs| => xs[i][k])
  }

  /** The accumulator after adding the samples `xs` in turn. */
  function SumAll(acc: Weights, xs: seq<Weights>): (r: Weights)
    ensures r.Keys == acc.Keys
    decreases |xs|
  {
    if |xs| == 0 then acc
    else Pointwise(SumAll(acc, xs[..|xs| - 1]), xs[|xs| - 1], xs[|xs| - 1].Keys, Add)
  }

  /** Entry `k` of the accumulated sum is the start value plus the column sum. */
  lemma {:induction false} SumAllColumn(acc: Weights, xs: seq<Weights>, k: string)
    requires k in acc && forall i :: 0 <= i < |xs| ==> k in xs[i]
    ensures SumAll(acc, xs)[k] == acc[k] + Sum(Column(xs, k))
    decreases |xs|
  {
    if |xs| > 0 {
      var init := xs[..|xs| - 1];
      SumAllColumn(acc, init, k);
      assert Column(xs, k) == Column(init, k) + [xs[|xs| - 1][k]];
      SumSnoc(Column(init, k), xs[|xs| - 1][k]);
    }
  }

  /** Every entry divided by `count`; `{}` when nothing was counted. */
  function Averaged(sum: Weights, count: nat): (r: Weights)
    ensures count == 0 ==> r == map[]
    ensures count > 0 ==> r.Keys == sum.Keys && forall k :: k in r ==> r[k] * (count as real) == sum[k]
  {
    if count == 0 then map[] else map k | k in sum :: sum[k] / (count as real)
  }

  /** The step `w` made from `prev`: `arg.sub(previousWeights[key])` for every parameter. */
  function Difference(w: Weights, prev: Weights): (d: Weights)
    requires w.Keys <= prev.Keys
    ensures d.Keys == w.Keys && forall k :: k in d ==> prev[k] + d[k] == w[k]
  {
    map k | k in w :: w[k] - prev[k]
  }
}
