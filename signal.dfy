/**
 * The global `SAVE_AND_EXIT_FLAG`. A signal handler sets it asynchronously and nothing resets
 * it, so every read from some point on sees `True`. The model fixes that point as the index of
 * the first read that sees it (`raisedAt`), or `None` when the signal never arrives.
 */
module Signal {
  import opened Wrappers

  /** Whether the read with index `k` sees a flag first seen by read `raisedAt`. */
  predicate SeenAt(raisedAt: Option<nat>, k: nat)
  {
    raisedAt.Some? && raisedAt.value <= k
  }

  class SaveAndExitFlag {
    const raisedAt: Option<nat>
    /** How many times the flag has been read. */
    var polls: nat

    constructor (raisedAt: Option<nat>)
      ensures this.raisedAt == raisedAt && polls == 0
    {
      this.raisedAt := raisedAt;
      polls := 0;
    }

    /** Whether the read with index `k` sees the flag set. */
    predicate SetAt(k: nat)
    {
      SeenAt(raisedAt, k)
    }

    /** One read of the flag (`enabledSaveAndExit()` or a bare `SAVE_AND_EXIT_FLAG`). */
    method Poll() returns (raised: bool)
      modifies this
      ensures raised == SetAt(old(polls)) && polls == old(polls) + 1
    {
      raised := raisedAt.Some? && raisedAt.value <= polls;
      polls := polls + 1;
    }

    /** Once a read has seen the flag set, every later read sees it too. */
    lemma StaysSet(j: nat, k: nat)
      requires j <= k && SetAt(j)
      ensures SetAt(k)
    {
    }
  }
}
