/** Slow-start batching: calls in batches that double until a batch contains a failure. */
module SlowStart {
  import opened MathUtils

  const INITIAL_BATCH_SIZE := 1

  /** How many of the first `n` calls fail. */
  function Failures(fails: nat -> bool, n: nat): (r: nat)
    ensures r <= n
    ensures r == 0 <==> forall i: nat :: i < n ==> !fails(i)
  {
    if n == 0 then 0 else Failures(fails, n - 1) + (if fails(n - 1) then 1 else 0)
  }

  /** The size of batch `j`, and where the first `j` batches end. */
  function Size(initial: nat, j: nat): nat { if j == 0 then initial else 2 * Size(initial, j - 1) }
  function Ends(initial: nat, j: nat): nat { if j == 0 then 0 else Ends(initial, j - 1) + Size(initial, j - 1) }

  /** A run that failed stops at the end of a batch, and no batch before it has a failure. */
  ghost predicate StopsAtBatch(count: int, initial: nat, fails: nat -> bool, calls: nat) {
    exists j: nat :: StopsAfter(count, initial, fails, calls, j)
  }

  ghost predicate StopsAfter(count: int, initial: nat, fails: nat -> bool, calls: nat, j: nat) {
    && calls == Min(count, Ends(initial, j) + Size(initial, j))
    && forall i: nat :: i < Ends(initial, j) && i < calls ==> !fails(i)
  }

  /** What a run of the batches must look like, whatever the failure pattern: the calls are a
      prefix of the indices, all of them unless one fails; a failure stops the run at the end of its
      batch, the batches doubling, so one at `f` stops it before index `2 * f + initial`. */
  ghost predicate Batched(
    count: int, initial: int, fails: nat -> bool, called: seq<nat>, successes: int, failed: bool)
  {
    && (forall i :: 0 <= i < |called| ==> called[i] == i)
    && |called| <= (if count < 0 then 0 else count)
    && successes == |called| - Failures(fails, |called|)
    && (failed <==> Failures(fails, |called|) > 0)
    && (initial <= 0 ==> called == [])
    && (initial > 0 && !failed ==> |called| == (if count < 0 then 0 else count))
    && (forall f: nat :: f < |called| && fails(f) ==> |called| <= 2 * f + initial)
    && (failed ==> initial > 0 && StopsAtBatch(count, initial, fails, |called|))
  }

  method SlowStartBatch(count: int, initialBatchSize: int, fails: nat -> bool)
    returns (called: seq<nat>, successes: int, failed: bool)
    ensures Batched(count, initialBatchSize, fails, called, successes, failed)
  {
    var remaining := count;
    successes := 0;
    called := [];
    failed := false;
    var index: nat := 0;
    var batchSize := Min(remaining, initialBatchSize);
    ghost var batch: nat := 0;
    while batchSize > 0
      invariant index == |called| && remaining == count - index
      invariant forall i :: 0 <= i < |called| ==> called[i] == i
      invariant Failures(fails, index) == 0
      invariant successes == index
      invariant batchSize <= remaining && batchSize <= index + initialBatchSize
      invariant index > 0 ==> initialBatchSize > 0 && count > 0 && remaining >= 0
      invariant initialBatchSize > 0 && batchSize <= 0 ==> remaining <= 0
      invariant batchSize > 0 ==> initialBatchSize > 0 && index == Ends(initialBatchSize, batch)
                                  && batchSize == Min(Size(initialBatchSize, batch), remaining)
      decreases remaining
    {
      var errs := 0;
      ghost var start := index;
      for j := 0 to batchSize
        invariant index == start + j == |called|
        invariant forall i :: 0 <= i < |called| ==> called[i] == i
        invariant errs == Failures(fails, index)
      {
        if fails(index) { errs := errs + 1; }
        called := called + [index];
        index := index + 1;
      }
      successes := successes + (batchSize - errs);
      if errs > 0 {
        failed := true;
        assert forall f: nat :: f < start ==> !fails(f);
        assert StopsAfter(count, initialBatchSize, fails, index, batch);
        return;
      }
      batch := batch + 1;
      remaining := remaining - batchSize;
      batchSize := Min(2 * batchSize, remaining);
    }
  }

  /** The same failure is reported however the batches fall: an index is reached exactly when
      it is called, so with a positive first batch a failing index below the count always
      surfaces as an error. */
  lemma FailureSurfaces(
    count: int, initial: int, fails: nat -> bool, called: seq<nat>, successes: int, failed: bool, f: nat)
    requires Batched(count, initial, fails, called, successes, failed)
    requires initial > 0 && f < count && fails(f)
    ensures failed && exists g: nat :: g <= f && g < |called| && fails(g)
  {
    if f >= |called| {
      assert failed;
      var g: nat :| g < |called| && fails(g);
      assert g <= f;
    }
  }
}
