/** How `total` operations are split over the workers of a benchmark run. */
module WorkSplit {
  import opened Alignment

  const USIZE_MAX: nat := 0xFFFF_FFFF_FFFF_FFFF

  function Saturate(n: nat): nat { if n > USIZE_MAX then USIZE_MAX else n }
  function Min(a: nat, b: nat): nat { if a < b then a else b }

  function WorkerCount(total: nat, concurrency: nat): nat { Min(concurrency, total) }

  function IterationCount(total: nat, workers: nat, tid: nat): nat
    requires 0 < workers
  {
    Count(total / workers, total % workers, tid)
  }

  function IterationOffset(total: nat, workers: nat, tid: nat): nat
    requires 0 < workers
  {
    Offset(total / workers, total % workers, tid)
  }

  function Count(base: nat, remainder: nat, tid: nat): nat {
    base + if tid < remainder then 1 else 0
  }

  /** `tid.saturating_mul(base).saturating_add(tid.min(remainder))` */
  function Offset(base: nat, remainder: nat, tid: nat): nat {
    Saturate(Saturate(base * tid) + Min(tid, remainder))
  }

  /** The product never exceeds the total, so nothing saturates. */
  lemma OffsetExact(base: nat, remainder: nat, workers: nat, tid: nat)
    requires tid <= workers && remainder < workers && base * workers + remainder <= USIZE_MAX
    ensures Offset(base, remainder, tid) == base * tid + Min(tid, remainder)
    ensures Offset(base, remainder, tid) <= base * workers + remainder
  {
    ScaleMonotone(base, tid, workers);
  }

  /** As many workers as are wanted, as long as each has something to do. */
  lemma EveryWorkerBusy(total: nat, concurrency: nat, tid: nat)
    requires tid < WorkerCount(total, concurrency)
    ensures WorkerCount(total, concurrency) == concurrency || WorkerCount(total, concurrency) == total < concurrency
    ensures IterationCount(total, WorkerCount(total, concurrency), tid) >= 1
  {
    var workers := WorkerCount(total, concurrency);
    assert workers <= total;
    assert total / workers >= 1;
  }

  lemma PartitionStep(base: nat, remainder: nat, workers: nat, tid: nat)
    requires tid < workers && remainder < workers && base * workers + remainder <= USIZE_MAX
    ensures Offset(base, remainder, 0) == 0
    ensures Offset(base, remainder, workers) == base * workers + remainder
    ensures Offset(base, remainder, tid) + Count(base, remainder, tid) == Offset(base, remainder, tid + 1)
  {
    OffsetExact(base, remainder, workers, 0);
    OffsetExact(base, remainder, workers, workers);
    OffsetExact(base, remainder, workers, tid);
    OffsetExact(base, remainder, workers, tid + 1);
    assert base * (tid + 1) == base * tid + base;
  }

  /** The split is an exact ordered partition: offsets start at zero, each offset plus its count is
      the next offset, the last one is the total, and counts differ by at most one. */
  lemma ExactPartition(total: nat, workers: nat, tid: nat, other: nat)
    requires 0 < workers && tid < workers && other < workers && total <= USIZE_MAX
    ensures IterationOffset(total, workers, 0) == 0
    ensures IterationOffset(total, workers, workers) == total
    ensures IterationOffset(total, workers, tid) + IterationCount(total, workers, tid)
         == IterationOffset(total, workers, tid + 1)
    ensures IterationCount(total, workers, tid) <= IterationCount(total, workers, other) + 1
  {
    PartitionStep(total / workers, total % workers, workers, tid);
  }
}
