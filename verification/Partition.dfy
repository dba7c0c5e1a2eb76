/** Splitting the work of an experiment among workers: experiments/scripts/launch_experiments.py. */
module Partition {
  import opened Documents

  datatype Range = Range(worker: nat, start: int, count: nat)

  datatype Assignment = Assignment(worker: nat, count: nat, taskIds: seq<string>)

  /** How many items the `k`-th worker gets. */
  function Share(base: nat, remainder: nat, k: nat): nat {
    base + if k < remainder then 1 else 0
  }

  /** What the first `k` workers get together. */
  function Taken(base: nat, remainder: nat, k: nat): nat {
    if k == 0 then 0 else Taken(base, remainder, k - 1) + Share(base, remainder, k - 1)
  }

  lemma {:induction false} TakenIs(base: nat, remainder: nat, k: nat)
    ensures Taken(base, remainder, k) == k * base + if k < remainder then k else remainder
  {
    if k > 0 {
      TakenIs(base, remainder, k - 1);
      assert k * base == (k - 1) * base + base;
    }
  }

  lemma AllTaken(total: nat, workers: nat)
    requires workers > 0
    ensures Taken(total / workers, total % workers, workers) == total
  {
    TakenIs(total / workers, total % workers, workers);
  }

  /** The ranges follow one another from `start` on, cover `total` cases, and differ in size by at most one. */
  ghost predicate Partitions(ranges: seq<Range>, start: int, total: nat, workers: nat) {
    && |ranges| == workers > 0
    && ranges[0].start == start && ranges[workers - 1].start + ranges[workers - 1].count == start + total
    && (forall k | 0 <= k < workers :: ranges[k].worker == k + 1)
    && (forall k | 0 < k < workers :: ranges[k].start == ranges[k - 1].start + ranges[k - 1].count)
    && (forall i, j | 0 <= i < j < workers :: ranges[j].count <= ranges[i].count <= ranges[j].count + 1)
  }

  lemma SharesPartition(ranges: seq<Range>, start: int, base: nat, remainder: nat, workers: nat)
    requires workers > 0 && |ranges| == workers
    requires forall k {:trigger ranges[k]} | 0 <= k < workers :: ranges[k] == Range(k + 1, start + Taken(base, remainder, k), Share(base, remainder, k))
    ensures Partitions(ranges, start, Taken(base, remainder, workers), workers)
  {
    assert Taken(base, remainder, 0) == 0;
    forall k | 0 < k < workers
      ensures ranges[k].start == ranges[k - 1].start + ranges[k - 1].count
    {
      assert Taken(base, remainder, k) == Taken(base, remainder, k - 1) + Share(base, remainder, k - 1);
    }
  }

  method RangesFrom(startIndex: int, base: nat, remainder: nat, workerCount: nat) returns (out: seq<Range>)
    ensures |out| == workerCount
    ensures forall k {:trigger out[k]} | 0 <= k < workerCount ::
              out[k] == Range(k + 1, startIndex + Taken(base, remainder, k), Share(base, remainder, k))
  {
    var nextIndex := startIndex;
    out := [];
    for worker := 1 to workerCount + 1
      invariant |out| == worker - 1
      invariant nextIndex == startIndex + Taken(base, remainder, worker - 1)
      invariant forall k {:trigger out[k]} | 0 <= k < worker - 1 ::
                  out[k] == Range(k + 1, startIndex + Taken(base, remainder, k), Share(base, remainder, k))
    {
      var count := base + if worker <= remainder then 1 else 0;
      out := out + [Range(worker, nextIndex, count)];
      nextIndex := nextIndex + count;
    }
  }

  /** `None` where a count is not positive. */
  method PartitionCaseRanges(startIndex: int, caseCount: int, workerCount: int) returns (ranges: Option<seq<Range>>)
    ensures ranges.Some? <==> workerCount > 0 && caseCount > 0
    ensures ranges.Some? ==> Partitions(ranges.value, startIndex, caseCount, workerCount)
  {
    if workerCount <= 0 || caseCount <= 0 {
      return None;
    }
    var base, remainder := caseCount / workerCount, caseCount % workerCount;
    var out := RangesFrom(startIndex, base, remainder, workerCount);
    AllTaken(caseCount, workerCount);
    SharesPartition(out, startIndex, base, remainder, workerCount);
    return Some(out);
  }

  function Concat<T>(parts: seq<seq<T>>): seq<T> {
    if parts == [] then [] else Concat(parts[..|parts| - 1]) + parts[|parts| - 1]
  }

  function IdsOf(out: seq<Assignment>): seq<seq<string>> {
    seq(|out|, i requires 0 <= i < |out| => out[i].taskIds)
  }

  lemma {:induction false} TakenMonotone(base: nat, remainder: nat, k: nat, n: nat)
    requires k <= n
    ensures Taken(base, remainder, k) <= Taken(base, remainder, n)
  {
    if k < n {
      TakenMonotone(base, remainder, k, n - 1);
    }
  }

  lemma ConcatStep(parts: seq<Assignment>, next: Assignment)
    ensures Concat(IdsOf(parts + [next])) == Concat(IdsOf(parts)) + next.taskIds
  {
    assert IdsOf(parts + [next])[..|parts|] == IdsOf(parts);
  }

  method ListsFrom(taskIds: seq<string>, base: nat, remainder: nat, workerCount: nat) returns (parts: seq<Assignment>)
    requires Taken(base, remainder, workerCount) == |taskIds|
    ensures |parts| == workerCount && Concat(IdsOf(parts)) == taskIds
    ensures forall k {:trigger parts[k]} | 0 <= k < workerCount ::
              parts[k].worker == k + 1 && parts[k].count == |parts[k].taskIds| == Share(base, remainder, k)
  {
    var nextOffset := 0;
    parts := [];
    for worker := 1 to workerCount + 1
      invariant |parts| == worker - 1
      invariant nextOffset == Taken(base, remainder, worker - 1) <= |taskIds|
      invariant forall k {:trigger parts[k]} | 0 <= k < worker - 1 ::
                  parts[k].worker == k + 1 && parts[k].count == |parts[k].taskIds| == Share(base, remainder, k)
      invariant Concat(IdsOf(parts)) == taskIds[..nextOffset]
    {
      var count := base + if worker <= remainder then 1 else 0;
      TakenMonotone(base, remainder, worker, workerCount);
      var next := Assignment(worker, count, taskIds[nextOffset..nextOffset + count]);
      ConcatStep(parts, next);
      parts := parts + [next];
      nextOffset := nextOffset + count;
    }
    assert taskIds[..|taskIds|] == taskIds;
  }

  /** The workers' lists, one after the other, are the given list; their sizes differ by at most one. */
  method PartitionTaskIds(taskIds: seq<string>, workerCount: int) returns (out: Option<seq<Assignment>>)
    ensures out.Some? <==> workerCount > 0 && taskIds != []
    ensures out.Some? ==>
      && |out.value| == workerCount && Concat(IdsOf(out.value)) == taskIds
      && (forall k | 0 <= k < workerCount :: out.value[k].worker == k + 1 && out.value[k].count == |out.value[k].taskIds|)
      && (forall i, j | 0 <= i < j < workerCount :: out.value[j].count <= out.value[i].count <= out.value[j].count + 1)
  {
    if workerCount <= 0 || taskIds == [] {
      return None;
    }
    AllTaken(|taskIds|, workerCount);
    var parts := ListsFrom(taskIds, |taskIds| / workerCount, |taskIds| % workerCount, workerCount);
    return Some(parts);
  }
}
