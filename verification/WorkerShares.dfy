/** The shares that the launcher hands to its workers, and the run that their results merge to. */
module WorkerShares {
  import opened Documents
  import opened Lists
  import opened Merge
  import opened Partition
  import opened Sums
  import opened WorkerMerge

  // ---- What a worker runs ----

  /** The records of a range, by index. */
  function RangeRecords(range: Range): seq<int> {
    Consecutive(range.start, range.count)
  }

  function Consecutive(start: int, count: nat): seq<int> {
    seq(count, i requires 0 <= i < count => start + i)
  }

  /** The records whose task was asked for, in the order of the input file; indices start at one. */
  function TaskRecords(file: seq<string>, ids: seq<string>): seq<int> {
    if file == [] then []
    else
      var n := |file| - 1;
      TaskRecords(file[..n], ids) + if file[n] in ids then [n + 1] else []
  }

  /** The result rows of some records, each as the run of that record leaves it. */
  function Executed(outcome: int -> Row, records: seq<int>): (rows: seq<Row>)
    ensures |rows| == |records| && forall i | 0 <= i < |records| :: rows[i] == outcome(records[i])
  {
    seq(|records|, i requires 0 <= i < |records| => outcome(records[i]))
  }

  ghost predicate Indexed(outcome: int -> Row) {
    forall i :: outcome(i).index == i
  }

  function Worked(rnd: real -> real, outcome: int -> Row, records: seq<int>): Run {
    var rows := Executed(outcome, records);
    Run(rows, SummaryOf(rnd, rows))
  }

  /** The runs of the workers that have anything to do; the others are skipped. */
  function Launched(rnd: real -> real, outcome: int -> Row, shares: seq<seq<int>>): seq<Run> {
    if shares == [] then []
    else
      var n := |shares| - 1;
      Launched(rnd, outcome, shares[..n]) + if shares[n] == [] then [] else [Worked(rnd, outcome, shares[n])]
  }

  lemma ExecutedAppend(outcome: int -> Row, a: seq<int>, b: seq<int>)
    ensures Executed(outcome, a + b) == Executed(outcome, a) + Executed(outcome, b)
  {
  }

  lemma {:induction false} LaunchedRows(rnd: real -> real, outcome: int -> Row, shares: seq<seq<int>>)
    ensures RowsOf(Launched(rnd, outcome, shares)) == Executed(outcome, Concat(shares))
  {
    if shares != [] {
      var n := |shares| - 1;
      var before := Launched(rnd, outcome, shares[..n]);
      LaunchedRows(rnd, outcome, shares[..n]);
      ExecutedAppend(outcome, Concat(shares[..n]), shares[n]);
      if shares[n] == [] {
        AppendNothing(before, []);
        AppendNothing(Concat(shares[..n]), shares[n]);
      } else {
        RowsAppend(before, [Worked(rnd, outcome, shares[n])]);
        RowsOne(Worked(rnd, outcome, shares[n]));
      }
    }
  }

  lemma {:induction false} LaunchedHonest(rnd: real -> real, outcome: int -> Row, shares: seq<seq<int>>)
    ensures Honest(rnd, Launched(rnd, outcome, shares))
  {
    if shares != [] {
      LaunchedHonest(rnd, outcome, shares[..|shares| - 1]);
    }
  }

  lemma HonestFinished(rnd: real -> real, runs: seq<Run>, finished: seq<Run>)
    requires Honest(rnd, runs) && multiset(finished) == multiset(runs)
    ensures Honest(rnd, finished)
  {
    forall i | 0 <= i < |finished|
      ensures finished[i].summary == SummaryOf(rnd, finished[i].rows)
    {
      assert finished[i] in multiset(runs);
      var j :| 0 <= j < |runs| && runs[j] == finished[i];
    }
  }

  lemma ExecutedRemove(outcome: int -> Row, records: seq<int>, i: nat)
    requires i < |records|
    ensures multiset(Executed(outcome, records))
            == multiset(Executed(outcome, records[..i] + records[i + 1..])) + multiset{outcome(records[i])}
  {
    var front, back := records[..i], records[i + 1..];
    SplitAround(records, i);
    ExecutedAppend(outcome, front + [records[i]], back);
    ExecutedAppend(outcome, front, [records[i]]);
    ExecutedAppend(outcome, front, back);
  }

  lemma {:induction false} BagExecuted(outcome: int -> Row, a: seq<int>, b: seq<int>)
    requires multiset(a) == multiset(b)
    ensures multiset(Executed(outcome, a)) == multiset(Executed(outcome, b))
    decreases |a|
  {
    assert |a| == |multiset(a)| == |multiset(b)| == |b|;
    if a != [] {
      var n := |a| - 1;
      assert a[n] in multiset(b);
      var i :| 0 <= i < |b| && b[i] == a[n];
      BagRemove(a, n);
      BagRemove(b, i);
      ExecutedRemove(outcome, a, n);
      ExecutedRemove(outcome, b, i);
      BagExecuted(outcome, a[..n] + a[n + 1..], b[..i] + b[i + 1..]);
    }
  }

  // ---- The merge is the one run ----

  /** The merged rows are the rows of one run over these records, and so is all of the merged summary that does
      not depend on the order of the cases or on averages of averages. */
  ghost predicate MergesTo(rnd: real -> real, merged: Merged, all: seq<Row>) {
    var whole := SummaryOf(rnd, all);
    && merged.rows == all
    && merged.summary.total == whole.total && merged.summary.counts == whole.counts
    && merged.summary.correctRate == whole.correctRate && merged.summary.errorRate == whole.errorRate
    && merged.summary.rounds == whole.rounds && merged.summary.retries == whole.retries
    && SameCases(merged.summary.cases, whole.cases)
  }

  lemma SharesMerge(rnd: real -> real, outcome: int -> Row, shares: seq<seq<int>>, finished: seq<Run>, records: seq<int>)
    requires Indexed(outcome) && multiset(finished) == multiset(Launched(rnd, outcome, shares))
    requires multiset(Concat(shares)) == multiset(records)
    requires forall i, j | 0 <= i < j < |records| :: records[i] < records[j]
    ensures MergesTo(rnd, MergeOf(rnd, finished), Executed(outcome, records))
  {
    var runs := Launched(rnd, outcome, shares);
    LaunchedHonest(rnd, outcome, shares);
    HonestFinished(rnd, runs, finished);
    CompletionOrder(finished, runs);
    LaunchedRows(rnd, outcome, shares);
    BagExecuted(outcome, Concat(shares), records);
    MergeIsSequential(rnd, finished, Executed(outcome, records));
  }

  // ---- Ranges ----

  function RangeShares(ranges: seq<Range>): (shares: seq<seq<int>>)
    ensures |shares| == |ranges| && forall k | 0 <= k < |ranges| :: shares[k] == RangeRecords(ranges[k])
  {
    seq(|ranges|, k requires 0 <= k < |ranges| => RangeRecords(ranges[k]))
  }

  lemma ConsecutiveAppend(start: int, m: nat, n: nat)
    ensures Consecutive(start, m) + Consecutive(start + m, n) == Consecutive(start, m + n)
  {
  }

  lemma {:induction false} RangesJoined(ranges: seq<Range>, start: int, k: nat)
    requires 0 < k <= |ranges| && ranges[0].start == start
    requires forall i | 0 < i < |ranges| :: ranges[i].start == ranges[i - 1].start + ranges[i - 1].count
    ensures ranges[k - 1].start + ranges[k - 1].count >= start
    ensures Concat(RangeShares(ranges)[..k]) == Consecutive(start, ranges[k - 1].start + ranges[k - 1].count - start)
  {
    var shares := RangeShares(ranges);
    assert shares[..k][..k - 1] == shares[..k - 1];
    if k == 1 {
      assert shares[..0] == [];
    } else {
      RangesJoined(ranges, start, k - 1);
      ConsecutiveAppend(start, ranges[k - 1].start - start, ranges[k - 1].count);
    }
  }

  lemma RangesCover(ranges: seq<Range>, start: int, total: nat, workers: nat)
    requires Partitions(ranges, start, total, workers)
    ensures Concat(RangeShares(ranges)) == Consecutive(start, total)
  {
    RangesJoined(ranges, start, workers);
    assert RangeShares(ranges)[..workers] == RangeShares(ranges);
  }

  /** Workers given the ranges of a partition, finishing in any order, merge to the run over all the cases. */
  lemma RangesMerge(rnd: real -> real, outcome: int -> Row, ranges: seq<Range>, start: int, total: nat, workers: nat,
                    finished: seq<Run>)
    requires Indexed(outcome) && Partitions(ranges, start, total, workers)
    requires multiset(finished) == multiset(Launched(rnd, outcome, RangeShares(ranges)))
    ensures MergesTo(rnd, MergeOf(rnd, finished), Executed(outcome, Consecutive(start, total)))
  {
    RangesCover(ranges, start, total, workers);
    SharesMerge(rnd, outcome, RangeShares(ranges), finished, Consecutive(start, total));
  }

  // ---- Task ids ----

  function TaskShares(file: seq<string>, parts: seq<Assignment>): (shares: seq<seq<int>>)
    ensures |shares| == |parts| && forall k | 0 <= k < |parts| :: shares[k] == TaskRecords(file, parts[k].taskIds)
  {
    seq(|parts|, k requires 0 <= k < |parts| => TaskRecords(file, parts[k].taskIds))
  }

  lemma {:induction false} TasksIncrease(file: seq<string>, ids: seq<string>)
    ensures forall i | 0 <= i < |TaskRecords(file, ids)| :: 1 <= TaskRecords(file, ids)[i] <= |file|
    ensures forall i, j | 0 <= i < j < |TaskRecords(file, ids)| :: TaskRecords(file, ids)[i] < TaskRecords(file, ids)[j]
  {
    if file != [] {
      TasksIncrease(file[..|file| - 1], ids);
    }
  }

  lemma {:induction false} TasksApart(file: seq<string>, a: seq<string>, b: seq<string>)
    requires forall id | id in a :: id !in b
    ensures multiset(TaskRecords(file, a + b)) == multiset(TaskRecords(file, a)) + multiset(TaskRecords(file, b))
  {
    if file != [] {
      TasksApart(file[..|file| - 1], a, b);
    }
  }

  ghost predicate NoRepeats(ids: seq<string>) {
    forall i, j | 0 <= i < j < |ids| :: ids[i] != ids[j]
  }

  lemma {:induction false} NoTasks(file: seq<string>)
    ensures TaskRecords(file, []) == []
  {
    if file != [] {
      NoTasks(file[..|file| - 1]);
    }
  }

  lemma HalvesApart(a: seq<string>, b: seq<string>)
    requires NoRepeats(a + b)
    ensures NoRepeats(a) && forall id | id in a :: id !in b
  {
    forall i, j | 0 <= i < j < |a|
      ensures a[i] != a[j]
    {
      assert (a + b)[i] == a[i] && (a + b)[j] == a[j];
    }
    forall i, j | 0 <= i < |a| && 0 <= j < |b|
      ensures a[i] != b[j]
    {
      assert (a + b)[i] == a[i] && (a + b)[|a| + j] == b[j];
    }
  }

  lemma OnePartMore(file: seq<string>, parts: seq<Assignment>)
    requires parts != []
    ensures var n := |parts| - 1;
            && Concat(IdsOf(parts)) == Concat(IdsOf(parts[..n])) + parts[n].taskIds
            && Concat(TaskShares(file, parts)) == Concat(TaskShares(file, parts[..n])) + TaskRecords(file, parts[n].taskIds)
  {
    var n := |parts| - 1;
    assert IdsOf(parts)[..n] == IdsOf(parts[..n]) && TaskShares(file, parts)[..n] == TaskShares(file, parts[..n]);
  }

  lemma {:induction false} TasksJoined(file: seq<string>, parts: seq<Assignment>)
    requires NoRepeats(Concat(IdsOf(parts)))
    ensures multiset(Concat(TaskShares(file, parts))) == multiset(TaskRecords(file, Concat(IdsOf(parts))))
  {
    if parts == [] {
      NoTasks(file);
    } else {
      var n := |parts| - 1;
      OnePartMore(file, parts);
      HalvesApart(Concat(IdsOf(parts[..n])), parts[n].taskIds);
      TasksJoined(file, parts[..n]);
      TasksApart(file, Concat(IdsOf(parts[..n])), parts[n].taskIds);
    }
  }

  lemma {:induction false} TaskFound(file: seq<string>, ids: seq<string>, id: string)
    requires id in ids && id in file
    ensures TaskRecords(file, ids) != []
  {
    var n := |file| - 1;
    if file[n] !in ids {
      var i :| 0 <= i < |file| && file[i] == id;
      assert i < n && file[..n][i] == id;
      TaskFound(file[..n], ids, id);
    }
  }

  /** A worker is skipped for want of tasks exactly when it has no records. */
  lemma SkippedExactly(file: seq<string>, ids: seq<string>)
    requires forall id | id in ids :: id in file
    ensures TaskRecords(file, ids) == [] <==> ids == []
  {
    if ids == [] {
      NoTasks(file);
    } else {
      TaskFound(file, ids, ids[0]);
    }
  }

  /** Workers given the parts of a list of tasks, finishing in any order, merge to the run over all these tasks,
      whatever the order of the list. */
  lemma TasksMerge(rnd: real -> real, outcome: int -> Row, file: seq<string>, taskIds: seq<string>, parts: seq<Assignment>,
                   finished: seq<Run>)
    requires Indexed(outcome) && Concat(IdsOf(parts)) == taskIds && NoRepeats(taskIds)
    requires multiset(finished) == multiset(Launched(rnd, outcome, TaskShares(file, parts)))
    ensures MergesTo(rnd, MergeOf(rnd, finished), Executed(outcome, TaskRecords(file, taskIds)))
  {
    TasksJoined(file, parts);
    TasksIncrease(file, taskIds);
    SharesMerge(rnd, outcome, TaskShares(file, parts), finished, TaskRecords(file, taskIds));
  }
}
