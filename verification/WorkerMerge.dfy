/** `_merge_worker_results`, and why it reports what one sequential run would have. */
module WorkerMerge {
  import opened Documents
  import opened Lists
  import opened Merge
  import opened Sums

  // ---- What the merge computes ----

  function RowsOf(runs: seq<Run>): seq<Row> {
    if runs == [] then [] else RowsOf(runs[..|runs| - 1]) + runs[|runs| - 1].rows
  }

  const NO_COUNTS := Counts(0, 0, 0, 0, 0, 0, 0, 0)

  function AddCounts(a: Counts, b: Counts): Counts {
    Counts(a.correct + b.correct, a.errors + b.errors, a.misjudged + b.misjudged, a.rounds + b.rounds, a.retries + b.retries,
           a.projections + b.projections, a.projectedFields + b.projectedFields, a.projectionCases + b.projectionCases)
  }

  function AllCounts(runs: seq<Run>): Counts {
    if runs == [] then NO_COUNTS else AddCounts(AllCounts(runs[..|runs| - 1]), runs[|runs| - 1].summary.counts)
  }

  function AllHistograms(runs: seq<Run>, histogram: Summary -> map<int, int>): map<int, int> {
    if runs == [] then map[]
    else AddHistograms(AllHistograms(runs[..|runs| - 1], histogram), histogram(runs[|runs| - 1].summary))
  }

  function RunWeight(run: Run, average: Summary -> real): real {
    average(run.summary) * run.summary.total as real
  }

  /** The workers' averages, each weighted with its number of rows. */
  function Weight(runs: seq<Run>, average: Summary -> real): real {
    if runs == [] then 0.0 else Weight(runs[..|runs| - 1], average) + RunWeight(runs[|runs| - 1], average)
  }

  function MergedAverage(rnd: real -> real, runs: seq<Run>, average: Summary -> real, total: nat): real {
    if total == 0 then 0.0 else rnd(Weight(runs, average) / total as real)
  }

  function AllCases(runs: seq<Run>): Cases {
    if runs == [] then Cases([], [], [])
    else
      var a, b := AllCases(runs[..|runs| - 1]), runs[|runs| - 1].summary.cases;
      Cases(a.correct + b.correct, a.errors + b.errors, a.misjudged + b.misjudged)
  }

  function RoundsHistogram(s: Summary): map<int, int> { s.rounds }
  function RetriesHistogram(s: Summary): map<int, int> { s.retries }
  function AvgAgentElapsed(s: Summary): real { s.averages.agentElapsed }
  function AvgElapsed(s: Summary): real { s.averages.elapsed }
  function AvgRounds(s: Summary): real { s.averages.rounds }
  function AvgRetries(s: Summary): real { s.averages.retries }

  function MergeOf(rnd: real -> real, runs: seq<Run>): Merged {
    var rows := SortRows(RowsOf(runs));
    var n, counts := |rows|, AllCounts(runs);
    Merged(rows, Summary(n, counts, Rate(rnd, counts.correct, n), Rate(rnd, counts.errors, n),
                         Averages(MergedAverage(rnd, runs, AvgAgentElapsed, n), MergedAverage(rnd, runs, AvgElapsed, n),
                                  MergedAverage(rnd, runs, AvgRounds, n), MergedAverage(rnd, runs, AvgRetries, n)),
                         AllHistograms(runs, RoundsHistogram), AllHistograms(runs, RetriesHistogram), AllCases(runs)))
  }

  // ---- Additivity ----

  /** Each worker wrote the summary of its own rows. */
  ghost predicate Honest(rnd: real -> real, runs: seq<Run>) {
    forall i | 0 <= i < |runs| :: runs[i].summary == SummaryOf(rnd, runs[i].rows)
  }

  lemma CountsAppend(a: seq<Row>, b: seq<Row>)
    ensures CountsOf(a + b) == AddCounts(CountsOf(a), CountsOf(b))
  {
    SumAppend(a, b, CorrectBit);
    SumAppend(a, b, ErrorBit);
    SumAppend(a, b, MisjudgedBit);
    SumAppend(a, b, RoundsOf);
    SumAppend(a, b, RetriesOf);
    SumAppend(a, b, ProjectionsOf);
    SumAppend(a, b, FieldsOf);
    SumAppend(a, b, ProjectedBit);
  }

  lemma CountsReordered(a: seq<Row>, b: seq<Row>)
    requires multiset(a) == multiset(b)
    ensures CountsOf(a) == CountsOf(b)
  {
    SumReordered(a, b, CorrectBit);
    SumReordered(a, b, ErrorBit);
    SumReordered(a, b, MisjudgedBit);
    SumReordered(a, b, RoundsOf);
    SumReordered(a, b, RetriesOf);
    SumReordered(a, b, ProjectionsOf);
    SumReordered(a, b, FieldsOf);
    SumReordered(a, b, ProjectedBit);
  }

  lemma {:induction false} CountsAdd(rnd: real -> real, runs: seq<Run>)
    requires Honest(rnd, runs)
    ensures AllCounts(runs) == CountsOf(RowsOf(runs))
  {
    if runs != [] {
      var init, last := runs[..|runs| - 1], runs[|runs| - 1];
      CountsAdd(rnd, init);
      CountsAppend(RowsOf(init), last.rows);
    }
  }

  lemma {:induction false} RoundsAdd(rnd: real -> real, runs: seq<Run>)
    requires Honest(rnd, runs)
    ensures AllHistograms(runs, RoundsHistogram) == Histogram(RowsOf(runs), RoundsOf)
  {
    if runs != [] {
      var init, last := runs[..|runs| - 1], runs[|runs| - 1];
      RoundsAdd(rnd, init);
      HistogramAppend(RowsOf(init), last.rows, RoundsOf);
    }
  }

  lemma {:induction false} RetriesAdd(rnd: real -> real, runs: seq<Run>)
    requires Honest(rnd, runs)
    ensures AllHistograms(runs, RetriesHistogram) == Histogram(RowsOf(runs), RetriesOf)
  {
    if runs != [] {
      var init, last := runs[..|runs| - 1], runs[|runs| - 1];
      RetriesAdd(rnd, init);
      HistogramAppend(RowsOf(init), last.rows, RetriesOf);
    }
  }

  lemma {:induction false} CasesAdd(rnd: real -> real, runs: seq<Run>)
    requires Honest(rnd, runs)
    ensures AllCases(runs) == CasesOf(RowsOf(runs))
  {
    if runs != [] {
      var init, last := runs[..|runs| - 1], runs[|runs| - 1];
      CasesAdd(rnd, init);
      FilterAppend(RowsOf(init), last.rows, IsCorrect);
      FilterAppend(RowsOf(init), last.rows, IsError);
      FilterAppend(RowsOf(init), last.rows, IsMisjudged);
    }
  }

  // ---- The merged summary is that of one run ----

  ghost predicate SameCases(a: Cases, b: Cases) {
    && multiset(a.correct) == multiset(b.correct) && multiset(a.errors) == multiset(b.errors)
    && multiset(a.misjudged) == multiset(b.misjudged)
  }

  lemma CasesReordered(a: seq<Row>, b: seq<Row>)
    requires multiset(a) == multiset(b)
    ensures SameCases(CasesOf(a), CasesOf(b))
  {
    FilterReordered(a, b, IsCorrect);
    FilterReordered(a, b, IsError);
    FilterReordered(a, b, IsMisjudged);
  }

  lemma RowsRecovered(runs: seq<Run>, all: seq<Row>)
    requires multiset(RowsOf(runs)) == multiset(all) && Sequential(all)
    ensures SortRows(RowsOf(runs)) == all
  {
    SortRowsOrders(RowsOf(runs));
    OrderedUnique(all, SortRows(RowsOf(runs)));
  }

  /** Whatever the number of workers, their shares and their order: if together they hold the records of one
      run, the merged rows are that run's rows in order, and every count, rate and histogram is the one that
      run would have reported; the lists of cases are the same but for their order. */
  lemma MergeIsSequential(rnd: real -> real, runs: seq<Run>, all: seq<Row>)
    requires Honest(rnd, runs) && multiset(RowsOf(runs)) == multiset(all) && Sequential(all)
    ensures var merged, whole := MergeOf(rnd, runs), SummaryOf(rnd, all);
            && merged.rows == all
            && merged.summary.total == whole.total && merged.summary.counts == whole.counts
            && merged.summary.correctRate == whole.correctRate && merged.summary.errorRate == whole.errorRate
            && merged.summary.rounds == whole.rounds && merged.summary.retries == whole.retries
            && SameCases(merged.summary.cases, whole.cases)
  {
    var rows := RowsOf(runs);
    RowsRecovered(runs, all);
    CountsAdd(rnd, runs);
    CountsReordered(rows, all);
    RoundsAdd(rnd, runs);
    RetriesAdd(rnd, runs);
    HistogramReordered(rows, all, RoundsOf);
    HistogramReordered(rows, all, RetriesOf);
    CasesAdd(rnd, runs);
    CasesReordered(rows, all);
  }

  /** The order in which the workers finish does not matter either. */
  lemma {:induction false} CompletionOrder(a: seq<Run>, b: seq<Run>)
    requires multiset(a) == multiset(b)
    ensures multiset(RowsOf(a)) == multiset(RowsOf(b))
    decreases |a|
  {
    assert |a| == |multiset(a)| == |multiset(b)| == |b|;
    if a != [] {
      var last := |a| - 1;
      assert a[last] in multiset(b);
      var i :| 0 <= i < |b| && b[i] == a[last];
      BagInit(a);
      BagRemove(b, i);
      RowsRemove(b, i);
      CompletionOrder(a[..last], b[..i] + b[i + 1..]);
    }
  }

  lemma {:induction false} RowsAppend(a: seq<Run>, b: seq<Run>)
    ensures RowsOf(a + b) == RowsOf(a) + RowsOf(b)
  {
    if b == [] {
      AppendNothing(a, b);
    } else {
      AppendInit(a, b);
      RowsAppend(a, b[..|b| - 1]);
      Assoc(RowsOf(a), RowsOf(b[..|b| - 1]), b[|b| - 1].rows);
    }
  }

  lemma RowsOne(run: Run)
    ensures RowsOf([run]) == run.rows
  {
    assert [run][..0] == [];
    assert RowsOf([run]) == RowsOf([]) + run.rows;
  }

  lemma RowsRemove(runs: seq<Run>, i: nat)
    requires i < |runs|
    ensures multiset(RowsOf(runs)) == multiset(RowsOf(runs[..i] + runs[i + 1..])) + multiset(runs[i].rows)
  {
    var front, back := runs[..i], runs[i + 1..];
    SplitAround(runs, i);
    RowsAppend(front + [runs[i]], back);
    RowsAppend(front, [runs[i]]);
    RowsAppend(front, back);
    RowsOne(runs[i]);
  }

  /** Workers that take consecutive shares of a run, finishing in any order, merge to that run. */
  lemma PartitionedMerge(rnd: real -> real, byWorker: seq<Run>, finished: seq<Run>, all: seq<Row>)
    requires RowsOf(byWorker) == all && Sequential(all)
    requires multiset(finished) == multiset(byWorker) && Honest(rnd, finished)
    ensures var merged, whole := MergeOf(rnd, finished), SummaryOf(rnd, all);
            && merged.rows == all
            && merged.summary.total == whole.total && merged.summary.counts == whole.counts
            && merged.summary.correctRate == whole.correctRate && merged.summary.errorRate == whole.errorRate
            && merged.summary.rounds == whole.rounds && merged.summary.retries == whole.retries
            && SameCases(merged.summary.cases, whole.cases)
  {
    CompletionOrder(finished, byWorker);
    MergeIsSequential(rnd, finished, all);
  }

  // ---- Averages ----

  const HALF_STEP := 0.00005

  /** `round(x, 4)`: within half a unit of the fourth digit. */
  ghost predicate Rounds(rnd: real -> real) {
    forall x: real :: -HALF_STEP <= rnd(x) - x <= HALF_STEP
  }

  /** Rounding errors of `n` rows together. */
  function Slack(n: nat): real {
    HALF_STEP * n as real
  }

  predicate Within(x: real, slack: real) {
    -slack <= x <= slack
  }

  lemma Scale(a: real, b: real, n: real)
    requires a <= b && n >= 0.0
    ensures a * n <= b * n
  {
    assert (b - a) * n >= 0.0;
    assert (b - a) * n == b * n - a * n;
  }

  lemma WeightedRounding(rnd: real -> real, sum: int, n: nat)
    requires Rounds(rnd) && (n == 0 ==> sum == 0)
    ensures Within(Rate(rnd, sum, n) * n as real - sum as real, Slack(n))
  {
    if n > 0 {
      var x := sum as real / n as real;
      var d := rnd(x) - x;
      assert x * n as real == sum as real;
      assert rnd(x) * n as real - sum as real == d * n as real;
      Scale(d, HALF_STEP, n as real);
      Scale(-d, HALF_STEP, n as real);
      assert (-d) * n as real == -(d * n as real);
    }
  }

  /** Each run reports the rounded average of the field over its own rows. */
  ghost predicate Reports(rnd: real -> real, runs: seq<Run>, average: Summary -> real, f: Row -> int) {
    forall i | 0 <= i < |runs| ::
      && average(runs[i].summary) == Rate(rnd, Sum(runs[i].rows, f), |runs[i].rows|)
      && runs[i].summary.total == |runs[i].rows|
  }

  lemma HonestReports(rnd: real -> real, runs: seq<Run>)
    requires Honest(rnd, runs)
    ensures Reports(rnd, runs, AvgRounds, RoundsOf) && Reports(rnd, runs, AvgRetries, RetriesOf)
  {
  }

  lemma RunBound(rnd: real -> real, run: Run, average: Summary -> real, sum: int)
    requires Rounds(rnd) && average(run.summary) == Rate(rnd, sum, |run.rows|) && run.summary.total == |run.rows|
    requires run.rows == [] ==> sum == 0
    ensures Within(RunWeight(run, average) - sum as real, Slack(|run.rows|))
  {
    WeightedRounding(rnd, sum, |run.rows|);
  }

  lemma {:induction false} WeightBound(rnd: real -> real, runs: seq<Run>, average: Summary -> real, f: Row -> int)
    requires Rounds(rnd) && Reports(rnd, runs, average, f)
    ensures Within(Weight(runs, average) - Sum(RowsOf(runs), f) as real, Slack(|RowsOf(runs)|))
  {
    if runs != [] {
      var init, last := runs[..|runs| - 1], runs[|runs| - 1];
      WeightBound(rnd, init, average, f);
      SumAppend(RowsOf(init), last.rows, f);
      RunBound(rnd, last, average, Sum(last.rows, f));
      Together(Weight(init, average), RunWeight(last, average), Sum(RowsOf(init), f), Sum(last.rows, f), |RowsOf(init)|, |last.rows|);
    }
  }

  lemma Together(v: real, w: real, s: int, t: int, m: nat, n: nat)
    requires Within(v - s as real, Slack(m)) && Within(w - t as real, Slack(n))
    ensures Within(v + w - (s + t) as real, Slack(m + n))
  {
  }

  lemma DivideBound(w: real, s: real, n: nat)
    requires n > 0 && Within(w - s, Slack(n))
    ensures Within(w / n as real - s / n as real, HALF_STEP)
  {
    var m := n as real;
    var d := w / m - s / m;
    assert d * m == w - s;
    Undo(d, HALF_STEP, m);
    Undo(-d, HALF_STEP, m);
  }

  lemma Undo(a: real, b: real, n: real)
    requires n > 0.0 && a * n <= b * n
    ensures a <= b
  {
    var gap := (b - a) * n;
    assert gap == b * n - a * n >= 0.0;
    assert b - a == gap / n;
  }

  /** However many workers there are, the merged average is within 0.0001 of the exact one. */
  lemma MergedAverageBound(rnd: real -> real, runs: seq<Run>, all: seq<Row>, average: Summary -> real, f: Row -> int)
    requires Rounds(rnd) && Reports(rnd, runs, average, f)
    requires multiset(RowsOf(runs)) == multiset(all) && all != []
    ensures Within(MergedAverage(rnd, runs, average, |all|) - Sum(all, f) as real / |all| as real, 0.0001)
  {
    assert |RowsOf(runs)| == |multiset(RowsOf(runs))| == |multiset(all)| == |all|;
    WeightBound(rnd, runs, average, f);
    SumReordered(RowsOf(runs), all, f);
    DivideBound(Weight(runs, average), Sum(all, f) as real, |all|);
    var x := Weight(runs, average) / |all| as real;
    assert -HALF_STEP <= rnd(x) - x <= HALF_STEP;
  }

  /** The merged averages of rounds and retries are within 0.0001 of those over all rows. */
  lemma RoundAndRetryAverages(rnd: real -> real, runs: seq<Run>, all: seq<Row>)
    requires Rounds(rnd) && Honest(rnd, runs) && multiset(RowsOf(runs)) == multiset(all) && Sequential(all) && all != []
    ensures var merged, n := MergeOf(rnd, runs).summary.averages, |all| as real;
            && Within(merged.rounds - Sum(all, RoundsOf) as real / n, 0.0001)
            && Within(merged.retries - Sum(all, RetriesOf) as real / n, 0.0001)
  {
    RowsRecovered(runs, all);
    HonestReports(rnd, runs);
    MergedAverageBound(rnd, runs, all, AvgRounds, RoundsOf);
    MergedAverageBound(rnd, runs, all, AvgRetries, RetriesOf);
  }

  // ---- Elapsed times are another matter ----

  /** A worker whose rows carry no elapsed time still weighs in, as if its average were zero: of two rows, one
      measured at 100 ms, the merged average is 50 ms, and a single run reports 100 ms, up to rounding. */
  lemma ElapsedAverageFails(rnd: real -> real, r: Row, s: Row)
    requires Rounds(rnd) && r.elapsed == Some(100.0) && s.elapsed == None && r.index < s.index
    ensures var runs := [Run([r], SummaryOf(rnd, [r])), Run([s], SummaryOf(rnd, [s]))];
            && Honest(rnd, runs) && RowsOf(runs) == [r, s] && Sequential([r, s])
            && MergeOf(rnd, runs).summary.averages.elapsed < 51.0
            && SummaryOf(rnd, [r, s]).averages.elapsed > 99.0
  {
    OneMeasured(rnd, r);
    OneMeasured(rnd, s);
    TwoMeasured(rnd, r, s);
    assert 99.0 < rnd(100.0) < 101.0;
    SummaryElapsed(rnd, [r]);
    SummaryElapsed(rnd, [s]);
    SummaryElapsed(rnd, [r, s]);
    MergedHalf(rnd, r, s, Run([r], SummaryOf(rnd, [r])), Run([s], SummaryOf(rnd, [s])));
  }

  lemma MeasuredStep(rows: seq<Row>, r: Row)
    ensures Measured(rows + [r], ElapsedOf) == Measured(rows, ElapsedOf) + Bit(r.elapsed.Some?)
    ensures MeasuredTotal(rows + [r], ElapsedOf) == MeasuredTotal(rows, ElapsedOf) + Value(r.elapsed)
  {
    assert (rows + [r])[..|rows|] == rows;
  }

  lemma OneMeasured(rnd: real -> real, r: Row)
    ensures Average(rnd, [r], ElapsedOf) == if r.elapsed.Some? then rnd(r.elapsed.value / 1.0) else 0.0
  {
    MeasuredStep([], r);
    assert [] + [r] == [r];
  }

  lemma TwoMeasured(rnd: real -> real, r: Row, s: Row)
    requires r.elapsed.Some? && s.elapsed == None
    ensures Average(rnd, [r, s], ElapsedOf) == rnd(r.elapsed.value / 1.0)
  {
    MeasuredStep([], r);
    MeasuredStep([r], s);
    assert [] + [r] == [r] && [r] + [s] == [r, s];
  }

  lemma TwoRuns(first: Run, second: Run)
    ensures RowsOf([first, second]) == first.rows + second.rows
    ensures Weight([first, second], AvgElapsed) == RunWeight(first, AvgElapsed) + RunWeight(second, AvgElapsed)
  {
    assert [first, second][..1] == [first] && [first][..0] == [];
    assert RowsOf([first]) == RowsOf([]) + first.rows;
    assert Weight([first], AvgElapsed) == Weight([], AvgElapsed) + RunWeight(first, AvgElapsed);
  }

  lemma SummaryElapsed(rnd: real -> real, rows: seq<Row>)
    ensures SummaryOf(rnd, rows).averages.elapsed == Average(rnd, rows, ElapsedOf) && SummaryOf(rnd, rows).total == |rows|
  {
  }

  lemma MergedElapsed(rnd: real -> real, runs: seq<Run>, n: nat)
    requires |SortRows(RowsOf(runs))| == n
    ensures MergeOf(rnd, runs).summary.averages.elapsed == MergedAverage(rnd, runs, AvgElapsed, n)
  {
  }

  lemma Halved(rnd: real -> real, runs: seq<Run>, first: Run, second: Run)
    requires Rounds(rnd)
    requires first.summary.averages.elapsed < 101.0 && first.summary.total == 1
    requires second.summary.averages.elapsed == 0.0 && second.summary.total == 1
    requires Weight(runs, AvgElapsed) == RunWeight(first, AvgElapsed) + RunWeight(second, AvgElapsed)
    ensures MergedAverage(rnd, runs, AvgElapsed, 2) < 51.0
  {
    assert RunWeight(first, AvgElapsed) < 101.0 && RunWeight(second, AvgElapsed) == 0.0;
    var x := Weight(runs, AvgElapsed) / 2.0;
    assert rnd(x) - x <= HALF_STEP;
  }

  lemma MergedHalf(rnd: real -> real, r: Row, s: Row, first: Run, second: Run)
    requires Rounds(rnd) && r.index < s.index
    requires first.rows == [r] && first.summary.averages.elapsed < 101.0 && first.summary.total == 1
    requires second.rows == [s] && second.summary.averages.elapsed == 0.0 && second.summary.total == 1
    ensures RowsOf([first, second]) == [r, s] && Sequential([r, s])
    ensures MergeOf(rnd, [first, second]).summary.averages.elapsed < 51.0
  {
    TwoRuns(first, second);
    assert [r] + [s] == [r, s];
    SortedLength([r, s]);
    MergedElapsed(rnd, [first, second], 2);
    Halved(rnd, [first, second], first, second);
  }

  lemma SortedLength(rows: seq<Row>)
    ensures |SortRows(rows)| == |rows|
  {
    SortRowsOrders(rows);
    assert |multiset(SortRows(rows))| == |multiset(rows)|;
  }

  // ---- `_merge_worker_results` as it runs ----

  lemma EmptyOrNot(keys: set<int>)
    ensures keys == {} || exists k: int :: k in keys
  {
    if forall k: int :: k !in keys {
      assert keys == {};
    }
  }

  method AnyKey(keys: set<int>) returns (key: int)
    requires keys != {}
    ensures key in keys
  {
    EmptyOrNot(keys);
    key :| key in keys;
  }

  /** What adding some keys of a histogram leaves. */
  ghost predicate Added(merged: map<int, int>, histogram: map<int, int>, done: set<int>, after: map<int, int>) {
    && done <= histogram.Keys
    && (forall k :: k in after <==> k in merged || k in done)
    && (forall k {:trigger At(after, k)} :: At(after, k) == At(merged, k) + if k in done then At(histogram, k) else 0)
  }

  lemma AddedStep(merged: map<int, int>, histogram: map<int, int>, done: set<int>, after: map<int, int>, key: int)
    requires Added(merged, histogram, done, after) && key in histogram && key !in done
    ensures Added(merged, histogram, done + {key}, after[key := At(after, key) + histogram[key]])
  {
    var more := after[key := At(after, key) + histogram[key]];
    forall k
      ensures At(more, k) == At(merged, k) + if k in done + {key} then At(histogram, k) else 0
    {
      assert k != key ==> At(more, k) == At(after, k);
    }
  }

  lemma AddedAll(merged: map<int, int>, histogram: map<int, int>, after: map<int, int>)
    requires Added(merged, histogram, histogram.Keys, after)
    ensures after == AddHistograms(merged, histogram)
  {
    SameHistogram(after, AddHistograms(merged, histogram));
  }

  method AddHistogram(merged: map<int, int>, histogram: map<int, int>) returns (after: map<int, int>)
    ensures after == AddHistograms(merged, histogram)
  {
    after := merged;
    var left := histogram.Keys;
    ghost var done: set<int> := {};
    while left != {}
      invariant left == histogram.Keys - done && Added(merged, histogram, done, after)
      decreases |left|
    {
      var key := AnyKey(left);
      AddedStep(merged, histogram, done, after, key);
      after := after[key := At(after, key) + histogram[key]];
      left, done := left - {key}, done + {key};
    }
    assert done == histogram.Keys;
    AddedAll(merged, histogram, after);
  }

  method MergeHistograms(runs: seq<Run>, histogram: Summary -> map<int, int>) returns (merged: map<int, int>)
    ensures merged == AllHistograms(runs, histogram)
  {
    merged := map[];
    for i := 0 to |runs|
      invariant merged == AllHistograms(runs[..i], histogram)
    {
      assert runs[..i + 1][..i] == runs[..i];
      merged := AddHistogram(merged, histogram(runs[i].summary));
    }
    assert runs[..|runs|] == runs;
  }

  method Gather(runs: seq<Run>) returns (rows: seq<Row>, counts: Counts, cases: Cases)
    ensures rows == RowsOf(runs) && counts == AllCounts(runs) && cases == AllCases(runs)
  {
    rows, counts, cases := [], NO_COUNTS, Cases([], [], []);
    for i := 0 to |runs|
      invariant rows == RowsOf(runs[..i]) && counts == AllCounts(runs[..i]) && cases == AllCases(runs[..i])
    {
      assert runs[..i + 1][..i] == runs[..i];
      var s := runs[i].summary;
      rows := rows + runs[i].rows;
      counts := AddCounts(counts, s.counts);
      cases := Cases(cases.correct + s.cases.correct, cases.errors + s.cases.errors, cases.misjudged + s.cases.misjudged);
    }
    assert runs[..|runs|] == runs;
  }

  /** `None` for an empty result set. */
  method MergeWorkerResults(rnd: real -> real, runs: seq<Run>) returns (merged: Option<Merged>)
    ensures merged == if runs == [] then None else Some(MergeOf(rnd, runs))
  {
    if runs == [] {
      return None;
    }
    var unsorted, counts, cases := Gather(runs);
    var rows := SortRows(unsorted);
    var n := |rows|;
    var rounds := MergeHistograms(runs, RoundsHistogram);
    var retries := MergeHistograms(runs, RetriesHistogram);
    var averages := Averages(MergedAverage(rnd, runs, AvgAgentElapsed, n), MergedAverage(rnd, runs, AvgElapsed, n),
                             MergedAverage(rnd, runs, AvgRounds, n), MergedAverage(rnd, runs, AvgRetries, n));
    return Some(Merged(rows, Summary(n, counts, Rate(rnd, counts.correct, n), Rate(rnd, counts.errors, n),
                                     averages, rounds, retries, cases)));
  }
}
