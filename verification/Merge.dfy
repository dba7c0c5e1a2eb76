/** Summaries of experiment results, and merging those of several workers:
    experiments/scripts/run_workflow_experiment.py and experiments/scripts/launch_experiments.py. */
module Merge {
  import opened Documents
  import opened Lists
  import opened Sorting
  import opened Sums

  /** One result row; `correct` and `misjudged` are what the row's own predicates say of it. */
  datatype Row = Row(index: int, rounds: int, retries: int, projections: int, projectedFields: int,
                     correct: bool, misjudged: bool, agentElapsed: Option<real>, elapsed: Option<real>)

  datatype Counts = Counts(correct: int, errors: int, misjudged: int, rounds: int, retries: int,
                           projections: int, projectedFields: int, projectionCases: int)

  datatype Averages = Averages(agentElapsed: real, elapsed: real, rounds: real, retries: real)

  datatype Cases = Cases(correct: seq<Row>, errors: seq<Row>, misjudged: seq<Row>)

  datatype Summary = Summary(total: nat, counts: Counts, correctRate: real, errorRate: real, averages: Averages,
                             rounds: map<int, int>, retries: map<int, int>, cases: Cases)

  datatype Run = Run(rows: seq<Row>, summary: Summary)

  datatype Merged = Merged(rows: seq<Row>, summary: Summary)

  // ---- Sums over rows ----

  function Sum(rows: seq<Row>, f: Row -> int): int {
    if rows == [] then 0 else Sum(rows[..|rows| - 1], f) + f(rows[|rows| - 1])
  }

  function Filter(rows: seq<Row>, p: Row -> bool): seq<Row> {
    if rows == [] then []
    else Filter(rows[..|rows| - 1], p) + if p(rows[|rows| - 1]) then [rows[|rows| - 1]] else []
  }

  function Bit(b: bool): int {
    if b then 1 else 0
  }

  lemma {:induction false} SumIsTotal(rows: seq<Row>, f: Row -> int)
    ensures Sum(rows, f) as real == Total(rows, r => f(r) as real)
  {
    if rows != [] {
      SumIsTotal(rows[..|rows| - 1], f);
    }
  }

  lemma SumReordered(a: seq<Row>, b: seq<Row>, f: Row -> int)
    requires multiset(a) == multiset(b)
    ensures Sum(a, f) == Sum(b, f)
  {
    SumIsTotal(a, f);
    SumIsTotal(b, f);
    TotalReordered(a, b, r => f(r) as real);
  }

  lemma SumAppend(a: seq<Row>, b: seq<Row>, f: Row -> int)
    ensures Sum(a + b, f) == Sum(a, f) + Sum(b, f)
  {
    SumIsTotal(a, f);
    SumIsTotal(b, f);
    SumIsTotal(a + b, f);
    TotalAppend(a, b, r => f(r) as real);
  }

  lemma {:induction false} FilterBag(rows: seq<Row>, p: Row -> bool, r: Row)
    ensures multiset(Filter(rows, p))[r] == if p(r) then multiset(rows)[r] else 0
  {
    if rows != [] {
      var last := |rows| - 1;
      FilterBag(rows[..last], p, r);
      assert rows == rows[..last] + [rows[last]];
    }
  }

  lemma FilterReordered(a: seq<Row>, b: seq<Row>, p: Row -> bool)
    requires multiset(a) == multiset(b)
    ensures multiset(Filter(a, p)) == multiset(Filter(b, p))
  {
    forall r: Row
      ensures multiset(Filter(a, p))[r] == multiset(Filter(b, p))[r]
    {
      FilterBag(a, p, r);
      FilterBag(b, p, r);
    }
  }

  lemma {:induction false} FilterAppend(a: seq<Row>, b: seq<Row>, p: Row -> bool)
    ensures Filter(a + b, p) == Filter(a, p) + Filter(b, p)
  {
    if b == [] {
      AppendNothing(a, b);
    } else {
      AppendInit(a, b);
      FilterAppend(a, b[..|b| - 1], p);
    }
  }

  // ---- Histograms ----

  function At(histogram: map<int, int>, k: int): int {
    if k in histogram then histogram[k] else 0
  }

  /** `Counter` over one field. */
  function Histogram(rows: seq<Row>, f: Row -> int): map<int, int> {
    if rows == [] then map[]
    else
      var before, k := Histogram(rows[..|rows| - 1], f), f(rows[|rows| - 1]);
      before[k := At(before, k) + 1]
  }

  function AddHistograms(a: map<int, int>, b: map<int, int>): map<int, int> {
    map k | k in a.Keys + b.Keys :: At(a, k) + At(b, k)
  }

  function Occurrences(rows: seq<Row>, f: Row -> int, k: int): int {
    Sum(rows, r => Bit(f(r) == k))
  }

  /** A histogram has exactly the values that occur, each with the number of its rows. */
  lemma {:induction false} HistogramIs(rows: seq<Row>, f: Row -> int, k: int)
    ensures At(Histogram(rows, f), k) == Occurrences(rows, f, k) >= 0
    ensures k in Histogram(rows, f) <==> Occurrences(rows, f, k) > 0
  {
    if rows != [] {
      HistogramIs(rows[..|rows| - 1], f, k);
    }
  }

  lemma SameHistogram(x: map<int, int>, y: map<int, int>)
    requires forall k: int {:trigger At(x, k)} :: (k in x <==> k in y) && At(x, k) == At(y, k)
    ensures x == y
  {
    forall k: int
      ensures k in x <==> k in y
      ensures k in x ==> x[k] == y[k]
    {
      var same := At(x, k);
    }
  }

  lemma HistogramReordered(a: seq<Row>, b: seq<Row>, f: Row -> int)
    requires multiset(a) == multiset(b)
    ensures Histogram(a, f) == Histogram(b, f)
  {
    var x, y := Histogram(a, f), Histogram(b, f);
    forall k: int
      ensures (k in x <==> k in y) && At(x, k) == At(y, k)
    {
      HistogramIs(a, f, k);
      HistogramIs(b, f, k);
      SumReordered(a, b, r => Bit(f(r) == k));
    }
    SameHistogram(x, y);
  }

  /** Adding the histograms of two parts gives the histogram of the whole. */
  lemma HistogramAppend(a: seq<Row>, b: seq<Row>, f: Row -> int)
    ensures Histogram(a + b, f) == AddHistograms(Histogram(a, f), Histogram(b, f))
  {
    var x, y := Histogram(a + b, f), AddHistograms(Histogram(a, f), Histogram(b, f));
    forall k: int
      ensures (k in x <==> k in y) && At(x, k) == At(y, k)
    {
      HistogramIs(a, f, k);
      HistogramIs(b, f, k);
      HistogramIs(a + b, f, k);
      SumAppend(a, b, r => Bit(f(r) == k));
    }
    SameHistogram(x, y);
  }

  // ---- The summary of one run ----

  function Measured(rows: seq<Row>, f: Row -> Option<real>): nat {
    if rows == [] then 0 else Measured(rows[..|rows| - 1], f) + Bit(f(rows[|rows| - 1]).Some?)
  }

  function MeasuredTotal(rows: seq<Row>, f: Row -> Option<real>): real {
    if rows == [] then 0.0 else MeasuredTotal(rows[..|rows| - 1], f) + Value(f(rows[|rows| - 1]))
  }

  function Value(o: Option<real>): real {
    if o.Some? then o.value else 0.0
  }

  /** `_average_numeric_field`: over the rows that have the value. */
  function Average(rnd: real -> real, rows: seq<Row>, f: Row -> Option<real>): real {
    if Measured(rows, f) == 0 then 0.0 else rnd(MeasuredTotal(rows, f) / Measured(rows, f) as real)
  }

  function Rate(rnd: real -> real, part: int, total: nat): real {
    if total == 0 then 0.0 else rnd(part as real / total as real)
  }

  function RoundsOf(r: Row): int { r.rounds }
  function RetriesOf(r: Row): int { r.retries }
  function AgentElapsedOf(r: Row): Option<real> { r.agentElapsed }
  function ElapsedOf(r: Row): Option<real> { r.elapsed }
  function ProjectionsOf(r: Row): int { r.projections }
  function FieldsOf(r: Row): int { r.projectedFields }
  function ProjectedBit(r: Row): int { Bit(r.projections > 0) }
  function CorrectBit(r: Row): int { Bit(r.correct) }
  function ErrorBit(r: Row): int { Bit(!r.correct) }
  function MisjudgedBit(r: Row): int { Bit(r.misjudged) }
  predicate IsCorrect(r: Row) { r.correct }
  predicate IsError(r: Row) { !r.correct }
  predicate IsMisjudged(r: Row) { r.misjudged }

  function CountsOf(rows: seq<Row>): Counts {
    Counts(Sum(rows, CorrectBit), Sum(rows, ErrorBit), Sum(rows, MisjudgedBit), Sum(rows, RoundsOf), Sum(rows, RetriesOf),
           Sum(rows, ProjectionsOf), Sum(rows, FieldsOf), Sum(rows, ProjectedBit))
  }

  function CasesOf(rows: seq<Row>): Cases {
    Cases(Filter(rows, IsCorrect), Filter(rows, IsError), Filter(rows, IsMisjudged))
  }

  function SummaryOf(rnd: real -> real, rows: seq<Row>): Summary {
    var n, counts := |rows|, CountsOf(rows);
    Summary(n, counts, Rate(rnd, counts.correct, n), Rate(rnd, counts.errors, n),
            Averages(Average(rnd, rows, AgentElapsedOf), Average(rnd, rows, ElapsedOf),
                     Rate(rnd, counts.rounds, n), Rate(rnd, counts.retries, n)),
            Histogram(rows, RoundsOf), Histogram(rows, RetriesOf), CasesOf(rows))
  }

  // ---- Sorting the merged rows ----

  predicate ByIndex(a: Row, b: Row) {
    a.index <= b.index
  }

  function SortRows(rows: seq<Row>): seq<Row> {
    Sort(rows, ByIndex)
  }

  /** The records of one run over the whole range: each has its own index, in order. */
  ghost predicate Sequential(rows: seq<Row>) {
    forall i, j | 0 <= i < j < |rows| :: rows[i].index < rows[j].index
  }

  lemma SortRowsOrders(rows: seq<Row>)
    ensures Ordered(SortRows(rows), ByIndex) && multiset(SortRows(rows)) == multiset(rows)
  {
    SortOrders(rows, ByIndex);
  }

  lemma LastSame(a: seq<Row>, b: seq<Row>)
    requires Sequential(a) && Ordered(b, ByIndex) && multiset(a) == multiset(b) && a != [] && b != []
    ensures a[|a| - 1] == b[|b| - 1]
  {
    assert a[|a| - 1] in multiset(b) && b[|b| - 1] in multiset(a);
    var i :| 0 <= i < |b| && b[i] == a[|a| - 1];
    var j :| 0 <= j < |a| && a[j] == b[|b| - 1];
  }

  /** Rows with distinct indices have one ordered arrangement. */
  lemma {:induction false} OrderedUnique(a: seq<Row>, b: seq<Row>)
    requires Sequential(a) && Ordered(b, ByIndex) && multiset(a) == multiset(b)
    ensures a == b
  {
    assert |a| == |multiset(a)| == |multiset(b)| == |b|;
    if a != [] {
      var last := |a| - 1;
      LastSame(a, b);
      BagInit(a);
      BagInit(b);
      OrderedUnique(a[..last], b[..last]);
      assert a == a[..last] + [a[last]] && b == b[..last] + [b[last]];
    }
  }

  // ---- `summarize_run_results` as it runs ----

  lemma {:induction false} CasesCounted(rows: seq<Row>)
    ensures |Filter(rows, IsCorrect)| == Sum(rows, CorrectBit)
    ensures Sum(rows, ErrorBit) == |rows| - Sum(rows, CorrectBit)
    ensures |Filter(rows, IsMisjudged)| == Sum(rows, MisjudgedBit)
  {
    if rows != [] {
      CasesCounted(rows[..|rows| - 1]);
    }
  }

  method Tally(counter: map<int, int>, k: int) returns (after: map<int, int>)
    ensures after == counter[k := At(counter, k) + 1]
  {
    after := counter[k := At(counter, k) + 1];
  }

  method CollectCases(results: seq<Row>) returns (rounds: map<int, int>, retries: map<int, int>, cases: Cases)
    ensures rounds == Histogram(results, RoundsOf) && retries == Histogram(results, RetriesOf) && cases == CasesOf(results)
  {
    rounds, retries := map[], map[];
    var correct, errors, misjudged := [], [], [];
    for i := 0 to |results|
      invariant rounds == Histogram(results[..i], RoundsOf) && retries == Histogram(results[..i], RetriesOf)
      invariant Cases(correct, errors, misjudged) == CasesOf(results[..i])
    {
      var item := results[i];
      assert results[..i + 1][..i] == results[..i];
      rounds := Tally(rounds, item.rounds);
      retries := Tally(retries, item.retries);
      if item.misjudged {
        misjudged := misjudged + [item];
      }
      if item.correct {
        correct := correct + [item];
      } else {
        errors := errors + [item];
      }
    }
    assert results[..|results|] == results;
    cases := Cases(correct, errors, misjudged);
  }

  method SummarizeRunResults(rnd: real -> real, results: seq<Row>) returns (s: Summary)
    ensures s == SummaryOf(rnd, results)
  {
    var rounds, retries, cases := CollectCases(results);
    CasesCounted(results);
    var n, correct := |results|, |cases.correct|;
    var counts := Counts(correct, n - correct, |cases.misjudged|, Sum(results, RoundsOf), Sum(results, RetriesOf),
                         Sum(results, ProjectionsOf), Sum(results, FieldsOf), Sum(results, ProjectedBit));
    s := Summary(n, counts, Rate(rnd, correct, n), Rate(rnd, n - correct, n),
                 Averages(Average(rnd, results, AgentElapsedOf), Average(rnd, results, ElapsedOf),
                          Rate(rnd, counts.rounds, n), Rate(rnd, counts.retries, n)),
                 rounds, retries, cases);
  }
}
