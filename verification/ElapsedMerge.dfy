/** When the merged elapsed averages of `_merge_worker_results` are those of one
    run over all rows.

    A worker's average is over its measured rows, and the merge weights it with all of them. */
module ElapsedMerge {
  import opened Documents
  import opened Hiding
  import opened Lists
  import opened Sums
  import opened Merge
  import opened Partition
  import opened WorkerMerge

  // ---- Exact averages ----

  /** The average that `_average_numeric_field` rounds. */
  function Mean(rows: seq<Row>, time: Row -> Option<real>): real {
    if Measured(rows, time) == 0 then 0.0 else MeasuredTotal(rows, time) / Measured(rows, time) as real
  }

  function Size(rows: seq<Row>): real { |rows| as real }

  function Timed(time: Row -> Option<real>): seq<Row> -> real {
    (rows: seq<Row>) => Measured(rows, time) as real
  }

  function Spent(time: Row -> Option<real>): seq<Row> -> real {
    (rows: seq<Row>) => MeasuredTotal(rows, time)
  }

  function MeanWeight(time: Row -> Option<real>): seq<Row> -> real {
    (rows: seq<Row>) => Mean(rows, time) * Size(rows)
  }

  /** What the merge would report if nothing were rounded. */
  function ExactMerge(shares: seq<seq<Row>>, time: Row -> Option<real>): real {
    if Total(shares, Size) == 0.0 then 0.0 else Total(shares, MeanWeight(time)) / Total(shares, Size)
  }

  /** The fraction of a worker's rows that are measured. */
  function Fraction(rows: seq<Row>, time: Row -> Option<real>): real
    requires rows != []
  {
    Measured(rows, time) as real / |rows| as real
  }

  /** Every worker with rows has measured the same fraction of them. */
  ghost predicate EvenlyMeasured(shares: seq<seq<Row>>, time: Row -> Option<real>) {
    forall i, j | 0 <= i < |shares| && 0 <= j < |shares| && shares[i] != [] && shares[j] != [] ::
      Fraction(shares[i], time) == Fraction(shares[j], time)
  }

  // ---- Sums over the workers ----

  lemma {:induction false} MeasuredAppend(a: seq<Row>, b: seq<Row>, time: Row -> Option<real>)
    ensures Measured(a + b, time) == Measured(a, time) + Measured(b, time)
    ensures MeasuredTotal(a + b, time) == MeasuredTotal(a, time) + MeasuredTotal(b, time)
  {
    if b == [] {
      AppendNothing(a, b);
    } else {
      AppendInit(a, b);
      MeasuredAppend(a, b[..|b| - 1], time);
    }
  }

  lemma {:induction false} SharesTogether(shares: seq<seq<Row>>, time: Row -> Option<real>)
    ensures Total(shares, Size) == |Concat(shares)| as real
    ensures Total(shares, Timed(time)) == Measured(Concat(shares), time) as real
    ensures Total(shares, Spent(time)) == MeasuredTotal(Concat(shares), time)
  {
    if shares != [] {
      var init, last := shares[..|shares| - 1], shares[|shares| - 1];
      SharesTogether(init, time);
      MeasuredAppend(Concat(init), last, time);
    }
  }

  lemma {:induction false} MeasuredIsTotal(rows: seq<Row>, time: Row -> Option<real>)
    ensures Measured(rows, time) as real == Total(rows, r => Bit(time(r).Some?) as real)
    ensures MeasuredTotal(rows, time) == Total(rows, r => Value(time(r)))
    ensures Measured(rows, time) <= |rows|
  {
    if rows != [] {
      MeasuredIsTotal(rows[..|rows| - 1], time);
    }
  }

  lemma MeanReordered(a: seq<Row>, b: seq<Row>, time: Row -> Option<real>)
    requires multiset(a) == multiset(b)
    ensures Mean(a, time) == Mean(b, time) && Measured(a, time) == Measured(b, time)
  {
    MeasuredIsTotal(a, time);
    MeasuredIsTotal(b, time);
    TotalReordered(a, b, r => Bit(time(r).Some?) as real);
    TotalReordered(a, b, r => Value(time(r)));
  }

  lemma {:induction false} NothingSpent(rows: seq<Row>, time: Row -> Option<real>)
    requires Measured(rows, time) == 0
    ensures MeasuredTotal(rows, time) == 0.0
  {
    if rows != [] {
      NothingSpent(rows[..|rows| - 1], time);
    }
  }

  // ---- Even measuring makes the merge exact ----

  lemma FractionTimes(rows: seq<Row>, time: Row -> Option<real>, phi: real)
    requires rows != [] ==> phi == Fraction(rows, time)
    ensures Timed(time)(rows) == Scaled(Size, phi)(rows)
  {
    if rows != [] {
      Undivided(Timed(time)(rows), Size(rows), phi);
      assert Scaled(Size, phi)(rows) == Size(rows) * phi;
    } else {
      assert Size(rows) == 0.0 && Timed(time)(rows) == 0.0;
    }
  }

  lemma Undivided(m: real, n: real, phi: real)
    requires n != 0.0 && phi == m / n
    ensures n * phi == m
  {
  }

  lemma Divided(t: real, m: real, n: real, phi: real)
    requires m == n * phi && m != 0.0
    ensures phi != 0.0 && t / m * n == t * (1.0 / phi)
  {
    assert phi != 0.0;
    assert t / m * m == t;
    assert (t / m * n) * phi == t;
    assert t * (1.0 / phi) * phi == t;
    Cancel(t / m * n, t * (1.0 / phi), phi);
  }

  lemma Cancel(a: real, b: real, c: real)
    requires c != 0.0 && a * c == b * c
    ensures a == b
  {
    assert a == a * c / c && b == b * c / c;
  }

  lemma Shares(t: real, m: real, n: real, phi: real, c: real)
    requires m == n * phi && c == if phi != 0.0 then 1.0 / phi else 0.0
    requires m == 0.0 ==> t == 0.0
    ensures (if m == 0.0 then 0.0 else t / m) * n == t * c
  {
    if m != 0.0 {
      Divided(t, m, n, phi);
    }
  }

  /** One worker's contribution, when its fraction is `phi`. */
  lemma EvenWeight(rows: seq<Row>, time: Row -> Option<real>, phi: real, c: real)
    requires Timed(time)(rows) == Scaled(Size, phi)(rows) && c == if phi != 0.0 then 1.0 / phi else 0.0
    ensures MeanWeight(time)(rows) == Scaled(Spent(time), c)(rows)
  {
    if Measured(rows, time) == 0 {
      NothingSpent(rows, time);
    }
    Shares(MeasuredTotal(rows, time), Measured(rows, time) as real, Size(rows), phi, c);
  }

  lemma ScaledTotal<T>(xs: seq<T>, f: T -> real, g: T -> real, c: real)
    requires forall x | x in xs :: f(x) == Scaled(g, c)(x)
    ensures Total(xs, f) == Total(xs, g) * c
  {
    TotalEach(xs, f, Scaled(g, c));
    TotalScaled(xs, g, c);
  }

  /** If `m` is `phi` times `n` throughout and `w` is `t` over `phi`, then the two averages agree. */
  lemma ScaledAverages<T>(xs: seq<T>, n: T -> real, m: T -> real, t: T -> real, w: T -> real, phi: real, c: real)
    requires forall x | x in xs :: m(x) == Scaled(n, phi)(x)
    requires forall x | x in xs :: w(x) == Scaled(t, c)(x)
    requires c == if phi != 0.0 then 1.0 / phi else 0.0
    ensures (if Total(xs, n) == 0.0 then 0.0 else Total(xs, w) / Total(xs, n))
            == (if Total(xs, m) == 0.0 then 0.0 else Total(xs, t) / Total(xs, m))
  {
    ScaledTotal(xs, m, n, phi);
    ScaledTotal(xs, w, t, c);
    SameQuotient(Total(xs, w), Total(xs, t), Total(xs, n), Total(xs, m), phi, c);
  }

  lemma EvenMerge(shares: seq<seq<Row>>, time: Row -> Option<real>, phi: real)
    requires forall rows | rows in shares :: Timed(time)(rows) == Scaled(Size, phi)(rows)
    ensures ExactMerge(shares, time) == Mean(Concat(shares), time)
  {
    var c := if phi != 0.0 then 1.0 / phi else 0.0;
    forall rows | rows in shares
      ensures MeanWeight(time)(rows) == Scaled(Spent(time), c)(rows)
    {
      EvenWeight(rows, time, phi, c);
    }
    SharesTogether(shares, time);
    ScaledAverages(shares, Size, Timed(time), Spent(time), MeanWeight(time), phi, c);
  }

  lemma SameQuotient(w: real, t: real, n: real, m: real, phi: real, c: real)
    requires m == n * phi
    requires c == (if phi != 0.0 then 1.0 / phi else 0.0) && w == t * c
    ensures (if n == 0.0 then 0.0 else w / n) == (if m == 0.0 then 0.0 else t / m)
  {
    if m != 0.0 {
      Quotients(t, n, m, phi);
    } else if n != 0.0 {
      Cancel(phi, 0.0, n);
    }
  }

  lemma Quotients(t: real, n: real, m: real, phi: real)
    requires m == n * phi && m != 0.0
    ensures n != 0.0 && phi != 0.0 && t * (1.0 / phi) / n == t / m
  {
    assert n != 0.0 && phi != 0.0;
    var x, y := t * (1.0 / phi) / n, t / m;
    assert x * n == t * (1.0 / phi);
    assert x * n * phi == t;
    assert y * m == t;
    assert x * m == x * n * phi;
    Cancel(x, y, m);
  }

  lemma CommonFraction(shares: seq<seq<Row>>, time: Row -> Option<real>) returns (phi: real)
    requires EvenlyMeasured(shares, time)
    ensures forall rows | rows in shares :: Timed(time)(rows) == Scaled(Size, phi)(rows)
  {
    phi := 0.0;
    if i :| 0 <= i < |shares| && shares[i] != [] {
      phi := Fraction(shares[i], time);
    }
    forall rows | rows in shares
      ensures Timed(time)(rows) == Scaled(Size, phi)(rows)
    {
      var j :| 0 <= j < |shares| && shares[j] == rows;
      FractionTimes(rows, time, phi);
    }
  }

  lemma EvenIsExact(shares: seq<seq<Row>>, time: Row -> Option<real>)
    requires EvenlyMeasured(shares, time)
    ensures ExactMerge(shares, time) == Mean(Concat(shares), time)
  {
    var phi := CommonFraction(shares, time);
    EvenMerge(shares, time, phi);
  }

  // ---- Uneven measuring does not ----

  /** The measured rows of these took `x`; the others stay unmeasured. */
  function Retimed(rows: seq<Row>, time: Row -> Option<real>, retime: (Row, real) -> Row, x: real): (out: seq<Row>)
    ensures |out| == |rows|
  {
    seq(|rows|, i requires 0 <= i < |rows| => if time(rows[i]).Some? then retime(rows[i], x) else rows[i])
  }

  ghost predicate Retimes(time: Row -> Option<real>, retime: (Row, real) -> Row) {
    forall r: Row, x: real :: time(retime(r, x)) == Some(x)
  }

  lemma {:induction false} RetimedIs(rows: seq<Row>, time: Row -> Option<real>, retime: (Row, real) -> Row, x: real)
    requires Retimes(time, retime)
    ensures Measured(Retimed(rows, time, retime, x), time) == Measured(rows, time)
    ensures MeasuredTotal(Retimed(rows, time, retime, x), time) == Measured(rows, time) as real * x
  {
    if rows != [] {
      var n := |rows| - 1;
      RetimedIs(rows[..n], time, retime, x);
      assert Retimed(rows, time, retime, x)[..n] == Retimed(rows[..n], time, retime, x);
    }
  }

  function Counted(time: Row -> Option<real>): seq<Row> -> real {
    (rows: seq<Row>) => if Measured(rows, time) == 0 then 0.0 else Size(rows)
  }

  /** `a` is `b` times `c`; dormant, to keep products out of sight. */
  ghost predicate Product(a: real, b: real, c: real) {
    forall k: nat {:trigger Asked(k)} :: Asked(k) ==> a == b * c
  }

  lemma ProductIs(a: real, b: real, c: real)
    requires Product(a, b, c)
    ensures a == b * c
  {
    assert Asked(0);
  }

  lemma RetimedKeeps(rows: seq<Row>, time: Row -> Option<real>, retime: (Row, real) -> Row, x: real)
    requires Retimes(time, retime)
    ensures var other := Retimed(rows, time, retime, x);
            Size(other) == Size(rows) && Timed(time)(other) == Timed(time)(rows)
  {
    RetimedIs(rows, time, retime, x);
  }

  lemma RetimedSpends(rows: seq<Row>, time: Row -> Option<real>, retime: (Row, real) -> Row, x: real)
    requires Retimes(time, retime)
    ensures Product(Spent(time)(Retimed(rows, time, retime, x)), Timed(time)(rows), x)
  {
    RetimedIs(rows, time, retime, x);
  }

  lemma RetimedWeighs(rows: seq<Row>, time: Row -> Option<real>, retime: (Row, real) -> Row, x: real)
    requires Retimes(time, retime)
    ensures Product(MeanWeight(time)(Retimed(rows, time, retime, x)), Counted(time)(rows), x)
  {
    RetimedIs(rows, time, retime, x);
    RetimedKeeps(rows, time, retime, x);
    WeightOf(Measured(rows, time), MeasuredTotal(Retimed(rows, time, retime, x), time), Size(rows), x);
  }

  lemma WeightOf(m: nat, t: real, n: real, x: real)
    requires t == m as real * x
    ensures (if m == 0 then 0.0 else t / m as real) * n == (if m == 0 then 0.0 else n) * x
  {
    if m != 0 {
      BackAgain(m as real, x);
      assert x * n == n * x;
    }
  }

  lemma BackAgain(m: real, x: real)
    requires m != 0.0
    ensures m * x / m == x
  {
  }

  /** The same rows measured, whatever the times. */
  ghost predicate SamePattern(shares: seq<seq<Row>>, others: seq<seq<Row>>, time: Row -> Option<real>) {
    |shares| == |others| && forall k | 0 <= k < |shares| :: SameMeasured(shares[k], others[k], time)
  }

  ghost predicate SameMeasured(a: seq<Row>, b: seq<Row>, time: Row -> Option<real>) {
    |a| == |b| && forall i | 0 <= i < |a| :: time(a[i]).Some? == time(b[i]).Some?
  }

  lemma {:induction false} SameCount(a: seq<Row>, b: seq<Row>, time: Row -> Option<real>)
    requires SameMeasured(a, b, time)
    ensures Measured(a, time) == Measured(b, time)
  {
    if a != [] {
      SameCount(a[..|a| - 1], b[..|b| - 1], time);
    }
  }

  lemma PatternEven(shares: seq<seq<Row>>, others: seq<seq<Row>>, time: Row -> Option<real>)
    requires SamePattern(shares, others, time) && EvenlyMeasured(shares, time)
    ensures EvenlyMeasured(others, time)
  {
    forall i, j | 0 <= i < |others| && 0 <= j < |others| && others[i] != [] && others[j] != []
      ensures Fraction(others[i], time) == Fraction(others[j], time)
    {
      SameCount(shares[i], others[i], time);
      SameCount(shares[j], others[j], time);
    }
  }

  /** Every worker's measured rows take the time given for it. */
  ghost predicate RetimedBy(shares: seq<seq<Row>>, others: seq<seq<Row>>, time: Row -> Option<real>,
                            retime: (Row, real) -> Row, at: nat -> real) {
    |others| == |shares| && forall k: nat | k < |shares| :: others[k] == Retimed(shares[k], time, retime, at(k))
  }

  lemma RetimedTotals(shares: seq<seq<Row>>, others: seq<seq<Row>>, time: Row -> Option<real>,
                      retime: (Row, real) -> Row, at: nat -> real)
    requires Retimes(time, retime) && RetimedBy(shares, others, time, retime, at)
    ensures Total(others, Size) == Total(shares, Size) && Total(others, Timed(time)) == Total(shares, Timed(time))
    ensures SamePattern(shares, others, time)
  {
    forall k: nat | k < |shares|
      ensures Size(others[k]) == Size(shares[k]) && Timed(time)(others[k]) == Timed(time)(shares[k])
      ensures SameMeasured(shares[k], others[k], time)
    {
      RetimedKeeps(shares[k], time, retime, at(k));
    }
    TotalPointwise(others, shares, Size, Size);
    TotalPointwise(others, shares, Timed(time), Timed(time));
  }

  lemma AllSpend(shares: seq<seq<Row>>, others: seq<seq<Row>>, time: Row -> Option<real>, retime: (Row, real) -> Row, x: real)
    requires Retimes(time, retime) && RetimedBy(shares, others, time, retime, k => x)
    ensures Product(Total(others, Spent(time)), Total(shares, Timed(time)), x)
  {
    forall k | 0 <= k < |shares|
      ensures Product(Spent(time)(others[k]), Timed(time)(shares[k]), x)
    {
      RetimedSpends(shares[k], time, retime, x);
    }
    ScaledPointwise(others, shares, Spent(time), Timed(time), x);
  }

  lemma AllWeigh(shares: seq<seq<Row>>, others: seq<seq<Row>>, time: Row -> Option<real>, retime: (Row, real) -> Row, x: real)
    requires Retimes(time, retime) && RetimedBy(shares, others, time, retime, k => x)
    ensures Product(Total(others, MeanWeight(time)), Total(shares, Counted(time)), x)
  {
    forall k | 0 <= k < |shares|
      ensures Product(MeanWeight(time)(others[k]), Counted(time)(shares[k]), x)
    {
      RetimedWeighs(shares[k], time, retime, x);
    }
    ScaledPointwise(others, shares, MeanWeight(time), Counted(time), x);
  }

  /** All measured rows take `x`. */
  lemma AllTake(shares: seq<seq<Row>>, time: Row -> Option<real>, retime: (Row, real) -> Row, x: real)
    returns (others: seq<seq<Row>>)
    requires Retimes(time, retime)
    ensures SamePattern(shares, others, time)
    ensures Total(others, Size) == Total(shares, Size) && Total(others, Timed(time)) == Total(shares, Timed(time))
    ensures Product(Total(others, Spent(time)), Total(shares, Timed(time)), x)
    ensures Product(Total(others, MeanWeight(time)), Total(shares, Counted(time)), x)
  {
    others := seq(|shares|, k requires 0 <= k < |shares| => Retimed(shares[k], time, retime, x));
    RetimedTotals(shares, others, time, retime, k => x);
    AllSpend(shares, others, time, retime, x);
    AllWeigh(shares, others, time, retime, x);
  }

  lemma ScaledPointwise<S, T>(xs: seq<S>, ys: seq<T>, f: S -> real, g: T -> real, c: real)
    requires |xs| == |ys| && forall i {:trigger xs[i]} | 0 <= i < |xs| :: Product(f(xs[i]), g(ys[i]), c)
    ensures Product(Total(xs, f), Total(ys, g), c)
  {
    forall i | 0 <= i < |xs|
      ensures f(xs[i]) == Scaled(g, c)(ys[i])
    {
      ProductIs(f(xs[i]), g(ys[i]), c);
    }
    TotalPointwise(xs, ys, f, Scaled(g, c));
    TotalScaled(ys, g, c);
  }

  function OnlyAt(i: nat, x: real): nat -> real {
    k => if k == i then x else 0.0
  }

  lemma OneSpends(shares: seq<seq<Row>>, others: seq<seq<Row>>, time: Row -> Option<real>, retime: (Row, real) -> Row, i: nat, x: real)
    requires Retimes(time, retime) && i < |shares| && RetimedBy(shares, others, time, retime, OnlyAt(i, x))
    ensures Product(Total(others, Spent(time)), Timed(time)(shares[i]), x)
  {
    forall k | 0 <= k < |shares| && k != i
      ensures Spent(time)(others[k]) == 0.0
    {
      RetimedSpends(shares[k], time, retime, 0.0);
      ProductIs(Spent(time)(others[k]), Timed(time)(shares[k]), 0.0);
    }
    TotalOfOne(others, i, Spent(time));
    RetimedSpends(shares[i], time, retime, x);
  }

  lemma OneWeighs(shares: seq<seq<Row>>, others: seq<seq<Row>>, time: Row -> Option<real>, retime: (Row, real) -> Row, i: nat, x: real)
    requires Retimes(time, retime) && i < |shares| && RetimedBy(shares, others, time, retime, OnlyAt(i, x))
    ensures Product(Total(others, MeanWeight(time)), Counted(time)(shares[i]), x)
  {
    forall k | 0 <= k < |shares| && k != i
      ensures MeanWeight(time)(others[k]) == 0.0
    {
      RetimedWeighs(shares[k], time, retime, 0.0);
      ProductIs(MeanWeight(time)(others[k]), Counted(time)(shares[k]), 0.0);
    }
    TotalOfOne(others, i, MeanWeight(time));
    RetimedWeighs(shares[i], time, retime, x);
  }

  /** The measured rows of one worker take `x`, and those of the others no time. */
  lemma OneTakes(shares: seq<seq<Row>>, time: Row -> Option<real>, retime: (Row, real) -> Row, i: nat, x: real)
    returns (others: seq<seq<Row>>)
    requires Retimes(time, retime) && i < |shares|
    ensures SamePattern(shares, others, time)
    ensures Total(others, Size) == Total(shares, Size) && Total(others, Timed(time)) == Total(shares, Timed(time))
    ensures Product(Total(others, Spent(time)), Timed(time)(shares[i]), x)
    ensures Product(Total(others, MeanWeight(time)), Counted(time)(shares[i]), x)
  {
    others := seq(|shares|, k requires 0 <= k < |shares| => Retimed(shares[k], time, retime, OnlyAt(i, x)(k)));
    RetimedTotals(shares, others, time, retime, OnlyAt(i, x));
    OneSpends(shares, others, time, retime, i, x);
    OneWeighs(shares, others, time, retime, i, x);
  }

  lemma TotalOfOne<T>(xs: seq<T>, i: nat, f: T -> real)
    requires i < |xs| && forall k {:trigger xs[k]} | 0 <= k < |xs| && k != i :: f(xs[k]) == 0.0
    ensures Total(xs, f) == f(xs[i])
  {
    var rest := xs[..i] + xs[i + 1..];
    forall x | x in rest
      ensures f(x) == 0.0
    {
      var k :| 0 <= k < |rest| && rest[k] == x;
      assert x == xs[if k < i then k else k + 1];
    }
    TotalZero(rest, f);
    TotalRemove(xs, i, f);
  }

  /** Numerators that are not in proportion are told apart by a large enough time. */
  lemma ScaleUp(n: real, m: real, size: real, timed: real) returns (x: real)
    requires size > 0.0 && timed > 0.0 && n / size != m / timed
    ensures x > 0.0 && Far(n * x / size, m * x / timed)
  {
    var d := n / size - m / timed;
    x := if d > 0.0 then 1.0 / d else 1.0 / (-d);
    Slid(n, size, x);
    Slid(m, timed, x);
    assert n / size * x - m / timed * x == d * x;
    Inverse(d);
  }

  ghost predicate Far(a: real, b: real) {
    a - b >= 1.0 || a - b <= -1.0
  }

  lemma Slid(n: real, size: real, x: real)
    requires size > 0.0
    ensures n * x / size == n / size * x
  {
    var q := n / size;
    assert q * size == n;
    assert n * x == q * x * size;
    BackAgain(size, q * x);
    assert size * (q * x) == n * x;
  }

  lemma Inverse(d: real)
    requires d != 0.0
    ensures d > 0.0 ==> d * (1.0 / d) == 1.0
    ensures d < 0.0 ==> d * (1.0 / (-d)) == -1.0
  {
  }

  lemma MeasuredCounts(shares: seq<seq<Row>>, time: Row -> Option<real>, i: nat)
    requires i < |shares|
    ensures Total(shares, Size) >= Size(shares[i])
    ensures Total(shares, Timed(time)) >= Timed(time)(shares[i])
    ensures Measured(shares[i], time) == 0 ==> Total(shares, Counted(time)) <= Total(shares, Size) - Size(shares[i])
  {
    var rest := shares[..i] + shares[i + 1..];
    TotalRemove(shares, i, Size);
    TotalRemove(shares, i, Timed(time));
    TotalRemove(shares, i, Counted(time));
    TotalZero(rest, rows => 0.0);
    TotalAtMost(rest, rows => 0.0, Size);
    TotalAtMost(rest, rows => 0.0, Timed(time));
    TotalAtMost(rest, Counted(time), Size);
  }

  /** Two different fractions cannot both be the common one, and something is measured. */
  lemma FractionOff(shares: seq<seq<Row>>, time: Row -> Option<real>) returns (i: nat)
    requires !EvenlyMeasured(shares, time)
    ensures i < |shares| && shares[i] != []
    ensures Total(shares, Size) > 0.0 && Total(shares, Timed(time)) > 0.0
    ensures Fraction(shares[i], time) != Total(shares, Timed(time)) / Total(shares, Size)
  {
    var a, b :| 0 <= a < |shares| && 0 <= b < |shares| && shares[a] != [] && shares[b] != []
                && Fraction(shares[a], time) != Fraction(shares[b], time);
    MeasuredCounts(shares, time, a);
    MeasuredCounts(shares, time, b);
    i := if Fraction(shares[a], time) != Total(shares, Timed(time)) / Total(shares, Size) then a else b;
  }

  lemma Crossed(m: real, n: real, timed: real, size: real)
    requires n > 0.0 && size > 0.0 && timed > 0.0
    ensures n / size == m / timed ==> m / n == timed / size
  {
    if n / size == m / timed {
      assert n == m / timed * size;
      assert n * timed == m * size;
      assert m / n * n == m && timed / size * size == timed;
      assert m / n * (n * size) == timed / size * (n * size);
      Cancel(m / n, timed / size, n * size);
    }
  }

  /** What the merge and the average come to, from the totals. */
  lemma FromTotals(others: seq<seq<Row>>, time: Row -> Option<real>, w: real, t: real, size: real, timed: real)
    requires Total(others, Size) == size > 0.0 && Total(others, Timed(time)) == timed > 0.0
    requires Total(others, MeanWeight(time)) == w && Total(others, Spent(time)) == t
    ensures ExactMerge(others, time) == w / size && Mean(Concat(others), time) == t / timed
  {
    SharesTogether(others, time);
  }

  /** If the workers measured different fractions of their rows, there are times for which the unrounded merge
      is off by one or more. */
  lemma UnevenIsOff(shares: seq<seq<Row>>, time: Row -> Option<real>, retime: (Row, real) -> Row)
    returns (others: seq<seq<Row>>)
    requires Retimes(time, retime) && !EvenlyMeasured(shares, time)
    ensures SamePattern(shares, others, time) && Far(ExactMerge(others, time), Mean(Concat(others), time))
  {
    var i := FractionOff(shares, time);
    var size, timed := Total(shares, Size), Total(shares, Timed(time));
    var n, m;
    if Measured(shares[i], time) == 0 {
      MeasuredCounts(shares, time, i);
      n, m := Total(shares, Counted(time)), timed;
      LessThanOne(n, size, timed);
      var x := ScaleUp(n, m, size, timed);
      others := AllTake(shares, time, retime, x);
      Apart(others, time, n, m, size, timed, x);
    } else {
      n, m := Size(shares[i]), Timed(time)(shares[i]);
      Crossed(m, n, timed, size);
      var x := ScaleUp(n, m, size, timed);
      others := OneTakes(shares, time, retime, i, x);
      Apart(others, time, n, m, size, timed, x);
    }
  }

  lemma LessThanOne(n: real, size: real, timed: real)
    requires n < size && size > 0.0 && timed > 0.0
    ensures n / size != timed / timed
  {
    assert n / size * size == n;
  }

  lemma Apart(others: seq<seq<Row>>, time: Row -> Option<real>, n: real, m: real, size: real, timed: real, x: real)
    requires Total(others, Size) == size > 0.0 && Total(others, Timed(time)) == timed > 0.0
    requires Product(Total(others, MeanWeight(time)), n, x) && Product(Total(others, Spent(time)), m, x)
    requires Far(n * x / size, m * x / timed)
    ensures Far(ExactMerge(others, time), Mean(Concat(others), time))
  {
    ProductIs(Total(others, MeanWeight(time)), n, x);
    ProductIs(Total(others, Spent(time)), m, x);
    FromTotals(others, time, n * x, m * x, size, timed);
  }

  // ---- Rounded merges of workers' runs ----

  function SharesOf(runs: seq<Run>): (shares: seq<seq<Row>>)
    ensures |shares| == |runs| && forall k | 0 <= k < |runs| :: shares[k] == runs[k].rows
  {
    seq(|runs|, k requires 0 <= k < |runs| => runs[k].rows)
  }

  lemma {:induction false} SharesJoined(runs: seq<Run>)
    ensures Concat(SharesOf(runs)) == RowsOf(runs)
  {
    if runs != [] {
      var init := runs[..|runs| - 1];
      SharesJoined(init);
      assert SharesOf(runs)[..|runs| - 1] == SharesOf(init);
    }
  }

  /** `rnd` moves no number by more than `eps`. */
  ghost predicate RoundsWithin(rnd: real -> real, eps: real) {
    eps >= 0.0 && forall x: real :: -eps <= rnd(x) - x <= eps
  }

  /** Each run reports its rounded average over its measured rows. */
  ghost predicate ReportsMeans(rnd: real -> real, runs: seq<Run>, time: Row -> Option<real>, average: Summary -> real) {
    forall i | 0 <= i < |runs| ::
      average(runs[i].summary) == Average(rnd, runs[i].rows, time) && runs[i].summary.total == |runs[i].rows|
  }

  lemma NearMean(rnd: real -> real, eps: real, rows: seq<Row>, time: Row -> Option<real>)
    requires RoundsWithin(rnd, eps)
    ensures Within(Average(rnd, rows, time) - Mean(rows, time), eps)
  {
  }

  /** `d` is at most `eps` times `n` in size; dormant. */
  ghost predicate WithinProduct(d: real, eps: real, n: real) {
    forall k: nat {:trigger Asked(k)} :: Asked(k) ==> Within(d, eps * n)
  }

  lemma WithinProductIs(d: real, eps: real, n: real)
    requires WithinProduct(d, eps, n)
    ensures Within(d, eps * n)
  {
    assert Asked(0);
  }

  lemma NearProduct(a: real, b: real, n: real, eps: real)
    requires Within(a - b, eps) && n >= 0.0
    ensures WithinProduct(a * n - b * n, eps, n)
  {
    Scale(a - b, eps, n);
    Scale(-eps, a - b, n);
    assert (a - b) * n == a * n - b * n;
    assert (-eps) * n == -(eps * n);
  }

  lemma NearSum(v: real, w: real, s: real, t: real, eps: real, m: real, n: real)
    requires WithinProduct(v - s, eps, m) && WithinProduct(w - t, eps, n)
    ensures WithinProduct(v + w - (s + t), eps, m + n)
  {
    WithinProductIs(v - s, eps, m);
    WithinProductIs(w - t, eps, n);
    assert eps * m + eps * n == eps * (m + n);
  }

  lemma {:induction false} NearTotals<S, T>(xs: seq<S>, ys: seq<T>, f: S -> real, g: T -> real, n: T -> real, eps: real)
    requires |xs| == |ys| && forall i {:trigger xs[i]} | 0 <= i < |xs| :: WithinProduct(f(xs[i]) - g(ys[i]), eps, n(ys[i]))
    ensures WithinProduct(Total(xs, f) - Total(ys, g), eps, Total(ys, n))
  {
    if xs == [] {
      assert Within(0.0, eps * 0.0);
    } else {
      var k := |xs| - 1;
      NearTotals(xs[..k], ys[..k], f, g, n, eps);
      NearSum(Total(xs[..k], f), f(xs[k]), Total(ys[..k], g), g(ys[k]), eps, Total(ys[..k], n), n(ys[k]));
    }
  }

  function Weighed(average: Summary -> real): Run -> real {
    (run: Run) => RunWeight(run, average)
  }

  lemma {:induction false} WeightIsTotal(runs: seq<Run>, average: Summary -> real)
    ensures Weight(runs, average) == Total(runs, Weighed(average))
  {
    if runs != [] {
      WeightIsTotal(runs[..|runs| - 1], average);
    }
  }

  lemma NearShare(rnd: real -> real, eps: real, run: Run, time: Row -> Option<real>, average: Summary -> real)
    requires RoundsWithin(rnd, eps)
    requires average(run.summary) == Average(rnd, run.rows, time) && run.summary.total == |run.rows|
    ensures WithinProduct(Weighed(average)(run) - MeanWeight(time)(run.rows), eps, Size(run.rows))
  {
    NearMean(rnd, eps, run.rows, time);
    NearProduct(average(run.summary), Mean(run.rows, time), Size(run.rows), eps);
  }

  lemma NearWeight(rnd: real -> real, eps: real, runs: seq<Run>, time: Row -> Option<real>, average: Summary -> real)
    requires RoundsWithin(rnd, eps) && ReportsMeans(rnd, runs, time, average)
    ensures WithinProduct(Weight(runs, average) - Total(SharesOf(runs), MeanWeight(time)), eps, Total(SharesOf(runs), Size))
  {
    forall i | 0 <= i < |runs|
      ensures WithinProduct(Weighed(average)(runs[i]) - MeanWeight(time)(SharesOf(runs)[i]), eps, Size(SharesOf(runs)[i]))
    {
      NearShare(rnd, eps, runs[i], time, average);
    }
    NearTotals(runs, SharesOf(runs), Weighed(average), MeanWeight(time), Size, eps);
    WeightIsTotal(runs, average);
  }

  lemma NearQuotient(w: real, s: real, n: real, eps: real)
    requires n > 0.0 && Within(w - s, eps * n)
    ensures Within(w / n - s / n, eps)
  {
    var a, b := w / n, s / n;
    assert a * n == w && b * n == s;
    assert (a - b) * n == a * n - b * n;
    assert (b - a) * n == b * n - a * n;
    Undo(a - b, eps, n);
    Undo(b - a, eps, n);
  }

  lemma NearRounded(rnd: real -> real, eps: real, w: real, s: real, n: real)
    requires RoundsWithin(rnd, eps) && n > 0.0 && Within(w - s, eps * n)
    ensures Within(rnd(w / n) - s / n, 2.0 * eps)
  {
    NearQuotient(w, s, n, eps);
    var x := w / n;
    assert -eps <= rnd(x) - x <= eps;
  }

  lemma WeightsNear(rnd: real -> real, eps: real, runs: seq<Run>, time: Row -> Option<real>, average: Summary -> real)
    requires RoundsWithin(rnd, eps) && ReportsMeans(rnd, runs, time, average)
    ensures Total(SharesOf(runs), Size) == |RowsOf(runs)| as real
    ensures WithinProduct(Weight(runs, average) - Total(SharesOf(runs), MeanWeight(time)), eps, |RowsOf(runs)| as real)
  {
    SharesJoined(runs);
    SharesTogether(SharesOf(runs), time);
    NearWeight(rnd, eps, runs, time, average);
  }

  lemma MergedFrom(rnd: real -> real, eps: real, w: real, s: real, n: nat)
    requires RoundsWithin(rnd, eps) && WithinProduct(w - s, eps, n as real)
    ensures Within((if n == 0 then 0.0 else rnd(w / n as real)) - (if n as real == 0.0 then 0.0 else s / n as real), 2.0 * eps)
  {
    if n > 0 {
      WithinProductIs(w - s, eps, n as real);
      NearRounded(rnd, eps, w, s, n as real);
    }
  }

  /** The merged average is within two roundings of the unrounded merge. */
  lemma MergedNear(rnd: real -> real, eps: real, runs: seq<Run>, time: Row -> Option<real>, average: Summary -> real)
    requires RoundsWithin(rnd, eps) && ReportsMeans(rnd, runs, time, average)
    ensures Within(MergedAverage(rnd, runs, average, |RowsOf(runs)|) - ExactMerge(SharesOf(runs), time), 2.0 * eps)
  {
    WeightsNear(rnd, eps, runs, time, average);
    MergedFrom(rnd, eps, Weight(runs, average), Total(SharesOf(runs), MeanWeight(time)), |RowsOf(runs)|);
  }

  /** The merge reports the average over all rows, up to the two roundings. */
  ghost predicate Reported(rnd: real -> real, eps: real, runs: seq<Run>, time: Row -> Option<real>, average: Summary -> real) {
    Within(MergedAverage(rnd, runs, average, |RowsOf(runs)|) - Mean(RowsOf(runs), time), 2.0 * eps)
  }

  lemma EvenReported(rnd: real -> real, eps: real, runs: seq<Run>, time: Row -> Option<real>, average: Summary -> real)
    requires RoundsWithin(rnd, eps) && ReportsMeans(rnd, runs, time, average) && EvenlyMeasured(SharesOf(runs), time)
    ensures Reported(rnd, eps, runs, time, average)
  {
    MergedNear(rnd, eps, runs, time, average);
    EvenIsExact(SharesOf(runs), time);
    SharesJoined(runs);
  }

  lemma FarNotReported(rnd: real -> real, eps: real, runs: seq<Run>, time: Row -> Option<real>, average: Summary -> real)
    requires RoundsWithin(rnd, eps) && eps < 0.25 && ReportsMeans(rnd, runs, time, average)
    requires Far(ExactMerge(SharesOf(runs), time), Mean(Concat(SharesOf(runs)), time))
    ensures !Reported(rnd, eps, runs, time, average)
  {
    MergedNear(rnd, eps, runs, time, average);
    SharesJoined(runs);
  }

  function HonestRuns(rnd: real -> real, shares: seq<seq<Row>>): (runs: seq<Run>)
    ensures SharesOf(runs) == shares
    ensures forall i | 0 <= i < |runs| :: runs[i].summary == SummaryOf(rnd, runs[i].rows)
  {
    seq(|shares|, i requires 0 <= i < |shares| => Run(shares[i], SummaryOf(rnd, shares[i])))
  }

  /** Runs over the same rows, but for their times. */
  ghost predicate SameRuns(runs: seq<Run>, others: seq<Run>, time: Row -> Option<real>) {
    SamePattern(SharesOf(runs), SharesOf(others), time)
  }

  // ---- The two elapsed averages ----

  function WithElapsed(r: Row, x: real): Row { r.(elapsed := Some(x)) }
  function WithAgentElapsed(r: Row, x: real): Row { r.(agentElapsed := Some(x)) }

  lemma HonestMeans(rnd: real -> real, runs: seq<Run>)
    requires Honest(rnd, runs)
    ensures ReportsMeans(rnd, runs, ElapsedOf, AvgElapsed) && ReportsMeans(rnd, runs, AgentElapsedOf, AvgAgentElapsed)
  {
  }

  lemma MergedAverages(rnd: real -> real, runs: seq<Run>)
    ensures var averages, n := MergeOf(rnd, runs).summary.averages, |RowsOf(runs)|;
            && averages.elapsed == MergedAverage(rnd, runs, AvgElapsed, n)
            && averages.agentElapsed == MergedAverage(rnd, runs, AvgAgentElapsed, n)
  {
    SortedLength(RowsOf(runs));
  }

  lemma UnevenNotReported(rnd: real -> real, eps: real, runs: seq<Run>, time: Row -> Option<real>, retime: (Row, real) -> Row,
                          average: Summary -> real) returns (others: seq<Run>)
    requires RoundsWithin(rnd, eps) && eps < 0.25 && Retimes(time, retime) && !EvenlyMeasured(SharesOf(runs), time)
    requires forall runs: seq<Run> | Honest(rnd, runs) :: ReportsMeans(rnd, runs, time, average)
    ensures Honest(rnd, others) && SameRuns(runs, others, time) && !Reported(rnd, eps, others, time, average)
  {
    var shares := UnevenIsOff(SharesOf(runs), time, retime);
    others := HonestRuns(rnd, shares);
    assert Honest(rnd, others);
    FarNotReported(rnd, eps, others, time, average);
  }

  /** `x` is the average of the measured rows, up to two roundings. */
  ghost predicate TrueAverage(x: real, eps: real, rows: seq<Row>, time: Row -> Option<real>) {
    Within(x - Mean(rows, time), 2.0 * eps)
  }

  lemma ElapsedReported(rnd: real -> real, eps: real, others: seq<Run>)
    ensures TrueAverage(MergeOf(rnd, others).summary.averages.elapsed, eps, RowsOf(others), ElapsedOf)
            <==> Reported(rnd, eps, others, ElapsedOf, AvgElapsed)
    ensures TrueAverage(MergeOf(rnd, others).summary.averages.agentElapsed, eps, RowsOf(others), AgentElapsedOf)
            <==> Reported(rnd, eps, others, AgentElapsedOf, AvgAgentElapsed)
  {
    MergedAverages(rnd, others);
  }

  lemma HonestMeansAll(rnd: real -> real)
    ensures forall runs: seq<Run> | Honest(rnd, runs) :: ReportsMeans(rnd, runs, ElapsedOf, AvgElapsed)
    ensures forall runs: seq<Run> | Honest(rnd, runs) :: ReportsMeans(rnd, runs, AgentElapsedOf, AvgAgentElapsed)
  {
    forall runs: seq<Run> | Honest(rnd, runs)
      ensures ReportsMeans(rnd, runs, ElapsedOf, AvgElapsed) && ReportsMeans(rnd, runs, AgentElapsedOf, AvgAgentElapsed)
    {
      HonestMeans(rnd, runs);
    }
  }

  /** The merged elapsed average is that of all measured rows, up to two roundings and for every choice of the
      times, if and only if all workers with rows measured the same fraction of them. */
  lemma ElapsedExactly(rnd: real -> real, eps: real, runs: seq<Run>)
    requires RoundsWithin(rnd, eps) && eps < 0.25
    ensures (forall others: seq<Run> | Honest(rnd, others) && SameRuns(runs, others, ElapsedOf) ::
               TrueAverage(MergeOf(rnd, others).summary.averages.elapsed, eps, RowsOf(others), ElapsedOf))
            <==> EvenlyMeasured(SharesOf(runs), ElapsedOf)
  {
    HonestMeansAll(rnd);
    if EvenlyMeasured(SharesOf(runs), ElapsedOf) {
      forall others: seq<Run> | Honest(rnd, others) && SameRuns(runs, others, ElapsedOf)
        ensures TrueAverage(MergeOf(rnd, others).summary.averages.elapsed, eps, RowsOf(others), ElapsedOf)
      {
        PatternEven(SharesOf(runs), SharesOf(others), ElapsedOf);
        EvenReported(rnd, eps, others, ElapsedOf, AvgElapsed);
        ElapsedReported(rnd, eps, others);
      }
    } else {
      var others := UnevenNotReported(rnd, eps, runs, ElapsedOf, WithElapsed, AvgElapsed);
      ElapsedReported(rnd, eps, others);
    }
  }

  /** The same of the agents' elapsed time. */
  lemma AgentElapsedExactly(rnd: real -> real, eps: real, runs: seq<Run>)
    requires RoundsWithin(rnd, eps) && eps < 0.25
    ensures (forall others: seq<Run> | Honest(rnd, others) && SameRuns(runs, others, AgentElapsedOf) ::
               TrueAverage(MergeOf(rnd, others).summary.averages.agentElapsed, eps, RowsOf(others), AgentElapsedOf))
            <==> EvenlyMeasured(SharesOf(runs), AgentElapsedOf)
  {
    HonestMeansAll(rnd);
    if EvenlyMeasured(SharesOf(runs), AgentElapsedOf) {
      forall others: seq<Run> | Honest(rnd, others) && SameRuns(runs, others, AgentElapsedOf)
        ensures TrueAverage(MergeOf(rnd, others).summary.averages.agentElapsed, eps, RowsOf(others), AgentElapsedOf)
      {
        PatternEven(SharesOf(runs), SharesOf(others), AgentElapsedOf);
        EvenReported(rnd, eps, others, AgentElapsedOf, AvgAgentElapsed);
        ElapsedReported(rnd, eps, others);
      }
    } else {
      var others := UnevenNotReported(rnd, eps, runs, AgentElapsedOf, WithAgentElapsed, AvgAgentElapsed);
      ElapsedReported(rnd, eps, others);
    }
  }

  /** What `round(x, 4)` makes of it: evenly measured workers merge to within 0.0001 of the averages of the whole
      run, and that run reports them to within half a unit of the fourth digit. */
  lemma EvenElapsedAverages(rnd: real -> real, runs: seq<Run>, all: seq<Row>)
    requires Rounds(rnd) && Honest(rnd, runs) && multiset(RowsOf(runs)) == multiset(all)
    requires EvenlyMeasured(SharesOf(runs), ElapsedOf) && EvenlyMeasured(SharesOf(runs), AgentElapsedOf)
    ensures var merged, whole := MergeOf(rnd, runs).summary.averages, SummaryOf(rnd, all).averages;
            && Within(merged.elapsed - Mean(all, ElapsedOf), 0.0001) && Within(whole.elapsed - Mean(all, ElapsedOf), HALF_STEP)
            && Within(merged.agentElapsed - Mean(all, AgentElapsedOf), 0.0001)
            && Within(whole.agentElapsed - Mean(all, AgentElapsedOf), HALF_STEP)
  {
    HonestMeans(rnd, runs);
    EvenReported(rnd, HALF_STEP, runs, ElapsedOf, AvgElapsed);
    EvenReported(rnd, HALF_STEP, runs, AgentElapsedOf, AvgAgentElapsed);
    ElapsedReported(rnd, HALF_STEP, runs);
    MeanReordered(RowsOf(runs), all, ElapsedOf);
    MeanReordered(RowsOf(runs), all, AgentElapsedOf);
    NearMean(rnd, HALF_STEP, all, ElapsedOf);
    NearMean(rnd, HALF_STEP, all, AgentElapsedOf);
  }
}
