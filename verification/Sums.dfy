/** Sums of a real quantity over a list, which do not depend on the order of the list. */
module Sums {
  import opened Lists

  function Total<T>(rows: seq<T>, f: T -> real): real {
    if rows == [] then 0.0 else Total(rows[..|rows| - 1], f) + f(rows[|rows| - 1])
  }

  lemma {:induction false} TotalAppend<T>(a: seq<T>, b: seq<T>, f: T -> real)
    ensures Total(a + b, f) == Total(a, f) + Total(b, f)
  {
    if b == [] {
      AppendNothing(a, b);
    } else {
      AppendInit(a, b);
      TotalAppend(a, b[..|b| - 1], f);
    }
  }

  lemma TotalRemove<T>(rows: seq<T>, i: nat, f: T -> real)
    requires i < |rows|
    ensures Total(rows, f) == Total(rows[..i] + rows[i + 1..], f) + f(rows[i])
  {
    var front, back := rows[..i], rows[i + 1..];
    SplitAround(rows, i);
    TotalAppend(front + [rows[i]], back, f);
    TotalAppend(front, [rows[i]], f);
    TotalAppend(front, back, f);
    TotalOne(rows[i], f);
  }

  lemma TotalOne<T>(r: T, f: T -> real)
    ensures Total([r], f) == f(r)
  {
    assert [r][..0] == [];
    assert Total([], f) == 0.0;
  }

  lemma BagRemove<T>(xs: seq<T>, i: nat)
    requires i < |xs|
    ensures multiset(xs[..i] + xs[i + 1..]) == multiset(xs) - multiset{xs[i]}
  {
    assert xs == xs[..i] + [xs[i]] + xs[i + 1..];
  }

  lemma BagInit<T>(xs: seq<T>)
    requires xs != []
    ensures multiset(xs[..|xs| - 1]) == multiset(xs) - multiset{xs[|xs| - 1]}
  {
    assert xs == xs[..|xs| - 1] + [xs[|xs| - 1]];
  }

  /** A sum does not depend on the order of its terms. */
  lemma {:induction false} TotalReordered<T>(a: seq<T>, b: seq<T>, f: T -> real)
    requires multiset(a) == multiset(b)
    ensures Total(a, f) == Total(b, f)
    decreases |a|
  {
    assert |a| == |multiset(a)| == |multiset(b)| == |b|;
    if a != [] {
      var last := |a| - 1;
      assert a[last] in multiset(b);
      var i :| 0 <= i < |b| && b[i] == a[last];
      TotalRemove(b, i, f);
      BagRemove(a, last);
      BagRemove(b, i);
      assert a[..last] + a[last + 1..] == a[..last];
      TotalReordered(a[..last], b[..i] + b[i + 1..], f);
    }
  }

  lemma {:induction false} TotalEach<T>(xs: seq<T>, f: T -> real, g: T -> real)
    requires forall x | x in xs :: f(x) == g(x)
    ensures Total(xs, f) == Total(xs, g)
  {
    if xs != [] {
      TotalEach(xs[..|xs| - 1], f, g);
    }
  }

  function Scaled<T>(f: T -> real, c: real): T -> real {
    x => f(x) * c
  }

  lemma {:induction false} TotalScaled<T>(xs: seq<T>, f: T -> real, c: real)
    ensures Total(xs, Scaled(f, c)) == Total(xs, f) * c
  {
    if xs != [] {
      TotalScaled(xs[..|xs| - 1], f, c);
    }
  }

  lemma {:induction false} TotalPointwise<S, T>(xs: seq<S>, ys: seq<T>, f: S -> real, g: T -> real)
    requires |xs| == |ys| && forall i | 0 <= i < |xs| :: f(xs[i]) == g(ys[i])
    ensures Total(xs, f) == Total(ys, g)
  {
    if xs != [] {
      TotalPointwise(xs[..|xs| - 1], ys[..|ys| - 1], f, g);
    }
  }

  lemma {:induction false} TotalAtMost<T>(xs: seq<T>, f: T -> real, g: T -> real)
    requires forall x | x in xs :: f(x) <= g(x)
    ensures Total(xs, f) <= Total(xs, g)
  {
    if xs != [] {
      TotalAtMost(xs[..|xs| - 1], f, g);
    }
  }

  lemma {:induction false} TotalZero<T>(xs: seq<T>, f: T -> real)
    requires forall x | x in xs :: f(x) == 0.0
    ensures Total(xs, f) == 0.0
  {
    if xs != [] {
      TotalZero(xs[..|xs| - 1], f);
    }
  }
}
