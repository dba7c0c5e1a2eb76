/** `list.sort(key=...)`: the stable arrangement of a list by a total order on its keys. */
module Sorting {
  ghost predicate TotalOrder<T(!new)>(leq: (T, T) -> bool) {
    && (forall x, y :: leq(x, y) || leq(y, x))
    && (forall x, y, z :: leq(x, y) && leq(y, z) ==> leq(x, z))
  }

  ghost predicate Ordered<T>(xs: seq<T>, leq: (T, T) -> bool) {
    forall i, j | 0 <= i < j < |xs| :: leq(xs[i], xs[j])
  }

  /** Insertion behind everything that does not come later. */
  function Insert<T>(sorted: seq<T>, x: T, leq: (T, T) -> bool): seq<T> {
    if sorted == [] || leq(sorted[|sorted| - 1], x) then sorted + [x]
    else Insert(sorted[..|sorted| - 1], x, leq) + [sorted[|sorted| - 1]]
  }

  function Sort<T>(xs: seq<T>, leq: (T, T) -> bool): seq<T> {
    if xs == [] then [] else Insert(Sort(xs[..|xs| - 1], leq), xs[|xs| - 1], leq)
  }

  lemma {:induction false} InsertBag<T>(sorted: seq<T>, x: T, leq: (T, T) -> bool)
    ensures multiset(Insert(sorted, x, leq)) == multiset(sorted) + multiset{x}
  {
    if sorted != [] && !leq(sorted[|sorted| - 1], x) {
      InsertBag(sorted[..|sorted| - 1], x, leq);
      assert sorted == sorted[..|sorted| - 1] + [sorted[|sorted| - 1]];
    }
  }

  lemma {:induction false} InsertOrders<T(!new)>(sorted: seq<T>, x: T, leq: (T, T) -> bool)
    requires TotalOrder(leq) && Ordered(sorted, leq)
    ensures Ordered(Insert(sorted, x, leq), leq)
  {
    if sorted != [] && !leq(sorted[|sorted| - 1], x) {
      var init, last := sorted[..|sorted| - 1], sorted[|sorted| - 1];
      InsertOrders(init, x, leq);
      var front := Insert(init, x, leq);
      InsertBag(init, x, leq);
      forall i | 0 <= i < |front|
        ensures leq(front[i], last)
      {
        assert front[i] in multiset(front);
        assert front[i] in init || front[i] == x;
      }
    }
  }

  /** Sorting rearranges, into order. */
  lemma {:induction false} SortOrders<T(!new)>(xs: seq<T>, leq: (T, T) -> bool)
    requires TotalOrder(leq)
    ensures Ordered(Sort(xs, leq), leq) && multiset(Sort(xs, leq)) == multiset(xs)
  {
    if xs != [] {
      var init, last := xs[..|xs| - 1], xs[|xs| - 1];
      SortOrders(init, leq);
      InsertOrders(Sort(init, leq), last, leq);
      InsertBag(Sort(init, leq), last, leq);
      assert xs == init + [last];
    }
  }
}
