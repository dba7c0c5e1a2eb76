/** Small facts about sequences that inductive proofs over lists keep needing. */
module Lists {
  lemma AppendInit<T>(a: seq<T>, b: seq<T>)
    requires b != []
    ensures (a + b)[..|a + b| - 1] == a + b[..|b| - 1] && (a + b)[|a + b| - 1] == b[|b| - 1] && a + b != []
  {
  }

  lemma AppendNothing<T>(a: seq<T>, b: seq<T>)
    requires b == []
    ensures a + b == a
  {
  }

  lemma OneMore<T>(start: seq<T>, xs: seq<T>, i: nat)
    requires i < |xs|
    ensures start + xs[..i] + [xs[i]] == start + xs[..i + 1]
  {
  }

  lemma Assoc<T>(a: seq<T>, b: seq<T>, c: seq<T>)
    ensures (a + b) + c == a + (b + c)
  {
  }

  lemma SplitAround<T>(xs: seq<T>, i: nat)
    requires i < |xs|
    ensures xs == (xs[..i] + [xs[i]]) + xs[i + 1..]
  {
  }

  /** Two lists that are related position by position. */
  ghost predicate Paired<S, T>(xs: seq<S>, ys: seq<T>, related: (S, T) -> bool) {
    |xs| == |ys| && forall k | 0 <= k < |xs| :: related(xs[k], ys[k])
  }

  lemma PairedMore<S, T>(xs: seq<S>, ys: seq<T>, x: S, y: T, related: (S, T) -> bool)
    requires Paired(xs, ys, related) && related(x, y)
    ensures Paired(xs + [x], ys + [y], related)
  {
  }
}
