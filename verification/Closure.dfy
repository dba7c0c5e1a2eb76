/** The breadth-first closure of type definitions in model/extract_pcf_am_policy_models.py. */
module Closure {
  import opened Documents
  import opened Hiding
  import opened Lists

  /** A definition with the type expressions it is made of: one for an alias, one per field of a struct. */
  datatype TypeDef = TypeDef(name: string, exprs: seq<string>)

  /** The definitions by name; `tokens` are the identifiers of an expression, in order. */
  datatype Source = Source(index: map<string, TypeDef>, tokens: string -> seq<string>)

  // ---- References ----

  /** The tokens that name a type, each once, in the order of their first occurrence. */
  function Refs(tokens: seq<string>, names: set<string>): (refs: seq<string>)
    ensures forall t :: t in refs <==> t in tokens && t in names
    ensures forall i, j | 0 <= i < j < |refs| :: refs[i] != refs[j]
  {
    if tokens == [] then []
    else
      var before, token := Refs(tokens[..|tokens| - 1], names), tokens[|tokens| - 1];
      if token in names && token !in before then before + [token] else before
  }

  method ExtractRefs(tokens: seq<string>, names: set<string>) returns (refs: seq<string>)
    ensures refs == Refs(tokens, names)
  {
    refs := [];
    for i := 0 to |tokens|
      invariant refs == Refs(tokens[..i], names)
    {
      assert tokens[..i + 1][..i] == tokens[..i];
      if tokens[i] in names && tokens[i] !in refs {
        refs := refs + [tokens[i]];
      }
    }
    assert tokens[..|tokens|] == tokens;
  }

  /** The definition of `a` mentions the other type `b` in one of its expressions. */
  predicate Edge(src: Source, a: string, b: string) {
    && a in src.index && b in src.index && b != src.index[a].name
    && exists k :: 0 <= k < |src.index[a].exprs| && b in src.tokens(src.index[a].exprs[k])
  }

  method TypeRefs(src: Source, current: string) returns (refs: seq<string>)
    requires current in src.index
    ensures forall b :: b in refs <==> Edge(src, current, b)
  {
    var def, names, all := src.index[current], src.index.Keys, [];
    for k := 0 to |def.exprs|
      invariant forall b :: b in all <==> b in names && exists j :: 0 <= j < k && b in src.tokens(def.exprs[j])
    {
      var refs := ExtractRefs(src.tokens(def.exprs[k]), names);
      all := all + refs;
    }
    refs := [];
    for k := 0 to |all|
      invariant forall b :: b in refs <==> b in all[..k] && b != def.name
    {
      assert all[..k + 1] == all[..k] + [all[k]];
      if all[k] != def.name {
        refs := refs + [all[k]];
      }
    }
    assert all[..|all|] == all;
  }

  // ---- Reachability ----

  ghost predicate ReachIn(src: Source, root: string, x: string, n: nat)
    decreases n
  {
    if n == 0 then x == root
    else exists y :: ReachIn(src, root, y, n - 1) && Edge(src, y, x)
  }

  ghost predicate Reachable(src: Source, root: string, x: string) {
    exists n: nat :: ReachIn(src, root, x, n)
  }

  /** `n` is the least number of steps from the root. */
  ghost predicate Distance(src: Source, root: string, x: string, n: nat) {
    ReachIn(src, root, x, n) && forall m: nat | ReachIn(src, root, x, m) :: n <= m
  }

  // ---- The search ----

  ghost predicate NoRepeats(names: seq<string>) {
    forall i, j | 0 <= i < j < |names| :: names[i] != names[j]
  }

  /** Everything met so far, in order, with a number of steps that reaches it. */
  ghost predicate Reached(src: Source, root: string, order: seq<string>, steps: map<string, nat>) {
    && (forall x :: x in steps <==> x in order)
    && (forall x | x in order :: x in src.index && ReachIn(src, root, x, steps[x]))
  }

  /** The steps do not go down along the order, and rise by at most one from position `head` on. */
  ghost predicate Layered(order: seq<string>, steps: map<string, nat>, head: nat) {
    && (forall x | x in order :: x in steps)
    && (forall i, j | 0 <= i < j < |order| :: steps[order[i]] <= steps[order[j]])
    && (forall i | 0 <= i < |order| && head < |order| :: steps[order[i]] <= steps[order[head]] + 1)
  }

  /** Every reference of a resolved type is met, at most one step further. */
  ghost predicate Expanded(src: Source, resolved: seq<string>, order: seq<string>, steps: map<string, nat>) {
    forall y, x | y in resolved && Edge(src, y, x) :: x in order && y in steps && x in steps && steps[x] <= steps[y] + 1
  }

  /** What the search knows of the types it has met, the one at `head` being visited; kept dormant. */
  ghost predicate Met(src: Source, root: string, order: seq<string>, steps: map<string, nat>, head: nat) {
    forall n: nat {:trigger Asked(n)} :: Asked(n) ==>
      NoRepeats(order) && Reached(src, root, order, steps) && Layered(order, steps, head)
  }

  lemma MetMeans(src: Source, root: string, order: seq<string>, steps: map<string, nat>, head: nat)
    requires Met(src, root, order, steps, head)
    ensures NoRepeats(order) && Reached(src, root, order, steps) && Layered(order, steps, head)
  {
    assert Asked(0);
  }

  /** `more` adds to `order` at its end, and keeps the steps. */
  ghost predicate Extends(order: seq<string>, steps: map<string, nat>, more: seq<string>, next: map<string, nat>) {
    order <= more && forall x | x in steps :: x in next && next[x] == steps[x]
  }

  /** One reference of the visited type is queued, unless it is met already. */
  method EnqueueOne(src: Source, root: string, ref: string, seen: set<string>, queue: seq<string>, ghost resolved: seq<string>,
                    ghost steps: map<string, nat>) returns (after: seq<string>, ghost next: map<string, nat>)
    requires resolved != [] && seen == (set x | x in resolved)
    requires Met(src, root, resolved + queue, steps, |resolved| - 1) && Edge(src, resolved[|resolved| - 1], ref)
    ensures Met(src, root, resolved + after, next, |resolved| - 1)
    ensures Extends(resolved + queue, steps, resolved + after, next) && ref in resolved + after
  {
    after, next := queue, steps;
    Visited(resolved, queue);
    IsNew(resolved, queue, seen, ref);
    if ref !in seen && ref !in queue {
      NewReached(src, root, resolved + queue, steps, |resolved| - 1, ref);
      Assoc(resolved, queue, [ref]);
      after := queue + [ref];
      next := steps[ref := steps[resolved[|resolved| - 1]] + 1];
    }
  }

  lemma IsNew(resolved: seq<string>, queue: seq<string>, seen: set<string>, ref: string)
    requires seen == (set x | x in resolved)
    ensures ref !in resolved + queue <==> ref !in seen && ref !in queue
    ensures ref in resolved + (queue + [ref])
  {
    Assoc(resolved, queue, [ref]);
    assert (resolved + (queue + [ref]))[|resolved| + |queue|] == ref;
  }

  lemma Visited(resolved: seq<string>, queue: seq<string>)
    requires resolved != []
    ensures (resolved + queue)[|resolved| - 1] == resolved[|resolved| - 1]
  {
  }

  /** Each new reference of the visited type is queued at the end. */
  method Enqueue(src: Source, root: string, current: string, seen: set<string>, queue: seq<string>, ghost resolved: seq<string>,
                 ghost steps: map<string, nat>) returns (after: seq<string>, ghost next: map<string, nat>)
    requires current in src.index && resolved != [] && resolved[|resolved| - 1] == current
    requires seen == (set x | x in resolved)
    requires Met(src, root, resolved + queue, steps, |resolved| - 1)
    ensures Met(src, root, resolved + after, next, |resolved| - 1)
    ensures Extends(resolved + queue, steps, resolved + after, next)
    ensures forall x | Edge(src, current, x) :: x in resolved + after
  {
    var refs := TypeRefs(src, current);
    after, next := queue, steps;
    for k := 0 to |refs|
      invariant Met(src, root, resolved + after, next, |resolved| - 1)
      invariant Extends(resolved + queue, steps, resolved + after, next)
      invariant forall j | 0 <= j < k :: refs[j] in resolved + after
    {
      ghost var before := after;
      after, next := EnqueueOne(src, root, refs[k], seen, after, resolved, next);
      assert forall x | x in resolved + before :: x in resolved + after;
    }
  }

  lemma NewReached(src: Source, root: string, order: seq<string>, steps: map<string, nat>, head: nat, ref: string)
    requires head < |order| && Met(src, root, order, steps, head) && Edge(src, order[head], ref) && ref !in order
    ensures order[head] in steps
    ensures var more, next := order + [ref], steps[ref := steps[order[head]] + 1];
            Met(src, root, more, next, head) && Extends(order, steps, more, next)
  {
    MetMeans(src, root, order, steps, head);
    assert order[head] in order;
    NewStep(src, root, order[head], steps[order[head]], ref);
    StillDistinct(order, ref);
    StillLayered(order, steps, head, ref);
    StillReached(src, root, order, steps, ref, steps[order[head]] + 1);
  }

  lemma NewStep(src: Source, root: string, y: string, n: nat, x: string)
    requires ReachIn(src, root, y, n) && Edge(src, y, x)
    ensures ReachIn(src, root, x, n + 1)
  {
    var m := n + 1;
    assert ReachIn(src, root, y, m - 1) && Edge(src, y, x);
  }

  lemma StillDistinct(order: seq<string>, ref: string)
    requires NoRepeats(order) && ref !in order
    ensures NoRepeats(order + [ref])
  {
  }

  lemma StillReached(src: Source, root: string, order: seq<string>, steps: map<string, nat>, ref: string, n: nat)
    requires Reached(src, root, order, steps) && ref !in order && ref in src.index && ReachIn(src, root, ref, n)
    ensures Reached(src, root, order + [ref], steps[ref := n]) && Extends(order, steps, order + [ref], steps[ref := n])
  {
  }

  lemma StillLayered(order: seq<string>, steps: map<string, nat>, head: nat, ref: string)
    requires head < |order| && Layered(order, steps, head) && ref !in order
    ensures order[head] in steps
    ensures Layered(order + [ref], steps[ref := steps[order[head]] + 1], head)
  {
    assert order[head] in order;
    var more, next := order + [ref], steps[ref := steps[order[head]] + 1];
    forall i | 0 <= i < |order|
      ensures more[i] in next && next[more[i]] == steps[order[i]]
    {
      assert order[i] in order;
    }
  }

  lemma MetNext(src: Source, root: string, order: seq<string>, steps: map<string, nat>, head: nat)
    requires Met(src, root, order, steps, head)
    ensures Met(src, root, order, steps, head + 1)
  {
    MetMeans(src, root, order, steps, head);
  }

  /** A visit expands the type that it is about, and leaves the earlier ones expanded. */
  lemma StillExpanded(src: Source, root: string, before: seq<string>, order: seq<string>, steps: map<string, nat>,
                      more: seq<string>, next: map<string, nat>)
    requires |before| < |order| && before == order[..|before|]
    requires Expanded(src, before, order, steps) && Extends(order, steps, more, next)
    requires Met(src, root, more, next, |before|) && forall x | Edge(src, order[|before|], x) :: x in more
    ensures Expanded(src, before + [order[|before|]], more, next)
  {
    var current := order[|before|];
    MetMeans(src, root, more, next, |before|);
    assert more[|before|] == current && current in order;
    assert forall x | x in order :: x in more;
    forall y, x | y in before + [current] && Edge(src, y, x)
      ensures x in more && y in next && x in next && next[x] <= next[y] + 1
    {
      if y in before {
        assert y in order;
      } else {
        var i :| 0 <= i < |more| && more[i] == x;
      }
    }
  }

  /** A set of types that is closed under references, with steps that rise by one at most, holds everything
      reachable, and no type in fewer steps than it says. */
  lemma {:induction false} ClosedHasAll(src: Source, root: string, all: seq<string>, steps: map<string, nat>, x: string, n: nat)
    requires Expanded(src, all, all, steps) && root in all && root in steps && steps[root] == 0
    requires ReachIn(src, root, x, n)
    ensures x in all && x in steps && steps[x] <= n
    decreases n
  {
    if n > 0 {
      var y :| ReachIn(src, root, y, n - 1) && Edge(src, y, x);
      ClosedHasAll(src, root, all, steps, y, n - 1);
    }
  }

  lemma ClosureExact(src: Source, root: string, all: seq<string>, steps: map<string, nat>)
    requires Expanded(src, all, all, steps) && root in all && root in steps && steps[root] == 0
    requires Reached(src, root, all, steps)
    ensures forall x :: x in all <==> Reachable(src, root, x)
    ensures forall x | x in all :: x in steps && Distance(src, root, x, steps[x])
  {
    forall x, n: nat | ReachIn(src, root, x, n)
      ensures x in all && x in steps && steps[x] <= n
    {
      ClosedHasAll(src, root, all, steps, x, n);
    }
  }

  ghost predicate Searching(src: Source, root: string, out: seq<string>, seen: set<string>, queue: seq<string>,
                            steps: map<string, nat>) {
    && seen == (set x | x in out) && seen <= src.index.Keys
    && Met(src, root, out + queue, steps, |out|)
    && Expanded(src, out, out + queue, steps)
    && out + queue != [] && (out + queue)[0] == root && root in steps && steps[root] == 0
  }

  method Visit(src: Source, root: string, current: string, out: seq<string>, seen: set<string>, queue: seq<string>,
               ghost steps: map<string, nat>)
    returns (moreOut: seq<string>, moreSeen: set<string>, rest: seq<string>, ghost next: map<string, nat>)
    requires Searching(src, root, out, seen, queue, steps) && queue != [] && current == queue[0] && current in src.index
    ensures moreSeen == seen + {current}
    ensures Searching(src, root, moreOut, moreSeen, rest, next)
  {
    Shifted(out, queue);
    moreOut, moreSeen := out + [current], seen + {current};
    rest, next := Enqueue(src, root, current, moreSeen, queue[1..], moreOut, steps);
    StillExpanded(src, root, out, out + queue, steps, moreOut + rest, next);
    MetNext(src, root, moreOut + rest, next, |out|);
  }

  method ResolveClosure(src: Source, root: string) returns (resolved: Option<seq<string>>, ghost steps: map<string, nat>)
    ensures resolved.Some? <==> root in src.index
    ensures resolved.Some? ==>
      && NoRepeats(resolved.value) && resolved.value != [] && resolved.value[0] == root
      && (forall x :: x in resolved.value <==> Reachable(src, root, x))
      && (forall x | x in resolved.value :: x in src.index && x in steps && Distance(src, root, x, steps[x]))
      && (forall i, j | 0 <= i < j < |resolved.value| :: steps[resolved.value[i]] <= steps[resolved.value[j]])
  {
    steps := map[];
    if root !in src.index {
      return None, steps;
    }
    var out, seen, queue: seq<string> := [], {}, [root];
    steps := map[root := 0];
    while queue != []
      invariant Searching(src, root, out, seen, queue, steps)
      decreases src.index.Keys - seen, |queue|
    {
      var current, rest := queue[0], queue[1..];
      Unseen(src, root, out, queue, steps);
      if current in seen {
        queue := rest;
      } else {
        out, seen, queue, steps := Visit(src, root, current, out, seen, queue, steps);
      }
    }
    Finished(src, root, out, queue, steps);
    return Some(out), steps;
  }

  lemma Shifted<T>(a: seq<T>, b: seq<T>)
    requires b != []
    ensures (a + [b[0]]) + b[1..] == a + b && (a + b)[|a|] == b[0] && (a + b)[..|a|] == a
  {
  }

  lemma Unseen(src: Source, root: string, out: seq<string>, queue: seq<string>, steps: map<string, nat>)
    requires Met(src, root, out + queue, steps, |out|) && queue != []
    ensures queue[0] !in out && queue[0] in src.index
  {
    MetMeans(src, root, out + queue, steps, |out|);
    assert (out + queue)[|out|] == queue[0];
    assert forall i | 0 <= i < |out| :: (out + queue)[i] == out[i];
  }

  lemma Finished(src: Source, root: string, out: seq<string>, queue: seq<string>, steps: map<string, nat>)
    requires queue == [] && Met(src, root, out + queue, steps, |out|) && Expanded(src, out, out + queue, steps)
    requires out + queue != [] && (out + queue)[0] == root && root in steps && steps[root] == 0
    ensures NoRepeats(out) && out != [] && out[0] == root
    ensures forall x :: x in out <==> Reachable(src, root, x)
    ensures forall x | x in out :: x in src.index && x in steps && Distance(src, root, x, steps[x])
    ensures forall i, j | 0 <= i < j < |out| :: steps[out[i]] <= steps[out[j]]
  {
    MetMeans(src, root, out + queue, steps, |out|);
    AppendNothing(out, queue);
    ClosureExact(src, root, out, steps);
  }
}
