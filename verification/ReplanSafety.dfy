/** Which lifecycles an iteration of the watch loop leaves replanning.

    A replan that raises leaves its lifecycle replanning; later iterations only take it out of that state by an
    alert that reaches it. */
module ReplanSafety {
  import opened LifecycleSpec
  import opened WatchLoopSpec

  predicate IsReplanning(st: Store, k: nat) {
    k < |st.objs| && st.objs[k].status.Replanning?
  }

  /** Some alert that is not skipped is for a binding that this lifecycle owns. */
  ghost predicate Reached(st: Store, alerts: seq<Alert>, skipped: set<Binding>, k: nat) {
    exists i :: 0 <= i < |alerts| && AlertBinding(alerts[i]) !in skipped && Owner(st, AlertBinding(alerts[i])) == k
  }

  lemma ReachedMore(st: Store, alerts: seq<Alert>, a: Alert, skipped: set<Binding>, k: nat)
    ensures Reached(st, alerts + [a], skipped, k)
            <==> Reached(st, alerts, skipped, k) || (AlertBinding(a) !in skipped && Owner(st, AlertBinding(a)) == k)
  {
    var more := alerts + [a];
    assert more[|alerts|] == a;
    if Reached(st, alerts, skipped, k) {
      var i :| 0 <= i < |alerts| && AlertBinding(alerts[i]) !in skipped && Owner(st, AlertBinding(alerts[i])) == k;
      assert more[i] == alerts[i];
    }
  }

  // ---- The alert loop of `observe` ----

  /** The bindings owned when the scan starts keep their owner, and new lifecycles hold only other bindings. */
  ghost predicate OwnersFrom(start: Store, st: Store) {
    && WellFormed(st) && Extends(start, st)
    && forall c {:trigger Owner(st, c)} :: Owner(start, c) >= 0 ==> Owner(st, c) == Owner(start, c)
  }

  lemma OwnersFromStep(start: Store, scan: Scan, a: Alert, replanned: set<Binding>, skipped: set<Binding>)
    requires OwnersFrom(start, scan.store) && Joinable(AlertBinding(a))
    ensures OwnersFrom(start, ScanAlert(scan, a, replanned, skipped).store)
  {
    var out := ScanAlert(scan, a, replanned, skipped);
    ScanAlertKeeps(scan, a, replanned, skipped);
    ExtendsTransitive(start, scan.store, out.store);
    forall c | Owner(start, c) >= 0
      ensures Owner(out.store, c) == Owner(start, c)
    {
      assert Owner(scan.store, c) == Owner(start, c);
      OwnerStep(scan, a, replanned, skipped, c);
    }
  }

  /** A lifecycle that was there at the start owns what it owns now. */
  lemma OwnedFromStart(start: Store, st: Store, b: Binding, k: nat)
    requires WellFormed(start) && OwnersFrom(start, st) && k < |start.objs| && Owner(st, b) == k
    ensures Owner(start, b) == k
  {
    OwnerLast(start, b, |start.dict|);
    OwnerLast(st, b, |st.dict|);
    assert start.objs[k].bindings == st.objs[k].bindings;
  }

  /** One alert takes the lifecycle that it reaches out of replanning, and no other. */
  lemma ScanAlertReplanning(start: Store, scan: Scan, a: Alert, replanned: set<Binding>, skipped: set<Binding>, k: nat)
    requires WellFormed(start) && OwnersFrom(start, scan.store) && Joinable(AlertBinding(a)) && k < |start.objs|
    ensures var b := AlertBinding(a);
            IsReplanning(ScanAlert(scan, a, replanned, skipped).store, k)
            <==> IsReplanning(scan.store, k) && !(b !in skipped && Owner(start, b) == k)
  {
    var b := AlertBinding(a);
    if Owner(scan.store, b) == k {
      OwnedFromStart(start, scan.store, b, k);
    }
    if b !in skipped && Owner(scan.store, b) < 0 {
      AppendKeeps(scan.store, b);
    }
  }

  lemma ScanAlertNew(start: Store, scan: Scan, a: Alert, replanned: set<Binding>, skipped: set<Binding>, k: nat)
    requires |start.objs| <= |scan.store.objs| && |start.objs| <= k && !IsReplanning(scan.store, k)
    ensures !IsReplanning(ScanAlert(scan, a, replanned, skipped).store, k)
  {
  }

  /** After the scan exactly those are still replanning that were and that no alert reached. */
  lemma {:induction false} ScanReplanning(start: Store, alerts: seq<Alert>, replanned: set<Binding>, skipped: set<Binding>, k: nat)
    requires WellFormed(start) && AllJoinable(alerts)
    ensures OwnersFrom(start, ScanAlerts(Scan(start, {}, []), alerts, replanned, skipped).store)
    ensures IsReplanning(ScanAlerts(Scan(start, {}, []), alerts, replanned, skipped).store, k)
            <==> IsReplanning(start, k) && !Reached(start, alerts, skipped, k)
  {
    if alerts != [] {
      var n := |alerts| - 1;
      var scan := ScanAlerts(Scan(start, {}, []), alerts[..n], replanned, skipped);
      ScanReplanning(start, alerts[..n], replanned, skipped, k);
      OwnersFromStep(start, scan, alerts[n], replanned, skipped);
      assert alerts[..n] + [alerts[n]] == alerts;
      ReachedMore(start, alerts[..n], alerts[n], skipped, k);
      if k < |start.objs| {
        ScanAlertReplanning(start, scan, alerts[n], replanned, skipped, k);
      } else {
        ScanAlertNew(start, scan, alerts[n], replanned, skipped, k);
      }
    }
  }

  // ---- One observation ----

  lemma SettleReplanning(st: Store, active: set<Binding>, skip: set<string>, alerts: seq<Alert>, skipped: set<Binding>, k: nat)
    requires WellFormed(st)
    ensures WellFormed(Settle(st, active, skip))
    ensures IsReplanning(Settle(st, active, skip), k) <==> IsReplanning(st, k)
    ensures Reached(Settle(st, active, skip), alerts, skipped, k) <==> Reached(st, alerts, skipped, k)
  {
    var after := Settle(st, active, skip);
    SettleKeeps(st, active, skip);
    forall c
      ensures Owner(after, c) == Owner(st, c)
    {
      OwnersKept(st, after, c);
    }
  }

  lemma ObserveReplanning(s: State, alerts: seq<Alert>, skip: set<string>, k: nat)
    requires WellFormed(s.store) && AllJoinable(alerts)
    ensures IsReplanning(Observe(s, alerts, skip).store, k)
            <==> IsReplanning(s.store, k) && !Reached(s.store, alerts, SkippedBindings(s.store, skip), k)
  {
    var active, skipped := BindingsOf(alerts), SkippedBindings(s.store, skip);
    SettleReplanning(s.store, active, skip, alerts, skipped, k);
    ScanReplanning(Settle(s.store, active, skip), alerts, s.replanned * active, skipped, k);
  }

  /** The lifecycles to replan for show their alert. */
  lemma ActionsFlagged(s: State, alerts: seq<Alert>, skip: set<string>)
    requires WellFormed(s.store) && KeysKept(s.store) && AllJoinable(alerts)
    ensures var mid, actions := Observe(s, alerts, skip), Actions(s, alerts, skip);
            forall i | 0 <= i < |actions| :: actions[i].obj < |mid.store.objs| && !IsReplanning(mid.store, actions[i].obj)
  {
    ObserveSound(s, alerts, skip);
    var mid, actions := Observe(s, alerts, skip), Actions(s, alerts, skip);
    forall i | 0 <= i < |actions|
      ensures actions[i].obj < |mid.store.objs| && !IsReplanning(mid.store, actions[i].obj)
    {
      var b := AlertBinding(actions[i].alert);
      assert ActionOk(mid.store, actions[i]);
      assert b in ActionBindings(actions);
      assert Flagged(mid.store, b);
    }
  }

  // ---- The replans of one iteration ----

  lemma HandleOneReplanning(b: Batch, act: Action, limit: int, replies: nat -> Reply, k: nat)
    requires WellFormed(b.st.store) && KeysKept(b.st.store) && act.obj < |b.st.store.objs|
    requires !b.raised && !IsReplanning(b.st.store, act.obj)
    ensures var out := HandleOne(b, act, limit, replies);
            IsReplanning(out.st.store, k) <==> IsReplanning(b.st.store, k) || (out.raised && k == act.obj)
  {
    if !b.st.store.objs[act.obj].status.Failed? && b.started < limit {
      HandleOneEffect(b, act, limit, replies);
    }
  }

  /** Whether a replan raised, and if so for which lifecycle. */
  ghost predicate RaisedFor(b: Batch, actions: seq<Action>, limit: int, replies: nat -> Reply, k: nat)
    requires KeysKept(b.st.store) && forall i | 0 <= i < |actions| :: actions[i].obj < |b.st.store.objs|
  {
    exists i :: 0 <= i < |actions| && actions[i].obj == k
                && !HandleAll(b, actions[..i], limit, replies).raised && HandleAll(b, actions[..i + 1], limit, replies).raised
  }

  lemma RaisedForMore(b: Batch, actions: seq<Action>, limit: int, replies: nat -> Reply, k: nat)
    requires KeysKept(b.st.store) && forall i | 0 <= i < |actions| :: actions[i].obj < |b.st.store.objs|
    requires actions != []
    ensures var n := |actions| - 1;
            RaisedFor(b, actions, limit, replies, k)
            <==> || RaisedFor(b, actions[..n], limit, replies, k)
                 || (actions[n].obj == k && !HandleAll(b, actions[..n], limit, replies).raised && HandleAll(b, actions, limit, replies).raised)
  {
    var n := |actions| - 1;
    assert actions[..n + 1] == actions;
    assert forall i | 0 <= i <= n :: actions[..n][..i] == actions[..i];
    if RaisedFor(b, actions[..n], limit, replies, k) {
      var i :| 0 <= i < n && actions[..n][i].obj == k
               && !HandleAll(b, actions[..n][..i], limit, replies).raised && HandleAll(b, actions[..n][..i + 1], limit, replies).raised;
      assert actions[i].obj == k && actions[..n][..i + 1] == actions[..i + 1];
    }
  }

  /** The replans leave those lifecycles replanning that were, and the one whose replan raised. */
  lemma {:induction false} HandleAllReplanning(b: Batch, actions: seq<Action>, limit: int, replies: nat -> Reply, k: nat)
    requires WellFormed(b.st.store) && KeysKept(b.st.store) && !b.raised
    requires forall i | 0 <= i < |actions| :: actions[i].obj < |b.st.store.objs| && !IsReplanning(b.st.store, actions[i].obj)
    ensures IsReplanning(HandleAll(b, actions, limit, replies).st.store, k)
            <==> IsReplanning(b.st.store, k) || RaisedFor(b, actions, limit, replies, k)
    decreases |actions|
  {
    if actions != [] {
      var n := |actions| - 1;
      var mid := HandleAll(b, actions[..n], limit, replies);
      HandleAllSafe(b, actions[..n], limit, replies);
      HandleAllReplanning(b, actions[..n], limit, replies, k);
      RaisedForMore(b, actions, limit, replies, k);
      if !mid.raised {
        HandleAllReplanning(b, actions[..n], limit, replies, actions[n].obj);
        NotRaised(b, actions[..n], limit, replies, actions[n].obj);
        HandleOneReplanning(mid, actions[n], limit, replies, k);
      }
    }
  }

  /** A batch that has not raised has raised for nobody. */
  lemma {:induction false} NotRaised(b: Batch, actions: seq<Action>, limit: int, replies: nat -> Reply, k: nat)
    requires KeysKept(b.st.store) && forall i | 0 <= i < |actions| :: actions[i].obj < |b.st.store.objs|
    requires !HandleAll(b, actions, limit, replies).raised
    ensures !RaisedFor(b, actions, limit, replies, k)
  {
    if actions != [] {
      NotRaised(b, actions[..|actions| - 1], limit, replies, k);
      RaisedForMore(b, actions, limit, replies, k);
    }
  }

  /** A batch that has raised has raised for some lifecycle. */
  lemma {:induction false} RaisedForOne(b: Batch, actions: seq<Action>, limit: int, replies: nat -> Reply) returns (k: nat)
    requires KeysKept(b.st.store) && forall i | 0 <= i < |actions| :: actions[i].obj < |b.st.store.objs|
    requires !b.raised && HandleAll(b, actions, limit, replies).raised
    ensures k < |b.st.store.objs| && RaisedFor(b, actions, limit, replies, k)
  {
    var n := |actions| - 1;
    if HandleAll(b, actions[..n], limit, replies).raised {
      k := RaisedForOne(b, actions[..n], limit, replies);
    } else {
      k := actions[n].obj;
    }
    RaisedForMore(b, actions, limit, replies, k);
  }

  // ---- One iteration ----

  /** An alert of this iteration reaches the lifecycle, once the user's request is recorded. */
  ghost predicate ReachedIn(s: State, turn: Turn, k: nat) {
    var s1 := AfterUser(s, turn.user);
    Reached(s1.store, turn.alerts, SkippedBindings(s1.store, NewIds(turn.user)), k)
  }

  /** The orchestrator raised while a monitor replan was going on. */
  predicate ReplanRaised(s: State, turn: Turn, limit: int)
    requires KeysKept(s.store)
  {
    !turn.user.UserRaised? && RunOnce(s, turn, limit).raised
  }

  lemma AfterUserReplanning(s: State, user: UserTurn, k: nat)
    ensures IsReplanning(AfterUser(s, user).store, k) <==> IsReplanning(s.store, k)
  {
  }

  lemma TurnParts(s: State, turn: Turn)
    requires WellFormed(s.store) && KeysKept(s.store) && FreshTurn(s, turn)
    ensures var s1, skip := AfterUser(s, turn.user), NewIds(turn.user);
            var mid, actions := Observe(s1, turn.alerts, skip), Actions(s1, turn.alerts, skip);
            && WellFormed(s1.store) && KeysKept(s1.store) && WellFormed(mid.store) && KeysKept(mid.store)
            && forall i | 0 <= i < |actions| :: actions[i].obj < |mid.store.objs| && !IsReplanning(mid.store, actions[i].obj)
  {
    var s1, skip := AfterUser(s, turn.user), NewIds(turn.user);
    AfterUserKeepsKeys(s, turn.user);
    AfterUserSafe(s, turn);
    ObserveSafe(s1, turn.alerts, skip);
    ActionsFlagged(s1, turn.alerts, skip);
  }

  /** An iteration that returns leaves exactly those lifecycles replanning that were and that none of its alerts
      reached. */
  lemma StillReplanningExactly(s: State, turn: Turn, limit: int, k: nat)
    requires WellFormed(s.store) && KeysKept(s.store) && FreshTurn(s, turn) && !RunOnce(s, turn, limit).raised
    ensures IsReplanning(RunOnce(s, turn, limit).st.store, k) <==> IsReplanning(s.store, k) && !ReachedIn(s, turn, k)
  {
    var s1, skip := AfterUser(s, turn.user), NewIds(turn.user);
    TurnParts(s, turn);
    AfterUserReplanning(s, turn.user, k);
    ObserveReplanning(s1, turn.alerts, skip, k);
    var b, actions := Batch(Observe(s1, turn.alerts, skip), [], 0, false), Actions(s1, turn.alerts, skip);
    HandleAllReplanning(b, actions, limit, turn.replies, k);
    NotRaised(b, actions, limit, turn.replies, k);
  }

  /** After an iteration that returns, no lifecycle is replanning if and only if its alerts reach every lifecycle
      that was replanning before. */
  lemma NoneReplanningExactly(s: State, turn: Turn, limit: int)
    requires WellFormed(s.store) && KeysKept(s.store) && FreshTurn(s, turn) && !RunOnce(s, turn, limit).raised
    ensures NoneReplanning(RunOnce(s, turn, limit).st.store)
            <==> forall k: nat | k < |s.store.objs| && s.store.objs[k].status.Replanning? :: ReachedIn(s, turn, k)
  {
    var after := RunOnce(s, turn, limit).st.store;
    forall k: nat
      ensures IsReplanning(after, k) <==> IsReplanning(s.store, k) && !ReachedIn(s, turn, k)
    {
      StillReplanningExactly(s, turn, limit, k);
    }
    if NoneReplanning(after) {
      forall k: nat | k < |s.store.objs| && s.store.objs[k].status.Replanning?
        ensures ReachedIn(s, turn, k)
      {
        assert !IsReplanning(after, k) && IsReplanning(s.store, k);
      }
    } else {
      var k: nat :| k < |after.objs| && after.objs[k].status.Replanning?;
      assert IsReplanning(after, k);
    }
  }

  /** An iteration whose replan raised leaves a lifecycle replanning. */
  lemma RaisedLeavesReplanning(s: State, turn: Turn, limit: int)
    requires WellFormed(s.store) && KeysKept(s.store) && FreshTurn(s, turn) && ReplanRaised(s, turn, limit)
    ensures !NoneReplanning(RunOnce(s, turn, limit).st.store)
  {
    var s1, skip := AfterUser(s, turn.user), NewIds(turn.user);
    TurnParts(s, turn);
    var b, actions := Batch(Observe(s1, turn.alerts, skip), [], 0, false), Actions(s1, turn.alerts, skip);
    var k := RaisedForOne(b, actions, limit, turn.replies);
    HandleAllReplanning(b, actions, limit, turn.replies, k);
    assert IsReplanning(RunOnce(s, turn, limit).st.store, k);
  }

  // ---- Runs ----

  lemma FreshPrefix(turns: seq<(Turn, int)>, m: nat)
    requires FreshRun(turns) && m <= |turns|
    ensures FreshRun(turns[..m]) && WellFormed(Run(Init, turns[..m]).store)
  {
    assert forall i | 0 <= i < m :: turns[..m][..i] == turns[..i];
    RunSafe(turns[..m], m);
  }

  lemma RunStep(turns: seq<(Turn, int)>, m: nat)
    requires m < |turns|
    ensures Run(Init, turns[..m + 1]) == RunOnce(Run(Init, turns[..m]), turns[m].0, turns[m].1).st
  {
    assert turns[..m + 1][..m] == turns[..m];
  }

  /** No replan raised among the first `n` iterations. */
  ghost predicate NoReplanRaised(turns: seq<(Turn, int)>, n: nat)
    requires n <= |turns|
  {
    forall i | 0 <= i < n :: !ReplanRaised(Run(Init, turns[..i]), turns[i].0, turns[i].1)
  }

  lemma {:induction false} NoneReplanningAfter(turns: seq<(Turn, int)>, m: nat)
    requires FreshRun(turns) && m <= |turns| && NoReplanRaised(turns, m)
    ensures NoneReplanning(Run(Init, turns[..m]).store)
  {
    if m > 0 {
      NoneReplanningAfter(turns, m - 1);
      FreshPrefix(turns, m - 1);
      RunStep(turns, m - 1);
      RunOnceSafe(Run(Init, turns[..m - 1]), turns[m - 1].0, turns[m - 1].1);
    }
  }

  /** Over a run with fresh session ids, no lifecycle is ever left replanning if and only if no monitor replan
      raised. */
  lemma NeverReplanningExactly(turns: seq<(Turn, int)>)
    requires FreshRun(turns)
    ensures (forall m: nat | m <= |turns| :: NoneReplanning(Run(Init, turns[..m]).store)) <==> NoReplanRaised(turns, |turns|)
  {
    if NoReplanRaised(turns, |turns|) {
      forall m: nat | m <= |turns|
        ensures NoneReplanning(Run(Init, turns[..m]).store)
      {
        NoneReplanningAfter(turns, m);
      }
    } else {
      var i: nat :| i < |turns| && ReplanRaised(Run(Init, turns[..i]), turns[i].0, turns[i].1);
      FreshPrefix(turns, i);
      RaisedLeavesReplanning(Run(Init, turns[..i]), turns[i].0, turns[i].1);
      RunStep(turns, i);
      assert !NoneReplanning(Run(Init, turns[..i + 1]).store);
    }
  }

  /** If no monitor replan raised, none is replanning in the end. */
  lemma RunNoneReplanning(turns: seq<(Turn, int)>)
    requires FreshRun(turns) && NoReplanRaised(turns, |turns|)
    ensures NoneReplanning(Run(Init, turns).store)
  {
    NoneReplanningAfter(turns, |turns|);
    assert turns[..|turns|] == turns;
  }

  // ---- A replan that is never finished ----

  /** One alert whose replan raises, and then an iteration without alerts. */
  function Interrupted(a: Alert): seq<(Turn, int)> {
    [(Turn(NoInput, [a], i => Raised), 1), (Turn(NoInput, [], i => Returned(true)), 1)]
  }

  lemma FirstAction(a: Alert)
    ensures Actions(Init, [a], {}) == [Action(0, a)] && |Observe(Init, [a], {}).store.objs| == 1
    ensures Observe(Init, [a], {}).store.objs[0].status.Degraded?
  {
    assert SkippedBindings(Init.store, {}) == {};
    var start := Settle(Init.store, BindingsOf([a]), {});
    assert start == Table([], []);
    assert [a][..0] == [];
    assert ScanAlerts(Scan(start, {}, []), [], {}, {}) == Scan(start, {}, []);
    assert {} * BindingsOf([a]) == {};
  }

  lemma FirstRaises(a: Alert)
    requires Joinable(AlertBinding(a))
    ensures FreshTurn(Init, Interrupted(a)[0].0) && ReplanRaised(Init, Interrupted(a)[0].0, 1)
  {
    FirstAction(a);
    ObserveBasics(Init, [a], {});
    var b := Batch(Observe(Init, [a], {}), [], 0, false);
    assert [Action(0, a)][..0] == [];
    assert HandleAll(b, [], 1, Interrupted(a)[0].0.replies) == b;
  }

  lemma NothingToDo(s: State, turn: Turn, limit: int)
    requires KeysKept(s.store) && turn.user.NoInput? && turn.alerts == []
    ensures !RunOnce(s, turn, limit).raised
  {
  }

  /** A lifecycle whose replan raised is still replanning after an iteration that returns normally. */
  lemma ReplanningSticks(a: Alert)
    requires Joinable(AlertBinding(a))
    ensures var turns := Interrupted(a);
            && FreshRun(turns)
            && !RunOnce(Run(Init, turns[..1]), turns[1].0, turns[1].1).raised
            && !NoneReplanning(Run(Init, turns).store)
  {
    var turns := Interrupted(a);
    var s := Run(Init, turns[..1]);
    FirstRaises(a);
    assert turns[..0] == [] && turns[..2] == turns;
    RunStep(turns, 0);
    assert FreshTurn(s, turns[1].0);
    FreshPrefix(turns, 1);
    RaisedLeavesReplanning(Init, turns[0].0, 1);
    NothingToDo(s, turns[1].0, 1);
    NoneReplanningExactly(s, turns[1].0, 1);
    RunStep(turns, 1);
    NeverReached(s, turns[1].0);
  }

  lemma NeverReached(s: State, turn: Turn)
    requires turn.alerts == [] && !NoneReplanning(s.store)
    ensures exists k: nat :: k < |s.store.objs| && s.store.objs[k].status.Replanning? && !ReachedIn(s, turn, k)
  {
    var k: nat :| k < |s.store.objs| && s.store.objs[k].status.Replanning?;
    assert !ReachedIn(s, turn, k);
  }
}
