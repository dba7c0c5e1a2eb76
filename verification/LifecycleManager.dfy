/** The intent lifecycle manager and the watch loop as the objects the program keeps. */
module LifecycleManager {
  import opened Hiding
  import opened LifecycleSpec
  import opened WatchLoopSpec

  class IntentLifecycle {
    const intentId: string
    const bindings: seq<Binding>
    const fromMonitor: bool
    var status: Status

    constructor (intentId: string, bindings: seq<Binding>, status: Status, fromMonitor: bool)
      ensures View() == Life(intentId, bindings, status, fromMonitor)
    {
      this.intentId, this.bindings, this.status, this.fromMonitor := intentId, bindings, status, fromMonitor;
    }

    function View(): Life
      reads this
    {
      Life(intentId, bindings, status, fromMonitor)
    }
  }

  class IntentLifecycleManager {
    /** The values of the dictionary in insertion order; the key of each is its `intentId`. */
    var lifecycles: seq<IntentLifecycle>
    var replanned: set<Binding>
    /** Every lifecycle ever stored, and where the stored ones are among them. */
    ghost var arena: seq<IntentLifecycle>
    ghost var dict: seq<nat>
    ghost var log: seq<Event>

    ghost predicate Valid()
      reads this
    {
      && |dict| == |lifecycles|
      && (forall i | 0 <= i < |dict| :: dict[i] < |arena| && lifecycles[i] == arena[dict[i]])
      && (forall i, j | 0 <= i < j < |arena| :: arena[i] != arena[j])
    }

    ghost function Views(): (vs: seq<Life>)
      reads this, arena
      ensures |vs| == |arena| && forall i | 0 <= i < |arena| :: vs[i] == arena[i].View()
    {
      seq(|arena|, i requires 0 <= i < |arena| reads this, arena => arena[i].View())
    }

    ghost function Abs(): State
      requires Valid()
      reads this, arena
    {
      State(Table(Views(), dict), replanned, log)
    }

    constructor ()
      ensures Valid() && Abs() == Init && arena == []
    {
      lifecycles, replanned, arena, dict, log := [], {}, [], [], [];
    }

    /** `self._lifecycles[life.intent_id] = life` */
    method Store(life: IntentLifecycle)
      requires Valid() && life !in arena
      modifies this`lifecycles, this`arena, this`dict
      ensures Valid() && arena == old(arena) + [life]
      ensures Abs() == old(Abs()).(store := Put(old(Abs()).store, life.View()))
    {
      ghost var before := Abs().store;
      var k := FindKey(life.intentId);
      if k < |lifecycles| {
        lifecycles, dict := lifecycles[k := life], dict[k := |arena|];
      } else {
        lifecycles, dict := lifecycles + [life], dict + [|arena|];
      }
      arena := arena + [life];
      assert Views() == before.objs + [life.View()];
    }

    method FindKey(id: string) returns (k: nat)
      requires Valid()
      ensures k == Position(Abs().store, id)
    {
      ghost var st := Abs().store;
      PositionIsFirst(st, id, |st.dict|);
      k := 0;
      while k < |lifecycles| && lifecycles[k].intentId != id
        invariant k <= |lifecycles|
        invariant forall j | 0 <= j < k :: st.objs[st.dict[j]].id != id
      {
        k := k + 1;
      }
    }

    method RecordInitial(r: ControlResult) returns (life: IntentLifecycle)
      requires Valid()
      modifies this
      ensures Valid() && fresh(life) && arena == old(arena) + [life]
      ensures Abs() == LifecycleSpec.RecordInitial(old(Abs()), r)
    {
      life := new IntentLifecycle(r.sessionId, if r.completed then r.flows else [],
                                  if r.completed then Active else Failed, false);
      Store(life);
    }

    method LifecycleForBinding(b: Binding) returns (life: IntentLifecycle?)
      requires Valid()
      ensures var k := Owner(Abs().store, b); if k < 0 then life == null else life == arena[k]
    {
      ghost var st := Abs().store;
      var n: nat := |lifecycles|;
      while n > 0
        invariant n <= |lifecycles|
        invariant Owner(st, b) == OwnerIn(st, b, n)
      {
        if b in lifecycles[n - 1].bindings {
          return lifecycles[n - 1];
        }
        n := n - 1;
      }
      return null;
    }

    /** The first loop of `observe`. */
    method Settle(active: set<Binding>, skip: set<string>)
      requires Valid()
      modifies arena
      ensures Valid() && Abs() == old(Abs()).(store := LifecycleSpec.Settle(old(Abs()).store, active, skip))
    {
      ghost var st := Abs().store;
      var i := 0;
      while i < |lifecycles|
        invariant i <= |lifecycles|
        invariant forall k | 0 <= k < |arena| ::
                    arena[k].View() == if k in dict[..i] then SettleLife(st.objs[k], active, skip) else st.objs[k]
      {
        var life := lifecycles[i];
        assert dict[..i + 1] == dict[..i] + [dict[i]];
        if life.intentId !in skip && life.status in {Active, Degraded}
           && !(exists b | b in life.bindings :: b in active) {
          life.status := Satisfied;
        }
        i := i + 1;
      }
      assert dict[..i] == dict;
      assert Views() == LifecycleSpec.Settle(st, active, skip).objs;
    }

    /** The body of the second loop of `observe`; the result is the scheduled lifecycle, if any. */
    method ScanOne(alert: Alert, skipped: set<Binding>, scheduled: set<Binding>, ghost actions: seq<Action>)
      returns (life: IntentLifecycle?)
      requires Valid()
      modifies this`lifecycles, this`arena, this`dict, arena
      ensures Valid() && old(arena) <= arena && (forall k | |old(arena)| <= k < |arena| :: fresh(arena[k]))
      ensures var before := Scan(old(Abs()).store, scheduled, actions);
              var after := ScanAlert(before, alert, replanned, skipped);
              && Abs().store == after.store
              && if life == null then after.scheduled == scheduled && after.actions == actions
                 else && after.scheduled == scheduled + {AlertBinding(alert)}
                      && |after.actions| == |actions| + 1 && after.actions[..|actions|] == actions
                      && after.actions[|actions|].alert == alert
                      && after.actions[|actions|].obj < |arena|
                      && arena[after.actions[|actions|].obj] == life
    {
      ghost var st := Abs().store;
      var binding := AlertBinding(alert);
      if binding in skipped {
        return null;
      }
      var owner := LifecycleForBinding(binding);
      if owner == null {
        owner := new IntentLifecycle(MonitorId(binding), [binding], Degraded, true);
        Store(owner);
      } else if owner.status.Failed? {
        return null;
      } else {
        owner.status := Degraded;
        assert Views() == SetStatus(st, Owner(st, binding), Degraded).objs;
      }
      if binding in replanned || binding in scheduled {
        return null;
      }
      return owner;
    }

    /** One alert of the second loop, with what it adds to the actions and the scheduled bindings. */
    method ScanNext(alerts: seq<Alert>, i: nat, skipped: set<Binding>, actions: seq<(IntentLifecycle, Alert)>, scheduled: set<Binding>,
                    ghost start: Scan, ghost scan: Scan)
      returns (more: seq<(IntentLifecycle, Alert)>, moreScheduled: set<Binding>, ghost after: Scan)
      requires Valid() && Abs().store == scan.store && scheduled == scan.scheduled && Held(actions, scan.actions, arena)
      requires i < |alerts| && scan == ScanAlerts(start, alerts[..i], replanned, skipped)
      modifies this`lifecycles, this`arena, this`dict, arena
      ensures Valid() && old(arena) <= arena && (forall k | |old(arena)| <= k < |arena| :: fresh(arena[k]))
      ensures after == ScanAlerts(start, alerts[..i + 1], replanned, skipped)
      ensures Abs().store == after.store && moreScheduled == after.scheduled && Held(more, after.actions, arena)
    {
      more, moreScheduled, after := actions, scheduled, ScanAlert(scan, alerts[i], replanned, skipped);
      ScanStep(start, alerts, i, replanned, skipped);
      var life := ScanOne(alerts[i], skipped, scheduled, scan.actions);
      if life != null {
        more := actions + [(life, alerts[i])];
        moreScheduled := scheduled + {AlertBinding(alerts[i])};
      }
    }

    /** The second loop of `observe`. */
    method ScanAll(alerts: seq<Alert>, skipped: set<Binding>) returns (actions: seq<(IntentLifecycle, Alert)>)
      requires Valid()
      modifies this`lifecycles, this`arena, this`dict, arena
      ensures Valid() && old(arena) <= arena && (forall k | |old(arena)| <= k < |arena| :: fresh(arena[k]))
      ensures var scan := ScanAlerts(Scan(old(Abs()).store, {}, []), alerts, replanned, skipped);
              Abs().store == scan.store && Held(actions, scan.actions, arena)
    {
      ghost var start := Scan(Abs().store, {}, []);
      ghost var scan := start;
      var scheduled: set<Binding>;
      actions, scheduled := [], {};
      var i := 0;
      while i < |alerts|
        invariant i <= |alerts|
        invariant Valid() && old(arena) <= arena && (forall k | |old(arena)| <= k < |arena| :: fresh(arena[k]))
        invariant scan == ScanAlerts(start, alerts[..i], replanned, skipped)
        invariant Abs().store == scan.store && scheduled == scan.scheduled && Held(actions, scan.actions, arena)
      {
        actions, scheduled, scan := ScanNext(alerts, i, skipped, actions, scheduled, start, scan);
        i := i + 1;
      }
      assert alerts[..i] == alerts;
    }

    method Observe(alerts: seq<Alert>, skip: set<string>) returns (actions: seq<(IntentLifecycle, Alert)>)
      requires Valid()
      requires forall id | id in skip :: Has(Abs().store, id)
      modifies this, arena
      ensures Valid() && old(arena) <= arena && (forall k | |old(arena)| <= k < |arena| :: fresh(arena[k]))
      ensures Abs() == LifecycleSpec.Observe(old(Abs()), alerts, skip)
      ensures Held(actions, Actions(old(Abs()), alerts, skip), arena)
    {
      ghost var s := Abs();
      var active := BindingsOf(alerts);
      KeepReplanned(active);
      actions := ObserveLifecycles(alerts, active, skip);
      Record(Observed(active));
      ObserveParts(s, alerts, skip);
    }

    method KeepReplanned(active: set<Binding>)
      requires Valid()
      modifies this`replanned
      ensures Valid() && Abs() == old(Abs()).(replanned := old(replanned) * active)
    {
      replanned := replanned * active;
    }

    method Record(e: Event)
      requires Valid()
      modifies this`log
      ensures Valid() && Abs() == old(Abs()).(log := old(log) + [e])
    {
      log := log + [e];
    }

    /** The two loops of `observe`. */
    method ObserveLifecycles(alerts: seq<Alert>, active: set<Binding>, skip: set<string>) returns (actions: seq<(IntentLifecycle, Alert)>)
      requires Valid()
      modifies this`lifecycles, this`arena, this`dict, arena
      ensures Valid() && old(arena) <= arena && (forall k | |old(arena)| <= k < |arena| :: fresh(arena[k]))
      ensures var st := old(Abs()).store;
              var scan := ScanAlerts(Scan(LifecycleSpec.Settle(st, active, skip), {}, []), alerts, replanned, SkippedBindings(st, skip));
              Abs().store == scan.store && Held(actions, scan.actions, arena)
    {
      var skipped := Skipped(skip);
      Settle(active, skip);
      actions := ScanAll(alerts, skipped);
    }

    /** The bindings of the skipped lifecycles. */
    method Skipped(skip: set<string>) returns (skipped: set<Binding>)
      requires Valid()
      ensures skipped == SkippedBindings(Abs().store, skip)
    {
      skipped := set life, b | life in lifecycles && life.intentId in skip && b in life.bindings :: b;
      SkippedAgree(skip, skipped);
    }

    /** The dictionary sees the same skipped bindings as the stored values do. */
    lemma SkippedAgree(skip: set<string>, skipped: set<Binding>)
      requires Valid()
      requires skipped == set life, b | life in lifecycles && life.intentId in skip && b in life.bindings :: b
      ensures skipped == SkippedBindings(Abs().store, skip)
    {
      var st := Abs().store;
      forall b
        ensures b in skipped <==> b in SkippedBindings(st, skip)
      {
        if b in skipped {
          var life :| life in lifecycles && life.intentId in skip && b in life.bindings;
          var i :| 0 <= i < |lifecycles| && lifecycles[i] == life;
          assert st.dict[i] in st.dict && st.objs[st.dict[i]] == life.View();
        }
        if b in SkippedBindings(st, skip) {
          var k :| k in st.dict && st.objs[k].id in skip && b in st.objs[k].bindings;
          var i :| 0 <= i < |st.dict| && st.dict[i] == k;
          assert lifecycles[i] in lifecycles;
        }
      }
    }

    method BeginReplan(id: string, alert: Alert)
      requires Valid() && Has(Abs().store, id)
      modifies this`replanned, this`log, arena
      ensures Valid() && Abs() == LifecycleSpec.BeginReplan(old(Abs()), id, alert)
    {
      ghost var st := Abs().store;
      var k := FindKey(id);
      replanned := replanned + {AlertBinding(alert)};
      lifecycles[k].status := Replanning;
      log := log + [Began(AlertBinding(alert))];
      assert Views() == SetStatus(st, st.dict[k], Replanning).objs;
    }

    method FinishReplan(id: string, completed: bool)
      requires Valid() && Has(Abs().store, id)
      modifies arena
      ensures Valid() && Abs() == LifecycleSpec.FinishReplan(old(Abs()), id, completed)
    {
      ghost var st := Abs().store;
      var k := FindKey(id);
      lifecycles[k].status := if completed then Active else Failed;
      assert Views() == SetStatus(st, st.dict[k], if completed then Active else Failed).objs;
    }
  }

  lemma ScanStep(start: Scan, alerts: seq<Alert>, i: nat, replanned: set<Binding>, skipped: set<Binding>)
    requires i < |alerts|
    ensures ScanAlerts(start, alerts[..i + 1], replanned, skipped)
            == ScanAlert(ScanAlerts(start, alerts[..i], replanned, skipped), alerts[i], replanned, skipped)
  {
    assert alerts[..i + 1][..i] == alerts[..i];
  }

  /** An observation in the steps of the program. */
  lemma ObserveParts(s: State, alerts: seq<Alert>, skip: set<string>)
    ensures var active := BindingsOf(alerts);
            var scan := ScanAlerts(Scan(LifecycleSpec.Settle(s.store, active, skip), {}, []), alerts,
                                   s.replanned * active, SkippedBindings(s.store, skip));
            && LifecycleSpec.Observe(s, alerts, skip) == State(scan.store, s.replanned * active, s.log + [Observed(active)])
            && Actions(s, alerts, skip) == scan.actions
  {
  }

  /** The actions of the program hold the objects at the arena positions the specification names. */
  ghost predicate Held(actions: seq<(IntentLifecycle, Alert)>, named: seq<Action>, arena: seq<IntentLifecycle>) {
    && |actions| == |named|
    && forall i | 0 <= i < |named| ::
         named[i].obj < |arena| && arena[named[i].obj] == actions[i].0 && named[i].alert == actions[i].1
  }

  class AutonomousWatchLoop {
    const manager: IntentLifecycleManager
    const maxReentries: int

    constructor (manager: IntentLifecycleManager, maxReentries: int)
      ensures this.manager == manager && this.maxReentries == maxReentries
    {
      this.manager, this.maxReentries := manager, maxReentries;
    }

    /** The body of the loop over actions.  The first result says whether the alert was put off. */
    method HandleAction(life: IntentLifecycle, alert: Alert, ghost batch: Batch, ghost named: Action,
                        reentries: int, replies: nat -> Reply)
      returns (deferred: bool, started: int, raised: bool)
      requires manager.Valid() && KeysKept(manager.Abs().store)
      requires manager.Abs() == batch.st && !batch.raised && reentries == batch.started
      requires named.obj < |manager.arena| && manager.arena[named.obj] == life && named.alert == alert
      modifies manager`replanned, manager`log, manager.arena
      ensures manager.Valid()
      ensures var out := HandleOne(batch, named, maxReentries, replies);
              && manager.Abs() == out.st && started == out.started && raised == out.raised
              && out.deferred == if deferred then batch.deferred + [named] else batch.deferred
    {
      assert life.View() == batch.st.store.objs[named.obj];
      if life.status.Failed? {
        return false, reentries, false;
      }
      if reentries >= maxReentries {
        return true, reentries, false;
      }
      SetStatusKeepsKeys(batch.st, life.intentId, alert, replies(reentries) == Returned(true));
      manager.BeginReplan(life.intentId, alert);
      match replies(reentries) {
        case Raised =>
          return false, reentries, true;
        case Returned(done) =>
          manager.FinishReplan(life.intentId, done);
          return false, reentries + 1, false;
      }
    }

    /** `_handle_monitor_alerts`: the alerts left for later, and whether the orchestrator raised. */
    method HandleMonitorAlerts(alerts: seq<Alert>, skip: set<string>, replies: nat -> Reply)
      returns (pending: seq<(IntentLifecycle, Alert)>, raised: bool)
      requires manager.Valid() && KeysKept(manager.Abs().store)
      requires forall id | id in skip :: Has(manager.Abs().store, id)
      modifies manager, manager.arena
      ensures manager.Valid() && KeysKept(manager.Abs().store)
      ensures old(manager.arena) <= manager.arena && (forall k | |old(manager.arena)| <= k < |manager.arena| :: fresh(manager.arena[k]))
      ensures var out := HandleAlerts(old(manager.Abs()), alerts, skip, maxReentries, replies);
              manager.Abs() == out.st && Held(pending, out.deferred, manager.arena) && raised == out.raised
    {
      ghost var s := manager.Abs();
      ObserveBasics(s, alerts, skip);
      ghost var named := Actions(s, alerts, skip);
      var actions := manager.Observe(alerts, skip);
      ghost var start := Batch(manager.Abs(), [], 0, false);
      pending, raised := HandleActions(actions, named, start, replies);
    }

    method HandleActions(actions: seq<(IntentLifecycle, Alert)>, ghost named: seq<Action>, ghost start: Batch,
                         replies: nat -> Reply)
      returns (pending: seq<(IntentLifecycle, Alert)>, raised: bool)
      requires manager.Valid() && KeysKept(manager.Abs().store) && Held(actions, named, manager.arena)
      requires start == Batch(manager.Abs(), [], 0, false)
      modifies manager`replanned, manager`log, manager.arena
      ensures manager.Valid()
      ensures var out := HandleAll(start, named, maxReentries, replies);
              manager.Abs() == out.st && Held(pending, out.deferred, manager.arena) && raised == out.raised
    {
      pending, raised := [], false;
      var reentries, i := 0, 0;
      ghost var batch := start;
      NoneHandled(start, named, maxReentries, replies);
      while i < |actions| && !raised
        invariant i <= |actions| == |named|
        invariant Handling(actions, named, start, i, batch, pending, reentries, replies) && raised == batch.raised
      {
        pending, reentries, raised, batch := HandleNext(actions, named, start, i, batch, pending, reentries, replies);
        i := i + 1;
      }
      BatchEnds(start, named, i, maxReentries, replies, batch);
    }

    /** The first `i` actions are handled: `batch` is what that leaves, in the program's terms too. */
    ghost predicate Handling(actions: seq<(IntentLifecycle, Alert)>, named: seq<Action>, start: Batch, i: nat, batch: Batch,
                             pending: seq<(IntentLifecycle, Alert)>, reentries: int, replies: nat -> Reply)
      requires i <= |named|
      reads manager, manager.arena
    {
      && manager.Valid() && Held(actions, named, manager.arena)
      && IsBatch(start, named, i, maxReentries, replies, batch)
      && manager.Abs() == batch.st && reentries == batch.started
      && Held(pending, batch.deferred, manager.arena)
    }

    method HandleNext(actions: seq<(IntentLifecycle, Alert)>, ghost named: seq<Action>, ghost start: Batch, i: nat, ghost batch: Batch,
                      pending: seq<(IntentLifecycle, Alert)>, reentries: int, replies: nat -> Reply)
      returns (more: seq<(IntentLifecycle, Alert)>, started: int, raised: bool, ghost next: Batch)
      requires i < |actions| == |named| && !batch.raised
      requires Handling(actions, named, start, i, batch, pending, reentries, replies)
      modifies manager`replanned, manager`log, manager.arena
      ensures Handling(actions, named, start, i + 1, next, more, started, replies) && raised == next.raised
    {
      BatchKeeps(start, named, i, maxReentries, replies, batch);
      var put;
      put, started, raised := HandleAction(actions[i].0, actions[i].1, batch, named[i], reentries, replies);
      next := NextBatch(start, named, i, maxReentries, replies, batch);
      more := if put then pending + [actions[i]] else pending;
    }

    /** `run_once`, from the user's request to the monitor's alerts. */
    method RunOnce(turn: Turn) returns (pending: seq<(IntentLifecycle, Alert)>, raised: bool)
      requires manager.Valid() && KeysKept(manager.Abs().store)
      modifies manager, manager.arena
      ensures manager.Valid() && KeysKept(manager.Abs().store)
      ensures old(manager.arena) <= manager.arena && (forall k | |old(manager.arena)| <= k < |manager.arena| :: fresh(manager.arena[k]))
      ensures var out := WatchLoopSpec.RunOnce(old(manager.Abs()), turn, maxReentries);
              manager.Abs() == out.st && Held(pending, out.deferred, manager.arena) && raised == out.raised
    {
      var newIds: set<string> := {};
      ghost var s := manager.Abs();
      if turn.user.UserRaised? {
        return [], true;
      }
      AfterUserKeepsKeys(s, turn.user);
      if turn.user.Answered? {
        var life := manager.RecordInitial(turn.user.result);
        newIds := {life.intentId};
        assert manager.Abs().store.objs[|manager.arena| - 1].id == life.intentId;
      }
      pending, raised := HandleMonitorAlerts(turn.alerts, newIds, turn.replies);
    }
  }

  ghost predicate Handleable(b: Batch, actions: seq<Action>) {
    KeysKept(b.st.store) && forall k | 0 <= k < |actions| :: actions[k].obj < |b.st.store.objs|
  }

  /** `batch` is what handling the first `i` actions leaves; kept dormant. */
  ghost predicate IsBatch(b: Batch, actions: seq<Action>, i: nat, limit: int, replies: nat -> Reply, batch: Batch)
    requires i <= |actions|
  {
    forall n: nat {:trigger Asked(n)} :: Asked(n) ==> Handleable(b, actions) && batch == HandleAll(b, actions[..i], limit, replies)
  }

  lemma NoneHandled(b: Batch, actions: seq<Action>, limit: int, replies: nat -> Reply)
    requires Handleable(b, actions)
    ensures IsBatch(b, actions, 0, limit, replies, b)
  {
  }

  lemma BatchKeeps(b: Batch, actions: seq<Action>, i: nat, limit: int, replies: nat -> Reply, batch: Batch)
    requires i < |actions| && IsBatch(b, actions, i, limit, replies, batch)
    ensures KeysKept(batch.st.store) && actions[i].obj < |batch.st.store.objs|
  {
    assert Asked(0);
  }

  lemma NextBatch(b: Batch, actions: seq<Action>, i: nat, limit: int, replies: nat -> Reply, batch: Batch) returns (next: Batch)
    requires i < |actions| && IsBatch(b, actions, i, limit, replies, batch)
    ensures KeysKept(batch.st.store) && actions[i].obj < |batch.st.store.objs|
    ensures next == HandleOne(batch, actions[i], limit, replies) && IsBatch(b, actions, i + 1, limit, replies, next)
  {
    BatchKeeps(b, actions, i, limit, replies, batch);
    assert Asked(0);
    HandleAllStep(b, actions, i, limit, replies);
    next := HandleOne(batch, actions[i], limit, replies);
  }

  /** The batch is complete when no action is left, or the orchestrator has raised. */
  lemma BatchEnds(b: Batch, actions: seq<Action>, i: nat, limit: int, replies: nat -> Reply, batch: Batch)
    requires i <= |actions| && IsBatch(b, actions, i, limit, replies, batch) && (i == |actions| || batch.raised)
    ensures Handleable(b, actions) && batch == HandleAll(b, actions, limit, replies)
  {
    assert Asked(0);
    if batch.raised {
      RaisedSticks(b, actions, i, limit, replies);
    } else {
      assert actions[..i] == actions;
    }
  }

  lemma HandleAllStep(b: Batch, actions: seq<Action>, i: nat, limit: int, replies: nat -> Reply)
    requires KeysKept(b.st.store) && i < |actions|
    requires forall k | 0 <= k < |actions| :: actions[k].obj < |b.st.store.objs|
    ensures HandleAll(b, actions[..i + 1], limit, replies)
            == HandleOne(HandleAll(b, actions[..i], limit, replies), actions[i], limit, replies)
  {
    assert actions[..i + 1][..i] == actions[..i];
  }

  lemma HandleOneStays(b: Batch, act: Action, limit: int, replies: nat -> Reply)
    requires KeysKept(b.st.store) && act.obj < |b.st.store.objs| && b.raised
    ensures HandleOne(b, act, limit, replies) == b
  {
  }

  /** Once the orchestrator has raised, the rest of the actions changes nothing. */
  lemma {:induction false} RaisedSticks(b: Batch, actions: seq<Action>, m: nat, limit: int, replies: nat -> Reply)
    requires KeysKept(b.st.store) && m <= |actions|
    requires forall i | 0 <= i < |actions| :: actions[i].obj < |b.st.store.objs|
    requires HandleAll(b, actions[..m], limit, replies).raised
    ensures HandleAll(b, actions, limit, replies) == HandleAll(b, actions[..m], limit, replies)
  {
    assert actions[..|actions|] == actions;
    RaisedUpTo(b, actions, m, |actions|, limit, replies);
  }

  lemma {:induction false} RaisedUpTo(b: Batch, actions: seq<Action>, m: nat, n: nat, limit: int, replies: nat -> Reply)
    requires KeysKept(b.st.store) && m <= n <= |actions|
    requires forall i | 0 <= i < |actions| :: actions[i].obj < |b.st.store.objs|
    requires HandleAll(b, actions[..m], limit, replies).raised
    ensures HandleAll(b, actions[..n], limit, replies) == HandleAll(b, actions[..m], limit, replies)
    decreases n
  {
    if m < n {
      RaisedUpTo(b, actions, m, n - 1, limit, replies);
      HandleAllStep(b, actions, n - 1, limit, replies);
      HandleOneStays(HandleAll(b, actions[..n - 1], limit, replies), actions[n - 1], limit, replies);
    }
  }
}
