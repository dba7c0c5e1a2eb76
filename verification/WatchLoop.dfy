/** One iteration of the autonomous watch loop (src/control_runtime/monitoring/watch_loop.py) on values,
    and what every run of iterations keeps. */
module WatchLoopSpec {
  import opened LifecycleSpec

  /** How an orchestrator call ends. */
  datatype Reply = Returned(completed: bool) | Raised

  datatype UserTurn = NoInput | Answered(result: ControlResult) | UserRaised

  /** Everything one iteration receives from outside.  `replies(i)` ends its i-th monitor replan. */
  datatype Turn = Turn(user: UserTurn, alerts: seq<Alert>, replies: nat -> Reply)

  datatype Batch = Batch(st: State, deferred: seq<Action>, started: nat, raised: bool)

  lemma SetStatusKeepsKeys(s: State, id: string, a: Alert, completed: bool)
    requires KeysKept(s.store) && Has(s.store, id)
    ensures var began := BeginReplan(s, id, a);
            && KeysKept(began.store) && Has(began.store, id)
            && KeysKept(FinishReplan(began, id, completed).store)
  {
    var k := s.store.dict[Position(s.store, id)];
    PositionIsFirst(s.store, id, |s.store.dict|);
    var began := BeginReplan(s, id, a);
    SameIdsKeepKeys(s.store, began.store);
    assert began.store.objs[k].id == id;
    assert Has(began.store, began.store.objs[k].id);
    SameIdsKeepKeys(began.store, FinishReplan(began, id, completed).store);
  }

  /** One pass of the loop over actions. */
  function HandleOne(b: Batch, act: Action, limit: int, replies: nat -> Reply): (out: Batch)
    requires KeysKept(b.st.store) && act.obj < |b.st.store.objs|
    ensures KeysKept(out.st.store) && |out.st.store.objs| == |b.st.store.objs|
  {
    var life := b.st.store.objs[act.obj];
    if b.raised || life.status.Failed? then b
    else if b.started >= limit then b.(deferred := b.deferred + [act])
    else
      var began := BeginReplan(b.st, life.id, act.alert);
      SetStatusKeepsKeys(b.st, life.id, act.alert, replies(b.started) == Returned(true));
      match replies(b.started)
      case Raised => b.(st := began, raised := true)
      case Returned(c) => b.(st := FinishReplan(began, life.id, c), started := b.started + 1)
  }

  function HandleAll(b: Batch, actions: seq<Action>, limit: int, replies: nat -> Reply): (out: Batch)
    requires KeysKept(b.st.store)
    requires forall i | 0 <= i < |actions| :: actions[i].obj < |b.st.store.objs|
    ensures KeysKept(out.st.store) && |out.st.store.objs| == |b.st.store.objs|
  {
    if actions == [] then b
    else
      var n := |actions| - 1;
      HandleOne(HandleAll(b, actions[..n], limit, replies), actions[n], limit, replies)
  }

  function AfterUser(s: State, user: UserTurn): State {
    if user.Answered? then RecordInitial(s, user.result) else s
  }

  function NewIds(user: UserTurn): set<string> {
    if user.Answered? then {user.result.sessionId} else {}
  }

  lemma AfterUserKeepsKeys(s: State, user: UserTurn)
    requires KeysKept(s.store)
    ensures KeysKept(AfterUser(s, user).store)
  {
    if user.Answered? {
      var r := user.result;
      PutKeepsKeys(s.store, Life(r.sessionId, if r.completed then r.flows else [],
                                 if r.completed then Active else Failed, false));
    }
  }

  function HandleAlerts(s: State, alerts: seq<Alert>, skip: set<string>, limit: int, replies: nat -> Reply): (out: Batch)
    requires KeysKept(s.store)
    ensures KeysKept(out.st.store)
  {
    ObserveBasics(s, alerts, skip);
    HandleAll(Batch(Observe(s, alerts, skip), [], 0, false), Actions(s, alerts, skip), limit, replies)
  }

  /** `run_once`: the user's request first, then the monitor's alerts. */
  function RunOnce(s: State, turn: Turn, limit: int): (out: Batch)
    requires KeysKept(s.store)
    ensures KeysKept(out.st.store)
  {
    if turn.user.UserRaised? then Batch(s, [], 0, true)
    else
      var s1, skip := AfterUser(s, turn.user), NewIds(turn.user);
      AfterUserKeepsKeys(s, turn.user);
      HandleAlerts(s1, turn.alerts, skip, limit, turn.replies)
  }

  /** A run is any sequence of iterations, with any limits; one that raised leaves its state behind. */
  function Run(s: State, turns: seq<(Turn, int)>): (out: State)
    requires KeysKept(s.store)
    ensures KeysKept(out.store)
  {
    if turns == [] then s
    else
      var n := |turns| - 1;
      RunOnce(Run(s, turns[..n]), turns[n].0, turns[n].1).st
  }

  // ---- At most one replan per violation episode ----

  /** The `_replanned_bindings` set that a history of calls amounts to. */
  function Replans(log: seq<Event>): set<Binding> {
    if log == [] then {}
    else
      var before := Replans(log[..|log| - 1]);
      match log[|log| - 1]
      case Observed(active) => before * active
      case Began(b) => before + {b}
  }

  /** No replan begins while its binding counts as replanned. */
  ghost predicate Disciplined(log: seq<Event>) {
    forall j | 0 <= j < |log| && log[j].Began? :: log[j].binding !in Replans(log[..j])
  }

  ghost predicate Tracked(s: State) {
    s.replanned == Replans(s.log) && Disciplined(s.log)
  }

  lemma ReplansStep(log: seq<Event>, e: Event)
    ensures Replans(log + [e]) == if e.Observed? then Replans(log) * e.active else Replans(log) + {e.binding}
  {
    assert (log + [e])[..|log|] == log;
  }

  lemma DisciplinedStep(log: seq<Event>, e: Event)
    requires Disciplined(log) && (e.Began? ==> e.binding !in Replans(log))
    ensures Disciplined(log + [e])
  {
    var more := log + [e];
    forall j | 0 <= j < |more| && more[j].Began?
      ensures more[j].binding !in Replans(more[..j])
    {
      assert more[..j] == log[..j];
      if j == |log| {
        assert log[..j] == log;
      }
    }
  }

  lemma TrackedStep(s: State, e: Event, replanned: set<Binding>, store: Store)
    requires Tracked(s)
    requires e.Began? ==> e.binding !in s.replanned
    requires replanned == if e.Observed? then s.replanned * e.active else s.replanned + {e.binding}
    ensures Tracked(State(store, replanned, s.log + [e]))
  {
    ReplansStep(s.log, e);
    DisciplinedStep(s.log, e);
  }

  lemma HandleOneTracked(b: Batch, act: Action, limit: int, replies: nat -> Reply)
    requires KeysKept(b.st.store) && act.obj < |b.st.store.objs| && Tracked(b.st)
    requires AlertBinding(act.alert) !in b.st.replanned
    ensures var out := HandleOne(b, act, limit, replies).st;
            Tracked(out) && out.replanned <= b.st.replanned + {AlertBinding(act.alert)}
  {
    var life, bind := b.st.store.objs[act.obj], AlertBinding(act.alert);
    if !b.raised && !life.status.Failed? && b.started < limit {
      var began := BeginReplan(b.st, life.id, act.alert);
      TrackedStep(b.st, Began(bind), began.replanned, began.store);
      TrackedStep(b.st, Began(bind), began.replanned, HandleOne(b, act, limit, replies).st.store);
    }
  }

  lemma ActionBindingsStep(actions: seq<Action>, act: Action)
    ensures ActionBindings(actions + [act]) == ActionBindings(actions) + {AlertBinding(act.alert)}
  {
    assert forall x :: x in actions + [act] <==> x in actions || x == act;
  }

  lemma {:induction false} HandleAllTracked(b: Batch, actions: seq<Action>, limit: int, replies: nat -> Reply)
    requires KeysKept(b.st.store)
    requires forall i | 0 <= i < |actions| :: actions[i].obj < |b.st.store.objs|
    requires Tracked(b.st)
    requires DistinctBindings(actions) && ActionBindings(actions) !! b.st.replanned
    ensures var out := HandleAll(b, actions, limit, replies).st;
            Tracked(out) && out.replanned <= b.st.replanned + ActionBindings(actions)
  {
    if actions != [] {
      var init, act := actions[..|actions| - 1], actions[|actions| - 1];
      assert actions == init + [act];
      ActionBindingsStep(init, act);
      HandleAllTracked(b, init, limit, replies);
      NotYetReplanned(b, init, act, HandleAll(b, init, limit, replies).st.replanned);
      HandleOneTracked(HandleAll(b, init, limit, replies), act, limit, replies);
    }
  }

  lemma NotYetReplanned(b: Batch, init: seq<Action>, act: Action, replanned: set<Binding>)
    requires DistinctBindings(init + [act]) && ActionBindings(init + [act]) !! b.st.replanned
    requires replanned <= b.st.replanned + ActionBindings(init)
    ensures AlertBinding(act.alert) !in replanned
  {
    ActionBindingsStep(init, act);
    assert (init + [act])[|init|] == act && forall i | 0 <= i < |init| :: (init + [act])[i] == init[i];
    assert AlertBinding(act.alert) !in ActionBindings(init);
  }

  lemma RunOnceTracked(s: State, turn: Turn, limit: int)
    requires KeysKept(s.store) && Tracked(s)
    ensures Tracked(RunOnce(s, turn, limit).st)
  {
    if !turn.user.UserRaised? {
      var s1, skip := AfterUser(s, turn.user), NewIds(turn.user);
      var active := BindingsOf(turn.alerts);
      AfterUserKeepsKeys(s, turn.user);
      ObserveBasics(s1, turn.alerts, skip);
      var mid := Observe(s1, turn.alerts, skip);
      TrackedStep(s1, Observed(active), mid.replanned, mid.store);
      HandleAllTracked(Batch(mid, [], 0, false), Actions(s1, turn.alerts, skip), limit, turn.replies);
    }
  }

  lemma {:induction false} RunTracked(turns: seq<(Turn, int)>)
    ensures Tracked(Run(Init, turns))
  {
    if turns != [] {
      var n := |turns| - 1;
      RunTracked(turns[..n]);
      RunOnceTracked(Run(Init, turns[..n]), turns[n].0, turns[n].1);
    }
  }

  /** Once begun, a binding stays replanned until an observation lacks it. */
  lemma {:induction false} StaysReplanned(log: seq<Event>, i: nat, j: nat, b: Binding)
    requires i < j <= |log| && log[i] == Began(b)
    requires forall k | i < k < j && log[k].Observed? :: b in log[k].active
    ensures b in Replans(log[..j])
  {
    assert log[..j][..j - 1] == log[..j - 1];
    if i + 1 < j {
      StaysReplanned(log, i, j - 1, b);
    }
  }

  /** In every run, between two replans of one binding some observation saw it healthy. */
  lemma OneReplanPerEpisode(turns: seq<(Turn, int)>, i: nat, j: nat, b: Binding)
    requires i < j < |Run(Init, turns).log|
    requires Run(Init, turns).log[i] == Began(b) == Run(Init, turns).log[j]
    ensures exists k :: i < k < j && Run(Init, turns).log[k].Observed? && b !in Run(Init, turns).log[k].active
  {
    var log := Run(Init, turns).log;
    RunTracked(turns);
    if forall k | i < k < j && log[k].Observed? :: b in log[k].active {
      StaysReplanned(log, i, j, b);
    }
  }

  // ---- Lifecycle safety ----

  ghost predicate NoneReplanning(st: Store) {
    forall k | 0 <= k < |st.objs| :: !st.objs[k].status.Replanning?
  }

  lemma LookupSelf(st: Store, k: nat)
    requires Intact(st) && k < |st.objs|
    ensures Has(st, st.objs[k].id) && st.dict[Position(st, st.objs[k].id)] == k
  {
    PositionIsFirst(st, st.objs[k].id, |st.dict|);
    assert st.objs[st.dict[k]].id == st.objs[k].id;
  }

  /** The status in which a begun replan leaves its lifecycle. */
  function Outcome(reply: Reply): Status {
    match reply
    case Raised => Replanning
    case Returned(c) => if c then Active else Failed
  }

  /** In an intact store the object an action holds and the one its id looks up are the same. */
  lemma HandleOneEffect(b: Batch, act: Action, limit: int, replies: nat -> Reply)
    requires WellFormed(b.st.store) && KeysKept(b.st.store) && act.obj < |b.st.store.objs|
    requires !b.raised && !b.st.store.objs[act.obj].status.Failed? && b.started < limit
    ensures HandleOne(b, act, limit, replies).st.store == SetStatus(b.st.store, act.obj, Outcome(replies(b.started)))
  {
    var life := b.st.store.objs[act.obj];
    LookupSelf(b.st.store, act.obj);
    var began := BeginReplan(b.st, life.id, act.alert);
    SetStatusKeeps(b.st.store, act.obj, Replanning);
    LookupSelf(began.store, act.obj);
  }

  lemma HandleOneSafe(b: Batch, act: Action, limit: int, replies: nat -> Reply)
    requires WellFormed(b.st.store) && KeysKept(b.st.store) && act.obj < |b.st.store.objs|
    ensures var out := HandleOne(b, act, limit, replies);
            && WellFormed(out.st.store) && Extends(b.st.store, out.st.store)
            && (b.raised ==> out == b)
            && (NoneReplanning(b.st.store) && !out.raised ==> NoneReplanning(out.st.store))
  {
    if !b.raised && !b.st.store.objs[act.obj].status.Failed? && b.started < limit {
      HandleOneEffect(b, act, limit, replies);
      SetStatusKeeps(b.st.store, act.obj, Outcome(replies(b.started)));
    }
  }

  lemma {:induction false} HandleAllSafe(b: Batch, actions: seq<Action>, limit: int, replies: nat -> Reply)
    requires WellFormed(b.st.store) && KeysKept(b.st.store) && !b.raised
    requires forall i | 0 <= i < |actions| :: actions[i].obj < |b.st.store.objs|
    ensures var out := HandleAll(b, actions, limit, replies);
            && WellFormed(out.st.store) && Extends(b.st.store, out.st.store)
            && (NoneReplanning(b.st.store) && !out.raised ==> NoneReplanning(out.st.store))
  {
    if actions != [] {
      var n := |actions| - 1;
      HandleAllSafe(b, actions[..n], limit, replies);
      var mid := HandleAll(b, actions[..n], limit, replies);
      HandleOneSafe(mid, actions[n], limit, replies);
      ExtendsTransitive(b.st.store, mid.st.store, HandleAll(b, actions, limit, replies).st.store);
    }
  }

  /** What keeps ids apart: new session ids are new and not of the monitor's form, and the alerts'
      bindings join unambiguously. */
  ghost predicate FreshTurn(s: State, turn: Turn) {
    && AllJoinable(turn.alerts)
    && (turn.user.Answered? ==> !IsMonitorId(turn.user.result.sessionId) && !Has(s.store, turn.user.result.sessionId))
  }

  lemma AfterUserSafe(s: State, turn: Turn)
    requires WellFormed(s.store) && FreshTurn(s, turn)
    ensures var out := AfterUser(s, turn.user);
            && WellFormed(out.store) && Extends(s.store, out.store)
            && (NoneReplanning(s.store) ==> NoneReplanning(out.store))
  {
    if turn.user.Answered? {
      PositionIsFirst(s.store, turn.user.result.sessionId, |s.store.dict|);
      forall j | 0 <= j < |s.store.objs|
        ensures s.store.objs[j].id != turn.user.result.sessionId
      {
        assert s.store.dict[j] == j;
      }
    }
  }

  lemma {:induction false} ScanNoneReplanning(scan: Scan, alerts: seq<Alert>,
                                              replanned: set<Binding>, skipped: set<Binding>)
    requires NoneReplanning(scan.store)
    ensures NoneReplanning(ScanAlerts(scan, alerts, replanned, skipped).store)
  {
    if alerts != [] {
      ScanNoneReplanning(scan, alerts[..|alerts| - 1], replanned, skipped);
    }
  }

  lemma ObserveSafe(s: State, alerts: seq<Alert>, skip: set<string>)
    requires WellFormed(s.store) && KeysKept(s.store) && AllJoinable(alerts)
    ensures var after, actions := Observe(s, alerts, skip), Actions(s, alerts, skip);
            && WellFormed(after.store) && KeysKept(after.store) && Extends(s.store, after.store)
            && (forall i | 0 <= i < |actions| :: actions[i].obj < |after.store.objs|)
            && (NoneReplanning(s.store) ==> NoneReplanning(after.store))
  {
    ObserveBasics(s, alerts, skip);
    ObserveSound(s, alerts, skip);
    if NoneReplanning(s.store) {
      var active := BindingsOf(alerts);
      ScanNoneReplanning(Scan(Settle(s.store, active, skip), {}, []), alerts,
                         s.replanned * active, SkippedBindings(s.store, skip));
    }
  }

  /** One iteration overwrites no lifecycle and revives no failed one; if none was replanning and the
      orchestrator did not raise, none is. */
  lemma RunOnceSafe(s: State, turn: Turn, limit: int)
    requires WellFormed(s.store) && KeysKept(s.store) && FreshTurn(s, turn)
    ensures var out := RunOnce(s, turn, limit);
            && WellFormed(out.st.store) && Extends(s.store, out.st.store)
            && (NoneReplanning(s.store) && !out.raised ==> NoneReplanning(out.st.store))
  {
    if !turn.user.UserRaised? {
      var s1, skip := AfterUser(s, turn.user), NewIds(turn.user);
      AfterUserKeepsKeys(s, turn.user);
      AfterUserSafe(s, turn);
      ObserveSafe(s1, turn.alerts, skip);
      var mid, actions := Observe(s1, turn.alerts, skip), Actions(s1, turn.alerts, skip);
      HandleAllSafe(Batch(mid, [], 0, false), actions, limit, turn.replies);
      ExtendsTransitive(s.store, s1.store, mid.store);
      ExtendsTransitive(s.store, mid.store, RunOnce(s, turn, limit).st.store);
    }
  }

  ghost predicate FreshRun(turns: seq<(Turn, int)>) {
    forall i | 0 <= i < |turns| :: FreshTurn(Run(Init, turns[..i]), turns[i].0)
  }

  /** Over every run: the store stays intact, and whatever a shorter run left is still there, failed
      lifecycles included. */
  lemma {:induction false} RunSafe(turns: seq<(Turn, int)>, m: nat)
    requires FreshRun(turns) && m <= |turns|
    ensures WellFormed(Run(Init, turns).store)
    ensures Extends(Run(Init, turns[..m]).store, Run(Init, turns).store)
    decreases |turns|, m
  {
    if m == |turns| {
      assert turns[..m] == turns;
      if turns != [] {
        RunSafe(turns, m - 1);
      }
    } else {
      var n := |turns| - 1;
      assert forall i | 0 <= i <= n :: turns[..n][..i] == turns[..i];
      RunSafe(turns[..n], m);
      RunOnceSafe(Run(Init, turns[..n]), turns[n].0, turns[n].1);
      ExtendsTransitive(Run(Init, turns[..m]).store, Run(Init, turns[..n]).store, Run(Init, turns).store);
    }
  }

  // ---- Progress ----

  /** The alerting bindings that still have a replan coming. */
  ghost function Pending(s: State, alerts: seq<Alert>): set<Binding> {
    set b | b in BindingsOf(alerts) && b !in s.replanned && !OwnerFailed(s.store, b)
  }

  ghost predicate Settled(b: Batch, act: Action)
    requires act.obj < |b.st.store.objs|
  {
    || AlertBinding(act.alert) in b.st.replanned
    || b.st.store.objs[act.obj].status.Failed?
    || act in b.deferred
  }

  ghost predicate Waiting(b: Batch, act: Action) {
    && act.obj < |b.st.store.objs|
    && AlertBinding(act.alert) !in b.st.replanned
    && !b.st.store.objs[act.obj].status.Failed?
  }

  ghost predicate HandleInv(b: Batch, out: Batch, actions: seq<Action>, limit: int)
    requires forall i | 0 <= i < |actions| :: actions[i].obj < |out.st.store.objs|
  {
    && b.st.replanned <= out.st.replanned <= b.st.replanned + ActionBindings(actions)
    && |out.st.replanned| == |b.st.replanned| + out.started
    && (forall i | 0 <= i < |actions| :: Settled(out, actions[i]))
    && (out.deferred != [] ==> out.started >= limit)
    && (forall d | d in out.deferred :: d in actions && Waiting(out, d))
    && out.started <= if limit < 0 then 0 else limit
  }

  lemma SettledAppend(out: Batch, actions: seq<Action>, act: Action)
    requires forall i | 0 <= i < |actions| :: actions[i].obj < |out.st.store.objs| && Settled(out, actions[i])
    requires act.obj < |out.st.store.objs| && Settled(out, act)
    ensures forall i | 0 <= i < |actions + [act]| :: (actions + [act])[i].obj < |out.st.store.objs|
    ensures forall i | 0 <= i < |actions + [act]| :: Settled(out, (actions + [act])[i])
  {
  }

  lemma InvFailed(b: Batch, mid: Batch, actions: seq<Action>, act: Action, limit: int)
    requires act.obj < |mid.st.store.objs| && forall i | 0 <= i < |actions| :: actions[i].obj < |mid.st.store.objs|
    requires HandleInv(b, mid, actions, limit) && mid.st.store.objs[act.obj].status.Failed?
    ensures HandleInv(b, mid, actions + [act], limit)
  {
    ActionBindingsStep(actions, act);
    SettledAppend(mid, actions, act);
  }

  lemma InvDeferred(b: Batch, mid: Batch, actions: seq<Action>, act: Action, limit: int)
    requires act.obj < |mid.st.store.objs| && forall i | 0 <= i < |actions| :: actions[i].obj < |mid.st.store.objs|
    requires HandleInv(b, mid, actions, limit) && mid.started >= limit
    requires AlertBinding(act.alert) !in mid.st.replanned && !mid.st.store.objs[act.obj].status.Failed?
    ensures HandleInv(b, mid.(deferred := mid.deferred + [act]), actions + [act], limit)
  {
    var out := mid.(deferred := mid.deferred + [act]);
    ActionBindingsStep(actions, act);
    forall i | 0 <= i < |actions|
      ensures Settled(out, actions[i])
    {
      assert Settled(mid, actions[i]);
    }
    SettledAppend(out, actions, act);
  }

  /** `out` differs from `mid` by the replan of one action, whose binding was not yet replanned. */
  lemma InvReplanned(b: Batch, mid: Batch, out: Batch, actions: seq<Action>, act: Action, limit: int)
    requires act.obj < |mid.st.store.objs| == |out.st.store.objs|
    requires forall i | 0 <= i < |actions| :: actions[i].obj < |mid.st.store.objs|
    requires HandleInv(b, mid, actions, limit) && mid.started < limit && AlertBinding(act.alert) !in mid.st.replanned
    requires out.started == mid.started + 1 && out.deferred == mid.deferred
    requires out.st.replanned == mid.st.replanned + {AlertBinding(act.alert)}
    requires forall k | 0 <= k < |mid.st.store.objs| && mid.st.store.objs[k].status.Failed? :: out.st.store.objs[k].status.Failed?
    ensures HandleInv(b, out, actions + [act], limit)
  {
    ActionBindingsStep(actions, act);
    assert mid.deferred == [];
    forall i | 0 <= i < |actions|
      ensures Settled(out, actions[i])
    {
      assert Settled(mid, actions[i]);
    }
    SettledAppend(out, actions, act);
  }

  lemma HandleOneInv(b: Batch, mid: Batch, actions: seq<Action>, act: Action, limit: int, replies: nat -> Reply)
    requires WellFormed(mid.st.store) && KeysKept(mid.st.store) && act.obj < |mid.st.store.objs|
    requires forall i | 0 <= i < |actions| :: actions[i].obj < |mid.st.store.objs|
    requires HandleInv(b, mid, actions, limit)
    requires AlertBinding(act.alert) !in mid.st.replanned
    requires !HandleOne(mid, act, limit, replies).raised && !mid.raised
    ensures HandleInv(b, HandleOne(mid, act, limit, replies), actions + [act], limit)
  {
    var out := HandleOne(mid, act, limit, replies);
    if mid.st.store.objs[act.obj].status.Failed? {
      InvFailed(b, mid, actions, act, limit);
    } else if mid.started >= limit {
      InvDeferred(b, mid, actions, act, limit);
    } else {
      HandleOneEffect(mid, act, limit, replies);
      InvReplanned(b, mid, out, actions, act, limit);
    }
  }

  lemma {:induction false} HandleAllInv(b: Batch, actions: seq<Action>, limit: int, replies: nat -> Reply)
    requires WellFormed(b.st.store) && KeysKept(b.st.store)
    requires !b.raised && b.deferred == [] && b.started == 0
    requires forall i | 0 <= i < |actions| :: actions[i].obj < |b.st.store.objs|
    requires DistinctBindings(actions) && ActionBindings(actions) !! b.st.replanned
    requires !HandleAll(b, actions, limit, replies).raised
    ensures HandleInv(b, HandleAll(b, actions, limit, replies), actions, limit)
  {
    if actions != [] {
      var n := |actions| - 1;
      var mid := HandleAll(b, actions[..n], limit, replies);
      assert actions[..n] + [actions[n]] == actions;
      assert ActionBindings(actions) == ActionBindings(actions[..n]) + {AlertBinding(actions[n].alert)};
      HandleAllSafe(b, actions[..n], limit, replies);
      HandleOneSafe(mid, actions[n], limit, replies);
      HandleAllInv(b, actions[..n], limit, replies);
      assert AlertBinding(actions[n].alert) !in ActionBindings(actions[..n]);
      HandleOneInv(b, mid, actions[..n], actions[n], limit, replies);
    }
  }

  lemma OwnersKept(before: Store, after: Store, b: Binding)
    requires Intact(before) && Intact(after)
    requires Extends(before, after) && |before.objs| == |after.objs|
    ensures Owner(after, b) == Owner(before, b)
  {
    OwnerLast(before, b, |before.dict|);
    OwnerUnique(after, b, Owner(before, b));
  }

  lemma SubsetSize<T>(a: set<T>, b: set<T>)
    requires a <= b
    ensures |a| <= |b|
  {
    assert b == a + (b - a);
  }

  /** The heart of the progress argument, for the loop over actions alone.  Actions own their bindings. */
  lemma HandleProgress(s: State, alerts: seq<Alert>, actions: seq<Action>, limit: int, replies: nat -> Reply)
    requires WellFormed(s.store) && KeysKept(s.store) && limit >= 1
    requires forall i | 0 <= i < |actions| :: actions[i].obj < |s.store.objs| && ActionOk(s.store, actions[i])
    requires DistinctBindings(actions) && ActionBindings(actions) == Pending(s, alerts)
    requires !HandleAll(Batch(s, [], 0, false), actions, limit, replies).raised
    ensures var out := HandleAll(Batch(s, [], 0, false), actions, limit, replies);
            && Pending(out.st, alerts) <= Pending(s, alerts)
            && (out.deferred == [] ==> Pending(out.st, alerts) == {})
            && (out.deferred != [] ==> |Pending(out.st, alerts)| + limit <= |Pending(s, alerts)|)
            && (forall d | d in out.deferred :: AlertBinding(d.alert) in Pending(out.st, alerts))
  {
    var b := Batch(s, [], 0, false);
    var out := HandleAll(b, actions, limit, replies);
    HandleAllSafe(b, actions, limit, replies);
    HandleAllInv(b, actions, limit, replies);
    forall c { OwnersKept(s.store, out.st.store, c); }
    assert Handled(b, out, alerts, actions, limit);
    PendingShrinks(b, out, alerts, actions, limit);
    DeferredStillPending(b, out, alerts, actions, limit);
    if out.deferred == [] {
      NothingPending(b, out, alerts, actions, limit);
    } else {
      LimitUsed(b, out, alerts, actions, limit);
    }
  }

  /** What a batch leaves, seen from the bindings that were pending when it began. */
  ghost predicate Handled(b: Batch, out: Batch, alerts: seq<Alert>, actions: seq<Action>, limit: int) {
    && |b.st.store.objs| == |out.st.store.objs|
    && (forall i | 0 <= i < |actions| :: actions[i].obj < |b.st.store.objs| && ActionOk(b.st.store, actions[i]))
    && ActionBindings(actions) == Pending(b.st, alerts)
    && (forall c :: Owner(out.st.store, c) == Owner(b.st.store, c))
    && Extends(b.st.store, out.st.store) && b.started == 0
    && HandleInv(b, out, actions, limit)
  }

  lemma PendingShrinks(b: Batch, out: Batch, alerts: seq<Alert>, actions: seq<Action>, limit: int)
    requires Handled(b, out, alerts, actions, limit)
    ensures Pending(out.st, alerts) <= Pending(b.st, alerts)
  {
    forall c | c in Pending(out.st, alerts)
      ensures c in Pending(b.st, alerts)
    {
      assert Owner(out.st.store, c) == Owner(b.st.store, c);
    }
  }

  lemma DeferredStillPending(b: Batch, out: Batch, alerts: seq<Alert>, actions: seq<Action>, limit: int)
    requires Handled(b, out, alerts, actions, limit)
    ensures forall d | d in out.deferred :: AlertBinding(d.alert) in Pending(out.st, alerts)
  {
    forall d | d in out.deferred
      ensures AlertBinding(d.alert) in Pending(out.st, alerts)
    {
      assert d in actions && Waiting(out, d);
      assert AlertBinding(d.alert) in ActionBindings(actions);
      assert Owner(out.st.store, AlertBinding(d.alert)) == Owner(b.st.store, AlertBinding(d.alert));
    }
  }

  lemma NothingPending(b: Batch, out: Batch, alerts: seq<Alert>, actions: seq<Action>, limit: int)
    requires Handled(b, out, alerts, actions, limit) && out.deferred == []
    ensures Pending(out.st, alerts) == {}
  {
    PendingShrinks(b, out, alerts, actions, limit);
    forall c | c in Pending(b.st, alerts)
      ensures c !in Pending(out.st, alerts)
    {
      assert c in ActionBindings(actions);
      var i :| 0 <= i < |actions| && AlertBinding(actions[i].alert) == c;
      assert Settled(out, actions[i]);
      assert Owner(out.st.store, c) == Owner(b.st.store, c);
    }
  }

  lemma LimitUsed(b: Batch, out: Batch, alerts: seq<Alert>, actions: seq<Action>, limit: int)
    requires Handled(b, out, alerts, actions, limit) && out.deferred != []
    ensures |Pending(out.st, alerts)| + limit <= |Pending(b.st, alerts)|
  {
    PendingShrinks(b, out, alerts, actions, limit);
    var before, after := Pending(b.st, alerts), Pending(out.st, alerts);
    var begun := out.st.replanned - b.st.replanned;
    assert out.st.replanned == b.st.replanned + begun;
    assert |begun| == out.started >= limit;
    assert begun <= ActionBindings(actions) && begun !! after;
    SubsetSize(begun + after, before);
  }

  lemma ObservePending(s: State, alerts: seq<Alert>)
    requires WellFormed(s.store) && KeysKept(s.store) && AllJoinable(alerts)
    ensures var mid, actions := Observe(s, alerts, {}), Actions(s, alerts, {});
            && WellFormed(mid.store) && KeysKept(mid.store)
            && (forall i | 0 <= i < |actions| :: actions[i].obj < |mid.store.objs| && ActionOk(mid.store, actions[i]))
            && DistinctBindings(actions)
            && ActionBindings(actions) == Pending(mid, alerts) == Pending(s, alerts)
  {
    var mid := Observe(s, alerts, {});
    ObserveBasics(s, alerts, {});
    ObserveSound(s, alerts, {});
    assert SkippedBindings(s.store, {}) == {};
    forall c { ObserveOwners(s, alerts, {}, c); }
    assert Pending(mid, alerts) == Pending(s, alerts);
  }

  function AtMost(n: nat, limit: int): int {
    if n < limit then n else limit
  }

  /** One iteration of a constant alert list, with no user request and an orchestrator that returns. */
  lemma Progress(s: State, turn: Turn, limit: int)
    requires WellFormed(s.store) && KeysKept(s.store) && limit >= 1
    requires turn.user.NoInput? && AllJoinable(turn.alerts)
    requires !RunOnce(s, turn, limit).raised
    ensures var out, n := RunOnce(s, turn, limit), |Pending(s, turn.alerts)|;
            && |Pending(out.st, turn.alerts)| + AtMost(n, limit) <= n
            && (n <= limit ==> out.deferred == [])
  {
    ObservePending(s, turn.alerts);
    ObserveBasics(s, turn.alerts, {});
    var mid, actions := Observe(s, turn.alerts, {}), Actions(s, turn.alerts, {});
    var out := RunOnce(s, turn, limit);
    assert out == HandleAll(Batch(mid, [], 0, false), actions, limit, turn.replies);
    HandleProgress(mid, turn.alerts, actions, limit, turn.replies);
    DeferredPending(out, mid, turn.alerts, limit);
  }

  lemma DeferredPending(out: Batch, mid: State, alerts: seq<Alert>, limit: int)
    requires out.deferred != [] ==> |Pending(out.st, alerts)| + limit <= |Pending(mid, alerts)|
    requires forall d | d in out.deferred :: AlertBinding(d.alert) in Pending(out.st, alerts)
    ensures |Pending(mid, alerts)| <= limit ==> out.deferred == []
  {
    if out.deferred != [] {
      assert AlertBinding(out.deferred[0].alert) in Pending(out.st, alerts);
    }
  }

  function Steady(s: State, alerts: seq<Alert>, replies: nat -> nat -> Reply, limit: int, k: nat): (out: State)
    requires KeysKept(s.store)
    ensures KeysKept(out.store)
  {
    if k == 0 then s
    else RunOnce(Steady(s, alerts, replies, limit, k - 1), Turn(NoInput, alerts, replies(k - 1)), limit).st
  }

  ghost predicate AlwaysReturns(replies: nat -> nat -> Reply) {
    forall k, i :: replies(k)(i).Returned?
  }

  lemma {:induction false} NeverRaises(b: Batch, actions: seq<Action>, limit: int, replies: nat -> Reply)
    requires KeysKept(b.st.store) && !b.raised
    requires forall i | 0 <= i < |actions| :: actions[i].obj < |b.st.store.objs|
    requires forall i :: replies(i).Returned?
    ensures !HandleAll(b, actions, limit, replies).raised
  {
    if actions != [] {
      NeverRaises(b, actions[..|actions| - 1], limit, replies);
    }
  }

  lemma SteadyTurn(s: State, alerts: seq<Alert>, replies: nat -> Reply, limit: int)
    requires WellFormed(s.store) && KeysKept(s.store) && AllJoinable(alerts)
    ensures WellFormed(RunOnce(s, Turn(NoInput, alerts, replies), limit).st.store)
  {
    RunOnceSafe(s, Turn(NoInput, alerts, replies), limit);
  }

  lemma {:induction false} SteadySafe(s: State, alerts: seq<Alert>, replies: nat -> nat -> Reply, limit: int, k: nat)
    requires WellFormed(s.store) && KeysKept(s.store) && AllJoinable(alerts)
    ensures WellFormed(Steady(s, alerts, replies, limit, k).store)
  {
    if k > 0 {
      SteadySafe(s, alerts, replies, limit, k - 1);
      SteadyTurn(Steady(s, alerts, replies, limit, k - 1), alerts, replies(k - 1), limit);
    }
  }

  ghost function Remaining(s: State, alerts: seq<Alert>, replies: nat -> nat -> Reply, limit: int, k: nat): nat
    requires KeysKept(s.store)
  {
    |Pending(Steady(s, alerts, replies, limit, k), alerts)|
  }

  /** What is left of `n` after `k` rounds that each take `limit` away. */
  function Rest(n: nat, limit: nat, k: nat): nat {
    if n <= k * limit then 0 else n - k * limit
  }

  lemma {:induction false} Countdown(left: nat -> nat, n: nat, limit: nat, k: nat)
    requires left(0) <= n
    requires forall i: nat :: left(i + 1) + AtMost(left(i), limit) <= left(i)
    ensures left(k) <= Rest(n, limit, k)
  {
    if k > 0 {
      Countdown(left, n, limit, k - 1);
      assert left(k - 1 + 1) + AtMost(left(k - 1), limit) <= left(k - 1);
      assert k * limit == (k - 1) * limit + limit;
    }
  }

  lemma RemainingStep(s: State, alerts: seq<Alert>, replies: nat -> nat -> Reply, limit: int, k: nat)
    requires WellFormed(s.store) && KeysKept(s.store) && limit >= 1
    requires AllJoinable(alerts) && AlwaysReturns(replies)
    ensures var left := Remaining(s, alerts, replies, limit, k);
            && Remaining(s, alerts, replies, limit, k + 1) + AtMost(left, limit) <= left
            && (left <= limit ==>
                  RunOnce(Steady(s, alerts, replies, limit, k), Turn(NoInput, alerts, replies(k)), limit).deferred == [])
  {
    SteadySafe(s, alerts, replies, limit, k);
    SteadyStep(Steady(s, alerts, replies, limit, k), Turn(NoInput, alerts, replies(k)), limit);
  }

  lemma SteadyProgress(s: State, alerts: seq<Alert>, replies: nat -> nat -> Reply, limit: int, k: nat)
    requires WellFormed(s.store) && KeysKept(s.store) && limit >= 1
    requires AllJoinable(alerts) && AlwaysReturns(replies)
    ensures Remaining(s, alerts, replies, limit, k) <= Rest(|Pending(s, alerts)|, limit, k)
  {
    ghost var left := (i: nat) => Remaining(s, alerts, replies, limit, i);
    forall i: nat
      ensures left(i + 1) + AtMost(left(i), limit) <= left(i)
    {
      RemainingStep(s, alerts, replies, limit, i);
    }
    assert Steady(s, alerts, replies, limit, 0) == s;
    Countdown(left, |Pending(s, alerts)|, limit, k);
  }

  /** While the same alerts persist, k iterations with limit L leave at most n - kL of the n pending
      bindings, and nothing is deferred any more from iteration ceil(n / L) on. */
  lemma DeferralsEnd(s: State, alerts: seq<Alert>, replies: nat -> nat -> Reply, limit: int, k: nat)
    requires WellFormed(s.store) && KeysKept(s.store) && limit >= 1
    requires AllJoinable(alerts) && AlwaysReturns(replies)
    requires |Pending(s, alerts)| <= (k + 1) * limit
    ensures RunOnce(Steady(s, alerts, replies, limit, k), Turn(NoInput, alerts, replies(k)), limit).deferred == []
    ensures Remaining(s, alerts, replies, limit, k + 1) == 0
  {
    SteadyProgress(s, alerts, replies, limit, k);
    SteadyProgress(s, alerts, replies, limit, k + 1);
    RemainingStep(s, alerts, replies, limit, k);
    assert (k + 1) * limit == k * limit + limit;
  }

  lemma SteadyStep(s: State, turn: Turn, limit: int)
    requires WellFormed(s.store) && KeysKept(s.store) && limit >= 1
    requires turn.user.NoInput? && AllJoinable(turn.alerts)
    requires forall i :: turn.replies(i).Returned?
    ensures var out, n := RunOnce(s, turn, limit), |Pending(s, turn.alerts)|;
            && |Pending(out.st, turn.alerts)| + AtMost(n, limit) <= n
            && (n <= limit ==> out.deferred == [])
  {
    ObserveBasics(s, turn.alerts, {});
    NeverRaises(Batch(Observe(s, turn.alerts, {}), [], 0, false), Actions(s, turn.alerts, {}), limit, turn.replies);
    Progress(s, turn, limit);
  }
}
