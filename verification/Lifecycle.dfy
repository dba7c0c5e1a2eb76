/** The intent lifecycle protocol of src/control_runtime/monitoring/lifecycle.py as functions on values.

    Lifecycles are objects that the manager's dictionary and the actions of `observe` share, so a state
    keeps them in an arena: `objs` holds every lifecycle ever created, `dict` the ones stored, in
    insertion order.  An action names an arena position, the operations that take an intent id go through
    the dictionary.  `log` is a history variable that no operation reads. */
module LifecycleSpec {
  import opened Strings

  datatype Status = Active | Degraded | Replanning | Satisfied | Failed

  datatype Binding = Binding(supi: string, appId: string, flowId: string)

  datatype Alert = Alert(alertId: string, supi: string, appId: string, flowId: string)

  datatype Life = Life(id: string, bindings: seq<Binding>, status: Status, fromMonitor: bool)

  datatype Table = Table(objs: seq<Life>, dict: seq<nat>)

  type Store = t: Table | forall i | 0 <= i < |t.dict| :: t.dict[i] < |t.objs| witness Table([], [])

  datatype Event = Observed(active: set<Binding>) | Began(binding: Binding)

  datatype State = State(store: Store, replanned: set<Binding>, log: seq<Event>)

  /** What one orchestrator call for a user request came back with. */
  datatype ControlResult = ControlResult(sessionId: string, completed: bool, flows: seq<Binding>)

  /** An action scheduled by `observe`: a lifecycle object, and the alert to replan for. */
  datatype Action = Action(obj: nat, alert: Alert)

  const Init := State(Table([], []), {}, [])

  function AlertBinding(a: Alert): Binding {
    Binding(a.supi, a.appId, a.flowId)
  }

  function BindingsOf(alerts: seq<Alert>): set<Binding> {
    set a | a in alerts :: AlertBinding(a)
  }

  function MonitorId(b: Binding): string {
    "monitor:" + b.supi + ":" + b.appId + ":" + b.flowId
  }

  /** Dictionary position of the key `id` among the first `n`, or `n` when it is absent. */
  function PositionIn(st: Store, id: string, n: nat): (k: nat)
    requires n <= |st.dict|
    ensures k <= n
  {
    if n == 0 then 0
    else
      var k := PositionIn(st, id, n - 1);
      if k < n - 1 || st.objs[st.dict[n - 1]].id == id then k else n
  }

  function Position(st: Store, id: string): nat {
    PositionIn(st, id, |st.dict|)
  }

  /** `dict[life.id] = life` for a new object: overwrite in place, or append under a new key. */
  function Put(st: Store, life: Life): Store {
    var k, obj := Position(st, life.id), |st.objs|;
    Table(st.objs + [life], if k < |st.dict| then st.dict[k := obj] else st.dict + [obj])
  }

  /** The newest of the first `n` stored lifecycles that owns `b`, or -1. */
  function OwnerIn(st: Store, b: Binding, n: nat): (obj: int)
    requires n <= |st.dict|
    ensures -1 <= obj < |st.objs|
  {
    if n == 0 then -1
    else if b in st.objs[st.dict[n - 1]].bindings then st.dict[n - 1]
    else OwnerIn(st, b, n - 1)
  }

  function Owner(st: Store, b: Binding): (obj: int)
    ensures -1 <= obj < |st.objs|
  {
    OwnerIn(st, b, |st.dict|)
  }

  function RecordInitial(s: State, r: ControlResult): State {
    var life := Life(r.sessionId,
                     if r.completed then r.flows else [],
                     if r.completed then Active else Failed,
                     false);
    s.(store := Put(s.store, life))
  }

  /** A lifecycle whose bindings no longer alert is satisfied. */
  function SettleLife(life: Life, active: set<Binding>, skip: set<string>): Life {
    if life.id !in skip && life.status in {Active, Degraded}
       && !(exists b | b in life.bindings :: b in active)
    then life.(status := Satisfied)
    else life
  }

  function Settle(st: Store, active: set<Binding>, skip: set<string>): Store {
    Table(seq(|st.objs|, i requires 0 <= i < |st.objs| =>
                if i in st.dict then SettleLife(st.objs[i], active, skip) else st.objs[i]),
          st.dict)
  }

  function SkippedBindings(st: Store, skip: set<string>): set<Binding> {
    set k, b | k in st.dict && st.objs[k].id in skip && b in st.objs[k].bindings :: b
  }

  function SetStatus(st: Store, obj: nat, status: Status): Store
    requires obj < |st.objs|
  {
    st.(objs := st.objs[obj := st.objs[obj].(status := status)])
  }

  datatype Scan = Scan(store: Store, scheduled: set<Binding>, actions: seq<Action>)

  /** One pass of the alert loop of `observe`. */
  function ScanAlert(scan: Scan, a: Alert, replanned: set<Binding>, skipped: set<Binding>): Scan {
    var b, st := AlertBinding(a), scan.store;
    if b in skipped then scan
    else
      var k := Owner(st, b);
      if k >= 0 && st.objs[k].status.Failed? then scan
      else
        var st' := if k < 0 then Put(st, Life(MonitorId(b), [b], Degraded, true))
                   else SetStatus(st, k, Degraded);
        var target: nat := if k < 0 then |st.objs| else k;
        if b in replanned || b in scan.scheduled then scan.(store := st')
        else Scan(st', scan.scheduled + {b}, scan.actions + [Action(target, a)])
  }

  function ScanAlerts(scan: Scan, alerts: seq<Alert>, replanned: set<Binding>, skipped: set<Binding>): Scan {
    if alerts == [] then scan
    else
      var n := |alerts| - 1;
      ScanAlert(ScanAlerts(scan, alerts[..n], replanned, skipped), alerts[n], replanned, skipped)
  }

  function ObserveScan(s: State, alerts: seq<Alert>, skip: set<string>): Scan {
    var active := BindingsOf(alerts);
    ScanAlerts(Scan(Settle(s.store, active, skip), {}, []), alerts,
               s.replanned * active, SkippedBindings(s.store, skip))
  }

  function Observe(s: State, alerts: seq<Alert>, skip: set<string>): State {
    State(ObserveScan(s, alerts, skip).store,
          s.replanned * BindingsOf(alerts),
          s.log + [Observed(BindingsOf(alerts))])
  }

  function Actions(s: State, alerts: seq<Alert>, skip: set<string>): seq<Action> {
    ObserveScan(s, alerts, skip).actions
  }

  predicate Has(st: Store, id: string) {
    Position(st, id) < |st.dict|
  }

  function BeginReplan(s: State, id: string, a: Alert): State
    requires Has(s.store, id)
  {
    State(SetStatus(s.store, s.store.dict[Position(s.store, id)], Replanning),
          s.replanned + {AlertBinding(a)},
          s.log + [Began(AlertBinding(a))])
  }

  function FinishReplan(s: State, id: string, completed: bool): State
    requires Has(s.store, id)
  {
    s.(store := SetStatus(s.store, s.store.dict[Position(s.store, id)], if completed then Active else Failed))
  }

  // ---- What the definitions promise ----

  /** No key was ever overwritten: the dictionary holds the whole arena, in order, under distinct ids. */
  ghost predicate Intact(st: Store) {
    && |st.dict| == |st.objs|
    && (forall i | 0 <= i < |st.dict| :: st.dict[i] == i)
    && (forall i, j | 0 <= i < j < |st.objs| :: st.objs[i].id != st.objs[j].id)
  }

  /** `after` holds every lifecycle of `before`, at the same position, under the same id and with the
      same bindings, and every lifecycle that had failed still has. */
  ghost predicate Extends(before: Store, after: Store) {
    && |before.objs| <= |after.objs|
    && forall k | 0 <= k < |before.objs| ::
         && after.objs[k].id == before.objs[k].id
         && after.objs[k].bindings == before.objs[k].bindings
         && after.objs[k].fromMonitor == before.objs[k].fromMonitor
         && (before.objs[k].status.Failed? ==> after.objs[k].status.Failed?)
  }

  /** The two fields in front of the last separator of a monitor id hold no separator. */
  ghost predicate Joinable(b: Binding) {
    ':' !in b.supi && ':' !in b.appId
  }

  ghost predicate IsMonitorId(id: string) {
    "monitor:" <= id
  }

  ghost predicate WellFormedLife(life: Life) {
    if life.fromMonitor then
      |life.bindings| == 1 && life.id == MonitorId(life.bindings[0]) && Joinable(life.bindings[0])
    else
      !IsMonitorId(life.id)
  }

  ghost predicate WellFormed(st: Store) {
    Intact(st) && forall k | 0 <= k < |st.objs| :: WellFormedLife(st.objs[k])
  }

  /** Monitor ids separate bindings, provided the first two fields hold no colon. */
  lemma MonitorIdInjective(b: Binding, c: Binding)
    requires Joinable(b) && Joinable(c) && MonitorId(b) == MonitorId(c)
    ensures b == c
  {
    var p := "monitor:";
    var bs := b.supi + ":" + (b.appId + ":" + b.flowId);
    var cs := c.supi + ":" + (c.appId + ":" + c.flowId);
    assert MonitorId(b) == p + bs && MonitorId(c) == p + cs;
    assert bs == MonitorId(b)[|p|..] && cs == MonitorId(c)[|p|..];
    SplitAt(':', b.supi, b.appId + ":" + b.flowId, c.supi, c.appId + ":" + c.flowId);
    SplitAt(':', b.appId, b.flowId, c.appId, c.flowId);
  }

  /** Without that proviso the join is ambiguous: two bindings, one id. */
  lemma MonitorIdAmbiguous()
    ensures exists b, c :: b != c && MonitorId(b) == MonitorId(c)
  {
    var b, c := Binding("x", "y:z", "w"), Binding("x:y", "z", "w");
    assert b.supi != c.supi;
    assert MonitorId(b) == MonitorId(c);
  }

  /** No field of the binding holds a colon. */
  predicate ColonFree(b: Binding) {
    ':' !in b.supi && ':' !in b.appId && ':' !in b.flowId
  }

  /** What follows the prefix of a monitor id. */
  function Joined(b: Binding): string {
    b.supi + ":" + b.appId + ":" + b.flowId
  }

  lemma IdTail(b: Binding)
    ensures MonitorId(b) == "monitor:" + Joined(b) && MonitorId(b)[|"monitor:"|..] == Joined(b)
    ensures |Joined(b)| == |b.supi| + |b.appId| + |b.flowId| + 2
    ensures Joined(b)[|b.supi|] == ':' && Joined(b)[|b.supi| + 1 + |b.appId|] == ':'
  {
    assert MonitorId(b) == "monitor:" + Joined(b);
  }

  lemma JoinedAt(b: Binding, i: nat)
    requires i < |Joined(b)|
    ensures var m, n := |b.supi|, |b.appId|;
            Joined(b)[i] == if i < m then b.supi[i]
                            else if i == m || i == m + 1 + n then ':'
                            else if i < m + 1 + n then b.appId[i - m - 1]
                            else b.flowId[i - m - n - 2]
  {
  }

  /** The join of a colon-free binding holds two colons. */
  lemma TwoColons(b: Binding, i: nat)
    requires ColonFree(b) && i < |Joined(b)| && Joined(b)[i] == ':'
    ensures i == |b.supi| || i == |b.supi| + 1 + |b.appId|
  {
    JoinedAt(b, i);
  }

  lemma ColonFreeDetermined(b: Binding, c: Binding)
    requires ColonFree(b) && MonitorId(b) == MonitorId(c)
    ensures b == c
  {
    IdTail(b);
    IdTail(c);
    TwoColons(b, |c.supi|);
    TwoColons(b, |c.supi| + 1 + |c.appId|);
    var s, m, n := Joined(b), |b.supi|, |b.appId|;
    assert b.supi == s[..m] && b.appId == s[m + 1..m + 1 + n] && b.flowId == s[m + n + 2..];
    assert c.supi == s[..m] && c.appId == s[m + 1..m + 1 + n] && c.flowId == s[m + n + 2..];
  }

  lemma SplitAtColon(s: string) returns (front: string, back: string)
    requires ':' in s
    ensures s == front + ":" + back
  {
    var i :| 0 <= i < |s| && s[i] == ':';
    front, back := s[..i], s[i + 1..];
  }

  /** A binding with a colon in some field shares its id with another one. */
  lemma ColonAmbiguous(b: Binding) returns (c: Binding)
    requires !ColonFree(b)
    ensures c != b && MonitorId(c) == MonitorId(b)
  {
    if ':' in b.flowId {
      var x, y := SplitAtColon(b.flowId);
      c := Binding(b.supi + ":" + b.appId, x, y);
      assert |c.supi| > |b.supi|;
      assert Joined(c) == Joined(b);
    } else if ':' in b.appId {
      var x, y := SplitAtColon(b.appId);
      c := Binding(b.supi + ":" + x, y, b.flowId);
      assert |c.supi| > |b.supi|;
      assert Joined(c) == Joined(b);
    } else {
      var x, y := SplitAtColon(b.supi);
      c := Binding(x, y, b.appId + ":" + b.flowId);
      assert |c.supi| < |b.supi|;
      assert Joined(c) == Joined(b);
    }
    IdTail(b);
    IdTail(c);
  }

  /** The id of a binding is its own exactly when none of its fields holds a colon. */
  lemma MonitorIdExactly(b: Binding)
    ensures (forall c :: MonitorId(c) == MonitorId(b) ==> c == b) <==> ColonFree(b)
  {
    if ColonFree(b) {
      forall c | MonitorId(c) == MonitorId(b)
        ensures c == b
      {
        ColonFreeDetermined(b, c);
      }
    } else {
      var c := ColonAmbiguous(b);
    }
  }

  lemma {:induction false} PositionIsFirst(st: Store, id: string, n: nat)
    requires n <= |st.dict|
    ensures var k := PositionIn(st, id, n);
            && (k < n ==> st.objs[st.dict[k]].id == id)
            && forall j | 0 <= j < k :: st.objs[st.dict[j]].id != id
  {
    if n != 0 {
      PositionIsFirst(st, id, n - 1);
    }
  }

  /** In an intact store the owner of `b` is the last lifecycle that holds it. */
  lemma {:induction false} OwnerLast(st: Store, b: Binding, n: nat)
    requires Intact(st) && n <= |st.dict|
    ensures var k := OwnerIn(st, b, n);
            && k < n
            && (k >= 0 ==> b in st.objs[k].bindings)
            && forall j | k < j < n :: b !in st.objs[j].bindings
  {
    if n != 0 {
      OwnerLast(st, b, n - 1);
    }
  }

  lemma OwnerUnique(st: Store, b: Binding, k: int)
    requires Intact(st)
    requires -1 <= k < |st.objs|
    requires k >= 0 ==> b in st.objs[k].bindings
    requires forall j | k < j < |st.objs| :: b !in st.objs[j].bindings
    ensures Owner(st, b) == k
  {
    OwnerLast(st, b, |st.dict|);
  }

  /** An alert whose binding nobody owns finds its monitor id unused. */
  lemma MonitorIdFresh(st: Store, b: Binding)
    requires WellFormed(st) && Joinable(b) && Owner(st, b) < 0
    ensures Position(st, MonitorId(b)) == |st.objs|
  {
    assert IsMonitorId(MonitorId(b));
    OwnerLast(st, b, |st.dict|);
    PositionIsFirst(st, MonitorId(b), |st.dict|);
    forall k | 0 <= k < |st.objs|
      ensures st.objs[k].id != MonitorId(b)
    {
      if st.objs[k].fromMonitor && st.objs[k].id == MonitorId(b) {
        MonitorIdInjective(b, st.objs[k].bindings[0]);
      }
    }
  }

  lemma AppendKeeps(st: Store, b: Binding)
    requires WellFormed(st) && Joinable(b) && Owner(st, b) < 0
    ensures var created := Life(MonitorId(b), [b], Degraded, true);
            && Put(st, created) == Table(st.objs + [created], st.dict + [|st.objs|])
            && WellFormed(Put(st, created)) && Extends(st, Put(st, created))
  {
    MonitorIdFresh(st, b);
    PositionIsFirst(st, MonitorId(b), |st.dict|);
    forall j | 0 <= j < |st.objs|
      ensures st.objs[j].id != MonitorId(b)
    {
      assert st.dict[j] == j;
    }
  }

  lemma SetStatusKeeps(st: Store, k: nat, status: Status)
    requires k < |st.objs| && WellFormed(st)
    ensures WellFormed(SetStatus(st, k, status))
    ensures !st.objs[k].status.Failed? ==> Extends(st, SetStatus(st, k, status))
  {
    var after := SetStatus(st, k, status);
    assert forall i | 0 <= i < |st.objs| :: after.objs[i].id == st.objs[i].id;
  }

  lemma ScanAlertKeeps(scan: Scan, a: Alert, replanned: set<Binding>, skipped: set<Binding>)
    requires WellFormed(scan.store) && Joinable(AlertBinding(a))
    ensures var out := ScanAlert(scan, a, replanned, skipped);
            WellFormed(out.store) && Extends(scan.store, out.store)
  {
    var b := AlertBinding(a);
    var k := Owner(scan.store, b);
    if b in skipped {
    } else if k < 0 {
      AppendKeeps(scan.store, b);
    } else {
      SetStatusKeeps(scan.store, k, Degraded);
    }
  }

  // ---- The alert loop of `observe` ----

  /** The newest owner of `b` exists and shows the alert: it is degraded, or has failed for good. */
  ghost predicate Flagged(st: Store, b: Binding) {
    var k := Owner(st, b);
    k >= 0 && st.objs[k].status in {Degraded, Failed}
  }

  ghost predicate OwnerFailed(st: Store, b: Binding) {
    var k := Owner(st, b);
    k >= 0 && st.objs[k].status.Failed?
  }

  function ActionBindings(actions: seq<Action>): set<Binding> {
    set act | act in actions :: AlertBinding(act.alert)
  }

  ghost predicate DistinctBindings(actions: seq<Action>) {
    forall i, j | 0 <= i < j < |actions| :: AlertBinding(actions[i].alert) != AlertBinding(actions[j].alert)
  }

  ghost predicate ActionOk(st: Store, act: Action) {
    && act.obj < |st.objs|
    && Owner(st, AlertBinding(act.alert)) == act.obj
  }

  /** The bindings that an observation of `alerts` has to schedule. */
  ghost function Wanted(st: Store, alerts: seq<Alert>, replanned: set<Binding>, skipped: set<Binding>)
    : set<Binding>
  {
    set b | b in BindingsOf(alerts) && b !in skipped && b !in replanned && !OwnerFailed(st, b)
  }

  ghost predicate ScanInv(start: Store, scan: Scan, done: seq<Alert>,
                          replanned: set<Binding>, skipped: set<Binding>) {
    && WellFormed(scan.store)
    && Extends(start, scan.store)
    && DistinctBindings(scan.actions)
    && (forall i | 0 <= i < |scan.actions| :: ActionOk(scan.store, scan.actions[i]))
    && ActionBindings(scan.actions) == scan.scheduled == Wanted(scan.store, done, replanned, skipped)
    && (forall b | b in BindingsOf(done) && b !in skipped :: Flagged(scan.store, b))
  }

  lemma OwnerStep(scan: Scan, a: Alert, replanned: set<Binding>, skipped: set<Binding>, c: Binding)
    requires WellFormed(scan.store) && Joinable(AlertBinding(a))
    ensures var out := ScanAlert(scan, a, replanned, skipped);
            && (Owner(scan.store, c) >= 0 ==> Owner(out.store, c) == Owner(scan.store, c))
            && (Flagged(scan.store, c) ==> Flagged(out.store, c))
            && (OwnerFailed(out.store, c) <==> OwnerFailed(scan.store, c))
            && (c == AlertBinding(a) && c !in skipped ==> Flagged(out.store, c))
  {
    var out := ScanAlert(scan, a, replanned, skipped);
    var b, j := AlertBinding(a), Owner(scan.store, c);
    ScanAlertKeeps(scan, a, replanned, skipped);
    OwnerLast(scan.store, c, |scan.store.dict|);
    OwnerLast(scan.store, b, |scan.store.dict|);
    if b !in skipped && Owner(scan.store, b) < 0 {
      AppendKeeps(scan.store, b);
      OwnerUnique(out.store, c, if c == b then |scan.store.objs| else j);
    } else {
      OwnerUnique(out.store, c, j);
    }
  }

  lemma WantedStep(scan: Scan, done: seq<Alert>, a: Alert, replanned: set<Binding>, skipped: set<Binding>)
    requires WellFormed(scan.store) && Joinable(AlertBinding(a))
    requires scan.scheduled == Wanted(scan.store, done, replanned, skipped)
    ensures var out := ScanAlert(scan, a, replanned, skipped);
            out.scheduled == Wanted(out.store, done + [a], replanned, skipped)
  {
    var out, b := ScanAlert(scan, a, replanned, skipped), AlertBinding(a);
    assert BindingsOf(done + [a]) == BindingsOf(done) + {b};
    forall c
      ensures OwnerFailed(out.store, c) <==> OwnerFailed(scan.store, c)
    {
      OwnerStep(scan, a, replanned, skipped, c);
    }
  }

  lemma ActionsStep(scan: Scan, a: Alert, replanned: set<Binding>, skipped: set<Binding>)
    requires WellFormed(scan.store) && Joinable(AlertBinding(a))
    requires DistinctBindings(scan.actions) && ActionBindings(scan.actions) == scan.scheduled
    requires forall i | 0 <= i < |scan.actions| :: ActionOk(scan.store, scan.actions[i])
    ensures var out := ScanAlert(scan, a, replanned, skipped);
            && DistinctBindings(out.actions) && ActionBindings(out.actions) == out.scheduled
            && forall i | 0 <= i < |out.actions| :: ActionOk(out.store, out.actions[i])
  {
    var out, b := ScanAlert(scan, a, replanned, skipped), AlertBinding(a);
    ScanAlertKeeps(scan, a, replanned, skipped);
    forall i | 0 <= i < |scan.actions|
      ensures AlertBinding(scan.actions[i].alert) in scan.scheduled
      ensures ActionOk(out.store, scan.actions[i])
    {
      assert scan.actions[i] in scan.actions;
      OwnerStep(scan, a, replanned, skipped, AlertBinding(scan.actions[i].alert));
    }
    if out.actions != scan.actions {
      var act := out.actions[|scan.actions|];
      assert ActionBindings(out.actions) == ActionBindings(scan.actions) + {b};
      NewActionOk(scan, a, replanned, skipped);
      assert ActionOk(out.store, act);
    }
  }

  lemma NewActionOk(scan: Scan, a: Alert, replanned: set<Binding>, skipped: set<Binding>)
    requires WellFormed(scan.store) && Joinable(AlertBinding(a))
    requires ScanAlert(scan, a, replanned, skipped).actions != scan.actions
    ensures var out := ScanAlert(scan, a, replanned, skipped);
            && |out.actions| == |scan.actions| + 1
            && out.actions[..|scan.actions|] == scan.actions
            && out.actions[|scan.actions|].alert == a
            && ActionOk(out.store, out.actions[|scan.actions|])
  {
    var out, b := ScanAlert(scan, a, replanned, skipped), AlertBinding(a);
    var k := Owner(scan.store, b);
    OwnerLast(scan.store, b, |scan.store.dict|);
    ScanAlertKeeps(scan, a, replanned, skipped);
    if k < 0 {
      AppendKeeps(scan.store, b);
      OwnerUnique(out.store, b, |scan.store.objs|);
    } else {
      OwnerUnique(out.store, b, k);
    }
  }

  lemma ScanAlertInv(start: Store, scan: Scan, done: seq<Alert>, a: Alert,
                     replanned: set<Binding>, skipped: set<Binding>)
    requires ScanInv(start, scan, done, replanned, skipped) && Joinable(AlertBinding(a))
    ensures ScanInv(start, ScanAlert(scan, a, replanned, skipped), done + [a], replanned, skipped)
  {
    ScanAlertKeeps(scan, a, replanned, skipped);
    WantedStep(scan, done, a, replanned, skipped);
    ActionsStep(scan, a, replanned, skipped);
    var out := ScanAlert(scan, a, replanned, skipped);
    forall b | b in BindingsOf(done + [a]) && b !in skipped
      ensures Flagged(out.store, b)
    {
      assert b in BindingsOf(done) || b == AlertBinding(a);
      OwnerStep(scan, a, replanned, skipped, b);
    }
    ExtendsTransitive(start, scan.store, out.store);
  }

  lemma ExtendsTransitive(a: Store, b: Store, c: Store)
    requires Extends(a, b) && Extends(b, c)
    ensures Extends(a, c)
  {
  }

  ghost predicate AllJoinable(alerts: seq<Alert>) {
    forall i | 0 <= i < |alerts| :: Joinable(AlertBinding(alerts[i]))
  }

  lemma {:induction false} ScanAlertsInv(start: Store, alerts: seq<Alert>,
                                         replanned: set<Binding>, skipped: set<Binding>)
    requires WellFormed(start) && AllJoinable(alerts)
    ensures ScanInv(start, ScanAlerts(Scan(start, {}, []), alerts, replanned, skipped), alerts, replanned, skipped)
  {
    if alerts != [] {
      var n := |alerts| - 1;
      ScanAlertsInv(start, alerts[..n], replanned, skipped);
      assert alerts[..n] + [alerts[n]] == alerts;
      ScanAlertInv(start, ScanAlerts(Scan(start, {}, []), alerts[..n], replanned, skipped),
                   alerts[..n], alerts[n], replanned, skipped);
    }
  }

  lemma SettleKeeps(st: Store, active: set<Binding>, skip: set<string>)
    requires WellFormed(st)
    ensures WellFormed(Settle(st, active, skip)) && Extends(st, Settle(st, active, skip))
    ensures |Settle(st, active, skip).objs| == |st.objs|
    ensures forall k | 0 <= k < |st.objs| :: Settle(st, active, skip).objs[k].status.Failed? ==> st.objs[k].status.Failed?
  {
  }

  /** What one call of `observe` guarantees. */
  lemma ObserveSound(s: State, alerts: seq<Alert>, skip: set<string>)
    requires WellFormed(s.store) && AllJoinable(alerts)
    ensures var after, actions := Observe(s, alerts, skip), Actions(s, alerts, skip);
            && WellFormed(after.store) && Extends(s.store, after.store)
            && DistinctBindings(actions)
            && (forall i | 0 <= i < |actions| :: ActionOk(after.store, actions[i]))
            && ActionBindings(actions)
               == Wanted(after.store, alerts, after.replanned, SkippedBindings(s.store, skip))
            && (forall b | b in BindingsOf(alerts) && b !in SkippedBindings(s.store, skip) :: Flagged(after.store, b))
  {
    var active := BindingsOf(alerts);
    var start := Settle(s.store, active, skip);
    SettleKeeps(s.store, active, skip);
    ScanAlertsInv(start, alerts, s.replanned * active, SkippedBindings(s.store, skip));
    ExtendsTransitive(s.store, start, Observe(s, alerts, skip).store);
  }

  /** Observing changes neither the owner of an owned binding nor whether the owner of any binding failed. */
  lemma ObserveOwners(s: State, alerts: seq<Alert>, skip: set<string>, c: Binding)
    requires WellFormed(s.store) && AllJoinable(alerts)
    ensures OwnerFailed(Observe(s, alerts, skip).store, c) <==> OwnerFailed(s.store, c)
  {
    var active := BindingsOf(alerts);
    var start := Settle(s.store, active, skip);
    SettleKeeps(s.store, active, skip);
    OwnerLast(s.store, c, |s.store.dict|);
    OwnerUnique(start, c, Owner(s.store, c));
    ScanOwners(start, alerts, s.replanned * active, SkippedBindings(s.store, skip), c);
  }

  lemma {:induction false} ScanOwners(start: Store, alerts: seq<Alert>, replanned: set<Binding>,
                                      skipped: set<Binding>, c: Binding)
    requires WellFormed(start) && AllJoinable(alerts)
    ensures OwnerFailed(ScanAlerts(Scan(start, {}, []), alerts, replanned, skipped).store, c)
            <==> OwnerFailed(start, c)
  {
    if alerts != [] {
      var n := |alerts| - 1;
      ScanOwners(start, alerts[..n], replanned, skipped, c);
      ScanAlertsInv(start, alerts[..n], replanned, skipped);
      OwnerStep(ScanAlerts(Scan(start, {}, []), alerts[..n], replanned, skipped), alerts[n], replanned, skipped, c);
    }
  }

  // ---- Facts that hold of every state, also when a key is overwritten ----

  /** Every lifecycle ever created still has its key in the dictionary. */
  ghost predicate KeysKept(st: Store) {
    forall k | 0 <= k < |st.objs| :: Has(st, st.objs[k].id)
  }

  lemma HasAt(st: Store, i: nat)
    requires i < |st.dict|
    ensures Has(st, st.objs[st.dict[i]].id)
  {
    PositionIsFirst(st, st.objs[st.dict[i]].id, |st.dict|);
  }

  lemma PutKeepsKeys(st: Store, life: Life)
    requires KeysKept(st)
    ensures KeysKept(Put(st, life))
  {
    var out, p := Put(st, life), Position(st, life.id);
    PositionIsFirst(st, life.id, |st.dict|);
    HasAt(out, p);
    forall k | 0 <= k < |st.objs|
      ensures Has(out, st.objs[k].id)
    {
      var i := Position(st, st.objs[k].id);
      PositionIsFirst(st, st.objs[k].id, |st.dict|);
      HasAt(out, i);
    }
  }

  lemma SameIdsKeepKeys(st: Store, out: Store)
    requires KeysKept(st) && out.dict == st.dict && |out.objs| == |st.objs|
    requires forall k | 0 <= k < |st.objs| :: out.objs[k].id == st.objs[k].id
    ensures KeysKept(out)
  {
    forall k | 0 <= k < |st.objs|
      ensures Has(out, out.objs[k].id)
    {
      PositionIsFirst(st, st.objs[k].id, |st.dict|);
      HasAt(out, Position(st, st.objs[k].id));
    }
  }

  ghost predicate ScanBasics(scan: Scan, replanned: set<Binding>) {
    && KeysKept(scan.store)
    && DistinctBindings(scan.actions)
    && ActionBindings(scan.actions) == scan.scheduled
    && scan.scheduled !! replanned
    && forall i | 0 <= i < |scan.actions| :: scan.actions[i].obj < |scan.store.objs|
  }

  lemma ScanAlertBasics(scan: Scan, a: Alert, replanned: set<Binding>, skipped: set<Binding>)
    requires ScanBasics(scan, replanned)
    ensures ScanBasics(ScanAlert(scan, a, replanned, skipped), replanned)
  {
    var out, b := ScanAlert(scan, a, replanned, skipped), AlertBinding(a);
    var k := Owner(scan.store, b);
    if b in skipped {
    } else if k < 0 {
      PutKeepsKeys(scan.store, Life(MonitorId(b), [b], Degraded, true));
    } else {
      SameIdsKeepKeys(scan.store, SetStatus(scan.store, k, Degraded));
    }
    assert forall i | 0 <= i < |scan.actions| :: scan.actions[i] in scan.actions;
    if out.actions != scan.actions {
      assert ActionBindings(out.actions) == ActionBindings(scan.actions) + {b};
    }
  }

  lemma {:induction false} ScanAlertsBasics(start: Store, alerts: seq<Alert>,
                                            replanned: set<Binding>, skipped: set<Binding>)
    requires KeysKept(start)
    ensures ScanBasics(ScanAlerts(Scan(start, {}, []), alerts, replanned, skipped), replanned)
  {
    if alerts != [] {
      var n := |alerts| - 1;
      ScanAlertsBasics(start, alerts[..n], replanned, skipped);
      ScanAlertBasics(ScanAlerts(Scan(start, {}, []), alerts[..n], replanned, skipped), alerts[n], replanned, skipped);
    }
  }

  lemma ObserveBasics(s: State, alerts: seq<Alert>, skip: set<string>)
    requires KeysKept(s.store)
    ensures ScanBasics(ObserveScan(s, alerts, skip), Observe(s, alerts, skip).replanned)
  {
    var active := BindingsOf(alerts);
    SameIdsKeepKeys(s.store, Settle(s.store, active, skip));
    ScanAlertsBasics(Settle(s.store, active, skip), alerts, s.replanned * active, SkippedBindings(s.store, skip));
  }
}
