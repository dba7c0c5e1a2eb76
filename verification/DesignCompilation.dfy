/** `EnvironmentDesignCompiler.compile` as it runs: the checks that collect errors, and the loops that
    group flows into sessions. */
module DesignCompilation {
  import opened Strings
  import opened Documents
  import opened Hiding
  import opened Validator
  import opened Design
  import opened DesignCompiler

  datatype Outcome = Compiled(candidate: Candidate, identifiers: Identifiers) | Refused(errors: seq<string>)

  method ValidateCatalog(c: Catalog) returns (errors: seq<string>)
    ensures errors == [] <==> CatalogOk(c)
  {
    errors := [];
    for i := 0 to 6
      invariant errors == [] <==> forall k | 0 <= k < i :: CatalogSectionOk(c.Sections()[k], c.Expected()[k])
    {
      var keys := c.Sections()[i];
      if !DistinctKeys(keys) {
        errors := errors + ["catalog section contains duplicate keys"];
      }
      if |keys| != c.Expected()[i] {
        errors := errors + ["catalog section has an unexpected number of keys"];
      }
      if exists k | k in keys :: Strip(k) == "" {
        errors := errors + ["catalog section contains an empty semantic key"];
      }
    }
  }

  method CheckReferences(refs: seq<string>, available: seq<string>) returns (errors: seq<string>)
    ensures errors == [] <==> RefsIn(refs, available)
  {
    errors := if exists k | k in refs :: k !in available then ["references undeclared keys"] else [];
  }

  method CheckSections(c: Catalog, d: Design) returns (errors: seq<string>)
    ensures errors == [] <==> SectionsComplete(c, d)
  {
    errors := [];
    for i := 0 to 6
      invariant errors == [] <==> forall k | 0 <= k < i :: SectionComplete(c.Sections()[k], DesignSections(d)[k])
    {
      var expected, actual := c.Sections()[i], DesignSections(d)[i];
      if !DistinctKeys(actual) {
        errors := errors + ["design section contains duplicate keys"];
      }
      if exists k | k in expected :: k !in actual {
        errors := errors + ["design section is missing catalog keys"];
      }
      if exists k | k in actual :: k !in expected {
        errors := errors + ["design section contains undeclared keys"];
      }
    }
  }

  method CheckFlows(c: Catalog, d: Design) returns (errors: seq<string>)
    ensures errors == [] <==> FlowsDeclared(c, d)
  {
    var apps, ues, gnbs := KeyMap(d.apps, AppKey), KeyMap(d.ues, UeKey), KeyMap(d.gnbs, GnbKey);
    errors := [];
    for i := 0 to |d.flows|
      invariant errors == [] <==> forall k | 0 <= k < i :: FlowDeclared(c, d, d.flows[k])
    {
      var app := CheckReferences([d.flows[i].appKey], c.appKeys);
      var slice := CheckReferences([d.flows[i].sliceKey], c.sliceKeys);
      errors := errors + app + slice;
      if !FlowServed(d.flows[i], apps, ues, gnbs) {
        errors := errors + ["flow requests a slice its gNB does not serve"];
      }
    }
  }

  method CheckEntities(c: Catalog, d: Design) returns (errors: seq<string>)
    ensures errors == [] <==> EntitiesDeclared(c, d)
  {
    errors := [];
    for i := 0 to |d.gnbs|
      invariant errors == [] <==> forall k | 0 <= k < i :: GnbDeclared(c, d.gnbs[k])
    {
      var slices := CheckReferences(d.gnbs[i].served, c.sliceKeys);
      var upf := CheckReferences([d.gnbs[i].backhaul], c.upfKeys);
      errors := errors + slices + upf;
    }
    ghost var gnbErrors := errors;
    for i := 0 to |d.ues|
      invariant errors == [] <==> gnbErrors == [] && forall k | 0 <= k < i :: UeDeclared(c, d.ues[k])
    {
      var attached := CheckReferences([d.ues[i].attached], c.gnbKeys);
      var target := CheckReferences([d.ues[i].target], c.gnbKeys);
      var preferred := CheckReferences(d.ues[i].preferred, c.gnbKeys);
      errors := errors + attached + target + preferred;
    }
    ghost var ueErrors := errors;
    for i := 0 to |d.apps|
      invariant errors == [] <==> ueErrors == [] && forall k | 0 <= k < i :: d.apps[k].ueKey in c.ueKeys
    {
      var ue := CheckReferences([d.apps[i].ueKey], c.ueKeys);
      errors := errors + ue;
    }
  }

  method CheckIdle(d: Design) returns (errors: seq<string>)
    ensures errors == [] <==> AppsUsed(d) && UesUsed(d)
  {
    errors := [];
    for i := 0 to |d.apps|
      invariant errors == [] <==> forall k | 0 <= k < i :: AppUsed(d.flows, d.apps[k].key)
    {
      if !AppUsed(d.flows, d.apps[i].key) {
        errors := errors + ["app has no declared flows"];
      }
    }
    ghost var appErrors := errors;
    for i := 0 to |d.ues|
      invariant errors == [] <==> appErrors == [] && forall k | 0 <= k < i :: UeUsed(d.apps, d.ues[k].key)
    {
      if !UeUsed(d.apps, d.ues[i].key) {
        errors := errors + ["UE has no declared applications"];
      }
    }
  }

  /** `_validate_design_completeness` */
  method ValidateDesignCompleteness(c: Catalog, d: Design) returns (errors: seq<string>)
    ensures errors == [] <==> Complete(c, d)
  {
    var sections := CheckSections(c, d);
    var entities := CheckEntities(c, d);
    var flows := CheckFlows(c, d);
    var idle := CheckIdle(d);
    errors := sections + entities + flows + idle;
  }

  // ---- Sessions ----

  method GroupByApp(p: Design) returns (byApp: map<string, seq<Flow>>)
    ensures AppsGrouped(p, byApp)
  {
    byApp := map a | a in p.apps :: a.key := [];
    for i := 0 to |p.flows|
      invariant forall a | a in p.apps :: a.key in byApp
      invariant forall k | k in byApp :: byApp[k] == FlowsOfApp(p.flows[..i], k)
    {
      var f := p.flows[i];
      assert p.flows[..i + 1][..i] == p.flows[..i];
      if f.appKey in byApp {
        byApp := byApp[f.appKey := byApp[f.appKey] + [f]];
      }
    }
    assert p.flows[..|p.flows|] == p.flows;
  }

  /** `grouped`, with the insertion order of its keys. */
  method GroupBySlice(own: seq<Flow>) returns (order: seq<string>, grouped: map<string, seq<Flow>>)
    ensures Grouping(order, grouped, own)
  {
    order, grouped := [], map[];
    NoGroups();
    for i := 0 to |own|
      invariant Grouping(order, grouped, own[..i])
    {
      assert own[..i + 1] == own[..i] + [own[i]];
      order, grouped := AddToGroup(order, grouped, own[..i], own[i]);
    }
    assert own[..|own|] == own;
  }

  /** `grouped` holds, under the keys of `order`, the flows of each slice. */
  function GroupOf(grouped: map<string, seq<Flow>>, k: string): seq<Flow> {
    if k in grouped then grouped[k] else []
  }

  ghost predicate Groups(order: seq<string>, grouped: map<string, seq<Flow>>, flows: seq<Flow>) {
    && (forall k :: k in order <==> k in grouped)
    && (forall k {:trigger GroupOf(grouped, k)} :: GroupOf(grouped, k) == OnSlice(flows, k))
  }

  lemma NoGroups()
    ensures Grouping([], map[], [])
  {
  }

  lemma GroupFound(order: seq<string>, grouped: map<string, seq<Flow>>, own: seq<Flow>, i: nat)
    requires Grouping(order, grouped, own) && i < |order|
    ensures order == SliceOrder(own) && order[i] in grouped && grouped[order[i]] == OnSlice(own, order[i]) != []
  {
    assert Asked(0);
    assert order[i] in order;
    assert GroupOf(grouped, order[i]) == OnSlice(own, order[i]);
  }

  lemma OnSliceStep(before: seq<Flow>, f: Flow, k: string)
    ensures OnSlice(before + [f], k) == OnSlice(before, k) + if f.sliceKey == k then [f] else []
  {
    assert (before + [f])[..|before|] == before;
  }

  lemma SliceOrderStep(before: seq<Flow>, f: Flow)
    ensures SliceOrder(before + [f]) == SliceOrder(before) + if f.sliceKey in SliceOrder(before) then [] else [f.sliceKey]
  {
    assert (before + [f])[..|before|] == before;
  }

  /** `grouped` is what grouping these flows gives, `order` the insertion order of its keys; kept dormant. */
  ghost predicate Grouping(order: seq<string>, grouped: map<string, seq<Flow>>, flows: seq<Flow>) {
    forall n: nat {:trigger Asked(n)} :: Asked(n) ==> order == SliceOrder(flows) && Groups(order, grouped, flows)
  }

  method AddToGroup(order: seq<string>, grouped: map<string, seq<Flow>>, ghost before: seq<Flow>, f: Flow)
    returns (moreOrder: seq<string>, moreGrouped: map<string, seq<Flow>>)
    requires Grouping(order, grouped, before)
    ensures Grouping(moreOrder, moreGrouped, before + [f])
  {
    if f.sliceKey in grouped {
      moreOrder, moreGrouped := order, grouped[f.sliceKey := grouped[f.sliceKey] + [f]];
    } else {
      moreOrder, moreGrouped := order + [f.sliceKey], grouped[f.sliceKey := [f]];
      assert [] + [f] == [f];
    }
    GroupsGrow(order, grouped, before, f);
  }

  lemma GroupsKnown(order: seq<string>, grouped: map<string, seq<Flow>>, flows: seq<Flow>)
    requires Grouping(order, grouped, flows)
    ensures order == SliceOrder(flows) && Groups(order, grouped, flows)
  {
    assert Asked(0);
  }

  lemma GroupsGrow(order: seq<string>, grouped: map<string, seq<Flow>>, before: seq<Flow>, f: Flow)
    requires Grouping(order, grouped, before)
    ensures Grouping(if f.sliceKey in grouped then order else order + [f.sliceKey],
                     grouped[f.sliceKey := GroupOf(grouped, f.sliceKey) + [f]], before + [f])
  {
    GroupsKnown(order, grouped, before);
    SliceOrderStep(before, f);
    var more := grouped[f.sliceKey := GroupOf(grouped, f.sliceKey) + [f]];
    forall k: string
      ensures GroupOf(more, k) == OnSlice(before + [f], k)
    {
      OnSliceStep(before, f, k);
      assert GroupOf(grouped, k) == OnSlice(before, k);
    }
  }

  method MinByPriority(flows: seq<Flow>) returns (best: Flow)
    requires flows != []
    ensures best == Best(flows)
  {
    best := flows[0];
    for i := 1 to |flows|
      invariant best == Best(flows[..i])
    {
      assert flows[..i + 1][..i] == flows[..i];
      if flows[i].sla.priority < best.sla.priority {
        best := flows[i];
      }
    }
    assert flows[..|flows|] == flows;
  }

  /** `all` are the sessions of the app; kept dormant. */
  ghost predicate IsSessions(p: Design, app: App, own: seq<Flow>, all: seq<Json>) {
    forall n: nat {:trigger Asked(n)} :: Asked(n) ==> all == AppSessions(p, app, own)
  }

  lemma SessionsOf(p: Design, app: App, own: seq<Flow>, order: seq<string>, grouped: map<string, seq<Flow>>) returns (all: seq<Json>)
    requires Grouping(order, grouped, own)
    ensures IsSessions(p, app, own, all) && |all| == |order|
  {
    GroupsKnown(order, grouped, own);
    all := AppSessions(p, app, own);
  }

  lemma SessionsAre(p: Design, app: App, own: seq<Flow>, all: seq<Json>)
    requires IsSessions(p, app, own, all)
    ensures all == AppSessions(p, app, own)
  {
    assert Asked(0);
  }

  method SessionOnSlice(p: Design, app: App, own: seq<Flow>, order: seq<string>, grouped: map<string, seq<Flow>>,
                        ghost all: seq<Json>, i: nat) returns (session: Json)
    requires IsSessions(p, app, own, all) && Grouping(order, grouped, own) && i < |order| == |all|
    ensures session == all[i]
  {
    GroupFound(order, grouped, own, i);
    SessionsAre(p, app, own, all);
    var best := MinByPriority(grouped[order[i]]);
    session := CompileSession(p, app, order[i], best);
  }

  method SessionsForApp(p: Design, app: App, own: seq<Flow>) returns (sessions: seq<Json>)
    ensures sessions == AppSessions(p, app, own)
  {
    var order, grouped := GroupBySlice(own);
    sessions := [];
    ghost var all := SessionsOf(p, app, own, order, grouped);
    for i := 0 to |order|
      invariant sessions == all[..i]
    {
      var session := SessionOnSlice(p, app, own, order, grouped, all, i);
      sessions := sessions + [session];
    }
    SessionsAre(p, app, own, all);
  }

  /** `sessions` holds, for each UE, the sessions of its apps among the first `n`; kept dormant. */
  ghost predicate SessionsSoFar(p: Design, sessions: map<string, seq<Json>>, n: nat)
    requires n <= |p.apps|
  {
    forall m: nat {:trigger Asked(m)} :: Asked(m) ==>
      && (forall i | 0 <= i < |p.ues| :: p.ues[i].key in sessions)
      && (forall k {:trigger sessions[k]} | k in sessions :: sessions[k] == UeSessions(p, k, n))
  }

  /** `byApp` holds the flows of every app; kept dormant. */
  ghost predicate AppsGrouped(p: Design, byApp: map<string, seq<Flow>>) {
    forall n: nat {:trigger Asked(n)} :: Asked(n) ==>
      forall a | a in p.apps :: a.key in byApp && byApp[a.key] == FlowsOfApp(p.flows, a.key)
  }

  method AddAppSessions(p: Design, byApp: map<string, seq<Flow>>, sessions: map<string, seq<Json>>, a: nat)
    returns (more: map<string, seq<Json>>)
    requires AppRefs(p) && AppsGrouped(p, byApp) && a < |p.apps| && SessionsSoFar(p, sessions, a)
    ensures SessionsSoFar(p, more, a + 1)
  {
    assert Asked(0);
    var app := p.apps[a];
    OwnerDeclared(p, app.ueKey);
    var own := SessionsForApp(p, app, byApp[app.key]);
    more := sessions[app.ueKey := sessions[app.ueKey] + own];
  }

  /** `_compile_sessions` */
  method CompileSessions(p: Design) returns (sessions: map<string, seq<Json>>)
    requires AppRefs(p)
    ensures forall i | 0 <= i < |p.ues| ::
              p.ues[i].key in sessions && sessions[p.ues[i].key] == UeSessions(p, p.ues[i].key, |p.apps|)
  {
    sessions := NoSessions(p);
    var byApp := GroupByApp(p);
    for a := 0 to |p.apps|
      invariant SessionsSoFar(p, sessions, a)
    {
      sessions := AddAppSessions(p, byApp, sessions, a);
    }
    SessionsKnown(p, sessions, |p.apps|);
  }

  method NoSessions(p: Design) returns (sessions: map<string, seq<Json>>)
    ensures SessionsSoFar(p, sessions, 0)
  {
    sessions := map u | u in p.ues :: u.key := [];
  }

  lemma SessionsKnown(p: Design, sessions: map<string, seq<Json>>, n: nat)
    requires n <= |p.apps| && SessionsSoFar(p, sessions, n)
    ensures forall i | 0 <= i < |p.ues| :: p.ues[i].key in sessions && sessions[p.ues[i].key] == UeSessions(p, p.ues[i].key, n)
  {
    assert Asked(0);
  }

  lemma OwnerDeclared(p: Design, k: string)
    requires HasUe(p, k)
    ensures UeAt(p, k) < |p.ues| && p.ues[UeAt(p, k)].key == k
  {
  }

  /** `_ordered_entities` */
  method OrderedEntities(c: Catalog, d: Design) returns (p: Design)
    requires Accepts(c, d)
    ensures p == PlanOf(c, d)
  {
    SectionsCovered(c, d);
    p := d.(slices := Ordered(c.sliceKeys, KeyMap(d.slices, SliceKey)),
            upfs := Ordered(c.upfKeys, KeyMap(d.upfs, UpfKey)),
            gnbs := Ordered(c.gnbKeys, KeyMap(d.gnbs, GnbKey)),
            ues := Ordered(c.ueKeys, KeyMap(d.ues, UeKey)),
            apps := Ordered(c.appKeys, KeyMap(d.apps, AppKey)),
            flows := Ordered(c.flowKeys, KeyMap(d.flows, FlowKey)));
  }

  method BuildCandidate(p: Design) returns (candidate: Candidate)
    requires AppRefs(p)
    ensures candidate == CandidateOf(p)
  {
    var sessions := CompileSessions(p);
    var ues := seq(|p.ues|, i requires 0 <= i < |p.ues| => UeEntry(p, i, sessions[p.ues[i].key]));
    assert ues == seq(|p.ues|, i requires 0 <= i < |p.ues| => CompileUe(p, i));
    candidate := Candidate(p.header.scenarioId, p.header.name, Assemble(p, ues), OverlayOf(p));
  }

  /** `compile`: it accepts exactly the complete designs, and derives one candidate from the plan. */
  method Compile(c: Catalog, d: Design) returns (outcome: Outcome)
    ensures outcome.Compiled? <==> Accepts(c, d)
    ensures outcome.Compiled? ==> outcome.candidate == CandidateOf(PlanOf(c, d)) && outcome.identifiers == IdentifiersOf(PlanOf(c, d))
  {
    var errors := ValidateCatalog(c);
    if d.header.scenarioId != c.scenarioId {
      errors := errors + ["design scenario_id does not match catalog"];
    }
    if d.header.objective != c.objective {
      errors := errors + ["design objective does not match the accepted catalog objective"];
    }
    var incomplete := ValidateDesignCompleteness(c, d);
    errors := errors + incomplete;
    if errors != [] {
      return Refused(errors);
    }
    var p := OrderedEntities(c, d);
    PlanAccepted(c, d);
    var candidate := BuildCandidate(p);
    return Compiled(candidate, IdentifiersOf(p));
  }

  // ---- The plan of an accepted design ----

  lemma PlanKeys<T>(keys: seq<string>, items: seq<T>, key: T -> string)
    requires forall k | k in keys :: k in KeyMap(items, key)
    ensures Keys(Ordered(keys, KeyMap(items, key)), key) == keys
    ensures forall x | x in Ordered(keys, KeyMap(items, key)) :: x in items
  {
    var xs := Ordered(keys, KeyMap(items, key));
    forall i | 0 <= i < |keys|
      ensures key(xs[i]) == keys[i] && xs[i] in items
    {
      assert keys[i] in keys;
    }
  }

  /** `xs` lists the entities of `items` under the declared keys, in their order. */
  ghost predicate Arranged<T>(keys: seq<string>, items: seq<T>, key: T -> string, xs: seq<T>) {
    && DistinctKeys(keys) && DistinctKeys(Keys(items, key)) && SameKeys(keys, Keys(items, key))
    && Keys(xs, key) == keys
    && (forall i | 0 <= i < |xs| :: xs[i] in items && key(xs[i]) in KeyMap(items, key) && xs[i] == KeyMap(items, key)[key(xs[i])])
  }

  ghost predicate IsPlan(c: Catalog, d: Design, p: Design) {
    && Arranged(c.sliceKeys, d.slices, SliceKey, p.slices) && Arranged(c.upfKeys, d.upfs, UpfKey, p.upfs)
    && Arranged(c.gnbKeys, d.gnbs, GnbKey, p.gnbs) && Arranged(c.ueKeys, d.ues, UeKey, p.ues)
    && Arranged(c.appKeys, d.apps, AppKey, p.apps) && Arranged(c.flowKeys, d.flows, FlowKey, p.flows)
  }

  lemma OrderedArranged<T>(keys: seq<string>, items: seq<T>, key: T -> string)
    requires DistinctKeys(keys) && SectionComplete(keys, Keys(items, key))
    requires forall k | k in keys :: k in KeyMap(items, key)
    ensures Arranged(keys, items, key, Ordered(keys, KeyMap(items, key)))
  {
    PlanKeys(keys, items, key);
    var xs := Ordered(keys, KeyMap(items, key));
    forall i | 0 <= i < |xs|
      ensures xs[i] in items && key(xs[i]) in KeyMap(items, key) && xs[i] == KeyMap(items, key)[key(xs[i])]
    {
      assert keys[i] in keys && xs[i] in xs;
    }
  }

  lemma CatalogDistinct(c: Catalog)
    requires CatalogOk(c)
    ensures DistinctKeys(c.sliceKeys) && DistinctKeys(c.upfKeys) && DistinctKeys(c.gnbKeys)
    ensures DistinctKeys(c.ueKeys) && DistinctKeys(c.appKeys) && DistinctKeys(c.flowKeys)
  {
    var s, e := c.Sections(), c.Expected();
    assert CatalogSectionOk(s[0], e[0]) && CatalogSectionOk(s[1], e[1]) && CatalogSectionOk(s[2], e[2]);
    assert CatalogSectionOk(s[3], e[3]) && CatalogSectionOk(s[4], e[4]) && CatalogSectionOk(s[5], e[5]);
  }

  lemma PlanArranged(c: Catalog, d: Design)
    requires Accepts(c, d)
    ensures IsPlan(c, d, PlanOf(c, d))
  {
    SectionsCovered(c, d);
    CatalogDistinct(c);
    var s, a := c.Sections(), DesignSections(d);
    assert SectionComplete(s[0], a[0]) && SectionComplete(s[1], a[1]) && SectionComplete(s[2], a[2]);
    assert SectionComplete(s[3], a[3]) && SectionComplete(s[4], a[4]) && SectionComplete(s[5], a[5]);
    OrderedArranged(c.sliceKeys, d.slices, SliceKey);
    OrderedArranged(c.upfKeys, d.upfs, UpfKey);
    OrderedArranged(c.gnbKeys, d.gnbs, GnbKey);
    OrderedArranged(c.ueKeys, d.ues, UeKey);
    OrderedArranged(c.appKeys, d.apps, AppKey);
    OrderedArranged(c.flowKeys, d.flows, FlowKey);
  }

  ghost predicate PlanKeyed(c: Catalog, p: Design) {
    && Keys(p.slices, SliceKey) == c.sliceKeys && Keys(p.upfs, UpfKey) == c.upfKeys && Keys(p.gnbs, GnbKey) == c.gnbKeys
    && Keys(p.ues, UeKey) == c.ueKeys && Keys(p.apps, AppKey) == c.appKeys && Keys(p.flows, FlowKey) == c.flowKeys
  }

  lemma PlanGnbs(c: Catalog, gnbs: seq<Gnb>, p: Design)
    requires PlanKeyed(c, p) && forall x | x in p.gnbs :: x in gnbs
    requires forall i | 0 <= i < |gnbs| :: GnbDeclared(c, gnbs[i])
    ensures GnbRefs(p)
  {
    forall i | 0 <= i < |p.gnbs|
      ensures GnbDeclared(c, p.gnbs[i])
    {
      assert p.gnbs[i] in p.gnbs;
      var j :| 0 <= j < |gnbs| && gnbs[j] == p.gnbs[i];
    }
  }

  lemma PlanUes(c: Catalog, ues: seq<Ue>, p: Design)
    requires PlanKeyed(c, p) && forall x | x in p.ues :: x in ues
    requires forall i | 0 <= i < |ues| :: UeDeclared(c, ues[i])
    ensures UeRefs(p)
  {
    forall i | 0 <= i < |p.ues|
      ensures UeDeclared(c, p.ues[i])
    {
      assert p.ues[i] in p.ues;
      var j :| 0 <= j < |ues| && ues[j] == p.ues[i];
    }
  }

  lemma PlanApps(c: Catalog, apps: seq<App>, p: Design)
    requires PlanKeyed(c, p) && forall x | x in p.apps :: x in apps
    requires forall i | 0 <= i < |apps| :: apps[i].ueKey in c.ueKeys
    ensures AppRefs(p)
  {
    forall i | 0 <= i < |p.apps|
      ensures p.apps[i].ueKey in c.ueKeys
    {
      assert p.apps[i] in p.apps;
      var j :| 0 <= j < |apps| && apps[j] == p.apps[i];
    }
  }

  lemma PlanEntities(c: Catalog, d: Design, p: Design)
    requires IsPlan(c, d, p) && EntitiesDeclared(c, d)
    ensures GnbRefs(p) && UeRefs(p) && AppRefs(p)
  {
    assert PlanKeyed(c, p);
    PlanGnbs(c, d.gnbs, p);
    PlanUes(c, d.ues, p);
    PlanApps(c, d.apps, p);
  }

  /** In the plan, looking up a key finds what the design's own dictionary holds for it. */
  lemma Lookup<T>(keys: seq<string>, items: seq<T>, key: T -> string, xs: seq<T>, k: string, default: T)
    requires Arranged(keys, items, key, xs) && k in keys
    ensures k in KeyMap(items, key) && Nth(xs, At(Keys(xs, key), k), default) == KeyMap(items, key)[k]
    ensures At(Keys(xs, key), k) < |xs|
  {
    var i := At(Keys(xs, key), k);
    assert Keys(xs, key)[i] == key(xs[i]) == k;
  }

  lemma FlowsKept(c: Catalog, d: Design, flows: seq<Flow>)
    requires (forall x | x in flows :: x in d.flows) && FlowsDeclared(c, d)
    ensures forall i | 0 <= i < |flows| :: FlowDeclared(c, d, flows[i])
  {
    forall i | 0 <= i < |flows|
      ensures FlowDeclared(c, d, flows[i])
    {
      assert flows[i] in flows;
      var j :| 0 <= j < |d.flows| && d.flows[j] == flows[i];
    }
  }

  lemma PlanServed(c: Catalog, d: Design, p: Design)
    requires IsPlan(c, d, p) && AppRefs(p) && UeRefs(p)
    requires forall i | 0 <= i < |p.flows| :: FlowDeclared(c, d, p.flows[i])
    ensures AllServed(p)
  {
    forall i | 0 <= i < |p.flows|
      ensures p.flows[i].sliceKey in GnbOf(p, UeOf(p, AppOf(p, p.flows[i].appKey).ueKey).attached).served
    {
      PlanFlow(c, d, p, p.flows[i]);
    }
  }

  lemma PlanFlows(c: Catalog, d: Design, p: Design)
    requires IsPlan(c, d, p) && AppRefs(p) && UeRefs(p) && FlowsDeclared(c, d)
    ensures FlowRefs(p) && AllServed(p)
  {
    assert PlanKeyed(c, p);
    FlowsKept(c, d, p.flows);
    FlowKeysKnown(c, d, p);
    PlanServed(c, d, p);
  }

  lemma FlowKeysKnown(c: Catalog, d: Design, p: Design)
    requires PlanKeyed(c, p) && forall i | 0 <= i < |p.flows| :: FlowDeclared(c, d, p.flows[i])
    ensures FlowRefs(p)
  {
  }

  lemma PlanFlow(c: Catalog, d: Design, p: Design, f: Flow)
    requires IsPlan(c, d, p) && AppRefs(p) && UeRefs(p) && FlowDeclared(c, d, f)
    ensures f.sliceKey in GnbOf(p, UeOf(p, AppOf(p, f.appKey).ueKey).attached).served
  {
    Lookup(c.appKeys, d.apps, AppKey, p.apps, f.appKey, NO_APP);
    var app := p.apps[AppAt(p, f.appKey)];
    Lookup(c.ueKeys, d.ues, UeKey, p.ues, app.ueKey, NO_UE);
    var ue := p.ues[UeAt(p, app.ueKey)];
    Lookup(c.gnbKeys, d.gnbs, GnbKey, p.gnbs, ue.attached, NO_GNB);
  }

  /** Every entity of the section appears in its arrangement. */
  lemma ArrangedHas<T>(keys: seq<string>, items: seq<T>, key: T -> string, xs: seq<T>, i: nat) returns (j: nat)
    requires Arranged(keys, items, key, xs) && i < |items|
    ensures j < |xs| && xs[j] == items[i]
  {
    var k := key(items[i]);
    assert Keys(items, key)[i] == k && k in keys;
    j :| 0 <= j < |keys| && keys[j] == k;
    assert key(xs[j]) == Keys(xs, key)[j] == k;
    var n :| 0 <= n < |items| && items[n] == xs[j];
    assert Keys(items, key)[n] == k;
  }

  lemma PlanUsed(c: Catalog, d: Design, p: Design)
    requires IsPlan(c, d, p) && AppsUsed(d) && UesUsed(d)
    ensures AppsUsed(p) && UesUsed(p)
  {
    forall i | 0 <= i < |p.apps|
      ensures AppUsed(p.flows, p.apps[i].key)
    {
      var a :| 0 <= a < |d.apps| && d.apps[a] == p.apps[i];
      assert AppUsed(d.flows, d.apps[a].key);
      var f :| 0 <= f < |d.flows| && d.flows[f].appKey == d.apps[a].key;
      var j := ArrangedHas(c.flowKeys, d.flows, FlowKey, p.flows, f);
    }
    forall i | 0 <= i < |p.ues|
      ensures UeUsed(p.apps, p.ues[i].key)
    {
      var u :| 0 <= u < |d.ues| && d.ues[u] == p.ues[i];
      assert UeUsed(d.apps, d.ues[u].key);
      var a :| 0 <= a < |d.apps| && d.apps[a].ueKey == d.ues[u].key;
      var j := ArrangedHas(c.appKeys, d.apps, AppKey, p.apps, a);
    }
  }

  lemma PlanAccepted(c: Catalog, d: Design)
    requires Accepts(c, d)
    ensures PlanOk(PlanOf(c, d))
  {
    var p := PlanOf(c, d);
    PlanArranged(c, d);
    PlanEntities(c, d, p);
    PlanFlows(c, d, p);
    PlanUsed(c, d, p);
  }
}
