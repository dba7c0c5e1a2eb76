/** The reference and cross-entity checks on a compiled scenario. */
module ReferenceCorrectness {
  import opened Strings
  import opened Documents
  import opened Validator
  import opened ValidatorSoundness
  import opened Design
  import opened DesignCompiler
  import opened CompilerCorrectness

  // ---- Sections by their texts ----

  lemma UpfTexts(p: Design, items: seq<Json>)
    requires UpfsView(p, items)
    ensures Holds(items, Name, Keys(p.upfs, NameOfUpf))
  {
  }

  lemma GnbTexts(p: Design, items: seq<Json>)
    requires GnbsView(p, items)
    ensures Holds(items, Name, Keys(p.gnbs, NameOfGnb))
  {
  }

  lemma UeTexts(p: Design, items: seq<Json>)
    requires UesView(p, items)
    ensures Holds(items, Name, Keys(p.ues, NameOfUe)) && Holds(items, Supi, Supis(p))
  {
  }

  lemma AppTexts(p: Design, items: seq<Json>)
    requires AppsView(p, items)
    ensures Holds(items, AppId, AppIds(p))
  {
  }

  lemma FlowTexts(p: Design, items: seq<Json>)
    requires FlowsView(p, items)
    ensures Holds(items, FlowId, FlowIdList(p))
  {
  }

  // ---- Each kind of reference resolves ----

  lemma SliceKnown(py: Python, p: Design, slices: seq<Json>, k: string)
    requires SlicesView(p, slices) && Schema(p) && HasSlice(p, k)
    ensures LabelOf(SliceOf(p, k)) in Ids(py, slices, Label)
  {
    SliceTexts(p, slices);
    SliceOfKnown(p, k);
    LabelSolid(SliceOf(p, k));
    Known(py, slices, Label, Labels(p), At(Keys(p.slices, SliceKey), k));
  }

  lemma UpfKnown(py: Python, p: Design, upfs: seq<Json>, k: string)
    requires UpfsView(p, upfs) && HasUpf(p, k)
    ensures RefOk(py.Clean(Text(UpfOf(p, k).name)), Ids(py, upfs, Name))
  {
    UpfTexts(p, upfs);
    Known(py, upfs, Name, Keys(p.upfs, NameOfUpf), At(Keys(p.upfs, UpfKey), k));
  }

  lemma GnbKnown(py: Python, p: Design, gnbs: seq<Json>, k: string)
    requires GnbsView(p, gnbs) && HasGnb(p, k)
    ensures RefOk(py.Clean(Text(GnbOf(p, k).name)), Ids(py, gnbs, Name))
  {
    GnbTexts(p, gnbs);
    Known(py, gnbs, Name, Keys(p.gnbs, NameOfGnb), At(Keys(p.gnbs, GnbKey), k));
  }

  lemma UeKnown(py: Python, p: Design, ues: seq<Json>, k: string)
    requires UesView(p, ues) && HasUe(p, k)
    ensures RefOk(py.Clean(Text(UeOf(p, k).name)), Ids(py, ues, Name))
    ensures RefOk(py.Clean(Text(SupiOf(p, k))), Ids(py, ues, Supi))
  {
    UeTexts(p, ues);
    Known(py, ues, Name, Keys(p.ues, NameOfUe), UeAt(p, k));
    Known(py, ues, Supi, Supis(p), UeAt(p, k));
  }

  lemma AppKnown(py: Python, p: Design, apps: seq<Json>, k: string)
    requires AppsView(p, apps) && HasApp(p, k)
    ensures AppIdAt(AppAt(p, k)) in Ids(py, apps, AppId)
  {
    AppTexts(p, apps);
    IdsSolid(AppAt(p, k));
    Known(py, apps, AppId, AppIds(p), AppAt(p, k));
  }

  lemma FlowKnown(py: Python, p: Design, flows: seq<Json>, i: nat)
    requires FlowsView(p, flows) && i < |p.flows|
    ensures FlowIdAt(i) in Ids(py, flows, FlowId)
  {
    FlowTexts(p, flows);
    IdsSolid(i);
    Known(py, flows, FlowId, FlowIdList(p), i);
  }

  lemma OwnKey(p: Design, a: nat)
    requires a < |p.apps|
    ensures HasApp(p, p.apps[a].key)
    ensures KeysUnique(p) ==> AppAt(p, p.apps[a].key) == a && AppOf(p, p.apps[a].key) == p.apps[a]
  {
    assert Keys(p.apps, AppKey)[a] in Keys(p.apps, AppKey);
  }

  lemma OwnUeKey(p: Design, u: nat)
    requires u < |p.ues|
    ensures HasUe(p, p.ues[u].key)
    ensures KeysUnique(p) ==> UeAt(p, p.ues[u].key) == u && UeOf(p, p.ues[u].key) == p.ues[u]
  {
    assert Keys(p.ues, UeKey)[u] in Keys(p.ues, UeKey);
  }

  /** A list of texts refers to known identifiers when each of them does. */
  lemma ListKnown(py: Python, refs: seq<string>, known: set<string>)
    ensures ListRefsOk(py, TextList(refs), known) <==> forall i | 0 <= i < |refs| :: refs[i] in known
  {
    var list := TextList(refs);
    assert |list.items| == |refs| && forall i | 0 <= i < |refs| :: list.items[i] == Text(refs[i]);
    if refs != [] {
      assert list.Truthy();
      assert Iter(list).value == list.items;
      assert forall i | 0 <= i < |refs| :: py.Str(Iter(list).value[i]) == refs[i];
    }
  }

  lemma GnbsOk(py: Python, p: Design, sc: Json, i: nat)
    requires View(p, sc) && Schema(p) && GnbRefs(p) && i < |p.gnbs|
    ensures GnbOk(py, ItemsOf(sc, Gnbs)[i], Ids(py, ItemsOf(sc, Slices), Label), Ids(py, ItemsOf(sc, Upfs), Name))
  {
    var g, labels := p.gnbs[i], Ids(py, ItemsOf(sc, Slices), Label);
    var refs := ServedLabels(p, g);
    forall n | 0 <= n < |refs|
      ensures refs[n] in labels
    {
      SliceKnown(py, p, ItemsOf(sc, Slices), g.served[n]);
    }
    ListKnown(py, refs, labels);
    UpfKnown(py, p, ItemsOf(sc, Upfs), g.backhaul);
    assert GnbView(p, g, ItemsOf(sc, Gnbs)[i]);
  }

  lemma {:induction false} AppFlowIdsIn(p: Design, appKey: string, n: nat, ids: set<string>)
    requires n <= |p.flows| && forall i | 0 <= i < |p.flows| :: FlowIdAt(i) in ids
    ensures forall i | 0 <= i < |AppFlowIds(p, appKey, n)| :: AppFlowIds(p, appKey, n)[i] in ids
  {
    if n > 0 {
      AppFlowIdsIn(p, appKey, n - 1, ids);
    }
  }

  lemma AppFlowIdsKnown(py: Python, p: Design, flows: seq<Json>, appKey: string, n: nat)
    requires FlowsView(p, flows) && n <= |p.flows|
    ensures forall i | 0 <= i < |AppFlowIds(p, appKey, n)| :: AppFlowIds(p, appKey, n)[i] in Ids(py, flows, FlowId)
  {
    forall i | 0 <= i < |p.flows| {
      FlowKnown(py, p, flows, i);
    }
    AppFlowIdsIn(p, appKey, n, Ids(py, flows, FlowId));
  }

  lemma AppsOk(py: Python, p: Design, sc: Json, i: nat)
    requires View(p, sc) && AppRefs(p) && i < |p.apps|
    ensures AppOk(py, ItemsOf(sc, Apps)[i], Ids(py, ItemsOf(sc, Ues), Name), Ids(py, ItemsOf(sc, Ues), Supi),
                  Ids(py, ItemsOf(sc, Flows), FlowId))
  {
    var a := p.apps[i];
    UeKnown(py, p, ItemsOf(sc, Ues), a.ueKey);
    AppFlowIdsKnown(py, p, ItemsOf(sc, Flows), a.key, |p.flows|);
    ListKnown(py, AppFlowIds(p, a.key, |p.flows|), Ids(py, ItemsOf(sc, Flows), FlowId));
    assert AppView(p, i, ItemsOf(sc, Apps)[i]);
  }

  /** What cleaning makes of the references of a flow. */
  lemma FlowCleans(py: Python, p: Design, i: nat, j: Json)
    requires i < |p.flows| && FlowView(p, i, j) && Schema(p) && FlowRefs(p)
    ensures var f := p.flows[i];
            && j.Obj?
            && py.Clean(j.Get(AppId)) == AppIdAt(AppAt(p, f.appKey))
            && py.Clean(j.Get(SliceRef)) == LabelOf(SliceOf(p, f.sliceKey))
            && py.Clean(j.Get(Field.UeName)) == Strip(UeOf(p, AppOf(p, f.appKey).ueKey).name)
            && py.Clean(j.Get(Supi)) == SupiOf(p, AppOf(p, f.appKey).ueKey)
  {
    var f := p.flows[i];
    IdsSolid(AppAt(p, f.appKey));
    CleanText(py, AppIdAt(AppAt(p, f.appKey)));
    SliceOfKnown(p, f.sliceKey);
    LabelSolid(SliceOf(p, f.sliceKey));
    CleanText(py, LabelOf(SliceOf(p, f.sliceKey)));
    IdsSolid(UeAt(p, AppOf(p, f.appKey).ueKey));
    CleanText(py, SupiOf(p, AppOf(p, f.appKey).ueKey));
    CleanText(py, UeOf(p, AppOf(p, f.appKey).ueKey).name);
  }

  lemma FlowAppKnown(p: Design, i: nat)
    requires i < |p.flows| && FlowRefs(p) && AppRefs(p)
    ensures var a := AppAt(p, p.flows[i].appKey);
            && a < |p.apps| && AppOf(p, p.flows[i].appKey) == p.apps[a] && p.apps[a].key == p.flows[i].appKey
            && HasUe(p, p.apps[a].ueKey)
  {
  }

  lemma FlowsOk(py: Python, p: Design, sc: Json, i: nat)
    requires View(p, sc) && Schema(p) && AppRefs(p) && FlowRefs(p) && i < |p.flows|
    ensures FlowOk(py, ItemsOf(sc, Flows)[i], Ids(py, ItemsOf(sc, Slices), Label), Ids(py, ItemsOf(sc, Ues), Name),
                   Ids(py, ItemsOf(sc, Ues), Supi), Ids(py, ItemsOf(sc, Apps), AppId))
  {
    var f := p.flows[i];
    FlowCleans(py, p, i, ItemsOf(sc, Flows)[i]);
    FlowAppKnown(p, i);
    AppKnown(py, p, ItemsOf(sc, Apps), f.appKey);
    SliceKnown(py, p, ItemsOf(sc, Slices), f.sliceKey);
    var ueKey := AppOf(p, f.appKey).ueKey;
    UeKnown(py, p, ItemsOf(sc, Ues), ueKey);
    CleanText(py, UeOf(p, ueKey).name);
    IdsSolid(UeAt(p, ueKey));
    CleanText(py, SupiOf(p, ueKey));
  }

  // ---- UEs ----

  /** A gNB's raw name is among the stripped ones exactly when there is nothing to strip. */
  lemma RawNameKnown(py: Python, p: Design, gnbs: seq<Json>, b: nat)
    requires GnbsView(p, gnbs) && NamesOk(Keys(p.gnbs, NameOfGnb)) && b < |p.gnbs|
    ensures p.gnbs[b].name in Ids(py, gnbs, Name) <==> Trimmed(p.gnbs[b].name)
  {
    var names, ids := Keys(p.gnbs, NameOfGnb), IdList(py, gnbs, Name);
    GnbTexts(p, gnbs);
    forall i | 0 <= i < |names|
      ensures ids[i] == Some(Strip(names[i])) && Trimmed(Strip(names[i]))
    {
      CleanText(py, names[i]);
      StripTrims(names[i]);
    }
    StripFixes(names[b]);
    assert ids[b] in ids;
  }

  lemma PreferredExact(py: Python, p: Design, gnbs: seq<Json>, u: Ue)
    requires GnbsView(p, gnbs) && NamesOk(Keys(p.gnbs, NameOfGnb)) && forall k | k in u.preferred :: HasGnb(p, k)
    ensures ListRefsOk(py, TextList(PreferredNames(p, u)), Ids(py, gnbs, Name)) <==>
              forall k | k in u.preferred :: Trimmed(GnbOf(p, k).name)
  {
    var names := PreferredNames(p, u);
    ListKnown(py, names, Ids(py, gnbs, Name));
    forall i | 0 <= i < |names|
      ensures names[i] in Ids(py, gnbs, Name) <==> Trimmed(GnbOf(p, u.preferred[i]).name)
    {
      assert u.preferred[i] in u.preferred;
      RawNameKnown(py, p, gnbs, At(Keys(p.gnbs, GnbKey), u.preferred[i]));
    }
  }

  /** The gNB that a UE attaches to serves every slice the UE's apps use. */
  lemma UsedIsServed(p: Design, u: nat, a: nat, k: string)
    requires KeysUnique(p) && AllServed(p) && u < |p.ues| && a < |p.apps|
    requires p.apps[a].ueKey == p.ues[u].key && k in SliceOrder(FlowsOfApp(p.flows, p.apps[a].key))
    ensures k in GnbOf(p, p.ues[u].attached).served
  {
    var own := FlowsOfApp(p.flows, p.apps[a].key);
    var f := OnSlice(own, k)[0];
    assert f in OnSlice(own, k) && f in own;
    var i :| 0 <= i < |p.flows| && p.flows[i] == f;
    OwnKey(p, a);
    OwnUeKey(p, u);
  }

  lemma ServedIsAdvertised(py: Python, p: Design, b: nat, gnb: Json, k: string)
    requires b < |p.gnbs| && GnbView(p, p.gnbs[b], gnb) && k in p.gnbs[b].served && SliceSchema(SliceOf(p, k))
    ensures LabelOf(SliceOf(p, k)) in Advertised(py, gnb)
  {
    var refs, name := ServedLabels(p, p.gnbs[b]), LabelOf(SliceOf(p, k));
    var i :| 0 <= i < |p.gnbs[b].served| && p.gnbs[b].served[i] == k;
    var list := TextList(refs);
    assert gnb.Get(Slices) == list && list.items[i] == Text(name) && list.Truthy();
    LabelSolid(SliceOf(p, k));
    StripFixes(name);
    assert Iter(list).value == list.items && Text(name) in list.items;
    assert py.Str(Text(name)) == name;
  }

  lemma SessionRefsHold(py: Python, p: Design, sc: Json, ueKey: string, session: Json)
    requires View(p, sc) && Schema(p) && FlowRefs(p) && session in UeSessions(p, ueKey, |p.apps|)
    ensures SessionRefsOk(py, session, Ids(py, ItemsOf(sc, Slices), Label), Ids(py, ItemsOf(sc, Apps), AppId))
  {
    var a, k := UeSessionFacts(py, p, ueKey, session);
    SliceKnown(py, p, ItemsOf(sc, Slices), k);
    OwnKey(p, a);
    AppKnown(py, p, ItemsOf(sc, Apps), p.apps[a].key);
  }

  lemma SessionServedHolds(py: Python, p: Design, sc: Json, u: nat, session: Json)
    requires View(p, sc) && Schema(p) && FlowRefs(p) && UeRefs(p) && KeysUnique(p) && AllServed(p) && NamesDiffer(p)
    requires u < |p.ues| && session in UeSessions(p, p.ues[u].key, |p.apps|)
    ensures var gnb, known := Strip(GnbOf(p, p.ues[u].attached).name), GnbSlices(py, ItemsOf(sc, Gnbs));
            gnb in known && SessionServed(py, session, known[gnb])
  {
    var a, k := UeSessionFacts(py, p, p.ues[u].key, session);
    UsedIsServed(p, u, a, k);
    var gnbs, b := ItemsOf(sc, Gnbs), At(Keys(p.gnbs, GnbKey), p.ues[u].attached);
    GnbTexts(p, gnbs);
    TheOne(py, gnbs, Name, Keys(p.gnbs, NameOfGnb), b);
    GnbSlicesFinds(py, gnbs, Strip(p.gnbs[b].name), b);
    SliceOfKnown(p, k);
    assert GnbView(p, p.gnbs[b], gnbs[b]);
    ServedIsAdvertised(py, p, b, gnbs[b], k);
  }

  /** With everything else in order, the preferred gNBs decide. */
  lemma UeOkParts(py: Python, j: Json, labels: set<string>, gnbs: set<string>, known: map<string, set<string>>,
                  apps: set<string>, sessions: seq<Json>)
    requires j.Obj? && Iter(j.Get(Sessions)) == Some(sessions)
    requires RefOk(py.Clean(j.Get(Field.Gnb)), gnbs) && RefOk(py.Clean(j.Get(Free5gcPolicy).Get(TargetGnb)), gnbs)
    requires forall n | 0 <= n < |sessions| :: SessionRefsOk(py, sessions[n], labels, apps)
    requires py.Clean(j.Get(Field.Gnb)) in known ==>
               forall n | 0 <= n < |sessions| :: SessionServed(py, sessions[n], known[py.Clean(j.Get(Field.Gnb))])
    ensures UeOk(py, j, labels, gnbs, known, apps) <==> ListRefsOk(py, j.Get(Free5gcPolicy).Get(PreferredGnbs), gnbs)
  {
  }

  lemma UesExact(py: Python, p: Design, sc: Json, u: nat)
    requires View(p, sc) && Schema(p) && FlowRefs(p) && UeRefs(p) && KeysUnique(p) && AllServed(p) && NamesDiffer(p)
    requires AppsUsed(p) && UesUsed(p) && u < |p.ues|
    ensures UeOk(py, ItemsOf(sc, Ues)[u], Ids(py, ItemsOf(sc, Slices), Label), Ids(py, ItemsOf(sc, Gnbs), Name),
                 GnbSlices(py, ItemsOf(sc, Gnbs)), Ids(py, ItemsOf(sc, Apps), AppId)) <==>
              forall k | k in p.ues[u].preferred :: Trimmed(GnbOf(p, k).name)
  {
    var ue, gnbs, j := p.ues[u], ItemsOf(sc, Gnbs), ItemsOf(sc, Ues)[u];
    var labels, apps := Ids(py, ItemsOf(sc, Slices), Label), Ids(py, ItemsOf(sc, Apps), AppId);
    var sessions := UeSessions(p, ue.key, |p.apps|);
    UeHasSession(p, u);
    UeSplit(py, p, sc, u, sessions);
    GnbKnown(py, p, gnbs, ue.attached);
    GnbKnown(py, p, gnbs, ue.target);
    PreferredExact(py, p, gnbs, ue);
    CleanText(py, GnbOf(p, ue.attached).name);
    forall n | 0 <= n < |sessions|
      ensures SessionRefsOk(py, sessions[n], labels, apps)
    {
      SessionRefsHold(py, p, sc, ue.key, sessions[n]);
    }
    var known := GnbSlices(py, gnbs);
    forall n | 0 <= n < |sessions|
      ensures py.Clean(j.Get(Field.Gnb)) in known ==> SessionServed(py, sessions[n], known[py.Clean(j.Get(Field.Gnb))])
    {
      SessionServedHolds(py, p, sc, u, sessions[n]);
    }
    UeOkParts(py, j, labels, Ids(py, gnbs, Name), known, apps, sessions);
  }

  lemma UeSplit(py: Python, p: Design, sc: Json, u: nat, sessions: seq<Json>)
    requires View(p, sc) && u < |p.ues| && sessions == UeSessions(p, p.ues[u].key, |p.apps|) && sessions != []
    ensures var ue, j, policy := p.ues[u], ItemsOf(sc, Ues)[u], ItemsOf(sc, Ues)[u].Get(Free5gcPolicy);
            && j.Obj? && j.Get(Field.Gnb) == Text(GnbOf(p, ue.attached).name)
            && policy.Get(TargetGnb) == Text(GnbOf(p, ue.target).name)
            && policy.Get(PreferredGnbs) == TextList(PreferredNames(p, ue))
            && Iter(j.Get(Sessions)) == Some(sessions)
  {
    assert UeView(p, u, ItemsOf(sc, Ues)[u]);
  }

  lemma ReferencesExact(py: Python, p: Design, sc: Json)
    requires View(p, sc) && Schema(p) && PlanOk(p) && NamesDiffer(p)
    ensures ReferencesOk(py, sc) <==> PreferredTrimmed(p)
  {
    forall i | 0 <= i < |p.gnbs| { GnbsOk(py, p, sc, i); }
    forall i | 0 <= i < |p.apps| { AppsOk(py, p, sc, i); }
    forall i | 0 <= i < |p.flows| { FlowsOk(py, p, sc, i); }
    forall i | 0 <= i < |p.ues| { UesExact(py, p, sc, i); }
  }

  // ---- Agreement between entities ----

  lemma {:induction false} ByKeyOrigin(py: Python, items: seq<Json>, f: Field, id: string) returns (i: nat)
    requires id in ByKey(py, items, f)
    ensures i < |items| && IdOf(py, items[i], f) == Some(id) && ByKey(py, items, f)[id] == items[i]
  {
    var n := |items| - 1;
    if IdOf(py, items[n], f) == Some(id) {
      i := n;
    } else {
      i := ByKeyOrigin(py, items[..n], f, id);
    }
  }

  lemma AppById(py: Python, p: Design, apps: seq<Json>, a: nat)
    requires AppsView(p, apps) && a < |p.apps|
    ensures AppIdAt(a) in ByKey(py, apps, AppId) && ByKey(py, apps, AppId)[AppIdAt(a)] == apps[a]
  {
    AppTexts(p, apps);
    NumbersOk(p);
    IdsSolid(a);
    StripFixes(AppIdAt(a));
    TheOne(py, apps, AppId, AppIds(p), a);
    ByKeyFinds(py, apps, AppId, AppIdAt(a), a);
  }

  lemma UeByName(py: Python, p: Design, ues: seq<Json>, u: nat)
    requires UesView(p, ues) && u < |p.ues| && NamesOk(Keys(p.ues, NameOfUe))
    ensures Strip(p.ues[u].name) in ByKey(py, ues, Name) && ByKey(py, ues, Name)[Strip(p.ues[u].name)] == ues[u]
  {
    UeTexts(p, ues);
    TheOne(py, ues, Name, Keys(p.ues, NameOfUe), u);
    ByKeyFinds(py, ues, Name, Strip(p.ues[u].name), u);
  }

  lemma AppCleans(py: Python, p: Design, a: nat, j: Json)
    requires a < |p.apps| && AppView(p, a, j)
    ensures j.Obj?
    ensures py.Clean(j.Get(Field.UeName)) == Strip(UeOf(p, p.apps[a].ueKey).name)
    ensures py.Clean(j.Get(Supi)) == SupiOf(p, p.apps[a].ueKey)
  {
    CleanText(py, UeOf(p, p.apps[a].ueKey).name);
    IdsSolid(UeAt(p, p.apps[a].ueKey));
    CleanText(py, SupiOf(p, p.apps[a].ueKey));
  }

  lemma UeCleans(py: Python, p: Design, u: nat, j: Json)
    requires u < |p.ues| && UeView(p, u, j)
    ensures j.Obj? && py.Clean(j.Get(Supi)) == SupiAt(u) && j.Get(Sessions) == List(UeSessions(p, p.ues[u].key, |p.apps|))
  {
    IdsSolid(u);
    CleanText(py, SupiAt(u));
  }

  lemma SessionsIter(p: Design, ueKey: string, j: Json)
    requires j.Get(Sessions) == List(UeSessions(p, ueKey, |p.apps|))
    ensures Iter(j.Get(Sessions)) == Some(UeSessions(p, ueKey, |p.apps|))
  {
  }

  lemma FlowHasSession(py: Python, p: Design, i: nat, flow: Json, u: nat, ue: Json)
    requires i < |p.flows| && FlowView(p, i, flow) && u < |p.ues| && UeView(p, u, ue)
    requires Schema(p) && FlowRefs(p) && AppRefs(p) && AppOf(p, p.flows[i].appKey).ueKey == p.ues[u].key
    ensures HasSession(py, ue, py.Clean(flow.Get(AppId)), py.Clean(flow.Get(SliceRef)), py.Clean(flow.Get(SessionRef)))
  {
    var k, a := p.flows[i].sliceKey, AppAt(p, p.flows[i].appKey);
    FlowAppKnown(p, i);
    var session := FlowSessionPresent(p, a, i);
    UeCleans(py, p, u, ue);
    SessionsIter(p, p.ues[u].key, ue);
    SliceOfKnown(p, k);
    SessionClean(py, p, p.apps[a], k, session);
    FlowCleans(py, p, i, flow);
    assert flow.Get(SessionRef) == session.Get(SessionRef);
    assert SessionMatches(py, session, py.Clean(flow.Get(AppId)), py.Clean(flow.Get(SliceRef)), py.Clean(flow.Get(SessionRef)));
  }

  lemma CrossFlowHolds(py: Python, p: Design, sc: Json, i: nat)
    requires View(p, sc) && Schema(p) && PlanOk(p) && NamesDiffer(p) && i < |p.flows|
    ensures CrossFlowOk(py, ItemsOf(sc, Flows)[i], ByKey(py, ItemsOf(sc, Apps), AppId), ByKey(py, ItemsOf(sc, Ues), Name))
  {
    var flow, apps, ues := ItemsOf(sc, Flows)[i], ItemsOf(sc, Apps), ItemsOf(sc, Ues);
    var a := AppAt(p, p.flows[i].appKey);
    FlowCleans(py, p, i, flow);
    FlowAppKnown(p, i);
    AppById(py, p, apps, a);
    AppCleans(py, p, a, apps[a]);
    var u := UeAt(p, p.apps[a].ueKey);
    assert UeOf(p, p.apps[a].ueKey) == p.ues[u];
    UeByName(py, p, ues, u);
    UeCleans(py, p, u, ues[u]);
    FlowHasSession(py, p, i, flow, u, ues[u]);
  }

  lemma {:induction false} AppFlowIdsAre(p: Design, appKey: string, n: nat, id: string)
    requires n <= |p.flows|
    ensures id in AppFlowIds(p, appKey, n) <==> exists i :: 0 <= i < n && p.flows[i].appKey == appKey && FlowIdAt(i) == id
  {
    if n > 0 {
      AppFlowIdsAre(p, appKey, n - 1, id);
    }
  }

  lemma Declared(py: Python, p: Design, a: nat, j: Json, id: string)
    requires a < |p.apps| && AppView(p, a, j)
    ensures Iter(j.Get(FlowIds)).Some?
    ensures id in DeclaredFlowIds(py, j) <==> id in AppFlowIds(p, p.apps[a].key, |p.flows|)
  {
    var ids := AppFlowIds(p, p.apps[a].key, |p.flows|);
    var list := TextList(ids);
    assert j.Get(FlowIds) == list && |list.items| == |ids|;
    assert forall i | 0 <= i < |ids| :: list.items[i] == Text(ids[i]);
    assert Iter(list).Some? && (ids != [] ==> Iter(list).value == list.items);
    forall x | x in ids
      ensures Strip(x) == x != "" && Text(x) in list.items && py.Str(Text(x)) == x
    {
      AppFlowIdsAre(p, p.apps[a].key, |p.flows|, x);
      var i :| 0 <= i < |p.flows| && FlowIdAt(i) == x;
      IdsSolid(i);
      StripFixes(x);
      var n :| 0 <= n < |ids| && ids[n] == x;
      assert list.items[n] == Text(x);
    }
    if id in DeclaredFlowIds(py, j) {
      var x :| x in Iter(list).value && Strip(py.Str(x)) != "" && Strip(py.Str(x)) == id;
      var n :| 0 <= n < |list.items| && list.items[n] == x;
      assert py.Str(x) == ids[n] && ids[n] in ids;
    }
  }

  lemma FlowOfApp(py: Python, p: Design, a: nat, i: nat, j: Json)
    requires a < |p.apps| && i < |p.flows| && FlowView(p, i, j) && Schema(p) && FlowRefs(p) && AppRefs(p) && KeysUnique(p)
    ensures py.Clean(j.Get(AppId)) == AppIdAt(a) <==> p.flows[i].appKey == p.apps[a].key
    ensures CleanOr(py, j.Get(FlowId), "<unknown>") == FlowIdAt(i)
  {
    var b := AppAt(p, p.flows[i].appKey);
    FlowCleans(py, p, i, j);
    FlowAppKnown(p, i);
    NumbersInjective(b, a);
    OwnKey(p, a);
    OwnKey(p, b);
    IdsSolid(i);
    CleanText(py, FlowIdAt(i));
  }

  lemma Defined(py: Python, p: Design, a: nat, flows: seq<Json>, id: string)
    requires a < |p.apps| && FlowsView(p, flows) && Schema(p) && FlowRefs(p) && AppRefs(p) && KeysUnique(p)
    ensures id in FlowIdsOf(py, flows, AppIdAt(a)) <==> id in AppFlowIds(p, p.apps[a].key, |p.flows|)
  {
    AppFlowIdsAre(p, p.apps[a].key, |p.flows|, id);
    if id in FlowIdsOf(py, flows, AppIdAt(a)) {
      var flow :| flow in flows && flow.Obj? && py.Clean(flow.Get(AppId)) == AppIdAt(a)
                  && CleanOr(py, flow.Get(FlowId), "<unknown>") == id;
      var i :| 0 <= i < |flows| && flows[i] == flow;
      FlowOfApp(py, p, a, i, flow);
    }
    if id in AppFlowIds(p, p.apps[a].key, |p.flows|) {
      var i :| 0 <= i < |p.flows| && p.flows[i].appKey == p.apps[a].key && FlowIdAt(i) == id;
      FlowCleans(py, p, i, flows[i]);
      FlowOfApp(py, p, a, i, flows[i]);
      assert flows[i] in flows;
    }
  }

  lemma DeclaredAreDefined(py: Python, p: Design, a: nat, j: Json, flows: seq<Json>)
    requires a < |p.apps| && AppView(p, a, j)
    requires FlowsView(p, flows) && Schema(p) && FlowRefs(p) && AppRefs(p) && KeysUnique(p)
    ensures Iter(j.Get(FlowIds)).Some? && DeclaredFlowIds(py, j) == FlowIdsOf(py, flows, AppIdAt(a))
  {
    forall x
      ensures x in DeclaredFlowIds(py, j) <==> x in FlowIdsOf(py, flows, AppIdAt(a))
    {
      Declared(py, p, a, j, x);
      Defined(py, p, a, flows, x);
    }
    Declared(py, p, a, j, "");
  }

  /** A dictionary entry is the app at some position, under its own identifier. */
  lemma AppOrigin(py: Python, p: Design, apps: seq<Json>, id: string) returns (a: nat)
    requires AppsView(p, apps) && id in ByKey(py, apps, AppId)
    ensures a < |p.apps| && id == AppIdAt(a) && ByKey(py, apps, AppId)[id] == apps[a] && AppView(p, a, apps[a])
  {
    a := ByKeyOrigin(py, apps, AppId, id);
    assert AppView(p, a, apps[a]);
    IdsSolid(a);
    CleanText(py, AppIdAt(a));
  }

  lemma CrossAppHolds(py: Python, p: Design, sc: Json, a: nat)
    requires View(p, sc) && Schema(p) && PlanOk(p) && NamesDiffer(p) && a < |p.apps|
    ensures CrossAppOk(py, AppIdAt(a), ItemsOf(sc, Apps)[a], ByKey(py, ItemsOf(sc, Ues), Name),
                       FlowIdsOf(py, ItemsOf(sc, Flows), AppIdAt(a)))
  {
    var app, ues, flows := ItemsOf(sc, Apps)[a], ItemsOf(sc, Ues), ItemsOf(sc, Flows);
    AppCleans(py, p, a, app);
    var u := UeAt(p, p.apps[a].ueKey);
    UeByName(py, p, ues, u);
    UeCleans(py, p, u, ues[u]);
    DeclaredAreDefined(py, p, a, app, flows);
  }

  /** A session is named as expected exactly when its access point survives stripping on the left. */
  lemma SessionNamedExact(py: Python, p: Design, app: App, k: string, session: Json)
    requires SessionView(p, app, k, session) && SliceSchema(SliceOf(p, k))
    ensures SessionNamed(py, SupiOf(p, app.ueKey), session) <==> RStrip(app.apn) == Strip(app.apn)
  {
    SessionClean(py, p, app, k, session);
    var supi, id, name := SupiOf(p, app.ueKey), AppIdAt(AppAt(p, app.key)), LabelOf(SliceOf(p, k));
    var prefix := supi + ":" + id + ":" + name + ":";
    IdsSolid(UeAt(p, app.ueKey));
    assert prefix[0] == supi[0] && prefix[|prefix| - 1] == ':';
    assert SessionRefOf(p, app, k) == prefix + app.apn;
    StripAppend(prefix, app.apn);
    CleanText(py, prefix + app.apn);
    CleanText(py, app.apn);
    assert ExpectedRef(py, supi, session) == prefix + Strip(app.apn);
    if prefix + RStrip(app.apn) == prefix + Strip(app.apn) {
      PrefixInjective(prefix, RStrip(app.apn), Strip(app.apn));
    }
  }

  /** Some session of the app's UE is named as expected exactly when the app's access point survives. */
  lemma AppSession(py: Python, p: Design, a: nat) returns (session: Json)
    requires a < |p.apps| && Schema(p) && FlowRefs(p) && KeysUnique(p) && AppsUsed(p)
    ensures session in UeSessions(p, p.apps[a].ueKey, |p.apps|)
    ensures SessionNamed(py, SupiOf(p, p.apps[a].ueKey), session) <==> RStrip(p.apps[a].apn) == Strip(p.apps[a].apn)
  {
    assert AppUsed(p.flows, p.apps[a].key);
    var i :| 0 <= i < |p.flows| && p.flows[i].appKey == p.apps[a].key;
    session := FlowSessionPresent(p, a, i);
    SliceOfKnown(p, p.flows[i].sliceKey);
    SessionNamedExact(py, p, p.apps[a], p.flows[i].sliceKey, session);
  }

  /** Every session of a UE is named as expected exactly when the access point of its app survives. */
  lemma SessionApp(py: Python, p: Design, key: string, session: Json) returns (a: nat)
    requires Schema(p) && FlowRefs(p) && session in UeSessions(p, key, |p.apps|)
    ensures a < |p.apps| && p.apps[a].ueKey == key
    ensures SessionNamed(py, SupiOf(p, key), session) <==> RStrip(p.apps[a].apn) == Strip(p.apps[a].apn)
  {
    var k;
    a, k := UeSessionFacts(py, p, key, session);
    SliceOfKnown(p, k);
    SessionNamedExact(py, p, p.apps[a], k, session);
  }

  lemma CrossUeExact(py: Python, p: Design, u: nat, j: Json)
    requires u < |p.ues| && UeView(p, u, j) && Schema(p) && FlowRefs(p) && KeysUnique(p) && AppsUsed(p)
    ensures CrossUeOk(py, j) <==>
              forall a | 0 <= a < |p.apps| && p.apps[a].ueKey == p.ues[u].key :: RStrip(p.apps[a].apn) == Strip(p.apps[a].apn)
  {
    var key, sessions := p.ues[u].key, UeSessions(p, p.ues[u].key, |p.apps|);
    UeCleans(py, p, u, j);
    SessionsIter(p, key, j);
    OwnUeKey(p, u);
    assert SupiOf(p, key) == SupiAt(u);
    if CrossUeOk(py, j) {
      forall a | 0 <= a < |p.apps| && p.apps[a].ueKey == key
        ensures RStrip(p.apps[a].apn) == Strip(p.apps[a].apn)
      {
        var session := AppSession(py, p, a);
        var n :| 0 <= n < |sessions| && sessions[n] == session;
        assert SessionNamed(py, SupiAt(u), sessions[n]);
      }
    }
    if forall a | 0 <= a < |p.apps| && p.apps[a].ueKey == key :: RStrip(p.apps[a].apn) == Strip(p.apps[a].apn) {
      forall n | 0 <= n < |sessions|
        ensures SessionNamed(py, SupiAt(u), sessions[n])
      {
        var a := SessionApp(py, p, key, sessions[n]);
      }
    }
  }

  lemma UeOrigin(py: Python, p: Design, ues: seq<Json>, name: string) returns (u: nat)
    requires UesView(p, ues) && name in ByKey(py, ues, Name)
    ensures u < |p.ues| && ByKey(py, ues, Name)[name] == ues[u] && UeView(p, u, ues[u])
  {
    u := ByKeyOrigin(py, ues, Name, name);
  }

  lemma ApnChecked(py: Python, p: Design, ues: seq<Json>, a: nat)
    requires UesView(p, ues) && Schema(p) && FlowRefs(p) && AppRefs(p) && KeysUnique(p) && AppsUsed(p)
    requires NamesOk(Keys(p.ues, NameOfUe)) && CrossUesOk(py, ByKey(py, ues, Name)) && a < |p.apps|
    ensures RStrip(p.apps[a].apn) == Strip(p.apps[a].apn)
  {
    var u := UeAt(p, p.apps[a].ueKey);
    UeByName(py, p, ues, u);
    assert CrossUeOk(py, ues[u]);
    CrossUeExact(py, p, u, ues[u]);
  }

  lemma CrossUesExact(py: Python, p: Design, ues: seq<Json>)
    requires UesView(p, ues) && Schema(p) && PlanOk(p) && NamesDiffer(p)
    ensures CrossUesOk(py, ByKey(py, ues, Name)) <==> ApnsOk(p)
  {
    var byName := ByKey(py, ues, Name);
    if CrossUesOk(py, byName) {
      forall a | 0 <= a < |p.apps|
        ensures RStrip(p.apps[a].apn) == Strip(p.apps[a].apn)
      {
        ApnChecked(py, p, ues, a);
      }
    }
    if ApnsOk(p) {
      forall name | name in byName
        ensures CrossUeOk(py, byName[name])
      {
        var u := UeOrigin(py, p, ues, name);
        CrossUeExact(py, p, u, ues[u]);
      }
    }
  }

  lemma CrossFlowsHold(py: Python, p: Design, sc: Json)
    requires View(p, sc) && Schema(p) && PlanOk(p) && NamesDiffer(p)
    ensures CrossFlowsOk(py, ItemsOf(sc, Flows), ByKey(py, ItemsOf(sc, Apps), AppId), ByKey(py, ItemsOf(sc, Ues), Name))
  {
    forall i | 0 <= i < |p.flows| { CrossFlowHolds(py, p, sc, i); }
  }

  lemma CrossAppsHold(py: Python, p: Design, sc: Json)
    requires View(p, sc) && Schema(p) && PlanOk(p) && NamesDiffer(p)
    ensures CrossAppsOk(py, ItemsOf(sc, Flows), ByKey(py, ItemsOf(sc, Apps), AppId), ByKey(py, ItemsOf(sc, Ues), Name))
  {
    var apps, ues := ItemsOf(sc, Apps), ByKey(py, ItemsOf(sc, Ues), Name);
    forall id | id in ByKey(py, apps, AppId)
      ensures CrossAppOk(py, id, ByKey(py, apps, AppId)[id], ues, FlowIdsOf(py, ItemsOf(sc, Flows), id))
    {
      var a := AppOrigin(py, p, apps, id);
      CrossAppHolds(py, p, sc, a);
    }
  }

  lemma CrossExact(py: Python, p: Design, sc: Json)
    requires View(p, sc) && Schema(p) && PlanOk(p) && NamesDiffer(p)
    ensures CrossOk(py, sc) <==> ApnsOk(p)
  {
    CrossFlowsHold(py, p, sc);
    CrossAppsHold(py, p, sc);
    CrossUesExact(py, p, ItemsOf(sc, Ues));
  }

  // ---- The main theorem ----

  /** A compiled design passes the validator exactly when it is sound. */
  lemma CompiledIsValidExactly(py: Python, p: Design)
    requires PlanOk(p) && Schema(p)
    ensures CandidateOk(py, CandidateOf(p)) <==> Sound(py, p)
  {
    var sc := ScenarioOf(p);
    Viewed(p);
    RootsOk(p);
    LoaderExact(py, p, sc);
    IdentifiersExact(py, p, sc);
    SlaExact(py, p, sc);
    if SlicesDiffer(p) && NamesDiffer(p) {
      ReferencesExact(py, p, sc);
      CrossExact(py, p, sc);
      CapacityExact(py, p, sc);
    }
  }
}
