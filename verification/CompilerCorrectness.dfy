/** The exact condition under which a compiled design passes the independent validator. */
module CompilerCorrectness {
  import opened Strings
  import opened Documents
  import opened Validator
  import opened ValidatorSoundness
  import opened Design
  import opened DesignCompiler

  // ---- What the schema guarantees of the fields the checks look at ----

  predicate IsHex(c: char) {
    '0' <= c <= '9' || 'a' <= c <= 'f' || 'A' <= c <= 'F'
  }

  ghost predicate SliceSchema(s: Slice) {
    && s.sst >= 1 && |s.sd| == 6 && (forall i | 0 <= i < 6 :: IsHex(s.sd[i]))
    && s.resource.capacityDl > 0.0 && s.resource.capacityUl > 0.0
    && s.resource.guaranteedDl >= 0.0 && s.resource.guaranteedUl >= 0.0
  }

  ghost predicate FlowSchema(f: Flow) {
    && f.sla.latency > 0.0 && f.sla.jitter >= 0.0 && f.sla.lossRate >= 0.0
    && f.sla.bandwidthDl >= 0.0 && f.sla.bandwidthUl >= 0.0
    && f.sla.guaranteedDl >= 0.0 && f.sla.guaranteedUl >= 0.0 && f.sla.priority >= 1
    && f.dlShare >= 0.0 && f.ulShare >= 0.0
  }

  ghost predicate Schema(d: Design) {
    (forall i | 0 <= i < |d.slices| :: SliceSchema(d.slices[i])) && (forall i | 0 <= i < |d.flows| :: FlowSchema(d.flows[i]))
  }

  // ---- The condition ----

  ghost predicate NamesOk(names: seq<string>) {
    && (forall i | 0 <= i < |names| :: Strip(names[i]) != "")
    && (forall i, j | 0 <= i < j < |names| :: Strip(names[i]) != Strip(names[j]))
  }

  function NameOfUpf(x: Upf): string { x.name }
  function NameOfGnb(x: Gnb): string { x.name }
  function NameOfUe(x: Ue): string { x.name }

  ghost predicate SlicesDiffer(d: Design) {
    forall i, j | 0 <= i < j < |d.slices| :: d.slices[i].sst != d.slices[j].sst || Lower(d.slices[i].sd) != Lower(d.slices[j].sd)
  }

  /** A preferred gNB is looked up by its raw name among stripped ones. */
  ghost predicate PreferredTrimmed(d: Design) {
    forall i | 0 <= i < |d.ues| :: forall k | k in d.ues[i].preferred :: Trimmed(GnbOf(d, k).name)
  }

  /** The access point is blank or has no leading blank. */
  ghost predicate ApnsOk(d: Design) {
    forall i | 0 <= i < |d.apps| :: RStrip(d.apps[i].apn) == Strip(d.apps[i].apn)
  }

  ghost predicate RuntimeOk(py: Python, d: Design) {
    && py.Clean(Obj(d.runtime.free5gc).Get(ComposeFile)) != ""
    && py.Clean(Obj(d.runtime.free5gc).Get(ConfigRoot)) != ""
    && py.Clean(Obj(d.runtime.ns3).Get(Ns3Root)) != ""
  }

  ghost predicate SlaSound(f: Flow) {
    && f.sla.guaranteedDl <= f.sla.bandwidthDl && f.sla.guaranteedUl <= f.sla.bandwidthUl
    && f.sla.guaranteedDl <= f.dlShare && f.sla.guaranteedUl <= f.ulShare
  }

  /** What the flows of one slice are guaranteed together. */
  function Promised(flows: seq<Flow>, sliceKey: string): (real, real) {
    if flows == [] then (0.0, 0.0)
    else
      var rest, last := Promised(flows[..|flows| - 1], sliceKey), flows[|flows| - 1];
      if last.sliceKey == sliceKey then (rest.0 + last.sla.guaranteedDl, rest.1 + last.sla.guaranteedUl) else rest
  }

  ghost predicate FitsPlan(d: Design, s: Slice) {
    Promised(d.flows, s.key).0 <= s.resource.capacityDl && Promised(d.flows, s.key).1 <= s.resource.capacityUl
  }

  ghost predicate CapacitySound(d: Design) {
    forall i | 0 <= i < |d.slices| :: FitsPlan(d, d.slices[i])
  }

  ghost predicate NamesDiffer(d: Design) {
    NamesOk(Keys(d.upfs, NameOfUpf)) && NamesOk(Keys(d.gnbs, NameOfGnb)) && NamesOk(Keys(d.ues, NameOfUe))
  }

  ghost predicate SlasSound(d: Design) {
    forall i | 0 <= i < |d.flows| :: SlaSound(d.flows[i])
  }

  ghost predicate Sound(py: Python, d: Design) {
    && SlicesDiffer(d) && NamesDiffer(d) && PreferredTrimmed(d) && ApnsOk(d)
    && RuntimeOk(py, d) && SlasSound(d) && CapacitySound(d)
  }

  // ---- Identifiers and their formats ----

  /** Nothing to strip, and something left. */
  ghost predicate Solid(s: string) {
    s != "" && !IsSpace(s[0]) && !IsSpace(s[|s| - 1])
  }

  lemma CleanText(py: Python, s: string)
    ensures py.Clean(Text(s)) == Strip(s)
    ensures Solid(s) ==> py.Clean(Text(s)) == s
  {
    if Solid(s) {
      StripFixes(s);
    }
  }

  lemma NumberedSolid(prefix: string, n: nat, width: nat)
    requires prefix != "" && 'a' <= prefix[0] <= 'z'
    ensures Solid(prefix + Decimal(n, width))
  {
    DecimalRoundTrip(n, width);
    var s, d := prefix + Decimal(n, width), Decimal(n, width);
    assert s[|s| - 1] == d[|d| - 1] && d[|d| - 1] in d;
  }

  lemma IdsSolid(i: nat)
    ensures Solid(SupiAt(i)) && Solid(AppIdAt(i)) && Solid(FlowIdAt(i))
  {
    NumberedSolid("imsi-208930000000", i + 1, 3);
    NumberedSolid("app-", i + 1, 4);
    NumberedSolid("flow-", i + 1, 4);
  }

  lemma PrefixInjective(prefix: string, a: string, b: string)
    requires prefix + a == prefix + b
    ensures a == b
  {
    assert a == (prefix + a)[|prefix|..] && b == (prefix + b)[|prefix|..];
  }

  lemma NumberedInjective(prefix: string, i: nat, j: nat, width: nat)
    requires prefix + Decimal(i, width) == prefix + Decimal(j, width)
    ensures i == j
  {
    PrefixInjective(prefix, Decimal(i, width), Decimal(j, width));
    DecimalInjective(i, j, width);
  }

  lemma NumbersInjective(i: nat, j: nat)
    ensures SupiAt(i) == SupiAt(j) ==> i == j
    ensures AppIdAt(i) == AppIdAt(j) ==> i == j
    ensures FlowIdAt(i) == FlowIdAt(j) ==> i == j
  {
    if SupiAt(i) == SupiAt(j) {
      NumberedInjective("imsi-208930000000", i + 1, j + 1, 3);
    }
    if AppIdAt(i) == AppIdAt(j) {
      NumberedInjective("app-", i + 1, j + 1, 4);
    }
    if FlowIdAt(i) == FlowIdAt(j) {
      NumberedInjective("flow-", i + 1, j + 1, 4);
    }
  }

  lemma LabelSolid(s: Slice)
    requires SliceSchema(s)
    ensures Solid(LabelOf(s)) && Solid(Lower(s.sd))
  {
    var l, sd := LabelOf(s), Lower(s.sd);
    assert IsHex(s.sd[0]) && IsHex(s.sd[5]);
    assert l[|l| - 1] == sd[5];
  }

  lemma Regrouped(p: string, d: string, l: string)
    ensures p + d + "-" + l == p + (d + "-" + l)
  {
  }

  /** The number in front of the first dash and the text behind it are determined by the label. */
  lemma LabelParts(a: nat, b: nat, x: string, y: string)
    requires Decimal(a, 1) + "-" + x == Decimal(b, 1) + "-" + y
    ensures a == b && x == y
  {
    DecimalRoundTrip(a, 1);
    DecimalRoundTrip(b, 1);
    SplitAt('-', Decimal(a, 1), x, Decimal(b, 1), y);
  }

  lemma LabelInjective(a: Slice, b: Slice)
    ensures LabelOf(a) == LabelOf(b) <==> a.sst == b.sst && Lower(a.sd) == Lower(b.sd)
  {
    if LabelOf(a) == LabelOf(b) {
      Regrouped("slice-", Decimal(a.sst, 1), Lower(a.sd));
      Regrouped("slice-", Decimal(b.sst, 1), Lower(b.sd));
      PrefixInjective("slice-", Decimal(a.sst, 1) + "-" + Lower(a.sd), Decimal(b.sst, 1) + "-" + Lower(b.sd));
      LabelParts(a.sst, b.sst, Lower(a.sd), Lower(b.sd));
    }
  }

  // ---- Identifiers of a compiled section ----

  /** The entries are mappings that hold these texts under `f`. */
  ghost predicate Holds(items: seq<Json>, f: Field, texts: seq<string>) {
    |items| == |texts| && forall i | 0 <= i < |items| :: Has(items[i], f, Text(texts[i]))
  }

  lemma UniqueNames(py: Python, items: seq<Json>, f: Field, texts: seq<string>)
    requires Holds(items, f, texts)
    ensures UniqueOk(py, items, f) <==> NamesOk(texts)
  {
    var ids := IdList(py, items, f);
    forall i | 0 <= i < |items|
      ensures ids[i] == if Strip(texts[i]) == "" then None else Some(Strip(texts[i]))
    {
      CleanText(py, texts[i]);
    }
  }

  lemma Known(py: Python, items: seq<Json>, f: Field, texts: seq<string>, i: nat)
    requires Holds(items, f, texts) && i < |texts|
    ensures RefOk(py.Clean(Text(texts[i])), Ids(py, items, f))
    ensures Solid(texts[i]) ==> texts[i] in Ids(py, items, f)
  {
    CleanText(py, texts[i]);
    var ids := IdList(py, items, f);
    assert ids[i] in ids;
  }

  lemma TheOne(py: Python, items: seq<Json>, f: Field, texts: seq<string>, i: nat)
    requires Holds(items, f, texts) && i < |texts| && NamesOk(texts)
    ensures IsThe(py, items, f, Strip(texts[i]), i)
  {
    forall k | 0 <= k < |items|
      ensures IdOf(py, items[k], f) == Some(Strip(texts[k]))
    {
      CleanText(py, texts[k]);
    }
  }

  // ---- What the compiled entities hold ----

  /** A mapping with this value under this key. */
  ghost predicate Has(j: Json, f: Field, v: Json) {
    j.Obj? && f in j.fields && j.fields[f] == v
  }

  ghost predicate SliceView(s: Slice, j: Json) {
    && Has(j, Sst, Num(Int(s.sst))) && Has(j, Sd, Text(Lower(s.sd))) && Has(j, Label, Text(LabelOf(s)))
    && Has(j, Resource, CompileResource(s.resource))
  }

  ghost predicate GnbView(p: Design, g: Gnb, j: Json) {
    && Has(j, Name, Text(g.name)) && Has(j, Slices, TextList(ServedLabels(p, g)))
    && Has(j, BackhaulUpf, Text(UpfOf(p, g.backhaul).name))
  }

  ghost predicate PolicyView(p: Design, u: Ue, j: Json) {
    && Has(j, TargetGnb, Text(GnbOf(p, u.target).name))
    && Has(j, PreferredGnbs, TextList(PreferredNames(p, u)))
  }

  ghost predicate UeView(p: Design, i: nat, j: Json)
    requires i < |p.ues|
  {
    var u := p.ues[i];
    && Has(j, Name, Text(u.name)) && Has(j, Supi, Text(SupiAt(i))) && Has(j, Field.Gnb, Text(GnbOf(p, u.attached).name))
    && Has(j, SimKey, Text(DEFAULT_UE_KEY)) && Has(j, Op, Text(DEFAULT_UE_OP))
    && Has(j, Sessions, List(UeSessions(p, u.key, |p.apps|)))
    && PolicyView(p, u, j.Get(Free5gcPolicy))
  }

  ghost predicate AppView(p: Design, i: nat, j: Json)
    requires i < |p.apps|
  {
    var a := p.apps[i];
    && Has(j, AppId, Text(AppIdAt(i))) && Has(j, Supi, Text(SupiOf(p, a.ueKey))) && Has(j, Field.UeName, Text(UeOf(p, a.ueKey).name))
    && Has(j, FlowIds, TextList(AppFlowIds(p, a.key, |p.flows|)))
  }

  ghost predicate FlowView(p: Design, i: nat, j: Json)
    requires i < |p.flows|
  {
    var f, app := p.flows[i], AppOf(p, p.flows[i].appKey);
    && Has(j, FlowId, Text(FlowIdAt(i))) && Has(j, Supi, Text(SupiOf(p, app.ueKey)))
    && Has(j, AppId, Text(AppIdAt(AppAt(p, f.appKey)))) && Has(j, SliceRef, Text(LabelOf(SliceOf(p, f.sliceKey))))
    && Has(j, SessionRef, Text(SessionRefOf(p, app, f.sliceKey))) && Has(j, Field.UeName, Text(UeOf(p, app.ueKey).name))
    && Has(j, AllocatedDl, Real(f.dlShare)) && Has(j, AllocatedUl, Real(f.ulShare))
    && Has(j, SlaTarget, CompileSla(f.sla))
  }

  ghost predicate SessionView(p: Design, app: App, sliceKey: string, j: Json) {
    && Has(j, SliceRef, Text(LabelOf(SliceOf(p, sliceKey)))) && Has(j, SessionRef, Text(SessionRefOf(p, app, sliceKey)))
    && Has(j, Apn, Text(app.apn)) && Has(j, AppId, Text(AppIdAt(AppAt(p, app.key))))
  }

  lemma SessionViewed(p: Design, app: App, sliceKey: string, best: Flow)
    ensures SessionView(p, app, sliceKey, CompileSession(p, app, sliceKey, best))
  {
  }

  lemma UeViewed(p: Design, i: nat)
    requires i < |p.ues|
    ensures UeView(p, i, CompileUe(p, i))
  {
    assert CompileUe(p, i).Get(Free5gcPolicy)
        == Obj(map[TargetGnb := Text(GnbOf(p, p.ues[i].target).name),
                   PreferredGnbs := TextList(PreferredNames(p, p.ues[i]))]);
  }

  lemma FlowOwnerViewed(p: Design, i: nat)
    requires i < |p.flows|
    ensures var f, j := p.flows[i], CompileFlow(p, i);
            && Has(j, FlowId, Text(FlowIdAt(i))) && Has(j, Supi, Text(SupiOf(p, AppOf(p, f.appKey).ueKey)))
            && Has(j, AppId, Text(AppIdAt(AppAt(p, f.appKey)))) && Has(j, SliceRef, Text(LabelOf(SliceOf(p, f.sliceKey))))
  {
  }

  lemma FlowViewed(p: Design, i: nat)
    requires i < |p.flows|
    ensures FlowView(p, i, CompileFlow(p, i))
  {
    FlowOwnerViewed(p, i);
  }

  ghost predicate SlicesView(p: Design, items: seq<Json>) {
    |items| == |p.slices| && forall i | 0 <= i < |items| :: SliceView(p.slices[i], items[i])
  }

  ghost predicate UpfsView(p: Design, items: seq<Json>) {
    |items| == |p.upfs| && forall i | 0 <= i < |items| :: Has(items[i], Name, Text(p.upfs[i].name))
  }

  ghost predicate GnbsView(p: Design, items: seq<Json>) {
    |items| == |p.gnbs| && forall i | 0 <= i < |items| :: GnbView(p, p.gnbs[i], items[i])
  }

  ghost predicate UesView(p: Design, items: seq<Json>) {
    |items| == |p.ues| && forall i | 0 <= i < |items| :: UeView(p, i, items[i])
  }

  ghost predicate AppsView(p: Design, items: seq<Json>) {
    |items| == |p.apps| && forall i | 0 <= i < |items| :: AppView(p, i, items[i])
  }

  ghost predicate FlowsView(p: Design, items: seq<Json>) {
    |items| == |p.flows| && forall i | 0 <= i < |items| :: FlowView(p, i, items[i])
  }

  /** All that the proofs below know of a compiled scenario. */
  ghost predicate View(p: Design, sc: Json) {
    && SlicesView(p, ItemsOf(sc, Slices)) && UpfsView(p, ItemsOf(sc, Upfs)) && GnbsView(p, ItemsOf(sc, Gnbs))
    && UesView(p, ItemsOf(sc, Ues)) && AppsView(p, ItemsOf(sc, Apps)) && FlowsView(p, ItemsOf(sc, Flows))
    && Has(sc, Free5gc, Obj(p.runtime.free5gc)) && Has(sc, Ns3, Obj(p.runtime.ns3))
  }

  lemma SlicesViewed(p: Design, items: seq<Json>)
    requires |items| == |p.slices| && forall i | 0 <= i < |items| :: items[i] == CompileSlice(p.slices[i])
    ensures SlicesView(p, items)
  {
  }

  lemma GnbsViewed(p: Design, items: seq<Json>)
    requires |items| == |p.gnbs| && forall i | 0 <= i < |items| :: items[i] == CompileGnb(p, i)
    ensures GnbsView(p, items)
  {
  }

  lemma UesViewed(p: Design, items: seq<Json>)
    requires |items| == |p.ues| && forall i | 0 <= i < |items| :: items[i] == CompileUe(p, i)
    ensures UesView(p, items)
  {
    forall i | 0 <= i < |items|
      ensures UeView(p, i, items[i])
    {
      UeViewed(p, i);
    }
  }

  lemma AppsViewed(p: Design, items: seq<Json>)
    requires |items| == |p.apps| && forall i | 0 <= i < |items| :: items[i] == CompileApp(p, i)
    ensures AppsView(p, items)
  {
  }

  lemma FlowsViewed(p: Design, items: seq<Json>)
    requires |items| == |p.flows| && forall i | 0 <= i < |items| :: items[i] == CompileFlow(p, i)
    ensures FlowsView(p, items)
  {
    forall i | 0 <= i < |items|
      ensures FlowView(p, i, items[i])
    {
      FlowViewed(p, i);
    }
  }

  function SliceItems(p: Design): (items: seq<Json>)
    ensures |items| == |p.slices| && forall i | 0 <= i < |items| :: items[i] == CompileSlice(p.slices[i])
  {
    seq(|p.slices|, i requires 0 <= i < |p.slices| => CompileSlice(p.slices[i]))
  }

  lemma Sections(p: Design)
    ensures var sc := ScenarioOf(p);
            && ItemsOf(sc, Slices) == SliceItems(p)
            && |ItemsOf(sc, Upfs)| == |p.upfs|
            && |ItemsOf(sc, Gnbs)| == |p.gnbs|
            && |ItemsOf(sc, Ues)| == |p.ues|
            && |ItemsOf(sc, Apps)| == |p.apps|
            && |ItemsOf(sc, Flows)| == |p.flows|
            && (forall i | 0 <= i < |p.upfs| :: ItemsOf(sc, Upfs)[i] == CompileUpf(p.upfs[i]))
            && (forall i | 0 <= i < |p.gnbs| :: ItemsOf(sc, Gnbs)[i] == CompileGnb(p, i))
            && (forall i | 0 <= i < |p.ues| :: ItemsOf(sc, Ues)[i] == CompileUe(p, i))
            && (forall i | 0 <= i < |p.apps| :: ItemsOf(sc, Apps)[i] == CompileApp(p, i))
            && (forall i | 0 <= i < |p.flows| :: ItemsOf(sc, Flows)[i] == CompileFlow(p, i))
            && Has(sc, Free5gc, Obj(p.runtime.free5gc)) && Has(sc, Ns3, Obj(p.runtime.ns3))
  {
  }

  lemma Viewed(p: Design)
    ensures View(p, ScenarioOf(p))
  {
    var sc := ScenarioOf(p);
    Sections(p);
    SlicesViewed(p, ItemsOf(sc, Slices));
    GnbsViewed(p, ItemsOf(sc, Gnbs));
    UesViewed(p, ItemsOf(sc, Ues));
    AppsViewed(p, ItemsOf(sc, Apps));
    FlowsViewed(p, ItemsOf(sc, Flows));
  }

  lemma RootsOk(p: Design)
    ensures RootOk(ScenarioOf(p)) && OverlayOk(OverlayOf(p))
  {
  }

  function Labels(p: Design): (names: seq<string>)
    ensures |names| == |p.slices| && forall i | 0 <= i < |names| :: names[i] == LabelOf(p.slices[i])
  {
    seq(|p.slices|, i requires 0 <= i < |p.slices| => LabelOf(p.slices[i]))
  }

  function Supis(p: Design): (names: seq<string>)
    ensures |names| == |p.ues| && forall i | 0 <= i < |names| :: names[i] == SupiAt(i)
  {
    seq(|p.ues|, i requires 0 <= i < |p.ues| => SupiAt(i))
  }

  function AppIds(p: Design): (names: seq<string>)
    ensures |names| == |p.apps| && forall i | 0 <= i < |names| :: names[i] == AppIdAt(i)
  {
    seq(|p.apps|, i requires 0 <= i < |p.apps| => AppIdAt(i))
  }

  function FlowIdList(p: Design): (names: seq<string>)
    ensures |names| == |p.flows| && forall i | 0 <= i < |names| :: names[i] == FlowIdAt(i)
  {
    seq(|p.flows|, i requires 0 <= i < |p.flows| => FlowIdAt(i))
  }

  lemma LabelsOk(p: Design)
    requires Schema(p)
    ensures NamesOk(Labels(p)) <==> SlicesDiffer(p)
    ensures forall i | 0 <= i < |p.slices| :: Strip(Labels(p)[i]) == LabelOf(p.slices[i])
  {
    forall i | 0 <= i < |p.slices|
      ensures Strip(Labels(p)[i]) == LabelOf(p.slices[i]) != ""
    {
      LabelSolid(p.slices[i]);
      StripFixes(LabelOf(p.slices[i]));
    }
    forall i, j | 0 <= i < j < |p.slices|
      ensures Labels(p)[i] == Labels(p)[j] <==>
                p.slices[i].sst == p.slices[j].sst && Lower(p.slices[i].sd) == Lower(p.slices[j].sd)
    {
      LabelInjective(p.slices[i], p.slices[j]);
    }
  }

  lemma NumbersOk(p: Design)
    ensures NamesOk(Supis(p)) && NamesOk(AppIds(p)) && NamesOk(FlowIdList(p))
  {
    forall i: nat
      ensures Strip(SupiAt(i)) == SupiAt(i) != "" && Strip(AppIdAt(i)) == AppIdAt(i) != "" && Strip(FlowIdAt(i)) == FlowIdAt(i) != ""
    {
      IdsSolid(i);
      StripFixes(SupiAt(i));
      StripFixes(AppIdAt(i));
      StripFixes(FlowIdAt(i));
    }
    forall i: nat, j: nat
      ensures (SupiAt(i) == SupiAt(j) ==> i == j) && (AppIdAt(i) == AppIdAt(j) ==> i == j) && (FlowIdAt(i) == FlowIdAt(j) ==> i == j)
    {
      NumbersInjective(i, j);
    }
  }

  lemma IdentifiersExact(py: Python, p: Design, sc: Json)
    requires View(p, sc) && Schema(p)
    ensures IdentifiersOk(py, sc) <==> SlicesDiffer(p) && NamesDiffer(p)
  {
    UniqueNames(py, ItemsOf(sc, Slices), Label, Labels(p));
    UniqueNames(py, ItemsOf(sc, Upfs), Name, Keys(p.upfs, NameOfUpf));
    UniqueNames(py, ItemsOf(sc, Gnbs), Name, Keys(p.gnbs, NameOfGnb));
    UniqueNames(py, ItemsOf(sc, Ues), Name, Keys(p.ues, NameOfUe));
    UniqueNames(py, ItemsOf(sc, Ues), Supi, Supis(p));
    UniqueNames(py, ItemsOf(sc, Apps), AppId, AppIds(p));
    UniqueNames(py, ItemsOf(sc, Flows), FlowId, FlowIdList(p));
    LabelsOk(p);
    NumbersOk(p);
  }

  // ---- The sessions of a UE ----

  function SessionsOfApp(p: Design, a: nat): seq<Json>
    requires a < |p.apps|
  {
    AppSessions(p, p.apps[a], FlowsOfApp(p.flows, p.apps[a].key))
  }

  lemma {:induction false} SessionOrigin(p: Design, ueKey: string, n: nat, session: Json)
    requires n <= |p.apps| && session in UeSessions(p, ueKey, n)
    ensures exists a :: 0 <= a < |p.apps| && p.apps[a].ueKey == ueKey && session in SessionsOfApp(p, a)
  {
    if session in UeSessions(p, ueKey, n - 1) {
      SessionOrigin(p, ueKey, n - 1, session);
    } else {
      assert session in SessionsOfApp(p, n - 1);
    }
  }

  /** What one step of an accumulation adds stays in it. */
  lemma {:induction false} Accumulates<T>(total: nat -> seq<T>, part: nat -> seq<T>, n: nat, a: nat, x: T)
    requires forall k {:trigger total(k)} | 0 < k <= n :: total(k) == total(k - 1) + part(k - 1)
    requires a < n && x in part(a)
    ensures x in total(n)
  {
    assert total(n) == total(n - 1) + part(n - 1);
    if a < n - 1 {
      Accumulates(total, part, n - 1, a, x);
    }
  }

  function OwnSessions(p: Design, ueKey: string, a: nat): seq<Json> {
    if a < |p.apps| && p.apps[a].ueKey == ueKey then SessionsOfApp(p, a) else []
  }

  function SessionsUpTo(p: Design, ueKey: string): nat -> seq<Json> {
    (n: nat) => if n <= |p.apps| then UeSessions(p, ueKey, n) else []
  }

  function SessionsAt(p: Design, ueKey: string): nat -> seq<Json> {
    (a: nat) => OwnSessions(p, ueKey, a)
  }

  lemma UeSessionsStep(p: Design, ueKey: string, n: nat)
    requires 0 < n <= |p.apps|
    ensures SessionsUpTo(p, ueKey)(n) == SessionsUpTo(p, ueKey)(n - 1) + SessionsAt(p, ueKey)(n - 1)
  {
  }

  lemma UeSessionsSteps(p: Design, ueKey: string, n: nat)
    requires n <= |p.apps|
    ensures forall k {:trigger SessionsUpTo(p, ueKey)(k)} | 0 < k <= n ::
              SessionsUpTo(p, ueKey)(k) == SessionsUpTo(p, ueKey)(k - 1) + SessionsAt(p, ueKey)(k - 1)
  {
    forall k | 0 < k <= n {
      UeSessionsStep(p, ueKey, k);
    }
  }

  lemma SessionPresent(p: Design, ueKey: string, n: nat, session: Json, a: nat)
    requires a < n <= |p.apps| && session in SessionsAt(p, ueKey)(a)
    ensures session in SessionsUpTo(p, ueKey)(n)
  {
    UeSessionsSteps(p, ueKey, n);
    Accumulates(SessionsUpTo(p, ueKey), SessionsAt(p, ueKey), n, a, session);
  }

  lemma SessionsAtIs(p: Design, a: nat)
    requires a < |p.apps|
    ensures SessionsAt(p, p.apps[a].ueKey)(a) == SessionsOfApp(p, a)
  {
  }

  lemma SessionsUpToIs(p: Design, ueKey: string)
    ensures SessionsUpTo(p, ueKey)(|p.apps|) == UeSessions(p, ueKey, |p.apps|)
  {
  }

  /** A session of an app is a session of the app's UE. */
  lemma SessionOfUe(p: Design, a: nat, session: Json)
    requires a < |p.apps| && session in SessionsOfApp(p, a)
    ensures session in UeSessions(p, p.apps[a].ueKey, |p.apps|)
  {
    SessionsAtIs(p, a);
    SessionsUpToIs(p, p.apps[a].ueKey);
    SessionPresent(p, p.apps[a].ueKey, |p.apps|, session, a);
  }

  lemma {:induction false} OwnFlow(flows: seq<Flow>, i: nat)
    requires i < |flows|
    ensures flows[i] in FlowsOfApp(flows, flows[i].appKey)
  {
    var n := |flows| - 1;
    if i < n {
      OwnFlow(flows[..n], i);
    }
  }

  /** Which slice a session of an app is for. */
  lemma SessionSlice(p: Design, a: nat, session: Json) returns (k: string)
    requires a < |p.apps| && session in SessionsOfApp(p, a)
    ensures k in SliceOrder(FlowsOfApp(p.flows, p.apps[a].key)) && SessionView(p, p.apps[a], k, session)
  {
    var own := FlowsOfApp(p.flows, p.apps[a].key);
    var order, sessions := SliceOrder(own), SessionsOfApp(p, a);
    var i :| 0 <= i < |sessions| && sessions[i] == session;
    k := order[i];
    SessionViewed(p, p.apps[a], k, Best(OnSlice(own, k)));
  }

  lemma OwnSessionOf(p: Design, a: nat, i: nat) returns (session: Json)
    requires a < |p.apps| && i < |p.flows| && p.flows[i].appKey == p.apps[a].key
    ensures session in SessionsOfApp(p, a) && SessionView(p, p.apps[a], p.flows[i].sliceKey, session)
  {
    OwnFlow(p.flows, i);
    var own, k := FlowsOfApp(p.flows, p.apps[a].key), p.flows[i].sliceKey;
    assert p.flows[i] in own && k in SliceOrder(own);
    var j :| 0 <= j < |SliceOrder(own)| && SliceOrder(own)[j] == k;
    session := SessionsOfApp(p, a)[j];
    SessionViewed(p, p.apps[a], k, Best(OnSlice(own, k)));
  }

  /** The session that carries flow `i` of app `a`. */
  lemma FlowSessionPresent(p: Design, a: nat, i: nat) returns (session: Json)
    requires a < |p.apps| && i < |p.flows| && p.flows[i].appKey == p.apps[a].key
    ensures session in UeSessions(p, p.apps[a].ueKey, |p.apps|)
    ensures SessionView(p, p.apps[a], p.flows[i].sliceKey, session)
  {
    session := OwnSessionOf(p, a, i);
    SessionOfUe(p, a, session);
  }

  lemma UeHasSession(p: Design, u: nat)
    requires AppsUsed(p) && UesUsed(p) && u < |p.ues|
    ensures UeSessions(p, p.ues[u].key, |p.apps|) != []
  {
    assert UeUsed(p.apps, p.ues[u].key);
    var a :| 0 <= a < |p.apps| && p.apps[a].ueKey == p.ues[u].key;
    assert AppUsed(p.flows, p.apps[a].key);
    var i :| 0 <= i < |p.flows| && p.flows[i].appKey == p.apps[a].key;
    var session := FlowSessionPresent(p, a, i);
  }

  // ---- Loader contract ----

  lemma LoaderSlicesOk(py: Python, s: Slice, j: Json)
    requires SliceView(s, j) && SliceSchema(s)
    ensures LoaderSliceOk(py, j)
  {
    LabelSolid(s);
    CleanText(py, Lower(s.sd));
    StripFixes(LabelOf(s));
    LowerTwice(s.sd);
  }

  lemma LowerTwice(s: string)
    ensures Lower(Lower(s)) == Lower(s)
  {
  }

  /** The identifiers of a session survive cleaning. */
  lemma SessionClean(py: Python, p: Design, app: App, k: string, session: Json)
    requires SessionView(p, app, k, session) && SliceSchema(SliceOf(p, k))
    ensures py.Clean(session.Get(SliceRef)) == LabelOf(SliceOf(p, k)) != ""
    ensures py.Clean(session.Get(AppId)) == AppIdAt(AppAt(p, app.key)) != ""
  {
    LabelSolid(SliceOf(p, k));
    IdsSolid(AppAt(p, app.key));
    CleanText(py, LabelOf(SliceOf(p, k)));
    CleanText(py, AppIdAt(AppAt(p, app.key)));
  }

  /** Where a session of a UE comes from, and what cleaning makes of it. */
  lemma UeSessionFacts(py: Python, p: Design, ueKey: string, session: Json) returns (a: nat, k: string)
    requires FlowRefs(p) && Schema(p) && session in UeSessions(p, ueKey, |p.apps|)
    ensures a < |p.apps| && p.apps[a].ueKey == ueKey
    ensures k in SliceOrder(FlowsOfApp(p.flows, p.apps[a].key)) && HasSlice(p, k) && SessionView(p, p.apps[a], k, session)
    ensures py.Clean(session.Get(SliceRef)) == LabelOf(SliceOf(p, k)) != ""
    ensures py.Clean(session.Get(AppId)) == AppIdAt(AppAt(p, p.apps[a].key)) != ""
  {
    SessionOrigin(p, ueKey, |p.apps|, session);
    a :| 0 <= a < |p.apps| && p.apps[a].ueKey == ueKey && session in SessionsOfApp(p, a);
    k := SessionSlice(p, a, session);
    SessionSliceKnown(p, a, k);
    SessionClean(py, p, p.apps[a], k, session);
  }

  lemma SessionsLoad(py: Python, p: Design, ueKey: string)
    requires FlowRefs(p) && Schema(p)
    ensures var sessions := UeSessions(p, ueKey, |p.apps|);
            forall n | 0 <= n < |sessions| :: LoaderSessionOk(py, sessions[n])
  {
    var sessions := UeSessions(p, ueKey, |p.apps|);
    forall n | 0 <= n < |sessions|
      ensures LoaderSessionOk(py, sessions[n])
    {
      var a, k := UeSessionFacts(py, p, ueKey, sessions[n]);
    }
  }

  lemma SolidClean(py: Python, s: string)
    requires Solid(s)
    ensures py.Clean(Text(s)) != ""
  {
    CleanText(py, s);
  }

  lemma DefaultsClean(py: Python)
    ensures py.Clean(Text(DEFAULT_UE_KEY)) != "" && py.Clean(Text(DEFAULT_UE_OP)) != ""
  {
    SolidClean(py, DEFAULT_UE_KEY);
    SolidClean(py, DEFAULT_UE_OP);
  }

  lemma LoaderUesOk(py: Python, p: Design, i: nat, j: Json)
    requires i < |p.ues| && UeView(p, i, j) && AppsUsed(p) && UesUsed(p) && FlowRefs(p) && Schema(p)
    ensures LoaderUeOk(py, j)
  {
    DefaultsClean(py);
    UeHasSession(p, i);
    SessionsLoad(py, p, p.ues[i].key);
    assert j.Get(Sessions).items == UeSessions(p, p.ues[i].key, |p.apps|);
  }

  lemma SliceOfKnown(p: Design, k: string)
    requires HasSlice(p, k)
    ensures SliceOf(p, k) in p.slices && SliceOf(p, k).key == k
    ensures At(Keys(p.slices, SliceKey), k) < |p.slices| && SliceOf(p, k) == p.slices[At(Keys(p.slices, SliceKey), k)]
    ensures Schema(p) ==> SliceSchema(SliceOf(p, k))
  {
  }

  lemma SessionSliceKnown(p: Design, a: nat, k: string)
    requires a < |p.apps| && FlowRefs(p) && k in SliceOrder(FlowsOfApp(p.flows, p.apps[a].key))
    ensures HasSlice(p, k)
    ensures Schema(p) ==> SliceSchema(SliceOf(p, k))
  {
    var own := FlowsOfApp(p.flows, p.apps[a].key);
    var f := OnSlice(own, k)[0];
    assert f in own;
    var i :| 0 <= i < |p.flows| && p.flows[i] == f;
    SliceOfKnown(p, k);
  }

  lemma LoaderExact(py: Python, p: Design, sc: Json)
    requires View(p, sc) && Schema(p) && AppsUsed(p) && UesUsed(p) && FlowRefs(p)
    ensures LoaderOk(py, sc) <==> RuntimeOk(py, p)
  {
    forall i | 0 <= i < |p.slices|
      ensures LoaderSliceOk(py, ItemsOf(sc, Slices)[i])
    {
      LoaderSlicesOk(py, p.slices[i], ItemsOf(sc, Slices)[i]);
    }
    forall i | 0 <= i < |p.ues|
      ensures LoaderUeOk(py, ItemsOf(sc, Ues)[i])
    {
      LoaderUesOk(py, p, i, ItemsOf(sc, Ues)[i]);
    }
  }

  // ---- Service levels ----

  lemma SlaFieldsExact(py: Python, s: Sla, j: Json)
    requires j == CompileSla(s)
    requires s.latency > 0.0 && s.jitter >= 0.0 && s.lossRate >= 0.0 && s.bandwidthDl >= 0.0 && s.bandwidthUl >= 0.0
    requires s.guaranteedDl >= 0.0 && s.guaranteedUl >= 0.0 && s.priority >= 1
    ensures forall k | 0 <= k < |SLA_FIELDS| :: SlaFieldOk(py, j, SLA_FIELDS[k])
  {
    SlaView(s, j);
    forall k | 0 <= k < |SLA_FIELDS|
      ensures SlaFieldOk(py, j, SLA_FIELDS[k])
    {
      assert SLA_FIELDS[k] in {LatencyMs, JitterMs, LossRate, BandwidthDl, BandwidthUl, GuaranteedBandwidthDl,
                               GuaranteedBandwidthUl, Priority};
    }
  }

  lemma SlaAmounts(py: Python, s: Sla, j: Json)
    requires j == CompileSla(s)
    ensures Amount(py, j.Get(BandwidthDl)) == s.bandwidthDl && Amount(py, j.Get(BandwidthUl)) == s.bandwidthUl
    ensures Amount(py, j.Get(GuaranteedBandwidthDl)) == s.guaranteedDl
    ensures Amount(py, j.Get(GuaranteedBandwidthUl)) == s.guaranteedUl
    ensures Amount(py, j.Get(Priority)) == s.priority as real
  {
    SlaView(s, j);
  }

  lemma SlaFlowExact(py: Python, f: Flow, j: Json, sla: Json)
    requires sla == CompileSla(f.sla) && Has(j, SlaTarget, sla)
    requires Has(j, AllocatedDl, Real(f.dlShare)) && Has(j, AllocatedUl, Real(f.ulShare)) && FlowSchema(f)
    ensures SlaFlowOk(py, j) <==> SlaSound(f)
  {
    SlaFieldsExact(py, f.sla, sla);
    SlaAmounts(py, f.sla, sla);
    assert j.Get(SlaTarget) == sla;
    assert j.Get(AllocatedDl) == Real(f.dlShare) && j.Get(AllocatedUl) == Real(f.ulShare);
    assert AllocationOk(py, j, AllocatedDl, GuaranteedBandwidthDl) <==> f.dlShare >= f.sla.guaranteedDl;
    assert AllocationOk(py, j, AllocatedUl, GuaranteedBandwidthUl) <==> f.ulShare >= f.sla.guaranteedUl;
  }

  lemma SlaView(s: Sla, j: Json)
    requires j == CompileSla(s)
    ensures Has(j, LatencyMs, Real(s.latency)) && Has(j, JitterMs, Real(s.jitter)) && Has(j, LossRate, Real(s.lossRate))
    ensures Has(j, BandwidthDl, Real(s.bandwidthDl)) && Has(j, BandwidthUl, Real(s.bandwidthUl))
    ensures Has(j, GuaranteedBandwidthDl, Real(s.guaranteedDl)) && Has(j, GuaranteedBandwidthUl, Real(s.guaranteedUl))
    ensures Has(j, Priority, Num(Int(s.priority)))
  {
  }

  lemma SlaExact(py: Python, p: Design, sc: Json)
    requires View(p, sc) && Schema(p)
    ensures SlaOk(py, sc) <==> SlasSound(p)
  {
    forall i | 0 <= i < |p.flows|
      ensures SlaFlowOk(py, ItemsOf(sc, Flows)[i]) <==> SlaSound(p.flows[i])
    {
      SlaFlowExact(py, p.flows[i], ItemsOf(sc, Flows)[i], CompileSla(p.flows[i].sla));
    }
  }

  // ---- Capacity ----

  /** What one flow adds to a slice. */
  lemma RequestStep(py: Python, p: Design, i: nat, j: Json, s: Slice)
    requires i < |p.flows| && FlowView(p, i, j) && FlowRefs(p) && Schema(p) && SlicesDiffer(p) && KeysUnique(p) && s in p.slices
    ensures j.Obj? && (py.Clean(j.Get(SliceRef)) == LabelOf(s) <==> p.flows[i].sliceKey == s.key)
    ensures Amount(py, j.Get(SlaTarget).Get(GuaranteedBandwidthDl)) == p.flows[i].sla.guaranteedDl
    ensures Amount(py, j.Get(SlaTarget).Get(GuaranteedBandwidthUl)) == p.flows[i].sla.guaranteedUl
  {
    FlowSlice(py, p, i, j, s);
    SlaAmounts(py, p.flows[i].sla, j.Get(SlaTarget));
  }

  lemma {:induction false} RequestedIsPromised(py: Python, p: Design, flows: seq<Json>, s: Slice, n: nat)
    requires n <= |p.flows| == |flows|
    requires forall i | 0 <= i < n ::
               && flows[i].Obj? && (py.Clean(flows[i].Get(SliceRef)) == LabelOf(s) <==> p.flows[i].sliceKey == s.key)
               && Amount(py, flows[i].Get(SlaTarget).Get(GuaranteedBandwidthDl)) == p.flows[i].sla.guaranteedDl
               && Amount(py, flows[i].Get(SlaTarget).Get(GuaranteedBandwidthUl)) == p.flows[i].sla.guaranteedUl
    ensures Requested(py, flows[..n], LabelOf(s), GuaranteedBandwidthDl) == Promised(p.flows[..n], s.key).0
    ensures Requested(py, flows[..n], LabelOf(s), GuaranteedBandwidthUl) == Promised(p.flows[..n], s.key).1
  {
    if n > 0 {
      RequestedIsPromised(py, p, flows, s, n - 1);
      assert flows[..n][..n - 1] == flows[..n - 1] && p.flows[..n][..n - 1] == p.flows[..n - 1];
      assert flows[..n][n - 1] == flows[n - 1] && p.flows[..n][n - 1] == p.flows[n - 1];
    }
  }

  lemma SliceRequests(py: Python, p: Design, flows: seq<Json>, s: Slice)
    requires FlowsView(p, flows)
    requires FlowRefs(p) && Schema(p) && SlicesDiffer(p) && KeysUnique(p) && s in p.slices
    ensures Requested(py, flows, LabelOf(s), GuaranteedBandwidthDl) == Promised(p.flows, s.key).0
    ensures Requested(py, flows, LabelOf(s), GuaranteedBandwidthUl) == Promised(p.flows, s.key).1
  {
    forall i | 0 <= i < |flows|
      ensures flows[i].Obj? && (py.Clean(flows[i].Get(SliceRef)) == LabelOf(s) <==> p.flows[i].sliceKey == s.key)
      ensures Amount(py, flows[i].Get(SlaTarget).Get(GuaranteedBandwidthDl)) == p.flows[i].sla.guaranteedDl
      ensures Amount(py, flows[i].Get(SlaTarget).Get(GuaranteedBandwidthUl)) == p.flows[i].sla.guaranteedUl
    {
      RequestStep(py, p, i, flows[i], s);
    }
    RequestedIsPromised(py, p, flows, s, |flows|);
    assert flows[..|flows|] == flows && p.flows[..|flows|] == p.flows;
  }

  /** A flow's reference names the slice exactly when its key does. */
  lemma FlowSlice(py: Python, p: Design, i: nat, j: Json, s: Slice)
    requires i < |p.flows| && FlowView(p, i, j) && FlowRefs(p) && Schema(p) && SlicesDiffer(p) && KeysUnique(p) && s in p.slices
    ensures py.Clean(j.Get(SliceRef)) == LabelOf(s) <==> p.flows[i].sliceKey == s.key
    ensures py.Clean(j.Get(SliceRef)) == LabelOf(SliceOf(p, p.flows[i].sliceKey))
  {
    var k := p.flows[i].sliceKey;
    SliceOfKnown(p, k);
    LabelSolid(SliceOf(p, k));
    CleanText(py, LabelOf(SliceOf(p, k)));
    LabelInjective(SliceOf(p, k), s);
    var b := At(Keys(p.slices, SliceKey), k);
    var a :| 0 <= a < |p.slices| && p.slices[a] == s;
    assert p.slices[b] == SliceOf(p, k);
    assert Keys(p.slices, SliceKey)[a] == s.key && Keys(p.slices, SliceKey)[b] == k;
    assert a == b <==> s.key == k;
    assert a == b <==> LabelOf(SliceOf(p, k)) == LabelOf(s);
  }

  lemma SliceTexts(p: Design, slices: seq<Json>)
    requires SlicesView(p, slices)
    ensures Holds(slices, Label, Labels(p))
  {
  }

  lemma SliceCapacity(py: Python, p: Design, slices: seq<Json>, i: nat)
    requires SlicesView(p, slices) && Schema(p) && SlicesDiffer(p) && i < |p.slices|
    ensures LabelOf(p.slices[i]) in Capacities(py, slices)
    ensures Capacities(py, slices)[LabelOf(p.slices[i])] == (p.slices[i].resource.capacityDl, p.slices[i].resource.capacityUl)
  {
    SliceIsThe(py, p, slices, i);
    CapacitiesFind(py, slices, LabelOf(p.slices[i]), i);
    assert slices[i].Get(Resource) == CompileResource(p.slices[i].resource);
    ResourceAmounts(py, p.slices[i].resource);
  }

  lemma SliceIsThe(py: Python, p: Design, slices: seq<Json>, i: nat)
    requires SlicesView(p, slices) && Schema(p) && SlicesDiffer(p) && i < |p.slices|
    ensures IsThe(py, slices, Label, LabelOf(p.slices[i]), i)
    ensures forall k | 0 <= k < |slices| :: IdOf(py, slices[k], Label).Some?
  {
    LabelsOk(p);
    SliceTexts(p, slices);
    TheOne(py, slices, Label, Labels(p), i);
    UniqueNames(py, slices, Label, Labels(p));
    AllPresent(py, slices, Label);
  }

  lemma ResourceAmounts(py: Python, r: SliceResource)
    ensures Amount(py, CompileResource(r).Get(CapacityDl)) == r.capacityDl
    ensures Amount(py, CompileResource(r).Get(CapacityUl)) == r.capacityUl
  {
  }

  lemma AllPresent(py: Python, items: seq<Json>, f: Field)
    requires UniqueOk(py, items, f)
    ensures forall k | 0 <= k < |items| :: IdOf(py, items[k], f).Some?
  {
    assert forall k | 0 <= k < |items| :: IdList(py, items, f)[k] == IdOf(py, items[k], f);
  }

  lemma SliceExact(py: Python, p: Design, flows: seq<Json>, slices: seq<Json>, i: nat)
    requires FlowsView(p, flows) && SlicesView(p, slices)
    requires Schema(p) && SlicesDiffer(p) && KeysUnique(p) && FlowRefs(p) && i < |p.slices|
    ensures LabelOf(p.slices[i]) in Capacities(py, slices)
    ensures SliceFits(py, flows, LabelOf(p.slices[i]), Capacities(py, slices)[LabelOf(p.slices[i])]) <==> FitsPlan(p, p.slices[i])
  {
    SliceCapacity(py, p, slices, i);
    SliceRequests(py, p, flows, p.slices[i]);
  }

  lemma UnaskedFits(py: Python, p: Design, flows: seq<Json>, i: nat)
    requires FlowsView(p, flows)
    requires Schema(p) && SlicesDiffer(p) && KeysUnique(p) && FlowRefs(p) && i < |p.slices|
    requires LabelOf(p.slices[i]) !in RequestedSlices(py, flows)
    ensures FitsPlan(p, p.slices[i])
  {
    NothingRequested(py, flows, LabelOf(p.slices[i]));
    SliceRequests(py, p, flows, p.slices[i]);
    assert SliceSchema(p.slices[i]);
  }

  lemma RequestedAreLabels(py: Python, p: Design, flows: seq<Json>, name: string)
    requires FlowsView(p, flows) && name in RequestedSlices(py, flows)
    requires Schema(p) && SlicesDiffer(p) && KeysUnique(p) && FlowRefs(p)
    ensures exists i :: 0 <= i < |p.slices| && LabelOf(p.slices[i]) == name
  {
    var flow :| flow in flows && flow.Obj? && py.Clean(flow.Get(SliceRef)) == name;
    var i :| 0 <= i < |flows| && flows[i] == flow;
    SliceOfKnown(p, p.flows[i].sliceKey);
    FlowSlice(py, p, i, flow, SliceOf(p, p.flows[i].sliceKey));
  }

  lemma CapacityExact(py: Python, p: Design, sc: Json)
    requires View(p, sc) && Schema(p) && SlicesDiffer(p) && KeysUnique(p) && FlowRefs(p)
    ensures CapacityOk(py, sc) <==> CapacitySound(p)
  {
    var flows, slices := ItemsOf(sc, Flows), ItemsOf(sc, Slices);
    var capacities := Capacities(py, slices);
    if CapacityOk(py, sc) {
      forall i | 0 <= i < |p.slices|
        ensures FitsPlan(p, p.slices[i])
      {
        SliceExact(py, p, flows, slices, i);
        if LabelOf(p.slices[i]) !in RequestedSlices(py, flows) {
          UnaskedFits(py, p, flows, i);
        }
      }
    }
    if CapacitySound(p) {
      forall name | name in RequestedSlices(py, flows) && name in capacities
        ensures SliceFits(py, flows, name, capacities[name])
      {
        RequestedAreLabels(py, p, flows, name);
        var i :| 0 <= i < |p.slices| && LabelOf(p.slices[i]) == name;
        SliceExact(py, p, flows, slices, i);
      }
    }
  }
}
