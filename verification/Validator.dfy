/** The independent scenario validator of src/environment/compiler.py.

    Each check is stated as the condition under which it reports nothing, and each validating loop is
    proved to report nothing exactly then.  A value the loops cannot iterate over raises, which is
    modelled as one more error. */
module Validator {
  import opened Strings
  import opened Documents
  import opened Hiding

  datatype Candidate = Candidate(scenarioId: string, name: string, scenario: Json, overlay: Json)

  const ROOT_FIELDS: seq<Field> :=
    [Name, ScenarioId, TickMs, Seed, Slices, Upfs, Gnbs, Ues, Apps, Flows, Free5gc, Ns3, Writer, Topology, Bridge]
  const COLLECTIONS: seq<Field> := [Slices, Upfs, Gnbs, Ues, Apps, Flows]
  const CAPACITY_FIELDS: seq<Field> := [CapacityDl, CapacityUl, GuaranteedDl, GuaranteedUl]
  const SLA_FIELDS: seq<Field> :=
    [LatencyMs, JitterMs, LossRate, BandwidthDl, BandwidthUl, GuaranteedBandwidthDl, GuaranteedBandwidthUl, Priority]
  const OVERLAY_FIELDS: seq<Field> := [Name, ScenarioId, BaseScenario, Ns3, RuntimeMode, Radio]
  const OVERLAY_SECTIONS: seq<Field> := [Ns3, RuntimeMode, Radio]

  function ItemsOf(scenario: Json, f: Field): seq<Json> {
    if scenario.Get(f).List? then scenario.Get(f).items else []
  }

  /** `str(value or default).strip()` */
  function CleanOr(py: Python, j: Json, default: string): string {
    if j.Truthy() then Strip(py.Str(j)) else default
  }

  function Signed(i: int): string {
    if i < 0 then "-" + Decimal(-i, 1) else Decimal(i, 1)
  }

  function SliceLabel(sst: int, sd: string): string {
    "slice-" + Signed(sst) + "-" + Lower(sd)
  }

  // ---- Root fields ----

  ghost predicate RootOk(scenario: Json) {
    HasFields(scenario, ROOT_FIELDS) && forall k | 0 <= k < |COLLECTIONS| :: scenario.Get(COLLECTIONS[k]).List?
  }

  method ValidateRootFields(scenario: Json) returns (errors: seq<string>)
    requires scenario.Obj?
    ensures errors == [] <==> RootOk(scenario)
  {
    errors := CheckFields(scenario, ROOT_FIELDS);
    ghost var missing := errors;
    assert forall k | 0 <= k < |COLLECTIONS| :: COLLECTIONS[k] == ROOT_FIELDS[k + 4];
    for i := 0 to |COLLECTIONS|
      invariant errors == [] <==>
                missing == [] && forall k | 0 <= k < i && COLLECTIONS[k] in scenario.fields :: scenario.Get(COLLECTIONS[k]).List?
    {
      if COLLECTIONS[i] in scenario.fields && !scenario.Get(COLLECTIONS[i]).List? {
        errors := errors + ["root field must be a list"];
      }
    }
  }

  // ---- What the scenario loader needs ----

  ghost predicate CapacityFieldOk(py: Python, resource: Json, f: Field) {
    resource.Obj? && f in resource.fields && !resource.fields[f].Bool? && NonNegative(py, resource.fields[f])
  }

  /** `float(value)` is finite and not negative. */
  predicate NonNegative(py: Python, j: Json) {
    var x := py.ToFloat(j);
    x.Some? && AsReal(x.value).Some? && AsReal(x.value).value >= 0.0
  }

  ghost predicate LoaderSliceOk(py: Python, item: Json) {
    item.Obj? ==>
      var sst, sd := SstOf(py, item), py.Clean(item.Get(Sd));
      && sst.Some? && sd != ""
      && CleanOr(py, item.Get(Label), "<unknown>") == SliceLabel(sst.value, sd)
      && item.Get(Resource).Obj?
      && forall k | 0 <= k < |CAPACITY_FIELDS| :: CapacityFieldOk(py, item.Get(Resource), CAPACITY_FIELDS[k])
  }

  function SstOf(py: Python, item: Json): Option<int>
    requires item.Obj?
  {
    if Sst !in item.fields || item.fields[Sst].Bool? then None else py.ToInt(item.fields[Sst])
  }

  ghost predicate LoaderSessionOk(py: Python, session: Json) {
    session.Obj? && py.Clean(session.Get(SliceRef)) != "" && py.Clean(session.Get(AppId)) != ""
  }

  ghost predicate LoaderUeOk(py: Python, item: Json) {
    item.Obj? ==>
      && py.Clean(item.Get(SimKey)) != "" && py.Clean(item.Get(Op)) != ""
      && item.Get(Free5gcPolicy).Obj?
      && item.Get(Sessions).List? && item.Get(Sessions).items != []
      && forall k | 0 <= k < |item.Get(Sessions).items| :: LoaderSessionOk(py, item.Get(Sessions).items[k])
  }

  ghost predicate LoaderRuntimeOk(py: Python, scenario: Json) {
    && scenario.Get(Free5gc).Obj? && scenario.Get(Ns3).Obj?
    && py.Clean(scenario.Get(Free5gc).Get(ComposeFile)) != ""
    && py.Clean(scenario.Get(Free5gc).Get(ConfigRoot)) != ""
    && py.Clean(scenario.Get(Ns3).Get(Ns3Root)) != ""
  }

  ghost predicate LoaderOk(py: Python, scenario: Json) {
    && (forall i | 0 <= i < |ItemsOf(scenario, Slices)| :: LoaderSliceOk(py, ItemsOf(scenario, Slices)[i]))
    && (forall i | 0 <= i < |ItemsOf(scenario, Ues)| :: LoaderUeOk(py, ItemsOf(scenario, Ues)[i]))
    && LoaderRuntimeOk(py, scenario)
  }

  method ValidateLoaderSlice(py: Python, item: Json) returns (errors: seq<string>)
    requires item.Obj?
    ensures errors == [] <==> LoaderSliceOk(py, item)
  {
    errors := [];
    var shown := CleanOr(py, item.Get(Label), "<unknown>");
    var sst := SstOf(py, item);
    if sst.None? {
      errors := errors + ["field sst must be an integer"];
    }
    var sd := py.Clean(item.Get(Sd));
    if sd == "" {
      errors := errors + ["missing field sd"];
    }
    if sst.Some? && sd != "" && shown != SliceLabel(sst.value, sd) {
      errors := errors + ["label must equal derived identifier"];
    }
    var resource := item.Get(Resource);
    if !resource.Obj? {
      errors := errors + ["resource must be a mapping"];
      return;
    }
    ghost var before := errors;
    for i := 0 to |CAPACITY_FIELDS|
      invariant errors == [] <==>
                before == [] && forall k | 0 <= k < i :: CapacityFieldOk(py, resource, CAPACITY_FIELDS[k])
    {
      var found := ValidateCapacityField(py, resource, CAPACITY_FIELDS[i]);
      errors := errors + found;
    }
  }

  method ValidateCapacityField(py: Python, resource: Json, f: Field) returns (errors: seq<string>)
    requires resource.Obj?
    ensures errors == [] <==> CapacityFieldOk(py, resource, f)
  {
    if f !in resource.fields {
      return ["resource missing field"];
    }
    var value := resource.fields[f];
    var numeric := py.ToFloat(value);
    if numeric.None? {
      return ["resource field must be numeric"];
    }
    if value.Bool? || AsReal(numeric.value).None? || AsReal(numeric.value).value < 0.0 {
      return ["resource field must be finite and non-negative"];
    }
    return [];
  }

  method ValidateLoaderUe(py: Python, item: Json) returns (errors: seq<string>)
    requires item.Obj?
    ensures errors == [] <==> LoaderUeOk(py, item)
  {
    errors := [];
    if py.Clean(item.Get(SimKey)) == "" {
      errors := errors + ["missing field key"];
    }
    if py.Clean(item.Get(Op)) == "" {
      errors := errors + ["missing field op"];
    }
    if !item.Get(Free5gcPolicy).Obj? {
      errors := errors + ["free5gc_policy must be a mapping"];
    }
    var sessions := item.Get(Sessions);
    if !sessions.List? || sessions.items == [] {
      errors := errors + ["sessions must be a non-empty list"];
      return;
    }
    ghost var before := errors;
    for i := 0 to |sessions.items|
      invariant errors == [] <==> before == [] && forall k | 0 <= k < i :: LoaderSessionOk(py, sessions.items[k])
    {
      var session := sessions.items[i];
      if !session.Obj? {
        errors := errors + ["session must be a mapping"];
      } else {
        if py.Clean(session.Get(SliceRef)) == "" {
          errors := errors + ["session missing field slice_ref"];
        }
        if py.Clean(session.Get(AppId)) == "" {
          errors := errors + ["session missing field app_id"];
        }
      }
    }
  }

  method ValidateLoaderSliceEntry(py: Python, item: Json) returns (errors: seq<string>)
    ensures errors == [] <==> LoaderSliceOk(py, item)
  {
    errors := [];
    if item.Obj? {
      errors := ValidateLoaderSlice(py, item);
    }
  }

  method ValidateLoaderSlices(py: Python, slices: seq<Json>) returns (errors: seq<string>)
    ensures errors == [] <==> forall i | 0 <= i < |slices| :: LoaderSliceOk(py, slices[i])
  {
    errors := [];
    for i := 0 to |slices|
      invariant errors == [] <==> forall k | 0 <= k < i :: LoaderSliceOk(py, slices[k])
    {
      var found := ValidateLoaderSliceEntry(py, slices[i]);
      errors := errors + found;
    }
  }

  method ValidateLoaderUeEntry(py: Python, item: Json) returns (errors: seq<string>)
    ensures errors == [] <==> LoaderUeOk(py, item)
  {
    errors := [];
    if item.Obj? {
      errors := ValidateLoaderUe(py, item);
    }
  }

  method ValidateLoaderUes(py: Python, ues: seq<Json>) returns (errors: seq<string>)
    ensures errors == [] <==> forall i | 0 <= i < |ues| :: LoaderUeOk(py, ues[i])
  {
    errors := [];
    for i := 0 to |ues|
      invariant errors == [] <==> forall k | 0 <= k < i :: LoaderUeOk(py, ues[k])
    {
      var found := ValidateLoaderUeEntry(py, ues[i]);
      errors := errors + found;
    }
  }

  method ValidateLoaderRuntime(py: Python, scenario: Json) returns (errors: seq<string>)
    ensures errors == [] <==> LoaderRuntimeOk(py, scenario)
  {
    errors := [];
    var free5gc, ns3 := scenario.Get(Free5gc), scenario.Get(Ns3);
    if !free5gc.Obj? {
      errors := errors + ["free5gc must be a mapping"];
    } else {
      if py.Clean(free5gc.Get(ComposeFile)) == "" {
        errors := errors + ["free5gc missing field compose_file"];
      }
      if py.Clean(free5gc.Get(ConfigRoot)) == "" {
        errors := errors + ["free5gc missing field config_root"];
      }
    }
    if !ns3.Obj? {
      errors := errors + ["ns3 must be a mapping"];
    } else if py.Clean(ns3.Get(Ns3Root)) == "" {
      errors := errors + ["ns3 missing field ns3_root"];
    }
  }

  method ValidateLoaderContract(py: Python, scenario: Json) returns (errors: seq<string>)
    ensures errors == [] <==> LoaderOk(py, scenario)
  {
    var slices := ValidateLoaderSlices(py, ItemsOf(scenario, Slices));
    var ues := ValidateLoaderUes(py, ItemsOf(scenario, Ues));
    var runtime := ValidateLoaderRuntime(py, scenario);
    errors := slices + ues + runtime;
  }

  // ---- Identifiers ----

  /** The identifier of an entry, if it has one. */
  function IdOf(py: Python, item: Json, f: Field): Option<string> {
    if item.Obj? && py.Clean(item.Get(f)) != "" then Some(py.Clean(item.Get(f))) else None
  }

  function IdList(py: Python, items: seq<Json>, f: Field): (ids: seq<Option<string>>)
    ensures |ids| == |items| && forall i | 0 <= i < |items| :: ids[i] == IdOf(py, items[i], f)
  {
    seq(|items|, i requires 0 <= i < |items| => IdOf(py, items[i], f))
  }

  function Present(ids: seq<Option<string>>): set<string> {
    set id | id in ids && id.Some? :: id.value
  }

  predicate Distinct(ids: seq<Option<string>>) {
    && (forall i | 0 <= i < |ids| :: ids[i].Some?)
    && (forall i, j | 0 <= i < j < |ids| :: ids[i] != ids[j])
  }

  /** The identifiers of the entries that have one. */
  function Ids(py: Python, items: seq<Json>, f: Field): set<string> {
    Present(IdList(py, items, f))
  }

  predicate UniqueOk(py: Python, items: seq<Json>, f: Field) {
    Distinct(IdList(py, items, f))
  }

  lemma DistinctStep(ids: seq<Option<string>>, id: Option<string>)
    ensures Present(ids + [id]) == Present(ids) + if id.Some? then {id.value} else {}
    ensures Distinct(ids + [id]) <==> Distinct(ids) && id.Some? && id.value !in Present(ids)
  {
    var all := ids + [id];
    assert all[|ids|] == id && forall i | 0 <= i < |ids| :: all[i] == ids[i];
    if Distinct(all) {
      assert forall i | 0 <= i < |ids| :: ids[i] != id;
    }
    if Distinct(ids) && id.Some? && id.value !in Present(ids) {
      assert forall i | 0 <= i < |ids| :: ids[i] in ids && ids[i] != id;
    }
  }

  /** `ids` are the identifiers met so far, and there is an error unless they are all there and distinct;
      kept dormant. */
  ghost predicate Collected(all: seq<Option<string>>, ids: set<string>, errors: seq<string>) {
    forall n: nat {:trigger Asked(n)} :: Asked(n) ==> ids == Present(all) && (errors == [] <==> Distinct(all))
  }

  lemma NoneCollected()
    ensures Collected([], {}, [])
  {
  }

  lemma CollectedMeans(all: seq<Option<string>>, ids: set<string>, errors: seq<string>)
    requires Collected(all, ids, errors)
    ensures ids == Present(all) && (errors == [] <==> Distinct(all))
  {
    assert Asked(0);
  }

  lemma CollectedStep(all: seq<Option<string>>, id: Option<string>, seen: set<string>, ids: set<string>, before: seq<string>, errors: seq<string>)
    requires Collected(all, seen, before)
    requires ids == seen + if id.Some? then {id.value} else {}
    requires errors == [] <==> before == [] && id.Some? && id.value !in seen
    ensures Collected(all + [id], ids, errors)
  {
    CollectedMeans(all, seen, before);
    DistinctStep(all, id);
  }

  method CollectString(py: Python, item: Json, f: Field, ghost all: seq<Option<string>>, seen: set<string>, before: seq<string>)
    returns (ids: set<string>, errors: seq<string>)
    requires Collected(all, seen, before)
    ensures Collected(all + [IdOf(py, item, f)], ids, errors)
  {
    ids, errors := seen, before;
    var value := py.Clean(item.Get(f));
    if !item.Obj? {
      errors := errors + ["entry must be a mapping"];
    } else if value == "" {
      errors := errors + ["entry is missing its key"];
    } else {
      if value in seen {
        errors := errors + ["duplicate"];
      }
      ids := seen + {value};
    }
    CollectedStep(all, IdOf(py, item, f), seen, ids, before, errors);
  }

  lemma IdListStep(py: Python, items: seq<Json>, f: Field, k: nat)
    requires k < |items|
    ensures IdList(py, items[..k + 1], f) == IdList(py, items[..k], f) + [IdOf(py, items[k], f)]
  {
  }

  method CollectUniqueStrings(py: Python, items: seq<Json>, f: Field) returns (ids: set<string>, errors: seq<string>)
    ensures ids == Ids(py, items, f)
    ensures errors == [] <==> UniqueOk(py, items, f)
  {
    errors, ids := [], {};
    NoneCollected();
    for k := 0 to |items|
      invariant Collected(IdList(py, items[..k], f), ids, errors)
    {
      IdListStep(py, items, f, k);
      ids, errors := CollectString(py, items[k], f, IdList(py, items[..k], f), ids, errors);
    }
    assert items[..|items|] == items;
    CollectedMeans(IdList(py, items, f), ids, errors);
  }

  // ---- References ----

  /** The slices each gNB advertises, by its name. */
  function GnbSlices(py: Python, gnbs: seq<Json>): map<string, set<string>> {
    if gnbs == [] then map[]
    else
      var rest, gnb := GnbSlices(py, gnbs[..|gnbs| - 1]), gnbs[|gnbs| - 1];
      if IdOf(py, gnb, Name).Some? then rest[IdOf(py, gnb, Name).value := Advertised(py, gnb)] else rest
  }

  /** `{str(s) for s in (gnb.get("slices") or []) if str(s).strip()}` */
  function Advertised(py: Python, gnb: Json): set<string> {
    var refs := Iter(gnb.Get(Slices));
    if refs.None? then {} else set s | s in refs.value && Strip(py.Str(s)) != "" :: py.Str(s)
  }

  ghost predicate RefOk(ref: string, known: set<string>) {
    ref == "" || ref in known
  }

  /** Every reference in an iterated list is known, spelled exactly. */
  ghost predicate ListRefsOk(py: Python, refs: Json, known: set<string>) {
    Iter(refs).Some? && forall k | 0 <= k < |Iter(refs).value| :: py.Str(Iter(refs).value[k]) in known
  }

  ghost predicate GnbOk(py: Python, gnb: Json, labels: set<string>, upfs: set<string>) {
    gnb.Obj? ==>
      && ListRefsOk(py, gnb.Get(Slices), labels)
      && RefOk(py.Clean(gnb.Get(BackhaulUpf)), upfs)
  }

  ghost predicate SessionRefsOk(py: Python, session: Json, labels: set<string>, apps: set<string>) {
    session.Obj? ==>
      RefOk(py.Clean(session.Get(SliceRef)), labels) && RefOk(py.Clean(session.Get(AppId)), apps)
  }

  ghost predicate SessionServed(py: Python, session: Json, served: set<string>) {
    session.Obj? ==> RefOk(py.Clean(session.Get(SliceRef)), served)
  }

  ghost predicate UeOk(py: Python, ue: Json, labels: set<string>, gnbs: set<string>,
                       gnbSlices: map<string, set<string>>, apps: set<string>) {
    ue.Obj? ==>
      var gnb, policy, sessions := py.Clean(ue.Get(Gnb)), ue.Get(Free5gcPolicy), Iter(ue.Get(Sessions));
      && RefOk(gnb, gnbs)
      && RefOk(py.Clean(policy.Get(TargetGnb)), gnbs)
      && ListRefsOk(py, policy.Get(PreferredGnbs), gnbs)
      && sessions.Some?
      && (forall k | 0 <= k < |sessions.value| :: SessionRefsOk(py, sessions.value[k], labels, apps))
      && (gnb in gnbSlices ==>
            forall k | 0 <= k < |sessions.value| :: SessionServed(py, sessions.value[k], gnbSlices[gnb]))
  }

  ghost predicate AppOk(py: Python, app: Json, ueNames: set<string>, supis: set<string>, flowIds: set<string>) {
    app.Obj? ==>
      && RefOk(py.Clean(app.Get(UeName)), ueNames)
      && RefOk(py.Clean(app.Get(Supi)), supis)
      && ListRefsOk(py, app.Get(FlowIds), flowIds)
  }

  ghost predicate FlowOk(py: Python, flow: Json, labels: set<string>, ueNames: set<string>,
                         supis: set<string>, apps: set<string>) {
    flow.Obj? ==>
      && RefOk(py.Clean(flow.Get(AppId)), apps)
      && RefOk(py.Clean(flow.Get(SliceRef)), labels)
      && RefOk(py.Clean(flow.Get(UeName)), ueNames)
      && RefOk(py.Clean(flow.Get(Supi)), supis)
  }

  method CheckRef(ref: string, known: set<string>) returns (errors: seq<string>)
    ensures errors == [] <==> RefOk(ref, known)
  {
    errors := if ref != "" && ref !in known then ["references a missing entity"] else [];
  }

  method CheckListRefs(py: Python, refs: Json, known: set<string>) returns (errors: seq<string>)
    ensures errors == [] <==> ListRefsOk(py, refs, known)
  {
    var items := Iter(refs);
    if items.None? {
      return ["value cannot be iterated"];
    }
    errors := [];
    for k := 0 to |items.value|
      invariant errors == [] <==> forall i | 0 <= i < k :: py.Str(items.value[i]) in known
    {
      if py.Str(items.value[k]) !in known {
        errors := errors + ["references a missing entity"];
      }
    }
  }

  method ValidateGnbs(py: Python, gnbs: seq<Json>, labels: set<string>, upfs: set<string>) returns (errors: seq<string>)
    ensures errors == [] <==> forall i | 0 <= i < |gnbs| :: GnbOk(py, gnbs[i], labels, upfs)
  {
    errors := [];
    for i := 0 to |gnbs|
      invariant errors == [] <==> forall k | 0 <= k < i :: GnbOk(py, gnbs[k], labels, upfs)
    {
      if gnbs[i].Obj? {
        var slices := CheckListRefs(py, gnbs[i].Get(Slices), labels);
        var backhaul := CheckRef(py.Clean(gnbs[i].Get(BackhaulUpf)), upfs);
        errors := errors + slices + backhaul;
      }
    }
  }

  method CheckSessionRefs(py: Python, sessions: seq<Json>, labels: set<string>, apps: set<string>) returns (errors: seq<string>)
    ensures errors == [] <==> forall i | 0 <= i < |sessions| :: SessionRefsOk(py, sessions[i], labels, apps)
  {
    errors := [];
    for k := 0 to |sessions|
      invariant errors == [] <==> forall i | 0 <= i < k :: SessionRefsOk(py, sessions[i], labels, apps)
    {
      if sessions[k].Obj? {
        var slice := CheckRef(py.Clean(sessions[k].Get(SliceRef)), labels);
        var app := CheckRef(py.Clean(sessions[k].Get(AppId)), apps);
        errors := errors + slice + app;
      }
    }
  }

  method CheckSessionsServed(py: Python, sessions: seq<Json>, served: set<string>) returns (errors: seq<string>)
    ensures errors == [] <==> forall i | 0 <= i < |sessions| :: SessionServed(py, sessions[i], served)
  {
    errors := [];
    for k := 0 to |sessions|
      invariant errors == [] <==> forall i | 0 <= i < k :: SessionServed(py, sessions[i], served)
    {
      if sessions[k].Obj? {
        var slice := CheckRef(py.Clean(sessions[k].Get(SliceRef)), served);
        errors := errors + slice;
      }
    }
  }

  method ValidateUe(py: Python, ue: Json, labels: set<string>, gnbs: set<string>,
                    gnbSlices: map<string, set<string>>, apps: set<string>) returns (errors: seq<string>)
    ensures errors == [] <==> UeOk(py, ue, labels, gnbs, gnbSlices, apps)
  {
    if !ue.Obj? {
      return [];
    }
    var gnb, policy := py.Clean(ue.Get(Gnb)), ue.Get(Free5gcPolicy);
    var attached := CheckRef(gnb, gnbs);
    var target := CheckRef(py.Clean(policy.Get(TargetGnb)), gnbs);
    var preferred := CheckListRefs(py, policy.Get(PreferredGnbs), gnbs);
    errors := attached + target + preferred;
    var sessions := Iter(ue.Get(Sessions));
    if sessions.None? {
      return errors + ["value cannot be iterated"];
    }
    var refs := CheckSessionRefs(py, sessions.value, labels, apps);
    errors := errors + refs;
    if gnb in gnbSlices {
      var served := CheckSessionsServed(py, sessions.value, gnbSlices[gnb]);
      errors := errors + served;
    }
  }

  method ValidateUes(py: Python, ues: seq<Json>, labels: set<string>, gnbs: set<string>,
                     gnbSlices: map<string, set<string>>, apps: set<string>) returns (errors: seq<string>)
    ensures errors == [] <==> forall i | 0 <= i < |ues| :: UeOk(py, ues[i], labels, gnbs, gnbSlices, apps)
  {
    errors := [];
    for i := 0 to |ues|
      invariant errors == [] <==> forall k | 0 <= k < i :: UeOk(py, ues[k], labels, gnbs, gnbSlices, apps)
    {
      var found := ValidateUe(py, ues[i], labels, gnbs, gnbSlices, apps);
      errors := errors + found;
    }
  }

  method ValidateApps(py: Python, apps: seq<Json>, ueNames: set<string>, supis: set<string>, flowIds: set<string>)
    returns (errors: seq<string>)
    ensures errors == [] <==> forall i | 0 <= i < |apps| :: AppOk(py, apps[i], ueNames, supis, flowIds)
  {
    errors := [];
    for i := 0 to |apps|
      invariant errors == [] <==> forall k | 0 <= k < i :: AppOk(py, apps[k], ueNames, supis, flowIds)
    {
      if apps[i].Obj? {
        var ue := CheckRef(py.Clean(apps[i].Get(UeName)), ueNames);
        var supi := CheckRef(py.Clean(apps[i].Get(Supi)), supis);
        var flows := CheckListRefs(py, apps[i].Get(FlowIds), flowIds);
        errors := errors + ue + supi + flows;
      }
    }
  }

  method ValidateFlows(py: Python, flows: seq<Json>, labels: set<string>, ueNames: set<string>,
                       supis: set<string>, apps: set<string>) returns (errors: seq<string>)
    ensures errors == [] <==> forall i | 0 <= i < |flows| :: FlowOk(py, flows[i], labels, ueNames, supis, apps)
  {
    errors := [];
    for i := 0 to |flows|
      invariant errors == [] <==> forall k | 0 <= k < i :: FlowOk(py, flows[k], labels, ueNames, supis, apps)
    {
      if flows[i].Obj? {
        var app := CheckRef(py.Clean(flows[i].Get(AppId)), apps);
        var slice := CheckRef(py.Clean(flows[i].Get(SliceRef)), labels);
        var ue := CheckRef(py.Clean(flows[i].Get(UeName)), ueNames);
        var supi := CheckRef(py.Clean(flows[i].Get(Supi)), supis);
        errors := errors + app + slice + ue + supi;
      }
    }
  }

  // ---- Agreement between entities ----

  /** `{id: item for item in items if it has one}`: the last entry with an identifier wins. */
  function ByKey(py: Python, items: seq<Json>, f: Field): map<string, Json> {
    if items == [] then map[]
    else
      var rest, id := ByKey(py, items[..|items| - 1], f), IdOf(py, items[|items| - 1], f);
      if id.Some? then rest[id.value := items[|items| - 1]] else rest
  }

  function FlowIdsOf(py: Python, flows: seq<Json>, appId: string): set<string> {
    set flow | flow in flows && flow.Obj? && py.Clean(flow.Get(AppId)) == appId :: CleanOr(py, flow.Get(FlowId), "<unknown>")
  }

  predicate SessionMatches(py: Python, session: Json, appId: string, sliceRef: string, sessionRef: string) {
    && session.Obj?
    && py.Clean(session.Get(AppId)) == appId
    && py.Clean(session.Get(SliceRef)) == sliceRef
    && py.Clean(session.Get(SessionRef)) == sessionRef
  }

  predicate HasSession(py: Python, ue: Json, appId: string, sliceRef: string, sessionRef: string) {
    && Iter(ue.Get(Sessions)).Some?
    && exists session | session in Iter(ue.Get(Sessions)).value :: SessionMatches(py, session, appId, sliceRef, sessionRef)
  }

  ghost predicate CrossFlowOk(py: Python, flow: Json, apps: map<string, Json>, ues: map<string, Json>) {
    flow.Obj? ==>
      var appId, ueName, supi := py.Clean(flow.Get(AppId)), py.Clean(flow.Get(UeName)), py.Clean(flow.Get(Supi));
      && (appId in apps ==>
            py.Clean(apps[appId].Get(UeName)) == ueName && py.Clean(apps[appId].Get(Supi)) == supi)
      && (ueName in ues ==>
            && py.Clean(ues[ueName].Get(Supi)) == supi
            && HasSession(py, ues[ueName], appId, py.Clean(flow.Get(SliceRef)), py.Clean(flow.Get(SessionRef))))
  }

  /** `{str(id).strip() for id in (app.get("flow_ids") or []) if str(id).strip()}` */
  function DeclaredFlowIds(py: Python, app: Json): set<string> {
    var ids := Iter(app.Get(FlowIds));
    if ids.None? then {} else set id | id in ids.value && Strip(py.Str(id)) != "" :: Strip(py.Str(id))
  }

  ghost predicate CrossAppOk(py: Python, id: string, app: Json, ues: map<string, Json>, flowIds: set<string>) {
    var ueName := py.Clean(app.Get(UeName));
    && (ueName in ues ==> py.Clean(ues[ueName].Get(Supi)) == py.Clean(app.Get(Supi)))
    && Iter(app.Get(FlowIds)).Some?
    && DeclaredFlowIds(py, app) == flowIds
  }

  function ExpectedRef(py: Python, supi: string, session: Json): string {
    supi + ":" + py.Clean(session.Get(AppId)) + ":" + py.Clean(session.Get(SliceRef)) + ":" + py.Clean(session.Get(Apn))
  }

  ghost predicate SessionNamed(py: Python, supi: string, session: Json) {
    session.Obj? ==> py.Clean(session.Get(SessionRef)) == ExpectedRef(py, supi, session)
  }

  ghost predicate CrossUeOk(py: Python, ue: Json) {
    var sessions := Iter(ue.Get(Sessions));
    && sessions.Some?
    && forall k | 0 <= k < |sessions.value| :: SessionNamed(py, py.Clean(ue.Get(Supi)), sessions.value[k])
  }

  ghost predicate CrossFlowsOk(py: Python, flows: seq<Json>, apps: map<string, Json>, ues: map<string, Json>) {
    forall i | 0 <= i < |flows| :: CrossFlowOk(py, flows[i], apps, ues)
  }

  ghost predicate CrossAppsOk(py: Python, flows: seq<Json>, apps: map<string, Json>, ues: map<string, Json>) {
    forall id | id in apps :: CrossAppOk(py, id, apps[id], ues, FlowIdsOf(py, flows, id))
  }

  ghost predicate CrossUesOk(py: Python, ues: map<string, Json>) {
    forall name | name in ues :: CrossUeOk(py, ues[name])
  }

  ghost predicate CrossOk(py: Python, scenario: Json) {
    var ues, apps := ByKey(py, ItemsOf(scenario, Ues), Name), ByKey(py, ItemsOf(scenario, Apps), AppId);
    var flows := ItemsOf(scenario, Flows);
    CrossFlowsOk(py, flows, apps, ues) && CrossAppsOk(py, flows, apps, ues) && CrossUesOk(py, ues)
  }

  method CrossCheckFlow(py: Python, flow: Json, apps: map<string, Json>, ues: map<string, Json>)
    returns (errors: seq<string>)
    ensures errors == [] <==> CrossFlowOk(py, flow, apps, ues)
  {
    errors := [];
    if !flow.Obj? {
      return;
    }
    var appId, ueName, supi := py.Clean(flow.Get(AppId)), py.Clean(flow.Get(UeName)), py.Clean(flow.Get(Supi));
    if appId in apps {
      if py.Clean(apps[appId].Get(UeName)) != ueName {
        errors := errors + ["UE does not match app"];
      }
      if py.Clean(apps[appId].Get(Supi)) != supi {
        errors := errors + ["SUPI does not match app"];
      }
    }
    if ueName !in ues {
      return;
    }
    if py.Clean(ues[ueName].Get(Supi)) != supi {
      errors := errors + ["SUPI does not match UE"];
    }
    if !HasSession(py, ues[ueName], appId, py.Clean(flow.Get(SliceRef)), py.Clean(flow.Get(SessionRef))) {
      errors := errors + ["no matching UE session"];
    }
  }

  method CrossCheckApp(py: Python, ghost id: string, app: Json, ues: map<string, Json>, flowIds: set<string>)
    returns (errors: seq<string>)
    ensures errors == [] <==> CrossAppOk(py, id, app, ues, flowIds)
  {
    errors := [];
    var ueName := py.Clean(app.Get(UeName));
    if ueName in ues && py.Clean(ues[ueName].Get(Supi)) != py.Clean(app.Get(Supi)) {
      errors := errors + ["SUPI does not match UE"];
    }
    if Iter(app.Get(FlowIds)).None? {
      errors := errors + ["value cannot be iterated"];
    } else if DeclaredFlowIds(py, app) != flowIds {
      errors := errors + ["flow_ids do not match its flow definitions"];
    }
  }

  method CrossCheckUe(py: Python, ue: Json) returns (errors: seq<string>)
    ensures errors == [] <==> CrossUeOk(py, ue)
  {
    var supi, sessions := py.Clean(ue.Get(Supi)), Iter(ue.Get(Sessions));
    if sessions.None? {
      return ["value cannot be iterated"];
    }
    errors := [];
    for k := 0 to |sessions.value|
      invariant errors == [] <==> forall i | 0 <= i < k :: SessionNamed(py, supi, sessions.value[i])
    {
      if sessions.value[k].Obj? && py.Clean(sessions.value[k].Get(SessionRef)) != ExpectedRef(py, supi, sessions.value[k]) {
        errors := errors + ["session_ref must equal its derived reference"];
      }
    }
  }

  method CollectByKey(py: Python, items: seq<Json>, f: Field) returns (m: map<string, Json>)
    ensures m == ByKey(py, items, f)
  {
    m := map[];
    for i := 0 to |items|
      invariant m == ByKey(py, items[..i], f)
    {
      assert items[..i + 1][..i] == items[..i];
      var id := IdOf(py, items[i], f);
      if id.Some? {
        m := m[id.value := items[i]];
      }
    }
    assert items[..|items|] == items;
  }

  method CrossCheckFlows(py: Python, flows: seq<Json>, apps: map<string, Json>, ues: map<string, Json>) returns (errors: seq<string>)
    ensures errors == [] <==> forall k | 0 <= k < |flows| :: CrossFlowOk(py, flows[k], apps, ues)
  {
    errors := [];
    for i := 0 to |flows|
      invariant errors == [] <==> forall k | 0 <= k < i :: CrossFlowOk(py, flows[k], apps, ues)
    {
      var found := CrossCheckFlow(py, flows[i], apps, ues);
      errors := errors + found;
    }
  }

  method CrossCheckApps(py: Python, flows: seq<Json>, apps: map<string, Json>, ues: map<string, Json>) returns (errors: seq<string>)
    ensures errors == [] <==> forall id | id in apps :: CrossAppOk(py, id, apps[id], ues, FlowIdsOf(py, flows, id))
  {
    errors := [];
    var ids := apps.Keys;
    while ids != {}
      invariant ids <= apps.Keys
      invariant errors == [] <==> forall id | id in apps.Keys - ids :: CrossAppOk(py, id, apps[id], ues, FlowIdsOf(py, flows, id))
    {
      var id :| id in ids;
      var found := CrossCheckApp(py, id, apps[id], ues, FlowIdsOf(py, flows, id));
      errors := errors + found;
      ids := ids - {id};
    }
  }

  method CrossCheckUes(py: Python, ues: map<string, Json>) returns (errors: seq<string>)
    ensures errors == [] <==> forall name | name in ues :: CrossUeOk(py, ues[name])
  {
    errors := [];
    var names := ues.Keys;
    while names != {}
      invariant names <= ues.Keys
      invariant errors == [] <==> forall name | name in ues.Keys - names :: CrossUeOk(py, ues[name])
    {
      var name :| name in names;
      var found := CrossCheckUe(py, ues[name]);
      errors := errors + found;
      names := names - {name};
    }
  }

  method ValidateCrossEntityContract(py: Python, scenario: Json) returns (errors: seq<string>)
    ensures errors == [] <==> CrossOk(py, scenario)
  {
    var ues := CollectByKey(py, ItemsOf(scenario, Ues), Name);
    var apps := CollectByKey(py, ItemsOf(scenario, Apps), AppId);
    var flows := ItemsOf(scenario, Flows);
    var flowErrors := CrossCheckFlows(py, flows, apps, ues);
    var appErrors := CrossCheckApps(py, flows, apps, ues);
    var ueErrors := CrossCheckUes(py, ues);
    errors := flowErrors + appErrors + ueErrors;
  }

  // ---- Service levels ----

  ghost predicate SlaFieldOk(py: Python, sla: Json, f: Field) {
    !sla.Get(f).Bool? && NonNegative(py, sla.Get(f))
  }

  /** The finite value of a numeric field. */
  function Amount(py: Python, j: Json): real {
    var x := py.ToFloat(j);
    if x.Some? && AsReal(x.value).Some? then AsReal(x.value).value else 0.0
  }

  ghost predicate AllocationOk(py: Python, flow: Json, share: Field, guarantee: Field) {
    && !flow.Get(share).Bool? && NonNegative(py, flow.Get(share))
    && Amount(py, flow.Get(share)) >= Amount(py, flow.Get(SlaTarget).Get(guarantee))
  }

  ghost predicate SlaFlowOk(py: Python, flow: Json) {
    flow.Obj? ==>
      var sla := flow.Get(SlaTarget);
      && sla.Obj?
      && (forall k | 0 <= k < |SLA_FIELDS| :: SlaFieldOk(py, sla, SLA_FIELDS[k]))
      && Amount(py, sla.Get(Priority)) >= 1.0
      && Amount(py, sla.Get(Priority)).Floor as real == Amount(py, sla.Get(Priority))
      && Amount(py, sla.Get(BandwidthDl)) >= Amount(py, sla.Get(GuaranteedBandwidthDl))
      && Amount(py, sla.Get(BandwidthUl)) >= Amount(py, sla.Get(GuaranteedBandwidthUl))
      && AllocationOk(py, flow, AllocatedDl, GuaranteedBandwidthDl)
      && AllocationOk(py, flow, AllocatedUl, GuaranteedBandwidthUl)
  }

  function Parsed(parsed: map<Field, real>, f: Field): real {
    if f in parsed then parsed[f] else 0.0
  }

  /** What parsing the SLA fields leaves: the value of each field, once all of them are in order. */
  ghost predicate FieldsParsed(py: Python, sla: Json, parsed: map<Field, real>, n: nat)
    requires n <= |SLA_FIELDS|
  {
    forall k | 0 <= k < n :: Parsed(parsed, SLA_FIELDS[k]) == Amount(py, sla.Get(SLA_FIELDS[k]))
  }

  method ParseSlaField(py: Python, value: Json) returns (number: Option<real>)
    ensures number.Some? <==> !value.Bool? && NonNegative(py, value)
    ensures number.Some? ==> number.value == Amount(py, value)
  {
    var parsed := py.ToFloat(value);
    if value.Bool? || parsed.None? || AsReal(parsed.value).None? || AsReal(parsed.value).value < 0.0 {
      return None;
    }
    return AsReal(parsed.value);
  }

  method ParseSla(py: Python, sla: Json) returns (parsed: map<Field, real>, errors: seq<string>)
    ensures errors == [] <==> forall k | 0 <= k < |SLA_FIELDS| :: SlaFieldOk(py, sla, SLA_FIELDS[k])
    ensures errors == [] ==> FieldsParsed(py, sla, parsed, |SLA_FIELDS|)
  {
    parsed, errors := map[], [];
    for i := 0 to |SLA_FIELDS|
      invariant errors == [] <==> forall k | 0 <= k < i :: SlaFieldOk(py, sla, SLA_FIELDS[k])
      invariant errors == [] ==> FieldsParsed(py, sla, parsed, i)
    {
      var number := ParseSlaField(py, sla.Get(SLA_FIELDS[i]));
      if number.None? {
        errors := errors + ["SLA field must be numeric, finite and non-negative"];
      } else {
        parsed := parsed[SLA_FIELDS[i] := number.value];
      }
    }
  }

  lemma ParsedFields(py: Python, sla: Json, parsed: map<Field, real>)
    requires FieldsParsed(py, sla, parsed, |SLA_FIELDS|)
    ensures Parsed(parsed, Priority) == Amount(py, sla.Get(Priority))
    ensures Parsed(parsed, BandwidthDl) == Amount(py, sla.Get(BandwidthDl))
    ensures Parsed(parsed, BandwidthUl) == Amount(py, sla.Get(BandwidthUl))
    ensures Parsed(parsed, GuaranteedBandwidthDl) == Amount(py, sla.Get(GuaranteedBandwidthDl))
    ensures Parsed(parsed, GuaranteedBandwidthUl) == Amount(py, sla.Get(GuaranteedBandwidthUl))
  {
    assert SLA_FIELDS[3] == BandwidthDl && SLA_FIELDS[4] == BandwidthUl;
    assert SLA_FIELDS[5] == GuaranteedBandwidthDl && SLA_FIELDS[6] == GuaranteedBandwidthUl && SLA_FIELDS[7] == Priority;
  }

  method CheckSlaOrder(parsed: map<Field, real>) returns (errors: seq<string>)
    ensures errors == [] <==>
              && Parsed(parsed, Priority) >= 1.0 && Parsed(parsed, Priority).Floor as real == Parsed(parsed, Priority)
              && Parsed(parsed, BandwidthDl) >= Parsed(parsed, GuaranteedBandwidthDl)
              && Parsed(parsed, BandwidthUl) >= Parsed(parsed, GuaranteedBandwidthUl)
  {
    errors := [];
    var priority := Parsed(parsed, Priority);
    if priority < 1.0 || priority.Floor as real != priority {
      errors := errors + ["SLA priority must be a positive integer"];
    }
    if Parsed(parsed, BandwidthDl) < Parsed(parsed, GuaranteedBandwidthDl) {
      errors := errors + ["DL target bandwidth is below its guarantee"];
    }
    if Parsed(parsed, BandwidthUl) < Parsed(parsed, GuaranteedBandwidthUl) {
      errors := errors + ["UL target bandwidth is below its guarantee"];
    }
  }

  method ValidateSlaFlow(py: Python, flow: Json) returns (errors: seq<string>)
    ensures errors == [] <==> SlaFlowOk(py, flow)
  {
    if !flow.Obj? {
      return [];
    }
    var sla := flow.Get(SlaTarget);
    if !sla.Obj? {
      return ["sla_target must be a mapping"];
    }
    var parsed, fields := ParseSla(py, sla);
    if fields == [] {
      ParsedFields(py, sla, parsed);
    }
    var order := CheckSlaOrder(parsed);
    var dl := ValidateAllocation(py, flow.Get(AllocatedDl), Parsed(parsed, GuaranteedBandwidthDl));
    var ul := ValidateAllocation(py, flow.Get(AllocatedUl), Parsed(parsed, GuaranteedBandwidthUl));
    errors := fields + order + dl + ul;
  }

  method ValidateAllocation(py: Python, allocation: Json, guarantee: real) returns (errors: seq<string>)
    ensures errors == [] <==> !allocation.Bool? && NonNegative(py, allocation) && Amount(py, allocation) >= guarantee
  {
    var number := py.ToFloat(allocation);
    if allocation.Bool? || number.None? {
      return ["allocation must be numeric"];
    }
    if AsReal(number.value).None? || AsReal(number.value).value < 0.0 {
      return ["allocation must be finite and non-negative"];
    }
    if AsReal(number.value).value < guarantee {
      return ["allocated bandwidth is below its guarantee"];
    }
    return [];
  }

  method ValidateSlaContract(py: Python, flows: seq<Json>) returns (errors: seq<string>)
    ensures errors == [] <==> forall i | 0 <= i < |flows| :: SlaFlowOk(py, flows[i])
  {
    errors := [];
    for i := 0 to |flows|
      invariant errors == [] <==> forall k | 0 <= k < i :: SlaFlowOk(py, flows[k])
    {
      var found := ValidateSlaFlow(py, flows[i]);
      errors := errors + found;
    }
  }

  // ---- Capacity ----

  /** What the flows of one slice are guaranteed together, field by field. */
  function Requested(py: Python, flows: seq<Json>, slice: string, guarantee: Field): real {
    if flows == [] then 0.0
    else
      var flow := flows[|flows| - 1];
      Requested(py, flows[..|flows| - 1], slice, guarantee)
      + if flow.Obj? && py.Clean(flow.Get(SliceRef)) == slice then Amount(py, flow.Get(SlaTarget).Get(guarantee)) else 0.0
  }

  /** The capacity pair of each slice label; the last slice under a label wins. */
  function Capacities(py: Python, slices: seq<Json>): map<string, (real, real)> {
    if slices == [] then map[]
    else
      var rest, slice := Capacities(py, slices[..|slices| - 1]), slices[|slices| - 1];
      if !slice.Obj? then rest
      else rest[py.Clean(slice.Get(Label)) :=
                  (Amount(py, slice.Get(Resource).Get(CapacityDl)), Amount(py, slice.Get(Resource).Get(CapacityUl)))]
  }

  function RequestedSlices(py: Python, flows: seq<Json>): set<string> {
    set flow | flow in flows && flow.Obj? :: py.Clean(flow.Get(SliceRef))
  }

  ghost predicate SliceFits(py: Python, flows: seq<Json>, slice: string, capacity: (real, real)) {
    && Requested(py, flows, slice, GuaranteedBandwidthDl) <= capacity.0
    && Requested(py, flows, slice, GuaranteedBandwidthUl) <= capacity.1
  }

  ghost predicate CapacityOk(py: Python, scenario: Json) {
    var flows, capacities := ItemsOf(scenario, Flows), Capacities(py, ItemsOf(scenario, Slices));
    forall slice | slice in RequestedSlices(py, flows) && slice in capacities :: SliceFits(py, flows, slice, capacities[slice])
  }

  method ValidateCapacity(py: Python, scenario: Json) returns (errors: seq<string>)
    ensures errors == [] <==> CapacityOk(py, scenario)
  {
    var slices, flows := ItemsOf(scenario, Slices), ItemsOf(scenario, Flows);
    var capacities: map<string, (real, real)> := map[];
    for i := 0 to |slices|
      invariant capacities == Capacities(py, slices[..i])
    {
      assert slices[..i + 1][..i] == slices[..i];
      if slices[i].Obj? {
        var resource := slices[i].Get(Resource);
        capacities := capacities[py.Clean(slices[i].Get(Label)) :=
                                   (Amount(py, resource.Get(CapacityDl)), Amount(py, resource.Get(CapacityUl)))];
      }
    }
    assert slices[..|slices|] == slices;
    var requested := SumRequests(py, flows);
    errors := [];
    var pending := requested.Keys;
    while pending != {}
      invariant pending <= requested.Keys
      invariant errors == [] <==> forall slice | slice in requested.Keys - pending && slice in capacities ::
                                    SliceFits(py, flows, slice, capacities[slice])
    {
      var slice :| slice in pending;
      if slice in capacities
         && (requested[slice].0 > capacities[slice].0 || requested[slice].1 > capacities[slice].1) {
        errors := errors + ["guaranteed bandwidth exceeds capacity"];
      }
      pending := pending - {slice};
    }
  }

  /** The running totals by slice that the program accumulates. */
  function Totals(py: Python, flows: seq<Json>): map<string, (real, real)> {
    if flows == [] then map[]
    else
      var flow := flows[|flows| - 1];
      AddRequest(py, Totals(py, flows[..|flows| - 1]), flow)
  }

  function AddRequest(py: Python, totals: map<string, (real, real)>, flow: Json): map<string, (real, real)> {
    if !flow.Obj? then totals
    else
      var slice, sla := py.Clean(flow.Get(SliceRef)), flow.Get(SlaTarget);
      var sum := if slice in totals then totals[slice] else (0.0, 0.0);
      totals[slice := (sum.0 + Amount(py, sla.Get(GuaranteedBandwidthDl)), sum.1 + Amount(py, sla.Get(GuaranteedBandwidthUl)))]
  }

  function TotalAt(totals: map<string, (real, real)>, slice: string): (real, real) {
    if slice in totals then totals[slice] else (0.0, 0.0)
  }

  predicate Requests(py: Python, flow: Json, slice: string) {
    flow.Obj? && py.Clean(flow.Get(SliceRef)) == slice
  }

  lemma AddRequestIs(py: Python, totals: map<string, (real, real)>, flow: Json, slice: string)
    ensures slice in AddRequest(py, totals, flow) <==> slice in totals || Requests(py, flow, slice)
    ensures var before, after := TotalAt(totals, slice), TotalAt(AddRequest(py, totals, flow), slice);
            after == if !Requests(py, flow, slice) then before
                     else (before.0 + Amount(py, flow.Get(SlaTarget).Get(GuaranteedBandwidthDl)),
                           before.1 + Amount(py, flow.Get(SlaTarget).Get(GuaranteedBandwidthUl)))
  {
  }

  lemma RequestedSlicesStep(py: Python, flows: seq<Json>, flow: Json, slice: string)
    ensures slice in RequestedSlices(py, flows + [flow]) <==> slice in RequestedSlices(py, flows) || Requests(py, flow, slice)
  {
    assert forall x :: x in flows + [flow] <==> x in flows || x == flow;
  }

  lemma RequestedStep(py: Python, flows: seq<Json>, flow: Json, slice: string, guarantee: Field)
    ensures Requested(py, flows + [flow], slice, guarantee) ==
            Requested(py, flows, slice, guarantee)
            + if Requests(py, flow, slice) then Amount(py, flow.Get(SlaTarget).Get(guarantee)) else 0.0
  {
    assert (flows + [flow])[..|flows|] == flows;
  }

  lemma TotalsStep(py: Python, flows: seq<Json>, flow: Json)
    ensures Totals(py, flows + [flow]) == AddRequest(py, Totals(py, flows), flow)
  {
    assert (flows + [flow])[..|flows|] == flows;
  }

  lemma {:induction false} TotalsAre(py: Python, flows: seq<Json>, slice: string)
    ensures slice in Totals(py, flows) <==> slice in RequestedSlices(py, flows)
    ensures TotalAt(Totals(py, flows), slice) == (Requested(py, flows, slice, GuaranteedBandwidthDl),
                                                  Requested(py, flows, slice, GuaranteedBandwidthUl))
  {
    if flows != [] {
      var init, last := flows[..|flows| - 1], flows[|flows| - 1];
      TotalsAre(py, init, slice);
      assert flows == init + [last];
      TotalsStep(py, init, last);
      AddRequestIs(py, Totals(py, init), last, slice);
      RequestedSlicesStep(py, init, last, slice);
      RequestedStep(py, init, last, slice, GuaranteedBandwidthDl);
      RequestedStep(py, init, last, slice, GuaranteedBandwidthUl);
    }
  }

  method SumRequests(py: Python, flows: seq<Json>) returns (requested: map<string, (real, real)>)
    ensures requested.Keys == RequestedSlices(py, flows)
    ensures forall slice | slice in requested ::
              requested[slice] == (Requested(py, flows, slice, GuaranteedBandwidthDl),
                                   Requested(py, flows, slice, GuaranteedBandwidthUl))
  {
    requested := map[];
    for i := 0 to |flows|
      invariant requested == Totals(py, flows[..i])
    {
      assert flows[..i + 1][..i] == flows[..i];
      requested := AddRequest(py, requested, flows[i]);
    }
    assert flows[..|flows|] == flows;
    forall slice {
      TotalsAre(py, flows, slice);
    }
    assert forall slice | slice in requested :: requested[slice] == TotalAt(requested, slice);
  }

  // ---- Overlay, and the whole validation ----

  ghost predicate OverlayOk(overlay: Json) {
    overlay.Null? || (overlay.Obj? && HasFields(overlay, OVERLAY_FIELDS) && HaveMappings(overlay, OVERLAY_SECTIONS))
  }

  ghost predicate HasFields(j: Json, fields: seq<Field>) {
    j.Obj? && forall k | 0 <= k < |fields| :: fields[k] in j.fields
  }

  ghost predicate HaveMappings(j: Json, fields: seq<Field>) {
    j.Obj? && forall k | 0 <= k < |fields| :: fields[k] in j.fields && j.fields[fields[k]].Obj?
  }

  method CheckFields(j: Json, fields: seq<Field>) returns (errors: seq<string>)
    requires j.Obj?
    ensures errors == [] <==> HasFields(j, fields)
  {
    errors := [];
    for i := 0 to |fields|
      invariant errors == [] <==> forall k | 0 <= k < i :: fields[k] in j.fields
    {
      if fields[i] !in j.fields {
        errors := errors + ["missing field"];
      }
    }
  }

  method ValidateOverlay(overlay: Json) returns (errors: seq<string>)
    ensures errors == [] <==> OverlayOk(overlay)
  {
    if overlay.Null? {
      return [];
    }
    if !overlay.Obj? {
      return ["split_mode_overlay must be a mapping"];
    }
    errors := CheckFields(overlay, OVERLAY_FIELDS);
    ghost var missing := errors;
    assert forall k | 0 <= k < |OVERLAY_SECTIONS| :: OVERLAY_SECTIONS[k] == OVERLAY_FIELDS[k + 3];
    for i := 0 to |OVERLAY_SECTIONS|
      invariant errors == [] <==>
                missing == [] && forall k | 0 <= k < i && OVERLAY_SECTIONS[k] in overlay.fields ::
                                   overlay.fields[OVERLAY_SECTIONS[k]].Obj?
    {
      if OVERLAY_SECTIONS[i] in overlay.fields && !overlay.fields[OVERLAY_SECTIONS[i]].Obj? {
        errors := errors + ["split_mode_overlay section must be a mapping"];
      }
    }
  }

  ghost predicate IdentifiersOk(py: Python, scenario: Json) {
    && UniqueOk(py, ItemsOf(scenario, Slices), Label)
    && UniqueOk(py, ItemsOf(scenario, Upfs), Name)
    && UniqueOk(py, ItemsOf(scenario, Gnbs), Name)
    && UniqueOk(py, ItemsOf(scenario, Ues), Name)
    && UniqueOk(py, ItemsOf(scenario, Ues), Supi)
    && UniqueOk(py, ItemsOf(scenario, Apps), AppId)
    && UniqueOk(py, ItemsOf(scenario, Flows), FlowId)
  }

  ghost predicate ReferencesOk(py: Python, scenario: Json) {
    var slices, upfs, gnbs := ItemsOf(scenario, Slices), ItemsOf(scenario, Upfs), ItemsOf(scenario, Gnbs);
    var ues, apps, flows := ItemsOf(scenario, Ues), ItemsOf(scenario, Apps), ItemsOf(scenario, Flows);
    var labels, gnbNames, appIds := Ids(py, slices, Label), Ids(py, gnbs, Name), Ids(py, apps, AppId);
    var ueNames, supis := Ids(py, ues, Name), Ids(py, ues, Supi);
    && (forall i | 0 <= i < |gnbs| :: GnbOk(py, gnbs[i], labels, Ids(py, upfs, Name)))
    && (forall i | 0 <= i < |ues| :: UeOk(py, ues[i], labels, gnbNames, GnbSlices(py, gnbs), appIds))
    && (forall i | 0 <= i < |apps| :: AppOk(py, apps[i], ueNames, supis, Ids(py, flows, FlowId)))
    && (forall i | 0 <= i < |flows| :: FlowOk(py, flows[i], labels, ueNames, supis, appIds))
  }

  ghost predicate SlaOk(py: Python, scenario: Json) {
    forall i | 0 <= i < |ItemsOf(scenario, Flows)| :: SlaFlowOk(py, ItemsOf(scenario, Flows)[i])
  }

  ghost predicate CandidateOk(py: Python, c: Candidate) {
    && RootOk(c.scenario)
    && LoaderOk(py, c.scenario)
    && IdentifiersOk(py, c.scenario)
    && ReferencesOk(py, c.scenario)
    && CrossOk(py, c.scenario)
    && SlaOk(py, c.scenario)
    && CapacityOk(py, c.scenario)
    && OverlayOk(c.overlay)
  }

  method CollectGnbSlices(py: Python, gnbs: seq<Json>) returns (m: map<string, set<string>>)
    ensures m == GnbSlices(py, gnbs)
  {
    m := map[];
    for i := 0 to |gnbs|
      invariant m == GnbSlices(py, gnbs[..i])
    {
      assert gnbs[..i + 1][..i] == gnbs[..i];
      var name := IdOf(py, gnbs[i], Name);
      if name.Some? {
        m := m[name.value := Advertised(py, gnbs[i])];
      }
    }
    assert gnbs[..|gnbs|] == gnbs;
  }

  /** `validate_candidate` without a quality profile: it reports ok exactly on the candidates that meet
      every check. */
  method ValidateCandidate(py: Python, c: Candidate) returns (ok: bool, errors: seq<string>)
    ensures ok <==> CandidateOk(py, c)
    ensures ok <==> errors == []
  {
    var scenario := c.scenario;
    if !scenario.Obj? {
      return false, ["scenario payload must be a mapping"];
    }
    errors := ValidateRootFields(scenario);
    if errors != [] {
      return false, errors;
    }
    var slices, upfs, gnbs := ItemsOf(scenario, Slices), ItemsOf(scenario, Upfs), ItemsOf(scenario, Gnbs);
    var ues, apps, flows := ItemsOf(scenario, Ues), ItemsOf(scenario, Apps), ItemsOf(scenario, Flows);
    var loader := ValidateLoaderContract(py, scenario);
    var labels, e1 := CollectUniqueStrings(py, slices, Label);
    var upfNames, e2 := CollectUniqueStrings(py, upfs, Name);
    var gnbNames, e3 := CollectUniqueStrings(py, gnbs, Name);
    var ueNames, e4 := CollectUniqueStrings(py, ues, Name);
    var supis, e5 := CollectUniqueStrings(py, ues, Supi);
    var appIds, e6 := CollectUniqueStrings(py, apps, AppId);
    var flowIds, e7 := CollectUniqueStrings(py, flows, FlowId);
    var identifiers := e1 + e2 + e3 + e4 + e5 + e6 + e7;
    assert identifiers == [] <==> IdentifiersOk(py, scenario);
    var gnbSlices := CollectGnbSlices(py, gnbs);
    var r1 := ValidateGnbs(py, gnbs, labels, upfNames);
    var r2 := ValidateUes(py, ues, labels, gnbNames, gnbSlices, appIds);
    var r3 := ValidateApps(py, apps, ueNames, supis, flowIds);
    var r4 := ValidateFlows(py, flows, labels, ueNames, supis, appIds);
    var references := r1 + r2 + r3 + r4;
    assert references == [] <==> ReferencesOk(py, scenario);
    var cross := ValidateCrossEntityContract(py, scenario);
    var sla := ValidateSlaContract(py, flows);
    assert sla == [] <==> SlaOk(py, scenario);
    var capacity := ValidateCapacity(py, scenario);
    var overlay := ValidateOverlay(c.overlay);
    errors := loader + identifiers + references + cross + sla + capacity + overlay;
    ok := errors == [];
  }
}
