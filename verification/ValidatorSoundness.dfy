/** What an accepted candidate guarantees, in terms of its entities rather than of the checks. */
module ValidatorSoundness {
  import opened Strings
  import opened Documents
  import opened Validator

  /** `items[j]` is the one entry identified by `id`. */
  ghost predicate IsThe(py: Python, items: seq<Json>, f: Field, id: string, j: int) {
    && 0 <= j < |items|
    && IdOf(py, items[j], f) == Some(id)
    && forall i | 0 <= i < |items| && IdOf(py, items[i], f) == Some(id) :: i == j
  }

  lemma FindThe(py: Python, items: seq<Json>, f: Field, id: string) returns (j: int)
    requires UniqueOk(py, items, f) && id in Ids(py, items, f)
    ensures IsThe(py, items, f, id, j)
  {
    var ids := IdList(py, items, f);
    j :| 0 <= j < |ids| && ids[j] == Some(id);
    forall i | 0 <= i < |items| && IdOf(py, items[i], f) == Some(id)
      ensures i == j
    {
      assert ids[i] == ids[j];
    }
  }

  lemma {:induction false} ByKeyFinds(py: Python, items: seq<Json>, f: Field, id: string, j: int)
    requires IsThe(py, items, f, id, j)
    ensures id in ByKey(py, items, f) && ByKey(py, items, f)[id] == items[j]
  {
    var n := |items| - 1;
    if j < n {
      assert forall i | 0 <= i < n :: items[..n][i] == items[i];
      ByKeyFinds(py, items[..n], f, id, j);
      assert IdOf(py, items[n], f) != Some(id);
    }
  }

  lemma {:induction false} GnbSlicesFinds(py: Python, gnbs: seq<Json>, name: string, j: int)
    requires IsThe(py, gnbs, Name, name, j)
    ensures name in GnbSlices(py, gnbs) && GnbSlices(py, gnbs)[name] == Advertised(py, gnbs[j])
  {
    var n := |gnbs| - 1;
    if j < n {
      assert forall i | 0 <= i < n :: gnbs[..n][i] == gnbs[i];
      GnbSlicesFinds(py, gnbs[..n], name, j);
      assert IdOf(py, gnbs[n], Name) != Some(name);
    }
  }

  /** A flow is wired up: its app and UE exist once and agree with it on UE and SUPI, the UE has the
      flow's own session under its derived reference, and the gNB the UE names advertises the slice. */
  ghost predicate Wired(py: Python, scenario: Json, flow: Json) {
    (exists a :: HasItsApp(py, scenario, flow, a)) && (exists u :: HasItsUe(py, scenario, flow, u))
  }

  ghost predicate HasItsApp(py: Python, scenario: Json, flow: Json, a: int) {
    var apps := ItemsOf(scenario, Apps);
    && IsThe(py, apps, AppId, py.Clean(flow.Get(AppId)), a)
    && py.Clean(apps[a].Get(UeName)) == py.Clean(flow.Get(UeName))
    && py.Clean(apps[a].Get(Supi)) == py.Clean(flow.Get(Supi))
  }

  ghost predicate HasItsUe(py: Python, scenario: Json, flow: Json, u: int) {
    var ues := ItemsOf(scenario, Ues);
    && IsThe(py, ues, Name, py.Clean(flow.Get(UeName)), u)
    && py.Clean(ues[u].Get(Supi)) == py.Clean(flow.Get(Supi))
    && SessionFor(py, ues[u], flow)
    && (py.Clean(ues[u].Get(Gnb)) != "" ==>
          ServedBy(py, ItemsOf(scenario, Gnbs), py.Clean(ues[u].Get(Gnb)), py.Clean(flow.Get(SliceRef))))
  }

  ghost predicate SessionFor(py: Python, ue: Json, flow: Json) {
    ue.Get(Sessions).List? && exists session | session in ue.Get(Sessions).items :: CarriesFlow(py, ue, flow, session)
  }

  ghost predicate CarriesFlow(py: Python, ue: Json, flow: Json, session: Json) {
    && SessionMatches(py, session, py.Clean(flow.Get(AppId)), py.Clean(flow.Get(SliceRef)), py.Clean(flow.Get(SessionRef)))
    && py.Clean(flow.Get(SessionRef)) == ExpectedRef(py, py.Clean(ue.Get(Supi)), session)
  }

  ghost predicate ServedBy(py: Python, gnbs: seq<Json>, gnb: string, slice: string) {
    exists g :: IsThe(py, gnbs, Name, gnb, g) && slice in Advertised(py, gnbs[g])
  }

  lemma SessionIsServed(py: Python, scenario: Json, u: nat, session: Json)
    requires LoaderOk(py, scenario) && IdentifiersOk(py, scenario) && ReferencesOk(py, scenario)
    requires u < |ItemsOf(scenario, Ues)| && ItemsOf(scenario, Ues)[u].Obj?
    requires session in ItemsOf(scenario, Ues)[u].Get(Sessions).items
    requires py.Clean(ItemsOf(scenario, Ues)[u].Get(Gnb)) != ""
    ensures ServedBy(py, ItemsOf(scenario, Gnbs), py.Clean(ItemsOf(scenario, Ues)[u].Get(Gnb)), py.Clean(session.Get(SliceRef)))
  {
    var ue, gnbs := ItemsOf(scenario, Ues)[u], ItemsOf(scenario, Gnbs);
    var gnb := py.Clean(ue.Get(Gnb));
    assert LoaderUeOk(py, ue);
    var slices, apps := ItemsOf(scenario, Slices), ItemsOf(scenario, Apps);
    assert UeOk(py, ue, Ids(py, slices, Label), Ids(py, gnbs, Name), GnbSlices(py, gnbs), Ids(py, apps, AppId));
    var g := FindThe(py, gnbs, Name, gnb);
    GnbSlicesFinds(py, gnbs, gnb, g);
    var k :| 0 <= k < |ue.Get(Sessions).items| && ue.Get(Sessions).items[k] == session;
    assert Iter(ue.Get(Sessions)).value[k] == session;
    assert LoaderSessionOk(py, session);
    assert SessionServed(py, session, GnbSlices(py, gnbs)[gnb]);
  }

  lemma FlowFacts(py: Python, c: Candidate, i: nat)
    requires CandidateOk(py, c) && i < |ItemsOf(c.scenario, Flows)|
    ensures var flow := ItemsOf(c.scenario, Flows)[i];
            && flow.Obj?
            && RefOk(py.Clean(flow.Get(AppId)), Ids(py, ItemsOf(c.scenario, Apps), AppId))
            && RefOk(py.Clean(flow.Get(UeName)), Ids(py, ItemsOf(c.scenario, Ues), Name))
            && CrossFlowOk(py, flow, ByKey(py, ItemsOf(c.scenario, Apps), AppId), ByKey(py, ItemsOf(c.scenario, Ues), Name))
  {
    var flow, ues, apps := ItemsOf(c.scenario, Flows)[i], ItemsOf(c.scenario, Ues), ItemsOf(c.scenario, Apps);
    assert IdOf(py, flow, FlowId) == IdList(py, ItemsOf(c.scenario, Flows), FlowId)[i];
    assert FlowOk(py, flow, Ids(py, ItemsOf(c.scenario, Slices), Label), Ids(py, ues, Name),
                  Ids(py, ues, Supi), Ids(py, apps, AppId));
  }

  lemma FlowSession(py: Python, ue: Json, flow: Json) returns (session: Json)
    requires LoaderUeOk(py, ue) && ue.Obj? && CrossUeOk(py, ue)
    requires HasSession(py, ue, py.Clean(flow.Get(AppId)), py.Clean(flow.Get(SliceRef)), py.Clean(flow.Get(SessionRef)))
    ensures session in ue.Get(Sessions).items && CarriesFlow(py, ue, flow, session)
  {
    var a, s, r := py.Clean(flow.Get(AppId)), py.Clean(flow.Get(SliceRef)), py.Clean(flow.Get(SessionRef));
    var sessions := Iter(ue.Get(Sessions)).value;
    assert sessions == ue.Get(Sessions).items;
    session :| session in sessions && SessionMatches(py, session, a, s, r);
    var k :| 0 <= k < |sessions| && sessions[k] == session;
    assert SessionNamed(py, py.Clean(ue.Get(Supi)), sessions[k]);
  }

  lemma FlowUe(py: Python, c: Candidate, i: nat) returns (u: int)
    requires CandidateOk(py, c) && i < |ItemsOf(c.scenario, Flows)|
    requires py.Clean(ItemsOf(c.scenario, Flows)[i].Get(UeName)) != ""
    ensures HasItsUe(py, c.scenario, ItemsOf(c.scenario, Flows)[i], u)
  {
    var flow, ues := ItemsOf(c.scenario, Flows)[i], ItemsOf(c.scenario, Ues);
    var ueName := py.Clean(flow.Get(UeName));
    FlowFacts(py, c, i);
    u := FindThe(py, ues, Name, ueName);
    ByKeyFinds(py, ues, Name, ueName, u);
    assert LoaderUeOk(py, ues[u]);
    assert CrossUeOk(py, ByKey(py, ues, Name)[ueName]);
    var session := FlowSession(py, ues[u], flow);
    if py.Clean(ues[u].Get(Gnb)) != "" {
      SessionIsServed(py, c.scenario, u, session);
    }
  }

  /** Every flow of an accepted candidate that names an app and a UE is wired up. */
  lemma AcceptedFlowsAreWired(py: Python, c: Candidate, i: nat)
    requires CandidateOk(py, c) && i < |ItemsOf(c.scenario, Flows)|
    requires py.Clean(ItemsOf(c.scenario, Flows)[i].Get(AppId)) != ""
    requires py.Clean(ItemsOf(c.scenario, Flows)[i].Get(UeName)) != ""
    ensures Wired(py, c.scenario, ItemsOf(c.scenario, Flows)[i])
  {
    var flow, apps := ItemsOf(c.scenario, Flows)[i], ItemsOf(c.scenario, Apps);
    FlowFacts(py, c, i);
    var a := FindThe(py, apps, AppId, py.Clean(flow.Get(AppId)));
    ByKeyFinds(py, apps, AppId, py.Clean(flow.Get(AppId)), a);
    assert HasItsApp(py, c.scenario, flow, a);
    var u := FlowUe(py, c, i);
  }

  /** No slice is promised away: what the flows on it are guaranteed together fits its capacity. */
  lemma AcceptedGuaranteesFit(py: Python, c: Candidate, j: nat)
    requires CandidateOk(py, c) && j < |ItemsOf(c.scenario, Slices)|
    ensures var slices, flows := ItemsOf(c.scenario, Slices), ItemsOf(c.scenario, Flows);
            var name, resource := py.Clean(slices[j].Get(Label)), slices[j].Get(Resource);
            && Requested(py, flows, name, GuaranteedBandwidthDl) <= Amount(py, resource.Get(CapacityDl))
            && Requested(py, flows, name, GuaranteedBandwidthUl) <= Amount(py, resource.Get(CapacityUl))
  {
    var slices, flows := ItemsOf(c.scenario, Slices), ItemsOf(c.scenario, Flows);
    var name, resource := py.Clean(slices[j].Get(Label)), slices[j].Get(Resource);
    var ids := IdList(py, slices, Label);
    assert ids[j].Some?;
    var k := FindThe(py, slices, Label, name);
    assert k == j;
    CapacitiesFind(py, slices, name, j);
    if name !in RequestedSlices(py, flows) {
      NothingRequested(py, flows, name);
      assert LoaderSliceOk(py, slices[j]);
      assert CAPACITY_FIELDS[0] == CapacityDl && CAPACITY_FIELDS[1] == CapacityUl;
      assert CapacityFieldOk(py, resource, CAPACITY_FIELDS[0]) && CapacityFieldOk(py, resource, CAPACITY_FIELDS[1]);
    }
  }

  lemma {:induction false} CapacitiesFind(py: Python, slices: seq<Json>, name: string, j: int)
    requires IsThe(py, slices, Label, name, j)
    requires forall i | 0 <= i < |slices| :: IdOf(py, slices[i], Label).Some?
    ensures name in Capacities(py, slices)
    ensures Capacities(py, slices)[name]
            == (Amount(py, slices[j].Get(Resource).Get(CapacityDl)), Amount(py, slices[j].Get(Resource).Get(CapacityUl)))
  {
    var n := |slices| - 1;
    if j < n {
      assert forall i | 0 <= i < n :: slices[..n][i] == slices[i];
      CapacitiesFind(py, slices[..n], name, j);
      assert IdOf(py, slices[n], Label) != Some(name);
    }
  }

  lemma {:induction false} NothingRequested(py: Python, flows: seq<Json>, slice: string)
    requires slice !in RequestedSlices(py, flows)
    ensures Requested(py, flows, slice, GuaranteedBandwidthDl) == 0.0
    ensures Requested(py, flows, slice, GuaranteedBandwidthUl) == 0.0
  {
    if flows != [] {
      var n := |flows| - 1;
      assert flows[n] in flows && forall flow | flow in flows[..n] :: flow in flows;
      NothingRequested(py, flows[..n], slice);
    }
  }
}
