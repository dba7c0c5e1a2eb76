/** The semantic environment design of src/environment/design.py: what a catalog and a design are, when
    the compiler accepts them, and the scenario it derives. */
module Design {
  import opened Strings
  import opened Documents
  import opened Validator

  datatype SliceResource = SliceResource(capacityDl: real, capacityUl: real, guaranteedDl: real, guaranteedUl: real, priority: int)
  datatype SliceQos = SliceQos(latency: real, jitter: real, lossRate: real, processingDelay: real)
  datatype Slice = Slice(key: string, sst: nat, sd: string, resource: SliceResource, qos: SliceQos, rationale: string)
  datatype Upf = Upf(key: string, name: string, role: string, dnn: string, rationale: string)
  datatype Gnb = Gnb(key: string, name: string, alias: string, tac: int, nci: string,
                     served: seq<string>, backhaul: string, rationale: string)
  datatype Ue = Ue(key: string, name: string, attached: string, target: string, preferred: seq<string>, rationale: string)
  datatype App = App(key: string, name: string, ueKey: string, apn: string, pduType: string, rationale: string)
  datatype Traffic = Traffic(packetSize: real, arrivalRate: real, dlPacketSize: real, ulPacketSize: real,
                             dlArrivalRate: real, ulArrivalRate: real)
  datatype Sla = Sla(latency: real, jitter: real, lossRate: real, bandwidthDl: real, bandwidthUl: real,
                     guaranteedDl: real, guaranteedUl: real, priority: int)
  datatype Flow = Flow(key: string, name: string, appKey: string, sliceKey: string, fiveQi: int, service: Service,
                       traffic: Traffic, sla: Sla, dlShare: real, ulShare: real, optimize: bool, rationale: string)
  datatype Service = EMbb | Urllc | MMtc
  datatype Runtime = Runtime(free5gc: map<Field, Json>, ns3: map<Field, Json>, writer: map<Field, Json>, bridge: map<Field, Json>,
                             splitNs3: map<Field, Json>, splitRuntime: map<Field, Json>, splitRadio: map<Field, Json>)

  datatype Header = Header(scenarioId: string, name: string, objective: string, rationale: string, tickMs: int, seed: int)

  /** A design; a plan is a design whose sections follow the catalog's order. */
  datatype Design = Design(header: Header, slices: seq<Slice>, upfs: seq<Upf>, gnbs: seq<Gnb>,
                           ues: seq<Ue>, apps: seq<App>, flows: seq<Flow>, runtime: Runtime)

  datatype Counts = Counts(slices: int, upfs: int, gnbs: int, ues: int, apps: int, flows: int)

  datatype Catalog = Catalog(scenarioId: string, objective: string, rationale: string, expected: Counts,
                             sliceKeys: seq<string>, upfKeys: seq<string>, gnbKeys: seq<string>,
                             ueKeys: seq<string>, appKeys: seq<string>, flowKeys: seq<string>)
  {
    function Sections(): seq<seq<string>> {
      [sliceKeys, upfKeys, gnbKeys, ueKeys, appKeys, flowKeys]
    }

    function Expected(): seq<int> {
      [expected.slices, expected.upfs, expected.gnbs, expected.ues, expected.apps, expected.flows]
    }
  }

  function SliceKey(x: Slice): string { x.key }
  function UpfKey(x: Upf): string { x.key }
  function GnbKey(x: Gnb): string { x.key }
  function UeKey(x: Ue): string { x.key }
  function AppKey(x: App): string { x.key }
  function FlowKey(x: Flow): string { x.key }

  function Keys<T>(items: seq<T>, key: T -> string): (keys: seq<string>)
    ensures |keys| == |items| && forall i | 0 <= i < |items| :: keys[i] == key(items[i])
  {
    seq(|items|, i requires 0 <= i < |items| => key(items[i]))
  }

  function DesignSections(d: Design): seq<seq<string>> {
    [Keys(d.slices, SliceKey), Keys(d.upfs, UpfKey), Keys(d.gnbs, GnbKey),
     Keys(d.ues, UeKey), Keys(d.apps, AppKey), Keys(d.flows, FlowKey)]
  }

  /** `{item.key: item for item in items}` */
  function KeyMap<T>(items: seq<T>, key: T -> string): (m: map<string, T>)
    ensures forall k | k in m :: key(m[k]) == k && m[k] in items
    ensures forall i | 0 <= i < |items| :: key(items[i]) in m
  {
    if items == [] then map[]
    else
      var last := items[|items| - 1];
      KeyMap(items[..|items| - 1], key)[key(last) := last]
  }

  lemma KeysMapped<T>(items: seq<T>, key: T -> string, k: string)
    ensures k in Keys(items, key) <==> k in KeyMap(items, key)
  {
    if k in Keys(items, key) {
      var i :| 0 <= i < |items| && Keys(items, key)[i] == k;
    }
    if k in KeyMap(items, key) {
      var i :| 0 <= i < |items| && items[i] == KeyMap(items, key)[k];
      assert Keys(items, key)[i] == k;
    }
  }

  predicate DistinctKeys(keys: seq<string>) {
    forall i, j | 0 <= i < j < |keys| :: keys[i] != keys[j]
  }

  predicate SameKeys(a: seq<string>, b: seq<string>) {
    (forall k | k in a :: k in b) && (forall k | k in b :: k in a)
  }

  predicate RefsIn(refs: seq<string>, keys: seq<string>) {
    forall k | k in refs :: k in keys
  }

  // ---- What the compiler accepts ----

  predicate CatalogSectionOk(keys: seq<string>, expected: int) {
    DistinctKeys(keys) && |keys| == expected && forall k | k in keys :: Strip(k) != ""
  }

  predicate CatalogOk(c: Catalog) {
    forall i | 0 <= i < 6 :: CatalogSectionOk(c.Sections()[i], c.Expected()[i])
  }

  predicate SectionComplete(declared: seq<string>, actual: seq<string>) {
    DistinctKeys(actual) && SameKeys(declared, actual)
  }

  /** The flow's slice is served by the gNB that its app's UE attaches to. */
  predicate FlowServed(flow: Flow, apps: map<string, App>, ues: map<string, Ue>, gnbs: map<string, Gnb>) {
    flow.appKey in apps && apps[flow.appKey].ueKey in ues ==>
      var gnb := ues[apps[flow.appKey].ueKey].attached;
      gnb in gnbs && flow.sliceKey in gnbs[gnb].served
  }

  ghost predicate SectionsComplete(c: Catalog, d: Design) {
    forall i | 0 <= i < 6 :: SectionComplete(c.Sections()[i], DesignSections(d)[i])
  }

  ghost predicate GnbDeclared(c: Catalog, g: Gnb) {
    RefsIn(g.served, c.sliceKeys) && g.backhaul in c.upfKeys
  }

  ghost predicate UeDeclared(c: Catalog, u: Ue) {
    u.attached in c.gnbKeys && u.target in c.gnbKeys && RefsIn(u.preferred, c.gnbKeys)
  }

  ghost predicate FlowDeclared(c: Catalog, d: Design, f: Flow) {
    && f.appKey in c.appKeys && f.sliceKey in c.sliceKeys
    && FlowServed(f, KeyMap(d.apps, AppKey), KeyMap(d.ues, UeKey), KeyMap(d.gnbs, GnbKey))
  }

  ghost predicate EntitiesDeclared(c: Catalog, d: Design) {
    && (forall i | 0 <= i < |d.gnbs| :: GnbDeclared(c, d.gnbs[i]))
    && (forall i | 0 <= i < |d.ues| :: UeDeclared(c, d.ues[i]))
    && (forall i | 0 <= i < |d.apps| :: d.apps[i].ueKey in c.ueKeys)
  }

  ghost predicate FlowsDeclared(c: Catalog, d: Design) {
    forall i | 0 <= i < |d.flows| :: FlowDeclared(c, d, d.flows[i])
  }

  predicate AppUsed(flows: seq<Flow>, key: string) {
    exists j :: 0 <= j < |flows| && flows[j].appKey == key
  }

  predicate UeUsed(apps: seq<App>, key: string) {
    exists j :: 0 <= j < |apps| && apps[j].ueKey == key
  }

  ghost predicate AppsUsed(d: Design) {
    forall i | 0 <= i < |d.apps| :: AppUsed(d.flows, d.apps[i].key)
  }

  ghost predicate UesUsed(d: Design) {
    forall i | 0 <= i < |d.ues| :: UeUsed(d.apps, d.ues[i].key)
  }

  ghost predicate Complete(c: Catalog, d: Design) {
    SectionsComplete(c, d) && EntitiesDeclared(c, d) && FlowsDeclared(c, d) && AppsUsed(d) && UesUsed(d)
  }

  ghost predicate Accepts(c: Catalog, d: Design) {
    && CatalogOk(c)
    && d.header.scenarioId == c.scenarioId && d.header.objective == c.objective
    && Complete(c, d)
  }

  // ---- The plan: the design in catalog order ----

  function Ordered<T>(keys: seq<string>, m: map<string, T>): (xs: seq<T>)
    requires forall k | k in keys :: k in m
    ensures |xs| == |keys| && forall i | 0 <= i < |keys| :: xs[i] == m[keys[i]]
  {
    seq(|keys|, i requires 0 <= i < |keys| => m[keys[i]])
  }

  lemma KeysCovered<T>(declared: seq<string>, items: seq<T>, key: T -> string)
    requires SameKeys(declared, Keys(items, key))
    ensures forall k | k in declared :: k in KeyMap(items, key)
  {
    forall k | k in declared
      ensures k in KeyMap(items, key)
    {
      assert k in Keys(items, key);
      var i :| 0 <= i < |items| && Keys(items, key)[i] == k;
    }
  }

  lemma SectionsCovered(c: Catalog, d: Design)
    requires Accepts(c, d)
    ensures forall k | k in c.sliceKeys :: k in KeyMap(d.slices, SliceKey)
    ensures forall k | k in c.upfKeys :: k in KeyMap(d.upfs, UpfKey)
    ensures forall k | k in c.gnbKeys :: k in KeyMap(d.gnbs, GnbKey)
    ensures forall k | k in c.ueKeys :: k in KeyMap(d.ues, UeKey)
    ensures forall k | k in c.appKeys :: k in KeyMap(d.apps, AppKey)
    ensures forall k | k in c.flowKeys :: k in KeyMap(d.flows, FlowKey)
  {
    assert forall i | 0 <= i < 6 :: SectionComplete(c.Sections()[i], DesignSections(d)[i]);
    assert SameKeys(c.Sections()[0], DesignSections(d)[0]) && SameKeys(c.Sections()[1], DesignSections(d)[1]);
    assert SameKeys(c.Sections()[2], DesignSections(d)[2]) && SameKeys(c.Sections()[3], DesignSections(d)[3]);
    assert SameKeys(c.Sections()[4], DesignSections(d)[4]) && SameKeys(c.Sections()[5], DesignSections(d)[5]);
    KeysCovered(c.sliceKeys, d.slices, SliceKey);
    KeysCovered(c.upfKeys, d.upfs, UpfKey);
    KeysCovered(c.gnbKeys, d.gnbs, GnbKey);
    KeysCovered(c.ueKeys, d.ues, UeKey);
    KeysCovered(c.appKeys, d.apps, AppKey);
    KeysCovered(c.flowKeys, d.flows, FlowKey);
  }

  /** `_ordered_entities` */
  function PlanOf(c: Catalog, d: Design): Design
    requires Accepts(c, d)
  {
    SectionsCovered(c, d);
    d.(slices := Ordered(c.sliceKeys, KeyMap(d.slices, SliceKey)),
       upfs := Ordered(c.upfKeys, KeyMap(d.upfs, UpfKey)),
       gnbs := Ordered(c.gnbKeys, KeyMap(d.gnbs, GnbKey)),
       ues := Ordered(c.ueKeys, KeyMap(d.ues, UeKey)),
       apps := Ordered(c.appKeys, KeyMap(d.apps, AppKey)),
       flows := Ordered(c.flowKeys, KeyMap(d.flows, FlowKey)))
  }

  /** Position of a key, or the length. */
  function At(keys: seq<string>, k: string): (i: nat)
    ensures i <= |keys|
    ensures i < |keys| ==> keys[i] == k
    ensures k in keys ==> i < |keys|
  {
    if keys == [] then 0 else if keys[0] == k then 0 else 1 + At(keys[1..], k)
  }

  predicate HasSlice(p: Design, k: string) { k in Keys(p.slices, SliceKey) }
  predicate HasUpf(p: Design, k: string) { k in Keys(p.upfs, UpfKey) }
  predicate HasGnb(p: Design, k: string) { k in Keys(p.gnbs, GnbKey) }
  predicate HasUe(p: Design, k: string) { k in Keys(p.ues, UeKey) }
  predicate HasApp(p: Design, k: string) { k in Keys(p.apps, AppKey) }

  // The lookups by key.  The program would raise on an unknown key; acceptance rules that out (`PlanOk`),
  // and the lookups below return an empty entity there.
  const NO_SLICE := Slice("", 0, "", SliceResource(0.0, 0.0, 0.0, 0.0, 0), SliceQos(0.0, 0.0, 0.0, 0.0), "")
  const NO_UPF := Upf("", "", "", "", "")
  const NO_GNB := Gnb.Gnb("", "", "", 0, "", [], "", "")
  const NO_UE := Ue("", "", "", "", [], "")
  const NO_APP := App("", "", "", "", "", "")

  function Nth<T>(xs: seq<T>, i: nat, default: T): T {
    if i < |xs| then xs[i] else default
  }

  function UeAt(p: Design, k: string): nat { At(Keys(p.ues, UeKey), k) }
  function AppAt(p: Design, k: string): nat { At(Keys(p.apps, AppKey), k) }

  function SliceOf(p: Design, k: string): Slice { Nth(p.slices, At(Keys(p.slices, SliceKey), k), NO_SLICE) }
  function UpfOf(p: Design, k: string): Upf { Nth(p.upfs, At(Keys(p.upfs, UpfKey), k), NO_UPF) }
  function GnbOf(p: Design, k: string): Gnb { Nth(p.gnbs, At(Keys(p.gnbs, GnbKey), k), NO_GNB) }
  function UeOf(p: Design, k: string): Ue { Nth(p.ues, UeAt(p, k), NO_UE) }
  function AppOf(p: Design, k: string): App { Nth(p.apps, AppAt(p, k), NO_APP) }

  // ---- What acceptance gives the plan: unique keys, resolved references, and nobody idle ----

  ghost predicate KeysUnique(p: Design) {
    && DistinctKeys(Keys(p.slices, SliceKey)) && DistinctKeys(Keys(p.upfs, UpfKey)) && DistinctKeys(Keys(p.gnbs, GnbKey))
    && DistinctKeys(Keys(p.ues, UeKey)) && DistinctKeys(Keys(p.apps, AppKey)) && DistinctKeys(Keys(p.flows, FlowKey))
  }

  ghost predicate GnbRefs(p: Design) {
    forall i | 0 <= i < |p.gnbs| :: (forall k | k in p.gnbs[i].served :: HasSlice(p, k)) && HasUpf(p, p.gnbs[i].backhaul)
  }

  ghost predicate UeRefs(p: Design) {
    forall i | 0 <= i < |p.ues| :: HasGnb(p, p.ues[i].attached) && HasGnb(p, p.ues[i].target)
                                  && forall k | k in p.ues[i].preferred :: HasGnb(p, k)
  }

  ghost predicate AppRefs(p: Design) {
    forall i | 0 <= i < |p.apps| :: HasUe(p, p.apps[i].ueKey)
  }

  ghost predicate FlowRefs(p: Design) {
    forall i | 0 <= i < |p.flows| :: HasApp(p, p.flows[i].appKey) && HasSlice(p, p.flows[i].sliceKey)
  }

  ghost predicate AllServed(p: Design) {
    forall i | 0 <= i < |p.flows| ::
      p.flows[i].sliceKey in GnbOf(p, UeOf(p, AppOf(p, p.flows[i].appKey).ueKey).attached).served
  }

  ghost predicate PlanOk(p: Design) {
    && KeysUnique(p) && GnbRefs(p) && UeRefs(p) && AppRefs(p) && FlowRefs(p) && AllServed(p) && AppsUsed(p) && UesUsed(p)
  }
}
