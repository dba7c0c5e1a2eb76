/** The deterministic compilation of a plan into a scenario candidate. */
module DesignCompiler {
  import opened Strings
  import opened Documents
  import opened Validator
  import opened Design

  const DEFAULT_UE_KEY := "8baf473f2f8fd09487cccbd7097c6862"
  const DEFAULT_UE_OP := "8e27b6af0e692e750f32667a3b14605d"

  // ---- Derived identifiers ----

  function LabelOf(s: Slice): string {
    SliceLabel(s.sst, s.sd)
  }

  function SupiAt(i: nat): string {
    "imsi-208930000000" + Decimal(i + 1, 3)
  }

  function AppIdAt(i: nat): string {
    "app-" + Decimal(i + 1, 4)
  }

  function FlowIdAt(i: nat): string {
    "flow-" + Decimal(i + 1, 4)
  }

  function SupiOf(p: Design, ueKey: string): string
  {
    SupiAt(UeAt(p, ueKey))
  }

  /** The reference that a session and its flows share. */
  function RefFor(supi: string, appId: string, sliceName: string, apn: string): string {
    supi + ":" + appId + ":" + sliceName + ":" + apn
  }

  function SessionRefOf(p: Design, app: App, sliceKey: string): string {
    RefFor(SupiOf(p, app.ueKey), AppIdAt(AppAt(p, app.key)), LabelOf(SliceOf(p, sliceKey)), app.apn)
  }

  // ---- Sessions ----

  /** The flows of one app, in plan order. */
  function FlowsOfApp(flows: seq<Flow>, appKey: string): (own: seq<Flow>)
    ensures forall f | f in own :: f in flows && f.appKey == appKey
  {
    if flows == [] then []
    else
      var rest, last := FlowsOfApp(flows[..|flows| - 1], appKey), flows[|flows| - 1];
      if last.appKey == appKey then rest + [last] else rest
  }

  function OnSlice(flows: seq<Flow>, sliceKey: string): (group: seq<Flow>)
    ensures forall f | f in group :: f in flows && f.sliceKey == sliceKey
  {
    if flows == [] then []
    else
      var rest, last := OnSlice(flows[..|flows| - 1], sliceKey), flows[|flows| - 1];
      if last.sliceKey == sliceKey then rest + [last] else rest
  }

  /** The slices that some flows use, by first use. */
  function SliceOrder(flows: seq<Flow>): (keys: seq<string>)
    ensures forall k | k in keys :: OnSlice(flows, k) != []
    ensures forall f | f in flows :: f.sliceKey in keys
  {
    if flows == [] then []
    else
      var rest, last := SliceOrder(flows[..|flows| - 1]), flows[|flows| - 1].sliceKey;
      if last in rest then rest else rest + [last]
  }

  /** `min(flows, key=priority)`: the first flow of minimal priority value. */
  function Best(flows: seq<Flow>): (best: Flow)
    requires flows != []
    ensures best in flows
    ensures forall f | f in flows :: best.sla.priority <= f.sla.priority
  {
    var last := flows[|flows| - 1];
    if |flows| == 1 then last
    else
      var best := Best(flows[..|flows| - 1]);
      if last.sla.priority < best.sla.priority then last else best
  }

  function CompileSession(p: Design, app: App, sliceKey: string, best: Flow): Json {
    Obj(map[SliceRef := Text(LabelOf(SliceOf(p, sliceKey))),
            SessionRef := Text(SessionRefOf(p, app, sliceKey)),
            Apn := Text(app.apn),
            PduType := Text(app.pduType),
            FiveQi := Num(Int(best.fiveQi)),
            AppId := Text(AppIdAt(AppAt(p, app.key)))])
  }

  /** The sessions of one app, given its own flows: one for each slice they use. */
  function AppSessions(p: Design, app: App, own: seq<Flow>): (sessions: seq<Json>)
    ensures var order := SliceOrder(own);
            && |sessions| == |order|
            && forall i | 0 <= i < |order| :: sessions[i] == CompileSession(p, app, order[i], Best(OnSlice(own, order[i])))
  {
    var order := SliceOrder(own);
    seq(|order|, i requires 0 <= i < |order| => CompileSession(p, app, order[i], Best(OnSlice(own, order[i]))))
  }

  /** The sessions of a UE: those of its apps, among the first `n`, in plan order. */
  function UeSessions(p: Design, ueKey: string, n: nat): seq<Json>
    requires n <= |p.apps|
  {
    if n == 0 then []
    else UeSessions(p, ueKey, n - 1) + if p.apps[n - 1].ueKey == ueKey then AppSessions(p, p.apps[n - 1], FlowsOfApp(p.flows, p.apps[n - 1].key)) else []
  }

  // ---- Entities ----

  function Real(r: real): Json {
    Num(Float(r))
  }

  function TextList(xs: seq<string>): Json {
    List(seq(|xs|, i requires 0 <= i < |xs| => Text(xs[i])))
  }

  function CompileResource(r: SliceResource): Json {
    Obj(map[CapacityDl := Real(r.capacityDl), CapacityUl := Real(r.capacityUl),
            GuaranteedDl := Real(r.guaranteedDl), GuaranteedUl := Real(r.guaranteedUl),
            Priority := Num(Int(r.priority))])
  }

  function CompileSlice(s: Slice): Json {
    Obj(map[Sst := Num(Int(s.sst)), Sd := Text(Lower(s.sd)), Label := Text(LabelOf(s)),
            Resource := CompileResource(s.resource),
            Qos := Obj(map[LatencyMs := Real(s.qos.latency), JitterMs := Real(s.qos.jitter),
                           LossRate := Real(s.qos.lossRate), ProcessingDelayMs := Real(s.qos.processingDelay)])])
  }

  function CompileUpf(u: Upf): Json {
    Obj(map[Name := Text(u.name), Role := Text(u.role), Dnn := Text(u.dnn)])
  }

  function ServedLabels(p: Design, g: Gnb): seq<string>
  {
    seq(|g.served|, i requires 0 <= i < |g.served| => LabelOf(SliceOf(p, g.served[i])))
  }

  function CompileGnb(p: Design, i: nat): Json
    requires i < |p.gnbs|
  {
    var g := p.gnbs[i];
    Obj(map[Name := Text(g.name), Alias := Text(g.alias), Tac := Num(Int(g.tac)), Nci := Text(g.nci),
            Slices := TextList(ServedLabels(p, g)),
            BackhaulUpf := Text(UpfOf(p, g.backhaul).name)])
  }

  function PreferredNames(p: Design, u: Ue): seq<string>
  {
    seq(|u.preferred|, i requires 0 <= i < |u.preferred| => GnbOf(p, u.preferred[i]).name)
  }

  function CompileUe(p: Design, i: nat): Json
    requires i < |p.ues|
  {
    UeEntry(p, i, UeSessions(p, p.ues[i].key, |p.apps|))
  }

  function UeEntry(p: Design, i: nat, sessions: seq<Json>): Json
    requires i < |p.ues|
  {
    var u := p.ues[i];
    Obj(map[Name := Text(u.name), Supi := Text(SupiAt(i)), Field.Gnb := Text(GnbOf(p, u.attached).name),
            SimKey := Text(DEFAULT_UE_KEY), Op := Text(DEFAULT_UE_OP), OpType := Text("OPC"), Amf := Text("8000"),
            Free5gcPolicy := Obj(map[TargetGnb := Text(GnbOf(p, u.target).name),
                                     PreferredGnbs := TextList(PreferredNames(p, u))]),
            Sessions := List(sessions)])
  }

  /** The flow identifiers of an app, among the first `n` flows. */
  function AppFlowIds(p: Design, appKey: string, n: nat): seq<string>
    requires n <= |p.flows|
  {
    if n == 0 then []
    else AppFlowIds(p, appKey, n - 1) + if p.flows[n - 1].appKey == appKey then [FlowIdAt(n - 1)] else []
  }

  function CompileApp(p: Design, i: nat): Json
    requires i < |p.apps|
  {
    var a := p.apps[i];
    Obj(map[AppId := Text(AppIdAt(i)), Name := Text(a.name), Supi := Text(SupiOf(p, a.ueKey)),
            UeName := Text(UeOf(p, a.ueKey).name),
            FlowIds := TextList(AppFlowIds(p, a.key, |p.flows|))])
  }

  function ServiceName(s: Service): string {
    match s
    case EMbb => "eMBB"
    case Urllc => "URLLC"
    case MMtc => "mMTC"
  }

  function ServiceId(s: Service): int {
    match s
    case EMbb => 1
    case Urllc => 2
    case MMtc => 3
  }

  function CompileSla(s: Sla): Json {
    Obj(map[LatencyMs := Real(s.latency), JitterMs := Real(s.jitter), LossRate := Real(s.lossRate),
            BandwidthDl := Real(s.bandwidthDl), BandwidthUl := Real(s.bandwidthUl),
            GuaranteedBandwidthDl := Real(s.guaranteedDl), GuaranteedBandwidthUl := Real(s.guaranteedUl),
            Priority := Num(Int(s.priority))])
  }

  function CompileFlow(p: Design, i: nat): Json
    requires i < |p.flows|
  {
    var f := p.flows[i];
    var a := AppAt(p, f.appKey);
    var app, slice := AppOf(p, f.appKey), SliceOf(p, f.sliceKey);
    Obj(map[FlowId := Text(FlowIdAt(i)), Name := Text(f.name), Supi := Text(SupiOf(p, app.ueKey)),
            AppId := Text(AppIdAt(a)), SliceRef := Text(LabelOf(slice)),
            SessionRef := Text(SessionRefOf(p, app, f.sliceKey)),
            UeName := Text(UeOf(p, app.ueKey).name), AppName := Text(app.name),
            FiveQi := Num(Int(f.fiveQi)), ServiceType := Text(ServiceName(f.service)),
            ServiceTypeId := Num(Int(ServiceId(f.service))),
            PacketSize := Real(f.traffic.packetSize), ArrivalRate := Real(f.traffic.arrivalRate),
            DlPacketSize := Real(f.traffic.dlPacketSize), UlPacketSize := Real(f.traffic.ulPacketSize),
            DlArrivalRate := Real(f.traffic.dlArrivalRate), UlArrivalRate := Real(f.traffic.ulArrivalRate),
            CurrentSlice := Text(Decimal(slice.sst, 2) + Lower(slice.sd)),
            AllocatedDl := Real(f.dlShare), AllocatedUl := Real(f.ulShare),
            OptimizeRequested := Bool(f.optimize),
            SlaTarget := CompileSla(f.sla)])
  }

  // ---- The scenario ----

  /** `scenario_id.lower().replace("-", "_") + ".yaml"` */
  function FileName(scenarioId: string): string {
    var lower := Lower(scenarioId);
    seq(|lower|, i requires 0 <= i < |lower| => if lower[i] == '-' then '_' else lower[i]) + ".yaml"
  }

  function ScenarioOf(p: Design): Json {
    Assemble(p, seq(|p.ues|, i requires 0 <= i < |p.ues| => CompileUe(p, i)))
  }

  function Assemble(p: Design, ues: seq<Json>): Json {
    var h := p.header;
    Obj(map[Name := Text(h.name), ScenarioId := Text(h.scenarioId), TickMs := Num(Int(h.tickMs)), Seed := Num(Int(h.seed)),
            Slices := List(seq(|p.slices|, i requires 0 <= i < |p.slices| => CompileSlice(p.slices[i]))),
            Upfs := List(seq(|p.upfs|, i requires 0 <= i < |p.upfs| => CompileUpf(p.upfs[i]))),
            Gnbs := List(seq(|p.gnbs|, i requires 0 <= i < |p.gnbs| => CompileGnb(p, i))),
            Ues := List(ues),
            Apps := List(seq(|p.apps|, i requires 0 <= i < |p.apps| => CompileApp(p, i))),
            Flows := List(seq(|p.flows|, i requires 0 <= i < |p.flows| => CompileFlow(p, i))),
            Free5gc := Obj(p.runtime.free5gc), Ns3 := Obj(p.runtime.ns3), Writer := Obj(p.runtime.writer),
            Topology := Obj(map[GraphFile := Text("graphs/" + FileName(h.scenarioId))]),
            Bridge := Obj(p.runtime.bridge)])
  }

  function OverlayOf(p: Design): Json {
    var h := p.header;
    Obj(map[Name := Text(h.name + "-split"), ScenarioId := Text(h.scenarioId + "-split"),
            BaseScenario := Text("../" + FileName(h.scenarioId)),
            Ns3 := Obj(p.runtime.splitNs3), RuntimeMode := Obj(p.runtime.splitRuntime), Radio := Obj(p.runtime.splitRadio)])
  }

  function CandidateOf(p: Design): Candidate
  {
    Candidate(p.header.scenarioId, p.header.name, ScenarioOf(p), OverlayOf(p))
  }

  // ---- The derived identifiers of the report ----

  datatype Identifiers = Identifiers(sliceLabels: map<string, string>, upfNames: map<string, string>, gnbNames: map<string, string>,
                                     ueNames: map<string, string>, ueSupis: map<string, string>,
                                     appIds: map<string, string>, flowIds: map<string, string>)

  /** `{item.key: ... for index, item in enumerate(items)}` */
  function Labelled<T>(items: seq<T>, key: T -> string, idOf: (nat, T) -> string): map<string, string> {
    if items == [] then map[]
    else
      var n := |items| - 1;
      Labelled(items[..n], key, idOf)[key(items[n]) := idOf(n, items[n])]
  }

  function IdentifiersOf(p: Design): Identifiers {
    Identifiers(Labelled(p.slices, SliceKey, (i: nat, x: Slice) => LabelOf(x)),
                Labelled(p.upfs, UpfKey, (i: nat, x: Upf) => x.name),
                Labelled(p.gnbs, GnbKey, (i: nat, x: Gnb) => x.name),
                Labelled(p.ues, UeKey, (i: nat, x: Ue) => x.name),
                Labelled(p.ues, UeKey, (i: nat, x: Ue) => SupiAt(i)),
                Labelled(p.apps, AppKey, (i: nat, x: App) => AppIdAt(i)),
                Labelled(p.flows, FlowKey, (i: nat, x: Flow) => FlowIdAt(i)))
  }
}
