/** SLA alerts from flow telemetry: src/control_runtime/monitoring/flow_monitor.py. */
module FlowMonitor {
  import opened Strings
  import opened Documents
  import opened Lists
  import opened Sorting

  /** A metric by its dotted name, and where a flow's properties hold its observation and its target. */
  datatype Metric = Metric(name: string, observed: Field, target: Field, upper: bool)

  const UPPER_BOUND_METRICS: seq<Metric> :=
    [Metric("telemetry.latency", Latency, Latency, true),
     Metric("telemetry.jitter", Jitter, Jitter, true),
     Metric("telemetry.loss_rate", LossRate, LossRate, true)]
  const LOWER_BOUND_METRICS: seq<Metric> :=
    [Metric("telemetry.throughput_ul", ThroughputUl, GuaranteedBandwidthUl, false),
     Metric("telemetry.throughput_dl", ThroughputDl, GuaranteedBandwidthDl, false)]

  datatype Severity = Critical | Major | Minor

  /** `readings` holds the latest sampled value of a metric, by its dotted name. */
  datatype Node = Node(key: string, properties: Json, readings: map<string, Json>)

  datatype Alert = Alert(flowId: string, supi: string, appId: string, violated: seq<Metric>, maxRatio: real, severity: Severity)

  // ---- One metric of one flow ----

  function Finite(py: Python, j: Json): Option<real> {
    var n := py.ToFloat(j);
    if n.Some? then AsReal(n.value) else None
  }

  function Observed(py: Python, n: Node, m: Metric): Option<real> {
    if m.name in n.readings && Finite(py, n.readings[m.name]).Some? then Finite(py, n.readings[m.name])
    else Finite(py, n.properties.Get(Telemetry).Get(m.observed))
  }

  function Target(py: Python, n: Node, m: Metric): Option<real> {
    Finite(py, n.properties.Get(Sla).Get(m.target))
  }

  predicate Beyond(observed: real, target: real, upper: bool, tolerance: real) {
    if upper then observed > target * (1.0 + tolerance) else observed < target * (1.0 - tolerance)
  }

  /** The observation misses a positive target by more than the tolerance. */
  predicate Violates(py: Python, tolerance: real, n: Node, m: Metric) {
    var observed, target := Observed(py, n, m), Target(py, n, m);
    observed.Some? && target.Some? && target.value > 0.0 && Beyond(observed.value, target.value, m.upper, tolerance)
  }

  function Ratio(py: Python, n: Node, m: Metric): real {
    var observed, target := Observed(py, n, m), Target(py, n, m);
    if observed.None? || target.None? || target.value <= 0.0 then 0.0
    else if m.upper then (observed.value - target.value) / target.value
    else (target.value - observed.value) / target.value
  }

  function Violated(py: Python, tolerance: real, n: Node, metrics: seq<Metric>): seq<Metric> {
    if metrics == [] then []
    else
      var last := metrics[|metrics| - 1];
      Violated(py, tolerance, n, metrics[..|metrics| - 1]) + if Violates(py, tolerance, n, last) then [last] else []
  }

  function MaxOf(a: real, b: real): real {
    if b > a then b else a
  }

  function MaxRatio(py: Python, n: Node, violated: seq<Metric>): real {
    if violated == [] then 0.0
    else MaxOf(MaxRatio(py, n, violated[..|violated| - 1]), Ratio(py, n, violated[|violated| - 1]))
  }

  function SeverityOf(maxRatio: real, count: nat): Severity {
    if maxRatio >= 0.5 || count >= 2 then Critical
    else if maxRatio >= 0.2 then Major
    else Minor
  }

  // ---- One flow ----

  function SplitAtColons(s: string): (parts: seq<string>)
    ensures |parts| > 0
  {
    if s == "" then [""]
    else
      var rest := SplitAtColons(s[1..]);
      if s[0] == ':' then [""] + rest else [[s[0]] + rest[0]] + rest[1..]
  }

  /** The `k`-th part of a node key `flow:supi:app:flow`, or nothing. */
  function KeyPart(key: string, k: nat): string
    requires 1 <= k <= 3
  {
    var parts := SplitAtColons(Strip(key));
    if |parts| < 4 || parts[0] != "flow" then "" else Strip(parts[k])
  }

  function FlowIdOf(py: Python, n: Node): string {
    var own := if n.properties.Get(FlowId).Truthy() then py.Clean(n.properties.Get(FlowId)) else py.Clean(n.properties.Get(Id));
    if own != "" then own else KeyPart(n.key, 3)
  }

  function BoundTo(py: Python, n: Node, f: Field, k: nat): string
    requires 1 <= k <= 3
  {
    if n.properties.Get(f).Truthy() then py.Clean(n.properties.Get(f)) else KeyPart(n.key, k)
  }

  const METRICS := UPPER_BOUND_METRICS + LOWER_BOUND_METRICS

  function AlertFrom(py: Python, n: Node, violated: seq<Metric>): Alert {
    var ratio := MaxRatio(py, n, violated);
    Alert(FlowIdOf(py, n), BoundTo(py, n, Supi, 1), BoundTo(py, n, AppId, 2), violated, ratio, SeverityOf(ratio, |violated|))
  }

  /** `_evaluate_flow_node`: an alert exactly for a flow with a violated metric. */
  function AlertOf(py: Python, tolerance: real, n: Node): (alert: Option<Alert>)
    ensures alert.Some? <==> Violated(py, tolerance, n, METRICS) != []
  {
    var violated := Violated(py, tolerance, n, METRICS);
    if violated == [] then None else Some(AlertFrom(py, n, violated))
  }

  method EvaluateMetrics(py: Python, tolerance: real, n: Node, metrics: seq<Metric>, before: seq<Metric>, ratioBefore: real)
    returns (violated: seq<Metric>, maxRatio: real)
    requires ratioBefore == MaxRatio(py, n, before)
    ensures violated == before + Violated(py, tolerance, n, metrics) && maxRatio == MaxRatio(py, n, violated)
  {
    violated, maxRatio := before, ratioBefore;
    for i := 0 to |metrics|
      invariant violated == before + Violated(py, tolerance, n, metrics[..i]) && maxRatio == MaxRatio(py, n, violated)
    {
      var m := metrics[i];
      assert metrics[..i + 1][..i] == metrics[..i];
      if Violates(py, tolerance, n, m) {
        maxRatio := MaxOf(maxRatio, Ratio(py, n, m));
        assert (violated + [m])[..|violated|] == violated;
        violated := violated + [m];
      }
    }
    assert metrics[..|metrics|] == metrics;
  }

  lemma {:induction false} ViolatedAppend(py: Python, tolerance: real, n: Node, a: seq<Metric>, b: seq<Metric>)
    ensures Violated(py, tolerance, n, a + b) == Violated(py, tolerance, n, a) + Violated(py, tolerance, n, b)
  {
    if b == [] {
      AppendNothing(a, b);
    } else {
      AppendInit(a, b);
      ViolatedAppend(py, tolerance, n, a, b[..|b| - 1]);
    }
  }

  method EvaluateBounds(py: Python, tolerance: real, n: Node, upper: seq<Metric>, lower: seq<Metric>)
    returns (violated: seq<Metric>, maxRatio: real)
    ensures violated == Violated(py, tolerance, n, upper + lower) && maxRatio == MaxRatio(py, n, violated)
  {
    violated, maxRatio := EvaluateMetrics(py, tolerance, n, upper, [], 0.0);
    violated, maxRatio := EvaluateMetrics(py, tolerance, n, lower, violated, maxRatio);
    ViolatedAppend(py, tolerance, n, upper, lower);
  }

  method EvaluateFlowNode(py: Python, tolerance: real, n: Node) returns (alert: Option<Alert>)
    ensures alert == AlertOf(py, tolerance, n)
  {
    var violated, maxRatio := EvaluateBounds(py, tolerance, n, UPPER_BOUND_METRICS, LOWER_BOUND_METRICS);
    alert := BuildAlert(py, n, violated, maxRatio);
  }

  method BuildAlert(py: Python, n: Node, violated: seq<Metric>, maxRatio: real) returns (alert: Option<Alert>)
    requires maxRatio == MaxRatio(py, n, violated)
    ensures alert == if violated == [] then None else Some(AlertFrom(py, n, violated))
  {
    if violated == [] {
      return None;
    }
    return Some(Alert(FlowIdOf(py, n), BoundTo(py, n, Supi, 1), BoundTo(py, n, AppId, 2), violated, maxRatio,
                      SeverityOf(maxRatio, |violated|)));
  }

  // ---- What an alert says ----

  lemma {:induction false} ViolatedMembers(py: Python, tolerance: real, n: Node, metrics: seq<Metric>, m: Metric)
    ensures m in Violated(py, tolerance, n, metrics) <==> m in metrics && Violates(py, tolerance, n, m)
  {
    if metrics != [] {
      ViolatedMembers(py, tolerance, n, metrics[..|metrics| - 1], m);
      assert metrics == metrics[..|metrics| - 1] + [metrics[|metrics| - 1]];
    }
  }

  lemma QuotientBeyond(gap: real, target: real, t: real)
    requires target > 0.0 && gap > target * t
    ensures gap / target > t
  {
    var excess := gap - target * t;
    assert gap / target - t == excess / target;
  }

  /** A violated metric deviates from its target by more than the tolerance. */
  lemma RatioBeyond(py: Python, tolerance: real, n: Node, m: Metric)
    requires Violates(py, tolerance, n, m)
    ensures Ratio(py, n, m) > tolerance
  {
    var observed, target := Observed(py, n, m).value, Target(py, n, m).value;
    QuotientBeyond(if m.upper then observed - target else target - observed, target, tolerance);
  }

  lemma {:induction false} MaxRatioIs(py: Python, n: Node, violated: seq<Metric>)
    ensures forall k | 0 <= k < |violated| :: Ratio(py, n, violated[k]) <= MaxRatio(py, n, violated)
    ensures MaxRatio(py, n, violated) > 0.0 ==> exists k :: 0 <= k < |violated| && Ratio(py, n, violated[k]) == MaxRatio(py, n, violated)
  {
    if violated != [] {
      var init := violated[..|violated| - 1];
      MaxRatioIs(py, n, init);
      assert forall k | 0 <= k < |init| :: violated[k] == init[k];
    }
  }

  /** An alert lists exactly the violated metrics; it is critical exactly when there are two of them, or
      one deviates by half its target; otherwise it is major exactly when one deviates by a fifth. */
  lemma AlertExactly(py: Python, tolerance: real, n: Node)
    requires AlertOf(py, tolerance, n).Some?
    ensures var a := AlertOf(py, tolerance, n).value;
            && (forall m :: m in a.violated <==> m in METRICS && Violates(py, tolerance, n, m))
            && (a.severity == Critical <==> |a.violated| >= 2 || exists k :: 0 <= k < |a.violated| && Ratio(py, n, a.violated[k]) >= 0.5)
            && (a.severity != Minor <==> |a.violated| >= 2 || exists k :: 0 <= k < |a.violated| && Ratio(py, n, a.violated[k]) >= 0.2)
  {
    var violated := Violated(py, tolerance, n, METRICS);
    forall m {
      ViolatedMembers(py, tolerance, n, METRICS, m);
    }
    MaxRatioIs(py, n, violated);
  }

  // ---- Ranking ----

  /** Python's order on strings. */
  predicate TextLeq(a: string, b: string) {
    a == "" || (b != "" && (a[0] < b[0] || (a[0] == b[0] && TextLeq(a[1..], b[1..]))))
  }

  function Word(s: Severity): string {
    match s
    case Critical => "critical"
    case Major => "major"
    case Minor => "minor"
  }

  function Rank(s: Severity): nat {
    match s
    case Critical => 0
    case Major => 1
    case Minor => 2
  }

  /** The alphabetical order of the three words is their order of severity. */
  lemma WordsRank(a: Severity, b: Severity)
    ensures TextLeq(Word(a), Word(b)) <==> Rank(a) <= Rank(b)
  {
    assert "critical"[0] == 'c' && "major"[0] == 'm' && "minor"[0] == 'm';
    assert "major"[1..][0] == 'a' && "minor"[1..][0] == 'i';
    TextReflexive(Word(a));
  }

  lemma {:induction false} TextReflexive(a: string)
    ensures TextLeq(a, a)
  {
    if a != "" {
      TextReflexive(a[1..]);
    }
  }

  lemma {:induction false} TextTotal(a: string, b: string)
    ensures TextLeq(a, b) || TextLeq(b, a)
    ensures TextLeq(a, b) && TextLeq(b, a) ==> a == b
  {
    if a != "" && b != "" && a[0] == b[0] {
      TextTotal(a[1..], b[1..]);
      assert a == [a[0]] + a[1..] && b == [b[0]] + b[1..];
    }
  }

  lemma {:induction false} TextTransitive(a: string, b: string, c: string)
    requires TextLeq(a, b) && TextLeq(b, c)
    ensures TextLeq(a, c)
  {
    if a != "" && a[0] == b[0] == c[0] {
      TextTransitive(a[1..], b[1..], c[1..]);
    }
  }

  /** The sort key `(-len(violated), severity, flow_id)`. */
  predicate Before(a: Alert, b: Alert) {
    || |a.violated| > |b.violated|
    || (|a.violated| == |b.violated|
        && ((Word(a.severity) != Word(b.severity) && TextLeq(Word(a.severity), Word(b.severity)))
            || (Word(a.severity) == Word(b.severity) && TextLeq(a.flowId, b.flowId))))
  }

  lemma BeforeIsTotal()
    ensures TotalOrder(Before)
  {
    forall x, y
      ensures Before(x, y) || Before(y, x)
    {
      TextTotal(Word(x.severity), Word(y.severity));
      TextTotal(x.flowId, y.flowId);
    }
    forall x, y, z | Before(x, y) && Before(y, z)
      ensures Before(x, z)
    {
      BeforeTransitive(x, y, z);
    }
  }

  lemma BeforeTransitive(x: Alert, y: Alert, z: Alert)
    requires Before(x, y) && Before(y, z)
    ensures Before(x, z)
  {
    if |x.violated| == |y.violated| == |z.violated| {
      if Word(x.severity) == Word(y.severity) == Word(z.severity) {
        TextTransitive(x.flowId, y.flowId, z.flowId);
      } else {
        var a, b, c := Word(x.severity), Word(y.severity), Word(z.severity);
        if a != b && b != c {
          TextTransitive(a, b, c);
          TextTotal(a, b);
        }
      }
    }
  }

  /** Two or more violations make an alert critical. */
  ghost predicate Consistent(a: Alert) {
    |a.violated| >= 1 && (|a.violated| >= 2 ==> a.severity == Critical)
  }

  lemma BeforeRanks(a: Alert, b: Alert)
    requires Consistent(a) && Consistent(b) && Before(a, b)
    ensures Rank(a.severity) <= Rank(b.severity)
  {
    if |a.violated| == |b.violated| {
      WordsRank(a.severity, b.severity);
    }
  }

  // ---- The snapshot ----

  function AlertsOf(py: Python, tolerance: real, nodes: seq<Node>): seq<Alert> {
    if nodes == [] then []
    else
      var last := AlertOf(py, tolerance, nodes[|nodes| - 1]);
      AlertsOf(py, tolerance, nodes[..|nodes| - 1]) + if last.Some? then [last.value] else []
  }

  /** `max(0.0, tolerance)` and `max(1, limit)` */
  function Tolerance(tolerance: real): real {
    MaxOf(0.0, tolerance)
  }

  function Limit(maxAlerts: int): nat {
    if maxAlerts < 1 then 1 else maxAlerts
  }

  function Ranked(alerts: seq<Alert>): seq<Alert> {
    Sort(alerts, Before)
  }

  function Kept(alerts: seq<Alert>, maxAlerts: int): seq<Alert> {
    if |alerts| <= Limit(maxAlerts) then Ranked(alerts)
    else
      assert |Ranked(alerts)| == |alerts| by { BeforeIsTotal(); SortOrders(alerts, Before);
                                               assert |multiset(Ranked(alerts))| == |multiset(alerts)|; }
      Ranked(alerts)[..Limit(maxAlerts)]
  }

  // ---- Reading the snapshot ----

  /** What a loop over `value or []` gets to see as an entry. */
  function Entries(j: Json): seq<Json> {
    if j.List? then j.items else []
  }

  /** `str(d.get(first) or d.get(second) or "").strip()` */
  function CleanEither(py: Python, d: Json, first: Field, second: Field): string {
    if d.Get(first).Truthy() then py.Clean(d.Get(first)) else py.Clean(d.Get(second))
  }

  const NODES := Other("nodes")
  const NODE_TYPE := Other("node_type")
  const NODE_KEY := Other("node_key")
  const PROPERTIES := Other("properties")
  const METRIC_LIST := Other("metrics")
  const OWNER_KEY := Other("owner_key")
  const METRIC_NAME := Other("metric_name")
  const METRIC_VALUE := Other("metric_value")

  predicate SampleOf(py: Python, sample: Json, owner: string) {
    sample.Obj? && owner != "" && py.Clean(sample.Get(OWNER_KEY)) == owner && py.Clean(sample.Get(METRIC_NAME)) != ""
  }

  /** `_metric_snapshot` for one owner: the last sample of each metric. */
  function Readings(py: Python, samples: seq<Json>, owner: string): map<string, Json> {
    if samples == [] then map[]
    else
      var before, last := Readings(py, samples[..|samples| - 1], owner), samples[|samples| - 1];
      if SampleOf(py, last, owner) then before[py.Clean(last.Get(METRIC_NAME)) := last.Get(METRIC_VALUE)] else before
  }

  predicate Samples(py: Python, sample: Json, owner: string, name: string) {
    SampleOf(py, sample, owner) && py.Clean(sample.Get(METRIC_NAME)) == name
  }

  /** The latest sample of an owner's metric, or the length: its value is what the readings hold. */
  lemma {:induction false} ReadingsLatest(py: Python, samples: seq<Json>, owner: string, name: string) returns (at: nat)
    ensures at <= |samples|
    ensures name in Readings(py, samples, owner) <==> at < |samples|
    ensures at < |samples| ==> Samples(py, samples[at], owner, name) && Readings(py, samples, owner)[name] == samples[at].Get(METRIC_VALUE)
    ensures forall k | 0 <= k < |samples| && (at < k || at == |samples|) :: !Samples(py, samples[k], owner, name)
  {
    at := |samples|;
    if samples != [] {
      var n := |samples| - 1;
      if Samples(py, samples[n], owner, name) {
        return n;
      }
      var before := ReadingsLatest(py, samples[..n], owner, name);
      assert forall k | 0 <= k < n :: samples[..n][k] == samples[k];
      at := if before < n then before else n + 1;
    }
  }

  predicate IsFlowNode(py: Python, node: Json) {
    node.Obj? && (if node.Get(NODE_TYPE).Truthy() then py.Str(node.Get(NODE_TYPE)) else "") == "flow"
  }

  function NodeFrom(py: Python, node: Json, samples: seq<Json>): Node {
    var key := py.Clean(node.Get(NODE_KEY));
    Node(key, if node.Get(PROPERTIES).Obj? then node.Get(PROPERTIES) else Obj(map[]), Readings(py, samples, key))
  }

  /** The flow nodes of the graph. */
  function FlowNodes(py: Python, nodes: seq<Json>, samples: seq<Json>): seq<Node> {
    if nodes == [] then []
    else
      var last := nodes[|nodes| - 1];
      FlowNodes(py, nodes[..|nodes| - 1], samples) + if IsFlowNode(py, last) then [NodeFrom(py, last, samples)] else []
  }

  function SetDefault(fields: map<Field, Json>, f: Field, text: string): map<Field, Json> {
    if f in fields then fields else fields[f := Text(text)]
  }

  /** The node that a flow of an application stands for. */
  function AppNode(py: Python, app: Json, flow: Json): Node
    requires flow.Obj?
  {
    var appId, supi := CleanEither(py, app, AppId, Id), py.Clean(app.Get(Supi));
    var flowId := CleanEither(py, flow, FlowId, Id);
    var properties := SetDefault(SetDefault(SetDefault(SetDefault(SetDefault(
                        flow.fields, Id, flowId), FlowId, flowId), Supi, supi), AppId, appId), AppName, CleanEither(py, app, AppName, Name));
    Node("flow:" + supi + ":" + appId + ":" + flowId, Obj(properties), map[])
  }

  function NodesOfApp(py: Python, app: Json, flows: seq<Json>): seq<Node> {
    if flows == [] then []
    else
      var last := flows[|flows| - 1];
      NodesOfApp(py, app, flows[..|flows| - 1]) + if last.Obj? then [AppNode(py, app, last)] else []
  }

  /** The nodes derived from the applications, for a graph without flow nodes. */
  function AppNodes(py: Python, apps: seq<Json>): seq<Node> {
    if apps == [] then []
    else
      var last := apps[|apps| - 1];
      AppNodes(py, apps[..|apps| - 1]) + if last.Obj? then NodesOfApp(py, last, Entries(last.Get(Flows))) else []
  }

  function ScannedNodes(py: Python, snapshot: Json): seq<Node> {
    var own := FlowNodes(py, Entries(snapshot.Get(NODES)), Entries(snapshot.Get(METRIC_LIST)));
    if own == [] then AppNodes(py, Entries(snapshot.Get(Apps))) else own
  }

  lemma AlertsMore(py: Python, tolerance: real, nodes: seq<Node>, node: Node)
    ensures AlertsOf(py, tolerance, nodes + [node])
            == AlertsOf(py, tolerance, nodes) + if AlertOf(py, tolerance, node).Some? then [AlertOf(py, tolerance, node).value] else []
  {
    assert (nodes + [node])[..|nodes|] == nodes;
  }

  /** One more flow scanned. */
  method ScanNode(py: Python, tolerance: real, node: Node, ghost before: seq<Node>, scanned: nat, found: seq<Alert>)
    returns (more: nat, alerts: seq<Alert>)
    requires scanned == |before| && found == AlertsOf(py, tolerance, before)
    ensures more == |before + [node]| && alerts == AlertsOf(py, tolerance, before + [node])
  {
    AlertsMore(py, tolerance, before, node);
    more, alerts := scanned + 1, found;
    var alert := EvaluateFlowNode(py, tolerance, node);
    if alert.Some? {
      alerts := alerts + [alert.value];
    }
  }

  lemma FlowNodesStep(py: Python, nodes: seq<Json>, samples: seq<Json>, i: nat)
    requires i < |nodes|
    ensures var before, after := FlowNodes(py, nodes[..i], samples), FlowNodes(py, nodes[..i + 1], samples);
            after == if IsFlowNode(py, nodes[i]) then before + [NodeFrom(py, nodes[i], samples)] else before
  {
    assert nodes[..i + 1][..i] == nodes[..i];
    AppendNothing(FlowNodes(py, nodes[..i], samples), []);
  }

  method ScanNodes(py: Python, tolerance: real, nodes: seq<Json>, samples: seq<Json>) returns (scanned: nat, found: seq<Alert>)
    ensures scanned == |FlowNodes(py, nodes, samples)| && found == AlertsOf(py, tolerance, FlowNodes(py, nodes, samples))
  {
    scanned, found := 0, [];
    for i := 0 to |nodes|
      invariant scanned == |FlowNodes(py, nodes[..i], samples)|
      invariant found == AlertsOf(py, tolerance, FlowNodes(py, nodes[..i], samples))
    {
      FlowNodesStep(py, nodes, samples, i);
      if IsFlowNode(py, nodes[i]) {
        scanned, found := ScanNode(py, tolerance, NodeFrom(py, nodes[i], samples), FlowNodes(py, nodes[..i], samples), scanned, found);
      }
    }
    assert nodes[..|nodes|] == nodes;
  }

  lemma NodesOfAppStep(py: Python, app: Json, flows: seq<Json>, i: nat, before: seq<Node>)
    requires i < |flows|
    ensures var sofar, after := before + NodesOfApp(py, app, flows[..i]), before + NodesOfApp(py, app, flows[..i + 1]);
            after == if flows[i].Obj? then sofar + [AppNode(py, app, flows[i])] else sofar
  {
    assert flows[..i + 1][..i] == flows[..i];
    AppendNothing(NodesOfApp(py, app, flows[..i]), []);
    if flows[i].Obj? {
      Assoc(before, NodesOfApp(py, app, flows[..i]), [AppNode(py, app, flows[i])]);
    }
  }

  method ScanApp(py: Python, tolerance: real, app: Json, flows: seq<Json>, ghost before: seq<Node>, scannedBefore: nat,
                 foundBefore: seq<Alert>) returns (scanned: nat, found: seq<Alert>)
    requires scannedBefore == |before| && foundBefore == AlertsOf(py, tolerance, before)
    ensures var nodes := before + NodesOfApp(py, app, flows);
            scanned == |nodes| && found == AlertsOf(py, tolerance, nodes)
  {
    scanned, found := scannedBefore, foundBefore;
    AppendNothing(before, NodesOfApp(py, app, flows[..0]));
    for i := 0 to |flows|
      invariant scanned == |before + NodesOfApp(py, app, flows[..i])|
      invariant found == AlertsOf(py, tolerance, before + NodesOfApp(py, app, flows[..i]))
    {
      NodesOfAppStep(py, app, flows, i, before);
      if flows[i].Obj? {
        scanned, found := ScanNode(py, tolerance, AppNode(py, app, flows[i]), before + NodesOfApp(py, app, flows[..i]), scanned, found);
      }
    }
    assert flows[..|flows|] == flows;
  }

  lemma AppNodesStep(py: Python, apps: seq<Json>, i: nat)
    requires i < |apps|
    ensures var before, after := AppNodes(py, apps[..i]), AppNodes(py, apps[..i + 1]);
            after == if apps[i].Obj? then before + NodesOfApp(py, apps[i], Entries(apps[i].Get(Flows))) else before
  {
    assert apps[..i + 1][..i] == apps[..i];
    AppendNothing(AppNodes(py, apps[..i]), []);
  }

  method ScanApps(py: Python, tolerance: real, apps: seq<Json>) returns (scanned: nat, found: seq<Alert>)
    ensures scanned == |AppNodes(py, apps)| && found == AlertsOf(py, tolerance, AppNodes(py, apps))
  {
    scanned, found := 0, [];
    for i := 0 to |apps|
      invariant scanned == |AppNodes(py, apps[..i])| && found == AlertsOf(py, tolerance, AppNodes(py, apps[..i]))
    {
      AppNodesStep(py, apps, i);
      if apps[i].Obj? {
        scanned, found := ScanApp(py, tolerance, apps[i], Entries(apps[i].Get(Flows)), AppNodes(py, apps[..i]), scanned, found);
      }
    }
    assert apps[..|apps|] == apps;
  }

  /** All flow nodes of the graph are evaluated, or those derived from the applications when there are none, and
      the ranked alerts are cut at the limit. */
  method EvaluateSnapshot(py: Python, snapshot: Json, tolerance: real, maxAlerts: int) returns (scanned: nat, alerts: seq<Alert>)
    ensures scanned == |ScannedNodes(py, snapshot)|
    ensures alerts == Kept(AlertsOf(py, Tolerance(tolerance), ScannedNodes(py, snapshot)), maxAlerts)
  {
    var found;
    scanned, found := ScanNodes(py, Tolerance(tolerance), Entries(snapshot.Get(NODES)), Entries(snapshot.Get(METRIC_LIST)));
    if scanned == 0 {
      scanned, found := ScanApps(py, Tolerance(tolerance), Entries(snapshot.Get(Apps)));
    }
    alerts := Kept(found, maxAlerts);
  }

  lemma {:induction false} AlertsConsistent(py: Python, tolerance: real, nodes: seq<Node>)
    ensures forall k | 0 <= k < |AlertsOf(py, tolerance, nodes)| :: Consistent(AlertsOf(py, tolerance, nodes)[k])
  {
    if nodes != [] {
      AlertsConsistent(py, tolerance, nodes[..|nodes| - 1]);
    }
  }

  /** Alerts are reported from the most severe down, and those that the limit drops are nowhere more severe
      than one that is kept. */
  lemma TruncationKeepsSevere(py: Python, tolerance: real, nodes: seq<Node>, maxAlerts: int)
    ensures var found := AlertsOf(py, tolerance, nodes);
            var ranked, kept := Ranked(found), Kept(found, maxAlerts);
            && multiset(ranked) == multiset(found) && kept <= ranked
            && |kept| == (if |found| <= Limit(maxAlerts) then |found| else Limit(maxAlerts))
            && forall i, j | 0 <= i < j < |ranked| :: Rank(ranked[i].severity) <= Rank(ranked[j].severity)
  {
    var found := AlertsOf(py, tolerance, nodes);
    var ranked := Ranked(found);
    BeforeIsTotal();
    SortOrders(found, Before);
    AlertsConsistent(py, tolerance, nodes);
    assert |ranked| == |multiset(ranked)| == |multiset(found)| == |found|;
    forall i | 0 <= i < |ranked|
      ensures Consistent(ranked[i])
    {
      assert ranked[i] in multiset(found);
    }
    forall i, j | 0 <= i < j < |ranked|
      ensures Rank(ranked[i].severity) <= Rank(ranked[j].severity)
    {
      BeforeRanks(ranked[i], ranked[j]);
    }
  }

  function Violating(py: Python, tolerance: real, nodes: seq<Node>): seq<Node> {
    if nodes == [] then []
    else Violating(py, tolerance, nodes[..|nodes| - 1]) +
         if Violated(py, tolerance, nodes[|nodes| - 1], METRICS) != [] then [nodes[|nodes| - 1]] else []
  }

  /** Before the limit, there is one alert per violating flow, in order, and no other. */
  lemma {:induction false} AlertsMatchFlows(py: Python, tolerance: real, nodes: seq<Node>)
    ensures var found, flows := AlertsOf(py, tolerance, nodes), Violating(py, tolerance, nodes);
            |found| == |flows| && forall k | 0 <= k < |flows| :: AlertOf(py, tolerance, flows[k]) == Some(found[k])
  {
    if nodes != [] {
      AlertsMatchFlows(py, tolerance, nodes[..|nodes| - 1]);
    }
  }
}
