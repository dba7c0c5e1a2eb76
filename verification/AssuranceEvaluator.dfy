/** The snapshot-based assurance of src/control_runtime/execution/assurance_evaluator.py. */
module AssuranceEvaluator {
  import opened Strings
  import opened Documents

  const QOS_TOLERANCE_RATIO := 0.10

  datatype Verdict = Skipped | Satisfied | Violated | Unassured

  /** `Raised` stands for the `RuntimeError`s. */
  datatype Evaluated = Judged(verdict: Verdict) | Raised

  function NonNegative(k: real): real {
    if k > 0.0 then k else 0.0
  }

  predicate WithinUpperBound(observed: real, target: real, k: real) {
    target <= 0.0 || observed <= target * (1.0 + NonNegative(k))
  }

  predicate WithinLowerBound(observed: real, target: real, k: real) {
    target <= 0.0 || observed >= target * (1.0 - NonNegative(k))
  }

  /** `_first_float(first, second)` */
  function FirstFloat(py: Python, first: Json, second: Json): real {
    var a, b := py.ToFloat(first), py.ToFloat(second);
    if a.Some? && AsReal(a.value).Some? then AsReal(a.value).value
    else if b.Some? && AsReal(b.value).Some? then AsReal(b.value).value
    else 0.0
  }

  predicate IsFlow(policy: Json, py: Python) {
    py.Clean(policy.Get(TargetType)) == "flow"
  }

  /** `str(item.get("flow_id") or item.get("id") or "").strip()` */
  function ItemId(py: Python, item: Json): string {
    if item.Get(FlowId).Truthy() then py.Clean(item.Get(FlowId)) else py.Clean(item.Get(Id))
  }

  function ItemSupi(py: Python, app: Json, item: Json): string {
    if py.Clean(app.Get(Supi)) != "" then py.Clean(app.Get(Supi)) else py.Clean(item.Get(Supi))
  }

  function Listed(j: Json): seq<Json> {
    if j.List? then j.items else []
  }

  predicate Wanted(py: Python, app: Json, item: Json, supi: string, flowId: string) {
    app.Obj? && item.Obj? && ItemSupi(py, app, item) == supi && ItemId(py, item) == flowId
  }

  ghost predicate NoneIn(py: Python, app: Json, n: nat, supi: string, flowId: string)
    requires n <= |Listed(app.Get(Flows))|
  {
    forall i | 0 <= i < n :: !Wanted(py, app, Listed(app.Get(Flows))[i], supi, flowId)
  }

  /** The first flow, in document order, of that subscriber and identifier. */
  ghost predicate FirstAt(py: Python, apps: seq<Json>, a: nat, i: nat, supi: string, flowId: string) {
    && a < |apps| && i < |Listed(apps[a].Get(Flows))|
    && Wanted(py, apps[a], Listed(apps[a].Get(Flows))[i], supi, flowId)
    && NoneIn(py, apps[a], i, supi, flowId)
    && forall b | 0 <= b < a :: NoneIn(py, apps[b], |Listed(apps[b].Get(Flows))|, supi, flowId)
  }

  method FindInApp(py: Python, app: Json, supi: string, flowId: string) returns (flow: Option<Json>, ghost i: nat)
    ensures flow.Some? <==> !NoneIn(py, app, |Listed(app.Get(Flows))|, supi, flowId)
    ensures flow.Some? ==> && i < |Listed(app.Get(Flows))| && flow.value == Listed(app.Get(Flows))[i]
                           && Wanted(py, app, flow.value, supi, flowId) && NoneIn(py, app, i, supi, flowId)
  {
    i := 0;
    if !app.Obj? {
      return None, 0;
    }
    var items := Listed(app.Get(Flows));
    for k := 0 to |items|
      invariant NoneIn(py, app, k, supi, flowId)
    {
      if Wanted(py, app, items[k], supi, flowId) {
        return Some(items[k]), k;
      }
    }
    return None, 0;
  }

  method FindFlow(py: Python, apps: seq<Json>, supi: string, flowId: string) returns (flow: Option<Json>, ghost a: nat, ghost i: nat)
    ensures flow.Some? ==> FirstAt(py, apps, a, i, supi, flowId) && flow.value == Listed(apps[a].Get(Flows))[i]
    ensures flow.None? ==> forall b | 0 <= b < |apps| :: NoneIn(py, apps[b], |Listed(apps[b].Get(Flows))|, supi, flowId)
  {
    flow, a, i := None, 0, 0;
    for k := 0 to |apps|
      invariant flow.None?
      invariant forall b | 0 <= b < k :: NoneIn(py, apps[b], |Listed(apps[b].Get(Flows))|, supi, flowId)
    {
      flow, i := FindInApp(py, apps[k], supi, flowId);
      if flow.Some? {
        a := k;
        return;
      }
    }
  }

  /** The four requirements of a flow, each against its own observation. */
  predicate MeetsSla(py: Python, flow: Json, k: real) {
    var sla, telemetry := flow.Get(Sla), flow.Get(Telemetry);
    && WithinUpperBound(FirstFloat(py, flow.Get(SimLatency), telemetry.Get(Latency)),
                        FirstFloat(py, flow.Get(Lat), sla.Get(Latency)), k)
    && WithinUpperBound(FirstFloat(py, flow.Get(SimJitter), telemetry.Get(Jitter)),
                        FirstFloat(py, flow.Get(JitterReq), sla.Get(Jitter)), k)
    && WithinLowerBound(FirstFloat(py, flow.Get(SimThroughputUl), telemetry.Get(ThroughputUl)),
                        FirstFloat(py, flow.Get(GbrUl), sla.Get(GuaranteedBandwidthUl)), k)
    && WithinLowerBound(FirstFloat(py, flow.Get(SimThroughputDl), telemetry.Get(ThroughputDl)),
                        FirstFloat(py, flow.Get(GbrDl), sla.Get(GuaranteedBandwidthDl)), k)
  }

  ghost predicate NoneWanted(py: Python, apps: seq<Json>, supi: string, flowId: string) {
    forall b | 0 <= b < |apps| :: NoneIn(py, apps[b], |Listed(apps[b].Get(Flows))|, supi, flowId)
  }

  /** The verdict on the first flow of that subscriber and identifier. */
  ghost predicate Judges(py: Python, apps: seq<Json>, supi: string, flowId: string, k: real, verdict: Verdict) {
    exists a: nat, i: nat :: && FirstAt(py, apps, a, i, supi, flowId)
                   && verdict == if MeetsSla(py, Listed(apps[a].Get(Flows))[i], k) then Verdict.Satisfied else Violated
  }

  method Assure(py: Python, apps: seq<Json>, supi: string, flowId: string, k: real) returns (r: Evaluated)
    ensures r.Raised? <==> NoneWanted(py, apps, supi, flowId)
    ensures r.Judged? ==> Judges(py, apps, supi, flowId, k, r.verdict)
  {
    var flow, a, i := FindFlow(py, apps, supi, flowId);
    if flow.None? {
      return Raised;
    }
    var meets := MeetsSla(py, flow.value, k);
    return Judged(if meets then Verdict.Satisfied else Violated);
  }

  /** `evaluate`: it raises exactly for a flow-scoped policy without a snapshot that lists its flow. */
  method Evaluate(py: Python, snapshots: string -> Json, policy: Json, snapshotId: string, k: real) returns (r: Evaluated)
    ensures !IsFlow(policy, py) ==> r == Judged(Skipped)
    ensures r.Raised? <==>
              IsFlow(policy, py)
              && (snapshotId == "" || !snapshots(snapshotId).Obj?
                  || NoneWanted(py, Listed(snapshots(snapshotId).Get(Apps)), py.Clean(policy.Get(Supi)), py.Clean(policy.Get(FlowId))))
    ensures r.Judged? && IsFlow(policy, py) ==>
              Judges(py, Listed(snapshots(snapshotId).Get(Apps)), py.Clean(policy.Get(Supi)), py.Clean(policy.Get(FlowId)), k, r.verdict)
  {
    if py.Clean(policy.Get(TargetType)) != "flow" {
      return Judged(Skipped);
    }
    if snapshotId == "" || !snapshots(snapshotId).Obj? {
      return Raised;
    }
    r := Assure(py, Listed(snapshots(snapshotId).Get(Apps)), py.Clean(policy.Get(Supi)), py.Clean(policy.Get(FlowId)), k);
  }
}
