/** The JSON-like documents that scenarios, drafts and policies are. */
module Documents {
  import opened Strings

  datatype Option<+T> = None | Some(value: T)

  /** The keys the program reads or writes; any other key is `Other`. */
  datatype Field =
    | Name | ScenarioId | TickMs | Seed | Slices | Upfs | Gnbs | Ues | Apps | Flows
    | Free5gc | Ns3 | Writer | Topology | Bridge
    | Sst | Sd | Label | Resource | Qos
    | CapacityDl | CapacityUl | GuaranteedDl | GuaranteedUl | Priority
    | LatencyMs | JitterMs | LossRate | ProcessingDelayMs
    | Role | Dnn | Alias | Tac | Nci | BackhaulUpf
    | Supi | Gnb | SimKey | Op | OpType | Amf | Free5gcPolicy | TargetGnb | PreferredGnbs | Sessions
    | SliceRef | SessionRef | Apn | PduType | FiveQi | AppId
    | UeName | FlowIds | FlowId | AppName | ServiceType | ServiceTypeId
    | PacketSize | ArrivalRate | DlPacketSize | UlPacketSize | DlArrivalRate | UlArrivalRate
    | CurrentSlice | AllocatedDl | AllocatedUl | OptimizeRequested | SlaTarget
    | BandwidthDl | BandwidthUl | GuaranteedBandwidthDl | GuaranteedBandwidthUl
    | ComposeFile | ConfigRoot | Ns3Root | GraphFile | BaseScenario | RuntimeMode | Radio
    | PolicyId | PolicyType | TargetType | PolicyDetails | AllPolicies | SessionId | SnapshotId
    | Request | PccRules | QosDecs | RouteSelParamSets | TrafficDesc
    | Status | Phase | PdaStatus | Error | OperationId | MonitoringData | ObservedAllocation | CurrentSliceSnssai
    | UpstreamContext | SliceInfo | QosParameterChecks | Satisfied
    | ContractVersion | RunId | ResetGeneration | BaselineTick | LatestTick | ObservedTelemetry | SlaEpochStartTick
    | Latency | Jitter | ThroughputUl | ThroughputDl | Lat | JitterReq | GbrUl | GbrDl
    | SimLatency | SimJitter | SimThroughputUl | SimThroughputDl | Sla | Telemetry | Id
    | Healthy | ResetProgress | Active | MissingProcesses | Service | InstanceId
    | Other(text: string)

  datatype Number = Int(i: int) | Float(r: real) | NotFinite

  datatype Json =
    | Null
    | Bool(b: bool)
    | Num(n: Number)
    | Text(s: string)
    | List(items: seq<Json>)
    | Obj(fields: map<Field, Json>)
  {
    /** `dict.get(f)`, or `None` on anything but a mapping. */
    function Get(f: Field): Json {
      if Obj? && f in fields then fields[f] else Null
    }

    /** Python's `bool(value)`. */
    predicate Truthy() {
      match this
      case Null => false
      case Bool(b) => b
      case Num(n) => n != Int(0) && n != Float(0.0)
      case Text(s) => s != ""
      case List(items) => items != []
      case Obj(fields) => fields != map[]
    }
  }

  function AsReal(n: Number): Option<real> {
    match n
    case Int(i) => Some(i as real)
    case Float(r) => Some(r)
    case NotFinite => None
  }

  /** What the interpreter makes of a value: `str(value)` and `float(text)`, `int(text)`. */
  datatype Python = Python(show: Json -> string, parseFloat: string -> Option<Number>, parseInt: string -> Option<int>)
  {
    /** `str(value)` */
    function Str(j: Json): string {
      if j.Text? then j.s else show(j)
    }

    /** `str(value or "").strip()` */
    function Clean(j: Json): string {
      if j.Truthy() then Strip(Str(j)) else ""
    }

    /** `float(value)`, `None` where it raises. */
    function ToFloat(j: Json): Option<Number> {
      match j
      case Num(n) => Some(n)
      case Bool(b) => Some(Int(if b then 1 else 0))
      case Text(s) => parseFloat(s)
      case _ => None
    }

    /** `int(value)` of a value that is no boolean, `None` where it raises. */
    function ToInt(j: Json): Option<int> {
      match j
      case Num(Int(i)) => Some(i)
      case Num(Float(r)) => Some(if r >= 0.0 then r.Floor else -((-r).Floor))
      case Text(s) => parseInt(s)
      case _ => None
    }
  }

  /** `for x in (value or [])`, `None` where it raises. */
  function Iter(j: Json): Option<seq<Json>> {
    if !j.Truthy() then Some([])
    else match j
      case List(items) => Some(items)
      case Text(s) => Some(seq(|s|, i requires 0 <= i < |s| => Text([s[i]])))
      case _ => None
  }
}
