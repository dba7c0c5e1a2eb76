/** Policy compilation of src/control_runtime/execution/policy_compiler.py. */
module PolicyCompiler {
  import opened Strings
  import opened Documents

  // ---- `_json_friendly` ----

  datatype Kind = PyList | PyTuple | PySet

  /** A Python value as the compiler meets it.  A leaf is a JSON scalar; the keys of a mapping are strings. */
  datatype Py =
    | Leaf(j: Json)
    | Elements(kind: Kind, items: seq<Py>)
    | Mapping(fields: map<Field, Py>)
    | Model(dump: Py)
    | Enumeration(value: Py)
    | Date(iso: string)
    | Opaque(text: string)

  function JsonFriendly(v: Py): Py {
    match v
    case Leaf(_) => v
    case Elements(_, items) => Elements(PyList, seq(|items|, i requires 0 <= i < |items| => JsonFriendly(items[i])))
    case Mapping(fields) => Mapping(map f | f in fields :: JsonFriendly(fields[f]))
    case Model(dump) => JsonFriendly(dump)
    case Enumeration(value) => value
    case Date(iso) => Leaf(Text(iso))
    case Opaque(text) => Leaf(Text(text))
  }

  /** Lists, mappings and scalars all the way down. */
  predicate Friendly(v: Py) {
    match v
    case Leaf(_) => true
    case Elements(kind, items) => kind == PyList && forall i | 0 <= i < |items| :: Friendly(items[i])
    case Mapping(fields) => forall f | f in fields :: Friendly(fields[f])
    case _ => false
  }

  /** Every enumeration member that conversion meets carries a plain value. */
  predicate EnumsPlain(v: Py) {
    match v
    case Leaf(_) => true
    case Elements(_, items) => forall i | 0 <= i < |items| :: EnumsPlain(items[i])
    case Mapping(fields) => forall f | f in fields :: EnumsPlain(fields[f])
    case Model(dump) => EnumsPlain(dump)
    case Enumeration(value) => Friendly(value)
    case Date(_) => true
    case Opaque(_) => true
  }

  lemma {:induction false} FriendlyFixed(v: Py)
    requires Friendly(v)
    ensures JsonFriendly(v) == v
  {
    match v
    case Leaf(_) =>
    case Elements(_, items) =>
      forall i | 0 <= i < |items| { FriendlyFixed(items[i]); }
    case Mapping(fields) =>
      forall f | f in fields { FriendlyFixed(fields[f]); }
      assert (map f | f in fields :: JsonFriendly(fields[f])) == fields;
  }

  /** Conversion never rebuilds a model object around what it was given. */
  lemma {:induction false} NoModelAround(v: Py, inner: Py)
    requires v == inner || v < inner
    ensures JsonFriendly(v) != Model(inner)
  {
    if v.Model? {
      NoModelAround(v.dump, inner);
    }
  }

  lemma NotItsOwnValue(value: Py)
    ensures Enumeration(value) != value
  {
    assert value < Enumeration(value);
  }

  lemma {:induction false} FixedFriendly(v: Py)
    requires JsonFriendly(v) == v
    ensures Friendly(v)
  {
    match v
    case Leaf(_) =>
    case Elements(_, items) =>
      forall i | 0 <= i < |items|
        ensures Friendly(items[i])
      {
        assert JsonFriendly(v).items[i] == JsonFriendly(items[i]);
        FixedFriendly(items[i]);
      }
    case Mapping(fields) =>
      forall f | f in fields
        ensures Friendly(fields[f])
      {
        assert JsonFriendly(v).fields[f] == JsonFriendly(fields[f]);
        FixedFriendly(fields[f]);
      }
    case Model(dump) =>
      NoModelAround(dump, dump);
    case Enumeration(value) =>
      NotItsOwnValue(value);
    case Date(_) =>
    case Opaque(_) =>
  }

  /** The conversion gives a JSON value exactly when no enumeration member hides another kind of value. */
  lemma {:induction false} FriendlyExactly(v: Py)
    ensures Friendly(JsonFriendly(v)) <==> EnumsPlain(v)
  {
    match v
    case Leaf(_) =>
    case Elements(_, items) =>
      forall i | 0 <= i < |items| { FriendlyExactly(items[i]); }
      assert forall i | 0 <= i < |items| :: JsonFriendly(v).items[i] == JsonFriendly(items[i]);
    case Mapping(fields) =>
      forall f | f in fields { FriendlyExactly(fields[f]); }
      assert forall f | f in fields :: JsonFriendly(v).fields[f] == JsonFriendly(fields[f]);
    case Model(dump) => FriendlyExactly(dump);
    case Enumeration(_) =>
    case Date(_) =>
    case Opaque(_) =>
  }

  /** Converting twice is converting once, exactly under the same condition. */
  lemma IdempotentExactly(v: Py)
    ensures JsonFriendly(JsonFriendly(v)) == JsonFriendly(v) <==> EnumsPlain(v)
  {
    FriendlyExactly(v);
    if Friendly(JsonFriendly(v)) {
      FriendlyFixed(JsonFriendly(v));
    }
    if JsonFriendly(JsonFriendly(v)) == JsonFriendly(v) {
      FixedFriendly(JsonFriendly(v));
    }
  }

  /** An enumeration member whose value is a tuple is left as a tuple by the first pass. */
  lemma TupleEnumNotIdempotent()
    ensures exists v: Py :: JsonFriendly(JsonFriendly(v)) != JsonFriendly(v)
  {
    var v := Enumeration(Elements(PyTuple, []));
    IdempotentExactly(v);
  }

  // ---- `compile_policy` on the JSON objects that conversion leaves ----

  const AM_POLICY_TYPE := "PcfAmPolicyControlPolicyAssociation"
  const SM_POLICY_TYPE := "SmPolicyDecision"
  const URSP_POLICY_TYPE := "UrspRuleRequest"

  /** The three schema validations, each a predicate on the details object. */
  datatype Schemas = Schemas(am: Json -> bool, sm: Json -> bool, ursp: Json -> bool)

  predicate StartsWith(s: string, prefix: string) {
    prefix <= s
  }

  /** A nested identifier is absent or the same. */
  predicate Consistent(nested: string, outer: string) {
    nested != "" ==> nested == outer
  }

  function Prefix(policyType: string): string {
    if policyType == SM_POLICY_TYPE then "smp-" else "ursp-"
  }

  /** What the checks read of a policy: its identifiers as stripped text, and its details. */
  datatype Reading = Reading(supi: string, appId: string, policyId: string, policyType: string, target: string,
                             flowId: string, details: Json)

  function ReadingOf(py: Python, policy: Json): Reading {
    Reading(py.Clean(policy.Get(Supi)), py.Clean(policy.Get(AppId)), py.Clean(policy.Get(PolicyId)),
            py.Clean(policy.Get(PolicyType)), py.Clean(policy.Get(TargetType)), py.Clean(policy.Get(FlowId)),
            policy.Get(PolicyDetails))
  }

  predicate AmOk(py: Python, schemas: Schemas, r: Reading) {
    && r.target == "ue" && r.details.Get(Request).Obj?
    && Consistent(py.Clean(r.details.Get(Request).Get(Supi)), r.supi)
    && schemas.am(r.details)
  }

  predicate SmOk(schemas: Schemas, details: Json) {
    && details.Get(PccRules).Obj? && details.Get(PccRules).fields != map[]
    && details.Get(QosDecs).Obj? && details.Get(QosDecs).fields != map[]
    && schemas.sm(details)
  }

  predicate UrspOk(schemas: Schemas, target: string, details: Json) {
    && details.Get(RouteSelParamSets).List? && details.Get(RouteSelParamSets).items != []
    && (target == "flow" ==> details.Get(TrafficDesc).Obj?)
    && schemas.ursp(details)
  }

  predicate Identified(r: Reading) {
    && r.supi != "" && (r.policyType != AM_POLICY_TYPE ==> r.appId != "") && r.policyId != ""
    && (r.policyType == SM_POLICY_TYPE || r.policyType == URSP_POLICY_TYPE || r.policyType == AM_POLICY_TYPE)
    && r.target != "" && r.details.Obj?
    && (r.target == "flow" ==> r.flowId != "")
  }

  predicate NestedOk(py: Python, r: Reading) {
    && Consistent(py.Clean(r.details.Get(PolicyId)), r.policyId)
    && Consistent(py.Clean(r.details.Get(TargetType)), r.target)
    && (r.flowId != "" ==> Consistent(py.Clean(r.details.Get(FlowId)), r.flowId))
  }

  predicate NamedCanonically(r: Reading) {
    && StartsWith(r.policyId, Prefix(r.policyType))
    && (r.target == "flow" ==> r.policyId == Prefix(r.policyType) + r.appId + "-" + r.flowId)
  }

  /** `_validate_compiled_policy` raises nothing. */
  predicate ValidPolicy(py: Python, schemas: Schemas, r: Reading) {
    && Identified(r) && NestedOk(py, r)
    && if r.policyType == AM_POLICY_TYPE then AmOk(py, schemas, r)
       else NamedCanonically(r) && if r.policyType == SM_POLICY_TYPE then SmOk(schemas, r.details)
                                   else UrspOk(schemas, r.target, r.details)
  }

  /** The checks that `compile_policy` makes before it builds the compiled policy. */
  predicate Complete(r: Reading) {
    && r.details.Obj? && r.policyId != "" && r.policyType != "" && r.supi != "" && r.target != ""
    && (r.policyType != AM_POLICY_TYPE ==> r.flowId != "" && r.appId != "")
  }

  function Stamp(r: Reading): map<Field, Json> {
    map[Supi := Text(r.supi), AppId := Text(r.appId), PolicyId := Text(r.policyId), PolicyType := Text(r.policyType),
        TargetType := Text(r.target), FlowId := Text(r.flowId), PolicyDetails := r.details]
  }

  /** `{**policy, "supi": supi, ...}` */
  function Stamped(fields: map<Field, Json>, r: Reading): Json {
    Obj(fields + Stamp(r))
  }

  /** `None` where the compiler raises. */
  function CompilePolicy(py: Python, schemas: Schemas, policy: Json): Option<Json>
    requires policy.Obj?
  {
    var r := ReadingOf(py, policy);
    if Complete(r) && ValidPolicy(py, schemas, ReadingOf(py, Stamped(policy.fields, r)))
    then Some(Stamped(policy.fields, r)) else None
  }

  lemma CleanAgain(py: Python, j: Json)
    ensures py.Clean(Text(py.Clean(j))) == py.Clean(j)
  {
    if j.Truthy() {
      StripTrims(py.Str(j));
    }
    StripFixes(py.Clean(j));
  }

  /** Every identifier of the reading is stripped. */
  ghost predicate Clean(py: Python, r: Reading) {
    && py.Clean(Text(r.supi)) == r.supi && py.Clean(Text(r.appId)) == r.appId && py.Clean(Text(r.policyId)) == r.policyId
    && py.Clean(Text(r.policyType)) == r.policyType && py.Clean(Text(r.target)) == r.target
    && py.Clean(Text(r.flowId)) == r.flowId
  }

  lemma ReadingClean(py: Python, policy: Json)
    ensures Clean(py, ReadingOf(py, policy))
  {
    CleanAgain(py, policy.Get(Supi));
    CleanAgain(py, policy.Get(AppId));
    CleanAgain(py, policy.Get(PolicyId));
    CleanAgain(py, policy.Get(PolicyType));
    CleanAgain(py, policy.Get(TargetType));
    CleanAgain(py, policy.Get(FlowId));
  }

  lemma StampedGets(fields: map<Field, Json>, r: Reading)
    ensures var q := Stamped(fields, r);
            && q.Get(Supi) == Text(r.supi) && q.Get(AppId) == Text(r.appId) && q.Get(PolicyId) == Text(r.policyId)
            && q.Get(PolicyType) == Text(r.policyType) && q.Get(TargetType) == Text(r.target)
            && q.Get(FlowId) == Text(r.flowId) && q.Get(PolicyDetails) == r.details
  {
  }

  lemma StampedReads(py: Python, fields: map<Field, Json>, r: Reading)
    requires Clean(py, r)
    ensures ReadingOf(py, Stamped(fields, r)) == r
  {
    StampedGets(fields, r);
  }

  /** A policy compiles exactly when its own reading passes both rounds of checks. */
  lemma CompilesExactly(py: Python, schemas: Schemas, policy: Json)
    requires policy.Obj?
    ensures CompilePolicy(py, schemas, policy).Some? <==> Complete(ReadingOf(py, policy)) && ValidPolicy(py, schemas, ReadingOf(py, policy))
  {
    ReadingClean(py, policy);
    StampedReads(py, policy.fields, ReadingOf(py, policy));
  }

  lemma StampedTwice(fields: map<Field, Json>, r: Reading)
    ensures Stamped(Stamped(fields, r).fields, r) == Stamped(fields, r)
  {
    var stamp := Stamp(r);
    assert fields + stamp + stamp == fields + stamp;
  }

  /** Compiling a compiled policy changes nothing. */
  lemma CompileIdempotent(py: Python, schemas: Schemas, policy: Json)
    requires policy.Obj? && CompilePolicy(py, schemas, policy).Some?
    ensures var compiled := CompilePolicy(py, schemas, policy).value;
            compiled.Obj? && CompilePolicy(py, schemas, compiled) == Some(compiled)
  {
    var r := ReadingOf(py, policy);
    ReadingClean(py, policy);
    StampedReads(py, policy.fields, r);
    StampedTwice(policy.fields, r);
  }

  /** What a policy must have for the batch executor to read it without raising, and to assure it. */
  ghost predicate Executable(policy: Json) {
    && policy.Obj? && PolicyId in policy.fields && PolicyType in policy.fields && Supi in policy.fields
    && policy.fields[PolicyId].Text? && policy.fields[PolicyId].s != ""
    && policy.fields[Supi].Text? && policy.fields[Supi].s != ""
    && policy.fields[PolicyType].Text? && policy.fields[PolicyType].s != ""
  }

  /** A flow-scoped policy carries the canonical identifier of its application and flow. */
  ghost predicate Canonical(r: Reading) {
    && r.details.Obj?
    && (r.target == "flow" ==>
          && r.policyType != AM_POLICY_TYPE && r.flowId != "" && r.appId != ""
          && r.policyId == Prefix(r.policyType) + r.appId + "-" + r.flowId)
    && (r.policyType == AM_POLICY_TYPE ==> r.target == "ue")
  }

  lemma CompiledExecutable(py: Python, schemas: Schemas, policy: Json)
    requires policy.Obj? && CompilePolicy(py, schemas, policy).Some?
    ensures var compiled := CompilePolicy(py, schemas, policy).value;
            && Executable(compiled)
            && ReadingOf(py, compiled) == ReadingOf(py, policy) && Canonical(ReadingOf(py, policy))
  {
    var r := ReadingOf(py, policy);
    ReadingClean(py, policy);
    StampedReads(py, policy.fields, r);
    StampedGets(policy.fields, r);
  }

  // ---- `compile_plan` ----

  datatype Plan = Plan(supi: string, sessionId: string, snapshotId: string, policies: seq<Json>)

  /** The entries of a list that are mappings, in order. */
  function Mappings(items: seq<Json>): (objs: seq<Json>)
    ensures forall i | 0 <= i < |objs| :: objs[i].Obj?
  {
    if items == [] then []
    else Mappings(items[..|items| - 1]) + if items[|items| - 1].Obj? then [items[|items| - 1]] else []
  }

  /** `[f(x) for x in xs]`, `None` where any call raises. */
  function All<T, U>(f: T -> Option<U>, xs: seq<T>): Option<seq<U>> {
    if xs == [] then Some([])
    else
      var init, last := All(f, xs[..|xs| - 1]), f(xs[|xs| - 1]);
      if init.Some? && last.Some? then Some(init.value + [last.value]) else None
  }

  ghost predicate Each<T, U>(f: T -> Option<U>, xs: seq<T>, out: seq<U>) {
    |out| == |xs| && forall i | 0 <= i < |xs| :: f(xs[i]) == Some(out[i])
  }

  lemma {:induction false} AllEach<T, U>(f: T -> Option<U>, xs: seq<T>, out: seq<U>)
    ensures All(f, xs) == Some(out) <==> Each(f, xs, out)
  {
    if xs == [] {
      assert out == [] <==> |out| == 0;
    } else {
      var last := |xs| - 1;
      if |out| == |xs| {
        AllEach(f, xs[..last], out[..last]);
        assert out == out[..last] + [out[last]];
      }
      var init := All(f, xs[..last]);
      if init.Some? {
        AllEach(f, xs[..last], init.value);
      }
    }
  }

  function CompileAll(py: Python, schemas: Schemas, policies: seq<Json>): Option<seq<Json>> {
    All((p: Json) => if p.Obj? then CompilePolicy(py, schemas, p) else None, policies)
  }

  ghost predicate EachCompiled(py: Python, schemas: Schemas, policies: seq<Json>, out: seq<Json>) {
    |out| == |policies| && forall i | 0 <= i < |policies| :: policies[i].Obj? && CompilePolicy(py, schemas, policies[i]) == Some(out[i])
  }

  lemma CompileAllEach(py: Python, schemas: Schemas, policies: seq<Json>, out: seq<Json>)
    ensures CompileAll(py, schemas, policies) == Some(out) <==> EachCompiled(py, schemas, policies, out)
  {
    AllEach((p: Json) => if p.Obj? then CompilePolicy(py, schemas, p) else None, policies, out);
  }

  /** `compile_plan` of a payload that conversion left as a JSON value; `None` where it raises. */
  function CompilePlan(py: Python, schemas: Schemas, payload: Json): Option<Plan> {
    if !payload.Obj? || !payload.Get(AllPolicies).List? then None
    else
      var compiled := CompileAll(py, schemas, Mappings(payload.Get(AllPolicies).items));
      if compiled.None? || compiled.value == [] then None
      else Some(Plan(py.Clean(payload.Get(Supi)), py.Clean(payload.Get(SessionId)), py.Clean(payload.Get(SnapshotId)),
                     compiled.value))
  }

  /** A compiled plan is nonempty, in the order of the payload, and every policy of it can be dispatched. */
  lemma PlanExecutable(py: Python, schemas: Schemas, payload: Json)
    requires CompilePlan(py, schemas, payload).Some?
    ensures var policies := CompilePlan(py, schemas, payload).value.policies;
            && policies != []
            && EachCompiled(py, schemas, Mappings(payload.Get(AllPolicies).items), policies)
            && forall i | 0 <= i < |policies| :: Executable(policies[i]) && Canonical(ReadingOf(py, policies[i]))
  {
    var sources := Mappings(payload.Get(AllPolicies).items);
    var policies := CompilePlan(py, schemas, payload).value.policies;
    CompileAllEach(py, schemas, sources, policies);
    forall i | 0 <= i < |policies|
      ensures Executable(policies[i]) && Canonical(ReadingOf(py, policies[i]))
    {
      CompiledExecutable(py, schemas, sources[i]);
    }
  }

  lemma {:induction false} MappingsAll(items: seq<Json>)
    requires forall i | 0 <= i < |items| :: items[i].Obj?
    ensures Mappings(items) == items
  {
    if items != [] {
      MappingsAll(items[..|items| - 1]);
      assert items[..|items| - 1] + [items[|items| - 1]] == items;
    }
  }

  function PlanPayload(plan: Plan): Json {
    Obj(map[Supi := Text(plan.supi), SessionId := Text(plan.sessionId), SnapshotId := Text(plan.snapshotId),
            AllPolicies := List(plan.policies)])
  }

  lemma PayloadGets(plan: Plan)
    ensures var j := PlanPayload(plan);
            && j.Get(Supi) == Text(plan.supi) && j.Get(SessionId) == Text(plan.sessionId)
            && j.Get(SnapshotId) == Text(plan.snapshotId) && j.Get(AllPolicies) == List(plan.policies)
  {
  }

  lemma CompiledStays(py: Python, schemas: Schemas, sources: seq<Json>, policies: seq<Json>)
    requires EachCompiled(py, schemas, sources, policies)
    ensures EachCompiled(py, schemas, policies, policies)
  {
    forall i | 0 <= i < |sources|
      ensures policies[i].Obj? && CompilePolicy(py, schemas, policies[i]) == Some(policies[i])
    {
      CompileIdempotent(py, schemas, sources[i]);
    }
  }

  /** A compiled plan, submitted as a payload, compiles to itself. */
  lemma PlanIdempotent(py: Python, schemas: Schemas, payload: Json)
    requires CompilePlan(py, schemas, payload).Some?
    ensures var plan := CompilePlan(py, schemas, payload).value;
            CompilePlan(py, schemas, PlanPayload(plan)) == Some(plan)
  {
    var plan := CompilePlan(py, schemas, payload).value;
    var sources := Mappings(payload.Get(AllPolicies).items);
    CompileAllEach(py, schemas, sources, plan.policies);
    CompiledStays(py, schemas, sources, plan.policies);
    MappingsAll(plan.policies);
    CompileAllEach(py, schemas, plan.policies, plan.policies);
    PayloadGets(plan);
    CleanAgain(py, payload.Get(Supi));
    CleanAgain(py, payload.Get(SessionId));
    CleanAgain(py, payload.Get(SnapshotId));
  }
}
