/** Dispatching and assuring a policy batch: src/control_runtime/execution/policy_batch_executor.py. */
module PolicyBatch {
  import opened Strings
  import opened Documents
  import opened Lists
  import opened Hiding
  import opened Snssai
  import AssuranceEvaluator

  type Verdict = AssuranceEvaluator.Verdict

  datatype Dispatched = Acked(result: Json) | Denied(result: Json, retryForbidden: bool)

  datatype Receipt = Receipt(status: Json, policyId: Json, policyType: Json, flowId: Json, result: Json)

  datatype Failure =
    | DispatchFailure(policyId: Json, policyType: Json, flowId: Json, retryForbidden: bool)
    | AssuranceFailure(policyId: Json, policyType: Json, flowId: Json, verdict: Verdict)

  datatype Batch = Batch(receipts: seq<Receipt>, assurance: seq<Verdict>, failures: seq<Failure>, attempts: nat)

  // ---- One dispatch ----

  /** `str(value or "").strip().lower()` */
  function Word(py: Python, j: Json): string {
    Lower(py.Clean(j))
  }

  /** The gateway's answer; anything but a mapping counts as a failed result. */
  function Received(py: Python, answer: Json): Json {
    if answer.Obj? then answer else Obj(map[Status := Text("failed"), Error := Text(py.Str(answer))])
  }

  predicate IsSuccess(status: string) {
    status == "success" || status == "applied" || status == "completed" || status == "succeeded"
  }

  predicate IsWaiting(status: string, phase: string) {
    status == "pending" || phase == "pda_deadline" || phase == "ns3_timeout" || phase == "waiting_for_ns3"
  }

  /** `{**last_result, "status": "success", "pda_status": pda_status}` */
  function WithSuccess(result: Json, status: string): Json
    requires result.Obj?
  {
    if status == "success" then result else Obj(result.fields[Status := Text("success")][PdaStatus := Text(status)])
  }

  function RequestedSlice(py: Python, policy: Json, result: Json): string {
    var details := if result.Get(PolicyDetails).Obj? then result.Get(PolicyDetails) else policy.Get(PolicyDetails);
    if details.Get(UpstreamContext).Obj? then NormalizeSnssai(py, details.Get(UpstreamContext).Get(SliceInfo)) else ""
  }

  function ObservedSlice(py: Python, result: Json): string {
    NormalizeSnssai(py, result.Get(MonitoringData).Get(ObservedAllocation).Get(CurrentSliceSnssai))
  }

  /** `_slice_execution_error`: what is wrong with the slice, if anything. */
  function SliceExecutionError(py: Python, policy: Json, result: Json): Option<string> {
    var requested, observed := RequestedSlice(py, policy, result), ObservedSlice(py, result);
    if requested == "" then None
    else if observed == "" then Some("ns-3 returned no observed slice state")
    else if observed != requested then Some("ns-3 remained on another slice")
    else None
  }

  /** `_dispatch_single_policy` on the gateway's answer. */
  function DispatchOutcome(py: Python, policy: Json, answer: Json): Dispatched {
    var received := Received(py, answer);
    var status, phase := Word(py, received.Get(Status)), Word(py, received.Get(Phase));
    if IsSuccess(status) then
      var result := WithSuccess(received, status);
      if SliceExecutionError(py, policy, result).Some? then Denied(result, false) else Acked(result)
    else Denied(received, IsWaiting(status, phase))
  }

  // ---- What an acknowledged dispatch means ----

  predicate Acknowledged(py: Python, answer: Json) {
    answer.Obj? && IsSuccess(Word(py, answer.Get(Status)))
  }

  /** Either no slice is asked for, or the observed slice is that one. */
  predicate OnRequestedSlice(py: Python, policy: Json, answer: Json) {
    RequestedSlice(py, policy, answer) == "" || ObservedSlice(py, answer) == RequestedSlice(py, policy, answer)
  }

  lemma SuccessKeepsEvidence(result: Json, status: string)
    requires result.Obj?
    ensures WithSuccess(result, status).Get(PolicyDetails) == result.Get(PolicyDetails)
    ensures WithSuccess(result, status).Get(MonitoringData) == result.Get(MonitoringData)
    ensures status != "success" ==> WithSuccess(result, status).Get(Status) == Text("success")
  {
  }

  /** The slice check reads two entries of the result, and nothing of its status. */
  lemma SliceErrorExactly(py: Python, policy: Json, result: Json, answer: Json)
    requires result.Get(PolicyDetails) == answer.Get(PolicyDetails) && result.Get(MonitoringData) == answer.Get(MonitoringData)
    ensures SliceExecutionError(py, policy, result).None? <==> OnRequestedSlice(py, policy, answer)
  {
    assert RequestedSlice(py, policy, result) == RequestedSlice(py, policy, answer);
    assert ObservedSlice(py, result) == ObservedSlice(py, answer);
  }

  lemma SuccessWord(py: Python)
    ensures Word(py, Text("success")) == "success"
  {
    StripFixes("success");
  }

  /** A dispatch counts as applied exactly when the gateway acknowledged it and the flow is on its slice. */
  lemma AckedExactly(py: Python, policy: Json, answer: Json)
    ensures DispatchOutcome(py, policy, answer).Acked?
            <==> Acknowledged(py, answer) && OnRequestedSlice(py, policy, answer)
    ensures DispatchOutcome(py, policy, answer).Acked? ==>
              && Word(py, DispatchOutcome(py, policy, answer).result.Get(Status)) == "success"
              && DispatchOutcome(py, policy, answer).result.Get(MonitoringData) == answer.Get(MonitoringData)
  {
    if answer.Obj? {
      var status := Word(py, answer.Get(Status));
      var result := WithSuccess(answer, status);
      SuccessKeepsEvidence(answer, status);
      SuccessWord(py);
      SliceErrorExactly(py, policy, result, answer);
    } else {
      FailedWord(py, answer);
    }
  }

  lemma FailedWord(py: Python, answer: Json)
    requires !answer.Obj?
    ensures !IsSuccess(Word(py, Received(py, answer).Get(Status)))
  {
    StripFixes("failed");
    assert Received(py, answer).Get(Status) == Text("failed");
    assert Lower("failed")[0] == 'f';
  }

  // ---- Assurance of an acknowledged dispatch ----

  predicate IsOne(j: Json) {
    j == Num(Int(1)) || j == Num(Float(1.0)) || j == Bool(true)
  }

  /** The receipt carries same-generation evidence from after the policy was applied. */
  predicate ContractValid(py: Python, monitoring: Json) {
    var baseline, latest := IntOf(py, monitoring.Get(BaselineTick)), IntOf(py, monitoring.Get(LatestTick));
    var epoch := IntOf(py, monitoring.Get(ObservedTelemetry).Get(SlaEpochStartTick));
    var generation := IntOf(py, monitoring.Get(ResetGeneration));
    && baseline.Some? && latest.Some? && epoch.Some?
    && IsOne(monitoring.Get(ContractVersion)) && py.Clean(monitoring.Get(RunId)) != ""
    && generation.Some? && generation.value >= 0
    && latest.value > baseline.value && epoch.value > baseline.value
  }

  predicate ChecksGiven(checks: Json) {
    checks.List? && checks.items != []
  }

  predicate AllSatisfied(items: seq<Json>) {
    forall i | 0 <= i < |items| :: items[i].Obj? && items[i].Get(Satisfied).Truthy()
  }

  predicate IsFlowPolicy(py: Python, policy: Json) {
    AssuranceEvaluator.IsFlow(policy, py)
  }

  /** `_post_apply_assurance_verdict`, `None` for a policy that is not about one flow. */
  function PostApplyVerdict(py: Python, policy: Json, result: Json): Option<Verdict> {
    if !IsFlowPolicy(py, policy) then None
    else
      var monitoring := result.Get(MonitoringData);
      var checks := monitoring.Get(QosParameterChecks);
      if !ContractValid(py, monitoring) || !ChecksGiven(checks) then Some(AssuranceEvaluator.Unassured)
      else if AllSatisfied(checks.items) then Some(AssuranceEvaluator.Verdict.Satisfied)
      else Some(AssuranceEvaluator.Violated)
  }

  function VerdictOn(py: Python, policy: Json, result: Json): Verdict {
    var verdict := PostApplyVerdict(py, policy, result);
    if verdict.Some? then verdict.value else AssuranceEvaluator.Skipped
  }

  predicate Fails(verdict: Verdict) {
    verdict == AssuranceEvaluator.Violated || verdict == AssuranceEvaluator.Unassured
  }

  /** A flow-scoped policy is assured by its own receipt; no other policy has to be. */
  predicate Assured(py: Python, policy: Json, answer: Json) {
    IsFlowPolicy(py, policy) ==>
      var monitoring := answer.Get(MonitoringData);
      && ContractValid(py, monitoring) && ChecksGiven(monitoring.Get(QosParameterChecks))
      && AllSatisfied(monitoring.Get(QosParameterChecks).items)
  }

  // ---- The batch as a fold over what each policy contributes ----

  datatype Effect = Effect(receipt: Receipt, verdict: Option<Verdict>, failure: Option<Failure>)

  function EffectOf(py: Python, policy: Json, answer: Json): Effect {
    var policyId, policyType, flowId := policy.Get(PolicyId), policy.Get(PolicyType), policy.Get(FlowId);
    match DispatchOutcome(py, policy, answer)
    case Denied(result, retryForbidden) =>
      Effect(Receipt(Text("failed"), policyId, policyType, flowId, result), None,
             Some(DispatchFailure(policyId, policyType, flowId, retryForbidden)))
    case Acked(result) =>
      var verdict := VerdictOn(py, policy, result);
      Effect(Receipt(result.Get(Status), policyId, policyType, flowId, result), Some(verdict),
             if Fails(verdict) then Some(AssuranceFailure(policyId, policyType, flowId, verdict)) else None)
  }

  function Mapped(effect: (Json, Json) -> Effect, policies: seq<Json>, answers: nat -> Json, from: nat): (effects: seq<Effect>)
    ensures |effects| == |policies|
    ensures forall i | 0 <= i < |policies| :: effects[i] == effect(policies[i], answers(from + i))
  {
    seq(|policies|, i requires 0 <= i < |policies| => effect(policies[i], answers(from + i)))
  }

  function Effects(py: Python, policies: seq<Json>, answers: nat -> Json, from: nat): (effects: seq<Effect>)
    ensures |effects| == |policies|
    ensures forall i | 0 <= i < |policies| :: effects[i] == EffectOf(py, policies[i], answers(from + i))
  {
    Mapped((policy, answer) => EffectOf(py, policy, answer), policies, answers, from)
  }

  /** `effect` is `EffectOf`, kept dormant. */
  ghost predicate Linked(py: Python, effect: (Json, Json) -> Effect) {
    forall k: nat {:trigger Asked(k)} :: Asked(k) ==> effect == ((policy, answer) => EffectOf(py, policy, answer))
  }

  lemma EffectMeans(py: Python, effect: (Json, Json) -> Effect, policy: Json, answer: Json)
    requires Linked(py, effect)
    ensures effect(policy, answer) == EffectOf(py, policy, answer)
  {
    assert Asked(0);
  }

  lemma MappedMeans(py: Python, effect: (Json, Json) -> Effect, policies: seq<Json>, answers: nat -> Json, from: nat)
    requires Linked(py, effect)
    ensures Mapped(effect, policies, answers, from) == Effects(py, policies, answers, from)
  {
    forall i | 0 <= i < |policies| {
      EffectMeans(py, effect, policies[i], answers(from + i));
    }
  }

  function AsList<T>(o: Option<T>): seq<T> {
    if o.Some? then [o.value] else []
  }

  const EMPTY_BATCH := Batch([], [], [], 0)

  function Extend(b: Batch, e: Effect): Batch {
    Batch(b.receipts + [e.receipt], b.assurance + AsList(e.verdict), b.failures + AsList(e.failure), b.attempts + 1)
  }

  function BatchOf(effects: seq<Effect>): Batch {
    if effects == [] then EMPTY_BATCH
    else Extend(BatchOf(effects[..|effects| - 1]), effects[|effects| - 1])
  }

  lemma BatchStep(effects: seq<Effect>, i: nat)
    requires i < |effects|
    ensures BatchOf(effects[..i + 1]) == Extend(BatchOf(effects[..i]), effects[i])
  {
    assert effects[..i + 1][..i] == effects[..i];
  }

  function DispatchFailures(failures: seq<Failure>): nat {
    if failures == [] then 0
    else DispatchFailures(failures[..|failures| - 1]) + if failures[|failures| - 1].DispatchFailure? then 1 else 0
  }

  lemma DispatchFailuresAdd(failures: seq<Failure>, failure: Option<Failure>)
    ensures DispatchFailures(failures + AsList(failure)) ==
            DispatchFailures(failures) + if failure.Some? && failure.value.DispatchFailure? then 1 else 0
  {
    var all := failures + AsList(failure);
    if failure.Some? {
      assert all[..|all| - 1] == failures;
    } else {
      assert all == failures;
    }
  }

  /** A policy that is not assured is a dispatch failure, and the other way round. */
  ghost predicate Accounted(effects: seq<Effect>) {
    forall i | 0 <= i < |effects| :: effects[i].verdict.None? <==> effects[i].failure.Some? && effects[i].failure.value.DispatchFailure?
  }

  lemma {:induction false} FoldReceipts(effects: seq<Effect>)
    ensures BatchOf(effects).attempts == |BatchOf(effects).receipts| == |effects|
    ensures forall i | 0 <= i < |effects| :: BatchOf(effects).receipts[i] == effects[i].receipt
  {
    if effects != [] {
      FoldReceipts(effects[..|effects| - 1]);
    }
  }

  lemma {:induction false} FoldAccounting(effects: seq<Effect>)
    requires Accounted(effects)
    ensures |BatchOf(effects).assurance| + DispatchFailures(BatchOf(effects).failures) == |effects|
  {
    if effects != [] {
      var init, last := effects[..|effects| - 1], effects[|effects| - 1];
      FoldAccounting(init);
      DispatchFailuresAdd(BatchOf(init).failures, last.failure);
    }
  }

  /** The failures of the batch are those of its policies, in order and without loss. */
  lemma {:induction false} FoldFailures(effects: seq<Effect>)
    ensures BatchOf(effects).failures == [] <==> forall i | 0 <= i < |effects| :: effects[i].failure.None?
    ensures forall f :: f in BatchOf(effects).failures <==> exists i :: 0 <= i < |effects| && effects[i].failure == Some(f)
  {
    if effects != [] {
      var init, last := effects[..|effects| - 1], effects[|effects| - 1];
      FoldFailures(init);
      assert forall i | 0 <= i < |init| :: effects[i] == init[i];
      forall f
        ensures f in BatchOf(effects).failures <==> exists i :: 0 <= i < |effects| && effects[i].failure == Some(f)
      {
        assert f in BatchOf(effects).failures <==> f in BatchOf(init).failures || last.failure == Some(f);
        if last.failure == Some(f) {
          assert effects[|effects| - 1].failure == Some(f);
        }
      }
    }
  }

  // ---- The accounting of a batch ----

  lemma EffectAccounted(py: Python, policies: seq<Json>, answers: nat -> Json, from: nat)
    ensures Accounted(Effects(py, policies, answers, from))
  {
  }

  lemma ReceiptsInOrder(py: Python, policies: seq<Json>, answers: nat -> Json, from: nat)
    ensures var receipts := BatchOf(Effects(py, policies, answers, from)).receipts;
            && |receipts| == |policies|
            && forall i | 0 <= i < |policies| ::
                 receipts[i].policyId == policies[i].Get(PolicyId) && receipts[i].policyType == policies[i].Get(PolicyType)
  {
    var effects := Effects(py, policies, answers, from);
    FoldReceipts(effects);
    forall i | 0 <= i < |policies|
      ensures effects[i].receipt.policyId == policies[i].Get(PolicyId) && effects[i].receipt.policyType == policies[i].Get(PolicyType)
    {
      assert effects[i] == EffectOf(py, policies[i], answers(from + i));
    }
  }

  /** One receipt and one attempt per policy, in order; each policy is assured or a dispatch failure. */
  lemma BatchAccounting(py: Python, policies: seq<Json>, answers: nat -> Json, from: nat)
    ensures var b := BatchOf(Effects(py, policies, answers, from));
            && b.attempts == |b.receipts| == |policies|
            && (forall i | 0 <= i < |policies| ::
                  b.receipts[i].policyId == policies[i].Get(PolicyId) && b.receipts[i].policyType == policies[i].Get(PolicyType))
            && |b.assurance| + DispatchFailures(b.failures) == |policies|
  {
    ReceiptsInOrder(py, policies, answers, from);
    AllAccounted(py, policies, answers, from);
  }

  lemma AllAccounted(py: Python, policies: seq<Json>, answers: nat -> Json, from: nat)
    ensures var b := BatchOf(Effects(py, policies, answers, from));
            b.attempts == |policies| && |b.assurance| + DispatchFailures(b.failures) == |policies|
  {
    EffectAccounted(py, policies, answers, from);
    FoldReceipts(Effects(py, policies, answers, from));
    FoldAccounting(Effects(py, policies, answers, from));
  }

  /** What the policy asked for was done and is shown to have been. */
  predicate Applied(py: Python, policy: Json, answer: Json) {
    Acknowledged(py, answer) && OnRequestedSlice(py, policy, answer) && Assured(py, policy, answer)
  }

  lemma AppliedExactly(py: Python, policy: Json, answer: Json)
    ensures EffectOf(py, policy, answer).failure.None? <==> Applied(py, policy, answer)
  {
    AckedExactly(py, policy, answer);
  }

  /** A batch is free of failures exactly when every policy was applied. */
  lemma NoFailuresExactly(py: Python, policies: seq<Json>, answers: nat -> Json, from: nat)
    ensures BatchOf(Effects(py, policies, answers, from)).failures == []
            <==> forall i | 0 <= i < |policies| :: Applied(py, policies[i], answers(from + i))
  {
    FoldFailures(Effects(py, policies, answers, from));
    forall i | 0 <= i < |policies| {
      AppliedExactly(py, policies[i], answers(from + i));
    }
  }

  /** The entries that the executor reads without a default. */
  predicate Dispatchable(policy: Json) {
    policy.Obj? && PolicyId in policy.fields && PolicyType in policy.fields
  }

  // ---- The executor ----

  /** `sent` is what the gateway was asked to apply so far; `answers(n)` is its answer to the n-th request.
      `snapshots` is what the assurance evaluator could load. */
  class PolicyBatchExecutor {
    const py: Python
    const answers: nat -> Json
    const snapshots: string -> Json
    ghost const effect: (Json, Json) -> Effect
    var sent: seq<Json>

    ghost predicate Valid() {
      Linked(py, effect)
    }

    constructor (py: Python, answers: nat -> Json, snapshots: string -> Json)
      ensures Valid() && sent == [] && this.py == py && this.answers == answers && this.snapshots == snapshots
    {
      effect := (policy, answer) => EffectOf(py, policy, answer);
      this.py, this.answers, this.snapshots, sent := py, answers, snapshots, [];
    }

    method DispatchSinglePolicy(policy: Json) returns (r: Dispatched)
      requires Dispatchable(policy)
      modifies this`sent
      ensures sent == old(sent) + [policy]
      ensures r == DispatchOutcome(py, policy, answers(|old(sent)|))
    {
      var answer := answers(|sent|);
      sent := sent + [policy];
      var result := Received(py, answer);
      var status, phase := Word(py, result.Get(Status)), Word(py, result.Get(Phase));
      if IsSuccess(status) {
        result := WithSuccess(result, status);
        if SliceExecutionError(py, policy, result).Some? {
          return Denied(result, false);
        }
        return Acked(result);
      }
      return Denied(result, IsWaiting(status, phase));
    }

    /** The evaluator is asked only about policies that it skips, so it does not raise. */
    method JudgeApplied(policy: Json, result: Json, snapshotId: string) returns (verdict: Verdict)
      ensures verdict == VerdictOn(py, policy, result)
    {
      var own := PostApplyVerdict(py, policy, result);
      if own.Some? {
        return own.value;
      }
      var evaluated := AssuranceEvaluator.Evaluate(py, snapshots, policy, snapshotId, AssuranceEvaluator.QOS_TOLERANCE_RATIO);
      return evaluated.verdict;
    }

    method RunOne(policy: Json, snapshotId: string, b: Batch) returns (after: Batch)
      requires Valid() && Dispatchable(policy)
      modifies this`sent
      ensures sent == old(sent) + [policy]
      ensures after == Extend(b, effect(policy, answers(|old(sent)|)))
    {
      EffectMeans(py, effect, policy, answers(|sent|));
      var policyId, policyType, flowId := policy.Get(PolicyId), policy.Get(PolicyType), policy.Get(FlowId);
      var receipts, assurance, failures := b.receipts, b.assurance, b.failures;
      var dispatched := DispatchSinglePolicy(policy);
      match dispatched {
        case Denied(result, retryForbidden) =>
          receipts := receipts + [Receipt(Text("failed"), policyId, policyType, flowId, result)];
          failures := failures + [DispatchFailure(policyId, policyType, flowId, retryForbidden)];
        case Acked(result) =>
          receipts := receipts + [Receipt(result.Get(Status), policyId, policyType, flowId, result)];
          var verdict := JudgeApplied(policy, result, snapshotId);
          assurance := assurance + [verdict];
          if Fails(verdict) {
            failures := failures + [AssuranceFailure(policyId, policyType, flowId, verdict)];
          }
      }
      after := Batch(receipts, assurance, failures, b.attempts + 1);
    }

    method RunNext(policies: seq<Json>, snapshotId: string, b: Batch, i: nat, ghost start: seq<Json>, ghost effects: seq<Effect>)
      returns (after: Batch)
      requires Valid() && i < |policies| == |effects| && Dispatchable(policies[i])
      requires sent == start + policies[..i] && b == BatchOf(effects[..i])
      requires effects[i] == effect(policies[i], answers(|start| + i))
      modifies this`sent
      ensures sent == start + policies[..i + 1] && after == BatchOf(effects[..i + 1])
    {
      BatchStep(effects, i);
      OneMore(start, policies, i);
      after := RunOne(policies[i], snapshotId, b);
    }

    method Run(policies: seq<Json>, snapshotId: string) returns (b: Batch)
      requires Valid() && forall i | 0 <= i < |policies| :: Dispatchable(policies[i])
      modifies this`sent
      ensures sent == old(sent) + policies
      ensures b == BatchOf(Effects(py, policies, answers, |old(sent)|))
    {
      b := EMPTY_BATCH;
      ghost var start := sent;
      ghost var effects := Mapped(effect, policies, answers, |start|);
      for i := 0 to |policies|
        invariant sent == start + policies[..i]
        invariant b == BatchOf(effects[..i])
      {
        b := RunNext(policies, snapshotId, b, i, start, effects);
      }
      assert policies[..|policies|] == policies && effects[..|policies|] == effects;
      MappedMeans(py, effect, policies, answers, |start|);
    }
  }
}
