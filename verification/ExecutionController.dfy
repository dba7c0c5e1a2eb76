/** Outcome classification and the commit gate of src/control_runtime/execution/execution_controller.py. */
module ExecutionController {
  import opened Documents
  import opened PolicyBatch
  import PolicyCompiler
  import Strings

  datatype Status = Failed | PartialSuccess | Success

  datatype Outcome = Outcome(status: Status, scope: string, attempts: nat, retryForbidden: bool)

  datatype Commit = Commit(supi: string, policies: seq<Json>, sessionId: string, snapshotId: string)

  // ---- Classification ----

  predicate IsMobility(py: Python, policyType: Json) {
    py.Clean(policyType) == PolicyCompiler.AM_POLICY_TYPE
  }

  /** `_failure_scope_from_policies` over the policy types that are given. */
  function FailureScope(py: Python, types: seq<Json>): string {
    if types == [] then "none"
    else if forall i | 0 <= i < |types| :: !IsMobility(py, types[i]) then "qos"
    else if forall i | 0 <= i < |types| :: IsMobility(py, types[i]) then "mobility"
    else "mixed"
  }

  function TypesOf(failures: seq<Failure>): seq<Json> {
    if failures == [] then []
    else TypesOf(failures[..|failures| - 1]) +
         if failures[|failures| - 1].policyType.Truthy() then [failures[|failures| - 1].policyType] else []
  }

  predicate AnySucceeded(py: Python, receipts: seq<Receipt>) {
    exists i :: 0 <= i < |receipts| && Word(py, receipts[i].status) == "success"
  }

  predicate AnyAssurance(failures: seq<Failure>) {
    exists i :: 0 <= i < |failures| && failures[i].AssuranceFailure?
  }

  predicate AnyRetryForbidden(failures: seq<Failure>) {
    exists i :: 0 <= i < |failures| && failures[i].DispatchFailure? && failures[i].retryForbidden
  }

  function Classify(py: Python, b: Batch): Status {
    if b.failures == [] then Success
    else if AnyAssurance(b.failures) then Failed
    else if AnySucceeded(py, b.receipts) then PartialSuccess
    else Failed
  }

  // ---- What the classification means for the policies ----

  predicate DispatchOk(py: Python, policy: Json, answer: Json) {
    Acknowledged(py, answer) && OnRequestedSlice(py, policy, answer)
  }

  lemma EffectSucceeds(py: Python, policy: Json, answer: Json)
    ensures Word(py, EffectOf(py, policy, answer).receipt.status) == "success" <==> DispatchOk(py, policy, answer)
    ensures EffectOf(py, policy, answer).failure.Some? && EffectOf(py, policy, answer).failure.value.AssuranceFailure?
            <==> DispatchOk(py, policy, answer) && !Assured(py, policy, answer)
  {
    AckedExactly(py, policy, answer);
    AppliedExactly(py, policy, answer);
    FailedText(py);
  }

  lemma FailedText(py: Python)
    ensures Word(py, Text("failed")) != "success"
  {
    Strings.StripFixes("failed");
    assert Word(py, Text("failed"))[0] == 'f';
  }

  ghost predicate SomeDispatched(py: Python, policies: seq<Json>, answers: nat -> Json, from: nat) {
    exists i :: 0 <= i < |policies| && DispatchOk(py, policies[i], answers(from + i))
  }

  ghost predicate SomeUnassured(py: Python, policies: seq<Json>, answers: nat -> Json, from: nat) {
    exists i :: 0 <= i < |policies| && DispatchOk(py, policies[i], answers(from + i)) && !Assured(py, policies[i], answers(from + i))
  }

  ghost predicate AllApplied(py: Python, policies: seq<Json>, answers: nat -> Json, from: nat) {
    forall i | 0 <= i < |policies| :: Applied(py, policies[i], answers(from + i))
  }

  lemma SucceededExactly(py: Python, policies: seq<Json>, answers: nat -> Json, from: nat)
    ensures AnySucceeded(py, BatchOf(Effects(py, policies, answers, from)).receipts) <==> SomeDispatched(py, policies, answers, from)
  {
    var effects := Effects(py, policies, answers, from);
    FoldReceipts(effects);
    forall i | 0 <= i < |policies| {
      EffectSucceeds(py, policies[i], answers(from + i));
    }
    assert forall i | 0 <= i < |policies| :: BatchOf(effects).receipts[i] == effects[i].receipt;
  }

  predicate FailsAssurance(e: Effect) {
    e.failure.Some? && e.failure.value.AssuranceFailure?
  }

  lemma {:induction false} FoldAssurance(effects: seq<Effect>)
    ensures AnyAssurance(BatchOf(effects).failures) <==> exists i :: 0 <= i < |effects| && FailsAssurance(effects[i])
  {
    var failures := BatchOf(effects).failures;
    FoldFailures(effects);
    if AnyAssurance(failures) {
      var k :| 0 <= k < |failures| && failures[k].AssuranceFailure?;
      assert failures[k] in failures;
      var i :| 0 <= i < |effects| && effects[i].failure == Some(failures[k]);
      assert FailsAssurance(effects[i]);
    }
    if i :| 0 <= i < |effects| && FailsAssurance(effects[i]) {
      assert effects[i].failure == Some(effects[i].failure.value);
      assert effects[i].failure.value in failures;
    }
  }

  lemma AssuranceFailsExactly(py: Python, policies: seq<Json>, answers: nat -> Json, from: nat)
    ensures AnyAssurance(BatchOf(Effects(py, policies, answers, from)).failures) <==> SomeUnassured(py, policies, answers, from)
  {
    FoldAssurance(Effects(py, policies, answers, from));
    forall i | 0 <= i < |policies|
      ensures FailsAssurance(Effects(py, policies, answers, from)[i])
              <==> DispatchOk(py, policies[i], answers(from + i)) && !Assured(py, policies[i], answers(from + i))
    {
      EffectSucceeds(py, policies[i], answers(from + i));
    }
  }

  /** The three outcomes in terms of the policies: success is all applied; partial success is some but not
      all dispatched, and none dispatched without its assurance. */
  lemma ClassifyExactly(py: Python, policies: seq<Json>, answers: nat -> Json, from: nat)
    ensures var status := Classify(py, BatchOf(Effects(py, policies, answers, from)));
            && (status == Success <==> AllApplied(py, policies, answers, from))
            && (status == PartialSuccess <==>
                  && !AllApplied(py, policies, answers, from) && !SomeUnassured(py, policies, answers, from)
                  && SomeDispatched(py, policies, answers, from))
  {
    NoFailuresExactly(py, policies, answers, from);
    SucceededExactly(py, policies, answers, from);
    AssuranceFailsExactly(py, policies, answers, from);
  }

  lemma {:induction false} TypesMembers(failures: seq<Failure>, t: Json)
    ensures t in TypesOf(failures) <==> exists k :: 0 <= k < |failures| && failures[k].policyType == t && t.Truthy()
  {
    if failures != [] {
      var init, last := failures[..|failures| - 1], failures[|failures| - 1];
      TypesMembers(init, t);
      assert forall k | 0 <= k < |init| :: failures[k] == init[k];
      assert t in TypesOf(failures) <==> t in TypesOf(init) || (last.policyType == t && t.Truthy());
    }
  }

  lemma {:induction false} FoldTypes(effects: seq<Effect>, t: Json)
    ensures t in TypesOf(BatchOf(effects).failures)
            <==> exists i :: 0 <= i < |effects| && effects[i].failure.Some? && effects[i].failure.value.policyType == t && t.Truthy()
  {
    var failures := BatchOf(effects).failures;
    FoldFailures(effects);
    TypesMembers(failures, t);
    if t in TypesOf(failures) {
      var k :| 0 <= k < |failures| && failures[k].policyType == t && t.Truthy();
      assert failures[k] in failures;
      var i :| 0 <= i < |effects| && effects[i].failure == Some(failures[k]);
      assert effects[i].failure.value.policyType == t;
    }
    if i :| 0 <= i < |effects| && effects[i].failure.Some? && effects[i].failure.value.policyType == t && t.Truthy() {
      assert effects[i].failure == Some(effects[i].failure.value);
      var k :| 0 <= k < |failures| && failures[k] == effects[i].failure.value;
    }
  }

  /** All failing effects are of one domain. */
  ghost predicate OneDomain(py: Python, effects: seq<Effect>, mobility: bool) {
    forall i | 0 <= i < |effects| && effects[i].failure.Some? :: IsMobility(py, effects[i].failure.value.policyType) == mobility
  }

  lemma {:induction false} FoldDomain(py: Python, effects: seq<Effect>, mobility: bool)
    requires forall i | 0 <= i < |effects| && effects[i].failure.Some? :: effects[i].failure.value.policyType.Truthy()
    ensures var types := TypesOf(BatchOf(effects).failures);
            (forall k | 0 <= k < |types| :: IsMobility(py, types[k]) == mobility) <==> OneDomain(py, effects, mobility)
  {
    var types := TypesOf(BatchOf(effects).failures);
    if forall k | 0 <= k < |types| :: IsMobility(py, types[k]) == mobility {
      forall i | 0 <= i < |effects| && effects[i].failure.Some?
        ensures IsMobility(py, effects[i].failure.value.policyType) == mobility
      {
        FoldTypes(effects, effects[i].failure.value.policyType);
      }
    }
    if OneDomain(py, effects, mobility) {
      forall k | 0 <= k < |types|
        ensures IsMobility(py, types[k]) == mobility
      {
        FoldTypes(effects, types[k]);
      }
    }
  }

  lemma ScopeByDomain(py: Python, types: seq<Json>, qos: bool, mobility: bool)
    requires types != []
    requires qos <==> forall k | 0 <= k < |types| :: IsMobility(py, types[k]) == false
    requires mobility <==> forall k | 0 <= k < |types| :: IsMobility(py, types[k]) == true
    ensures FailureScope(py, types) == if qos then "qos" else if mobility then "mobility" else "mixed"
  {
  }

  lemma {:induction false} FoldScope(py: Python, effects: seq<Effect>, n: nat)
    requires forall i | 0 <= i < |effects| && effects[i].failure.Some? :: effects[i].failure.value.policyType.Truthy()
    requires n < |effects| && effects[n].failure.Some?
    ensures FailureScope(py, TypesOf(BatchOf(effects).failures)) ==
            if OneDomain(py, effects, false) then "qos" else if OneDomain(py, effects, true) then "mobility" else "mixed"
  {
    var types := TypesOf(BatchOf(effects).failures);
    SomeType(effects, n);
    FoldDomain(py, effects, false);
    FoldDomain(py, effects, true);
    ScopeByDomain(py, types, OneDomain(py, effects, false), OneDomain(py, effects, true));
  }

  lemma {:induction false} SomeType(effects: seq<Effect>, n: nat)
    requires n < |effects| && effects[n].failure.Some? && effects[n].failure.value.policyType.Truthy()
    ensures TypesOf(BatchOf(effects).failures) != []
  {
    FoldTypes(effects, effects[n].failure.value.policyType);
  }

  predicate ForbidsRetry(e: Effect) {
    e.failure.Some? && e.failure.value.DispatchFailure? && e.failure.value.retryForbidden
  }

  lemma {:induction false} FoldRetry(effects: seq<Effect>)
    ensures AnyRetryForbidden(BatchOf(effects).failures) <==> exists i :: 0 <= i < |effects| && ForbidsRetry(effects[i])
  {
    var failures := BatchOf(effects).failures;
    FoldFailures(effects);
    if AnyRetryForbidden(failures) {
      var k :| 0 <= k < |failures| && failures[k].DispatchFailure? && failures[k].retryForbidden;
      assert failures[k] in failures;
      var i :| 0 <= i < |effects| && effects[i].failure == Some(failures[k]);
      assert ForbidsRetry(effects[i]);
    }
    if i :| 0 <= i < |effects| && ForbidsRetry(effects[i]) {
      assert effects[i].failure == Some(effects[i].failure.value);
      assert effects[i].failure.value in failures;
    }
  }

  /** The gateway left the policy waiting for a terminal status. */
  predicate LeftWaiting(py: Python, answer: Json) {
    && answer.Obj? && !Acknowledged(py, answer)
    && IsWaiting(Word(py, answer.Get(Status)), Word(py, answer.Get(Phase)))
  }

  predicate WaitingAt(py: Python, policy: Json, answer: Json) {
    LeftWaiting(py, answer)
  }

  lemma NotWaiting(py: Python, answer: Json)
    requires !answer.Obj?
    ensures !IsWaiting(Word(py, Received(py, answer).Get(Status)), Word(py, Received(py, answer).Get(Phase)))
  {
    Strings.StripFixes("failed");
    assert Received(py, answer).Get(Status) == Text("failed") && Received(py, answer).Get(Phase) == Null;
    assert Word(py, Text("failed"))[0] == 'f';
    assert Word(py, Null) == "";
  }

  lemma EffectFails(py: Python, policy: Json, answer: Json)
    requires PolicyCompiler.Executable(policy)
    ensures var e := EffectOf(py, policy, answer);
            && (e.failure.None? <==> Applied(py, policy, answer))
            && (e.failure.Some? ==> e.failure.value.policyType == policy.Get(PolicyType) && policy.Get(PolicyType).Truthy())
            && (ForbidsRetry(e) <==> LeftWaiting(py, answer))
  {
    AppliedExactly(py, policy, answer);
    AckedExactly(py, policy, answer);
    if !answer.Obj? {
      NotWaiting(py, answer);
    }
  }

  ghost predicate OnlyScope(py: Python, policies: seq<Json>, answers: nat -> Json, from: nat, mobility: bool) {
    forall i | 0 <= i < |policies| && !Applied(py, policies[i], answers(from + i)) ::
      IsMobility(py, policies[i].Get(PolicyType)) == mobility
  }

  ghost predicate SomeWaiting(py: Python, policies: seq<Json>, answers: nat -> Json, from: nat) {
    exists i :: 0 <= i < |policies| && WaitingAt(py, policies[i], answers(from + i))
  }

  /** The failure scope names the one domain that all failed policies are of, or is mixed; retrying is
      forbidden exactly when some policy was left waiting. */
  lemma FailureExactly(py: Python, policies: seq<Json>, answers: nat -> Json, from: nat)
    requires forall i | 0 <= i < |policies| :: PolicyCompiler.Executable(policies[i])
    requires !AllApplied(py, policies, answers, from)
    ensures var failures := BatchOf(Effects(py, policies, answers, from)).failures;
            && (AnyRetryForbidden(failures) <==> SomeWaiting(py, policies, answers, from))
            && FailureScope(py, TypesOf(failures)) ==
               if OnlyScope(py, policies, answers, from, false) then "qos"
               else if OnlyScope(py, policies, answers, from, true) then "mobility" else "mixed"
  {
    Pointwise(py, policies, answers, from);
    var n := SomeFailing(py, policies, answers, from);
    FailureOf(py, policies, answers, from, Effects(py, policies, answers, from), n);
  }

  lemma SomeFailing(py: Python, policies: seq<Json>, answers: nat -> Json, from: nat) returns (n: nat)
    requires !AllApplied(py, policies, answers, from)
    ensures n < |policies| && Effects(py, policies, answers, from)[n].failure.Some?
  {
    n :| 0 <= n < |policies| && !Applied(py, policies[n], answers(from + n));
    AppliedExactly(py, policies[n], answers(from + n));
  }

  lemma FailureOf(py: Python, policies: seq<Json>, answers: nat -> Json, from: nat, effects: seq<Effect>, n: nat)
    requires Matched(py, policies, answers, from, effects) && n < |effects| && effects[n].failure.Some?
    ensures AnyRetryForbidden(BatchOf(effects).failures) <==> SomeWaiting(py, policies, answers, from)
    ensures FailureScope(py, TypesOf(BatchOf(effects).failures)) ==
            if OnlyScope(py, policies, answers, from, false) then "qos"
            else if OnlyScope(py, policies, answers, from, true) then "mobility" else "mixed"
  {
    MatchedDomain(py, policies, answers, from, effects, false);
    MatchedDomain(py, policies, answers, from, effects, true);
    MatchedRetry(py, policies, answers, from, effects);
    MatchedTypes(py, policies, answers, from, effects);
    FoldScope(py, effects, n);
    FoldRetry(effects);
  }

  lemma MatchedTypes(py: Python, policies: seq<Json>, answers: nat -> Json, from: nat, effects: seq<Effect>)
    requires Matched(py, policies, answers, from, effects)
    ensures forall i | 0 <= i < |effects| && effects[i].failure.Some? :: effects[i].failure.value.policyType.Truthy()
  {
  }

  /** The effects beside their policies, one by one. */
  ghost predicate Matched(py: Python, policies: seq<Json>, answers: nat -> Json, from: nat, effects: seq<Effect>) {
    && |effects| == |policies|
    && (forall i | 0 <= i < |policies| :: effects[i].failure.None? <==> Applied(py, policies[i], answers(from + i)))
    && (forall i | 0 <= i < |policies| && effects[i].failure.Some? ::
          effects[i].failure.value.policyType == policies[i].Get(PolicyType) && policies[i].Get(PolicyType).Truthy())
    && (forall i | 0 <= i < |policies| :: ForbidsRetry(effects[i]) <==> WaitingAt(py, policies[i], answers(from + i)))
  }

  lemma {:induction false} Pointwise(py: Python, policies: seq<Json>, answers: nat -> Json, from: nat)
    requires forall i | 0 <= i < |policies| :: PolicyCompiler.Executable(policies[i])
    ensures Matched(py, policies, answers, from, Effects(py, policies, answers, from))
  {
    forall i | 0 <= i < |policies| {
      EffectFails(py, policies[i], answers(from + i));
    }
  }

  lemma {:induction false} MatchedDomain(py: Python, policies: seq<Json>, answers: nat -> Json, from: nat, effects: seq<Effect>, mobility: bool)
    requires Matched(py, policies, answers, from, effects)
    ensures OneDomain(py, effects, mobility) <==> OnlyScope(py, policies, answers, from, mobility)
  {
  }

  lemma {:induction false} MatchedRetry(py: Python, policies: seq<Json>, answers: nat -> Json, from: nat, effects: seq<Effect>)
    requires Matched(py, policies, answers, from, effects)
    ensures (exists i :: 0 <= i < |effects| && ForbidsRetry(effects[i])) <==> SomeWaiting(py, policies, answers, from)
  {
  }

  // ---- The controller ----

  class Controller {
    const py: Python
    const schemas: PolicyCompiler.Schemas
    const executor: PolicyBatchExecutor
    var commits: seq<Commit>

    constructor (schemas: PolicyCompiler.Schemas, executor: PolicyBatchExecutor)
      ensures commits == [] && this.executor == executor && this.schemas == schemas && py == executor.py
    {
      this.schemas, this.executor, this.py, commits := schemas, executor, executor.py, [];
    }

    /** A compiled plan is committed, once and whole, exactly when every policy of it was applied. */
    method Execute(payload: Json) returns (outcome: Outcome)
      requires py == executor.py && executor.Valid()
      modifies this`commits, executor`sent
      ensures var plan := PolicyCompiler.CompilePlan(py, schemas, payload);
              plan.None? ==> && outcome == Outcome(Failed, "compile", 0, false)
                             && executor.sent == old(executor.sent) && commits == old(commits)
      ensures var plan := PolicyCompiler.CompilePlan(py, schemas, payload);
              plan.Some? ==>
                var policies, from := plan.value.policies, |old(executor.sent)|;
                && executor.sent == old(executor.sent) + policies
                && outcome.attempts == |policies|
                && (AllApplied(py, policies, executor.answers, from) ==>
                      && outcome == Outcome(Success, "none", |policies|, false)
                      && commits == old(commits) + [Commit(CommitSupi(plan.value), policies, plan.value.sessionId, plan.value.snapshotId)])
                && (!AllApplied(py, policies, executor.answers, from) ==>
                      && !outcome.status.Success? && commits == old(commits)
                      && (outcome.status.PartialSuccess?
                          <==> !SomeUnassured(py, policies, executor.answers, from)
                               && SomeDispatched(py, policies, executor.answers, from))
                      && outcome.scope == (if OnlyScope(py, policies, executor.answers, from, false) then "qos"
                                           else if OnlyScope(py, policies, executor.answers, from, true) then "mobility" else "mixed")
                      && (outcome.retryForbidden <==> SomeWaiting(py, policies, executor.answers, from)))
    {
      var plan := PolicyCompiler.CompilePlan(py, schemas, payload);
      if plan.None? {
        return Outcome(Failed, "compile", 0, false);
      }
      var policies := plan.value.policies;
      PolicyCompiler.PlanExecutable(py, schemas, payload);
      ghost var from := |executor.sent|;
      var b := executor.Run(policies, plan.value.snapshotId);
      BatchAccounting(py, policies, executor.answers, from);
      ClassifyExactly(py, policies, executor.answers, from);
      if b.failures != [] {
        FailureExactly(py, policies, executor.answers, from);
        return Outcome(Classify(py, b), FailureScope(py, TypesOf(b.failures)), b.attempts, AnyRetryForbidden(b.failures));
      }
      commits := commits + [Commit(CommitSupi(plan.value), policies, plan.value.sessionId, plan.value.snapshotId)];
      return Outcome(Success, "none", b.attempts, false);
    }
  }

  /** `plan.supi or policies[0]["supi"]` */
  function CommitSupi(plan: PolicyCompiler.Plan): string {
    if plan.supi != "" || plan.policies == [] || !plan.policies[0].Get(Supi).Text? then plan.supi else plan.policies[0].Get(Supi).s
  }

  /** What is committed always names a subscriber. */
  lemma CommitNamesSubscriber(py: Python, schemas: PolicyCompiler.Schemas, payload: Json)
    requires PolicyCompiler.CompilePlan(py, schemas, payload).Some?
    ensures CommitSupi(PolicyCompiler.CompilePlan(py, schemas, payload).value) != ""
  {
    PolicyCompiler.PlanExecutable(py, schemas, payload);
  }
}
