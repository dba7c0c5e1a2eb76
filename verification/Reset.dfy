/** The polled reset of experiments/scripts/common.py, run against any environment. */
module Reset {
  import opened Documents
  import Strings

  const RETRY_INTERVAL := 1.0
  const MAX_RECOVERY_REQUESTS := 3
  const RECOVERY_GRACE := 10.0

  /** The answer to one request; `NoAnswer` is a request exception.  A body that is no JSON mapping is empty. */
  datatype Answer = NoAnswer | Answer(code: int, payload: Json)

  /** What one iteration meets: the three answers and the clock readings that decide something. */
  datatype Round = Round(post: Answer, status: Answer, gateway: Answer,
                         acceptedAt: real, graceAt: real, deadlineAt: real, sleepFrom: real)

  datatype Reason = EndpointMismatch | UnexpectedCode | SupervisorFailed | RecoveryExhausted | DeadlinePassed

  datatype State = State(attempts: nat, accepted: bool, acceptedAt: Option<real>, lastStatus: int, lastGateway: int)

  const START := State(0, false, None, 0, 0)

  /** What stays fixed while the loop runs. */
  datatype Setting = Setting(py: Python, instance: string, deadline: real)

  // ---- Reading the payloads ----

  function Word(py: Python, j: Json): string {
    Strings.Lower(py.Clean(j))
  }

  predicate ResetComplete(py: Python, payload: Json) {
    var progress := payload.Get(ResetProgress);
    payload.Get(Healthy).Truthy() && progress.Obj? && progress.Get(Active) == Bool(false) && Word(py, progress.Get(Phase)) == "completed"
  }

  predicate ResetFailed(py: Python, payload: Json) {
    var progress := payload.Get(ResetProgress);
    progress.Obj? && progress.Get(Active) == Bool(false) && Word(py, progress.Get(Phase)) == "failed"
  }

  predicate ResetActive(payload: Json) {
    payload.Get(ResetProgress).Obj? && payload.Get(ResetProgress).Get(Active) == Bool(true)
  }

  predicate SomeMissing(py: Python, payload: Json) {
    var missing := payload.Get(MissingProcesses);
    missing.List? && exists i :: 0 <= i < |missing.items| && py.Clean(missing.items[i]) != ""
  }

  predicate GatewayReady(py: Python, instance: string, payload: Json) {
    && (instance != "" ==> py.Clean(payload.Get(InstanceId)) == instance)
    && payload.Get(Healthy) == Bool(true)
    && py.Clean(payload.Get(Service)) == "ns3-free5gc-policy-acceptor"
  }

  predicate AcceptorNotFound(py: Python, a: Answer)
    requires a.Answer?
  {
    a.code == 404 && Word(py, a.payload.Get(Status)) == "failed" && Word(py, a.payload.Get(Error)) == "not found"
  }

  function PayloadOf(a: Answer): Json {
    if a.Answer? then a.payload else Null
  }

  function CodeOf(a: Answer, last: int): int {
    if a.Answer? then a.code else last
  }

  // ---- One iteration ----

  datatype Progress = Running(s: State) | Ready | Raised(reason: Reason)

  function AfterPost(g: Setting, s: State, r: Round): Progress {
    if s.accepted then Running(s)
    else
      var posted := s.(attempts := s.attempts + 1);
      if r.post.NoAnswer? then Running(posted)
      else if r.post.code == 200 || r.post.code == 409 then Running(posted.(accepted := true, acceptedAt := Some(r.acceptedAt)))
      else if AcceptorNotFound(g.py, r.post) then Raised(EndpointMismatch)
      else if !(500 <= r.post.code < 600) then Raised(UnexpectedCode)
      else Running(posted)
  }

  predicate GraceElapsed(s: State, r: Round) {
    s.acceptedAt.Some? && r.graceAt - s.acceptedAt.value >= RECOVERY_GRACE
  }

  /** An accepted reset whose supervisor reports a child that waiting cannot bring back. */
  predicate Stuck(g: Setting, s: State, r: Round) {
    && s.accepted && s.lastStatus == 503
    && SomeMissing(g.py, PayloadOf(r.status)) && !ResetActive(PayloadOf(r.status)) && GraceElapsed(s, r)
  }

  function AfterPolls(g: Setting, s: State, r: Round): Progress {
    if r.status.Answer? && ResetFailed(g.py, r.status.payload) then Raised(SupervisorFailed)
    else
      var t := s.(lastStatus := CodeOf(r.status, s.lastStatus), lastGateway := CodeOf(r.gateway, s.lastGateway));
      if && t.accepted && t.lastStatus == 200 && ResetComplete(g.py, PayloadOf(r.status))
         && t.lastGateway == 200 && GatewayReady(g.py, g.instance, PayloadOf(r.gateway)) then Ready
      else if Stuck(g, t, r) && t.attempts >= MAX_RECOVERY_REQUESTS then Raised(RecoveryExhausted)
      else if r.deadlineAt >= g.deadline then Raised(DeadlinePassed)
      else if Stuck(g, t, r) then Running(t.(accepted := false))
      else Running(t)
  }

  function Step(g: Setting, s: State, r: Round): Progress {
    var posted := AfterPost(g, s, r);
    if posted.Running? then AfterPolls(g, posted.s, r) else posted
  }

  /** Where the loop stands before iteration `n`. */
  function At(g: Setting, env: nat -> Round, n: nat): Progress {
    if n == 0 then Running(START)
    else
      var before := At(g, env, n - 1);
      if before.Running? then Step(g, before.s, env(n - 1)) else before
  }

  // ---- Events of a run ----

  predicate Posts(g: Setting, env: nat -> Round, n: nat) {
    At(g, env, n).Running? && !At(g, env, n).s.accepted
  }

  predicate IsAccepted(a: Answer) {
    a.Answer? && (a.code == 200 || a.code == 409)
  }

  /** The POST of iteration `n` is accepted. */
  predicate Accepts(g: Setting, env: nat -> Round, n: nat) {
    Posts(g, env, n) && IsAccepted(env(n).post)
  }

  /** A reset stands accepted when iteration `n` polls. */
  predicate Standing(g: Setting, env: nat -> Round, n: nat) {
    At(g, env, n).Running? && (At(g, env, n).s.accepted || IsAccepted(env(n).post))
  }

  /** Iteration `n` gives the accepted reset up, and goes on to post again. */
  predicate Recovers(g: Setting, env: nat -> Round, n: nat) {
    Standing(g, env, n) && At(g, env, n + 1).Running? && !At(g, env, n + 1).s.accepted
  }

  function Recoveries(g: Setting, env: nat -> Round, n: nat): nat {
    if n == 0 then 0 else Recoveries(g, env, n - 1) + if Recovers(g, env, n - 1) then 1 else 0
  }

  lemma {:induction false} RunningBefore(g: Setting, env: nat -> Round, k: nat, n: nat)
    requires k <= n && At(g, env, n).Running?
    ensures At(g, env, k).Running?
  {
    if k < n {
      RunningBefore(g, env, k, n - 1);
    }
  }

  /** The payloads of this very iteration say that both services are ready. */
  predicate BothReady(g: Setting, r: Round) {
    && r.status.Answer? && r.status.code == 200 && ResetComplete(g.py, r.status.payload)
    && r.gateway.Answer? && r.gateway.code == 200 && GatewayReady(g.py, g.instance, r.gateway.payload)
  }

  lemma NothingIsReady(g: Setting)
    ensures !ResetComplete(g.py, Null) && !GatewayReady(g.py, g.instance, Null)
  {
  }

  lemma CompleteIsNotFailed(g: Setting, payload: Json)
    requires ResetComplete(g.py, payload)
    ensures !ResetFailed(g.py, payload)
  {
  }

  lemma StepReady(g: Setting, s: State, r: Round)
    ensures Step(g, s, r) == Ready <==> (s.accepted || IsAccepted(r.post)) && BothReady(g, r)
  {
    NothingIsReady(g);
    if r.status.Answer? && ResetComplete(g.py, r.status.payload) {
      CompleteIsNotFailed(g, r.status.payload);
    }
  }

  /** Success is reported exactly when a reset stands accepted and both services are ready in the same
      iteration: codes left over from an earlier iteration never decide. */
  lemma SuccessExactly(g: Setting, env: nat -> Round, n: nat)
    requires At(g, env, n).Running?
    ensures At(g, env, n + 1) == Ready <==> Standing(g, env, n) && BothReady(g, env(n))
  {
    StepReady(g, At(g, env, n).s, env(n));
  }

  lemma StepOf(g: Setting, env: nat -> Round, n: nat)
    requires n > 0 && At(g, env, n).Running?
    ensures At(g, env, n - 1).Running? && At(g, env, n) == Step(g, At(g, env, n - 1).s, env(n - 1))
  {
  }

  /** A step keeps an accepted reset or gains one; it gives one up only as a recovery decision. */
  lemma StepAccepts(g: Setting, s: State, r: Round)
    requires Step(g, s, r).Running?
    ensures var t := Step(g, s, r).s;
            && t.attempts == (if s.accepted then s.attempts else s.attempts + 1)
            && (t.accepted ==> s.accepted || IsAccepted(r.post))
            && ((s.accepted || IsAccepted(r.post)) && !t.accepted ==>
                  RecoveryDecision(g, r) && GraceElapsed(t, r) && t.attempts < MAX_RECOVERY_REQUESTS)
  {
    NothingMissing(g);
  }

  lemma StandingBefore(g: Setting, env: nat -> Round, n: nat)
    requires n > 0 && At(g, env, n).Running? && At(g, env, n).s.accepted
    ensures Standing(g, env, n - 1) && !Recovers(g, env, n - 1)
  {
    StepOf(g, env, n);
    StepAccepts(g, At(g, env, n - 1).s, env(n - 1));
  }

  /** A standing reset was accepted by some POST, and never given up since. */
  lemma {:induction false} StandingSince(g: Setting, env: nat -> Round, n: nat) returns (k: nat)
    requires Standing(g, env, n)
    ensures k <= n && Accepts(g, env, k)
    ensures forall j | k <= j < n :: !Recovers(g, env, j)
    ensures forall j | k < j <= n :: At(g, env, j).Running? && !Posts(g, env, j)
  {
    if !At(g, env, n).s.accepted {
      return n;
    }
    assert n > 0;
    StandingBefore(g, env, n);
    k := StandingSince(g, env, n - 1);
  }

  lemma RecoveryAt(g: Setting, env: nat -> Round, j: nat)
    requires j > 0 && Standing(g, env, j - 1) && Posts(g, env, j)
    ensures Recovers(g, env, j - 1) && RecoveryDecision(g, env(j - 1))
    ensures GraceElapsed(At(g, env, j).s, env(j - 1)) && At(g, env, j).s.attempts < MAX_RECOVERY_REQUESTS
  {
    StepOf(g, env, j);
    StepAccepts(g, At(g, env, j - 1).s, env(j - 1));
  }

  lemma PostsBefore(g: Setting, env: nat -> Round, j: nat)
    requires j > 0 && Posts(g, env, j) && !Standing(g, env, j - 1)
    ensures Posts(g, env, j - 1)
  {
    StepOf(g, env, j);
  }

  /** After an accepted POST, no POST is sent until a recovery decision: the supervisor answered 503 with a
      missing process and no active reset, the grace period was over, and fewer than three POSTs were sent. */
  lemma {:induction false} PostNeedsRecovery(g: Setting, env: nat -> Round, i: nat, j: nat) returns (k: nat)
    requires i < j && Standing(g, env, i) && Posts(g, env, j)
    ensures i <= k < j && Recovers(g, env, k) && RecoveryDecision(g, env(k))
    ensures GraceElapsed(At(g, env, k + 1).s, env(k)) && At(g, env, k + 1).s.attempts < MAX_RECOVERY_REQUESTS
    decreases j
  {
    if Standing(g, env, j - 1) {
      RecoveryAt(g, env, j);
      k := j - 1;
    } else {
      PostsBefore(g, env, j);
      k := PostNeedsRecovery(g, env, i, j - 1);
    }
  }

  predicate RecoveryDecision(g: Setting, r: Round) {
    && r.status.Answer? && r.status.code == 503
    && SomeMissing(g.py, r.status.payload) && !ResetActive(r.status.payload)
  }

  lemma NothingMissing(g: Setting)
    ensures !SomeMissing(g.py, Null)
  {
  }

  /** Every recovery is paid for by a POST of its own. */
  lemma {:induction false} RecoveriesPaid(g: Setting, env: nat -> Round, n: nat)
    requires At(g, env, n).Running?
    ensures var s := At(g, env, n).s;
            && Recoveries(g, env, n) <= (if s.accepted then s.attempts - 1 else s.attempts)
            && Recoveries(g, env, n) <= MAX_RECOVERY_REQUESTS - 1
  {
    if n > 0 {
      StepOf(g, env, n);
      RecoveriesPaid(g, env, n - 1);
      StepAccepts(g, At(g, env, n - 1).s, env(n - 1));
    }
  }

  /** No run makes more than two recovery decisions. */
  lemma {:induction false} AtMostTwoRecoveries(g: Setting, env: nat -> Round, n: nat)
    ensures Recoveries(g, env, n) <= 2
  {
    if n > 0 && At(g, env, n).Running? {
      RecoveriesPaid(g, env, n);
    } else if n > 0 {
      AtMostTwoRecoveries(g, env, n - 1);
    }
  }

  // ---- The clock, and the end of every run ----

  function Min(a: real, b: real): real {
    if a <= b then a else b
  }

  function Max(a: real, b: real): real {
    if a >= b then a else b
  }

  function Ceil(x: real): int {
    -((-x).Floor)
  }

  /** `time.sleep(min(interval, max(0, deadline - now)))` */
  function SleepFor(g: Setting, r: Round): real {
    Min(RETRY_INTERVAL, Max(0.0, g.deadline - r.sleepFrom))
  }

  /** The clock does not go back, and sleeping takes the time it says. */
  ghost predicate Clock(g: Setting, env: nat -> Round, start: real) {
    && start <= env(0).deadlineAt
    && forall n: nat :: env(n).deadlineAt <= env(n).sleepFrom && env(n + 1).deadlineAt >= env(n).sleepFrom + SleepFor(g, env(n))
  }

  lemma {:induction false} TimePasses(g: Setting, env: nat -> Round, start: real, n: nat)
    requires Clock(g, env, start)
    ensures env(n).deadlineAt >= Min(start + n as real, g.deadline)
  {
    if n > 0 {
      TimePasses(g, env, start, n - 1);
      assert env(n - 1 + 1) == env(n);
    }
  }

  /** Against a clock, the loop ends within `ceil(timeout) + 1` iterations. */
  lemma EndsInTime(g: Setting, env: nat -> Round, start: real, timeout: real)
    requires Clock(g, env, start) && timeout > 0.0 && g.deadline == start + timeout
    ensures Ceil(timeout) >= 0 && !At(g, env, Ceil(timeout) + 1).Running?
  {
    var n := Ceil(timeout);
    TimePasses(g, env, start, n);
    assert n as real >= timeout;
    assert env(n).deadlineAt >= g.deadline;
  }

  // ---- The loop itself ----

  method SendReset(g: Setting, s: State, r: Round) returns (p: Progress)
    ensures p == AfterPost(g, s, r)
  {
    var attempts, accepted, acceptedAt := s.attempts, s.accepted, s.acceptedAt;
    if !accepted {
      attempts := attempts + 1;
      if r.post.Answer? {
        if r.post.code == 200 || r.post.code == 409 {
          accepted, acceptedAt := true, Some(r.acceptedAt);
        } else if AcceptorNotFound(g.py, r.post) {
          return Raised(EndpointMismatch);
        } else if !(500 <= r.post.code < 600) {
          return Raised(UnexpectedCode);
        }
      }
    }
    return Running(State(attempts, accepted, acceptedAt, s.lastStatus, s.lastGateway));
  }

  method PollServices(g: Setting, s: State, r: Round) returns (p: Progress)
    ensures p == AfterPolls(g, s, r)
  {
    var accepted, lastStatus, lastGateway := s.accepted, s.lastStatus, s.lastGateway;
    if r.status.Answer? {
      lastStatus := r.status.code;
      if ResetFailed(g.py, r.status.payload) {
        return Raised(SupervisorFailed);
      }
    }
    if r.gateway.Answer? {
      lastGateway := r.gateway.code;
    }
    var status, gateway := PayloadOf(r.status), PayloadOf(r.gateway);
    if accepted && lastStatus == 200 && ResetComplete(g.py, status)
       && lastGateway == 200 && GatewayReady(g.py, g.instance, gateway) {
      return Ready;
    }
    var stuck := accepted && lastStatus == 503 && SomeMissing(g.py, status) && !ResetActive(status)
                 && s.acceptedAt.Some? && r.graceAt - s.acceptedAt.value >= RECOVERY_GRACE;
    if stuck && s.attempts >= MAX_RECOVERY_REQUESTS {
      return Raised(RecoveryExhausted);
    }
    if stuck && s.attempts < MAX_RECOVERY_REQUESTS {
      accepted := false;
    }
    if r.deadlineAt >= g.deadline {
      return Raised(DeadlinePassed);
    }
    return Running(State(s.attempts, accepted, s.acceptedAt, lastStatus, lastGateway));
  }

  method ResetSimulatorState(py: Python, instance: string, env: nat -> Round, start: real, timeoutSeconds: real)
    returns (result: Progress, ghost rounds: nat)
    requires Clock(Setting(py, instance, start + Max(0.01, timeoutSeconds)), env, start)
    ensures var g := Setting(py, instance, start + Max(0.01, timeoutSeconds));
            && 0 < rounds <= Ceil(Max(0.01, timeoutSeconds)) + 1
            && At(g, env, rounds - 1).Running? && !result.Running? && result == At(g, env, rounds)
  {
    var g := Setting(py, instance, start + Max(0.01, timeoutSeconds));
    ghost var bound := Ceil(Max(0.01, timeoutSeconds));
    EndsInTime(g, env, start, Max(0.01, timeoutSeconds));
    var state, n := START, 0;
    while true
      invariant n <= bound && At(g, env, n) == Running(state)
      decreases bound - n
    {
      rounds := n + 1;
      Advance(g, env, n);
      result := SendReset(g, state, env(n));
      if result.Running? {
        result := PollServices(g, result.s, env(n));
      }
      if !result.Running? {
        return;
      }
      EndedStays(g, env, n + 1, bound + 1);
      state, n := result.s, n + 1;
    }
  }

  lemma Advance(g: Setting, env: nat -> Round, n: nat)
    requires At(g, env, n).Running?
    ensures var posted := AfterPost(g, At(g, env, n).s, env(n));
            At(g, env, n + 1) == if posted.Running? then AfterPolls(g, posted.s, env(n)) else posted
  {
  }

  /** A run that has ended stays ended. */
  lemma {:induction false} EndedStays(g: Setting, env: nat -> Round, n: nat, m: nat)
    requires n <= m
    ensures !At(g, env, n).Running? ==> At(g, env, m) == At(g, env, n)
  {
    if n < m {
      EndedStays(g, env, n, m - 1);
    }
  }
}
