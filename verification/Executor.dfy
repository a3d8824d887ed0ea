/** The recovery executor: `ExecuteWorkflow` and, before it, the analysis pipeline's
    writes, on one payment's workflow. Each database statement whose failure the
    program ignores can fail here too. */
module Executor {
  import opened Prelude
  import opened WorkflowStates
  import opened PolicyEngine

  datatype PaymentStatus = PaymentFailed | PaymentCaptured | OtherStatus(name: string)

  datatype AttemptStatus = PendingAttempt | ExecutedAttempt | FailedAttempt

  datatype Attempt = Attempt(action: ActionType, status: AttemptStatus, number: int)

  datatype Outcome = Outcome(attempt: Option<nat>, recovered: bool, amount: real)

  /** A retry request to the payment provider, with the facts that held when it was made. */
  datatype ProviderCall = ProviderCall(
    action: ActionType, amount: real, policy: Policy, confidence: real, fraud: real, optOut: bool)

  datatype Notice = Notice(action: ActionType, optOut: bool)

  /** The rows of one payment and its workflow, and what has been sent out for it. */
  datatype World = World(
    status: WorkflowState, payment: PaymentStatus, selected: Option<ActionType>, fraud: real,
    confidences: seq<real>, attempts: seq<Attempt>, outcomes: seq<Outcome>,
    calls: seq<ProviderCall>, notices: seq<Notice>)

  /** Statements that may fail without stopping the program, except a failed
      `AttemptInsert`, which does stop it. */
  datatype Fault =
    | CountRead | ConfidenceRead | OptOutRead | FraudRead | DuplicateRead
    | StatusWrite | AttemptInsert | AttemptUpdate | RecoveryWrite | OutcomeInsert

  /** What one call meets: the customer and policy rows it reads, the payment
      provider's three answers, and the statements that fail. The policy is read
      twice. A missing answer counts as "not captured". */
  datatype Env = Env(
    found: bool, amount: real, optOut: bool, hasEmail: bool, policy: Policy, evalPolicy: Policy,
    capturedBefore: bool, retryFailed: bool, capturedAfter: bool, faults: set<Fault>)

  datatype Verdict =
    | NotFound | AlreadyResolved | AlreadyCaptured | BlockedOptOut | BlockedMaxRetries
    | BlockedPolicy(reason: Reason) | EscalatedPolicy(reason: Reason)
    | AttemptNotRecorded | VerifiedCaptured | VerifiedFailed

  const DEFAULT_CONFIDENCE := 0.85

  predicate IsResolved(s: WorkflowState) {
    s == Recovered || s == Halted || s == Failed
  }

  function Chosen(w: World): ActionType {
    match w.selected
    case Some(a) => a
    case None => DelayedRetry
  }

  function CountedAttempts(w: World, e: Env): nat {
    if CountRead in e.faults then 0 else |w.attempts|
  }

  function StoredConfidence(w: World): real {
    if w.confidences == [] then DEFAULT_CONFIDENCE else w.confidences[|w.confidences| - 1]
  }

  function Executions(attempts: seq<Attempt>, a: ActionType): nat {
    if attempts == [] then 0
    else
      var last := attempts[|attempts| - 1];
      Executions(attempts[..|attempts| - 1], a) + if last.action == a && last.status == ExecutedAttempt then 1 else 0
  }

  /** The executor's request leaves the attempt number and the customer's history at zero. */
  function PolicyRequest(w: World, e: Env): Request {
    Request(e.evalPolicy,
            if OptOutRead in e.faults then None else Some(e.optOut),
            if FraudRead in e.faults then None else Some(w.fraud),
            0, 0,
            if DuplicateRead in e.faults then None else Some(Executions(w.attempts, Chosen(w))),
            Chosen(w),
            if ConfidenceRead in e.faults then DEFAULT_CONFIDENCE else StoredConfidence(w),
            e.amount)
  }

  function WithStatus(w: World, e: Env, s: WorkflowState): World {
    if StatusWrite in e.faults then w else w.(status := s)
  }

  /** One transaction: payment CAPTURED, workflow RECOVERED, one recovered outcome. */
  function WithRecovery(w: World, e: Env, attempt: Option<nat>): World {
    if RecoveryWrite in e.faults then w
    else w.(status := Recovered, payment := PaymentCaptured,
            outcomes := w.outcomes + [Outcome(attempt, true, e.amount)])
  }

  /** The world after the attempt is recorded and the provider was asked to retry. */
  function AfterCall(w: World, e: Env): World {
    var action := Chosen(w);
    var status := if AttemptUpdate in e.faults then PendingAttempt
                  else if e.retryFailed then FailedAttempt else ExecutedAttempt;
    w.(attempts := w.attempts + [Attempt(action, status, CountedAttempts(w, e) + 1)],
       calls := w.calls + [ProviderCall(action, e.amount, e.evalPolicy, StoredConfidence(w), w.fraud, e.optOut)],
       notices := if action != NoAction && !e.optOut && e.hasEmail
                  then w.notices + [Notice(action, e.optOut)] else w.notices)
  }

  /** The verified answer decides; a failed attempt leaves the workflow SCHEDULED
      unless it was the last one the policy allows. */
  function AfterVerification(w: World, e: Env, number: int): World
    requires w.attempts != []
  {
    if e.capturedAfter then WithRecovery(w, e, Some(|w.attempts| - 1))
    else
      var w' := WithStatus(w, e, if number >= e.policy.maxRetries then Failed else Scheduled);
      if OutcomeInsert in e.faults then w'
      else w'.(outcomes := w'.outcomes + [Outcome(Some(|w.attempts| - 1), false, 0.0)])
  }

  function Execute(w: World, e: Env): (World, Verdict) {
    if !e.found then (w, NotFound)
    else if IsResolved(w.status) then (w, AlreadyResolved)
    else if e.capturedBefore then (WithRecovery(w, e, None), AlreadyCaptured)
    else if e.optOut && IsContact(Chosen(w)) then (WithStatus(w, e, Halted), BlockedOptOut)
    else if CountedAttempts(w, e) >= e.policy.maxRetries then (WithStatus(w, e, Failed), BlockedMaxRetries)
    else
      match Evaluate(PolicyRequest(w, e))
      case Block(reason) => (WithStatus(w, e, Halted), BlockedPolicy(reason))
      case Escalate(reason) => (WithStatus(w, e, Escalated), EscalatedPolicy(reason))
      case _ =>
        if AttemptInsert in e.faults then (w, AttemptNotRecorded)
        else (AfterVerification(AfterCall(w, e), e, CountedAttempts(w, e) + 1),
              if e.capturedAfter then VerifiedCaptured else VerifiedFailed)
  }

  /** Whether a call gets past all the checks and records an attempt. */
  predicate Charges(w: World, e: Env) {
    Execute(w, e).1 in {VerifiedCaptured, VerifiedFailed}
  }

  /** A worker that dies between recording its attempt and calling the provider. */
  function Interrupted(w: World, e: Env): World {
    if Charges(w, e) then
      w.(attempts := w.attempts + [Attempt(Chosen(w), PendingAttempt, CountedAttempts(w, e) + 1)])
    else w
  }

  datatype CutPoint = AfterProvider | AfterAttempt | AfterNotice | AfterStatus

  /** What a worker leaves that dies at a later point behind the checks. */
  function CutShort(w: World, e: Env, p: CutPoint): World {
    var asked := AfterCall(w, e.(hasEmail := false, faults := e.faults + {AttemptUpdate}));
    var updated := AfterCall(w, e.(hasEmail := false));
    match p
    case AfterProvider => asked
    case AfterAttempt => updated
    case AfterNotice => AfterCall(w, e)
    case AfterStatus =>
      AfterVerification(AfterCall(w, e), e.(faults := e.faults + {OutcomeInsert}), CountedAttempts(w, e) + 1)
  }

  const LAST_WRITES := {StatusWrite, RecoveryWrite, OutcomeInsert}

  lemma OnlyWritesFail(w: World, e: Env, e': Env)
    requires Charges(w, e) && e' == e.(hasEmail := e'.hasEmail, faults := e'.faults)
    requires e.faults <= e'.faults <= e.faults + LAST_WRITES + {AttemptUpdate}
    ensures Execute(w, e').0 == AfterVerification(AfterCall(w, e'), e', CountedAttempts(w, e) + 1)
  {
    assert PolicyRequest(w, e') == PolicyRequest(w, e);
  }

  lemma NothingWritten(w: World, e: Env, number: int)
    requires w.attempts != [] && LAST_WRITES <= e.faults
    ensures AfterVerification(w, e, number) == w
  {
  }

  lemma CallIgnoresLastWrites(w: World, e: Env)
    ensures AfterCall(w, e.(faults := e.faults + LAST_WRITES)) == AfterCall(w, e)
  {
  }

  /** A worker that does not come to the last writes leaves what failing ones leave. */
  lemma SilentEnd(w: World, e: Env, cut: Env)
    requires Charges(w, e) && cut == e.(hasEmail := cut.hasEmail, faults := cut.faults)
    requires e.faults <= cut.faults <= e.faults + {AttemptUpdate}
    ensures Execute(w, cut.(faults := cut.faults + LAST_WRITES)).0 == AfterCall(w, cut)
  {
    var e' := cut.(faults := cut.faults + LAST_WRITES);
    OnlyWritesFail(w, e, e');
    CallIgnoresLastWrites(w, cut);
    NothingWritten(AfterCall(w, e'), e', CountedAttempts(w, e) + 1);
  }

  /** Dying after the provider was called is no different from a call whose remaining
      statements all fail, so runs with failing statements cover it. */
  lemma LaterDeathIsFailure(w: World, e: Env, p: CutPoint) returns (e': Env)
    requires Charges(w, e)
    ensures Execute(w, e').0 == CutShort(w, e, p)
    ensures e.faults <= e'.faults <= e.faults + LAST_WRITES + {AttemptUpdate}
  {
    if p == AfterStatus {
      e' := e.(faults := e.faults + {OutcomeInsert});
      OnlyWritesFail(w, e, e');
      assert AfterCall(w, e') == AfterCall(w, e);
    } else {
      var cut := match p
        case AfterProvider => e.(hasEmail := false, faults := e.faults + {AttemptUpdate})
        case AfterAttempt => e.(hasEmail := false)
        case _ => e;
      e' := cut.(faults := cut.faults + LAST_WRITES);
      SilentEnd(w, e, cut);
    }
  }

  /** MODIFY cannot come out of the executor's request: its attempt number is zero. */
  lemma NeverModified(w: World, e: Env)
    ensures !Evaluate(PolicyRequest(w, e)).Modify?
  {
  }

  // ----- the pipeline -----

  /** What `AnalyzePayment` writes: the fraud score when the risk service answered, the
      stored confidence unless that insert failed, and the selected action. */
  datatype Analysis = Analysis(
    fraud: Option<real>, predictionStored: bool, confidence: Option<real>, action: ActionType, updateStored: bool)

  function Analyze(w: World, a: Analysis): World {
    var w1 := if a.fraud.Some? then w.(fraud := a.fraud.value) else w;
    if !a.predictionStored then w1
    else
      var w2 := if a.confidence.Some? then w1.(confidences := w1.confidences + [a.confidence.value]) else w1;
      if !a.updateStored then w2
      else w2.(selected := Some(a.action), status := if w2.status == Analyzing then Scheduled else w2.status)
  }

  // ----- the code -----

  /** The rows of `World` as the tables hold them, updated statement by statement. */
  class RecoveryStore {
    var status: WorkflowState
    var payment: PaymentStatus
    var selected: Option<ActionType>
    var fraud: real
    var confidences: seq<real>
    var attempts: seq<Attempt>
    var outcomes: seq<Outcome>
    var calls: seq<ProviderCall>
    var notices: seq<Notice>

    /** A payment's workflow as it is first created. */
    constructor (payment: PaymentStatus, status: WorkflowState, selected: Option<ActionType>)
      ensures Contents() == World(status, payment, selected, 0.0, [], [], [], [], [])
    {
      this.status, this.payment, this.selected := status, payment, selected;
      fraud, confidences, attempts, outcomes, calls, notices := 0.0, [], [], [], [], [];
    }

    function Contents(): World
      reads this
    {
      World(status, payment, selected, fraud, confidences, attempts, outcomes, calls, notices)
    }

    method SetStatus(e: Env, s: WorkflowState)
      modifies this`status
      ensures Contents() == WithStatus(old(Contents()), e, s)
    {
      if StatusWrite !in e.faults { status := s; }
    }

    method RecordRecovery(e: Env, attempt: Option<nat>)
      modifies this`status, this`payment, this`outcomes
      ensures Contents() == WithRecovery(old(Contents()), e, attempt)
    {
      if RecoveryWrite !in e.faults {
        payment := PaymentCaptured;
        status := Recovered;
        outcomes := outcomes + [Outcome(attempt, true, e.amount)];
      }
    }

    method ExecuteWorkflow(e: Env) returns (verdict: Verdict)
      modifies this
      ensures (Contents(), verdict) == Execute(old(Contents()), e)
    {
      if !e.found { return NotFound; }
      if status == Recovered || status == Halted || status == Failed { return AlreadyResolved; }
      if e.capturedBefore {
        RecordRecovery(e, None);
        return AlreadyCaptured;
      }
      var action := if selected.Some? then selected.value else DelayedRetry;
      if e.optOut && IsContact(action) {
        SetStatus(e, Halted);
        return BlockedOptOut;
      }
      var previous := if CountRead in e.faults then 0 else |attempts|;
      if previous >= e.policy.maxRetries {
        SetStatus(e, Failed);
        return BlockedMaxRetries;
      }
      var decision := Evaluate(PolicyRequest(Contents(), e));
      if decision.Block? {
        SetStatus(e, Halted);
        return BlockedPolicy(decision.reason);
      }
      if decision.Escalate? {
        SetStatus(e, Escalated);
        return EscalatedPolicy(decision.reason);
      }
      if AttemptInsert in e.faults { return AttemptNotRecorded; }
      action := ActionAfter(decision, action);
      verdict := AttemptRecovery(e, action, previous);
    }

    /** The part behind all five checks: record the attempt, ask the provider to retry,
        notify the customer, verify, and write the outcome. */
    method AttemptRecovery(e: Env, action: ActionType, previous: nat) returns (verdict: Verdict)
      requires action == Chosen(Contents()) && previous == CountedAttempts(Contents(), e)
      modifies this
      ensures Contents() == AfterVerification(AfterCall(old(Contents()), e), e, previous + 1)
      ensures verdict == if e.capturedAfter then VerifiedCaptured else VerifiedFailed
    {
      var number := previous + 1;
      var id := |attempts|;
      attempts := attempts + [Attempt(action, PendingAttempt, number)];
      calls := calls + [ProviderCall(action, e.amount, e.evalPolicy, StoredConfidence(Contents()), fraud, e.optOut)];
      if AttemptUpdate !in e.faults {
        attempts := attempts[id := attempts[id].(status := if e.retryFailed then FailedAttempt else ExecutedAttempt)];
      }
      if action != NoAction && !e.optOut && e.hasEmail {
        notices := notices + [Notice(action, e.optOut)];
      }
      assert Contents() == AfterCall(old(Contents()), e);
      if e.capturedAfter {
        RecordRecovery(e, Some(id));
        return VerifiedCaptured;
      }
      SetStatus(e, if number >= e.policy.maxRetries then Failed else Scheduled);
      if OutcomeInsert !in e.faults {
        outcomes := outcomes + [Outcome(Some(id), false, 0.0)];
      }
      return VerifiedFailed;
    }

    /** The pipeline's writes, once it knows what to write. */
    method StoreAnalysis(a: Analysis)
      modifies this
      ensures Contents() == Analyze(old(Contents()), a)
    {
      if a.fraud.Some? { fraud := a.fraud.value; }
      if !a.predictionStored { return; }
      if a.confidence.Some? { confidences := confidences + [a.confidence.value]; }
      if a.updateStored {
        selected := Some(a.action);
        if status == Analyzing { status := Scheduled; }
      }
    }
  }
}
