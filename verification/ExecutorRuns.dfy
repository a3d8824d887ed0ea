/** What sequential runs of the executor and the pipeline keep, over any number of
    calls, any provider answers and, where it is not said otherwise, any failing
    statements. */
module ExecutorRuns {
  import opened Prelude
  import opened WorkflowStates
  import opened PolicyEngine
  import opened Executor

  /** `Died`: the worker died right after recording its attempt. */
  datatype Step = Execution(env: Env) | Died(env: Env) | Analysed(analysis: Analysis)

  function Advance(w: World, s: Step): World {
    match s
    case Execution(e) => Execute(w, e).0
    case Died(e) => Interrupted(w, e)
    case Analysed(a) => Analyze(w, a)
  }

  function Play(w: World, steps: seq<Step>): World {
    if steps == [] then w else Advance(Play(w, steps[..|steps| - 1]), steps[|steps| - 1])
  }

  /** In none of these steps does a statement fail but the given ones. */
  ghost predicate FailOnly(steps: seq<Step>, failed: set<Fault>) {
    forall i :: 0 <= i < |steps| && !steps[i].Analysed? ==> steps[i].env.faults <= failed
  }

  /** A workflow nothing has been done for yet. */
  predicate IsFresh(w: World) {
    w.status != Recovered && w.attempts == [] && w.outcomes == [] && w.calls == [] && w.notices == []
  }

  // ----- resolved workflows -----

  /** RECOVERED, HALTED and FAILED are final: no call changes the status, charges,
      notifies or records anything any more. */
  lemma {:induction false} ResolvedForEver(w: World, steps: seq<Step>)
    requires IsResolved(w.status)
    ensures var w' := Play(w, steps);
      && w'.status == w.status && w'.payment == w.payment && w'.attempts == w.attempts
      && w'.outcomes == w.outcomes && w'.calls == w.calls && w'.notices == w.notices
  {
    if steps != [] {
      ResolvedForEver(w, steps[..|steps| - 1]);
    }
  }

  function Repeat(e: Env, n: nat): (steps: seq<Step>)
    ensures |steps| == n
  {
    seq(n, _ => Execution(e))
  }

  lemma RepeatNext(e: Env, n: nat)
    ensures Repeat(e, n + 1) == Repeat(e, n) + [Execution(e)]
    ensures Repeat(e, n + 1)[..n] == Repeat(e, n)
  {
  }

  lemma EscalatesAgain(w: World, e: Env)
    requires Execute(w, e).1.EscalatedPolicy? && StatusWrite !in e.faults
    ensures Execute(w, e).0 == w.(status := Escalated)
    ensures Execute(w.(status := Escalated), e) == Execute(w, e)
  {
  }

  /** However often an escalated workflow meets the same inputs again, it stays exactly
      as the first call left it: nothing is charged, notified or recorded. */
  lemma {:induction false} EscalationRepeats(w: World, e: Env, n: nat)
    requires Execute(w, e).1.EscalatedPolicy? && StatusWrite !in e.faults && n > 0
    ensures Play(w, Repeat(e, n)) == w.(status := Escalated)
  {
    EscalatesAgain(w, e);
    RepeatNext(e, n - 1);
    var before := Play(w, Repeat(e, n - 1));
    if n > 1 { EscalationRepeats(w, e, n - 1); }
    assert Execute(before, e) == Execute(w, e);
    assert Play(w, Repeat(e, n)) == Advance(before, Execution(e));
  }

  /** The calls that write FAILED, told from what stands before the call: the limit is
      used up, or this attempt is the last one and its verification does not succeed. */
  predicate WritesFailed(w: World, e: Env) {
    && e.found && !IsResolved(w.status) && !e.capturedBefore && StatusWrite !in e.faults
    && (e.optOut ==> !IsContact(Chosen(w)))
    && (CountedAttempts(w, e) >= e.policy.maxRetries
        || (MayCharge(w, e) && !e.capturedAfter && CountedAttempts(w, e) + 1 >= e.policy.maxRetries))
  }

  lemma FailedIff(w: World, s: Step)
    requires w.status != Failed
    ensures Advance(w, s).status == Failed <==> s.Execution? && WritesFailed(w, s.env)
  {
    if !s.Analysed? {
      MayProceedIff(PolicyRequest(w, s.env));
    }
  }

  // what stops a call, read off what stands before it

  predicate IsLive(w: World, e: Env) {
    e.found && w.status != Recovered && w.status != Halted && w.status != Failed && !e.capturedBefore
  }

  predicate OptOutStops(w: World, e: Env) {
    e.optOut && w.selected in {Some(CustomerNotification), Some(PaymentLink)}
  }

  predicate CountStops(w: World, e: Env) {
    e.policy.maxRetries <= if CountRead in e.faults then 0 else |w.attempts|
  }

  predicate FraudStops(w: World, e: Env) {
    FraudRead !in e.faults && 0.70 <= w.fraud
  }

  predicate RepetitionStops(w: World, e: Env) {
    && DuplicateRead !in e.faults && w.selected in {Some(PaymentMethodUpdate), Some(PaymentLink)}
    && exists i :: 0 <= i < |w.attempts| && Some(w.attempts[i].action) == w.selected
                   && w.attempts[i].status == ExecutedAttempt
  }

  predicate ConfidenceStops(w: World, e: Env) {
    (if ConfidenceRead in e.faults || w.confidences == [] then 0.85 else w.confidences[|w.confidences| - 1])
    < e.evalPolicy.confidenceThreshold
  }

  predicate AmountStops(e: Env) {
    e.evalPolicy.amountThreshold < e.amount
  }

  lemma {:induction false} ExecutedBefore(attempts: seq<Attempt>, a: ActionType)
    ensures Executions(attempts, a) > 0 <==>
      exists i :: 0 <= i < |attempts| && attempts[i].action == a && attempts[i].status == ExecutedAttempt
  {
    if attempts != [] {
      var n := |attempts| - 1;
      ExecutedBefore(attempts[..n], a);
      if exists i :: 0 <= i < |attempts| && attempts[i].action == a && attempts[i].status == ExecutedAttempt {
        var i :| 0 <= i < |attempts| && attempts[i].action == a && attempts[i].status == ExecutedAttempt;
        assert i < n ==> attempts[..n][i] == attempts[i];
      }
    }
  }

  lemma RepetitionIff(w: World, e: Env)
    ensures RepetitionStops(w, e) <==>
      DuplicateRead !in e.faults && IsOnceOnly(Chosen(w)) && Executions(w.attempts, Chosen(w)) > 0
  {
    ExecutedBefore(w.attempts, Chosen(w));
    if RepetitionStops(w, e) {
      var i :| 0 <= i < |w.attempts| && Some(w.attempts[i].action) == w.selected
               && w.attempts[i].status == ExecutedAttempt;
      assert w.attempts[i].action == Chosen(w);
    }
  }

  /** The verdict of every call, by the first of its stops; without one it charges. */
  lemma VerdictOf(w: World, e: Env)
    ensures var verdict := Execute(w, e).1;
      && (verdict == BlockedOptOut <==> IsLive(w, e) && OptOutStops(w, e))
      && (verdict == BlockedMaxRetries <==> IsLive(w, e) && !OptOutStops(w, e) && CountStops(w, e))
      && var atPolicy := IsLive(w, e) && !OptOutStops(w, e) && !CountStops(w, e);
         var passed := atPolicy && !FraudStops(w, e) && 0 < e.evalPolicy.maxRetries && !RepetitionStops(w, e);
      && (verdict == EscalatedPolicy(FraudRisk) <==> atPolicy && FraudStops(w, e))
      && (verdict == BlockedPolicy(RetryLimit) <==> atPolicy && !FraudStops(w, e) && e.evalPolicy.maxRetries <= 0)
      && (verdict == BlockedPolicy(DuplicateAction) <==>
            atPolicy && !FraudStops(w, e) && 0 < e.evalPolicy.maxRetries && RepetitionStops(w, e))
      && (verdict == EscalatedPolicy(LowConfidence) <==> passed && ConfidenceStops(w, e))
      && (verdict == EscalatedPolicy(HighValue) <==> passed && !ConfidenceStops(w, e) && AmountStops(e))
      && (verdict in {AttemptNotRecorded, VerifiedCaptured, VerifiedFailed} <==>
            passed && !ConfidenceStops(w, e) && !AmountStops(e))
      && (verdict.BlockedPolicy? ==> verdict.reason in {RetryLimit, DuplicateAction})
      && (verdict.EscalatedPolicy? ==> verdict.reason in {FraudRisk, LowConfidence, HighValue})
  {
    RepetitionIff(w, e);
    VerdictIff(PolicyRequest(w, e));
  }

  /** Exactly when a step writes ESCALATED, and so hands the workflow to a human. */
  lemma EscalatedIff(w: World, s: Step)
    requires w.status != Escalated
    ensures Advance(w, s).status == Escalated <==>
      && s.Execution? && StatusWrite !in s.env.faults
      && IsLive(w, s.env) && !OptOutStops(w, s.env) && !CountStops(w, s.env)
      && (FraudStops(w, s.env)
          || (0 < s.env.evalPolicy.maxRetries && !RepetitionStops(w, s.env)
              && (ConfidenceStops(w, s.env) || AmountStops(s.env))))
  {
    if s.Execution? { VerdictOf(w, s.env); }
  }

  /** Exactly when a step writes HALTED, which is final. */
  lemma HaltedIff(w: World, s: Step)
    requires w.status != Halted
    ensures Advance(w, s).status == Halted <==>
      && s.Execution? && StatusWrite !in s.env.faults && IsLive(w, s.env)
      && (OptOutStops(w, s.env)
          || (!CountStops(w, s.env) && !FraudStops(w, s.env)
              && (s.env.evalPolicy.maxRetries <= 0 || RepetitionStops(w, s.env))))
  {
    if s.Execution? { VerdictOf(w, s.env); }
  }

  /** A status write is a path of allowed transitions unless it writes FAILED, to which
      the transition table leads from no state. */
  lemma StatusWritesArePaths(w: World, s: Step)
    requires Advance(w, s).status != w.status
    ensures Reaches(w.status, Advance(w, s).status) <==> !(s.Execution? && WritesFailed(w, s.env))
  {
    ReachesIff(w.status, Advance(w, s).status);
    if w.status != Failed { FailedIff(w, s); }
  }

  // ----- no false recovery -----

  function RecoveredOutcomes(outcomes: seq<Outcome>): nat {
    if outcomes == [] then 0
    else RecoveredOutcomes(outcomes[..|outcomes| - 1]) + if outcomes[|outcomes| - 1].recovered then 1 else 0
  }

  function RecoveredAmount(outcomes: seq<Outcome>): real {
    if outcomes == [] then 0.0
    else
      var last := outcomes[|outcomes| - 1];
      RecoveredAmount(outcomes[..|outcomes| - 1]) + if last.recovered then last.amount else 0.0
  }

  lemma OutcomeAdded(outcomes: seq<Outcome>, o: Outcome)
    ensures RecoveredOutcomes(outcomes + [o]) == RecoveredOutcomes(outcomes) + if o.recovered then 1 else 0
    ensures RecoveredAmount(outcomes + [o]) == RecoveredAmount(outcomes) + if o.recovered then o.amount else 0.0
  {
    assert (outcomes + [o])[..|outcomes|] == outcomes;
  }

  /** The call at index `i` was told by the provider that the payment is captured. */
  predicate ConfirmedAt(steps: seq<Step>, i: nat) {
    i < |steps| && steps[i].Execution? && (steps[i].env.capturedBefore || steps[i].env.capturedAfter)
  }

  /** A call adds at most one outcome, a recovered one exactly when it makes the workflow
      RECOVERED. */
  lemma OutcomeOf(w: World, e: Env) returns (o: Outcome)
    ensures var w' := Execute(w, e).0;
      if w'.outcomes == w.outcomes then w'.payment == w.payment && (w'.status == Recovered <==> w.status == Recovered)
      else
        && w.status != Recovered && w'.outcomes == w.outcomes + [o] && o.recovered == (w'.status == Recovered)
        && if o.recovered
           then (e.capturedBefore || e.capturedAfter) && w'.payment == PaymentCaptured && o.amount == e.amount
           else w'.payment == w.payment
  {
    var w' := Execute(w, e).0;
    o := if w'.outcomes == w.outcomes then Outcome(None, false, 0.0) else w'.outcomes[|w.outcomes|];
  }

  /** One step adds a recovered outcome exactly when it makes the workflow RECOVERED. */
  lemma RecoveryStep(w: World, s: Step)
    ensures var w' := Advance(w, s);
      && (w.status == Recovered ==> w'.status == Recovered)
      && if w'.status == Recovered && w.status != Recovered
         then s.Execution? && (s.env.capturedBefore || s.env.capturedAfter) && w'.payment == PaymentCaptured
              && RecoveredOutcomes(w'.outcomes) == RecoveredOutcomes(w.outcomes) + 1
              && RecoveredAmount(w'.outcomes) == RecoveredAmount(w.outcomes) + s.env.amount
         else w'.payment == w.payment
              && RecoveredOutcomes(w'.outcomes) == RecoveredOutcomes(w.outcomes)
              && RecoveredAmount(w'.outcomes) == RecoveredAmount(w.outcomes)
  {
    var w' := Advance(w, s);
    if s.Execution? {
      var o := OutcomeOf(w, s.env);
      OutcomeAdded(w.outcomes, o);
    } else {
      assert w'.outcomes == w.outcomes && w'.payment == w.payment;
      assert w'.status == Recovered <==> w.status == Recovered;
    }
  }

  /** Over any run, a workflow is RECOVERED exactly when one recovered outcome exists;
      there is never a second. Then the payment is CAPTURED, some call had the
      provider's confirmation, and its amount is all that counts as recovered. */
  lemma {:induction false} NoFalseRecovery(w: World, steps: seq<Step>) returns (confirmed: nat)
    requires IsFresh(w)
    ensures var w' := Play(w, steps);
      && RecoveredOutcomes(w'.outcomes) == (if w'.status == Recovered then 1 else 0)
      && (w'.status == Recovered ==>
            && w'.payment == PaymentCaptured
            && ConfirmedAt(steps, confirmed)
            && RecoveredAmount(w'.outcomes) == steps[confirmed].env.amount)
      && (w'.status != Recovered ==> w'.payment == w.payment && RecoveredAmount(w'.outcomes) == 0.0)
  {
    confirmed := 0;
    if steps != [] {
      var n := |steps| - 1;
      confirmed := NoFalseRecovery(w, steps[..n]);
      RecoveryStep(Play(w, steps[..n]), steps[n]);
      if Play(w, steps[..n]).status != Recovered { confirmed := n; }
    }
  }

  // ----- every provider call was permitted -----

  /** All the checks passed, each read off what stands before the call; a failed read
      skips its own check and no other. */
  predicate MayCharge(w: World, e: Env) {
    && e.found && !IsResolved(w.status) && !e.capturedBefore
    && (e.optOut ==> !IsContact(Chosen(w)))
    && CountedAttempts(w, e) < e.policy.maxRetries && 0 < e.evalPolicy.maxRetries
    && (FraudRead !in e.faults ==> w.fraud < FRAUD_LIMIT)
    && (DuplicateRead !in e.faults && IsOnceOnly(Chosen(w)) ==> Executions(w.attempts, Chosen(w)) == 0)
    && e.evalPolicy.confidenceThreshold <=
         (if ConfidenceRead in e.faults then DEFAULT_CONFIDENCE else StoredConfidence(w))
    && e.amount <= e.evalPolicy.amountThreshold
    && AttemptInsert !in e.faults
  }

  /** Exactly when a call asks the provider to charge again, whatever statements fail. */
  lemma ChargesIff(w: World, e: Env)
    ensures Execute(w, e).0.calls != w.calls <==> MayCharge(w, e)
    ensures Charges(w, e) <==> MayCharge(w, e)
  {
    MayProceedIff(PolicyRequest(w, e));
  }

  /** What a charge leaves in the tables, column by column: the attempt carries the selected
      action and what the provider answered, unless that update is lost; the outcome
      names the attempt, and the recovered amount or none. */
  lemma ChargeRecords(w: World, e: Env)
    requires MayCharge(w, e)
    ensures var w' := Execute(w, e).0;
      && |w'.attempts| == |w.attempts| + 1 && |w'.calls| == |w.calls| + 1
      && var attempt, call := w'.attempts[|w.attempts|], w'.calls[|w.calls|];
      && attempt.action == call.action == (if w.selected.Some? then w.selected.value else DelayedRetry)
      && attempt.number == (if CountRead in e.faults then 1 else |w.attempts| + 1)
      && (AttemptUpdate in e.faults <==> attempt.status == PendingAttempt)
      && (AttemptUpdate !in e.faults ==> (e.retryFailed <==> attempt.status == FailedAttempt))
      && call.amount == e.amount && call.policy == e.evalPolicy && call.fraud == w.fraud && call.optOut == e.optOut
      && (e.capturedAfter && RecoveryWrite !in e.faults ==>
            w'.outcomes == w.outcomes + [Outcome(Some(|w.attempts|), true, e.amount)])
      && (!e.capturedAfter && OutcomeInsert !in e.faults ==>
            w'.outcomes == w.outcomes + [Outcome(Some(|w.attempts|), false, 0.0)])
  {
    ChargesIff(w, e);
  }

  /** A payment found captured before any attempt is recovered without one. */
  lemma ReconciliationRecords(w: World, e: Env)
    requires IsLive(w, e.(capturedBefore := false)) && e.capturedBefore && RecoveryWrite !in e.faults
    ensures var w' := Execute(w, e).0;
      && w'.status == Recovered && w'.payment == PaymentCaptured
      && w'.outcomes == w.outcomes + [Outcome(None, true, e.amount)]
      && w'.attempts == w.attempts && w'.calls == w.calls && w'.notices == w.notices
  {
  }

  /** What an analysis shows the next call: the new score, and, when its prediction was
      stored, the new confidence; a workflow leaves ANALYZING with its action and not
      otherwise. */
  lemma AnalysisShows(w: World, a: Analysis)
    ensures var w' := Advance(w, Analysed(a));
      && w'.fraud == (if a.fraud.Some? then a.fraud.value else w.fraud)
      && w'.confidences == (if a.predictionStored && a.confidence.Some? then w.confidences + [a.confidence.value]
                            else w.confidences)
      && (a.predictionStored && a.updateStored ==>
            w'.selected == Some(a.action) && w'.status == (if w.status == Analyzing then Scheduled else w.status))
      && (!(a.predictionStored && a.updateStored) ==> w'.selected == w.selected && w'.status == w.status)
      && w'.attempts == w.attempts && w'.outcomes == w.outcomes && w'.calls == w.calls && w'.notices == w.notices
      && w'.payment == w.payment
  {
  }

  /** A fraud score of 0.70 or more from an analysis sends the next call to a human, at
      whatever confidence and amount. */
  lemma FraudScoreEscalates(w: World, a: Analysis, e: Env)
    requires a.fraud.Some? && 0.70 <= a.fraud.value && FraudRead !in e.faults
    requires var w' := Advance(w, Analysed(a)); IsLive(w', e) && !OptOutStops(w', e) && !CountStops(w', e)
    ensures Execute(Advance(w, Analysed(a)), e).1 == EscalatedPolicy(FraudRisk)
  {
    AnalysisShows(w, a);
    VerdictOf(Advance(w, Analysed(a)), e);
  }

  /** Exactly when a step notifies the customer: it charges for an action other than
      NO_ACTION, and the customer has an address and has not opted out. */
  lemma NotifiesIff(w: World, s: Step)
    ensures Advance(w, s).notices != w.notices <==>
      s.Execution? && MayCharge(w, s.env) && Chosen(w) != NoAction && !s.env.optOut && s.env.hasEmail
  {
    if !s.Analysed? { ChargesIff(w, s.env); }
  }

  /** Within the limits, as far as the reads behind them have not failed; the amount and
      the opt-out are checked whatever fails. */
  predicate Permitted(c: ProviderCall, failed: set<Fault>) {
    && (FraudRead !in failed ==> c.fraud < FRAUD_LIMIT)
    && (ConfidenceRead !in failed ==> c.policy.confidenceThreshold <= c.confidence)
    && c.amount <= c.policy.amountThreshold
    && (c.optOut ==> !IsContact(c.action))
  }

  lemma AttemptAdded(attempts: seq<Attempt>, x: Attempt, a: ActionType)
    ensures Executions(attempts + [x], a) ==
      Executions(attempts, a) + if x.action == a && x.status == ExecutedAttempt then 1 else 0
  {
    assert (attempts + [x])[..|attempts|] == attempts;
  }

  ghost predicate HistoryInv(w: World, failed: set<Fault>) {
    && (forall c :: c in w.calls ==> Permitted(c, failed))
    && |w.calls| <= |w.attempts|
    && (CountRead !in failed ==> forall i :: 0 <= i < |w.attempts| ==> w.attempts[i].number == i + 1)
    && (DuplicateRead !in failed ==> forall a :: IsOnceOnly(a) ==> Executions(w.attempts, a) <= 1)
  }

  /** A call that charges records one attempt and one permitted provider call. */
  lemma ChargeEffect(w: World, e: Env) returns (attempt: Attempt, call: ProviderCall)
    requires Execute(w, e).0.calls != w.calls
    ensures Execute(w, e).0.attempts == w.attempts + [attempt] && attempt.number == CountedAttempts(w, e) + 1
    ensures Execute(w, e).0.calls == w.calls + [call] && Permitted(call, e.faults)
    ensures DuplicateRead !in e.faults && IsOnceOnly(attempt.action) ==> Executions(w.attempts, attempt.action) == 0
  {
    ChargesIff(w, e);
    attempt := AfterCall(w, e).attempts[|w.attempts|];
    call := AfterCall(w, e).calls[|w.calls|];
  }

  lemma OneMoreAttempt(attempts: seq<Attempt>, x: Attempt)
    requires forall a :: IsOnceOnly(a) ==> Executions(attempts, a) <= 1
    requires x.status == ExecutedAttempt && IsOnceOnly(x.action) ==> Executions(attempts, x.action) == 0
    ensures forall a :: IsOnceOnly(a) ==> Executions(attempts + [x], a) <= 1
  {
    forall a | IsOnceOnly(a) ensures Executions(attempts + [x], a) <= 1 {
      AttemptAdded(attempts, x, a);
    }
  }

  lemma HistoryStep(w: World, s: Step, failed: set<Fault>)
    requires HistoryInv(w, failed) && FailOnly([s], failed)
    ensures HistoryInv(Advance(w, s), failed)
    ensures !s.Died? ==>
      |Advance(w, s).attempts| - |Advance(w, s).calls| == |w.attempts| - |w.calls|
  {
    assert !s.Analysed? ==> [s][0].env.faults <= failed;
    if s.Died? {
      if DuplicateRead !in failed {
        OneMoreAttempt(w.attempts, Attempt(Chosen(w), PendingAttempt, CountedAttempts(w, s.env) + 1));
      }
    } else if Advance(w, s).calls != w.calls {
      var attempt, call := ChargeEffect(w, s.env);
      if DuplicateRead !in failed { OneMoreAttempt(w.attempts, attempt); }
    } else {
      assert Advance(w, s).attempts == w.attempts;
    }
  }

  function Deaths(steps: seq<Step>): nat {
    if steps == [] then 0
    else Deaths(steps[..|steps| - 1]) + if steps[|steps| - 1].Died? then 1 else 0
  }

  /** Over any run, with workers that die in between and statements that fail: every
      provider call respected the amount threshold and the customer's opt-out, and the
      fraud limit and confidence threshold unless their reads are among those that fail;
      each attempt makes at most one call, exactly one unless its worker died before it;
      attempts are numbered 1, 2, 3, ... unless the count fails, and a payment link or
      method update is executed at most once unless the duplicate check fails. */
  lemma {:induction false} GatedHistory(w: World, steps: seq<Step>, failed: set<Fault>)
    requires IsFresh(w) && FailOnly(steps, failed)
    ensures HistoryInv(Play(w, steps), failed)
    ensures |Play(w, steps).attempts| - |Play(w, steps).calls| <= Deaths(steps)
  {
    if steps != [] {
      var n := |steps| - 1;
      GatedHistory(w, steps[..n], failed);
      HistoryStep(Play(w, steps[..n]), steps[n], failed);
    }
  }

  /** A customer who has opted out at every call is never notified, whatever fails. */
  lemma {:induction false} OptOutIsSilent(w: World, steps: seq<Step>)
    requires forall i :: 0 <= i < |steps| && steps[i].Execution? ==> steps[i].env.optOut
    ensures Play(w, steps).notices == w.notices
  {
    if steps != [] {
      var n := |steps| - 1;
      OptOutIsSilent(w, steps[..n]);
      NotifiesIff(Play(w, steps[..n]), steps[n]);
    }
  }

  lemma AttemptsStep(w: World, s: Step)
    ensures w.attempts <= Advance(w, s).attempts
    ensures |Advance(w, s).attempts| > |w.attempts| ==>
      && !s.Analysed? && |Advance(w, s).attempts| == |w.attempts| + 1
      && CountedAttempts(w, s.env) < s.env.policy.maxRetries
  {
  }

  /** The retry limit over any run in which it is constant and the count can be read;
      attempts that were there before stay. */
  lemma {:induction false} RetriesBounded(w: World, steps: seq<Step>, limit: nat)
    requires forall i :: 0 <= i < |steps| && !steps[i].Analysed? ==>
      CountRead !in steps[i].env.faults && steps[i].env.policy.maxRetries == limit
    ensures w.attempts <= Play(w, steps).attempts
    ensures |Play(w, steps).attempts| <= if |w.attempts| > limit then |w.attempts| else limit
  {
    if steps != [] {
      var n := |steps| - 1;
      RetriesBounded(w, steps[..n], limit);
      AttemptsStep(Play(w, steps[..n]), steps[n]);
    }
  }

  // ----- termination -----

  predicate IsSettled(s: WorkflowState) {
    IsResolved(s) || s == Escalated
  }

  /** The statements whose failure can keep a workflow from being settled; failures of
      the other six kinds cannot. */
  const BLOCKING := {CountRead, StatusWrite, RecoveryWrite, AttemptInsert}

  /** A call without a blocking failure settles the workflow or uses up one attempt
      below the limit. */
  lemma CallMakesProgress(w: World, e: Env)
    requires e.found && e.faults !! BLOCKING
    ensures var w' := Execute(w, e).0;
      IsSettled(w'.status)
      || (w'.status == Scheduled && |w'.attempts| == |w.attempts| + 1 && |w'.attempts| < e.policy.maxRetries)
  {
  }

  /** Deaths and analyses of any kind, and calls on an existing workflow under one limit,
      failing in none but the allowed ways. */
  ghost predicate AreSteps(steps: seq<Step>, limit: int, allowed: set<Fault>) {
    forall i :: 0 <= i < |steps| && steps[i].Execution? ==>
      steps[i].env.found && steps[i].env.faults <= allowed && steps[i].env.policy.maxRetries == limit
  }

  /** The calls among the steps. */
  function Calls(steps: seq<Step>): nat {
    if steps == [] then 0
    else Calls(steps[..|steps| - 1]) + if steps[|steps| - 1].Execution? then 1 else 0
  }

  function Bound(w: World, limit: int): nat {
    if limit - |w.attempts| > 1 then limit - |w.attempts| else 1
  }

  ghost predicate SettlesWithin(w: World, steps: seq<Step>, bound: nat) {
    exists n :: 0 <= n <= |steps| && Calls(steps[..n]) <= bound && IsSettled(Play(w, steps[..n]).status)
  }

  lemma {:induction false} UnsettledUsesAttempts(w: World, steps: seq<Step>, limit: int, allowed: set<Fault>)
    requires AreSteps(steps, limit, allowed) && allowed !! BLOCKING
    requires forall n :: 0 <= n <= |steps| ==> !IsSettled(Play(w, steps[..n]).status)
    ensures |w.attempts| + Calls(steps) <= |Play(w, steps).attempts|
    ensures Calls(steps) > 0 ==> |w.attempts| + Calls(steps) < limit
  {
    if steps != [] {
      var m := |steps| - 1;
      var before, s := Play(w, steps[..m]), steps[m];
      forall n | 0 <= n <= m ensures !IsSettled(Play(w, steps[..m][..n]).status) {
        assert steps[..m][..n] == steps[..n];
      }
      UnsettledUsesAttempts(w, steps[..m], limit, allowed);
      assert steps[..|steps|] == steps;
      AttemptsStep(before, s);
      if s.Execution? { CallMakesProgress(before, s.env); }
    }
  }

  /** The shortest beginning of the steps with so many calls. */
  lemma {:induction false} FirstCalls(steps: seq<Step>, k: nat) returns (n: nat)
    requires k <= Calls(steps)
    ensures n <= |steps| && Calls(steps[..n]) == k
    ensures forall m :: 0 <= m <= n ==> Calls(steps[..m]) <= k
  {
    if k == Calls(steps) {
      n := |steps|;
      assert steps[..n] == steps;
      forall m | 0 <= m <= n ensures Calls(steps[..m]) <= k { CallsGrow(steps, m); }
    } else {
      var last := |steps| - 1;
      n := FirstCalls(steps[..last], k);
      assert steps[..last][..n] == steps[..n];
      forall m | 0 <= m <= n ensures Calls(steps[..m]) <= k { assert steps[..last][..m] == steps[..m]; }
    }
  }

  lemma {:induction false} CallsGrow(steps: seq<Step>, m: nat)
    requires m <= |steps|
    ensures Calls(steps[..m]) <= Calls(steps)
  {
    if m < |steps| {
      CallsGrow(steps[..|steps| - 1], m);
      assert steps[..|steps| - 1][..m] == steps[..m];
    } else {
      assert steps[..m] == steps;
    }
  }

  /** For any answers of the provider, failures of the other kinds, deaths and analyses in
      between, at most max(1, limit - attempts so far) calls bring the workflow to
      RECOVERED, HALTED, FAILED or ESCALATED. */
  lemma Terminates(w: World, steps: seq<Step>, limit: int, allowed: set<Fault>)
    requires AreSteps(steps, limit, allowed) && allowed !! BLOCKING && Calls(steps) >= Bound(w, limit)
    ensures SettlesWithin(w, steps, Bound(w, limit))
  {
    var bound := Bound(w, limit);
    var n := FirstCalls(steps, bound);
    if !SettlesWithin(w, steps, bound) {
      forall m | 0 <= m <= n ensures !IsSettled(Play(w, steps[..n][..m]).status) {
        assert steps[..n][..m] == steps[..m];
      }
      UnsettledUsesAttempts(w, steps[..n], limit, allowed);
      assert false;
    }
  }

  /** An unsettled workflow and a call that fails in one blocking way: the provider has
      captured but the recovery cannot be written; an opt-out cannot be written; or a
      failing retry is not counted or not recorded. */
  predicate IsStuckPair(w: World, e: Env, f: Fault) {
    && f in BLOCKING && e.faults == {f} && e.found
    && e.policy == e.evalPolicy == Policy(2, 2, 0.0, 1.0) && e.amount == 1.0 && !e.capturedAfter
    && e.capturedBefore == (f == RecoveryWrite) && e.optOut == (f == StatusWrite)
    && w.status == Scheduled && w.fraud == 0.0 && w.confidences == []
    && (f == AttemptInsert ==> w.attempts == [])
    && w.selected == if f == StatusWrite then Some(PaymentLink) else None
  }

  lemma StuckPairStays(w: World, e: Env, f: Fault)
    requires IsStuckPair(w, e, f)
    ensures IsStuckPair(Execute(w, e).0, e, f)
  {
    match f {
      case RecoveryWrite =>
      case StatusWrite =>
      case AttemptInsert => ChargesIff(w, e);
      case CountRead =>
        assert Chosen(w) == DelayedRetry && CountedAttempts(w, e) == 0;
        assert AfterCall(w, e).status == Scheduled;
    }
  }

  lemma {:induction false} StaysStuck(w: World, e: Env, f: Fault, n: nat)
    requires IsStuckPair(w, e, f)
    ensures IsStuckPair(Play(w, Repeat(e, n)), e, f)
  {
    if n > 0 {
      StaysStuck(w, e, f, n - 1);
      RepeatNext(e, n - 1);
      StuckPairStays(Play(w, Repeat(e, n - 1)), e, f);
    }
  }

  /** Each blocking failure, repeated, keeps some workflow unsettled for ever. */
  lemma StuckWith(f: Fault) returns (w: World, e: Env)
    requires f in BLOCKING
    ensures IsStuckPair(w, e, f) && w.attempts == []
    ensures forall n: nat :: !IsSettled(Play(w, Repeat(e, n)).status)
  {
    var policy := Policy(2, 2, 0.0, 1.0);
    w := World(Scheduled, PaymentFailed, if f == StatusWrite then Some(PaymentLink) else None, 0.0, [], [], [], [], []);
    e := Env(true, 1.0, f == StatusWrite, false, policy, policy, f == RecoveryWrite, true, false, {f});
    forall n: nat ensures !IsSettled(Play(w, Repeat(e, n)).status) {
      StaysStuck(w, e, f, n);
    }
  }

  lemma {:induction false} RepeatCalls(e: Env, n: nat)
    ensures Calls(Repeat(e, n)) == n
    ensures forall m :: 0 <= m <= n ==> Repeat(e, n)[..m] == Repeat(e, m)
  {
    if n > 0 {
      RepeatCalls(e, n - 1);
      RepeatNext(e, n - 1);
    }
  }

  /** Exactly which failures the bound survives: every workflow is settled within it under
      the allowed failures, whoever dies and analyses in between, if and only if none of
      them is a blocking one. */
  lemma TerminatesIff(allowed: set<Fault>)
    ensures (forall w, steps, limit ::
               AreSteps(steps, limit, allowed) && Calls(steps) >= Bound(w, limit)
               ==> SettlesWithin(w, steps, Bound(w, limit)))
      <==> allowed !! BLOCKING
  {
    if allowed !! BLOCKING {
      forall w, steps, limit | AreSteps(steps, limit, allowed) && Calls(steps) >= Bound(w, limit)
        ensures SettlesWithin(w, steps, Bound(w, limit))
      {
        Terminates(w, steps, limit, allowed);
      }
    } else {
      var f :| f in allowed && f in BLOCKING;
      var w, e := StuckWith(f);
      RepeatCalls(e, 2);
      assert AreSteps(Repeat(e, 2), 2, allowed);
      assert !SettlesWithin(w, Repeat(e, 2), Bound(w, 2));
    }
  }

  lemma FailedCallLeaves(w: World, e: Env)
    requires e.faults !! BLOCKING && Execute(w, e).1 == VerifiedFailed
    ensures var w' := Execute(w, e).0;
      && |w'.attempts| == |w.attempts| + 1
      && w'.status == (if |w'.attempts| >= e.policy.maxRetries then Failed else Scheduled)
      && w'.selected == w.selected && w'.fraud == w.fraud && w'.confidences == w.confidences
  {
  }

  /** A permitted call whose verification fails leaves everything the checks look at
      as it was, but for one more attempt. */
  lemma FailedCall(w: World, e: Env)
    requires e.faults !! BLOCKING && Execute(w, e).1 == VerifiedFailed && !IsOnceOnly(Chosen(w))
    ensures var w' := Execute(w, e).0;
      && |w'.attempts| == |w.attempts| + 1
      && w'.status == (if |w'.attempts| >= e.policy.maxRetries then Failed else Scheduled)
      && Chosen(w') == Chosen(w)
      && (|w'.attempts| < e.policy.maxRetries ==> Execute(w', e).1 == VerifiedFailed)
  {
    var w' := Execute(w, e).0;
    FailedCallLeaves(w, e);
    ChargesIff(w, e);
    ChargesIff(w', e);
    if |w'.attempts| < e.policy.maxRetries {
      assert MayCharge(w', e) && !e.capturedAfter;
    }
  }

  /** The bound is exact: a provider that keeps failing keeps a permitted retry going
      until the last attempt, which makes it FAILED. */
  lemma {:induction false} BoundIsReached(w: World, e: Env, n: nat)
    requires e.faults !! BLOCKING && Execute(w, e).1 == VerifiedFailed && !IsOnceOnly(Chosen(w))
    requires 0 < n <= e.policy.maxRetries - |w.attempts|
    ensures var w' := Play(w, Repeat(e, n));
      && |w'.attempts| == |w.attempts| + n
      && w'.status == (if n == e.policy.maxRetries - |w.attempts| then Failed else Scheduled)
      && Chosen(w') == Chosen(w)
      && (n < e.policy.maxRetries - |w.attempts| ==> Execute(w', e).1 == VerifiedFailed)
  {
    RepeatNext(e, n - 1);
    if n > 1 {
      BoundIsReached(w, e, n - 1);
    }
    FailedCall(Play(w, Repeat(e, n - 1)), e);
  }
}
