/** The local payment provider, and the executor running against it: the provider's
    attempt counter, its attempt log and the executor's own attempts agree, and the
    failure code alone decides whether a payment can be recovered. */
module LocalProvider {
  import opened Prelude
  import opened WorkflowStates
  import opened Executor
  import opened ExecutorRuns

  datatype Record = Record(status: PaymentStatus, failureCode: string, attemptsCount: nat)

  datatype LoggedAttempt = LoggedAttempt(amount: real, succeeded: bool)

  /** The provider's record of one payment, if it has one yet, and its attempt log. */
  datatype Provider = Provider(record: Option<Record>, log: seq<LoggedAttempt>)

  predicate IsHardDecline(code: string) {
    ToUpper(code) in {"EXPIRED_CARD", "INVALID_ACCOUNT", "CARD_BLOCKED", "STOLEN_CARD", "DO_NOT_HONOR"}
  }

  /** The provider's verdict on one more try: hard declines never pass, missing funds
      need a positive amount, everything else passes. */
  predicate RetrySucceeds(code: string, amount: real) {
    if IsHardDecline(code) then false
    else if ToUpper(code) == "INSUFFICIENT_FUNDS" then amount > 0.0
    else true
  }

  /** Reading a payment for the first time copies it from the application. */
  function AfterGet(p: Provider, payment: PaymentStatus, code: string): Provider {
    if p.record.Some? then p else p.(record := Some(Record(payment, code, 0)))
  }

  /** A retry on a captured record reports success without a new attempt. */
  function AfterRetry(p: Provider, amount: real): Provider
    requires p.record.Some?
  {
    var r := p.record.value;
    if r.status == PaymentCaptured then p
    else
      var passed := RetrySucceeds(r.failureCode, amount);
      Provider(Some(r.(status := if passed then PaymentCaptured else PaymentFailed,
                       attemptsCount := r.attemptsCount + 1)),
               p.log + [LoggedAttempt(amount, passed)])
  }

  /** A read whose first copy may take effect although it is answered with an error. */
  function Fetched(p: Provider, payment: PaymentStatus, code: string, fault: CommitFault): Provider {
    if fault == Rejected then p else AfterGet(p, payment, code)
  }

  /** A retry: `read` is its own read's fault, `commit` its transaction's. The answer is
      `None` for an error, which a captured or failed record may stand behind. */
  function Retry(p: Provider, payment: PaymentStatus, code: string, amount: real,
                 read: CommitFault, commit: CommitFault)
    : (Provider, Option<bool>)
  {
    var q := Fetched(p, payment, code, read);
    if read != Acked then (q, None)
    else if Captured(q) then (q, Some(true))
    else if commit == Rejected then (q, None)
    else
      var after := AfterRetry(q, amount);
      (after, if commit == AckLost then None else Some(Captured(after)))
  }

  predicate Captured(p: Provider) {
    p.record.Some? && p.record.value.status == PaymentCaptured
  }

  class LocalPaymentProvider {
    var record: Option<Record>
    var log: seq<LoggedAttempt>

    constructor ()
      ensures Contents() == Provider(None, [])
    {
      record, log := None, [];
    }

    function Contents(): Provider
      reads this
    {
      Provider(record, log)
    }

    method GetPayment(payment: PaymentStatus, code: string, fault: CommitFault) returns (captured: Option<bool>)
      modifies this`record
      ensures Contents() == Fetched(old(Contents()), payment, code, fault)
      ensures captured == if fault == Acked then Some(Captured(Contents())) else None
    {
      if fault == Rejected { return None; }
      if record == None {
        record := Some(Record(payment, code, 0));
      }
      if fault == AckLost { return None; }
      return Some(record.value.status == PaymentCaptured);
    }

    /** `None` is an error answer; otherwise whether the attempt succeeded. */
    method CreateRetryAttempt(payment: PaymentStatus, code: string, amount: real,
                              read: CommitFault, commit: CommitFault)
      returns (succeeded: Option<bool>)
      modifies this
      ensures (Contents(), succeeded) == Retry(old(Contents()), payment, code, amount, read, commit)
    {
      var captured := GetPayment(payment, code, read);
      if captured == None { return None; }
      if captured == Some(true) { return Some(true); }
      var r := record.value;
      var retrySuccess := true;
      if IsHardDecline(r.failureCode) {
        retrySuccess := false;
      } else if ToUpper(r.failureCode) == "INSUFFICIENT_FUNDS" && amount <= 0.0 {
        retrySuccess := false;
      }
      if commit == Rejected { return None; }
      record := Some(r.(status := if retrySuccess then PaymentCaptured else PaymentFailed,
                        attemptsCount := r.attemptsCount + 1));
      log := log + [LoggedAttempt(amount, retrySuccess)];
      return if commit == AckLost then None else Some(retrySuccess);
    }

    /** `None` when the query fails or the payment is unknown to the provider. */
    method VerifyPayment(fails: bool) returns (captured: Option<bool>)
      ensures captured == if fails || Contents().record == None then None else Some(Captured(Contents()))
    {
      if fails || record == None { return None; }
      return Some(record.value.status == PaymentCaptured);
    }
  }

  // ----- the executor against this provider -----

  datatype System = System(world: World, provider: Provider)

  /** A call's inputs other than the provider's answers, which the provider gives: how the
      first read, the retry's read and its commit turn out, whether the verification
      fails, and whether the worker dies right after recording its attempt. */
  datatype Input = Input(
    env: Env, code: string, first: CommitFault, read: CommitFault, commit: CommitFault, verifyFails: bool, dies: bool)

  function StepOf(s: System, x: Input): Step {
    if x.dies then Died(Answered(s, x)) else Execution(Answered(s, x))
  }

  function Get(s: System, x: Input): Provider {
    Fetched(s.provider, s.world.payment, x.code, x.first)
  }

  function RetryOf(s: System, x: Input): (Provider, Option<bool>) {
    Retry(Get(s, x), s.world.payment, x.code, x.env.amount, x.read, x.commit)
  }

  function Retried(s: System, x: Input): Provider {
    RetryOf(s, x).0
  }

  function Answered(s: System, x: Input): Env {
    x.env.(capturedBefore := x.first == Acked && Captured(Get(s, x)),
           retryFailed := RetryOf(s, x).1 != Some(true),
           capturedAfter := !x.verifyFails && Captured(Retried(s, x)))
  }

  /** One executor call: the provider is read unless the workflow is resolved, and
      asked to retry when the executor charges. */
  function Call(s: System, x: Input): System {
    var world := Advance(s.world, StepOf(s, x));
    System(world,
           if !x.env.found || IsResolved(s.world.status) then s.provider
           else if |world.calls| > |s.world.calls| then Retried(s, x)
           else Get(s, x))
  }

  function CallAll(s: System, inputs: seq<Input>): System {
    if inputs == [] then s else Call(CallAll(s, inputs[..|inputs| - 1]), inputs[|inputs| - 1])
  }

  predicate IsStart(s: System) {
    IsFresh(s.world) && s.world.payment != PaymentCaptured && s.provider == Provider(None, [])
  }

  ghost predicate Agrees(s: System) {
    && |s.provider.log| == (if s.provider.record.Some? then s.provider.record.value.attemptsCount else 0)
    && |s.provider.log| <= |s.world.calls| <= |s.world.attempts|
    && (s.world.status == Recovered ==> Captured(s.provider))
    && (s.world.status != Recovered ==> s.world.payment != PaymentCaptured)
  }

  lemma QuietExecution(w: World, e: Env)
    requires !IsResolved(w.status) && !Charges(w, e)
    ensures var w' := Execute(w, e).0;
      && w'.calls == w.calls && w'.attempts == w.attempts
      && (w'.status == Recovered <==> e.found && e.capturedBefore && RecoveryWrite !in e.faults)
  {
  }

  lemma ChargingExecution(w: World, e: Env)
    requires Charges(w, e)
    ensures var w' := Execute(w, e).0;
      && e.found && !e.capturedBefore && !IsResolved(w.status)
      && |w'.calls| == |w.calls| + 1 && |w'.attempts| == |w.attempts| + 1
      && (w'.status == Recovered <==> e.capturedAfter && RecoveryWrite !in e.faults)
  {
    assert Execute(w, e).0 == AfterVerification(AfterCall(w, e), e, CountedAttempts(w, e) + 1);
  }

  /** What one call does to the counts the two sides keep. */
  lemma CallCounts(s: System, x: Input)
    requires !IsResolved(s.world.status)
    ensures var w := Call(s, x).world;
      if |w.calls| > |s.world.calls|
      then |w.calls| == |s.world.calls| + 1 && |w.attempts| == |s.world.attempts| + 1
           && (w.status == Recovered ==> Captured(Retried(s, x)))
           && (Faultless(x) && Captured(Retried(s, x)) ==> w.status == Recovered)
      else w.calls == s.world.calls && |s.world.attempts| <= |w.attempts|
           && (!x.dies ==> w.attempts == s.world.attempts)
           && (w.status == Recovered ==> Captured(Get(s, x)))
           && (Faultless(x) && Captured(Get(s, x)) ==> w.status == Recovered)
  {
    var e := Answered(s, x);
    if Charges(s.world, e) {
      ChargingExecution(s.world, e);
    } else {
      QuietExecution(s.world, e);
    }
  }

  predicate Faultless(x: Input) {
    x.first == x.read == x.commit == Acked && !x.verifyFails && !x.dies && x.env.faults == {} && x.env.found
  }

  lemma CallKeepsAgreement(s: System, x: Input)
    requires Agrees(s)
    ensures Agrees(Call(s, x))
    ensures Captured(s.provider) ==> Captured(Call(s, x).provider)
  {
    if !IsResolved(s.world.status) {
      CallCounts(s, x);
      RecoveryStep(s.world, StepOf(s, x));
    }
  }

  /** Whatever fails or dies: the provider's counter is the length of its attempt log,
      which never exceeds the executor's calls and attempts; a captured payment stays captured, and
      a workflow is RECOVERED only with a captured provider record. */
  lemma {:induction false} ProviderAgrees(s: System, inputs: seq<Input>)
    requires IsStart(s)
    ensures Agrees(CallAll(s, inputs))
  {
    if inputs != [] {
      ProviderAgrees(s, inputs[..|inputs| - 1]);
      CallKeepsAgreement(CallAll(s, inputs[..|inputs| - 1]), inputs[|inputs| - 1]);
    }
  }

  lemma {:induction false} CapturedForEver(s: System, inputs: seq<Input>)
    requires Agrees(s) && Captured(s.provider)
    ensures Agrees(CallAll(s, inputs)) && Captured(CallAll(s, inputs).provider)
  {
    if inputs != [] {
      CapturedForEver(s, inputs[..|inputs| - 1]);
      CallKeepsAgreement(CallAll(s, inputs[..|inputs| - 1]), inputs[|inputs| - 1]);
    }
  }

  ghost predicate CountsEqual(s: System) {
    && Agrees(s) && |s.provider.log| == |s.world.attempts|
    && (Captured(s.provider) ==> s.world.status == Recovered)
  }

  lemma FaultlessCall(s: System, x: Input)
    requires CountsEqual(s) && Faultless(x)
    ensures CountsEqual(Call(s, x))
  {
    CallKeepsAgreement(s, x);
    if !IsResolved(s.world.status) { CallCounts(s, x); }
  }

  /** When nothing fails the three counts are equal: counter, log and attempts. */
  lemma {:induction false} CountsAreEqual(s: System, inputs: seq<Input>)
    requires IsStart(s) && forall i :: 0 <= i < |inputs| ==> Faultless(inputs[i])
    ensures CountsEqual(CallAll(s, inputs))
  {
    if inputs != [] {
      CountsAreEqual(s, inputs[..|inputs| - 1]);
      FaultlessCall(CallAll(s, inputs[..|inputs| - 1]), inputs[|inputs| - 1]);
    }
  }

  ghost predicate HardInv(s: System) {
    Agrees(s) && IsHard(s.provider) && s.world.status != Recovered
  }

  predicate IsHard(p: Provider) {
    !Captured(p) && (p.record.Some? ==> IsHardDecline(p.record.value.failureCode))
  }

  lemma ProviderStaysHard(s: System, x: Input)
    requires IsHard(s.provider) && s.world.payment != PaymentCaptured && IsHardDecline(x.code)
    ensures IsHard(Get(s, x)) && IsHard(Retried(s, x))
  {
  }

  lemma HardCode(code: string)
    ensures IsHardDecline(code) <==>
      ToUpper(code) in {"EXPIRED_CARD", "INVALID_ACCOUNT", "CARD_BLOCKED", "STOLEN_CARD", "DO_NOT_HONOR"}
  {
  }

  /** A payment whose code is one of these five, in any letter case, is never recovered, in
      any number of calls. */
  lemma {:induction false} HardDeclineNeverRecovers(s: System, inputs: seq<Input>)
    requires IsStart(s)
    requires forall i :: 0 <= i < |inputs| ==>
      ToUpper(inputs[i].code) in {"EXPIRED_CARD", "INVALID_ACCOUNT", "CARD_BLOCKED", "STOLEN_CARD", "DO_NOT_HONOR"}
    ensures HardInv(CallAll(s, inputs))
  {
    if inputs != [] {
      var n := |inputs| - 1;
      HardDeclineNeverRecovers(s, inputs[..n]);
      var before := CallAll(s, inputs[..n]);
      CallKeepsAgreement(before, inputs[n]);
      HardCode(inputs[n].code);
      ProviderStaysHard(before, inputs[n]);
      assert IsHard(Call(before, inputs[n]).provider);
    }
  }

  /** A faultless call that charges recovers the workflow exactly when the provider
      lets the recorded code and the amount pass, at the first charge or any other. */
  lemma ChargeDecides(s: System, x: Input)
    requires Agrees(s) && Faultless(x)
    requires s.provider.record.Some? ==> s.provider.record.value.failureCode == x.code
    requires |Call(s, x).world.calls| > |s.world.calls|
    ensures Call(s, x).world.status == Recovered <==>
      && ToUpper(x.code) !in {"EXPIRED_CARD", "INVALID_ACCOUNT", "CARD_BLOCKED", "STOLEN_CARD", "DO_NOT_HONOR"}
      && (ToUpper(x.code) == "INSUFFICIENT_FUNDS" ==> x.env.amount > 0.0)
  {
    HardCode(x.code);
    CallCounts(s, x);
  }

  predicate HasCode(p: Provider, code: string) {
    p.record.Some? ==> p.record.value.failureCode == code
  }

  lemma ProviderKeepsCode(s: System, x: Input)
    requires HasCode(s.provider, x.code)
    ensures HasCode(Get(s, x), x.code) && HasCode(Retried(s, x), x.code)
  {
  }

  lemma {:induction false} RecordKeepsCode(s: System, inputs: seq<Input>, code: string)
    requires IsStart(s) && forall i :: 0 <= i < |inputs| ==> inputs[i].code == code
    ensures HasCode(CallAll(s, inputs).provider, code)
  {
    if inputs != [] {
      var before, x := CallAll(s, inputs[..|inputs| - 1]), inputs[|inputs| - 1];
      RecordKeepsCode(s, inputs[..|inputs| - 1], code);
      ProviderKeepsCode(before, x);
      assert Call(before, x).provider in {before.provider, Get(before, x), Retried(before, x)};
    }
  }

  /** After any calls, a transient code recovers at the next faultless charge, and so at its
      first; missing funds do at any positive amount. */
  lemma SoftDeclineRecovers(s: System, inputs: seq<Input>, x: Input)
    requires IsStart(s) && forall i :: 0 <= i < |inputs| ==> inputs[i].code == x.code
    requires Faultless(x) && |Call(CallAll(s, inputs), x).world.calls| > |CallAll(s, inputs).world.calls|
    requires ToUpper(x.code) in {"TIMEOUT", "BANK_UNAVAILABLE", "NETWORK_ERROR", "PROCESSING_ERROR"}
      || (ToUpper(x.code) == "INSUFFICIENT_FUNDS" && x.env.amount > 0.0)
    ensures Call(CallAll(s, inputs), x).world.status == Recovered
  {
    ProviderAgrees(s, inputs);
    RecordKeepsCode(s, inputs, x.code);
    ChargeDecides(CallAll(s, inputs), x);
  }

  // ----- the attempt log -----

  /** Only the last attempt can have succeeded, and it has exactly when the record, once
      tried, is captured. */
  predicate LogTells(p: Provider) {
    && (forall i :: 0 <= i < |p.log| - 1 ==> !p.log[i].succeeded)
    && (p.log != [] ==> p.record.Some? && (p.log[|p.log| - 1].succeeded <==> Captured(p)))
  }

  lemma RetryKeepsLog(p: Provider, payment: PaymentStatus, code: string, amount: real,
                      read: CommitFault, commit: CommitFault)
    requires LogTells(p)
    ensures var (p', answer) := Retry(p, payment, code, amount, read, commit);
      && LogTells(p') && p.log <= p'.log && |p'.log| <= |p.log| + 1
      && (|p'.log| > |p.log| ==> p'.log[|p.log|].amount == amount)
      && (answer.Some? ==> answer.value == Captured(p'))
      && (answer.Some? <==> read == Acked && (Captured(Fetched(p, payment, code, read)) || commit == Acked))
  {
  }

  /** Over any run with any faults the provider's log agrees with its record. */
  lemma {:induction false} LogTellsStatus(s: System, inputs: seq<Input>)
    requires IsStart(s)
    ensures LogTells(CallAll(s, inputs).provider)
  {
    if inputs != [] {
      var before, x := CallAll(s, inputs[..|inputs| - 1]), inputs[|inputs| - 1];
      LogTellsStatus(s, inputs[..|inputs| - 1]);
      RetryKeepsLog(Get(before, x), before.world.payment, x.code, x.env.amount, x.read, x.commit);
    }
  }
}
