/** Several workers executing one workflow at once. The checks of `ExecuteWorkflow` read
    without a lock what later statements write, so the steps of different workers
    interleave: what survives, what does not, and by how much. */
module ExecutorRace {
  import opened Prelude
  import opened WorkflowStates
  import opened Executor
  import opened ExecutorRuns

  /** Where a worker is: `Passed` has counted the attempts and not yet recorded its own. */
  datatype Worker =
    | Idle | Loaded | Unpaid | Reconciling | Stopping(to: WorkflowState)
    | Passed(count: nat) | Recorded(number: nat) | Charged(number: nat) | Verified(number: nat, captured: bool)

  /** `captured` is the provider's record, which nothing takes back; `recovered` counts
      the recovered outcomes, and `attempts` are the attempt numbers recorded. */
  datatype State = State(
    status: WorkflowState, captured: bool, payment: bool, attempts: seq<nat>, recovered: nat, workers: seq<Worker>)

  datatype Action =
    | Load(w: nat)
    | Ask(w: nat, answered: bool)
    | CountAttempts(w: nat)
    | Stop(w: nat, to: WorkflowState)
    | Record(w: nat)
    | Charge(w: nat, succeeds: bool)
    | Verify(w: nat, answered: bool)
    | Write(w: nat)
    | Crash(w: nat)
    | PaidElsewhere

  function Start(k: nat): State {
    State(Scheduled, false, false, [], 0, seq(k, _ => Idle))
  }

  function Set(s: State, w: nat, x: Worker): State
    requires w < |s.workers|
  {
    s.(workers := s.workers[w := x])
  }

  function Apply(s: State, a: Action, limit: nat): Option<State> {
    if a.PaidElsewhere? then Some(s.(captured := true))
    else if a.w >= |s.workers| then None
    else
      var me := s.workers[a.w];
      match a
      case Load(w) =>
        if !me.Idle? || IsResolved(s.status) then None else Some(Set(s, w, Loaded))
      case Ask(w, answered) =>
        if !me.Loaded? then None
        else Some(Set(s, w, if answered && s.captured then Reconciling else Unpaid))
      case CountAttempts(w) =>
        if !me.Unpaid? then None
        else Some(Set(s, w, if |s.attempts| >= limit then Stopping(Failed) else Passed(|s.attempts|)))
      case Stop(w, to) =>                    // opt-out, or the policy's verdict
        if !(me.Unpaid? || me.Passed?) || to !in {Halted, Escalated} then None
        else Some(Set(s, w, Stopping(to)))
      case Record(w) =>
        if !me.Passed? then None
        else Some(Set(s, w, Recorded(me.count + 1)).(attempts := s.attempts + [me.count + 1]))
      case Charge(w, succeeds) =>
        if !me.Recorded? then None
        else Some(Set(s, w, Charged(me.number)).(captured := s.captured || succeeds))
      case Verify(w, answered) =>
        if !me.Charged? then None
        else Some(Set(s, w, Verified(me.number, answered && s.captured)))
      case Write(w) =>
        if me.Reconciling? || (me.Verified? && me.captured) then
          Some(Set(s, w, Idle).(status := Recovered, payment := true, recovered := s.recovered + 1))
        else if me.Stopping? then Some(Set(s, w, Idle).(status := me.to))
        else if me.Verified? then
          Some(Set(s, w, Idle).(status := if me.number >= limit then Failed else Scheduled))
        else None
      case Crash(w) => Some(Set(s, w, Idle))
  }

  function Run(s: State, acts: seq<Action>, limit: nat): Option<State> {
    if acts == [] then Some(s)
    else
      match Run(s, acts[..|acts| - 1], limit)
      case None => None
      case Some(mid) => Apply(mid, acts[|acts| - 1], limit)
  }

  ghost predicate Leads(from: State, limit: nat, to: State) {
    exists acts :: Run(from, acts, limit) == Some(to)
  }

  ghost predicate Reachable(k: nat, limit: nat, s: State) {
    Leads(Start(k), limit, s)
  }

  lemma LeadsToItself(s: State, limit: nat)
    ensures Leads(s, limit, s)
  {
    assert Run(s, [], limit) == Some(s);
  }

  lemma RunSnoc(from: State, acts: seq<Action>, to: State, a: Action, limit: nat)
    requires Run(from, acts, limit) == Some(to)
    ensures Run(from, acts + [a], limit) == Apply(to, a, limit)
  {
    assert (acts + [a])[..|acts|] == acts;
  }

  /** What leads to a state leads one step further. */
  lemma Step(s0: State, limit: nat, s: State, a: Action) returns (s': State)
    requires Leads(s0, limit, s) && Apply(s, a, limit).Some?
    ensures s' == Apply(s, a, limit).value && Leads(s0, limit, s')
  {
    var acts :| Run(s0, acts, limit) == Some(s);
    s' := Apply(s, a, limit).value;
    RunSnoc(s0, acts, s, a, limit);
    assert Run(s0, acts + [a], limit) == Some(s');
  }

  // ----- the retry bound -----

  function PassedCount(workers: seq<Worker>): nat {
    if workers == [] then 0
    else PassedCount(workers[1..]) + if workers[0].Passed? then 1 else 0
  }

  lemma {:induction false} PassedCountUpdate(workers: seq<Worker>, w: nat, x: Worker)
    requires w < |workers|
    ensures PassedCount(workers[w := x]) + (if workers[w].Passed? then 1 else 0)
         == PassedCount(workers) + (if x.Passed? then 1 else 0)
    ensures PassedCount(workers) <= |workers|
    ensures !workers[w].Passed? ==> PassedCount(workers) < |workers|
  {
    if w == 0 {
      assert workers[0 := x][1..] == workers[1..];
      if |workers| > 1 { PassedCountUpdate(workers[1..], 0, x); }
    } else {
      PassedCountUpdate(workers[1..], w - 1, x);
      assert workers[w := x][1..] == workers[1..][w - 1 := x];
    }
  }

  lemma {:induction false} NobodyPassed(workers: seq<Worker>)
    requires forall w :: 0 <= w < |workers| ==> workers[w] == Idle
    ensures PassedCount(workers) == 0
  {
    if workers != [] { NobodyPassed(workers[1..]); }
  }

  predicate StopsShort(x: Worker) {
    x.Stopping? ==> x.to in {Halted, Escalated, Failed}
  }

  ghost predicate BoundInv(s: State, limit: nat) {
    && |s.attempts| + PassedCount(s.workers) <= limit + |s.workers| - 1
    && (forall w :: 0 <= w < |s.workers| && s.workers[w].Passed? ==> s.workers[w].count < limit)
    && (forall i :: 0 <= i < |s.attempts| ==> 1 <= s.attempts[i] <= limit)
  }

  ghost predicate CaptureInv(s: State) {
    && (s.status == Recovered || s.payment || s.recovered > 0 ==> s.captured)
    && (forall w :: 0 <= w < |s.workers| ==>
          && (s.workers[w].Reconciling? || (s.workers[w].Verified? && s.workers[w].captured) ==> s.captured)
          && StopsShort(s.workers[w]))
  }

  ghost predicate AloneInv(s: State) {
    && s.recovered == (if s.status == Recovered then 1 else 0)
    && (|s.workers| == 1 ==> StopsShort(s.workers[0]) && (s.workers[0] != Idle ==> !IsResolved(s.status)))
  }

  lemma StepKeepsBound(s: State, a: Action, limit: nat)
    requires limit >= 1 && BoundInv(s, limit) && Apply(s, a, limit).Some?
    ensures BoundInv(Apply(s, a, limit).value, limit)
  {
    if !a.PaidElsewhere? {
      PassedCountUpdate(s.workers, a.w, Apply(s, a, limit).value.workers[a.w]);
    }
  }

  lemma StepKeepsCapture(s: State, a: Action, limit: nat)
    requires CaptureInv(s) && Apply(s, a, limit).Some?
    ensures CaptureInv(Apply(s, a, limit).value)
  {
    if !a.PaidElsewhere? { assert StopsShort(s.workers[a.w]); }
  }

  lemma StepKeepsAlone(s: State, a: Action, limit: nat)
    requires |s.workers| <= 1 && AloneInv(s) && Apply(s, a, limit).Some?
    ensures AloneInv(Apply(s, a, limit).value)
  {
  }

  lemma {:induction false} RunInv(k: nat, limit: nat, acts: seq<Action>)
    requires limit >= 1 && Run(Start(k), acts, limit).Some?
    ensures var s := Run(Start(k), acts, limit).value;
      && |s.workers| == k && CaptureInv(s)
      && (k >= 1 ==> BoundInv(s, limit))
      && (k <= 1 ==> AloneInv(s))
  {
    if acts == [] {
      NobodyPassed(Start(k).workers);
    } else {
      RunInv(k, limit, acts[..|acts| - 1]);
      var s, a := Run(Start(k), acts[..|acts| - 1], limit).value, acts[|acts| - 1];
      StepKeepsCapture(s, a, limit);
      if k >= 1 { StepKeepsBound(s, a, limit); }
      if k <= 1 { StepKeepsAlone(s, a, limit); }
    }
  }

  /** With k workers at most limit + k - 1 attempts are ever recorded, each numbered at
      most `limit`. */
  lemma RaceBound(k: nat, limit: nat, s: State)
    requires k >= 1 && limit >= 1 && Reachable(k, limit, s)
    ensures |s.attempts| <= limit + k - 1
    ensures forall i :: 0 <= i < |s.attempts| ==> 1 <= s.attempts[i] <= limit
  {
    var acts :| Run(Start(k), acts, limit) == Some(s);
    RunInv(k, limit, acts);
  }

  // ----- the bound is exact -----

  ghost predicate AllIdle(s: State) {
    forall w :: 0 <= w < |s.workers| ==> s.workers[w] == Idle
  }

  /** Workers 0..j-1 at `Passed`, the others not started. */
  ghost function Lined(s: State, j: nat): State {
    s.(workers := seq(|s.workers|, w => if w < j then Passed(|s.attempts|) else Idle))
  }

  lemma {:induction false} LetPass(s0: State, limit: nat, s: State, j: nat)
    requires Leads(s0, limit, s) && AllIdle(s) && j <= |s.workers|
    requires !IsResolved(s.status) && !s.captured && |s.attempts| < limit
    ensures Leads(s0, limit, Lined(s, j))
  {
    if j == 0 {
      assert Lined(s, 0) == s;
    } else {
      LetPass(s0, limit, s, j - 1);
      var x := Step(s0, limit, Lined(s, j - 1), Load(j - 1));
      x := Step(s0, limit, x, Ask(j - 1, true));
      x := Step(s0, limit, x, CountAttempts(j - 1));
      assert x.workers == Lined(s, j).workers;
    }
  }

  /** Workers 0..j-1, having passed, record their attempts one after the other. */
  lemma {:induction false} LetRecord(s0: State, limit: nat, s: State, j: nat) returns (s': State)
    requires Leads(s0, limit, s) && j <= |s.workers| && forall w :: 0 <= w < |s.workers| ==> s.workers[w].Passed?
    ensures Leads(s0, limit, s') && |s'.attempts| == |s.attempts| + j && |s'.workers| == |s.workers|
    ensures forall w :: j <= w < |s.workers| ==> s'.workers[w] == s.workers[w]
  {
    if j == 0 {
      s' := s;
    } else {
      s' := LetRecord(s0, limit, s, j - 1);
      s' := Step(s0, limit, s', Record(j - 1));
    }
  }

  /** A worker that recorded its attempt charges and verifies undisturbed. */
  lemma ChargeAndVerify(s0: State, limit: nat, s: State, w: nat, succeeds: bool) returns (s': State)
    requires Leads(s0, limit, s) && w < |s.workers| && s.workers[w].Recorded?
    ensures Leads(s0, limit, s')
    ensures s'.captured == (s.captured || succeeds)
    ensures s' == Set(s, w, Verified(s.workers[w].number, s'.captured)).(captured := s'.captured)
  {
    s' := Step(s0, limit, s, Charge(w, succeeds));
    s' := Step(s0, limit, s', Verify(w, true));
    assert s'.workers == s.workers[w := s'.workers[w]];
  }

  lemma WriteFailure(s0: State, limit: nat, s: State, w: nat) returns (s': State)
    requires Leads(s0, limit, s) && w < |s.workers| && s.workers[w].Verified? && !s.workers[w].captured
    ensures Leads(s0, limit, s')
    ensures s' == Set(s, w, Idle).(status := if s.workers[w].number >= limit then Failed else Scheduled)
    ensures Apply(s, Write(w), limit) == Some(s')
  {
    s' := Step(s0, limit, s, Write(w));
  }

  lemma WriteSuccess(s0: State, limit: nat, s: State, w: nat) returns (s': State)
    requires Leads(s0, limit, s) && w < |s.workers| && s.workers[w].Verified? && s.workers[w].captured
    ensures Leads(s0, limit, s')
    ensures s' == Set(s, w, Idle).(status := Recovered, payment := true, recovered := s.recovered + 1)
  {
    s' := Step(s0, limit, s, Write(w));
  }

  lemma RecordOne(s0: State, limit: nat, s: State, w: nat) returns (s': State)
    requires Leads(s0, limit, s) && w < |s.workers| && s.workers[w].Passed?
    ensures Leads(s0, limit, s')
    ensures s' == Set(s, w, Recorded(s.workers[w].count + 1)).(attempts := s.attempts + [s.workers[w].count + 1])
  {
    s' := Step(s0, limit, s, Record(w));
  }

  /** n failed attempts of one worker, below the limit, leave the workflow SCHEDULED. */
  lemma {:induction false} FailTimes(k: nat, limit: nat, n: nat) returns (s: State)
    requires k >= 1 && n < limit
    ensures Reachable(k, limit, s) && |s.attempts| == n && s == Start(k).(attempts := s.attempts)
  {
    if n == 0 {
      s := Start(k);
      LeadsToItself(Start(k), limit);
    } else {
      s := FailTimes(k, limit, n - 1);
      LetPass(Start(k), limit, s, 1);
      s := RecordOne(Start(k), limit, Lined(s, 1), 0);
      s := ChargeAndVerify(Start(k), limit, s, 0, false);
      s := WriteFailure(Start(k), limit, s, 0);
      assert s.workers == Start(k).workers;
    }
  }

  /** The bound is reached for every number of workers and every limit. */
  lemma RaceBoundIsReached(k: nat, limit: nat) returns (s: State)
    requires k >= 1 && limit >= 1
    ensures Reachable(k, limit, s) && |s.attempts| == limit + k - 1
  {
    s := FailTimes(k, limit, limit - 1);
    LetPass(Start(k), limit, s, k);
    s := LetRecord(Start(k), limit, Lined(s, k), k);
  }

  // ----- recovery under races -----

  /** No false recovery even in a race: nothing says recovered before the provider has
      captured the payment. */
  lemma NoFalseRecoveryInRaces(k: nat, limit: nat, s: State)
    requires limit >= 1 && Reachable(k, limit, s)
    ensures s.status == Recovered || s.payment || s.recovered > 0 ==> s.captured
  {
    var acts :| Run(Start(k), acts, limit) == Some(s);
    RunInv(k, limit, acts);
  }

  lemma TwoRecorded(k: nat, limit: nat) returns (s: State)
    requires k >= 2 && limit >= 1
    ensures Reachable(k, limit, s) && |s.workers| == k && s.recovered == 0 && !s.captured
    ensures s.workers[0] == Recorded(1) == s.workers[1]
  {
    LeadsToItself(Start(k), limit);
    LetPass(Start(k), limit, Start(k), 2);
    s := RecordOne(Start(k), limit, Lined(Start(k), 2), 0);
    s := RecordOne(Start(k), limit, s, 1);
  }

  /** A payment's amount is counted as recovered at most once in every run exactly when
      no two workers run at the same time. */
  lemma RecoveredOnceIffAlone(k: nat, limit: nat)
    requires limit >= 1
    ensures (forall s :: Reachable(k, limit, s) ==> s.recovered <= 1) <==> k <= 1
  {
    if k <= 1 {
      forall s | Reachable(k, limit, s) ensures s.recovered <= 1 {
        var acts :| Run(Start(k), acts, limit) == Some(s);
        RunInv(k, limit, acts);
      }
    } else {
      var s := TwoRecorded(k, limit);
      s := ChargeAndVerify(Start(k), limit, s, 0, true);
      s := ChargeAndVerify(Start(k), limit, s, 1, true);
      s := WriteSuccess(Start(k), limit, s, 0);
      s := WriteSuccess(Start(k), limit, s, 1);
      assert s.recovered == 2;
    }
  }

  /** RECOVERED is final exactly when no two workers run at the same time: a second one
      that verified before the capture writes SCHEDULED or FAILED over it. */
  lemma RecoveredIsFinalIffAlone(k: nat, limit: nat)
    requires limit >= 1
    ensures (forall s, a :: Reachable(k, limit, s) && s.status == Recovered && Apply(s, a, limit).Some?
               ==> Apply(s, a, limit).value.status == Recovered)
      <==> k <= 1
  {
    if k <= 1 {
      forall s, a | Reachable(k, limit, s) && s.status == Recovered && Apply(s, a, limit).Some?
        ensures Apply(s, a, limit).value.status == Recovered
      {
        var acts :| Run(Start(k), acts, limit) == Some(s);
        RunInv(k, limit, acts);
      }
    } else {
      var s := TwoRecorded(k, limit);
      s := ChargeAndVerify(Start(k), limit, s, 0, false);
      s := ChargeAndVerify(Start(k), limit, s, 1, true);
      s := WriteSuccess(Start(k), limit, s, 1);
      var overwritten := WriteFailure(Start(k), limit, s, 0);
      assert s.status == Recovered && Apply(s, Write(0), limit) == Some(overwritten);
    }
  }

  // ----- one worker alone is the executor's call -----

  ghost predicate Alone(s: State) {
    s.workers == [Idle] && !IsResolved(s.status)
  }

  lemma Asks(s: State, limit: nat) returns (s': State)
    requires Alone(s)
    ensures Leads(s, limit, s') && s' == s.(workers := [if s.captured then Reconciling else Unpaid])
  {
    LeadsToItself(s, limit);
    s' := Step(s, limit, s, Load(0));
    s' := Step(s, limit, s', Ask(0, true));
  }

  lemma Reconciles(s: State, limit: nat)
    requires Alone(s) && s.captured
    ensures Leads(s, limit, s.(status := Recovered, payment := true, recovered := s.recovered + 1))
  {
    var x := Asks(s, limit);
    x := Step(s, limit, x, Write(0));
    assert x.workers == [Idle];
  }

  lemma Stops(s: State, limit: nat, to: WorkflowState)
    requires Alone(s) && !s.captured && to in {Halted, Escalated}
    ensures Leads(s, limit, s.(status := to))
  {
    var x := Asks(s, limit);
    x := Step(s, limit, x, Stop(0, to));
    x := Step(s, limit, x, Write(0));
    assert x.workers == [Idle];
  }

  lemma Exhausts(s: State, limit: nat)
    requires Alone(s) && !s.captured && |s.attempts| >= limit
    ensures Leads(s, limit, s.(status := Failed))
  {
    var x := Asks(s, limit);
    x := Step(s, limit, x, CountAttempts(0));
    x := Step(s, limit, x, Write(0));
    assert x.workers == [Idle];
  }

  lemma Records(s: State, limit: nat) returns (s': State)
    requires Alone(s) && !s.captured && |s.attempts| < limit
    ensures Leads(s, limit, s')
    ensures s' == s.(workers := [Recorded(|s.attempts| + 1)], attempts := s.attempts + [|s.attempts| + 1])
  {
    s' := Asks(s, limit);
    s' := Step(s, limit, s', CountAttempts(0));
    assert s'.workers == [Passed(|s.attempts|)];
    s' := RecordOne(s, limit, s', 0);
  }

  lemma ChargesAndVerifies(s: State, limit: nat, succeeds: bool) returns (s': State)
    requires Alone(s) && !s.captured && |s.attempts| < limit
    ensures Leads(s, limit, s')
    ensures s' == s.(workers := [Verified(|s.attempts| + 1, succeeds)], captured := succeeds,
                     attempts := s.attempts + [|s.attempts| + 1])
  {
    s' := Records(s, limit);
    s' := ChargeAndVerify(s, limit, s', 0, succeeds);
    assert s'.workers == [Verified(|s.attempts| + 1, succeeds)];
  }

  /** A charge whose last write happens, or whose worker is cut short before it. */
  lemma ChargeIsARun(s: State, limit: nat, succeeds: bool, written: bool)
    requires Alone(s) && !s.captured && |s.attempts| < limit
    ensures Leads(s, limit, AfterCharge(s, limit, succeeds, written))
  {
    var x := ChargesAndVerifies(s, limit, succeeds);
    x := Step(s, limit, x, if written then Write(0) else Crash(0));
    assert x.workers == [Idle];
    assert x == AfterCharge(s, limit, succeeds, written);
  }

  function AfterCharge(s: State, limit: nat, succeeds: bool, written: bool): State {
    var number := |s.attempts| + 1;
    var charged := s.(captured := s.captured || succeeds, attempts := s.attempts + [number]);
    if !written then charged
    else if succeeds then charged.(status := Recovered, payment := true, recovered := s.recovered + 1)
    else charged.(status := if number >= limit then Failed else Scheduled)
  }

  lemma DiesAfterRecord(s: State, limit: nat)
    requires Alone(s) && !s.captured && |s.attempts| < limit
    ensures Leads(s, limit, s.(attempts := s.attempts + [|s.attempts| + 1]))
  {
    var x := Records(s, limit);
    x := Step(s, limit, x, Crash(0));
    assert x.workers == [Idle];
  }

  function Numbers(attempts: seq<Attempt>): seq<nat> {
    if attempts == [] then []
    else
      var number := attempts[|attempts| - 1].number;
      Numbers(attempts[..|attempts| - 1]) + [if number < 0 then 0 else number]
  }

  lemma {:induction false} NumbersLength(attempts: seq<Attempt>)
    ensures |Numbers(attempts)| == |attempts|
  {
    if attempts != [] { NumbersLength(attempts[..|attempts| - 1]); }
  }

  lemma NumbersAdded(attempts: seq<Attempt>, x: Attempt)
    requires x.number >= 0
    ensures Numbers(attempts + [x]) == Numbers(attempts) + [x.number]
  {
    assert (attempts + [x])[..|attempts|] == attempts;
  }

  /** The race's view of a workflow and its provider record, with one worker at rest. */
  ghost function View(w: World, captured: bool): State {
    State(w.status, captured, w.payment == PaymentCaptured, Numbers(w.attempts), RecoveredOutcomes(w.outcomes), [Idle])
  }

  /** Whether the write that ends a call with this verdict happens. */
  predicate IsWritten(e: Env, verdict: Verdict) {
    if verdict == AlreadyCaptured || verdict == VerifiedCaptured then RecoveryWrite !in e.faults
    else StatusWrite !in e.faults
  }

  /** What a call with this verdict leaves, as the race sees it. */
  ghost predicate Effect(s: State, s': State, verdict: Verdict, limit: nat, written: bool) {
    match verdict
    case NotFound => s' == s
    case AlreadyResolved => s' == s
    case AttemptNotRecorded => s' == s
    case VerifiedCaptured =>
      Alone(s) && !s.captured && |s.attempts| < limit && s' == AfterCharge(s, limit, true, written)
    case VerifiedFailed =>
      Alone(s) && !s.captured && |s.attempts| < limit && s' == AfterCharge(s, limit, false, written)
    case AlreadyCaptured =>
      if !written then s' == s
      else Alone(s) && s.captured && s' == s.(status := Recovered, payment := true, recovered := s.recovered + 1)
    case _ =>
      if !written then s' == s
      else
        && Alone(s) && !s.captured
        && (verdict == BlockedMaxRetries ==> |s.attempts| >= limit)
        && s' == s.(status := if verdict == BlockedMaxRetries then Failed
                              else if verdict.EscalatedPolicy? then Escalated else Halted)
  }

  predicate IsCharge(verdict: Verdict) {
    verdict == VerifiedCaptured || verdict == VerifiedFailed
  }

  lemma ChargeStarts(w: World, e: Env)
    requires IsCharge(Execute(w, e).1)
    ensures !e.capturedBefore && !IsResolved(w.status) && CountedAttempts(w, e) < e.policy.maxRetries
    ensures Execute(w, e) == (AfterVerification(AfterCall(w, e), e, CountedAttempts(w, e) + 1),
                              if e.capturedAfter then VerifiedCaptured else VerifiedFailed)
  {
  }

  lemma ViewAfterCall(w: World, e: Env, captured: bool)
    requires CountRead !in e.faults
    ensures View(AfterCall(w, e), captured) == View(w, captured).(attempts := Numbers(w.attempts) + [|w.attempts| + 1])
  {
    NumbersAdded(w.attempts, AfterCall(w, e).attempts[|w.attempts|]);
  }

  lemma ViewAfterVerification(w: World, e: Env, number: nat)
    requires w.attempts != []
    ensures var s := View(w, e.capturedAfter);
      View(AfterVerification(w, e, number), e.capturedAfter) ==
        if e.capturedAfter then
          if RecoveryWrite in e.faults then s
          else s.(status := Recovered, payment := true, recovered := s.recovered + 1)
        else if StatusWrite in e.faults then s
        else s.(status := if number >= e.policy.maxRetries then Failed else Scheduled)
  {
    var last := |w.attempts| - 1;
    OutcomeAdded(w.outcomes, Outcome(Some(last), true, e.amount));
    OutcomeAdded(w.outcomes, Outcome(Some(last), false, 0.0));
  }

  /** The race's view of a charge, step by step on values. */
  lemma ChargeInSteps(s: State, limit: nat, succeeds: bool, written: bool, charged: State)
    requires !s.captured && charged == s.(captured := succeeds, attempts := s.attempts + [|s.attempts| + 1])
    ensures AfterCharge(s, limit, succeeds, written) ==
      if !written then charged
      else if succeeds then charged.(status := Recovered, payment := true, recovered := charged.recovered + 1)
      else charged.(status := if |s.attempts| + 1 >= limit then Failed else Scheduled)
  {
  }

  lemma ViewAfterCharge(w: World, e: Env, limit: nat)
    requires CountRead !in e.faults && e.policy.maxRetries == limit
    ensures View(AfterVerification(AfterCall(w, e), e, |w.attempts| + 1), e.capturedAfter) ==
      AfterCharge(View(w, false), limit, e.capturedAfter,
                  if e.capturedAfter then RecoveryWrite !in e.faults else StatusWrite !in e.faults)
  {
    var called := AfterCall(w, e);
    NumbersLength(w.attempts);
    ViewAfterCall(w, e, e.capturedAfter);
    ViewAfterVerification(called, e, |w.attempts| + 1);
    ChargeInSteps(View(w, false), limit, e.capturedAfter,
                  if e.capturedAfter then RecoveryWrite !in e.faults else StatusWrite !in e.faults,
                  View(called, e.capturedAfter));
  }

  lemma ChargeHasEffect(w: World, e: Env, limit: nat)
    requires CountRead !in e.faults && e.policy.maxRetries == limit && IsCharge(Execute(w, e).1)
    ensures var (w', verdict) := Execute(w, e);
      !e.capturedBefore
      && Effect(View(w, false), View(w', verdict == VerifiedCaptured), verdict, limit, IsWritten(e, verdict))
  {
    ChargeStarts(w, e);
    NumbersLength(w.attempts);
    ViewAfterCharge(w, e, limit);
  }

  lemma CallHasEffect(w: World, e: Env, limit: nat)
    requires CountRead !in e.faults && e.policy.maxRetries == limit
    ensures var (w', verdict) := Execute(w, e);
      Effect(View(w, e.capturedBefore), View(w', e.capturedBefore || verdict == VerifiedCaptured), verdict, limit,
             IsWritten(e, verdict))
  {
    if IsCharge(Execute(w, e).1) {
      ChargeHasEffect(w, e, limit);
    } else {
      NumbersLength(w.attempts);
      OutcomeAdded(w.outcomes, Outcome(None, true, e.amount));
    }
  }

  lemma EffectIsARun(s: State, s': State, verdict: Verdict, limit: nat, written: bool)
    requires Effect(s, s', verdict, limit, written)
    ensures Leads(s, limit, s')
  {
    match verdict {
      case VerifiedCaptured => ChargeIsARun(s, limit, true, written);
      case VerifiedFailed => ChargeIsARun(s, limit, false, written);
      case AlreadyCaptured =>
        if written { Reconciles(s, limit); } else { LeadsToItself(s, limit); }
      case BlockedMaxRetries =>
        if written { Exhausts(s, limit); } else { LeadsToItself(s, limit); }
      case EscalatedPolicy(_) =>
        if written { Stops(s, limit, Escalated); } else { LeadsToItself(s, limit); }
      case BlockedOptOut =>
        if written { Stops(s, limit, Halted); } else { LeadsToItself(s, limit); }
      case BlockedPolicy(_) =>
        if written { Stops(s, limit, Halted); } else { LeadsToItself(s, limit); }
      case _ => LeadsToItself(s, limit);
    }
  }

  /** Every call of the executor that can count the attempts, whatever else fails, is a run
      of one worker, given that the provider's first answer is true to its record: a write
      that fails is a worker cut short. The sequential model is the race without rivals. */
  lemma CallIsARun(w: World, e: Env, limit: nat)
    requires CountRead !in e.faults && e.policy.maxRetries == limit
    ensures var (w', verdict) := Execute(w, e);
      Leads(View(w, e.capturedBefore), limit, View(w', e.capturedBefore || verdict == VerifiedCaptured))
  {
    var (w', verdict) := Execute(w, e);
    CallHasEffect(w, e, limit);
    EffectIsARun(View(w, e.capturedBefore), View(w', e.capturedBefore || verdict == VerifiedCaptured), verdict, limit,
                 IsWritten(e, verdict));
  }

  /** So is a call whose worker dies right after recording its attempt. */
  lemma DeathIsARun(w: World, e: Env, limit: nat)
    requires CountRead !in e.faults && e.policy.maxRetries == limit
    ensures Leads(View(w, e.capturedBefore), limit, View(Interrupted(w, e), e.capturedBefore))
  {
    var s := View(w, e.capturedBefore);
    if Charges(w, e) {
      NumbersLength(w.attempts);
      NumbersAdded(w.attempts, Attempt(Chosen(w), PendingAttempt, |w.attempts| + 1));
      DiesAfterRecord(s, limit);
    } else {
      LeadsToItself(s, limit);
    }
  }
}
