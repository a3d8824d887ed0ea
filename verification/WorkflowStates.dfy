/** The table of allowed workflow transitions and what every run through it keeps.
    Nothing in the program calls the check; the table is its design. */
module WorkflowStates {

  datatype WorkflowState =
    | Failed | PendingVerification | Analyzing | Planned | PolicyCheck | Scheduled
    | Executing | Verifying | Recovered | NextAttempt | Escalated | Halted

  /** Every state has an entry, so the "unknown state" error never arises here. */
  function AllowedTransitions(s: WorkflowState): set<WorkflowState> {
    match s
    case Failed => {PendingVerification, Analyzing}
    case PendingVerification => {Analyzing, Recovered}
    case Analyzing => {Planned, Escalated, Halted}
    case Planned => {PolicyCheck}
    case PolicyCheck => {Scheduled, Escalated, Halted}
    case Scheduled => {Executing, Halted}
    case Executing => {Verifying}
    case Verifying => {Recovered, NextAttempt, Escalated, Halted}
    case NextAttempt => {Analyzing, PendingVerification}
    case Escalated => {Scheduled, Halted, Recovered}
    case Recovered => {}
    case Halted => {}
  }

  predicate ValidateTransition(from: WorkflowState, to: WorkflowState) {
    to in AllowedTransitions(from)
  }

  /** The table read backwards: from where each state is entered. Nothing leads to FAILED. */
  lemma EntriesIff(from: WorkflowState)
    ensures !ValidateTransition(from, Failed)
    ensures ValidateTransition(from, PendingVerification) <==> from in {Failed, NextAttempt}
    ensures ValidateTransition(from, Analyzing) <==> from in {Failed, PendingVerification, NextAttempt}
    ensures ValidateTransition(from, Planned) <==> from == Analyzing
    ensures ValidateTransition(from, PolicyCheck) <==> from == Planned
    ensures ValidateTransition(from, Scheduled) <==> from in {PolicyCheck, Escalated}
    ensures ValidateTransition(from, Executing) <==> from == Scheduled
    ensures ValidateTransition(from, Verifying) <==> from == Executing
    ensures ValidateTransition(from, NextAttempt) <==> from == Verifying
    ensures ValidateTransition(from, Escalated) <==> from in {Analyzing, PolicyCheck, Verifying}
    ensures ValidateTransition(from, Recovered) <==> from in {PendingVerification, Verifying, Escalated}
    ensures ValidateTransition(from, Halted) <==> from in {Analyzing, PolicyCheck, Scheduled, Verifying, Escalated}
  {
  }

  /** A run visits one state after another along allowed transitions. */
  ghost predicate IsRun(run: seq<WorkflowState>) {
    && run != []
    && forall i :: 0 <= i < |run| - 1 ==> ValidateTransition(run[i], run[i + 1])
  }

  function Visits(run: seq<WorkflowState>, s: WorkflowState): nat {
    if run == [] then 0 else Visits(run[..|run| - 1], s) + if run[|run| - 1] == s then 1 else 0
  }

  predicate IsTerminal(s: WorkflowState) {
    s == Recovered || s == Halted
  }

  /** No execution without a policy check or a human: every EXECUTING in a run from
      FAILED comes two steps after POLICY_CHECK or ESCALATED, so each has its own. */
  lemma ExecutionIsGated(run: seq<WorkflowState>, j: nat)
    requires IsRun(run) && run[0] == Failed && j < |run| && run[j] == Executing
    ensures j >= 2 && run[j - 1] == Scheduled && run[j - 2] in {PolicyCheck, Escalated}
  {
    assert ValidateTransition(run[j - 1], run[j]);
    assert ValidateTransition(run[j - 2], run[j - 1]);
  }

  /** How many steps a run can still make without NEXT_ATTEMPT or ESCALATED. */
  function Rank(s: WorkflowState): nat {
    match s
    case Failed => 8
    case NextAttempt => 8
    case PendingVerification => 7
    case Analyzing => 6
    case Planned => 5
    case PolicyCheck => 4
    case Escalated => 4
    case Scheduled => 3
    case Executing => 2
    case Verifying => 1
    case Recovered => 0
    case Halted => 0
  }

  lemma {:induction false} RunLengthFrom(run: seq<WorkflowState>)
    requires IsRun(run)
    ensures |run| - 1 + Rank(run[|run| - 1]) <=
      Rank(run[0]) + 8 * Visits(run[1..], NextAttempt) + 4 * Visits(run[1..], Escalated)
  {
    if |run| > 1 {
      var n := |run| - 1;
      RunLengthFrom(run[..n]);
      assert ValidateTransition(run[n - 1], run[n]);
      assert run[1..][..n - 1] == run[..n][1..];
    }
  }

  /** A run from FAILED is at most linear in its visits to NEXT_ATTEMPT and ESCALATED,
      and the bound is reached for every number of visits to both. */
  lemma RunLength(run: seq<WorkflowState>)
    requires IsRun(run) && run[0] == Failed
    ensures |run| <= 9 + 8 * Visits(run, NextAttempt) + 4 * Visits(run, Escalated)
  {
    RunLengthFrom(run);
    VisitsAppend(run[..1], run[1..], NextAttempt);
    VisitsAppend(run[..1], run[1..], Escalated);
    assert run == run[..1] + run[1..];
  }

  lemma {:induction false} VisitsAppend(a: seq<WorkflowState>, b: seq<WorkflowState>, s: WorkflowState)
    ensures Visits(a + b, s) == Visits(a, s) + Visits(b, s)
  {
    if b == [] {
      assert a + b == a;
    } else {
      assert (a + b)[..|a + b| - 1] == a + b[..|b| - 1];
      VisitsAppend(a, b[..|b| - 1], s);
    }
  }

  const OPENING := [Failed, PendingVerification, Analyzing, Planned, PolicyCheck, Scheduled, Executing, Verifying]
  const RETRY := [NextAttempt, PendingVerification, Analyzing, Planned, PolicyCheck, Scheduled, Executing, Verifying]
  const REVIEW := [Escalated, Scheduled, Executing, Verifying]

  lemma VisitsOfPieces()
    ensures forall s :: s in {NextAttempt, Escalated} ==> Visits(OPENING, s) == 0 && Visits([Recovered], s) == 0
    ensures Visits(RETRY, NextAttempt) == 1 && Visits(RETRY, Escalated) == 0
    ensures Visits(REVIEW, NextAttempt) == 0 && Visits(REVIEW, Escalated) == 1
  {
    forall s | s in {NextAttempt, Escalated}
      ensures Visits(OPENING, s) == 0 && Visits([Recovered], s) == 0
    {
      NeverVisited(OPENING, s);
      NeverVisited([Recovered], s);
    }
    VisitsAppend([NextAttempt], RETRY[1..], NextAttempt);
    VisitsAppend([NextAttempt], RETRY[1..], Escalated);
    NeverVisited(RETRY[1..], NextAttempt);
    NeverVisited(RETRY, Escalated);
    assert RETRY == [NextAttempt] + RETRY[1..];
    NeverVisited(REVIEW, NextAttempt);
    NeverVisited(REVIEW[1..], Escalated);
    VisitsAppend([Escalated], REVIEW[1..], Escalated);
    assert REVIEW == [Escalated] + REVIEW[1..];
    assert [NextAttempt][..0] == [] && [Escalated][..0] == [];
  }

  lemma {:induction false} NeverVisited(run: seq<WorkflowState>, s: WorkflowState)
    requires s !in run
    ensures Visits(run, s) == 0
  {
    if run != [] {
      NeverVisited(run[..|run| - 1], s);
    }
  }

  lemma RunsJoin(a: seq<WorkflowState>, b: seq<WorkflowState>)
    requires IsRun(a) && IsRun(b) && ValidateTransition(a[|a| - 1], b[0])
    ensures IsRun(a + b)
  {
  }

  lemma {:induction false} LongestUnfinished(retries: nat, reviews: nat) returns (run: seq<WorkflowState>)
    ensures IsRun(run) && run[0] == Failed && run[|run| - 1] == Verifying
    ensures Visits(run, NextAttempt) == retries && Visits(run, Escalated) == reviews
    ensures |run| == 8 + 8 * retries + 4 * reviews
    decreases retries + reviews
  {
    VisitsOfPieces();
    if retries > 0 {
      run := LongestUnfinished(retries - 1, reviews);
      VisitsAppend(run, RETRY, NextAttempt);
      VisitsAppend(run, RETRY, Escalated);
      RunsJoin(run, RETRY);
      run := run + RETRY;
    } else if reviews > 0 {
      run := LongestUnfinished(retries, reviews - 1);
      VisitsAppend(run, REVIEW, NextAttempt);
      VisitsAppend(run, REVIEW, Escalated);
      RunsJoin(run, REVIEW);
      run := run + REVIEW;
    } else {
      run := OPENING;
    }
  }

  /** The bound of `RunLength` is reached by a run that ends RECOVERED. */
  lemma RunLengthIsTight(retries: nat, reviews: nat) returns (run: seq<WorkflowState>)
    ensures IsRun(run) && run[0] == Failed && run[|run| - 1] == Recovered
    ensures Visits(run, NextAttempt) == retries && Visits(run, Escalated) == reviews
    ensures |run| == 9 + 8 * retries + 4 * reviews
  {
    run := LongestUnfinished(retries, reviews);
    VisitsOfPieces();
    VisitsAppend(run, [Recovered], NextAttempt);
    VisitsAppend(run, [Recovered], Escalated);
    run := run + [Recovered];
  }

  // ----- reachability -----

  ghost predicate Reaches(from: WorkflowState, to: WorkflowState) {
    exists run :: IsRun(run) && run[0] == from && run[|run| - 1] == to
  }

  lemma ReachesAlong(run: seq<WorkflowState>)
    requires IsRun(run)
    ensures Reaches(run[0], run[|run| - 1])
  {
  }

  lemma ReachesTransitive(a: WorkflowState, b: WorkflowState, c: WorkflowState)
    requires Reaches(a, b) && Reaches(b, c)
    ensures Reaches(a, c)
  {
    var left :| IsRun(left) && left[0] == a && left[|left| - 1] == b;
    var right :| IsRun(right) && right[0] == b && right[|right| - 1] == c;
    ReachesAlong(left + right[1..]);
  }

  lemma ToScheduled(s: WorkflowState)
    requires !IsTerminal(s)
    ensures Reaches(s, Scheduled)
  {
    match s {
      case Failed => ReachesAlong([Failed, Analyzing, Planned, PolicyCheck, Scheduled]);
      case PendingVerification => ReachesAlong([PendingVerification, Analyzing, Planned, PolicyCheck, Scheduled]);
      case Analyzing => ReachesAlong([Analyzing, Planned, PolicyCheck, Scheduled]);
      case Planned => ReachesAlong([Planned, PolicyCheck, Scheduled]);
      case PolicyCheck => ReachesAlong([PolicyCheck, Scheduled]);
      case Scheduled => ReachesAlong([Scheduled]);
      case Executing => ReachesAlong([Executing, Verifying, Escalated, Scheduled]);
      case Verifying => ReachesAlong([Verifying, Escalated, Scheduled]);
      case NextAttempt => ReachesAlong([NextAttempt, Analyzing, Planned, PolicyCheck, Scheduled]);
      case Escalated => ReachesAlong([Escalated, Scheduled]);
    }
  }

  lemma FromScheduled(s: WorkflowState)
    requires s != Failed
    ensures Reaches(Scheduled, s)
  {
    match s {
      case PendingVerification => ReachesAlong([Scheduled, Executing, Verifying, NextAttempt, PendingVerification]);
      case Analyzing => ReachesAlong([Scheduled, Executing, Verifying, NextAttempt, Analyzing]);
      case Planned => ReachesAlong([Scheduled, Executing, Verifying, NextAttempt, Analyzing, Planned]);
      case PolicyCheck => ReachesAlong([Scheduled, Executing, Verifying, NextAttempt, Analyzing, Planned, PolicyCheck]);
      case Scheduled => ReachesAlong([Scheduled]);
      case Executing => ReachesAlong([Scheduled, Executing]);
      case Verifying => ReachesAlong([Scheduled, Executing, Verifying]);
      case Recovered => ReachesAlong([Scheduled, Executing, Verifying, Recovered]);
      case NextAttempt => ReachesAlong([Scheduled, Executing, Verifying, NextAttempt]);
      case Escalated => ReachesAlong([Scheduled, Executing, Verifying, Escalated]);
      case Halted => ReachesAlong([Scheduled, Halted]);
    }
  }

  /** Reachability in one line: a state that is not terminal reaches every state but
      FAILED, which nothing leads back to; a terminal state reaches only itself. */
  lemma ReachesIff(from: WorkflowState, to: WorkflowState)
    ensures Reaches(from, to) <==> from == to || (!IsTerminal(from) && to != Failed)
  {
    if from == to {
      ReachesAlong([from]);
    } else if !IsTerminal(from) && to != Failed {
      ToScheduled(from);
      FromScheduled(to);
      ReachesTransitive(from, Scheduled, to);
    } else {
      forall run | IsRun(run) && run[0] == from ensures run[|run| - 1] != to {
        var i := if IsTerminal(from) then 0 else |run| - 2;
        assert |run| > 1 ==> ValidateTransition(run[i], run[i + 1]);
      }
    }
  }
}
