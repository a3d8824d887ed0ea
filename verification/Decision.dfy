/** The decision arithmetic: recovery probability, candidate actions, the best of them,
    and the rule-based fallback, up to the confidence that is stored. Numbers are
    reals; the logistic function is any strictly increasing one into (0, 1). */
module Decision {
  import opened PolicyEngine

  datatype Category =
    | NetworkError | BankUnavailable | Timeout | InsufficientFunds | ExpiredCard | AuthenticationFailed
    | LimitExceeded | MandateFailed | CustomerActionRequired | UnknownError

  datatype Features = Features(successes: nat, failures: nat, attemptNumber: int, amount: real)

  type Sigmoid = real -> real

  ghost predicate IsSigmoid(f: Sigmoid) {
    && (forall x :: 0.0 < f(x) < 1.0)
    && (forall x, y :: x < y ==> f(x) < f(y))
  }

  const FLOOR := 0.25
  const CAP := 0.95

  // ----- Predict -----

  function CategoryWeight(c: Category): real {
    match c
    case InsufficientFunds => 1.1
    case NetworkError => 1.8
    case Timeout => 1.8
    case BankUnavailable => 1.4
    case ExpiredCard => -0.3
    case MandateFailed => -0.3
    case AuthenticationFailed => -0.5
    case CustomerActionRequired => -0.5
    case LimitExceeded => 0.4
    case UnknownError => -0.7
  }

  function HistoryWeight(successes: nat, failures: nat): real {
    if successes + failures == 0 then 0.0
    else (successes as real / (successes + failures) as real) * 1.5 - 0.4
  }

  function AttemptWeight(n: int): real {
    if n > 1 then -((n - 1) as real * 0.35) else 0.0
  }

  function AmountWeight(amount: real): real {
    if amount > 20000.0 then -0.3 else if amount < 3000.0 then 0.3 else 0.0
  }

  function Score(f: Features, c: Category): real {
    0.2 + CategoryWeight(c) + HistoryWeight(f.successes, f.failures)
    + AttemptWeight(f.attemptNumber) + AmountWeight(f.amount)
  }

  function Clamp(p: real): real {
    if p < FLOOR then FLOOR else if p > CAP then CAP else p
  }

  function Probability(sigmoid: Sigmoid, f: Features, c: Category): real {
    Clamp(sigmoid(Score(f, c)))
  }

  method Predict(sigmoid: Sigmoid, f: Features, c: Category) returns (probability: real)
    ensures probability == Probability(sigmoid, f, c)
  {
    var score := 0.2;
    match c {
      case InsufficientFunds => score := score + 1.1;
      case NetworkError => score := score + 1.8;
      case Timeout => score := score + 1.8;
      case BankUnavailable => score := score + 1.4;
      case ExpiredCard => score := score - 0.3;
      case MandateFailed => score := score - 0.3;
      case AuthenticationFailed => score := score - 0.5;
      case CustomerActionRequired => score := score - 0.5;
      case LimitExceeded => score := score + 0.4;
      case UnknownError => score := score - 0.7;
    }
    var totalHistory := f.successes + f.failures;
    if totalHistory > 0 {
      var successRate := f.successes as real / totalHistory as real;
      score := score + (successRate * 1.5 - 0.4);
    }
    if f.attemptNumber > 1 {
      score := score - (f.attemptNumber - 1) as real * 0.35;
    }
    if f.amount > 20000.0 {
      score := score - 0.3;
    } else if f.amount < 3000.0 {
      score := score + 0.3;
    }
    probability := sigmoid(score);
    assert score == Score(f, c);
    if probability < 0.25 { probability := 0.25; }
    if probability > 0.95 { probability := 0.95; }
  }

  lemma ProductKeepsOrder(a: nat, b: nat, c: nat)
    requires a <= b
    ensures a * c <= b * c
  {
    assert b * c == a * c + (b - a) * c;
  }

  lemma RealProduct(a: nat, b: nat)
    ensures (a * b) as real == a as real * b as real
  {
  }

  /** Success rates compare by cross multiplication. */
  lemma RatesOrdered(s1: nat, f1: nat, s2: nat, f2: nat)
    requires s1 <= s2 && f2 <= f1 && s1 + f1 > 0 && s2 + f2 > 0
    ensures s1 as real / (s1 + f1) as real <= s2 as real / (s2 + f2) as real
  {
    CrossProducts(s1, f1, s2, f2);
    RealProduct(s1, s2 + f2);
    RealProduct(s2, s1 + f1);
    CrossMultiply(s1 as real, (s1 + f1) as real, s2 as real, (s2 + f2) as real);
  }

  lemma CrossProducts(s1: nat, f1: nat, s2: nat, f2: nat)
    requires s1 <= s2 && f2 <= f1
    ensures s1 * (s2 + f2) <= s2 * (s1 + f1)
  {
    ProductKeepsOrder(f2, f1, s1);
    ProductKeepsOrder(s1, s2, f1);
    assert s1 * (s2 + f2) == s1 * s2 + s1 * f2;
    assert s2 * (s1 + f1) == s2 * s1 + s2 * f1;
  }

  lemma CrossMultiply(a: real, b: real, c: real, d: real)
    requires b > 0.0 && d > 0.0 && a * d <= c * b
    ensures a / b <= c / d
  {
    var x, y := a / b, c / d;
    assert x * b == a && y * d == c;
    assert (x - y) * (b * d) == (x * b) * d - (y * d) * b;
    assert b * d > 0.0;
  }

  lemma RateRange(s: nat, f: nat)
    requires s + f > 0
    ensures 0.0 <= s as real / (s + f) as real <= 1.0
    ensures f == 0 ==> s as real / (s + f) as real == 1.0
    ensures s == 0 ==> s as real / (s + f) as real == 0.0
  {
  }

  lemma HistoryOrdered(s1: nat, f1: nat, s2: nat, f2: nat)
    requires s1 <= s2 && f2 <= f1
    ensures HistoryWeight(s1, f1) <= HistoryWeight(s2, f2)
  {
    if s1 + f1 > 0 && s2 + f2 > 0 {
      RatesOrdered(s1, f1, s2, f2);
    } else if s2 + f2 > 0 {
      RateRange(s2, f2);
    } else if s1 + f1 > 0 {
      RateRange(s1, f1);
    }
  }

  /** The prediction stays between floor and cap, and never falls when a payment is better
      in every respect: more successes, fewer failures, an earlier attempt, a smaller
      amount. The empty history fits in although it skips a term. */
  lemma PredictIsMonotone(sigmoid: Sigmoid, c: Category, worse: Features, better: Features)
    requires IsSigmoid(sigmoid)
    requires worse.successes <= better.successes && better.failures <= worse.failures
    requires better.attemptNumber <= worse.attemptNumber && better.amount <= worse.amount
    ensures 0.25 <= Probability(sigmoid, worse, c) <= Probability(sigmoid, better, c) <= 0.95
  {
    HistoryOrdered(worse.successes, worse.failures, better.successes, better.failures);
    assert AttemptWeight(worse.attemptNumber) <= AttemptWeight(better.attemptNumber);
    assert AmountWeight(worse.amount) <= AmountWeight(better.amount);
    assert Score(worse, c) <= Score(better, c);
  }

  /** Between floor and cap the prediction is the logistic of the score itself. */
  lemma PredictWithin(sigmoid: Sigmoid, f: Features, c: Category)
    ensures var p := sigmoid(Score(f, c));
      && (p <= 0.25 ==> Probability(sigmoid, f, c) == 0.25)
      && (0.25 <= p <= 0.95 ==> Probability(sigmoid, f, c) == p)
      && (0.95 <= p ==> Probability(sigmoid, f, c) == 0.95)
  {
  }

  /** The score of a first attempt at a middling amount by an unknown customer, category by
      category: technical failures first, then missing funds and limits, then what the
      customer has to mend, and unknown failures last. */
  lemma BaseScores(amount: real)
    requires 3000.0 <= amount <= 20000.0
    ensures var f := Features(0, 0, 1, amount);
      && Score(f, NetworkError) == 2.0 == Score(f, Timeout)
      && Score(f, BankUnavailable) == 1.6 && Score(f, InsufficientFunds) == 1.3 && Score(f, LimitExceeded) == 0.6
      && Score(f, ExpiredCard) == -0.1 == Score(f, MandateFailed)
      && Score(f, AuthenticationFailed) == -0.3 == Score(f, CustomerActionRequired)
      && Score(f, UnknownError) == -0.5
  {
  }

  /** What the customer, the attempt and the amount change is the same in every category:
      a flawless history is worth 1.1, a hopeless one costs 0.4, each further attempt costs
      0.35, a small amount is worth 0.3 and a large one costs as much. */
  lemma ScoreSteps(f: Features, c: Category)
    ensures f.failures == 0 && f.successes > 0 ==>
      Score(f, c) == Score(f.(successes := 0), c) + 1.1
    ensures f.successes == 0 && f.failures > 0 ==>
      Score(f, c) == Score(f.(failures := 0), c) - 0.4
    ensures f.successes > 0 && f.failures > 0 && f.successes == f.failures ==>
      Score(f, c) == Score(f.(successes := 0, failures := 0), c) + 0.35
    ensures f.attemptNumber >= 1 ==>
      Score(f.(attemptNumber := f.attemptNumber + 1), c) == Score(f, c) - 0.35
    ensures f.attemptNumber <= 1 ==> Score(f, c) == Score(f.(attemptNumber := 1), c)
    ensures f.amount < 3000.0 ==> Score(f, c) == Score(f.(amount := 3000.0), c) + 0.3
    ensures f.amount > 20000.0 ==> Score(f, c) == Score(f.(amount := 20000.0), c) - 0.3
  {
    if f.successes + f.failures > 0 {
      RateRange(f.successes, f.failures);
      if f.successes == f.failures { HalfRate(f.successes); }
    }
  }

  lemma HalfRate(n: nat)
    requires n > 0
    ensures n as real / (n + n) as real == 0.5
  {
    assert (n + n) as real == 2.0 * n as real;
  }

  // ----- candidates -----

  datatype Candidate = Candidate(action: ActionType, score: real, delayHours: nat)

  function Interventions(c: Category, p: real): seq<Candidate> {
    match c
    case NetworkError => [Candidate(ImmediateRetry, p * 1.5, 0), Candidate(DelayedRetry, p * 1.0, 1)]
    case Timeout => [Candidate(ImmediateRetry, p * 1.5, 0), Candidate(DelayedRetry, p * 1.0, 1)]
    case InsufficientFunds => [Candidate(DelayedRetry, p * 1.2, 24), Candidate(CustomerNotification, p * 0.8, 0)]
    case ExpiredCard => [Candidate(PaymentMethodUpdate, p * 1.5, 0), Candidate(PaymentLink, p * 1.3, 0)]
    case MandateFailed => [Candidate(PaymentMethodUpdate, p * 1.5, 0), Candidate(PaymentLink, p * 1.3, 0)]
    case AuthenticationFailed => [Candidate(PaymentMethodUpdate, p * 1.5, 0), Candidate(PaymentLink, p * 1.3, 0)]
    case LimitExceeded => [Candidate(DelayedRetry, p * 1.1, 24)]
    case _ => [Candidate(Escalation, 1.0, 0)]
  }

  function Candidates(c: Category, p: real): seq<Candidate> {
    Interventions(c, p) + [Candidate(NoAction, (1.0 - p) * 0.5, 0)]
  }

  method GenerateCandidates(c: Category, p: real) returns (candidates: seq<Candidate>)
    ensures candidates == Candidates(c, p)
  {
    candidates := [];
    match c {
      case NetworkError =>
        candidates := candidates + [Candidate(ImmediateRetry, p * 1.5, 0)];
        candidates := candidates + [Candidate(DelayedRetry, p * 1.0, 1)];
      case Timeout =>
        candidates := candidates + [Candidate(ImmediateRetry, p * 1.5, 0)];
        candidates := candidates + [Candidate(DelayedRetry, p * 1.0, 1)];
      case InsufficientFunds =>
        candidates := candidates + [Candidate(DelayedRetry, p * 1.2, 24)];
        candidates := candidates + [Candidate(CustomerNotification, p * 0.8, 0)];
      case ExpiredCard =>
        candidates := candidates + [Candidate(PaymentMethodUpdate, p * 1.5, 0)];
        candidates := candidates + [Candidate(PaymentLink, p * 1.3, 0)];
      case MandateFailed =>
        candidates := candidates + [Candidate(PaymentMethodUpdate, p * 1.5, 0)];
        candidates := candidates + [Candidate(PaymentLink, p * 1.3, 0)];
      case AuthenticationFailed =>
        candidates := candidates + [Candidate(PaymentMethodUpdate, p * 1.5, 0)];
        candidates := candidates + [Candidate(PaymentLink, p * 1.3, 0)];
      case LimitExceeded =>
        candidates := candidates + [Candidate(DelayedRetry, p * 1.1, 24)];
      case _ =>
        candidates := candidates + [Candidate(Escalation, 1.0, 0)];
    }
    candidates := candidates + [Candidate(NoAction, (1.0 - p) * 0.5, 0)];
  }

  /** The candidate at `i` has the highest score, and is the first that has it. */
  ghost predicate IsFirstBest(cs: seq<Candidate>, i: nat) {
    && i < |cs|
    && (forall j :: 0 <= j < |cs| ==> cs[j].score <= cs[i].score)
    && (forall j :: 0 <= j < i ==> cs[j].score < cs[i].score)
  }

  method SelectBestAction(candidates: seq<Candidate>) returns (best: Candidate)
    ensures candidates == [] ==> best == Candidate(NoAction, 0.0, 0)
    ensures candidates != [] ==> exists i: nat :: IsFirstBest(candidates, i) && best == candidates[i]
  {
    if |candidates| == 0 {
      return Candidate(NoAction, 0.0, 0);
    }
    best := candidates[0];
    ghost var at := 0;
    for i := 0 to |candidates|
      invariant 0 <= at < |candidates| && (at < i || i == 0 == at) && best == candidates[at]
      invariant forall j :: 0 <= j < i ==> candidates[j].score <= best.score
      invariant forall j :: 0 <= j < at ==> candidates[j].score < best.score
    {
      if candidates[i].score > best.score {
        best := candidates[i];
        at := i;
      }
    }
    assert IsFirstBest(candidates, at);
  }

  // ----- the fallback -----

  datatype Recommendation = Recommendation(action: ActionType, delayHours: nat, confidence: real)

  method SafeFallback(c: Category, p: real) returns (r: Recommendation)
    requires 0.0 <= p <= 1.0
    ensures r == Recommendation(FallbackAction(c, p), FallbackDelay(c, p), p)
  {
    var candidates := GenerateCandidates(c, p);
    var best := SelectBestAction(candidates);
    BestIsFallback(c, p, best);
    r := Recommendation(best.action, best.delayHours, p);
  }

  /** Below this probability doing nothing scores best. */
  function NoActionBelow(c: Category): real {
    match c
    case InsufficientFunds => 5.0 / 17.0
    case LimitExceeded => 5.0 / 16.0
    case BankUnavailable => 0.0
    case CustomerActionRequired => 0.0
    case UnknownError => 0.0
    case _ => 1.0 / 4.0
  }

  function PrimaryAction(c: Category): ActionType {
    match c
    case NetworkError => ImmediateRetry
    case Timeout => ImmediateRetry
    case InsufficientFunds => DelayedRetry
    case LimitExceeded => DelayedRetry
    case ExpiredCard => PaymentMethodUpdate
    case MandateFailed => PaymentMethodUpdate
    case AuthenticationFailed => PaymentMethodUpdate
    case _ => Escalation
  }

  function FallbackAction(c: Category, p: real): ActionType {
    if p < NoActionBelow(c) then NoAction else PrimaryAction(c)
  }

  lemma LaterIsNotFirst(cs: seq<Candidate>, i: nat, j: nat)
    requires IsFirstBest(cs, i) && i < j < |cs|
    ensures !IsFirstBest(cs, j)
  {
    assert cs[j].score <= cs[i].score;
  }

  /** Only retries after missing funds or an exceeded limit wait, for a day. */
  function FallbackDelay(c: Category, p: real): nat {
    if FallbackAction(c, p) == DelayedRetry then 24 else 0
  }

  lemma FirstBestIsUnique(cs: seq<Candidate>, i: nat, j: nat)
    requires IsFirstBest(cs, i) && IsFirstBest(cs, j)
    ensures i == j
  {
    if i < j { LaterIsNotFirst(cs, i, j); }
    if j < i { LaterIsNotFirst(cs, j, i); }
  }

  /** Generating and ranking comes down to one threshold for each category: the second
      candidates never win, and NO_ACTION wins exactly below it. */
  lemma FallbackIsFirstBest(c: Category, p: real)
    requires 0.0 <= p <= 1.0
    ensures var cs := Candidates(c, p);
      var i := if p < NoActionBelow(c) then |cs| - 1 else 0;
      IsFirstBest(cs, i) && cs[i].action == FallbackAction(c, p) && cs[i].delayHours == FallbackDelay(c, p)
  {
    var cs := Candidates(c, p);
    var n := |cs| - 1;
    assert cs[n] == Candidate(NoAction, (1.0 - p) * 0.5, 0);
    assert cs[0] == Interventions(c, p)[0];
    if n == 2 { assert cs[1] == Interventions(c, p)[1]; }
    if p < NoActionBelow(c) {
      assert IsFirstBest(cs, n);
    } else {
      assert IsFirstBest(cs, 0);
    }
  }

  /** Behind the first candidate stands a second in six categories: an hour's wait after
      technical failures, a message for missing funds, a payment link where the customer
      has to act. It beats doing nothing from 1/3, 5/13 and 5/18 on. */
  lemma SecondChoice(c: Category, p: real)
    requires 0.0 <= p <= 1.0
    ensures |Candidates(c, p)| == 3 <==>
      c in {NetworkError, Timeout, InsufficientFunds, ExpiredCard, MandateFailed, AuthenticationFailed}
    ensures |Candidates(c, p)| == 3 ==>
      var second, nothing := Candidates(c, p)[1], Candidates(c, p)[2];
      && (c in {NetworkError, Timeout} ==>
            second.action == DelayedRetry && second.delayHours == 1
            && (nothing.score <= second.score <==> 1.0 / 3.0 <= p))
      && (c == InsufficientFunds ==>
            second.action == CustomerNotification && second.delayHours == 0
            && (nothing.score <= second.score <==> 5.0 / 13.0 <= p))
      && (c in {ExpiredCard, MandateFailed, AuthenticationFailed} ==>
            second.action == PaymentLink && second.delayHours == 0
            && (nothing.score <= second.score <==> 5.0 / 18.0 <= p))
  {
  }

  lemma BestIsFallback(c: Category, p: real, best: Candidate)
    requires 0.0 <= p <= 1.0
    requires exists i: nat :: IsFirstBest(Candidates(c, p), i) && best == Candidates(c, p)[i]
    ensures best.action == FallbackAction(c, p) && best.delayHours == FallbackDelay(c, p)
  {
    var i: nat :| IsFirstBest(Candidates(c, p), i) && best == Candidates(c, p)[i];
    FallbackIsFirstBest(c, p);
    FirstBestIsUnique(Candidates(c, p), i, if p < NoActionBelow(c) then |Candidates(c, p)| - 1 else 0);
  }

  /** After the prediction's floor, a fallback is NO_ACTION only for missing funds or an
      exceeded limit, and there exactly when the unclamped probability is low enough. */
  lemma PredictedNoAction(sigmoid: Sigmoid, f: Features, c: Category)
    requires IsSigmoid(sigmoid)
    ensures FallbackAction(c, Probability(sigmoid, f, c)) == NoAction <==>
      (c == InsufficientFunds && sigmoid(Score(f, c)) < 5.0 / 17.0)
      || (c == LimitExceeded && sigmoid(Score(f, c)) < 5.0 / 16.0)
  {
  }

  // ----- as stored -----

  /** How a NUMERIC(4,3) column keeps a number: rounded to thousandths, halves away from
      zero. */
  function Stored(p: real): real {
    if p >= 0.0 then (p * 1000.0 + 0.5).Floor as real / 1000.0
    else -((-p * 1000.0 + 0.5).Floor as real / 1000.0)
  }

  /** The stored number is in thousandths and the nearest such number. */
  lemma StoredIsNearest(p: real) returns (thousandths: int)
    ensures Stored(p) * 1000.0 == thousandths as real
    ensures -0.0005 <= Stored(p) - p <= 0.0005
  {
    var q := if p >= 0.0 then p else -p;
    var n := (q * 1000.0 + 0.5).Floor;
    assert n as real <= q * 1000.0 + 0.5 < n as real + 1.0;
    thousandths := if p >= 0.0 then n else -n;
  }

  lemma StoredKeepsOrder(p: real, q: real)
    requires 0.0 <= p <= q
    ensures Stored(p) <= Stored(q)
  {
    FloorKeepsOrder(p * 1000.0 + 0.5, q * 1000.0 + 0.5);
    ThousandthsKeepOrder((p * 1000.0 + 0.5).Floor, (q * 1000.0 + 0.5).Floor);
  }

  lemma FloorKeepsOrder(a: real, b: real)
    requires a <= b
    ensures a.Floor <= b.Floor
  {
    assert a.Floor as real <= a && b < b.Floor as real + 1.0;
  }

  lemma ThousandthsKeepOrder(m: int, n: int)
    requires m <= n
    ensures m as real / 1000.0 <= n as real / 1000.0
  {
  }

  /** The confidences a predicted NO_ACTION can be stored with end at 0.312. */
  lemma NoActionConfidence(threshold: real)
    ensures (exists c, p :: FLOOR <= p <= CAP && FallbackAction(c, p) == NoAction && Stored(p) >= threshold)
      <==> threshold <= 0.312
  {
    if threshold <= 0.312 {
      var p := 0.312;
      assert p * 1000.0 + 0.5 == 312.5;
      assert FLOOR <= p <= CAP && FallbackAction(LimitExceeded, p) == NoAction && Stored(p) >= threshold;
    } else {
      forall c, p | FLOOR <= p <= CAP && FallbackAction(c, p) == NoAction ensures Stored(p) < threshold {
        assert p * 1000.0 + 0.5 < 313.0;
        ThousandthsKeepOrder((p * 1000.0 + 0.5).Floor, 312);
      }
    }
  }
}
