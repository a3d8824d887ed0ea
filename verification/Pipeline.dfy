/** The analysis pipeline: from a payment's failure code, history and attempts to the
    prediction, the recommendation and what the workflow row then says. */
module Pipeline {
  import opened Prelude
  import opened WorkflowStates
  import opened PolicyEngine
  import opened Executor
  import opened ExecutorRuns
  import opened LocalProvider
  import opened Decision
  import opened Classification
  import opened Reply

  // ----- the recommendation -----

  function Recommended(c: Category, p: real, reply: ModelReply): ActionType {
    match reply
    case Unavailable => FallbackAction(c, p)
    case Reply(action, _) => ParseAction(action)
  }

  function Confidence(p: real, reply: ModelReply): real {
    match reply
    case Unavailable => p
    case Reply(_, confidence) => ParseConfidence(confidence)
  }

  // ----- one analysis -----

  /** What an analysis reads beside the workflow itself, and which of its writes succeed.
      A failed read of the history or the attempts counts as none. */
  datatype Inputs = Inputs(
    failureCode: string, amount: real, history: Option<(nat, nat)>, countFails: bool,
    risk: Option<real>, riskStored: bool, reply: ModelReply,
    predictionStored: bool, decisionStored: bool, updateStored: bool)

  function FeaturesOf(w: World, x: Inputs): Features {
    var (successes, failures) := if x.history.Some? then x.history.value else (0, 0);
    Features(successes, failures, if x.countFails then 1 else |w.attempts| + 1, x.amount)
  }

  function Prediction(sigmoid: Sigmoid, w: World, x: Inputs): real {
    Probability(sigmoid, FeaturesOf(w, x), Classify(x.failureCode))
  }

  /** Four digits, three of them decimals; a larger number makes the insert fail. */
  predicate Fits(confidence: real) {
    -10.0 < Stored(confidence) < 10.0
  }

  function AnalysisOf(sigmoid: Sigmoid, w: World, x: Inputs): Analysis {
    var p := Prediction(sigmoid, w, x);
    var confidence := Confidence(p, x.reply);
    Analysis(if x.riskStored then x.risk else None,
             x.predictionStored,
             if x.decisionStored && Fits(confidence) then Some(Stored(confidence)) else None,
             Recommended(Classify(x.failureCode), p, x.reply),
             x.updateStored)
  }

  /** One call: classify, predict, ask the model or fall back, and write. */
  method AnalyzePayment(store: RecoveryStore, sigmoid: Sigmoid, x: Inputs)
    modifies store
    ensures store.Contents() == Analyze(old(store.Contents()), AnalysisOf(sigmoid, old(store.Contents()), x))
  {
    var successes, failures := 0, 0;
    if x.history.Some? {
      successes, failures := x.history.value.0, x.history.value.1;
    }
    var category := Classify(x.failureCode);
    var attemptCount := if x.countFails then 0 else |store.attempts|;
    var probability := Predict(sigmoid, Features(successes, failures, attemptCount + 1, x.amount), category);
    assert probability == Prediction(sigmoid, store.Contents(), x);
    var action, confidence;
    if x.reply.Unavailable? {
      var fallback := SafeFallback(category, probability);
      action, confidence := fallback.action, fallback.confidence;
    } else {
      action, confidence := ParseAction(x.reply.action), ParseConfidence(x.reply.confidence);
    }
    var stored := if x.decisionStored && Fits(confidence) then Some(Stored(confidence)) else None;
    var fraud := if x.riskStored then x.risk else None;
    store.StoreAnalysis(Analysis(fraud, x.predictionStored, stored, action, x.updateStored));
  }

  /** Facts in, decision out: for a payment whose code is a standard name, in any letter
      case, and without the model, the prediction is that of the category with this very
      name, at one attempt more than are recorded, and the action is its fallback. */
  lemma AnalysisOfNamed(sigmoid: Sigmoid, w: World, x: Inputs, c: Category)
    requires c != UnknownError && ToUpper(x.failureCode) == StandardName(c) && x.reply == Unavailable
    requires !x.countFails && x.history.Some?
    ensures var p := Probability(sigmoid,
                       Features(x.history.value.0, x.history.value.1, |w.attempts| + 1, x.amount), c);
      && Prediction(sigmoid, w, x) == p
      && AnalysisOf(sigmoid, w, x).action == FallbackAction(c, p)
      && (x.decisionStored ==> AnalysisOf(sigmoid, w, x).confidence == Some(Stored(p)))
      && AnalysisOf(sigmoid, w, x).fraud == (if x.riskStored then x.risk else None)
  {
    OwnName(c, x.failureCode);
    StoredFits(Prediction(sigmoid, w, x));
  }

  /** With the model, its action and its confidence are stored instead. */
  lemma AnalysisOfReply(sigmoid: Sigmoid, w: World, x: Inputs, a: ActionType, share: real)
    requires !a.OtherAction? && x.reply.Reply? && ToUpper(x.reply.action) == ActionName(a)
    requires 0.01 < share <= 1.0 && x.reply.confidence in {Number(share), Number(share * 100.0)} && x.decisionStored
    ensures AnalysisOf(sigmoid, w, x).action == a && AnalysisOf(sigmoid, w, x).confidence == Some(Stored(share))
  {
    OwnAction(a, x.reply.action);
    PercentOrShare(share, "");
    var thousandths := StoredIsNearest(share);
  }

  // ----- over a workflow's life -----

  /** Attempts are only ever added. */
  lemma {:induction false} AttemptsGrow(w: World, steps: seq<Step>)
    ensures |w.attempts| <= |Play(w, steps).attempts|
  {
    if steps != [] {
      AttemptsGrow(w, steps[..|steps| - 1]);
    }
  }

  lemma PredictionFalls(sigmoid: Sigmoid, w: World, later: World, x: Inputs)
    requires IsSigmoid(sigmoid) && |w.attempts| <= |later.attempts|
    ensures FLOOR <= Prediction(sigmoid, later, x) <= Prediction(sigmoid, w, x) <= CAP
  {
    PredictIsMonotone(sigmoid, Classify(x.failureCode), FeaturesOf(later, x), FeaturesOf(w, x));
  }

  /** Without the model, a payment that has become too unlikely for the merchant's threshold
      stays so: after any further calls, deaths and analyses, one more analysis on the same
      facts leaves a workflow that the executor does not charge. */
  lemma TooUnlikelyForEver(sigmoid: Sigmoid, w: World, x: Inputs, steps: seq<Step>, e: Env)
    requires IsSigmoid(sigmoid) && x.reply == Unavailable && x.predictionStored && x.decisionStored
    requires ConfidenceRead !in e.faults && Stored(Prediction(sigmoid, w, x)) < e.evalPolicy.confidenceThreshold
    ensures var later := Play(w, steps);
      var analysed := Analyze(later, AnalysisOf(sigmoid, later, x));
      !MayCharge(analysed, e) && Execute(analysed, e).0.calls == analysed.calls
  {
    var later := Play(w, steps);
    var analysed := Analyze(later, AnalysisOf(sigmoid, later, x));
    AttemptsGrow(w, steps);
    PredictionFalls(sigmoid, w, later, x);
    StoredKeepsOrder(Prediction(sigmoid, later, x), Prediction(sigmoid, w, x));
    StoredFits(Prediction(sigmoid, later, x));
    assert StoredConfidence(analysed) == Stored(Prediction(sigmoid, later, x));
    ChargesIff(analysed, e);
  }

  /** Only an analysis that stores its decision changes the confidence that is read. */
  lemma ConfidenceStep(w: World, s: Step)
    requires w.confidences != []
    ensures var w' := Advance(w, s);
      && w'.confidences != []
      && (StoredConfidence(w') == StoredConfidence(w)
          || (s.Analysed? && s.analysis.confidence == Some(StoredConfidence(w'))))
  {
  }

  /** The same over a whole run in which every analysis sees the same facts, whether its
      decision is stored or not: once a stored confidence is below the threshold, all
      later ones are. */
  lemma {:induction false} ConfidenceStaysLow(sigmoid: Sigmoid, w: World, x: Inputs, steps: seq<Step>, threshold: real)
    requires IsSigmoid(sigmoid) && AnalysedAs(sigmoid, w, x, steps)
    requires w.confidences != [] && StoredConfidence(w) < threshold && Stored(Prediction(sigmoid, w, x)) < threshold
    ensures Play(w, steps).confidences != [] && StoredConfidence(Play(w, steps)) < threshold
  {
    if steps != [] {
      var n := |steps| - 1;
      var before := Play(w, steps[..n]);
      assert forall i :: 0 <= i < n ==> steps[..n][..i] == steps[..i];
      ConfidenceStaysLow(sigmoid, w, x, steps[..n], threshold);
      AttemptsGrow(w, steps[..n]);
      PredictionFalls(sigmoid, w, before, x);
      StoredKeepsOrder(Prediction(sigmoid, before, x), Prediction(sigmoid, w, x));
      ConfidenceStep(before, steps[n]);
    }
  }

  /** So the workflow is never charged again at that threshold. */
  lemma StaysTooUnlikely(sigmoid: Sigmoid, w: World, x: Inputs, steps: seq<Step>, e: Env)
    requires IsSigmoid(sigmoid) && AnalysedAs(sigmoid, w, x, steps)
    requires w.confidences != [] && StoredConfidence(w) < e.evalPolicy.confidenceThreshold
    requires Stored(Prediction(sigmoid, w, x)) < e.evalPolicy.confidenceThreshold && ConfidenceRead !in e.faults
    ensures Execute(Play(w, steps), e).0.calls == Play(w, steps).calls
  {
    ConfidenceStaysLow(sigmoid, w, x, steps, e.evalPolicy.confidenceThreshold);
    ChargesIff(Play(w, steps), e);
  }

  /** Each analysis in the run stores the prediction of the same facts, or no confidence. */
  ghost predicate AnalysedAs(sigmoid: Sigmoid, w: World, x: Inputs, steps: seq<Step>) {
    forall i :: 0 <= i < |steps| && steps[i].Analysed? ==>
      steps[i].analysis.confidence in {None, Some(Stored(Prediction(sigmoid, Play(w, steps[..i]), x)))}
  }

  lemma StoredFits(p: real)
    requires FLOOR <= p <= CAP
    ensures Fits(p)
  {
    StoredKeepsOrder(0.0, p);
    StoredKeepsOrder(p, 1.0);
    assert Stored(0.0) == 0.0 && Stored(1.0) == 1.0;
  }

  // ----- fallbacks at the policy -----

  /** Any fallback charges only at or above the merchant's threshold, by the confidence this
      analysis stored, or by the one from before when it stored none. */
  lemma FallbackChargesAboveThreshold(sigmoid: Sigmoid, w: World, x: Inputs, e: Env)
    requires IsSigmoid(sigmoid) && x.reply == Unavailable && ConfidenceRead !in e.faults
    ensures var analysed := Analyze(w, AnalysisOf(sigmoid, w, x));
      Execute(analysed, e).0.calls != analysed.calls ==>
        e.evalPolicy.confidenceThreshold <=
          if x.predictionStored && x.decisionStored then Stored(Prediction(sigmoid, w, x)) else StoredConfidence(w)
  {
    var analysed := Analyze(w, AnalysisOf(sigmoid, w, x));
    StoredFits(Prediction(sigmoid, w, x));
    ChargesIff(analysed, e);
  }

  ghost predicate IsFallbackNoAction(sigmoid: Sigmoid, w: World, x: Inputs) {
    && x.reply == Unavailable && x.predictionStored && x.updateStored
    && FallbackAction(Classify(x.failureCode), Prediction(sigmoid, w, x)) == NoAction
  }

  /** Exactly when a fallback NO_ACTION is charged under a merchant threshold above 0.312,
      as 5/16 is: when its confidence was not stored or cannot be read, and the executor's
      checks let the confidence pass that it finds instead. */
  lemma FallbackNoActionChargesIff(sigmoid: Sigmoid, w: World, x: Inputs, e: Env)
    requires IsSigmoid(sigmoid) && IsFallbackNoAction(sigmoid, w, x) && e.evalPolicy.confidenceThreshold > 0.312
    ensures var analysed := Analyze(w, AnalysisOf(sigmoid, w, x));
      && Chosen(analysed) == NoAction
      && (Execute(analysed, e).0.calls != analysed.calls
          <==> (!x.decisionStored || ConfidenceRead in e.faults) && MayCharge(analysed, e))
  {
    var analysed := Analyze(w, AnalysisOf(sigmoid, w, x));
    StoredFits(Prediction(sigmoid, w, x));
    NoActionConfidence(e.evalPolicy.confidenceThreshold);
    ChargesIff(analysed, e);
  }

  /** It happens: a third attempt at 25000 with no success in the customer's history is a
      fallback NO_ACTION for the logistic function, which is below 5/16 at -0.8. When the
      decision row is not stored, the executor takes 0.85 for it and charges, under the
      default policy and with no failure of its own. */
  lemma UnstoredNoActionIsCharged(sigmoid: Sigmoid) returns (w: World, x: Inputs, e: Env)
    requires sigmoid(-0.8) < 5.0 / 16.0
    ensures IsFallbackNoAction(sigmoid, w, x) && !x.decisionStored
    ensures e.faults == {} && e.policy == e.evalPolicy == DEFAULT_POLICY
    ensures Charges(Analyze(w, AnalysisOf(sigmoid, w, x)), e)
  {
    var failed := Attempt(DelayedRetry, ExecutedAttempt, 1);
    w := World(Scheduled, PaymentFailed, Some(DelayedRetry), 0.0, [], [failed, failed.(number := 2)], [], [], []);
    x := Inputs("LIMIT_EXCEEDED", 25000.0, Some((0, 1)), false, None, false, Unavailable, true, false, true);
    e := Env(true, 25000.0, false, false, DEFAULT_POLICY, DEFAULT_POLICY, false, true, false, {});
    UpperCase("LIMIT_EXCEEDED", "");
    OwnName(LimitExceeded, "LIMIT_EXCEEDED");
    assert Score(FeaturesOf(w, x), LimitExceeded) == -0.8;
    ChargesIff(Analyze(w, AnalysisOf(sigmoid, w, x)), e);
  }
}
