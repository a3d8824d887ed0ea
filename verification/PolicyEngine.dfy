/** The merchant's safety policy: the ordered guards of `Engine.Evaluate`. */
module PolicyEngine {
  import opened Prelude

  datatype ActionType =
    | ImmediateRetry | DelayedRetry | PaymentMethodUpdate | PaymentLink
    | CustomerNotification | Escalation | NoAction | OtherAction(name: string)

  predicate IsContact(a: ActionType) {
    a == CustomerNotification || a == PaymentLink
  }

  predicate IsOnceOnly(a: ActionType) {
    a == PaymentMethodUpdate || a == PaymentLink
  }

  datatype Policy = Policy(
    maxRetries: int, maxContacts: int, confidenceThreshold: real, amountThreshold: real)

  const DEFAULT_POLICY := Policy(3, 2, 0.70, 50000.0)
  const FRAUD_LIMIT := 0.70

  /** The policies table by merchant. A merchant without a row gets the defaults, which
      are then stored; a failed read also gives the defaults. */
  class PolicyTable {
    var rows: map<string, Policy>

    constructor ()
      ensures rows == map[]
    {
      rows := map[];
    }

    /** A failed read is taken for a missing row; the insert's failure is ignored. */
    method GetMerchantPolicy(merchant: string, readFails: bool, insertFails: bool) returns (policy: Policy)
      modifies this
      ensures policy ==
        if merchant in old(rows) && merchant != "" && !readFails then old(rows)[merchant]
        else Policy(3, 2, 0.70, 50000.0)
      ensures rows == if merchant == "" || merchant in old(rows) || insertFails then old(rows)
                      else old(rows)[merchant := Policy(3, 2, 0.70, 50000.0)]
    {
      policy := DEFAULT_POLICY;
      if merchant == "" { return; }
      if merchant in rows && !readFails {
        policy := rows[merchant];
      } else if merchant !in rows && !insertFails {
        rows := rows[merchant := policy];
      }
    }
  }

  /** What one evaluation reads. A database read that fails is `None`, and its check is skipped. */
  datatype Request = Request(
    policy: Policy, optOut: Option<bool>, fraud: Option<real>, failedPayments: int, attemptNumber: int,
    duplicates: Option<nat>, action: ActionType, confidence: real, amount: real)

  datatype Reason = OptedOut | FraudRisk | RetryLimit | DuplicateAction | LowConfidence | HighValue

  datatype Decision =
    | Allow | Modify(action: ActionType, delayHours: nat) | Block(reason: Reason) | Escalate(reason: Reason)

  function Evaluate(q: Request): Decision {
    if q.optOut == Some(true) && IsContact(q.action) then Block(OptedOut)
    else if q.fraud.Some? && q.fraud.value >= FRAUD_LIMIT then Escalate(FraudRisk)
    else if q.failedPayments >= q.policy.maxRetries || q.attemptNumber > q.policy.maxRetries then Block(RetryLimit)
    else if q.duplicates.Some? && q.duplicates.value > 0 && IsOnceOnly(q.action) then Block(DuplicateAction)
    else if q.confidence < q.policy.confidenceThreshold then Escalate(LowConfidence)
    else if q.amount > q.policy.amountThreshold then Escalate(HighValue)
    else if q.action == ImmediateRetry && q.attemptNumber > 1 then Modify(DelayedRetry, 24)
    else Allow
  }

  /** The action to carry out after a verdict that lets execution go on. */
  function ActionAfter(d: Decision, a: ActionType): ActionType {
    match d
    case Modify(modified, _) => modified
    case _ => a
  }

  /** The order of the guards decides the verdict's name but not whether execution may
      go on: it may exactly when every limit is met at once. */
  lemma MayProceedIff(q: Request)
    ensures Evaluate(q).Allow? || Evaluate(q).Modify? <==>
      && (q.optOut == Some(true) ==> !IsContact(q.action))
      && (q.fraud.Some? ==> q.fraud.value < FRAUD_LIMIT)
      && q.failedPayments < q.policy.maxRetries && q.attemptNumber <= q.policy.maxRetries
      && (q.duplicates.Some? && q.duplicates.value > 0 ==> !IsOnceOnly(q.action))
      && q.policy.confidenceThreshold <= q.confidence
      && q.amount <= q.policy.amountThreshold
  {
  }

  /** Who stops what, and for which reason: an opted-out contact, a used-up retry limit and
      a repeated one-time action are blocked; a fraud score of 0.70, too little confidence
      and too much money go to a human. Fraud comes before the limit, and both before
      confidence and amount; the opt-out comes first. */
  lemma VerdictIff(q: Request)
    ensures var contact := q.optOut == Some(true) && q.action in {CustomerNotification, PaymentLink};
      var fraud := q.fraud.Some? && 0.70 <= q.fraud.value;
      var spent := q.policy.maxRetries <= q.failedPayments || q.policy.maxRetries < q.attemptNumber;
      var repeated := q.duplicates.Some? && q.duplicates.value != 0 && q.action in {PaymentMethodUpdate, PaymentLink};
      var early := contact || fraud || spent || repeated;
      var verdict := Evaluate(q);
      && (verdict == Block(OptedOut) <==> contact)
      && (verdict == Escalate(FraudRisk) <==> fraud && !contact)
      && (verdict == Block(RetryLimit) <==> spent && !contact && !fraud)
      && (verdict == Block(DuplicateAction) <==> repeated && !contact && !fraud && !spent)
      && (verdict == Escalate(LowConfidence) <==> !early && q.confidence < q.policy.confidenceThreshold)
      && (verdict == Escalate(HighValue) <==>
            !early && q.policy.confidenceThreshold <= q.confidence && q.policy.amountThreshold < q.amount)
      && (verdict.Block? ==> verdict.reason in {OptedOut, RetryLimit, DuplicateAction})
      && (verdict.Escalate? ==> verdict.reason in {FraudRisk, LowConfidence, HighValue})
      && (verdict.Modify? <==>
            !verdict.Block? && !verdict.Escalate? && q.action == ImmediateRetry && 1 < q.attemptNumber)
      && (verdict.Modify? ==> verdict == Modify(DelayedRetry, 24) && ActionAfter(verdict, q.action) == DelayedRetry)
      && (!verdict.Modify? ==> ActionAfter(verdict, q.action) == q.action)
  {
  }
}
