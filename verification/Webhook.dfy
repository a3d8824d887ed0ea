/** The payment webhook: what one delivery's effect transaction writes. Errors of many
    of its statements are ignored; the transaction still takes effect as a whole or
    not at all, because Postgres fails every later statement and the commit. */
module Webhook {
  import opened Prelude
  import opened WorkflowStates
  import opened PolicyEngine
  import opened Executor
  import opened Outbox
  import opened OutboxRelay

  datatype PaymentRow = PaymentRow(
    reference: string, status: PaymentStatus, customer: string, amount: real, failureCode: string)

  datatype Customer = Customer(email: string, phone: string)

  datatype WorkflowRow = WorkflowRow(status: WorkflowState, selected: Option<ActionType>)

  /** The tables the webhook writes, but for the event log and the outbox. Workflows
      are keyed by their payment; customers are those of the first merchant, the only
      one the webhook uses. */
  datatype Db = Db(
    merchants: seq<string>, customers: map<string, Customer>, pastDue: set<string>,
    payments: map<string, PaymentRow>, workflows: map<string, WorkflowRow>,
    outcomes: seq<(string, real)>, processed: set<string>)

  datatype Kind = PaymentFailedEvent | PaymentCapturedEvent | LinkClosed | LinkCreated | Unhandled

  /** One delivery, after its signature was verified and its body parsed. `email` and
      `phone` are the first that its payment, link, invoice and notes give; `origin` is
      the payment it says it is another try of. */
  datatype Delivery = Delivery(
    event: string, kind: Kind, reference: string, linkReference: string, amountPaise: int,
    errorCode: string, errorReason: string, email: string, phone: string, origin: string,
    subscription: Option<string>)

  /** The ids the database gives to new rows. */
  datatype Ids = Ids(merchant: string, customer: string, payment: string, outboxRow: string, createdAt: int)

  /** The rows its lookups find: the payment `origin` names, a customer by email or phone,
      and the payment the event is about. */
  datatype Found = Found(origin: Option<string>, contact: Option<string>, payment: Option<string>)

  function Amount(d: Delivery): real {
    if d.amountPaise == 0 then 1000.00 else d.amountPaise as real / 100.0
  }

  function FailureCode(d: Delivery): string {
    if d.errorCode != "" then d.errorCode
    else if d.errorReason != "" then d.errorReason
    else "GATEWAY_ERROR"
  }

  predicate Matches(p: PaymentRow, d: Delivery) {
    (d.reference != "" && p.reference == d.reference) || (d.linkReference != "" && p.reference == d.linkReference)
  }

  /** The gateway's own placeholder addresses, `void@...` in any case. */
  predicate IsPlaceholder(email: string) {
    |email| >= 5 && email[0] in "vV" && email[1] in "oO" && email[2] in "iI" && email[3] in "dD" && email[4] == '@'
  }

  /** The address customers are looked up by; a created link's is taken as it is. */
  function ContactEmail(d: Delivery): string {
    if d.kind != LinkCreated && IsPlaceholder(d.email) then "" else d.email
  }

  predicate HasContact(d: Delivery) {
    ContactEmail(d) != "" || (d.kind != LinkCreated && d.phone != "")
  }

  predicate IsContactOf(c: Customer, d: Delivery) {
    if ContactEmail(d) != "" then c.email == ContactEmail(d) else HasContact(d) && c.phone == d.phone
  }

  predicate IsOrigin(db: Db, id: string, d: Delivery) {
    && id in db.payments && d.origin != ""
    && (id == d.origin || db.payments[id].reference == d.origin)
    && db.payments[id].customer in db.customers
  }

  ghost predicate IsLookup(db: Db, d: Delivery, found: Found) {
    && (match found.origin
        case Some(id) => IsOrigin(db, id, d)
        case None => forall id :: id in db.payments ==> !IsOrigin(db, id, d))
    && (match found.contact
        case Some(id) => id in db.customers && IsContactOf(db.customers[id], d)
        case None => forall id :: id in db.customers ==> !IsContactOf(db.customers[id], d))
    && (match found.payment
        case Some(id) => id in db.payments && Matches(db.payments[id], d)
        case None => forall id :: id in db.payments ==> !Matches(db.payments[id], d))
  }

  function AnalyzeTask(payment: string): string {
    "recovery:analyze " + payment
  }

  function WithMerchant(db: Db, ids: Ids): Db {
    if db.merchants == [] then db.(merchants := [ids.merchant]) else db
  }

  function ScheduledRow(db: Db, payment: string): WorkflowRow {
    if payment in db.workflows then db.workflows[payment].(status := Scheduled)
    else WorkflowRow(Scheduled, Some(DelayedRetry))
  }

  function TargetPayment(found: Found, ids: Ids): string {
    match found.payment
    case Some(id) => id
    case None => ids.payment
  }

  function NewCustomer(d: Delivery): Customer {
    Customer(if ContactEmail(d) == "" then "cust_" + d.reference + "@revive-os.me" else ContactEmail(d), d.phone)
  }

  /** The customer a delivery is put down to: that of the payment it is another try of,
      else one with its address or number, else a new one. */
  function CustomerOf(db: Db, found: Found, ids: Ids): string {
    if found.origin.Some? && found.origin.value in db.payments then db.payments[found.origin.value].customer
    else if found.contact.Some? then found.contact.value
    else ids.customer
  }

  function WithCustomer(db: Db, d: Delivery, found: Found, ids: Ids): Db {
    if found.origin.Some? || found.contact.Some? then db
    else db.(customers := db.customers[ids.customer := NewCustomer(d)])
  }

  /** All the writes of a `payment.failed` delivery, outside the outbox. */
  function FailedEffects(db: Db, d: Delivery, found: Found, ids: Ids): Db {
    var payment := TargetPayment(found, ids);
    var row := PaymentRow(d.reference, PaymentFailed, CustomerOf(db, found, ids), Amount(d), FailureCode(d));
    WithCustomer(WithMerchant(db, ids), d, found, ids).(
      pastDue := if d.subscription.Some? then db.pastDue + {d.subscription.value} else db.pastDue,
      payments := db.payments[payment := row],
      workflows := db.workflows[payment := ScheduledRow(db, payment)],
      processed := db.processed + {d.event})
  }

  // ----- the transaction, statement by statement -----

  datatype Statement =
    | BeginStatement | MerchantSelect | MerchantInsert | OriginLookup | ContactLookup | CustomerInsert
    | SubscriptionLookup | SubscriptionWrite | PaymentLookup | PaymentUpdate | PaymentInsert
    | WorkflowLookup | WorkflowWrite | OutboxInsert | EventUpdate

  function OpeningStatements(db: Db): set<Statement> {
    {BeginStatement, MerchantSelect} + (if db.merchants == [] then {MerchantInsert} else {})
  }

  function SubscriptionStatements(d: Delivery): set<Statement> {
    if d.subscription.Some? then {SubscriptionLookup, SubscriptionWrite} else {}
  }

  function CustomerStatements(d: Delivery, found: Found): set<Statement> {
    (if d.origin != "" then {OriginLookup} else {})
    + (if found.origin.None? && HasContact(d) then {ContactLookup} else {})
    + (if found.origin.None? && found.contact.None? then {CustomerInsert} else {})
  }

  function PaymentStatements(found: Found): set<Statement> {
    {PaymentLookup, WorkflowLookup, WorkflowWrite} + (if found.payment.Some? then {PaymentUpdate} else {PaymentInsert})
  }

  /** The statements a `payment.failed` transaction comes to before its commit when none
      of them fails. */
  function Statements(db: Db, d: Delivery, found: Found): set<Statement> {
    OpeningStatements(db) + CustomerStatements(d, found) + SubscriptionStatements(d)
    + PaymentStatements(found) + {OutboxInsert, EventUpdate}
  }

  predicate Commits(db: Db, d: Delivery, found: Found, faults: set<Statement>, commit: CommitFault) {
    faults !! Statements(db, d, found) && commit != Rejected
  }

  /** The outbox with the row of a committed delivery. */
  function WithOutboxRow(rows: Table, found: Found, ids: Ids): Table {
    rows[ids.outboxRow := Row(AnalyzeTask(TargetPayment(found, ids)), ids.createdAt, false, 0, None)]
  }

  /** What a delivery leaves in the database and the outbox. */
  function Ingested(db: Db, rows: Table, d: Delivery, found: Found, ids: Ids,
                    faults: set<Statement>, commit: CommitFault): (Db, Table) {
    if Commits(db, d, found, faults, commit)
    then (FailedEffects(db, d, found, ids), WithOutboxRow(rows, found, ids))
    else (db, rows)
  }

  /** The writes in the order of the transaction add up to the effects. */
  lemma WritesInOrder(db: Db, d: Delivery, found: Found, ids: Ids)
    requires IsLookup(db, d, found)
    ensures var merchant := WithMerchant(db, ids);
      var payment := TargetPayment(found, ids);
      var row := PaymentRow(d.reference, PaymentFailed, CustomerOf(merchant, found, ids), Amount(d), FailureCode(d));
      var touched := WithCustomer(merchant, d, found, ids).(
        pastDue := if d.subscription.Some? then db.pastDue + {d.subscription.value} else db.pastDue);
      && IsLookup(merchant, d, found)
      && touched.(
        payments := touched.payments[payment := row],
        workflows := touched.workflows[payment := ScheduledRow(touched, payment)],
        processed := touched.processed + {d.event}) == FailedEffects(db, d, found, ids)
  {
  }

  // ----- what a committed delivery leaves, in its own terms -----

  /** The payment row that a committed failure leaves. */
  lemma StoredPayment(db: Db, rows: Table, d: Delivery, found: Found, ids: Ids,
                      faults: set<Statement>, commit: CommitFault)
    requires d.kind == PaymentFailedEvent && Commits(db, d, found, faults, commit)
    ensures var payment := if found.payment.Some? then found.payment.value else ids.payment;
      var (db', _) := Ingested(db, rows, d, found, ids, faults, commit);
      && payment in db'.payments
      && var row := db'.payments[payment];
      && row.reference == d.reference && row.status == PaymentFailed
      && (d.amountPaise != 0 ==> row.amount * 100.0 == d.amountPaise as real)
      && (d.amountPaise == 0 ==> row.amount == 1000.0)
      && row.failureCode != ""
      && (d.errorCode != "" ==> row.failureCode == d.errorCode)
      && (d.errorCode == "" && d.errorReason != "" ==> row.failureCode == d.errorReason)
      && (d.errorCode == "" == d.errorReason ==> row.failureCode == "GATEWAY_ERROR")
  {
  }

  /** The gateway's placeholder addresses, in any letter case. */
  lemma PlaceholderIff(email: string)
    ensures IsPlaceholder(email) <==> |email| >= 5 && ToUpper(email[..5]) == "VOID@"
  {
    if |email| >= 5 {
      var upper := ToUpper(email[..5]);
      assert upper == "VOID@" <==>
        upper[0] == 'V' && upper[1] == 'O' && upper[2] == 'I' && upper[3] == 'D' && upper[4] == '@';
      assert forall i :: 0 <= i < 5 ==> email[..5][i] == email[i];
    }
  }

  /** Whom a committed failure is put down to: the customer of the payment it is another try
      of, else the one found by its address or number, else a new one with just these, or
      with an address made up from its reference. */
  lemma StoredCustomer(db: Db, rows: Table, d: Delivery, found: Found, ids: Ids,
                       faults: set<Statement>, commit: CommitFault)
    requires d.kind == PaymentFailedEvent && IsLookup(db, d, found) && Commits(db, d, found, faults, commit)
    ensures var payment := if found.payment.Some? then found.payment.value else ids.payment;
      var db' := Ingested(db, rows, d, found, ids, faults, commit).0;
      var customer := db'.payments[payment].customer;
      && (found.origin.Some? ==> customer == db.payments[found.origin.value].customer)
      && (found.origin.None? && found.contact.Some? ==> customer == found.contact.value)
      && (found.origin.Some? || found.contact.Some? ==> db'.customers == db.customers)
      && (found.origin.None? && found.contact.None? ==>
            && customer == ids.customer
            && db'.customers.Keys == db.customers.Keys + {ids.customer}
            && (forall id :: id in db.customers && id != ids.customer ==> db'.customers[id] == db.customers[id])
            && db'.customers[ids.customer].phone == d.phone
            && db'.customers[ids.customer].email ==
                 (if d.email == "" || (|d.email| >= 5 && ToUpper(d.email[..5]) == "VOID@")
                  then "cust_" + d.reference + "@revive-os.me" else d.email))
  {
    PlaceholderIff(d.email);
  }

  /** The rest of what it leaves: a scheduled workflow, which keeps the action it had or
      starts with a delayed retry, a merchant, the subscription past due, the event
      processed, and a pending outbox row that asks to analyse the payment. */
  lemma StoredRest(db: Db, rows: Table, d: Delivery, found: Found, ids: Ids,
                   faults: set<Statement>, commit: CommitFault)
    requires d.kind == PaymentFailedEvent && Commits(db, d, found, faults, commit)
    ensures var payment := if found.payment.Some? then found.payment.value else ids.payment;
      var (db', rows') := Ingested(db, rows, d, found, ids, faults, commit);
      && payment in db'.workflows && db'.workflows[payment].status == Scheduled
      && db'.workflows[payment].selected ==
           (if payment in db.workflows then db.workflows[payment].selected else Some(DelayedRetry))
      && db'.merchants == (if db.merchants == [] then [ids.merchant] else db.merchants)
      && db'.pastDue == db.pastDue + (if d.subscription.Some? then {d.subscription.value} else {})
      && db'.processed == db.processed + {d.event} && db'.outcomes == db.outcomes
      && ids.outboxRow in rows' && !rows'[ids.outboxRow].published && rows'[ids.outboxRow].attempts == 0
      && rows'[ids.outboxRow].event == "recovery:analyze " + payment && rows'[ids.outboxRow].createdAt == ids.createdAt
  {
  }

  /** A task names its payment: no two payments have one. */
  lemma TaskNamesPayment(p: string, q: string)
    requires AnalyzeTask(p) == AnalyzeTask(q)
    ensures p == q
  {
    var n := |"recovery:analyze "|;
    assert AnalyzeTask(p)[n..] == p && AnalyzeTask(q)[n..] == q;
  }

  /** Whom a committed failure is put down to is among the customers afterwards. */
  lemma CustomerIsThere(db: Db, rows: Table, d: Delivery, found: Found, ids: Ids,
                        faults: set<Statement>, commit: CommitFault)
    requires d.kind == PaymentFailedEvent && IsLookup(db, d, found) && Commits(db, d, found, faults, commit)
    ensures var db' := Ingested(db, rows, d, found, ids, faults, commit).0;
      db'.payments[TargetPayment(found, ids)].customer in db'.customers
  {
    StoredCustomer(db, rows, d, found, ids, faults, commit);
  }

  /** A later failure finds the payment this one left by its reference, as its own or as a
      link's, and as the payment it is another try of, by reference or by id. So neither
      is stored twice. */
  lemma LaterDeliveryFindsPayment(db: Db, rows: Table, d: Delivery, found: Found, ids: Ids,
                                  faults: set<Statement>, commit: CommitFault, later: Delivery, foundLater: Found)
    requires d.kind == PaymentFailedEvent == later.kind
    requires IsLookup(db, d, found) && Commits(db, d, found, faults, commit)
    requires IsLookup(Ingested(db, rows, d, found, ids, faults, commit).0, later, foundLater)
    ensures d.reference != "" && d.reference in {later.reference, later.linkReference} ==> foundLater.payment.Some?
    ensures later.origin != "" && later.origin in {d.reference, TargetPayment(found, ids)} ==> foundLater.origin.Some?
  {
    var db' := Ingested(db, rows, d, found, ids, faults, commit).0;
    var payment := TargetPayment(found, ids);
    CustomerIsThere(db, rows, d, found, ids, faults, commit);
    if d.reference != "" && d.reference in {later.reference, later.linkReference} {
      assert Matches(db'.payments[payment], later);
    }
    if later.origin != "" && later.origin in {d.reference, payment} {
      assert IsOrigin(db', payment, later);
    }
  }

  /** A later failure from the same address, or without an address from the same number,
      finds a customer, so none is stored twice. */
  lemma LaterDeliveryFindsCustomer(db: Db, rows: Table, d: Delivery, found: Found, ids: Ids,
                                   faults: set<Statement>, commit: CommitFault, later: Delivery, foundLater: Found)
    requires d.kind == PaymentFailedEvent == later.kind && found.origin.None?
    requires IsLookup(db, d, found) && Commits(db, d, found, faults, commit)
    requires IsLookup(Ingested(db, rows, d, found, ids, faults, commit).0, later, foundLater)
    ensures (later.email == d.email != "" && !(|d.email| >= 5 && ToUpper(d.email[..5]) == "VOID@"))
            ==> foundLater.contact.Some?
    ensures later.email == d.email == "" && later.phone == d.phone != "" ==> foundLater.contact.Some?
  {
    var db' := Ingested(db, rows, d, found, ids, faults, commit).0;
    PlaceholderIff(d.email);
    var customer := if found.contact.Some? then found.contact.value else ids.customer;
    if (later.email == d.email != "" && !IsPlaceholder(d.email))
       || (later.email == d.email == "" && later.phone == d.phone != "") {
      assert customer in db'.customers && IsContactOf(db'.customers[customer], later);
    }
  }

  class WebhookStore {
    var db: Db

    constructor (db: Db)
      ensures this.db == db
    {
      this.db := db;
    }

    /** Begin, and find or make the merchant. A failed select makes the insert fail too. */
    method OpenTransaction(ids: Ids, faults: set<Statement>) returns (ok: bool, work: Db)
      ensures ok <==> faults !! OpeningStatements(db)
      ensures work == if ok then WithMerchant(db, ids) else db
    {
      if BeginStatement in faults { return false, db; }
      var aborted := MerchantSelect in faults;
      if aborted || db.merchants == [] {
        if aborted || MerchantInsert in faults { return false, db; }
        return true, db.(merchants := [ids.merchant]);
      }
      return true, db;
    }

    /** Failures here are ignored and only abort the transaction. */
    method TouchSubscription(work: Db, d: Delivery, faults: set<Statement>) returns (aborted: bool, work': Db)
      ensures aborted <==> !(faults !! SubscriptionStatements(d))
      ensures !aborted ==> work' == work.(
        pastDue := if d.subscription.Some? then work.pastDue + {d.subscription.value} else work.pastDue)
    {
      aborted, work' := false, work;
      if d.subscription.Some? {
        aborted := SubscriptionLookup in faults || SubscriptionWrite in faults;
        if !aborted {
          work' := work.(pastDue := work.pastDue + {d.subscription.value});
        }
      }
    }

    /** Every failure on the way to a customer ends in an insert that fails as well. */
    method ResolveCustomer(work: Db, d: Delivery, found: Found, ids: Ids, faults: set<Statement>)
      returns (ok: bool, work': Db, customer: string)
      requires d.kind == PaymentFailedEvent && IsLookup(work, d, found)
      ensures ok <==> faults !! CustomerStatements(d, found)
      ensures ok ==> work' == WithCustomer(work, d, found, ids) && customer == CustomerOf(work, found, ids)
    {
      var aborted, known := false, None;
      if d.origin != "" {
        if OriginLookup in faults {
          aborted := true;
        } else if found.origin.Some? {
          known := Some(work.payments[found.origin.value].customer);
        }
      }
      if known.Some? { return true, work, known.value; }
      var email := if IsPlaceholder(d.email) then "" else d.email;
      if email != "" || d.phone != "" {
        if aborted || ContactLookup in faults {
          aborted := true;
        } else if found.contact.Some? {
          return true, work, found.contact.value;
        }
      }
      if aborted || CustomerInsert in faults { return false, work, ""; }
      var address := if email == "" then "cust_" + d.reference + "@revive-os.me" else email;
      return true, work.(customers := work.customers[ids.customer := Customer(address, d.phone)]), ids.customer;
    }

    /** The payment and its workflow. Only a failed insert of the payment stops the program;
        any other failure leaves the transaction aborted. */
    method WritePayment(work: Db, d: Delivery, row: PaymentRow, found: Found, ids: Ids,
                        wasAborted: bool, faults: set<Statement>)
      returns (stop: bool, aborted: bool, work': Db, payment: string)
      ensures !stop && !aborted <==> !wasAborted && faults !! PaymentStatements(found)
      ensures !stop && !aborted ==> payment == TargetPayment(found, ids) && work' == work.(
        payments := work.payments[payment := row],
        workflows := work.workflows[payment := ScheduledRow(work, payment)])
    {
      aborted, work', stop := wasAborted || PaymentLookup in faults, work, false;
      // a failed lookup reads as "no such payment"
      var existing := if aborted then None else found.payment;
      payment := ids.payment;
      if existing.Some? {
        payment := existing.value;
        if PaymentUpdate in faults {
          aborted := true;
        } else {
          work' := work'.(payments := work'.payments[payment := row]);
        }
      } else {
        if aborted || PaymentInsert in faults { return true, true, work', payment; }
        work' := work'.(payments := work'.payments[payment := row]);
      }
      aborted := aborted || WorkflowLookup in faults || WorkflowWrite in faults;
      if !aborted {
        work' := work'.(workflows := work'.workflows[payment := ScheduledRow(work', payment)]);
      }
    }

    /** All is written, and the outbox row with it, exactly when no statement fails and the
        commit takes effect; else nothing is. The answer is 200 when the commit is also
        acknowledged, and 500 otherwise. */
    method IngestPaymentFailed(outbox: OutboxStore, d: Delivery, found: Found, ids: Ids,
                               faults: set<Statement>, commit: CommitFault)
      returns (ok: bool)
      requires d.kind == PaymentFailedEvent && IsLookup(db, d, found) && ids.outboxRow !in outbox.rows
      modifies this, outbox
      ensures ok <==> Commits(old(db), d, found, faults, commit) && commit == Acked
      ensures (db, outbox.rows) == Ingested(old(db), old(outbox.rows), d, found, ids, faults, commit)
    {
      WritesInOrder(db, d, found, ids);
      var resolved, work := OpenTransaction(ids, faults);
      if !resolved { return false; }
      var customer, aborted;
      resolved, work, customer := ResolveCustomer(work, d, found, ids, faults);
      if !resolved { return false; }
      aborted, work := TouchSubscription(work, d, faults);
      var row := PaymentRow(d.reference, PaymentFailed, customer, Amount(d), FailureCode(d));
      var stop, payment;
      stop, aborted, work, payment := WritePayment(work, d, row, found, ids, aborted, faults);
      if stop || aborted || OutboxInsert in faults { return false; }
      var rows := outbox.rows[ids.outboxRow := Row(AnalyzeTask(payment), ids.createdAt, false, 0, None)];
      // event log: failures are ignored
      if EventUpdate in faults {
        aborted := true;
      } else {
        work := work.(processed := work.processed + {d.event});
      }
      if aborted || commit == Rejected { return false; }
      db := work;
      outbox.rows := rows;
      return commit == Acked;
    }
  }
}
