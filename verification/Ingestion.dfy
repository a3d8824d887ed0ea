/** From webhook delivery to accepted task: deliveries are deduplicated by event id in
    one statement and take effect in a later transaction; the outbox rows those
    transactions commit are relayed by `Outbox`. All of it interleaves. */
module Ingestion {
  import opened Prelude
  import opened WorkflowStates
  import opened PolicyEngine
  import opened Executor
  import Outbox
  import OutboxDelivery
  import opened Webhook

  /** One committed effect transaction: whose event it was, the payment it wrote, and
      the outbox row it inserted if it was a failure. */
  datatype Effect = Effect(event: string, payment: string, row: Option<string>)

  /** `seen` are the event ids in the event log; `handlers` are the deliveries whose
      insert there succeeded and whose effect transaction is still to come. */
  datatype State = State(
    seen: set<string>, handlers: map<nat, Delivery>, db: Db, effects: seq<Effect>, outbox: Outbox.State)

  datatype Action =
    | Receive(handler: nat, delivery: Delivery, insertFails: bool)
    | TakeEffect(handler: nat, found: Found, ids: Ids)
    | Abandon(handler: nat)
    | OtherProducer(row: string, event: string, createdAt: int)
    | RelayStep(action: Outbox.Action)
    | OtherWriter(db: Db)

  ghost function Start(db: Db): State {
    State({}, map[], db, [], Outbox.INIT)
  }

  function CapturedEffects(db: Db, d: Delivery, found: Found): Db {
    match found.payment
    case None => db.(processed := db.processed + {d.event})
    case Some(id) =>
      if id !in db.payments then db
      else db.(payments := db.payments[id := db.payments[id].(status := PaymentCaptured)],
               workflows := if id in db.workflows then db.workflows[id := db.workflows[id].(status := Recovered)]
                            else db.workflows,
               outcomes := db.outcomes + [(id, d.amountPaise as real / 100.0)],
               processed := db.processed + {d.event})
  }

  function ClosedEffects(db: Db, d: Delivery, found: Found): Db {
    match found.payment
    case None => db.(processed := db.processed + {d.event})
    case Some(id) =>
      if id !in db.payments then db
      else db.(payments := db.payments[id := db.payments[id].(status := OtherStatus("CANCELLED"))],
               workflows := if id in db.workflows then db.workflows[id := db.workflows[id].(status := Halted)]
                            else db.workflows,
               processed := db.processed + {d.event})
  }

  function CreatedEffects(db: Db, d: Delivery, found: Found, ids: Ids): Db {
    var id := TargetPayment(found, ids);
    var customer := if found.contact.Some? then found.contact.value else ids.customer;
    var row := PaymentRow(d.reference, OtherStatus("PENDING"), customer, d.amountPaise as real / 100.0, "");
    WithMerchant(db, ids).(
      customers := if found.contact.Some? then db.customers else db.customers[ids.customer := NewCustomer(d)],
      payments := if found.payment.Some? then db.payments else db.payments[id := row],
      workflows := if id in db.workflows then db.workflows
                   else db.workflows[id := WorkflowRow(Scheduled, Some(PaymentLink))],
      processed := db.processed + {d.event})
  }

  /** The effect transaction of each kind of event, committed as a whole. */
  function AfterEffect(db: Db, d: Delivery, found: Found, ids: Ids): Db {
    match d.kind
    case PaymentFailedEvent => FailedEffects(db, d, found, ids)
    case PaymentCapturedEvent => CapturedEffects(db, d, found)
    case LinkClosed => ClosedEffects(db, d, found)
    case LinkCreated => CreatedEffects(db, d, found, ids)
    case Unhandled => db
  }

  /** Unhandled events have no effect transaction, nor has an event without the payment
      or link id it is about, a capture excepted. */
  predicate HasEffect(d: Delivery) {
    d.kind == PaymentCapturedEvent || (d.kind != Unhandled && d.reference != "")
  }

  ghost function Apply(s: State, a: Action): Option<State> {
    match a
    case Receive(h, d, insertFails) =>
      if h in s.handlers then None
      else if insertFails || d.event in s.seen then Some(s)     // answered as a duplicate
      else Some(s.(seen := s.seen + {d.event}, handlers := s.handlers[h := d]))
    case TakeEffect(h, found, ids) =>
      if h !in s.handlers || !HasEffect(s.handlers[h]) || !IsLookup(s.db, s.handlers[h], found) then None
      else
        var d := s.handlers[h];
        var payment := TargetPayment(found, ids);
        var done := s.(handlers := s.handlers - {h}, db := AfterEffect(s.db, d, found, ids));
        if d.kind != PaymentFailedEvent then
          Some(done.(effects := s.effects + [Effect(d.event, payment, None)]))
        else
          (match Outbox.Apply(s.outbox, Outbox.Insert(ids.outboxRow, AnalyzeTask(payment), ids.createdAt))
           case None => None
           case Some(outbox) =>
             Some(done.(effects := s.effects + [Effect(d.event, payment, Some(ids.outboxRow))], outbox := outbox)))
    case Abandon(h) =>
      if h !in s.handlers then None else Some(s.(handlers := s.handlers - {h}))
    case OtherProducer(row, event, createdAt) =>
      (match Outbox.Apply(s.outbox, Outbox.Insert(row, event, createdAt))
       case None => None
       case Some(outbox) => Some(s.(outbox := outbox)))
    case RelayStep(action) =>
      if action.Insert? then None
      else
        (match Outbox.Apply(s.outbox, action)
         case None => None
         case Some(outbox) => Some(s.(outbox := outbox)))
    case OtherWriter(db) => Some(s.(db := db))
  }

  ghost function Run(s: State, acts: seq<Action>): Option<State> {
    if acts == [] then Some(s)
    else
      match Run(s, acts[..|acts| - 1])
      case None => None
      case Some(mid) => Apply(mid, acts[|acts| - 1])
  }

  // ----- counting effects -----

  /** Every seen event is at one place: with one handler, in one effect, or lost. */
  ghost predicate DedupInv(seen: set<string>, handlers: map<nat, Delivery>, effects: seq<Effect>) {
    && (forall h :: h in handlers ==> handlers[h].event in seen)
    && (forall g, h :: g in handlers && h in handlers && g != h ==> handlers[g].event != handlers[h].event)
    && (forall i :: 0 <= i < |effects| ==> effects[i].event in seen)
    && (forall i, h :: 0 <= i < |effects| && h in handlers ==> effects[i].event != handlers[h].event)
    && (forall i, j :: 0 <= i < j < |effects| ==> effects[i].event != effects[j].event)
  }

  /** The effect's row is in the outbox and asks to analyse the effect's payment. */
  ghost predicate RowOf(t: Outbox.Table, e: Effect) {
    e.row.Some? ==> e.row.value in t && t[e.row.value].event == AnalyzeTask(e.payment)
  }

  ghost predicate RowsInv(t: Outbox.Table, effects: seq<Effect>) {
    && (forall i :: 0 <= i < |effects| ==> RowOf(t, effects[i]))
    && (forall i, j :: 0 <= i < j < |effects| && effects[i].row.Some? ==> effects[i].row != effects[j].row)
  }

  ghost predicate Inv(s: State) {
    && Outbox.Inv(s.outbox)
    && DedupInv(s.seen, s.handlers, s.effects)
    && RowsInv(s.outbox.table, s.effects)
  }

  lemma RowsSurvive(t: Outbox.Table, t': Outbox.Table, effects: seq<Effect>)
    requires RowsInv(t, effects) && Outbox.KeepsRows(t, t')
    ensures RowsInv(t', effects)
  {
    forall i | 0 <= i < |effects| ensures RowOf(t', effects[i]) {
      assert RowOf(t, effects[i]);
    }
  }

  lemma EffectAdded(t: Outbox.Table, t': Outbox.Table, effects: seq<Effect>, e: Effect)
    requires RowsInv(t, effects) && Outbox.KeepsRows(t, t') && RowOf(t', e)
    requires e.row.Some? ==> e.row.value !in t
    ensures RowsInv(t', effects + [e])
  {
    RowsSurvive(t, t', effects);
    forall i | 0 <= i < |effects| && effects[i].row.Some? ensures effects[i].row != e.row {
      assert RowOf(t, effects[i]);
    }
  }

  lemma HandlerDone(seen: set<string>, handlers: map<nat, Delivery>, effects: seq<Effect>, h: nat, e: Effect)
    requires DedupInv(seen, handlers, effects) && h in handlers && e.event == handlers[h].event
    ensures DedupInv(seen, handlers - {h}, effects + [e])
  {
  }

  lemma EffectKeepsInv(s: State, h: nat, found: Found, ids: Ids)
    requires Inv(s) && Apply(s, TakeEffect(h, found, ids)).Some?
    ensures Inv(Apply(s, TakeEffect(h, found, ids)).value)
  {
    var d, payment := s.handlers[h], TargetPayment(found, ids);
    var row := if d.kind == PaymentFailedEvent then Some(ids.outboxRow) else None;
    var e := Effect(d.event, payment, row);
    HandlerDone(s.seen, s.handlers, s.effects, h, e);
    if d.kind == PaymentFailedEvent {
      Outbox.StepKeepsRows(s.outbox, Outbox.Insert(ids.outboxRow, AnalyzeTask(payment), ids.createdAt));
      Outbox.StepKeepsInv(s.outbox, Outbox.Insert(ids.outboxRow, AnalyzeTask(payment), ids.createdAt));
    }
    EffectAdded(s.outbox.table, Apply(s, TakeEffect(h, found, ids)).value.outbox.table, s.effects, e);
  }

  lemma StepKeepsInv(s: State, a: Action)
    requires Inv(s) && Apply(s, a).Some?
    ensures Inv(Apply(s, a).value)
  {
    var s' := Apply(s, a).value;
    match a {
      case TakeEffect(h, found, ids) =>
        EffectKeepsInv(s, h, found, ids);
      case OtherProducer(row, event, createdAt) =>
        Outbox.StepKeepsRows(s.outbox, Outbox.Insert(row, event, createdAt));
        Outbox.StepKeepsInv(s.outbox, Outbox.Insert(row, event, createdAt));
        RowsSurvive(s.outbox.table, s'.outbox.table, s.effects);
      case RelayStep(action) =>
        Outbox.StepKeepsRows(s.outbox, action);
        Outbox.StepKeepsInv(s.outbox, action);
        RowsSurvive(s.outbox.table, s'.outbox.table, s.effects);
      case _ =>
    }
  }

  lemma {:induction false} RunKeepsInv(db: Db, acts: seq<Action>)
    requires Run(Start(db), acts).Some?
    ensures Inv(Run(Start(db), acts).value)
  {
    if acts == [] {
      Outbox.InitInv();
    } else {
      RunKeepsInv(db, acts[..|acts| - 1]);
      StepKeepsInv(Run(Start(db), acts[..|acts| - 1]).value, acts[|acts| - 1]);
    }
  }

  /** The tasks the queue may have accepted for an event: those of its effects' rows. */
  ghost function RowsOf(s: State, event: string): set<string> {
    set i | 0 <= i < |s.effects| && s.effects[i].event == event && s.effects[i].row.Some? :: s.effects[i].row.value
  }

  /** End to end, for deliveries in any order and repetition, and whatever fails: an
      event takes effect at most once, yields at most one outbox row, which asks to
      analyse the payment written in the same transaction, and the queue holds at
      most one accepted task for it while it remembers the id. */
  lemma EndToEnd(db: Db, acts: seq<Action>, event: string)
    requires Run(Start(db), acts).Some?
    ensures var s := Run(Start(db), acts).value;
      && (forall i, j :: 0 <= i < j < |s.effects| ==> !(s.effects[i].event == event == s.effects[j].event))
      && |RowsOf(s, event)| <= 1
      && (forall i :: 0 <= i < |s.effects| ==> RowOf(s.outbox.table, s.effects[i]))
      && (forall row :: row in RowsOf(s, event) ==>
            && 0 <= Outbox.Accepts(s.outbox.queue, row) - Outbox.Forgets(s.outbox.queue, row) <= 1
            && (Outbox.Pending(s.outbox.table, row) || Outbox.Delivered(s.outbox.table, s.outbox.queue, row)))
  {
    RunKeepsInv(db, acts);
    var s := Run(Start(db), acts).value;
    var rows := RowsOf(s, event);
    if row :| row in rows {
      assert rows == {row};
    }
    forall row | row in rows
      ensures 0 <= Outbox.Accepts(s.outbox.queue, row) - Outbox.Forgets(s.outbox.queue, row) <= 1
      ensures Outbox.Pending(s.outbox.table, row) || Outbox.Delivered(s.outbox.table, s.outbox.queue, row)
    {
      var i :| 0 <= i < |s.effects| && s.effects[i].event == event && s.effects[i].row == Some(row);
      assert RowOf(s.outbox.table, s.effects[i]);
      assert row !in Outbox.PublishedIds(s.outbox.table) ==> Outbox.Pending(s.outbox.table, row);
    }
  }

  // ----- what a committed failure leaves -----

  /** A failure's outbox row commits together with its payment FAILED and its workflow
      SCHEDULED, and with nothing else of these; no other kind inserts a row. */
  lemma RowComesWithItsWrites(s: State, h: nat, found: Found, ids: Ids)
    requires Apply(s, TakeEffect(h, found, ids)).Some?
    ensures var s' := Apply(s, TakeEffect(h, found, ids)).value;
      var payment := TargetPayment(found, ids);
      if s.handlers[h].kind == PaymentFailedEvent
      then s'.outbox.table.Keys == s.outbox.table.Keys + {ids.outboxRow} && ids.outboxRow !in s.outbox.table
           && payment in s'.db.payments && s'.db.payments[payment].status == PaymentFailed
           && payment in s'.db.workflows && s'.db.workflows[payment].status == Scheduled
           && (forall p :: p != payment ==>
                 && (p in s'.db.payments <==> p in s.db.payments)
                 && (p in s.db.payments ==> s'.db.payments[p] == s.db.payments[p])
                 && (p in s'.db.workflows <==> p in s.db.workflows)
                 && (p in s.db.workflows ==> s'.db.workflows[p] == s.db.workflows[p]))
      else s'.outbox == s.outbox
  {
  }

  ghost function EffectRows(effects: seq<Effect>): set<string> {
    set i | 0 <= i < |effects| && effects[i].row.Some? :: effects[i].row.value
  }

  function Produced(acts: seq<Action>): set<string> {
    if acts == [] then {}
    else
      Produced(acts[..|acts| - 1]) + ProducedRow(acts[|acts| - 1])
  }

  lemma EffectRowsSnoc(effects: seq<Effect>, e: Effect)
    ensures EffectRows(effects + [e]) == EffectRows(effects) + if e.row.Some? then {e.row.value} else {}
  {
    forall x | x in EffectRows(effects) ensures x in EffectRows(effects + [e]) {
      var i :| 0 <= i < |effects| && effects[i].row == Some(x);
      assert (effects + [e])[i].row == Some(x);
    }
    if e.row.Some? { assert (effects + [e])[|effects|].row == e.row; }
  }

  ghost function EffectRow(s: State, a: Action): set<string> {
    if a.TakeEffect? && a.handler in s.handlers && s.handlers[a.handler].kind == PaymentFailedEvent
    then {a.ids.outboxRow} else {}
  }

  function ProducedRow(a: Action): set<string> {
    if a.OtherProducer? then {a.row} else {}
  }

  lemma StepRows(s: State, a: Action)
    requires Inv(s) && Apply(s, a).Some?
    ensures var s' := Apply(s, a).value;
      && s'.outbox.table.Keys == s.outbox.table.Keys + EffectRow(s, a) + ProducedRow(a)
      && EffectRows(s'.effects) == EffectRows(s.effects) + EffectRow(s, a)
  {
    var s' := Apply(s, a).value;
    match a {
      case TakeEffect(h, found, ids) =>
        EffectRowsSnoc(s.effects, s'.effects[|s.effects|]);
      case RelayStep(action) => Outbox.StepKeepsKeys(s.outbox, action);
      case _ =>
    }
  }

  lemma OneMoreRow(s: State, a: Action, produced: set<string>)
    requires Inv(s) && Apply(s, a).Some? && s.outbox.table.Keys == EffectRows(s.effects) + produced
    ensures var s' := Apply(s, a).value;
      s'.outbox.table.Keys == EffectRows(s'.effects) + (produced + ProducedRow(a))
  {
    StepRows(s, a);
  }

  lemma NoRows(db: Db)
    ensures Start(db).outbox.table.Keys == {} && EffectRows(Start(db).effects) == {}
  {
  }

  /** Over any run, the outbox holds exactly the rows of committed failures and those that
      other producers inserted: no row without its effect, no such effect without its row. */
  lemma {:induction false} RowsAreEffects(db: Db, acts: seq<Action>)
    requires Run(Start(db), acts).Some?
    ensures var s := Run(Start(db), acts).value;
      s.outbox.table.Keys == EffectRows(s.effects) + Produced(acts)
  {
    if acts == [] {
      NoRows(db);
    } else {
      var before := acts[..|acts| - 1];
      RowsAreEffects(db, before);
      RunKeepsInv(db, before);
      OneMoreRow(Run(Start(db), before).value, acts[|acts| - 1], Produced(before));
    }
  }

  /** `IngestPaymentFailed` is one step of this protocol: what it leaves is what taking
      effect leaves when it commits, acknowledged or not, and what a handler that gives
      up leaves otherwise. */
  lemma IngestIsAStep(s: State, h: nat, found: Found, ids: Ids, faults: set<Statement>, commit: CommitFault)
    requires h in s.handlers && s.handlers[h].kind == PaymentFailedEvent && s.handlers[h].reference != ""
    requires IsLookup(s.db, s.handlers[h], found) && ids.outboxRow !in s.outbox.table
    ensures var d := s.handlers[h];
      var after := Apply(s, if Commits(s.db, d, found, faults, commit) then TakeEffect(h, found, ids) else Abandon(h));
      after.Some? && (after.value.db, after.value.outbox.table)
                     == Ingested(s.db, s.outbox.table, d, found, ids, faults, commit)
  {
  }

  /** Every effect that has a row was one step of the run: before it the row was not there,
      and after it the row stands beside the payment FAILED and the workflow SCHEDULED. */
  lemma {:induction false} CommittedTogether(db: Db, acts: seq<Action>, j: nat) returns (n: nat)
    requires Run(Start(db), acts).Some? && j < |Run(Start(db), acts).value.effects|
    ensures n < |acts| && Run(Start(db), acts[..n]).Some? && Run(Start(db), acts[..n + 1]).Some?
    ensures var e := Run(Start(db), acts).value.effects[j];
      var before, after := Run(Start(db), acts[..n]).value, Run(Start(db), acts[..n + 1]).value;
      e.row.Some? ==> IsCommittedBy(before, after, e)
  {
    var m := |acts| - 1;
    var before := Run(Start(db), acts[..m]).value;
    var s := Run(Start(db), acts).value;
    if j < |before.effects| {
      EffectsStay(before, acts[m], j);
      n := CommittedTogether(db, acts[..m], j);
      assert acts[..m][..n] == acts[..n] && acts[..m][..n + 1] == acts[..n + 1];
    } else {
      n := m;
      assert acts[..m + 1] == acts;
      NewEffect(before, acts[m], j);
    }
  }

  ghost predicate IsCommittedBy(before: State, after: State, e: Effect)
    requires e.row.Some?
  {
    && e.row.value !in before.outbox.table && e.row.value in after.outbox.table
    && e.payment in after.db.payments && after.db.payments[e.payment].status == PaymentFailed
    && e.payment in after.db.workflows && after.db.workflows[e.payment].status == Scheduled
  }

  lemma EffectsStay(s: State, a: Action, j: nat)
    requires Apply(s, a).Some? && j < |s.effects|
    ensures j < |Apply(s, a).value.effects| && Apply(s, a).value.effects[j] == s.effects[j]
  {
  }

  lemma NewEffect(s: State, a: Action, j: nat)
    requires Apply(s, a).Some? && |s.effects| <= j < |Apply(s, a).value.effects|
    ensures var e := Apply(s, a).value.effects[j];
      e.row.Some? ==> IsCommittedBy(s, Apply(s, a).value, e)
  {
    RowComesWithItsWrites(s, a.handler, a.found, a.ids);
  }

  // ----- the relay's part of a run -----

  /** The outbox steps a step of ingestion comes to. */
  ghost function OutboxSteps(s: State, a: Action): seq<Outbox.Action> {
    match a
    case TakeEffect(h, found, ids) =>
      if h in s.handlers && s.handlers[h].kind == PaymentFailedEvent
      then [Outbox.Insert(ids.outboxRow, AnalyzeTask(TargetPayment(found, ids)), ids.createdAt)] else []
    case OtherProducer(row, event, createdAt) => [Outbox.Insert(row, event, createdAt)]
    case RelayStep(action) => [action]
    case _ => []
  }

  ghost function OutboxActs(db: Db, acts: seq<Action>): seq<Outbox.Action>
    requires Run(Start(db), acts).Some?
  {
    if acts == [] then []
    else
      var before := acts[..|acts| - 1];
      OutboxActs(db, before) + OutboxSteps(Run(Start(db), before).value, acts[|acts| - 1])
  }

  lemma OutboxStep(s: State, a: Action, outboxActs: seq<Outbox.Action>)
    requires Apply(s, a).Some? && Outbox.Run(Outbox.INIT, outboxActs) == Some(s.outbox)
    ensures Outbox.Run(Outbox.INIT, outboxActs + OutboxSteps(s, a)) == Some(Apply(s, a).value.outbox)
  {
    var steps := OutboxSteps(s, a);
    if steps == [] {
      assert outboxActs + steps == outboxActs;
    } else {
      Outbox.RunSnoc(Outbox.INIT, outboxActs, steps[0]);
      assert steps == [steps[0]];
    }
  }

  /** The outbox of an ingestion run is reached by a run of the relay's protocol, so all that
      holds there of reachable states holds here. */
  lemma {:induction false} OutboxIsReachable(db: Db, acts: seq<Action>)
    requires Run(Start(db), acts).Some?
    ensures Outbox.Run(Outbox.INIT, OutboxActs(db, acts)) == Some(Run(Start(db), acts).value.outbox)
    ensures Outbox.Reachable(Run(Start(db), acts).value.outbox)
  {
    if acts == [] {
      assert Outbox.Run(Outbox.INIT, []) == Some(Outbox.INIT);
    } else {
      var before := acts[..|acts| - 1];
      OutboxIsReachable(db, before);
      OutboxStep(Run(Start(db), before).value, acts[|acts| - 1], OutboxActs(db, before));
    }
  }

  /** Task ids are forgotten only after their rows are settled. */
  ghost predicate IsPatient(db: Db, acts: seq<Action>)
    requires Run(Start(db), acts).Some?
  {
    && Outbox.Run(Outbox.INIT, OutboxActs(db, acts)).Some?
    && OutboxDelivery.Patient(Outbox.INIT, OutboxActs(db, acts))
  }

  /** From delivery to task, exactly once: when task ids are forgotten only after their rows
      are settled, an event's task is accepted at most once over the whole run, however
      often the event is delivered, and exactly once when its row is published. */
  lemma ExactlyOnceEndToEnd(db: Db, acts: seq<Action>, event: string)
    requires Run(Start(db), acts).Some? && IsPatient(db, acts)
    ensures var s := Run(Start(db), acts).value;
      && |RowsOf(s, event)| <= 1
      && forall row :: row in RowsOf(s, event) ==>
           && Outbox.Accepts(s.outbox.queue, row) <= 1
           && (row in Outbox.PublishedIds(s.outbox.table) ==> Outbox.Accepts(s.outbox.queue, row) == 1)
  {
    EndToEnd(db, acts, event);
    OutboxIsReachable(db, acts);
    OutboxDelivery.ExactlyOnceWithRetention(OutboxActs(db, acts));
  }

  /** And only then: for an event with a remembered task, forgetting its id can lead to a
      second acceptance if and only if its row is not settled. */
  lemma EventDuplicateIff(db: Db, acts: seq<Action>, event: string, row: string)
    requires Run(Start(db), acts).Some? && row in RowsOf(Run(Start(db), acts).value, event)
    requires Outbox.TaskId(row) in Run(Start(db), acts).value.outbox.queue.remembered
    ensures var s := Run(Start(db), acts).value.outbox;
      var forgotten := Outbox.Apply(s, Outbox.Forget(Outbox.TaskId(row))).value;
      (exists more :: Outbox.Run(forgotten, more).Some?
                      && Outbox.Accepts(Outbox.Run(forgotten, more).value.queue, row) > Outbox.Accepts(s.queue, row))
      <==> !OutboxDelivery.Settled(s, row)
  {
    OutboxIsReachable(db, acts);
    OutboxDelivery.DuplicateIffUnsettled(Run(Start(db), acts).value.outbox, row);
  }

  /** Storing an event is what makes it a duplicate: one whose insert failed leaves nothing and
      is taken up when it is delivered again, and one that is stored is never taken up. */
  lemma TakenUpIff(s: State, h: nat, d: Delivery, insertFails: bool)
    requires h !in s.handlers
    ensures var s' := Apply(s, Receive(h, d, insertFails)).value;
      && (h in s'.handlers <==> d.event !in s.seen && !insertFails)
      && (h in s'.handlers ==> s'.handlers[h] == d && s'.seen == s.seen + {d.event})
      && (h !in s'.handlers ==> s' == s)
  {
  }

  // ----- what the other kinds of events leave -----

  /** Which received events take effect: a capture always, failures and links only with the
      id they are about, and no others. */
  lemma TakesEffectIff(s: State, h: nat, found: Found, ids: Ids)
    requires h in s.handlers && IsLookup(s.db, s.handlers[h], found) && ids.outboxRow !in s.outbox.table
    ensures var d := s.handlers[h];
      Apply(s, TakeEffect(h, found, ids)).Some? <==>
        d.kind == PaymentCapturedEvent || (d.kind in {PaymentFailedEvent, LinkClosed, LinkCreated} && d.reference != "")
  {
  }

  /** A capture marks the payment it finds, recovers its workflow and counts the amount in
      rupees once; without a payment it only closes the event. */
  lemma CaptureLeaves(db: Db, d: Delivery, found: Found, ids: Ids)
    requires d.kind == PaymentCapturedEvent && IsLookup(db, d, found)
    ensures var db' := AfterEffect(db, d, found, ids);
      && db'.processed == db.processed + {d.event} && db'.customers == db.customers
      && db'.payments.Keys == db.payments.Keys && db'.workflows.Keys == db.workflows.Keys
      && (forall p :: p in db.payments && found.payment != Some(p) ==> db'.payments[p] == db.payments[p])
      && (forall p :: p in db.workflows && found.payment != Some(p) ==> db'.workflows[p] == db.workflows[p])
      && (found.payment.None? ==> db'.outcomes == db.outcomes)
      && (found.payment.Some? ==>
            && db'.payments[found.payment.value] == db.payments[found.payment.value].(status := PaymentCaptured)
            && (found.payment.value in db.workflows ==> db'.workflows[found.payment.value].status == Recovered)
            && |db'.outcomes| == |db.outcomes| + 1 && db'.outcomes[..|db.outcomes|] == db.outcomes
            && db'.outcomes[|db.outcomes|].0 == found.payment.value
            && db'.outcomes[|db.outcomes|].1 * 100.0 == d.amountPaise as real)
  {
  }

  /** A closed link cancels the payment it finds and halts its workflow. */
  lemma ClosureLeaves(db: Db, d: Delivery, found: Found, ids: Ids)
    requires d.kind == LinkClosed && IsLookup(db, d, found)
    ensures var db' := AfterEffect(db, d, found, ids);
      && db'.processed == db.processed + {d.event} && db'.customers == db.customers && db'.outcomes == db.outcomes
      && db'.payments.Keys == db.payments.Keys && db'.workflows.Keys == db.workflows.Keys
      && (forall p :: p in db.payments && found.payment != Some(p) ==> db'.payments[p] == db.payments[p])
      && (forall p :: p in db.workflows && found.payment != Some(p) ==> db'.workflows[p] == db.workflows[p])
      && (found.payment.Some? ==>
            && db'.payments[found.payment.value] ==
                 db.payments[found.payment.value].(status := OtherStatus("CANCELLED"))
            && (found.payment.value in db.workflows ==> db'.workflows[found.payment.value].status == Halted))
  {
  }

  /** A created link adds a pending payment and a workflow that offers the link, and leaves
      alone a payment or a workflow that is there already. */
  lemma CreationLeaves(db: Db, d: Delivery, found: Found, ids: Ids)
    requires d.kind == LinkCreated && IsLookup(db, d, found) && ids.payment !in db.payments
    ensures var db' := AfterEffect(db, d, found, ids);
      var payment := if found.payment.Some? then found.payment.value else ids.payment;
      && db'.processed == db.processed + {d.event} && db'.outcomes == db.outcomes
      && db'.payments.Keys == db.payments.Keys + {payment}
      && (forall p :: p in db.payments ==> db'.payments[p] == db.payments[p])
      && db'.workflows.Keys == db.workflows.Keys + {payment}
      && (forall p :: p in db.workflows ==> db'.workflows[p] == db.workflows[p])
      && (payment !in db.workflows ==> db'.workflows[payment] == WorkflowRow(Scheduled, Some(PaymentLink)))
      && (found.payment.None? ==>
            var row := db'.payments[payment];
            && row.reference == d.reference && row.status == OtherStatus("PENDING") && row.failureCode == ""
            && row.amount * 100.0 == d.amountPaise as real && row.customer in db'.customers
            && (db'.customers[row.customer].email == d.email
                || (d.email == "" && db'.customers[row.customer].email == "cust_" + d.reference + "@revive-os.me")))
  {
  }

  // ----- at most once, not exactly once -----

  ghost predicate Lost(s: State, event: string) {
    && event in s.seen
    && (forall h :: h in s.handlers ==> s.handlers[h].event != event)
    && (forall i :: 0 <= i < |s.effects| ==> s.effects[i].event != event)
  }

  /** An event whose transaction failed or whose handler died after the deduplicating
      insert never takes effect, however often it is delivered again. */
  lemma {:induction false} LostForEver(s: State, acts: seq<Action>, event: string)
    requires Lost(s, event) && Run(s, acts).Some?
    ensures Lost(Run(s, acts).value, event)
  {
    if acts != [] {
      LostForEver(s, acts[..|acts| - 1], event);
    }
  }

  /** Exactly then: once its handler has ended, an event that has had no effect is lost,
      and one that has had an effect is not. */
  lemma AbandonLoses(s: State, h: nat)
    requires Inv(s) && h in s.handlers
    ensures Lost(Apply(s, Abandon(h)).value, s.handlers[h].event)
    ensures forall found, ids :: Apply(s, TakeEffect(h, found, ids)).Some? ==>
      !Lost(Apply(s, TakeEffect(h, found, ids)).value, s.handlers[h].event)
  {
    forall found, ids | Apply(s, TakeEffect(h, found, ids)).Some?
      ensures !Lost(Apply(s, TakeEffect(h, found, ids)).value, s.handlers[h].event)
    {
      var effects := Apply(s, TakeEffect(h, found, ids)).value.effects;
      assert effects[|effects| - 1].event == s.handlers[h].event;
    }
  }
}
