/** How often a row's task is accepted when the queue may forget task ids: exactly
    once when an id is only forgotten after its row is settled, and settledness is
    exactly what forgetting must wait for. */
module OutboxDelivery {
  import opened Prelude
  import opened Outbox

  /** Published for good, and no loop still carries the row to the queue. */
  ghost predicate Settled(s: State, id: string) {
    && id in s.table
    && s.table[id].published
    && forall r :: r in s.relays ==> id !in s.relays[r].Undelivered()
  }

  /** Every row task the run forgets belongs to a row settled at that moment. */
  ghost predicate Patient(s: State, acts: seq<Action>)
    requires Run(s, acts).Some?
  {
    acts == [] ||
    var last := acts[|acts| - 1];
    && Patient(s, acts[..|acts| - 1])
    && (last.Forget? ==> forall id :: last.task == TaskId(id) ==>
          Settled(Run(s, acts[..|acts| - 1]).value, id))
  }

  lemma PublishedStays(s: State, a: Action, id: string)
    requires Inv(s) && Apply(s, a).Some? && id in PublishedIds(s.table)
    ensures id in PublishedIds(Apply(s, a).value.table)
  {
    if a.Commit? {
      var b := s.relays[a.relay];
      assert BatchInv(s, b);
      assert b.txn == Open ==> b.writes.Keys <= b.locked;
      assert b.txn == Open ==> id !in b.locked by { assert !Pending(s.table, id); }
    }
  }

  /** A step only ever shortens what a loop still carries, except a selection,
      which takes unpublished rows. */
  lemma CarriedRows(s: State, a: Action, r: nat, id: string)
    requires Inv(s) && Apply(s, a).Some? && r in Apply(s, a).value.relays
    requires id in Apply(s, a).value.relays[r].Undelivered()
    ensures (r in s.relays && id in s.relays[r].Undelivered()) || Pending(s.table, id)
  {
    var s' := Apply(s, a).value;
    if a.Select? && a.relay == r && r !in s.relays {
      assert s'.relays[r].Undelivered() == a.scanned;
      assert id in Elements(a.scanned);
    }
  }

  lemma EnqueueEffect(s: State, r: nat, fault: EnqueueFault, id: string)
    requires Inv(s) && Apply(s, Enqueue(r, fault)).Some?
    ensures var q := Apply(s, Enqueue(r, fault)).value.queue;
      && s.queue.remembered <= q.remembered
      && (Accepts(q, id) == Accepts(s.queue, id)
          || (Accepts(q, id) == Accepts(s.queue, id) + 1
              && TaskId(id) !in s.queue.remembered && TaskId(id) in q.remembered
              && id in s.relays[r].Undelivered()))
  {
    var next := s.relays[r].events[s.relays[r].next];
    assert s.relays[r].Undelivered()[0] == next;
    CountSnoc(s.queue.log, Accepted(TaskId(next), s.table[next].event), TaskId(id));
    if TaskId(next) == TaskId(id) { TaskIdInjective(next, id); }
  }

  /** What one step does to one row's entry in the queue. */
  lemma QueueEffect(s: State, a: Action, id: string)
    requires Inv(s) && Apply(s, a).Some?
    ensures var s' := Apply(s, a).value;
      && (TaskId(id) in s.queue.remembered && TaskId(id) !in s'.queue.remembered ==> a == Forget(TaskId(id)))
      && (Accepts(s'.queue, id) == Accepts(s.queue, id)
          || (Accepts(s'.queue, id) == Accepts(s.queue, id) + 1
              && TaskId(id) !in s.queue.remembered && TaskId(id) in s'.queue.remembered
              && a.Enqueue? && id in s.relays[a.relay].Undelivered()))
  {
    if a.Enqueue? {
      EnqueueEffect(s, a.relay, a.enqueueFault, id);
    } else if a.Forget? {
      CountSnoc(s.queue.log, Forgot(a.task), TaskId(id));
    } else if a.ForeignEnqueue? {
      CountSnoc(s.queue.log, Accepted(a.task, a.payload), TaskId(id));
    } else {
      assert Apply(s, a).value.queue == s.queue;
    }
  }

  lemma SettledIsStable(s: State, a: Action, id: string)
    requires Inv(s) && Apply(s, a).Some? && Settled(s, id)
    ensures Settled(Apply(s, a).value, id)
    ensures Accepts(Apply(s, a).value.queue, id) == Accepts(s.queue, id)
  {
    var s' := Apply(s, a).value;
    assert id in PublishedIds(s.table);
    PublishedStays(s, a, id);
    QueueEffect(s, a, id);
    forall r | r in s'.relays ensures id !in s'.relays[r].Undelivered() {
      if id in s'.relays[r].Undelivered() { CarriedRows(s, a, r, id); }
    }
  }

  lemma {:induction false} SettledForever(s: State, acts: seq<Action>, id: string)
    requires Inv(s) && Run(s, acts).Some? && Settled(s, id)
    ensures Settled(Run(s, acts).value, id)
    ensures Accepts(Run(s, acts).value.queue, id) == Accepts(s.queue, id)
  {
    if acts != [] {
      var before := acts[..|acts| - 1];
      SettledForever(s, before, id);
      RunKeepsInv(s, before);
      SettledIsStable(Run(s, before).value, acts[|acts| - 1], id);
    }
  }

  ghost predicate OnceInv(s: State) {
    forall id :: Accepts(s.queue, id) <= 1 &&
      (Accepts(s.queue, id) == 1 ==> TaskId(id) in s.queue.remembered || Settled(s, id))
  }

  lemma PatientStepKeepsOnce(s: State, a: Action)
    requires Inv(s) && OnceInv(s) && Apply(s, a).Some?
    requires a.Forget? ==> forall id :: a.task == TaskId(id) ==> Settled(s, id)
    ensures OnceInv(Apply(s, a).value)
  {
    var s' := Apply(s, a).value;
    forall id
      ensures Accepts(s'.queue, id) <= 1 &&
        (Accepts(s'.queue, id) == 1 ==> TaskId(id) in s'.queue.remembered || Settled(s', id))
    {
      QueueEffect(s, a, id);
      if Settled(s, id) { SettledIsStable(s, a, id); }
    }
  }

  lemma {:induction false} PatientRunKeepsOnce(s: State, acts: seq<Action>)
    requires Inv(s) && OnceInv(s) && Run(s, acts).Some? && Patient(s, acts)
    ensures OnceInv(Run(s, acts).value)
  {
    if acts != [] {
      var before := acts[..|acts| - 1];
      PatientRunKeepsOnce(s, before);
      RunKeepsInv(s, before);
      PatientStepKeepsOnce(Run(s, before).value, acts[|acts| - 1]);
    }
  }

  /** When ids are kept long enough, every published row's task is accepted exactly
      once over the whole run, whatever crashes, and no row's more than once. */
  lemma ExactlyOnceWithRetention(acts: seq<Action>)
    requires Run(INIT, acts).Some? && Patient(INIT, acts)
    ensures var s := Run(INIT, acts).value;
      && (forall id :: Accepts(s.queue, id) <= 1)
      && (forall id :: id in PublishedIds(s.table) ==> Accepts(s.queue, id) == 1)
  {
    InitInv();
    RunKeepsInv(INIT, acts);
    assert OnceInv(INIT);
    PatientRunKeepsOnce(INIT, acts);
    var s := Run(INIT, acts).value;
    forall id | id in PublishedIds(s.table) ensures Accepts(s.queue, id) == 1 {
      assert Delivered(s.table, s.queue, id);
      LoggedIsCounted(s.queue.log, TaskId(id), s.table[id].event);
    }
  }

  lemma {:induction false} LoggedIsCounted(log: seq<QueueEvent>, task: string, payload: string)
    requires Accepted(task, payload) in log
    ensures AcceptCount(log, task) >= 1
  {
    if log[|log| - 1] != Accepted(task, payload) {
      LoggedIsCounted(log[..|log| - 1], task, payload);
    }
  }

  // ----- forgetting an unsettled row's task id -----

  function Remaining(b: Batch): nat {
    if b.Done() then 0 else 2 * (|b.events| - b.next) + if b.phase == AtEnqueue then 1 else 0
  }

  /** A loop that is not yet at the row can be moved one step on towards it. */
  lemma MoveOn(s: State, r: nat, id: string) returns (a: Action)
    requires Inv(s) && r in s.relays && id in s.relays[r].Undelivered()
    requires s.relays[r].phase == AtEnqueue ==> s.relays[r].events[s.relays[r].next] != id
    ensures Apply(s, a).Some? && r in Apply(s, a).value.relays && Apply(s, a).value.queue == s.queue
    ensures id in Apply(s, a).value.relays[r].Undelivered()
    ensures Remaining(Apply(s, a).value.relays[r]) < Remaining(s.relays[r])
  {
    var b := s.relays[r];
    assert BatchInv(s, b);
    assert b.events[b.next] in Elements(b.events);
    if b.phase == AtEnqueue {
      a := Enqueue(r, Refused(""));
      assert Apply(s, a).value.relays[r] == b.(phase := AtRecord(""));
      RefusalMoves(b, id);
    } else {
      a := Update(r, false);
      UpdateMoves(s.table, b, false);
      assert Apply(s, a).value.relays[r] == AfterUpdate(s.table, b, false);
    }
  }

  lemma RefusalMoves(b: Batch, id: string)
    requires b.phase == AtEnqueue && id in b.Undelivered() && b.events[b.next] != id
    ensures id in b.(phase := AtRecord("")).Undelivered()
    ensures Remaining(b.(phase := AtRecord(""))) < Remaining(b)
  {
    assert b.events[b.next..] == [b.events[b.next]] + b.events[b.next + 1..];
  }

  lemma UpdateMoves(t: Table, b: Batch, ok: bool)
    requires !b.Done() && b.phase != AtEnqueue
    ensures var b' := AfterUpdate(t, b, ok);
      b'.events == b.events && b'.next == b.next + 1 && b'.phase == AtEnqueue && b'.Undelivered() == b.Undelivered()
  {
  }

  /** A loop that still carries the row can be driven on until it hands it over. */
  lemma {:induction false} DriveToDelivery(s: State, r: nat, id: string) returns (acts: seq<Action>)
    requires Inv(s) && r in s.relays && id in s.relays[r].Undelivered()
    requires TaskId(id) !in s.queue.remembered
    ensures Run(s, acts).Some? && Accepts(Run(s, acts).value.queue, id) == Accepts(s.queue, id) + 1
    decreases Remaining(s.relays[r])
  {
    var b := s.relays[r];
    if b.phase == AtEnqueue && b.events[b.next] == id {
      assert BatchInv(s, b) && id in Elements(b.events);
      acts := [Enqueue(r, NoFault)];
      assert acts[..0] == [] && Run(s, []) == Some(s);
      CountSnoc(s.queue.log, Accepted(TaskId(id), s.table[id].event), TaskId(id));
    } else {
      var a := MoveOn(s, r, id);
      StepKeepsInv(s, a);
      var rest := DriveToDelivery(Apply(s, a).value, r, id);
      acts := [a] + rest;
      RunCons(s, a, rest);
    }
  }

  lemma {:induction false} RunCons(s: State, a: Action, acts: seq<Action>)
    requires Apply(s, a).Some?
    ensures Run(s, [a] + acts) == Run(Apply(s, a).value, acts)
  {
    if acts == [] {
      assert ([a] + acts)[..0] == [];
      assert Run(s, []) == Some(s);
    } else {
      var n := |acts|;
      assert ([a] + acts)[..n] == [a] + acts[..n - 1];
      RunCons(s, a, acts[..n - 1]);
    }
  }

  /** An unpublished row is reached by letting every relay restart and one select it. */
  lemma {:induction false} RestartToDelivery(s: State, id: string) returns (acts: seq<Action>)
    requires Inv(s) && Pending(s.table, id) && TaskId(id) !in s.queue.remembered
    ensures Run(s, acts).Some? && Accepts(Run(s, acts).value.queue, id) == Accepts(s.queue, id) + 1
    decreases s.relays.Keys
  {
    var a: Action;
    var s': State;
    if s.relays.Keys != {} {
      var r :| r in s.relays;
      a := Crash(r);
      s' := Apply(s, a).value;
      StepKeepsInv(s, a);
      acts := RestartToDelivery(s', id);
    } else {
      assert LockedRows(s.relays) == {};
      var limit := |Free(s.table, {})| + 1;
      var selection := SelectionExists(s.table, {}, limit);
      if id !in selection {
        DistinctCardinality(selection);
        SubsetCardinality(Elements(selection), Free(s.table, {}));
        assert false;
      }
      a := Select(0, limit, selection, [id]);
      s' := Apply(s, a).value;
      StepKeepsInv(s, a);
      assert s'.relays[0].Undelivered() == [id];
      acts := DriveToDelivery(s', 0, id);
    }
    RunCons(s, a, acts);
    acts := [a] + acts;
  }

  /** Exactly when forgetting is safe: after the queue forgets a row's id, some
      continuation accepts the row a second time if and only if the row was not settled. */
  lemma DuplicateIffUnsettled(s: State, id: string)
    requires Reachable(s) && TaskId(id) in s.queue.remembered
    ensures var forgotten := Apply(s, Forget(TaskId(id))).value;
      (exists acts :: Run(forgotten, acts).Some?
                      && Accepts(Run(forgotten, acts).value.queue, id) > Accepts(s.queue, id))
      <==> !Settled(s, id)
  {
    ReachableInv(s);
    var forget := Forget(TaskId(id));
    var s' := Apply(s, forget).value;
    StepKeepsInv(s, forget);
    CountSnoc(s.queue.log, Forgot(TaskId(id)), TaskId(id));
    assert Settled(s, id) == Settled(s', id);
    RememberedIsDelivered(s.table, s.queue, id);
    if Settled(s, id) {
      forall acts | Run(s', acts).Some?
        ensures Accepts(Run(s', acts).value.queue, id) == Accepts(s.queue, id)
      {
        SettledForever(s', acts, id);
      }
    } else {
      var acts: seq<Action>;
      if r :| r in s.relays && id in s.relays[r].Undelivered() {
        acts := DriveToDelivery(s', r, id);
      } else {
        acts := RestartToDelivery(s', id);
      }
      assert Accepts(Run(s', acts).value.queue, id) > Accepts(s.queue, id);
    }
  }

  // ----- unsettled rows do occur -----

  lemma Further(acts: seq<Action>, s: State, a: Action) returns (more: seq<Action>, s': State)
    requires Run(INIT, acts) == Some(s) && Apply(s, a).Some?
    ensures Run(INIT, more) == Some(s') && Apply(s, a) == Some(s')
  {
    more := acts + [a];
    s' := Apply(s, a).value;
    RunSnoc(INIT, acts, a);
  }

  lemma SingleRow(id: string, event: string) returns (acts: seq<Action>, s: State)
    ensures Run(INIT, acts) == Some(s) && s == INIT.(table := map[id := Row(event, 0, false, 0, None)])
    ensures IsSelection(s.table, {}, 1, [id])
  {
    acts, s := Further([], INIT, Insert(id, event, 0));
  }

  lemma SelectOnly(acts: seq<Action>, s: State, r: nat, id: string) returns (more: seq<Action>, s': State)
    requires Run(INIT, acts) == Some(s) && r !in s.relays
    requires LockedRows(s.relays) == {} && IsSelection(s.table, {}, 1, [id])
    ensures Run(INIT, more) == Some(s')
    ensures s' == s.(relays := s.relays[r := Batch({id}, [id], 0, AtEnqueue, Open, map[], 0)])
  {
    more, s' := Further(acts, s, Select(r, 1, [id], [id]));
    assert Elements([id]) == {id};
  }

  lemma UnsettledBefore(id: string, event: string) returns (s: State)
    ensures Reachable(s) && id in s.table && !s.table[id].published && TaskId(id) in s.queue.remembered
  {
    var acts;
    acts, s := SingleRow(id, event);
    assert LockedRows(s.relays) == {};
    acts, s := SelectOnly(acts, s, 0, id);
    acts, s := Further(acts, s, Enqueue(0, NoFault));
  }

  lemma UnsettledAfter(id: string, event: string) returns (s: State)
    ensures Reachable(s) && id in s.table && s.table[id].published && TaskId(id) in s.queue.remembered
    ensures 1 in s.relays && id in s.relays[1].Undelivered()
  {
    var acts;
    acts, s := SingleRow(id, event);
    assert LockedRows(s.relays) == {};
    acts, s := SelectOnly(acts, s, 1, id);
    acts, s := Further(acts, s, LoseSession(1));
    assert LockedRows(s.relays) == {};
    acts, s := SelectOnly(acts, s, 0, id);
    acts, s := Further(acts, s, Enqueue(0, NoFault));
    acts, s := Further(acts, s, Update(0, true));
    acts, s := Further(acts, s, Commit(0, Acked));
    assert s.relays[1].Undelivered() == [id];
  }

  /** A remembered id whose row is not settled is reached for every row: before its mark
      is committed, and even after, while a loop whose session is lost still carries the
      row. So in both states forgetting the id can lead to a second acceptance. */
  lemma UnsettledHappens(id: string, event: string, published: bool) returns (s: State)
    ensures Reachable(s) && id in s.table && s.table[id].published == published
    ensures TaskId(id) in s.queue.remembered && !Settled(s, id)
    ensures var forgotten := Apply(s, Forget(TaskId(id))).value;
      exists acts :: (Run(forgotten, acts).Some?
                      && Accepts(Run(forgotten, acts).value.queue, id) > Accepts(s.queue, id))
  {
    if published {
      s := UnsettledAfter(id, event);
    } else {
      s := UnsettledBefore(id, event);
    }
    DuplicateIffUnsettled(s, id);
  }
}
