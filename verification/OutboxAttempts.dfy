/** The columns of an outbox row over whole runs: `attempts` counts exactly the failures
    to enqueue whose recording was committed, and `lastError` is there exactly while a
    recorded row is not published. */
module OutboxAttempts {
  import opened Prelude
  import opened Outbox

  /** Whether this step commits a recorded failure of this row. */
  ghost function Recordings(s: State, a: Action, id: string): nat {
    if a.Commit? && a.relay in s.relays && a.commitFault != Rejected
       && s.relays[a.relay].txn == Open && id in s.relays[a.relay].writes
       && !s.relays[a.relay].writes[id].published
    then 1 else 0
  }

  ghost function RecordingsIn(acts: seq<Action>, id: string): nat
    requires Run(INIT, acts).Some?
  {
    if acts == [] then 0
    else
      var before := acts[..|acts| - 1];
      RecordingsIn(before, id) + Recordings(Run(INIT, before).value, acts[|acts| - 1], id)
  }

  /** A write against the row it replaces. */
  ghost predicate IsWriteOf(row: Row, write: Row) {
    && write.event == row.event && write.createdAt == row.createdAt
    && (if write.published then write.attempts == row.attempts && write.lastError == None
        else write.attempts == row.attempts + 1 && write.lastError.Some?)
  }

  ghost predicate IsSound(row: Row) {
    if row.published then row.lastError == None else row.attempts == 0 <==> row.lastError == None
  }

  ghost predicate WritesMatch(t: Table, b: Batch) {
    b.txn == Open ==> forall id :: id in b.writes ==> id in t && IsWriteOf(t[id], b.writes[id])
  }

  ghost predicate ColumnInv(s: State) {
    && (forall r :: r in s.relays ==> WritesMatch(s.table, s.relays[r]))
    && (forall id :: id in s.table ==> IsSound(s.table[id]))
  }

  /** What a step does to one row. */
  ghost predicate RowStep(s: State, a: Action, s': State, id: string)
    requires id in s.table
  {
    && id in s'.table && s'.table[id].event == s.table[id].event && s'.table[id].createdAt == s.table[id].createdAt
    && s'.table[id].attempts == s.table[id].attempts + Recordings(s, a, id)
  }

  lemma UpdateMatches(t: Table, b: Batch, ok: bool)
    requires !b.Done() && b.phase != AtEnqueue && WritesMatch(t, b)
    requires b.txn == Open ==> Pending(t, b.events[b.next])
    ensures WritesMatch(t, AfterUpdate(t, b, ok))
  {
  }

  lemma NextIsPending(s: State, r: nat)
    requires Inv(s) && r in s.relays && !s.relays[r].Done()
    ensures s.relays[r].HoldsLocks() ==> Pending(s.table, s.relays[r].events[s.relays[r].next])
  {
    var b := s.relays[r];
    assert BatchInv(s, b);
    assert b.events[b.next] in Elements(b.events);
  }

  lemma OpenCommit(s: State, r: nat, fault: CommitFault)
    requires Inv(s) && ColumnInv(s) && Apply(s, Commit(r, fault)).Some?
    requires s.relays[r].txn == Open && fault != Rejected
    ensures var s' := Apply(s, Commit(r, fault)).value;
      && (forall id :: id in s'.table ==> IsSound(s'.table[id]))
      && forall id :: id in s.table ==> RowStep(s, Commit(r, fault), s', id)
  {
    var b := s.relays[r];
    assert BatchInv(s, b) && WritesMatch(s.table, b);
    DoneWrites(s, b);
  }

  /** Rows that a batch has written are locked, so no other commit touches them. */
  lemma OpenCommitMatches(s: State, r: nat, fault: CommitFault, p: nat)
    requires Inv(s) && ColumnInv(s) && Apply(s, Commit(r, fault)).Some?
    requires s.relays[r].txn == Open && fault != Rejected && p in s.relays && p != r
    ensures WritesMatch(Apply(s, Commit(r, fault)).value.table, s.relays[p])
  {
    var b, other := s.relays[r], s.relays[p];
    assert BatchInv(s, b) && BatchInv(s, other) && WritesMatch(s.table, other);
    DoneWrites(s, b);
    assert b.writes.Keys <= b.locked;
    if other.txn == Open {
      assert other.writes.Keys <= other.locked && other.locked !! b.locked;
    }
  }

  lemma StepKeepsColumns(s: State, a: Action)
    requires Inv(s) && ColumnInv(s) && Apply(s, a).Some?
    ensures ColumnInv(Apply(s, a).value)
    ensures forall id :: id in s.table ==> RowStep(s, a, Apply(s, a).value, id)
    ensures forall id :: id in Apply(s, a).value.table && id !in s.table ==>
      Apply(s, a).value.table[id].attempts == 0 && Recordings(s, a, id) == 0
  {
    var s' := Apply(s, a).value;
    if a.Commit? && s.relays[a.relay].txn == Open && a.commitFault != Rejected {
      OpenCommit(s, a.relay, a.commitFault);
      StepKeepsKeys(s, a);
      forall p | p in s'.relays ensures WritesMatch(s'.table, s'.relays[p]) {
        OpenCommitMatches(s, a.relay, a.commitFault, p);
      }
    } else {
      forall p | p in s'.relays ensures WritesMatch(s'.table, s'.relays[p]) {
        if a.Update? && p == a.relay {
          NextIsPending(s, p);
          UpdateMatches(s.table, s.relays[p], a.ok);
        }
        assert p in s.relays ==> WritesMatch(s.table, s.relays[p]);
      }
    }
  }

  lemma NoRecordings(s: State, a: Action, id: string)
    requires Inv(s) && Apply(s, a).Some? && id !in s.table
    ensures Recordings(s, a, id) == 0
  {
    if a.Commit? {
      var b := s.relays[a.relay];
      assert BatchInv(s, b);
      if b.txn == Open { DoneWrites(s, b); }
    }
  }

  /** One row's count against a number of recordings. */
  ghost predicate IsCounted(t: Table, id: string, recordings: nat) {
    recordings == if id in t then t[id].attempts else 0
  }

  lemma StepCounts(s: State, a: Action, id: string, recordings: nat)
    requires Inv(s) && ColumnInv(s) && Apply(s, a).Some? && IsCounted(s.table, id, recordings)
    ensures IsCounted(Apply(s, a).value.table, id, recordings + Recordings(s, a, id))
  {
    StepKeepsColumns(s, a);
    StepKeepsRows(s, a);
    if id in s.table {
      assert RowStep(s, a, Apply(s, a).value, id);
    } else {
      NoRecordings(s, a, id);
    }
  }

  lemma {:induction false} ColumnsKept(s: State, acts: seq<Action>)
    requires Inv(s) && ColumnInv(s) && Run(s, acts).Some?
    ensures Inv(Run(s, acts).value) && ColumnInv(Run(s, acts).value)
  {
    if acts != [] {
      var before := acts[..|acts| - 1];
      ColumnsKept(s, before);
      StepKeepsColumns(Run(s, before).value, acts[|acts| - 1]);
      StepKeepsInv(Run(s, before).value, acts[|acts| - 1]);
    }
  }

  lemma FromTheStart(acts: seq<Action>)
    requires Run(INIT, acts).Some?
    ensures Inv(Run(INIT, acts).value) && ColumnInv(Run(INIT, acts).value)
  {
    InitInv();
    ColumnsKept(INIT, acts);
  }

  lemma {:induction false} RowIsCounted(acts: seq<Action>, id: string)
    requires Run(INIT, acts).Some?
    ensures IsCounted(Run(INIT, acts).value.table, id, RecordingsIn(acts, id))
  {
    if acts != [] {
      var before := acts[..|acts| - 1];
      RowIsCounted(before, id);
      FromTheStart(before);
      StepCounts(Run(INIT, before).value, acts[|acts| - 1], id, RecordingsIn(before, id));
    }
  }

  /** Over any run: a row's attempts are the committed recordings of its failures, no more
      and no fewer; a published row shows no error, and an unpublished one shows one exactly
      when it has been recorded. */
  lemma AttemptsCountRecordings(acts: seq<Action>, id: string)
    requires Run(INIT, acts).Some? && id in Run(INIT, acts).value.table
    ensures var row := Run(INIT, acts).value.table[id];
      && row.attempts == RecordingsIn(acts, id)
      && (row.published ==> row.lastError == None)
      && (!row.published ==> (row.lastError == None <==> row.attempts == 0))
  {
    RowIsCounted(acts, id);
    FromTheStart(acts);
    assert IsSound(Run(INIT, acts).value.table[id]);
  }
}
