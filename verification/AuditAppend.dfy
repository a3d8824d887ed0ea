/** Appending to the audit ledger. `AppendAuditLog` reads the newest row's hash and
    inserts its own row in a second statement, without a lock, so concurrent calls
    interleave; the row carries the time its transaction began. */
module AuditAppend {
  import opened Prelude
  import opened AuditChain

  datatype Event<M> = Event(actor: string, action: string, metadata: M)

  function NewRow<M>(h: Digest, c: Codec<M>, workflow: string, e: Event<M>, head: Option<string>, time: int): Row {
    var metadata := c.canon(e.metadata);
    var payloadHash := h(Payload(workflow, e.actor, e.action, metadata));
    Row(e.actor, e.action, payloadHash, head, h(ChainInput(head, payloadHash)), metadata, time)
  }

  /** The hash of the newest row, what `ORDER BY timestamp DESC LIMIT 1` returns. */
  function Head(rows: seq<Row>): Option<string> {
    if rows == [] then None else Some(rows[|rows| - 1].eventHash)
  }

  /** Where a row of this time stands among rows in order of time. */
  function Position(rows: seq<Row>, time: int): (p: nat)
    ensures p <= |rows|
    ensures p < |rows| ==> rows[p].timestamp > time
    ensures p > 0 ==> rows[p - 1].timestamp <= time
  {
    if rows == [] then 0
    else if rows[|rows| - 1].timestamp <= time then |rows|
    else Position(rows[..|rows| - 1], time)
  }

  function InsertAt(rows: seq<Row>, p: nat, row: Row): seq<Row>
    requires p <= |rows|
  {
    rows[..p] + [row] + rows[p..]
  }

  function Inserted(rows: seq<Row>, row: Row): seq<Row> {
    InsertAt(rows, Position(rows, row.timestamp), row)
  }

  // ----- interleaved appends -----

  datatype Writer = Begun(time: int) | HasRead(time: int, head: Option<string>)

  /** `stale` counts the inserts whose row did not go after the head they had read. */
  datatype Ledger = Ledger(rows: seq<Row>, writers: map<nat, Writer>, stale: nat)

  datatype Action<M> =
    | Begin(writer: nat, time: int)
    | ReadHead(writer: nat)
    | Insert(writer: nat, event: Event<M>)
    | Rollback(writer: nat)

  const EMPTY := Ledger([], map[], 0)

  predicate IsFresh(rows: seq<Row>, w: Writer) {
    w.HasRead? && w.head == Head(rows) && Position(rows, w.time) == |rows|
  }

  function Apply<M>(h: Digest, c: Codec<M>, workflow: string, s: Ledger, a: Action<M>): Option<Ledger> {
    match a
    case Begin(w, time) =>
      if w in s.writers then None else Some(s.(writers := s.writers[w := Begun(time)]))
    case ReadHead(w) =>
      if w !in s.writers || !s.writers[w].Begun? then None
      else Some(s.(writers := s.writers[w := HasRead(s.writers[w].time, Head(s.rows))]))
    case Insert(w, e) =>
      if w !in s.writers || !s.writers[w].HasRead? then None
      else
        var row := NewRow(h, c, workflow, e, s.writers[w].head, s.writers[w].time);
        Some(Ledger(Inserted(s.rows, row), s.writers - {w},
                    if IsFresh(s.rows, s.writers[w]) then s.stale else s.stale + 1))
    case Rollback(w) =>
      if w !in s.writers then None else Some(s.(writers := s.writers - {w}))
  }

  function Run<M>(h: Digest, c: Codec<M>, workflow: string, s: Ledger, acts: seq<Action<M>>): Option<Ledger> {
    if acts == [] then Some(s)
    else
      match Run(h, c, workflow, s, acts[..|acts| - 1])
      case None => None
      case Some(mid) => Apply(h, c, workflow, mid, acts[|acts| - 1])
  }

  /** A row that is not linked to the one before it and never will be: it claims to be
      the first although it is not, or names as previous the hash of a row that does
      not stand just before it. Later inserts only move rows further apart. */
  ghost predicate Stuck(rows: seq<Row>) {
    exists i, j :: 0 <= i < |rows| && 0 <= j < |rows| && StuckPair(rows, i, j)
  }

  ghost predicate StuckPair(rows: seq<Row>, i: int, j: int)
    requires 0 <= i < |rows| && 0 <= j < |rows|
  {
    || (i > 0 && rows[i].previous == None)
    || (rows[i].previous == Some(rows[j].eventHash) && j != i - 1)
  }

  ghost predicate IsRowHash(rows: seq<Row>, hash: Option<string>) {
    hash == None || exists j :: 0 <= j < |rows| && Some(rows[j].eventHash) == hash
  }

  ghost predicate WellHashed<M>(h: Digest, c: Codec<M>, workflow: string, row: Row) {
    && h(RowPayload(c, workflow, row)) == row.payloadHash
    && h(RowInput(row)) == row.eventHash
  }

  ghost predicate Inv<M>(h: Digest, c: Codec<M>, workflow: string, s: Ledger) {
    && RowsHashed(h, c, workflow, s.rows)
    && (forall w :: w in s.writers && s.writers[w].HasRead? ==> IsRowHash(s.rows, s.writers[w].head))
    && (if s.stale == 0 then Verifies(h, c, workflow, s.rows) else Stuck(s.rows))
  }

  lemma RowHashSurvives(rows: seq<Row>, p: nat, row: Row, hash: Option<string>)
    requires p <= |rows| && IsRowHash(rows, hash)
    ensures IsRowHash(InsertAt(rows, p, row), hash)
  {
    if hash != None {
      var j :| 0 <= j < |rows| && Some(rows[j].eventHash) == hash;
      var j' := if j < p then j else j + 1;
      assert InsertAt(rows, p, row)[j'] == rows[j];
    }
  }

  lemma StuckSurvives(rows: seq<Row>, p: nat, row: Row)
    requires p <= |rows| && Stuck(rows)
    ensures Stuck(InsertAt(rows, p, row))
  {
    var i, j :| 0 <= i < |rows| && 0 <= j < |rows| && StuckPair(rows, i, j);
    var i', j' := if i < p then i else i + 1, if j < p then j else j + 1;
    assert InsertAt(rows, p, row)[i'] == rows[i] && InsertAt(rows, p, row)[j'] == rows[j];
    assert StuckPair(InsertAt(rows, p, row), i', j');
  }

  /** A row put between others, or after another row than it names, gets stuck. */
  lemma StaleInsertSticks(rows: seq<Row>, p: nat, row: Row)
    requires p <= |rows| && IsRowHash(rows, row.previous)
    requires forall i :: 0 <= i < |rows| ==> IsRowHash(rows, rows[i].previous)
    requires !(p == |rows| && row.previous == Head(rows))
    ensures Stuck(InsertAt(rows, p, row))
  {
    var after := InsertAt(rows, p, row);
    if p < |rows| {
      // the row that now follows names a row that stood there before
      assert after[p + 1] == rows[p];
      if rows[p].previous == None {
        assert StuckPair(after, p + 1, p + 1);
      } else {
        var j :| 0 <= j < |rows| && Some(rows[j].eventHash) == rows[p].previous;
        var j' := if j < p then j else j + 1;
        assert after[j'] == rows[j];
        assert StuckPair(after, p + 1, j');
      }
    } else if row.previous == None {
      assert StuckPair(after, p, p);
    } else {
      var j :| 0 <= j < |rows| && Some(rows[j].eventHash) == row.previous;
      assert after[j] == rows[j];
      assert StuckPair(after, p, j);
    }
  }

  lemma FreshInsertVerifies<M>(h: Digest, c: Codec<M>, workflow: string, rows: seq<Row>, row: Row)
    requires Verifies(h, c, workflow, rows)
    requires WellHashed(h, c, workflow, row) && row.previous == Head(rows)
    ensures Verifies(h, c, workflow, rows + [row])
  {
    forall i | 0 <= i < |rows + [row]| ensures RowFault(h, c, workflow, rows + [row], i) == None {
      if i < |rows| { assert RowFault(h, c, workflow, rows, i) == None; }
    }
  }

  ghost predicate RowsHashed<M>(h: Digest, c: Codec<M>, workflow: string, rows: seq<Row>) {
    forall i :: 0 <= i < |rows| ==> WellHashed(h, c, workflow, rows[i]) && IsRowHash(rows, rows[i].previous)
  }

  lemma InsertKeepsRowsHashed<M>(h: Digest, c: Codec<M>, workflow: string, rows: seq<Row>, p: nat, row: Row)
    requires RowsHashed(h, c, workflow, rows) && p <= |rows|
    requires WellHashed(h, c, workflow, row) && IsRowHash(rows, row.previous)
    ensures RowsHashed(h, c, workflow, InsertAt(rows, p, row))
  {
    var after := InsertAt(rows, p, row);
    forall i | 0 <= i < |after| ensures WellHashed(h, c, workflow, after[i]) && IsRowHash(after, after[i].previous) {
      if i == p {
        RowHashSurvives(rows, p, row, row.previous);
      } else {
        var was := if i < p then i else i - 1;
        assert after[i] == rows[was];
        RowHashSurvives(rows, p, row, rows[was].previous);
      }
    }
  }

  lemma InsertKeepsVerdict<M>(h: Digest, c: Codec<M>, workflow: string, rows: seq<Row>, w: Writer, row: Row, stale: nat)
    requires RowsHashed(h, c, workflow, rows) && WellHashed(h, c, workflow, row)
    requires w.HasRead? && row.previous == w.head && row.timestamp == w.time && IsRowHash(rows, w.head)
    requires if stale == 0 then Verifies(h, c, workflow, rows) else Stuck(rows)
    ensures if stale == 0 && IsFresh(rows, w) then Verifies(h, c, workflow, Inserted(rows, row))
            else Stuck(Inserted(rows, row))
  {
    var p := Position(rows, w.time);
    if stale == 0 && IsFresh(rows, w) {
      assert Inserted(rows, row) == rows + [row];
      FreshInsertVerifies(h, c, workflow, rows, row);
    } else if stale > 0 {
      StuckSurvives(rows, p, row);
    } else {
      StaleInsertSticks(rows, p, row);
    }
  }

  lemma InsertKeepsInv<M(!new)>(h: Digest, c: Codec<M>, workflow: string, s: Ledger, w: nat, e: Event<M>)
    requires Faithful(c) && Inv(h, c, workflow, s) && Apply(h, c, workflow, s, Insert(w, e)).Some?
    ensures Inv(h, c, workflow, Apply(h, c, workflow, s, Insert(w, e)).value)
  {
    var writer := s.writers[w];
    var row := NewRow(h, c, workflow, e, writer.head, writer.time);
    var p := Position(s.rows, writer.time);
    var s' := Apply(h, c, workflow, s, Insert(w, e)).value;
    assert s'.rows == InsertAt(s.rows, p, row);
    assert c.reprint(c.canon(e.metadata)) == c.canon(e.metadata);
    InsertKeepsRowsHashed(h, c, workflow, s.rows, p, row);
    InsertKeepsVerdict(h, c, workflow, s.rows, writer, row, s.stale);
    forall v | v in s'.writers && s'.writers[v].HasRead? ensures IsRowHash(s'.rows, s'.writers[v].head) {
      RowHashSurvives(s.rows, p, row, s.writers[v].head);
    }
  }

  lemma {:induction false} RunKeepsInv<M(!new)>(h: Digest, c: Codec<M>, workflow: string, acts: seq<Action<M>>)
    requires Faithful(c) && Run(h, c, workflow, EMPTY, acts).Some?
    ensures Inv(h, c, workflow, Run(h, c, workflow, EMPTY, acts).value)
  {
    if acts != [] {
      RunKeepsInv(h, c, workflow, acts[..|acts| - 1]);
      var s := Run(h, c, workflow, EMPTY, acts[..|acts| - 1]).value;
      match acts[|acts| - 1] {
        case Insert(w, e) => InsertKeepsInv(h, c, workflow, s, w, e);
        case _ =>
      }
    }
  }

  /** In a verified chain event hashes differ, or two hashed strings collide: a chain
      of hashes that came back to an earlier one would be such a collision. */
  lemma StuckNeverVerifies<M>(h: Digest, c: Codec<M>, workflow: string, rows: seq<Row>)
    requires IsDigest(h) && Stuck(rows) && Verifies(h, c, workflow, rows)
    ensures Collide(h, HashInputs(c, workflow, rows))
  {
    var i, j :| 0 <= i < |rows| && 0 <= j < |rows| && StuckPair(rows, i, j);
    VerifiedRow(h, c, workflow, rows, i);
    VerifiedRow(h, c, workflow, rows, j);
    AgreeBackwards(h, c, workflow, rows, rows, i - 1, j);
    assert HashInputs(c, workflow, rows) + HashInputs(c, workflow, rows) == HashInputs(c, workflow, rows);
  }

  /** However appends interleave: with no stale insert the ledger verifies, and with
      even one it never does, whatever is appended later, unless two of its hashed
      strings collide. */
  lemma VerifiesIffNoStaleInsert<M(!new)>(h: Digest, c: Codec<M>, workflow: string, acts: seq<Action<M>>)
    requires IsDigest(h) && Faithful(c) && Run(h, c, workflow, EMPTY, acts).Some?
    ensures var s := Run(h, c, workflow, EMPTY, acts).value;
      && (s.stale == 0 ==> Verifies(h, c, workflow, s.rows))
      && (Verifies(h, c, workflow, s.rows) ==> s.stale == 0 || Collide(h, HashInputs(c, workflow, s.rows)))
  {
    RunKeepsInv(h, c, workflow, acts);
    var s := Run(h, c, workflow, EMPTY, acts).value;
    if Verifies(h, c, workflow, s.rows) && s.stale > 0 {
      StuckNeverVerifies(h, c, workflow, s.rows);
    }
  }

  /** Stale inserts happen: two writers that both read before either inserts. */
  lemma StaleInsertHappens<M>(h: Digest, c: Codec<M>, workflow: string, e: Event<M>, f: Event<M>)
    returns (acts: seq<Action<M>>)
    ensures Run(h, c, workflow, EMPTY, acts).Some?
    ensures Run(h, c, workflow, EMPTY, acts).value.stale == 1
  {
    acts := [];
    var s := EMPTY;
    acts, s := RunFurther(h, c, workflow, acts, s, Begin(0, 0));
    acts, s := RunFurther(h, c, workflow, acts, s, Begin(1, 1));
    acts, s := RunFurther(h, c, workflow, acts, s, ReadHead(0));
    acts, s := RunFurther(h, c, workflow, acts, s, ReadHead(1));
    acts, s := RunFurther(h, c, workflow, acts, s, Insert(0, e));
    assert s.rows == [NewRow(h, c, workflow, e, None, 0)] && s.stale == 0;
    assert s.writers[1] == HasRead(1, None) && Head(s.rows).Some?;
    acts, s := RunFurther(h, c, workflow, acts, s, Insert(1, f));
  }

  lemma RunFurther<M>(h: Digest, c: Codec<M>, workflow: string, acts: seq<Action<M>>, s: Ledger, a: Action<M>)
    returns (more: seq<Action<M>>, s': Ledger)
    requires Run(h, c, workflow, EMPTY, acts) == Some(s) && Apply(h, c, workflow, s, a).Some?
    ensures Run(h, c, workflow, EMPTY, more) == Some(s') && Apply(h, c, workflow, s, a) == Some(s')
  {
    more := acts + [a];
    s' := Apply(h, c, workflow, s, a).value;
    assert more[..|more| - 1] == acts;
  }

  // ----- serial appends, and rewriting history -----

  datatype Timed<M> = Timed(event: Event<M>, time: int)

  /** What calls of `AppendAuditLog` leave that run one after the other. */
  function Appended<M>(h: Digest, c: Codec<M>, workflow: string, rows: seq<Row>, calls: seq<Timed<M>>): seq<Row> {
    if calls == [] then rows
    else
      var before := Appended(h, c, workflow, rows, calls[..|calls| - 1]);
      var last := calls[|calls| - 1];
      Inserted(before, NewRow(h, c, workflow, last.event, Head(before), last.time))
  }

  ghost predicate InOrder<M>(rows: seq<Row>, calls: seq<Timed<M>>) {
    && (rows != [] ==> forall i :: 0 <= i < |calls| ==> rows[|rows| - 1].timestamp < calls[i].time)
    && (forall i, j :: 0 <= i < j < |calls| ==> calls[i].time < calls[j].time)
  }

  ghost predicate Records<M>(c: Codec<M>, row: Row, call: Timed<M>) {
    && row.actor == call.event.actor && row.action == call.event.action
    && row.metadata == c.canon(call.event.metadata) && row.timestamp == call.time
  }

  lemma OneMoreVerifies<M(!new)>(h: Digest, c: Codec<M>, workflow: string, rows: seq<Row>, call: Timed<M>)
    requires Faithful(c) && Verifies(h, c, workflow, rows)
    requires rows != [] ==> rows[|rows| - 1].timestamp < call.time
    ensures var row := NewRow(h, c, workflow, call.event, Head(rows), call.time);
      Inserted(rows, row) == rows + [row] && Verifies(h, c, workflow, rows + [row]) && Records(c, row, call)
  {
    var row := NewRow(h, c, workflow, call.event, Head(rows), call.time);
    assert Position(rows, row.timestamp) == |rows|;
    assert c.reprint(c.canon(call.event.metadata)) == c.canon(call.event.metadata);
    FreshInsertVerifies(h, c, workflow, rows, row);
  }

  ghost predicate Extends<M>(c: Codec<M>, after: seq<Row>, rows: seq<Row>, calls: seq<Timed<M>>) {
    && |after| == |rows| + |calls| && after[..|rows|] == rows
    && forall i :: 0 <= i < |calls| ==> Records(c, after[|rows| + i], calls[i])
  }

  lemma ExtendsByOne<M>(c: Codec<M>, after: seq<Row>, rows: seq<Row>, calls: seq<Timed<M>>, row: Row)
    requires calls != [] && Extends(c, after, rows, calls[..|calls| - 1]) && Records(c, row, calls[|calls| - 1])
    ensures Extends(c, after + [row], rows, calls)
  {
    forall i | 0 <= i < |calls| ensures Records(c, (after + [row])[|rows| + i], calls[i]) {
      if i < |calls| - 1 { assert Records(c, after[|rows| + i], calls[..|calls| - 1][i]); }
    }
  }

  lemma LastTime<M>(c: Codec<M>, after: seq<Row>, rows: seq<Row>, calls: seq<Timed<M>>)
    requires calls != [] && InOrder(rows, calls) && Extends(c, after, rows, calls[..|calls| - 1]) && after != []
    ensures after[|after| - 1].timestamp < calls[|calls| - 1].time
  {
    var n := |calls| - 1;
    if n > 0 {
      assert Records(c, after[|rows| + (n - 1)], calls[..n][n - 1]);
    } else {
      assert after == after[..|rows|];
    }
  }

  /** Serial appends at increasing times extend a verified chain to a verified one that
      records exactly their events, in order. */
  lemma {:induction false} SerialAppendsVerify<M(!new)>(h: Digest, c: Codec<M>, workflow: string,
                                                        rows: seq<Row>, calls: seq<Timed<M>>)
    requires Faithful(c) && Verifies(h, c, workflow, rows) && InOrder(rows, calls)
    ensures Verifies(h, c, workflow, Appended(h, c, workflow, rows, calls))
    ensures Extends(c, Appended(h, c, workflow, rows, calls), rows, calls)
  {
    if calls != [] {
      var n := |calls| - 1;
      SerialAppendsVerify(h, c, workflow, rows, calls[..n]);
      var before := Appended(h, c, workflow, rows, calls[..n]);
      if before != [] { LastTime(c, before, rows, calls); }
      OneMoreVerifies(h, c, workflow, before, calls[n]);
      ExtendsByOne(c, before, rows, calls, NewRow(h, c, workflow, calls[n].event, Head(before), calls[n].time));
    }
  }

  lemma SomeTimes<M>(rows: seq<Row>, events: seq<Event<M>>) returns (calls: seq<Timed<M>>)
    ensures |calls| == |events| && forall i :: 0 <= i < |events| ==> calls[i].event == events[i]
    ensures InOrder(rows, calls)
  {
    var start := if rows == [] then 0 else rows[|rows| - 1].timestamp + 1;
    calls := seq(|events|, i requires 0 <= i < |events| => Timed(events[i], start + i));
  }

  /** The digest has no key, so whoever can write the table can put any events in the
      place of all rows from index `k` on and have the chain verify; only a hash kept
      elsewhere shows it, unless the new history is the beginning of the old one or
      two of the hashed strings collide. */
  lemma RewrittenHistory<M(!new)>(h: Digest, c: Codec<M>, workflow: string,
                                  rows: seq<Row>, k: nat, events: seq<Event<M>>)
    returns (calls: seq<Timed<M>>, rewritten: seq<Row>)
    requires IsDigest(h) && Faithful(c) && Verifies(h, c, workflow, rows) && k <= |rows|
    ensures |calls| == |events| && forall i :: 0 <= i < |events| ==> calls[i].event == events[i]
    ensures Verifies(h, c, workflow, rewritten) && Extends(c, rewritten, rows[..k], calls)
    ensures rewritten != [] ==>
      || Collide(h, HashInputs(c, workflow, rows) + HashInputs(c, workflow, rewritten))
      || (HoldsHash(rows, rewritten[|rewritten| - 1].eventHash) <==> IsEntryPrefix(c, workflow, rewritten, rows))
  {
    PrefixVerifies(h, c, workflow, rows, k);
    calls := SomeTimes(rows[..k], events);
    SerialAppendsVerify(h, c, workflow, rows[..k], calls);
    rewritten := Appended(h, c, workflow, rows[..k], calls);
    if rewritten != [] {
      KnownHashIffPrefix(h, c, workflow, rows, rewritten);
    }
  }

  // ----- one call at a time -----

  /** The ledger of one workflow, its rows in order of time. */
  class AuditLedger {
    var rows: seq<Row>

    constructor ()
      ensures rows == []
    {
      rows := [];
    }

    /** A call that runs alone, later than every row so far, keeps the chain verified;
        one without a workflow id does nothing. */
    method AppendAuditLog<M(!new)>(h: Digest, c: Codec<M>, workflow: string, e: Event<M>, now: int)
      modifies this
      ensures workflow == "" ==> rows == old(rows)
      ensures workflow != "" ==> rows == Inserted(old(rows), NewRow(h, c, workflow, e, Head(old(rows)), now))
      ensures workflow != "" && Faithful(c) && Verifies(h, c, workflow, old(rows))
              && (old(rows) != [] ==> old(rows)[|old(rows)| - 1].timestamp < now)
              ==> Verifies(h, c, workflow, rows)
    {
      if workflow == "" { return; }
      var normalized := c.canon(e.metadata);
      var previous := if rows == [] then None else Some(rows[|rows| - 1].eventHash);
      var payloadHash := h(Payload(workflow, e.actor, e.action, normalized));
      var input := if previous.Some? then previous.value + SEPARATOR + payloadHash else payloadHash;
      var row := Row(e.actor, e.action, payloadHash, previous, h(input), normalized, now);
      if Faithful(c) && Verifies(h, c, workflow, rows) && Position(rows, now) == |rows| {
        assert c.reprint(c.canon(e.metadata)) == c.canon(e.metadata);
        FreshInsertVerifies(h, c, workflow, rows, row);
        assert InsertAt(rows, |rows|, row) == rows + [row];
      }
      rows := Inserted(rows, row);
    }
  }
}
