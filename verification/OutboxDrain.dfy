/** Draining: what repeated fault-free batches publish while the queue keeps refusing
    some rows. Refused rows stay pending and keep their age, so they can fill the
    window of the oldest `limit` rows. */
module OutboxDrain {
  import opened Prelude
  import opened Outbox
  import opened OutboxRelay

  const REFUSAL := "refused"

  function Outcome(row: Row, refused: bool): Row {
    if refused then Recorded(row, REFUSAL) else Marked(row)
  }

  ghost function Writes(t: Table, done: set<string>, refused: set<string>): Table {
    map id | id in done && id in t :: Outcome(t[id], id in refused)
  }

  /** The table after a batch over `ids`, with `refused` the rows the queue turns down. */
  ghost function Processed(t: Table, ids: seq<string>, refused: set<string>): Table {
    t + Writes(t, Elements(ids), refused)
  }

  ghost function Faults(ids: seq<string>, refused: set<string>): (faults: seq<EventFault>)
    ensures |faults| == |ids|
  {
    seq(|ids|, i requires 0 <= i < |ids| =>
      EventFault(if ids[i] in refused then Refused(REFUSAL) else NoFault, true))
  }

  // ----- a fault-free batch is a run of the protocol -----

  /** One iteration of the loop, as the state it leaves behind. */
  ghost function AfterEvent(s: State, r: nat, f: EventFault): State
    requires r in s.relays && !s.relays[r].Done() && s.relays[r].phase == AtEnqueue
    requires s.relays[r].events[s.relays[r].next] in s.table
  {
    var b := s.relays[r];
    var id := b.events[b.next];
    var (queue, phase) := AfterEnqueue(s.queue, TaskId(id), s.table[id].event, f.enqueue);
    s.(queue := queue, relays := s.relays[r := AfterUpdate(s.table, b.(phase := phase), f.updateOk)])
  }

  lemma RunEvent(s: State, r: nat, f: EventFault)
    requires r in s.relays && !s.relays[r].Done() && s.relays[r].phase == AtEnqueue
    requires s.relays[r].events[s.relays[r].next] in s.table
    ensures Run(s, EventScript(r, f)) == Some(AfterEvent(s, r, f))
  {
    var enqueue := Enqueue(r, f.enqueue);
    var update := Update(r, f.updateOk);
    RunOne(s, enqueue);
    RunSnoc(s, [enqueue], update);
    assert [enqueue] + [update] == EventScript(r, f);
    assert Apply(Apply(s, enqueue).value, update).value == AfterEvent(s, r, f);
  }

  ghost function InFlight(table: Table, queue: Queue, others: map<nat, Batch>, r: nat, b: Batch): State {
    State(table, queue, others[r := b], 0, 0)
  }

  /** The batch after one iteration, as the loop body computes it. */
  ghost function NextBatch(table: Table, b: Batch, f: EventFault): Batch
    requires !b.Done() && b.events[b.next] in table
  {
    var phase := match f.enqueue
      case NoFault => AtMark
      case Refused(e) => AtRecord(e)
      case ReplyLost(e) => AtRecord(e);
    AfterUpdate(table, b.(phase := phase), f.updateOk)
  }

  lemma RunLoop(before: State, select: Action, table: Table, queue: Queue, others: map<nat, Batch>, r: nat,
                b: Batch, faults: seq<EventFault>, i: nat)
    requires i < |faults| && !b.Done() && b.phase == AtEnqueue && b.events[b.next] in table
    requires Run(before, [select] + LoopScript(r, faults[..i])) == Some(InFlight(table, queue, others, r, b))
    ensures Run(before, [select] + LoopScript(r, faults[..i + 1])) ==
      Some(InFlight(table,
                    AfterEnqueue(queue, TaskId(b.events[b.next]), table[b.events[b.next]].event, faults[i].enqueue).0,
                    others, r, NextBatch(table, b, faults[i])))
  {
    var s := InFlight(table, queue, others, r, b);
    var soFar := [select] + LoopScript(r, faults[..i]);
    assert faults[..i + 1][..i] == faults[..i];
    assert soFar + EventScript(r, faults[i]) == [select] + LoopScript(r, faults[..i + 1]);
    RunEvent(s, r, faults[i]);
    RunAppend(before, soFar, EventScript(r, faults[i]));
    assert s.relays[r := NextBatch(table, b, faults[i])] == others[r := NextBatch(table, b, faults[i])];
  }

  lemma RunCommit(before: State, select: Action, table: Table, queue: Queue, others: map<nat, Batch>, r: nat,
                  b: Batch, faults: seq<EventFault>, commit: CommitFault)
    requires r !in others && b.Done()
    requires Run(before, [select] + LoopScript(r, faults)) == Some(InFlight(table, queue, others, r, b))
    ensures Run(before, [select] + LoopScript(r, faults) + [Commit(r, commit)]) ==
      Some(if b.txn != Open || commit == Rejected then State(table, queue, others, 0, 0)
           else if commit == Acked then State(table + b.writes, queue, others, b.count, 0)
           else State(table + b.writes, queue, others, 0, b.count))
  {
    var s := InFlight(table, queue, others, r, b);
    RunSnoc(before, [select] + LoopScript(r, faults), Commit(r, commit));
    assert s.relays - {r} == others;
  }

  /** The loop's batch after `i` events. */
  ghost function LoopBatch(t: Table, ids: seq<string>, refused: set<string>, i: nat): Batch
    requires i <= |ids|
  {
    var done := Elements(ids[..i]);
    Batch(Elements(ids), ids, i, AtEnqueue, Open, Writes(t, done, refused), |done - refused|)
  }

  lemma WritesNext(t: Table, was: set<string>, refused: set<string>, id: string)
    requires id in t
    ensures Writes(t, was, refused)[id := Outcome(t[id], id in refused)] == Writes(t, was + {id}, refused)
  {
  }

  lemma CountNext(was: set<string>, refused: set<string>, id: string)
    requires id !in was
    ensures |was + {id} - refused| == |was - refused| + if id in refused then 0 else 1
  {
    assert was + {id} - refused == if id in refused then was - refused else was - refused + {id};
  }

  lemma LoopBatchNext(t: Table, ids: seq<string>, refused: set<string>, i: nat)
    requires i < |ids| && Distinct(ids) && ids[i] in t
    ensures NextBatch(t, LoopBatch(t, ids, refused, i), Faults(ids, refused)[i]) == LoopBatch(t, ids, refused, i + 1)
  {
    var id := ids[i];
    var was := Elements(ids[..i]);
    var done := Elements(ids[..i + 1]);
    assert ids[..i + 1] == ids[..i] + [id];
    assert done == was + {id} && id !in was;
    WritesNext(t, was, refused, id);
    CountNext(was, refused, id);
  }

  lemma OneMoreLoop(before: State, select: Action, t: Table, r: nat, ids: seq<string>,
                    refused: set<string>, p: Queue, i: nat)
    returns (q: Queue)
    requires i < |ids| && Distinct(ids) && forall id :: id in ids ==> id in t
    requires Run(before, [select] + LoopScript(r, Faults(ids, refused)[..i])) ==
      Some(InFlight(t, p, map[], r, LoopBatch(t, ids, refused, i)))
    ensures Run(before, [select] + LoopScript(r, Faults(ids, refused)[..i + 1])) ==
      Some(InFlight(t, q, map[], r, LoopBatch(t, ids, refused, i + 1)))
  {
    var faults := Faults(ids, refused);
    assert ids[i] in ids;
    RunLoop(before, select, t, p, map[], r, LoopBatch(t, ids, refused, i), faults, i);
    LoopBatchNext(t, ids, refused, i);
    q := AfterEnqueue(p, TaskId(ids[i]), t[ids[i]].event, faults[i].enqueue).0;
  }

  lemma {:induction false} LoopRuns(before: State, select: Action, t: Table, r: nat, ids: seq<string>,
                                    refused: set<string>, queue: Queue, i: nat)
    returns (q: Queue)
    requires i <= |ids| && Distinct(ids) && forall id :: id in ids ==> id in t
    requires Run(before, [select]) == Some(InFlight(t, queue, map[], r, LoopBatch(t, ids, refused, 0)))
    ensures Run(before, [select] + LoopScript(r, Faults(ids, refused)[..i])) ==
      Some(InFlight(t, q, map[], r, LoopBatch(t, ids, refused, i)))
  {
    if i == 0 {
      q := queue;
      assert [select] + LoopScript(r, Faults(ids, refused)[..0]) == [select];
    } else {
      q := LoopRuns(before, select, t, r, ids, refused, queue, i - 1);
      q := OneMoreLoop(before, select, t, r, ids, refused, q, i - 1);
    }
  }

  /** The columns a batch leaves: a refused row has one attempt more and shows the error, a
      row that is taken is published without one, and the others are as they were. */
  ghost predicate BatchColumns(t: Table, t': Table, ids: seq<string>, refused: set<string>) {
    && t'.Keys == t.Keys
    && forall id :: id in t ==>
         if id !in ids then t'[id] == t[id]
         else
           && t'[id].event == t[id].event && t'[id].createdAt == t[id].createdAt
           && t'[id].published == (id !in refused)
           && t'[id].attempts == (if id in refused then t[id].attempts + 1 else t[id].attempts)
           && t'[id].lastError == (if id in refused then Some("refused") else None)
  }

  lemma ProcessedColumns(t: Table, ids: seq<string>, refused: set<string>, limit: nat)
    requires IsSelection(t, {}, limit, ids)
    ensures BatchColumns(t, Processed(t, ids, refused), ids, refused)
  {
    forall id | id in ids ensures id in t && !t[id].published {
      assert Pending(t, id);
    }
  }

  /** With no fault but the refusals, `ProcessBatch` publishes exactly its selected rows the
      queue does not refuse, returns their number, and keeps the others pending. */
  lemma FaultFreeBatch(s: State, r: nat, limit: nat, ids: seq<string>, refused: set<string>)
    requires s.relays == map[] && s.reported == 0 == s.unreported
    requires IsSelection(s.table, {}, limit, ids) && ids != []
    ensures var after := Run(s, BatchScript(r, limit, ids, ids, Faults(ids, refused), Acked));
      && after.Some?
      && after.value == State(Processed(s.table, ids, refused), after.value.queue, map[], |Elements(ids) - refused|, 0)
      && BatchColumns(s.table, after.value.table, ids, refused)
  {
    ProcessedColumns(s.table, ids, refused, limit);
    var select := Select(r, limit, ids, ids);
    var faults := Faults(ids, refused);
    assert LockedRows(s.relays) == {};
    RunOne(s, select);
    assert LoopBatch(s.table, ids, refused, 0) == Batch(Elements(ids), ids, 0, AtEnqueue, Open, map[], 0) by {
      assert Elements(ids[..0]) == {} && Elements(ids[..0]) - refused == {};
    }
    assert forall id :: id in ids ==> Pending(s.table, id);
    var q := LoopRuns(s, select, s.table, r, ids, refused, s.queue, |ids|);
    assert ids[..|ids|] == ids && faults[..|ids|] == faults;
    RunCommit(s, select, s.table, q, map[], r, LoopBatch(s.table, ids, refused, |ids|), faults, Acked);
  }

  // ----- repeated batches -----

  ghost predicate BatchStep(t: Table, refused: set<string>, limit: nat, t': Table) {
    exists ids :: IsSelection(t, {}, limit, ids) && t' == Processed(t, ids, refused)
  }

  /** The tables that batch after batch leaves, from `run[0]` on, with no inserts. */
  ghost predicate BatchRun(run: seq<Table>, refused: set<string>, limit: nat) {
    && run != []
    && forall i :: 0 <= i < |run| - 1 ==> BatchStep(run[i], refused, limit, run[i + 1])
  }

  ghost function Healthy(t: Table, refused: set<string>): set<string> {
    set id | id in t && !t[id].published && id !in refused
  }

  ghost function Poison(t: Table, refused: set<string>): set<string> {
    set id | id in t && !t[id].published && id in refused
  }

  ghost function OlderThan(t: Table, ids: set<string>, h: string): set<string>
    requires h in t
  {
    set id | id in ids && id in t && t[id].createdAt < t[h].createdAt
  }

  /** The rows among `ids` other than `h` that may be selected before it. */
  ghost function NoNewer(t: Table, ids: set<string>, h: string): set<string>
    requires h in t
  {
    set id | id in ids && id in t && id != h && t[id].createdAt <= t[h].createdAt
  }

  ghost predicate SameAges(t: Table, t': Table) {
    t'.Keys == t.Keys && forall id :: id in t ==> t'[id].createdAt == t[id].createdAt
  }

  /** A batch takes its healthy rows out of the pending ones and nothing else. */
  lemma StepEffect(t: Table, ids: seq<string>, refused: set<string>, limit: nat)
    requires IsSelection(t, {}, limit, ids)
    ensures var t' := Processed(t, ids, refused);
      && SameAges(t, t')
      && Healthy(t', refused) == Healthy(t, refused) - Elements(ids)
      && Poison(t', refused) == Poison(t, refused)
  {
    var t' := Processed(t, ids, refused);
    forall id | id in t
      ensures id in t' && t'[id].createdAt == t[id].createdAt
      ensures t'[id].published == (t[id].published || (id in Elements(ids) && id !in refused))
    {
      if id in Elements(ids) { assert Pending(t, id); }
    }
  }

  /** A full selection holds `limit` rows, all of them no newer than any row left out. */
  lemma SelectionIsFull(t: Table, ids: seq<string>, limit: nat, h: string)
    requires IsSelection(t, {}, limit, ids) && Pending(t, h) && h !in ids
    ensures |Elements(ids)| == limit
    ensures forall x :: x in Elements(ids) ==> Pending(t, x) && t[x].createdAt <= t[h].createdAt
  {
    DistinctCardinality(ids);
    forall x | x in Elements(ids) ensures Pending(t, x) && t[x].createdAt <= t[h].createdAt {
      assert Older(t, x, h);
    }
  }

  /** A selection is made of healthy rows and of refused ones. */
  lemma HealthyShare(t: Table, ids: seq<string>, refused: set<string>, limit: nat)
    requires IsSelection(t, {}, limit, ids)
    ensures |Elements(ids)| <= |Healthy(t, refused) * Elements(ids)| + |Poison(t, refused)|
  {
    var healthy := Healthy(t, refused) * Elements(ids);
    var poison := Poison(t, refused) * Elements(ids);
    forall id | id in Elements(ids) ensures id in healthy + poison {
      assert Pending(t, id);
    }
    assert Elements(ids) == healthy + poison;
    UnionCardinality(healthy, poison);
    SubsetCardinality(poison, Poison(t, refused));
  }

  lemma FullSelectionTakes(t: Table, ids: seq<string>, refused: set<string>, limit: nat, h: string)
    requires IsSelection(t, {}, limit, ids) && h in Healthy(t, refused) && h !in ids
    ensures |Healthy(t, refused)| - |Healthy(t, refused) - Elements(ids)| >= limit - |Poison(t, refused)|
  {
    SelectionIsFull(t, ids, limit, h);
    HealthyShare(t, ids, refused, limit);
    var healthy := Healthy(t, refused);
    assert healthy == (healthy - Elements(ids)) + (healthy * Elements(ids));
    UnionCardinality(healthy - Elements(ids), healthy * Elements(ids));
  }

  /** Each batch publishes at least min(healthy rows, limit - refused rows), and rows
      the queue refuses stay as they are. */
  lemma BatchProgress(t: Table, refused: set<string>, limit: nat, t': Table)
    requires BatchStep(t, refused, limit, t')
    ensures SameAges(t, t') && Poison(t', refused) == Poison(t, refused)
    ensures Healthy(t', refused) <= Healthy(t, refused)
    ensures |Healthy(t, refused)| - |Healthy(t', refused)| >= limit - |Poison(t, refused)|
         || Healthy(t', refused) == {}
  {
    var ids :| IsSelection(t, {}, limit, ids) && t' == Processed(t, ids, refused);
    StepEffect(t, ids, refused, limit);
    if h :| h in Healthy(t', refused) {
      assert h !in Elements(ids);
      FullSelectionTakes(t, ids, refused, limit, h);
    }
  }

  lemma AddGain(first: int, before: int, after: int, n: int, gain: int)
    ensures before + (n - 1) * gain <= first && after + gain <= before ==> after + n * gain <= first
  {
    assert n * gain == (n - 1) * gain + gain;
  }

  /** Over a whole run the refused rows and all ages stay, and healthy rows only go. */
  lemma {:induction false} RunKeepsRows(run: seq<Table>, refused: set<string>, limit: nat, n: nat)
    requires BatchRun(run, refused, limit) && n < |run|
    ensures SameAges(run[0], run[n]) && Poison(run[n], refused) == Poison(run[0], refused)
    ensures Healthy(run[n], refused) <= Healthy(run[0], refused)
  {
    if n > 0 {
      RunKeepsRows(run, refused, limit, n - 1);
      BatchProgress(run[n - 1], refused, limit, run[n]);
    }
  }

  /** Every batch removes `limit - refused` healthy rows until none is left. */
  lemma {:induction false} DrainsDespitePoison(run: seq<Table>, refused: set<string>, limit: nat, n: nat)
    requires BatchRun(run, refused, limit) && n < |run|
    ensures |Healthy(run[n], refused)| + n * (limit - |Poison(run[0], refused)|) <= |Healthy(run[0], refused)|
         || Healthy(run[n], refused) == {}
  {
    if n > 0 {
      DrainsDespitePoison(run, refused, limit, n - 1);
      RunKeepsRows(run, refused, limit, n - 1);
      OneBatchMore(run[n - 1], refused, limit, run[n]);
      AddGain(|Healthy(run[0], refused)|, |Healthy(run[n - 1], refused)|, |Healthy(run[n], refused)|,
              n, limit - |Poison(run[0], refused)|);
    }
  }

  lemma OneBatchMore(t: Table, refused: set<string>, limit: nat, t': Table)
    requires BatchStep(t, refused, limit, t')
    ensures |Healthy(t', refused)| + (limit - |Poison(t, refused)|) <= |Healthy(t, refused)|
         || Healthy(t', refused) == {}
    ensures Healthy(t, refused) == {} ==> Healthy(t', refused) == {}
  {
    BatchProgress(t, refused, limit, t');
  }

  // ----- which row is ever published -----

  lemma OlderThanSame(t: Table, t': Table, ids: set<string>, h: string)
    requires SameAges(t, t') && h in t
    ensures OlderThan(t', ids, h) == OlderThan(t, ids, h) && NoNewer(t', ids, h) == NoNewer(t, ids, h)
  {
  }

  ghost predicate PublishedBy(run: seq<Table>, n: nat, h: string) {
    n < |run| && h in run[n] && run[n][h].published
  }

  // every run: as many rows as may come before `h` are refused

  /** A full selection without `h` holds rows no newer than `h`, more than the refused
      ones among these, so it holds a healthy one. */
  lemma NoNewerHealthyTaken(t: Table, ids: seq<string>, refused: set<string>, limit: nat, h: string) returns (x: string)
    requires IsSelection(t, {}, limit, ids) && h in Healthy(t, refused) && h !in ids
    requires |NoNewer(t, Poison(t, refused), h)| < limit
    ensures x in Elements(ids) && x in NoNewer(t, Healthy(t, refused), h)
  {
    SelectionIsFull(t, ids, limit, h);
    var poison := NoNewer(t, Poison(t, refused), h);
    if Elements(ids) <= poison { SubsetCardinality(Elements(ids), poison); }
    x :| x in Elements(ids) && x !in poison;
    assert Pending(t, x);
  }

  /** While `h` waits, each batch publishes some healthy row that is no newer. */
  lemma NoNewerGoesFirst(t: Table, refused: set<string>, limit: nat, t': Table, h: string)
    requires BatchStep(t, refused, limit, t') && h in t && h in Healthy(t', refused)
    requires |NoNewer(t, Poison(t, refused), h)| < limit
    ensures |NoNewer(t, Healthy(t', refused), h)| < |NoNewer(t, Healthy(t, refused), h)|
  {
    var ids :| IsSelection(t, {}, limit, ids) && t' == Processed(t, ids, refused);
    StepEffect(t, ids, refused, limit);
    assert h !in Elements(ids);
    var x := NoNewerHealthyTaken(t, ids, refused, limit, h);
    var before := NoNewer(t, Healthy(t, refused), h);
    assert NoNewer(t, Healthy(t', refused), h) <= before - {x};
    SubsetCardinality(NoNewer(t, Healthy(t', refused), h), before - {x});
  }

  /** The same with all rows counted as they stood at first. */
  lemma WaitStep(t0: Table, t: Table, refused: set<string>, limit: nat, t': Table, h: string)
    requires BatchStep(t, refused, limit, t') && h in t0 && h in Healthy(t', refused)
    requires SameAges(t0, t) && Poison(t, refused) == Poison(t0, refused)
    requires |NoNewer(t0, Poison(t0, refused), h)| < limit
    ensures h in Healthy(t, refused)
    ensures |NoNewer(t0, Healthy(t', refused), h)| < |NoNewer(t0, Healthy(t, refused), h)|
  {
    BatchProgress(t, refused, limit, t');
    OlderThanSame(t0, t, Poison(t0, refused), h);
    OlderThanSame(t0, t, Healthy(t, refused), h);
    OlderThanSame(t0, t, Healthy(t', refused), h);
    NoNewerGoesFirst(t, refused, limit, t', h);
  }

  lemma {:induction false} WaitIsBounded(run: seq<Table>, refused: set<string>, limit: nat, n: nat, h: string)
    requires BatchRun(run, refused, limit) && n < |run| && h in run[0]
    requires |NoNewer(run[0], Poison(run[0], refused), h)| < limit
    requires h in Healthy(run[n], refused)
    ensures |NoNewer(run[0], Healthy(run[n], refused), h)| + n <= |NoNewer(run[0], Healthy(run[0], refused), h)|
  {
    if n > 0 {
      RunKeepsRows(run, refused, limit, n - 1);
      WaitStep(run[0], run[n - 1], refused, limit, run[n], h);
      WaitIsBounded(run, refused, limit, n - 1, h);
    }
  }

  // some run: ties fall in favour of `h` or against it

  /** The table with all ties between `h` and other rows broken, in favour of `h` or not. */
  ghost function Tilted(t: Table, h: string, favour: bool): Table {
    map id | id in t :: t[id].(createdAt := 2 * t[id].createdAt + if (id == h) == favour then 0 else 1)
  }

  lemma TiltedSelection(t: Table, limit: nat, h: string, favour: bool) returns (ids: seq<string>)
    ensures IsSelection(t, {}, limit, ids) && IsSelection(Tilted(t, h, favour), {}, limit, ids)
  {
    var tilted := Tilted(t, h, favour);
    ids := SelectionExists(tilted, {}, limit);
    assert forall id :: Pending(t, id) <==> Pending(tilted, id);
    assert forall a, b :: Older(tilted, a, b) ==> Older(t, a, b);
  }

  /** A selection that leaves `h` out only for strictly older rows. */
  lemma FavouringSelection(t: Table, limit: nat, h: string) returns (ids: seq<string>)
    requires Pending(t, h)
    ensures IsSelection(t, {}, limit, ids)
    ensures h !in ids ==> forall x :: x in ids ==> t[x].createdAt < t[h].createdAt
  {
    ids := TiltedSelection(t, limit, h, true);
    if h !in ids {
      var tilted := Tilted(t, h, true);
      assert Pending(tilted, h);
      forall x | x in ids ensures t[x].createdAt < t[h].createdAt {
        assert Older(tilted, x, h) && x != h;
      }
    }
  }

  /** A selection that takes `h` only after all other rows that are no newer. */
  lemma DisfavouringSelection(t: Table, limit: nat, h: string) returns (ids: seq<string>)
    requires Pending(t, h)
    ensures IsSelection(t, {}, limit, ids)
    ensures h in ids ==> forall x :: Pending(t, x) && t[x].createdAt <= t[h].createdAt ==> x in ids
  {
    ids := TiltedSelection(t, limit, h, false);
    if h in ids {
      var tilted := Tilted(t, h, false);
      forall x | Pending(t, x) && t[x].createdAt <= t[h].createdAt ensures x in ids {
        assert Pending(tilted, x);
        assert x !in ids ==> Older(tilted, h, x);
      }
    }
  }

  /** A batch that publishes `h` or a strictly older healthy row. */
  lemma FavouringBatch(t: Table, refused: set<string>, limit: nat, h: string) returns (t': Table)
    requires h in Healthy(t, refused) && |OlderThan(t, Poison(t, refused), h)| < limit
    ensures BatchStep(t, refused, limit, t') && SameAges(t, t') && Poison(t', refused) == Poison(t, refused)
    ensures h !in Healthy(t', refused) ==> h in t' && t'[h].published
    ensures h in Healthy(t', refused) ==>
      |OlderThan(t, Healthy(t', refused), h)| < |OlderThan(t, Healthy(t, refused), h)|
  {
    var ids := FavouringSelection(t, limit, h);
    t' := Processed(t, ids, refused);
    StepEffect(t, ids, refused, limit);
    if h !in ids {
      SelectionIsFull(t, ids, limit, h);
      var poison := OlderThan(t, Poison(t, refused), h);
      if Elements(ids) <= poison { SubsetCardinality(Elements(ids), poison); }
      var x :| x in Elements(ids) && x !in poison;
      assert Pending(t, x) && t[x].createdAt < t[h].createdAt;
      var older := OlderThan(t, Healthy(t, refused), h);
      assert OlderThan(t, Healthy(t', refused), h) <= older - {x};
      SubsetCardinality(OlderThan(t, Healthy(t', refused), h), older - {x});
    }
  }

  lemma RunCons(t: Table, run: seq<Table>, refused: set<string>, limit: nat)
    requires BatchRun(run, refused, limit) && BatchStep(t, refused, limit, run[0])
    ensures BatchRun([t] + run, refused, limit)
  {
    forall i | 0 <= i < |run| ensures BatchStep(([t] + run)[i], refused, limit, ([t] + run)[i + 1]) {
      if i > 0 { assert ([t] + run)[i] == run[i - 1]; }
    }
  }

  lemma {:induction false} PublishingRun(t: Table, refused: set<string>, limit: nat, h: string)
    returns (run: seq<Table>, n: nat)
    requires h in Healthy(t, refused) && |OlderThan(t, Poison(t, refused), h)| < limit
    ensures BatchRun(run, refused, limit) && run[0] == t && PublishedBy(run, n, h)
    decreases |OlderThan(t, Healthy(t, refused), h)|
  {
    var t' := FavouringBatch(t, refused, limit, h);
    if h in Healthy(t', refused) {
      OlderThanSame(t, t', Poison(t, refused), h);
      OlderThanSame(t, t', Healthy(t', refused), h);
      run, n := PublishingRun(t', refused, limit, h);
      RunCons(t, run, refused, limit);
      run, n := [t] + run, n + 1;
    } else {
      run, n := [t, t'], 1;
    }
  }

  /** Enough refused rows older than `h` fill the batch. */
  lemma WindowBlocked(t: Table, refused: set<string>, limit: nat, t': Table, h: string)
    requires BatchStep(t, refused, limit, t') && h in Healthy(t, refused)
    requires |OlderThan(t, Poison(t, refused), h)| >= limit
    ensures h in Healthy(t', refused)
  {
    var ids :| IsSelection(t, {}, limit, ids) && t' == Processed(t, ids, refused);
    StepEffect(t, ids, refused, limit);
    if h in ids {
      var poison := OlderThan(t, Poison(t, refused), h);
      forall x | x in poison ensures x in Elements(ids) {
        if x !in ids { SelectionIsFull(t, ids, limit, x); }
      }
      Overfull(ids, poison, h);
    }
  }

  lemma Overfull(ids: seq<string>, others: set<string>, h: string)
    requires Distinct(ids) && others <= Elements(ids) && h in ids && h !in others
    ensures |others| < |ids|
  {
    DistinctCardinality(ids);
    UnionCardinality(others, {h});
    SubsetCardinality(others + {h}, Elements(ids));
  }

  /** `h` still waits, behind the rows that were refused at first. */
  ghost predicate IsBlocked(t0: Table, t: Table, refused: set<string>, h: string) {
    SameAges(t0, t) && Poison(t, refused) == Poison(t0, refused) && h in Healthy(t, refused)
  }

  lemma BlockedStep(t0: Table, t: Table, refused: set<string>, limit: nat, t': Table, h: string)
    requires BatchStep(t, refused, limit, t') && h in t0 && IsBlocked(t0, t, refused, h)
    requires |OlderThan(t0, Poison(t0, refused), h)| >= limit
    ensures IsBlocked(t0, t', refused, h)
  {
    OlderThanSame(t0, t, Poison(t0, refused), h);
    WindowBlocked(t, refused, limit, t', h);
    BatchProgress(t, refused, limit, t');
  }

  lemma {:induction false} NeverPublished(run: seq<Table>, refused: set<string>, limit: nat, n: nat, h: string)
    requires BatchRun(run, refused, limit) && n < |run| && h in Healthy(run[0], refused)
    requires |OlderThan(run[0], Poison(run[0], refused), h)| >= limit
    ensures IsBlocked(run[0], run[n], refused, h)
  {
    if n > 0 {
      NeverPublished(run, refused, limit, n - 1, h);
      BlockedStep(run[0], run[n - 1], refused, limit, run[n], h);
    }
  }

  /** A batch that leaves `h` waiting when enough refused rows are no newer. */
  lemma DisfavouringBatch(t: Table, refused: set<string>, limit: nat, h: string) returns (t': Table)
    requires h in Healthy(t, refused) && |NoNewer(t, Poison(t, refused), h)| >= limit
    ensures BatchStep(t, refused, limit, t') && SameAges(t, t') && Poison(t', refused) == Poison(t, refused)
    ensures h in Healthy(t', refused)
  {
    var ids := DisfavouringSelection(t, limit, h);
    t' := Processed(t, ids, refused);
    StepEffect(t, ids, refused, limit);
    if h in ids {
      var poison := NoNewer(t, Poison(t, refused), h);
      forall x | x in poison ensures x in Elements(ids) {
        assert Pending(t, x);
      }
      Overfull(ids, poison, h);
    }
  }

  lemma {:induction false} WaitingRun(t: Table, refused: set<string>, limit: nat, h: string, n: nat)
    returns (run: seq<Table>)
    requires h in Healthy(t, refused) && |NoNewer(t, Poison(t, refused), h)| >= limit
    ensures BatchRun(run, refused, limit) && run[0] == t && |run| == n + 1 && !PublishedBy(run, n, h)
  {
    if n == 0 {
      run := [t];
    } else {
      var t' := DisfavouringBatch(t, refused, limit, h);
      OlderThanSame(t, t', Poison(t, refused), h);
      run := WaitingRun(t', refused, limit, h, n - 1);
      RunCons(t, run, refused, limit);
      run := [t] + run;
    }
  }

  /** Repeated batches can publish a row that the queue would take if and only if fewer than
      `limit` refused rows are strictly older. */
  lemma MayBePublishedIff(t: Table, refused: set<string>, limit: nat, h: string)
    requires h in Healthy(t, refused)
    ensures (exists run, n: nat :: BatchRun(run, refused, limit) && run[0] == t && PublishedBy(run, n, h))
      <==> |OlderThan(t, Poison(t, refused), h)| < limit
  {
    if |OlderThan(t, Poison(t, refused), h)| < limit {
      var run, n := PublishingRun(t, refused, limit, h);
    } else {
      forall run, n: nat | BatchRun(run, refused, limit) && run[0] == t && n < |run| ensures !PublishedBy(run, n, h) {
        NeverPublished(run, refused, limit, n, h);
      }
    }
  }

  /** They must publish it if and only if fewer than `limit` other refused rows are no newer;
      then, however the batches fall, they do so after one batch more than there are
      other healthy rows that are no newer. */
  lemma MustBePublishedIff(t: Table, refused: set<string>, limit: nat, h: string)
    requires h in Healthy(t, refused)
    ensures (forall run, n: nat ::
               (BatchRun(run, refused, limit) && run[0] == t && |NoNewer(t, Healthy(t, refused), h)| < n < |run|)
               ==> PublishedBy(run, n, h))
      <==> |NoNewer(t, Poison(t, refused), h)| < limit
  {
    var wait := |NoNewer(t, Healthy(t, refused), h)| + 1;
    if |NoNewer(t, Poison(t, refused), h)| < limit {
      forall run, n: nat | BatchRun(run, refused, limit) && run[0] == t && wait <= n < |run|
        ensures PublishedBy(run, n, h)
      {
        RunKeepsRows(run, refused, limit, n);
        if h in Healthy(run[n], refused) {
          WaitIsBounded(run, refused, limit, n, h);
        }
      }
    } else {
      var run := WaitingRun(t, refused, limit, h, wait);
    }
  }
}
