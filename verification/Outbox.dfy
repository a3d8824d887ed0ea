/** The transactional outbox relay as a protocol. Any number of relays run the
    loop of `Relay.ProcessBatch` against one table and one task queue; every
    statement is a step of its own, and steps interleave freely with crashes,
    lost sessions, failed statements, unacknowledged commits and the queue's
    expiry of old task ids. */
module Outbox {
  import opened Prelude

  // ----- the table -----

  datatype Row = Row(
    event: string, createdAt: int, published: bool, attempts: nat, lastError: Option<string>)

  type Table = map<string, Row>

  ghost predicate Pending(t: Table, id: string) {
    id in t && !t[id].published
  }

  ghost function PublishedIds(t: Table): set<string> {
    set id | id in t && t[id].published
  }

  ghost predicate Older(t: Table, a: string, b: string) {
    a in t && b in t && t[a].createdAt <= t[b].createdAt
  }

  /** What `SELECT ... WHERE published_at IS NULL ORDER BY created_at ASC LIMIT n
      FOR UPDATE SKIP LOCKED` may return; rows of equal age come in any order. */
  ghost predicate IsSelection(t: Table, locked: set<string>, limit: nat, ids: seq<string>) {
    && Distinct(ids)
    && |ids| <= limit
    && (forall id :: id in ids ==> Pending(t, id) && id !in locked)
    && (forall i, j :: 0 <= i < j < |ids| ==> Older(t, ids[i], ids[j]))
    && (forall id :: Pending(t, id) && id !in locked && id !in ids ==>
          |ids| == limit && forall x :: x in ids ==> Older(t, x, id))
  }

  /** The oldest of a nonempty set of rows. */
  lemma {:induction false} OldestExists(t: Table, ids: set<string>) returns (oldest: string)
    requires ids != {} && ids <= t.Keys
    ensures oldest in ids && forall id :: id in ids ==> Older(t, oldest, id)
    decreases |ids|
  {
    var first :| first in ids;
    oldest := first;
    if ids - {first} != {} {
      var other := OldestExists(t, ids - {first});
      if t[other].createdAt < t[first].createdAt { oldest := other; }
    }
    forall id | id in ids ensures Older(t, oldest, id) {
      assert id == first || id in ids - {first};
    }
  }

  ghost function Free(t: Table, locked: set<string>): set<string> {
    set id | id in t && !t[id].published && id !in locked
  }

  /** The SELECT always has an answer. */
  lemma {:induction false} SelectionExists(t: Table, locked: set<string>, limit: nat) returns (ids: seq<string>)
    ensures IsSelection(t, locked, limit, ids)
  {
    if limit == 0 {
      ids := [];
    } else {
      var shorter := SelectionExists(t, locked, limit - 1);
      var rest := Free(t, locked) - Elements(shorter);
      if rest == {} {
        ids := shorter;
        forall id | Pending(t, id) && id !in locked ensures id in ids {
          assert id in rest || id in Elements(shorter);
        }
      } else {
        var oldest := OldestExists(t, rest);
        ids := shorter + [oldest];
        forall id | Pending(t, id) && id !in locked && id !in ids
          ensures |ids| == limit && forall x :: x in ids ==> Older(t, x, id)
        {
          assert id in rest;
        }
      }
    }
  }

  // ----- the task queue -----

  datatype QueueEvent = Accepted(task: string, payload: string) | Forgot(task: string)

  /** `remembered` are the task ids a new enqueue conflicts with; `log` is what happened. */
  datatype Queue = Queue(remembered: set<string>, log: seq<QueueEvent>)

  const OUTBOX_PREFIX := "outbox:"

  function TaskId(id: string): string {
    OUTBOX_PREFIX + id
  }

  predicate IsOutboxTask(task: string) {
    OUTBOX_PREFIX <= task
  }

  lemma TaskIdInjective(a: string, b: string)
    requires TaskId(a) == TaskId(b)
    ensures a == b && TaskId(a) == "outbox:" + a
  {
    assert a == TaskId(a)[|OUTBOX_PREFIX|..];
    assert b == TaskId(b)[|OUTBOX_PREFIX|..];
  }

  function AcceptCount(log: seq<QueueEvent>, task: string): nat {
    if log == [] then 0
    else
      var e := log[|log| - 1];
      AcceptCount(log[..|log| - 1], task) + if e.Accepted? && e.task == task then 1 else 0
  }

  function ForgetCount(log: seq<QueueEvent>, task: string): nat {
    if log == [] then 0
    else
      var e := log[|log| - 1];
      ForgetCount(log[..|log| - 1], task) + if e.Forgot? && e.task == task then 1 else 0
  }

  lemma CountSnoc(log: seq<QueueEvent>, e: QueueEvent, task: string)
    ensures AcceptCount(log + [e], task) == AcceptCount(log, task) + if e.Accepted? && e.task == task then 1 else 0
    ensures ForgetCount(log + [e], task) == ForgetCount(log, task) + if e.Forgot? && e.task == task then 1 else 0
  {
    assert (log + [e])[..|log|] == log;
  }

  lemma {:induction false} CountedIsLogged(log: seq<QueueEvent>, task: string)
    requires AcceptCount(log, task) > 0
    ensures exists payload :: Accepted(task, payload) in log
  {
    var e := log[|log| - 1];
    if e.Accepted? && e.task == task {
      assert Accepted(task, e.payload) in log;
    } else {
      CountedIsLogged(log[..|log| - 1], task);
      var payload :| Accepted(task, payload) in log[..|log| - 1];
      assert Accepted(task, payload) in log;
    }
  }

  function Accepts(q: Queue, id: string): nat {
    AcceptCount(q.log, TaskId(id))
  }

  function Forgets(q: Queue, id: string): nat {
    ForgetCount(q.log, TaskId(id))
  }

  /** The queue took this row's own content under this row's task id. */
  ghost predicate Delivered(t: Table, q: Queue, id: string) {
    id in t && Accepted(TaskId(id), t[id].event) in q.log
  }

  // ----- one relay's loop -----

  /** `Aborted`: a statement failed, so the transaction can only roll back. `Lost`: its
      locks and writes are gone too. In both cases the in-memory loop runs on. */
  datatype Txn = Open | Aborted | Lost

  datatype Phase = AtEnqueue | AtMark | AtRecord(error: string)

  /** A `ProcessBatch` call in progress. `events[..next]` are done. */
  datatype Batch = Batch(
    locked: set<string>, events: seq<string>, next: nat, phase: Phase,
    txn: Txn, writes: Table, count: nat)
  {
    ghost predicate HoldsLocks() {
      txn != Lost
    }

    predicate Done() {
      next >= |events|
    }

    function Advance(): Batch {
      this.(next := next + 1, phase := AtEnqueue)
    }

    /** The rows this loop may still hand to the queue. */
    function Undelivered(): seq<string> {
      var from := if phase == AtEnqueue then next else next + 1;
      if from <= |events| then events[from..] else []
    }
  }

  // ----- the whole system -----

  /** `reported` adds up the counts returned by `ProcessBatch`; `unreported` those of
      commits that took effect although their acknowledgement was lost. */
  datatype State = State(
    table: Table, queue: Queue, relays: map<nat, Batch>, reported: nat, unreported: nat)

  const INIT := State(map[], Queue({}, []), map[], 0, 0)

  /** How an enqueue call goes wrong: the queue refuses the task, or takes it and the
      reply is lost, which the relay cannot tell from a refusal. */
  datatype EnqueueFault = NoFault | Refused(error: string) | ReplyLost(error: string)

  datatype Action =
    | Insert(id: string, event: string, createdAt: int)
    | Select(relay: nat, limit: nat, selection: seq<string>, scanned: seq<string>)
    | Enqueue(relay: nat, enqueueFault: EnqueueFault)
    | Update(relay: nat, ok: bool)
    | LoseSession(relay: nat)
    | Commit(relay: nat, commitFault: CommitFault)
    | Crash(relay: nat)
    | Forget(task: string)
    | ForeignEnqueue(task: string, payload: string)

  ghost function LockedRows(relays: map<nat, Batch>): set<string> {
    set r, id | r in relays && relays[r].HoldsLocks() && id in relays[r].locked :: id
  }

  function Offer(q: Queue, task: string, payload: string): Queue {
    if task in q.remembered then q
    else Queue(q.remembered + {task}, q.log + [Accepted(task, payload)])
  }

  function AfterEnqueue(q: Queue, task: string, payload: string, fault: EnqueueFault): (Queue, Phase) {
    match fault
    case NoFault => (Offer(q, task, payload), AtMark)          // accepted, or a task-id conflict
    case Refused(e) => (q, AtRecord(e))
    case ReplyLost(e) => (Offer(q, task, payload), AtRecord(e))
  }

  function Marked(row: Row): Row {
    row.(published := true, lastError := None)
  }

  function Recorded(row: Row, error: string): Row {
    row.(attempts := row.attempts + 1, lastError := Some(error))
  }

  /** The UPDATE after an enqueue. On a transaction that is no longer open every
      statement fails; a statement that fails on an open one aborts it. */
  function AfterUpdate(t: Table, b: Batch, ok: bool): Batch
    requires !b.Done() && b.phase != AtEnqueue
  {
    var id := b.events[b.next];
    if b.txn != Open then b.Advance()
    else if !ok || id !in t then b.(txn := Aborted).Advance()
    else if b.phase == AtMark then
      b.(writes := b.writes[id := Marked(t[id])], count := b.count + 1).Advance()
    else
      b.(writes := b.writes[id := Recorded(t[id], b.phase.error)]).Advance()
  }

  function AfterCommit(s: State, r: nat, fault: CommitFault): State
    requires r in s.relays
  {
    var b := s.relays[r];
    var idle := s.(relays := s.relays - {r});
    if b.txn != Open || fault == Rejected then idle
    else if fault == Acked then idle.(table := s.table + b.writes, reported := s.reported + b.count)
    else idle.(table := s.table + b.writes, unreported := s.unreported + b.count)
  }

  ghost function Apply(s: State, a: Action): Option<State> {
    match a
    case Insert(id, event, createdAt) =>
      if id in s.table then None
      else Some(s.(table := s.table[id := Row(event, createdAt, false, 0, None)]))
    case Select(r, limit, selection, scanned) =>
      if r in s.relays || !IsSelection(s.table, LockedRows(s.relays), limit, selection)
         || !Distinct(scanned) || !(Elements(scanned) <= Elements(selection)) then None
      else if scanned == [] then Some(s)
      else Some(s.(relays := s.relays[r :=
        Batch(Elements(selection), scanned, 0, AtEnqueue, Open, map[], 0)]))
    case Enqueue(r, fault) =>
      if r !in s.relays || s.relays[r].Done() || s.relays[r].phase != AtEnqueue
         || s.relays[r].events[s.relays[r].next] !in s.table then None
      else
        var b := s.relays[r];
        var id := b.events[b.next];
        var (queue, phase) := AfterEnqueue(s.queue, TaskId(id), s.table[id].event, fault);
        Some(s.(queue := queue, relays := s.relays[r := b.(phase := phase)]))
    case Update(r, ok) =>
      if r !in s.relays || s.relays[r].Done() || s.relays[r].phase == AtEnqueue then None
      else Some(s.(relays := s.relays[r := AfterUpdate(s.table, s.relays[r], ok)]))
    case LoseSession(r) =>
      if r !in s.relays then None
      else Some(s.(relays := s.relays[r := s.relays[r].(txn := Lost)]))
    case Commit(r, fault) =>
      if r !in s.relays || !s.relays[r].Done() then None
      else Some(AfterCommit(s, r, fault))
    case Crash(r) =>
      if r !in s.relays then None
      else Some(s.(relays := s.relays - {r}))
    case Forget(task) =>
      if task !in s.queue.remembered then None
      else Some(s.(queue := Queue(s.queue.remembered - {task}, s.queue.log + [Forgot(task)])))
    case ForeignEnqueue(task, payload) =>
      if IsOutboxTask(task) then None
      else Some(s.(queue := Offer(s.queue, task, payload)))
  }

  ghost function Run(s: State, acts: seq<Action>): Option<State> {
    if acts == [] then Some(s)
    else
      match Run(s, acts[..|acts| - 1])
      case None => None
      case Some(mid) => Apply(mid, acts[|acts| - 1])
  }

  ghost predicate Reachable(s: State) {
    exists acts :: Run(INIT, acts) == Some(s)
  }

  lemma RunSnoc(s: State, acts: seq<Action>, a: Action)
    requires Run(s, acts).Some?
    ensures Run(s, acts + [a]) == Apply(Run(s, acts).value, a)
  {
    assert (acts + [a])[..|acts|] == acts;
  }

  // ----- the invariant -----

  ghost predicate BatchInv(s: State, b: Batch) {
    && Distinct(b.events)
    && Elements(b.events) <= b.locked
    && b.next <= |b.events|
    && (b.phase == AtMark && !b.Done() ==> Delivered(s.table, s.queue, b.events[b.next]))
    && Elements(b.events) <= s.table.Keys
    && (b.HoldsLocks() ==> forall id :: id in b.locked ==> Pending(s.table, id))
    && (b.txn == Open ==> WritesInv(s.table, s.queue, b.events[..b.next], b.writes, b.count))
  }

  /** The uncommitted writes of a batch whose events `done` are processed. */
  ghost predicate WritesInv(t: Table, q: Queue, done: seq<string>, writes: Table, count: nat) {
    && writes.Keys <= Elements(done)
    && (forall id :: id in writes ==> id in t && writes[id].event == t[id].event)
    && (forall id :: id in PublishedIds(writes) ==> Delivered(t, q, id))
    && count == |PublishedIds(writes)|
  }

  ghost predicate LocksDisjoint(relays: map<nat, Batch>) {
    forall p, q :: p in relays && q in relays && p != q && relays[p].HoldsLocks() && relays[q].HoldsLocks()
      ==> relays[p].locked !! relays[q].locked
  }

  ghost predicate QueueInv(t: Table, q: Queue) {
    && (forall task :: AcceptCount(q.log, task) ==
          ForgetCount(q.log, task) + if task in q.remembered then 1 else 0)
    && (forall e :: e in q.log && e.Accepted? && IsOutboxTask(e.task) ==> IsRowTask(t, e))
  }

  ghost predicate IsRowTask(t: Table, e: QueueEvent) {
    exists id :: id in t && e == Accepted(TaskId(id), t[id].event)
  }

  ghost predicate Inv(s: State) {
    && (forall r :: r in s.relays ==> BatchInv(s, s.relays[r]))
    && LocksDisjoint(s.relays)
    && QueueInv(s.table, s.queue)
    && (forall id :: id in PublishedIds(s.table) ==> Delivered(s.table, s.queue, id))
    && s.reported + s.unreported == |PublishedIds(s.table)|
  }

  /** A remembered outbox task is this row's own: nobody else creates such ids. */
  lemma RememberedIsDelivered(t: Table, q: Queue, id: string)
    requires QueueInv(t, q) && TaskId(id) in q.remembered
    ensures Delivered(t, q, id)
  {
    CountedIsLogged(q.log, TaskId(id));
    var payload :| Accepted(TaskId(id), payload) in q.log;
    assert IsRowTask(t, Accepted(TaskId(id), payload));
    var row :| row in t && Accepted(TaskId(id), payload) == Accepted(TaskId(row), t[row].event);
    TaskIdInjective(id, row);
  }

  lemma OfferKeepsQueueInv(t: Table, q: Queue, task: string, payload: string)
    requires QueueInv(t, q)
    requires IsOutboxTask(task) ==> IsRowTask(t, Accepted(task, payload))
    ensures QueueInv(t, Offer(q, task, payload))
    ensures q.log <= Offer(q, task, payload).log
  {
    forall x
      ensures var q' := Offer(q, task, payload);
        AcceptCount(q'.log, x) == ForgetCount(q'.log, x) + if x in q'.remembered then 1 else 0
    {
      CountSnoc(q.log, Accepted(task, payload), x);
    }
  }

  /** No write changes what a row is about. */
  lemma RowTasksSurvive(t: Table, t': Table, q: Queue)
    requires QueueInv(t, q)
    requires forall id :: id in t ==> id in t' && t'[id].event == t[id].event
    ensures QueueInv(t', q)
    ensures forall id :: Delivered(t, q, id) ==> Delivered(t', q, id)
  {
    forall e | e in q.log && e.Accepted? && IsOutboxTask(e.task) ensures IsRowTask(t', e) {
      assert IsRowTask(t, e);
      var id :| id in t && e == Accepted(TaskId(id), t[id].event);
      assert id in t' && e == Accepted(TaskId(id), t'[id].event);
    }
  }

  /** The published rows of a committed batch are new, so the totals add up. */
  lemma CommitCounts(t: Table, w: Table)
    requires w.Keys <= t.Keys
    requires forall id :: id in w ==> !t[id].published
    ensures PublishedIds(t + w) == PublishedIds(t) + PublishedIds(w)
    ensures PublishedIds(t + w) - PublishedIds(t) == PublishedIds(w)
    ensures |PublishedIds(t + w)| == |PublishedIds(t)| + |PublishedIds(w)|
  {
    assert PublishedIds(t + w) == PublishedIds(t) + PublishedIds(w);
    UnionCardinality(PublishedIds(t), PublishedIds(w));
  }

  /** The writes of an open batch that is done: pending rows, their marks delivered. */
  lemma DoneWrites(s: State, b: Batch)
    requires BatchInv(s, b) && b.txn == Open && b.Done()
    ensures b.writes.Keys <= s.table.Keys && b.count == |PublishedIds(b.writes)|
    ensures forall id :: id in b.writes ==> Pending(s.table, id) && b.writes[id].event == s.table[id].event
    ensures forall id :: id in PublishedIds(b.writes) ==> Delivered(s.table, s.queue, id)
  {
    assert b.events[..b.next] == b.events;
  }

  /** A batch's part of the invariant survives a queue that only accepts more. */
  lemma BatchInvMonotone(s: State, s': State, b: Batch)
    requires BatchInv(s, b) && s'.table == s.table
    requires s.queue.log <= s'.queue.log
    ensures BatchInv(s', b)
  {
  }

  lemma EnqueueKeepsInv(s: State, r: nat, fault: EnqueueFault)
    requires Inv(s) && Apply(s, Enqueue(r, fault)).Some?
    ensures Inv(Apply(s, Enqueue(r, fault)).value)
  {
    var b := s.relays[r];
    var s' := Apply(s, Enqueue(r, fault)).value;
    var id := b.events[b.next];
    assert BatchInv(s, b);
    assert IsRowTask(s.table, Accepted(TaskId(id), s.table[id].event));
    OfferKeepsQueueInv(s.table, s.queue, TaskId(id), s.table[id].event);
    forall p | p in s'.relays ensures BatchInv(s', s'.relays[p]) {
      if p == r && fault == NoFault {
        RememberedIsDelivered(s'.table, s'.queue, id);
      }
      BatchInvMonotone(s, s', s.relays[p]);
    }
  }

  lemma WriteKeepsWritesInv(t: Table, q: Queue, done: seq<string>, writes: Table, count: nat, id: string, row: Row)
    requires WritesInv(t, q, done, writes, count)
    requires id !in done && id in t && row.event == t[id].event
    requires row.published ==> Delivered(t, q, id)
    ensures WritesInv(t, q, done + [id], writes[id := row], if row.published then count + 1 else count)
  {
    assert Elements(done + [id]) == Elements(done) + {id};
    assert id !in writes;
    if row.published {
      assert PublishedIds(writes[id := row]) == PublishedIds(writes) + {id};
    } else {
      assert PublishedIds(writes[id := row]) == PublishedIds(writes);
    }
  }

  lemma AfterUpdateInv(s: State, b: Batch, ok: bool)
    requires BatchInv(s, b) && !b.Done() && b.phase != AtEnqueue
    ensures BatchInv(s, AfterUpdate(s.table, b, ok))
  {
    var b' := AfterUpdate(s.table, b, ok);
    var id := b.events[b.next];
    assert b.events[..b.next + 1] == b.events[..b.next] + [id];
    assert id in Elements(b.events);
    if b'.txn == Open {
      assert Pending(s.table, id);
      WriteKeepsWritesInv(s.table, s.queue, b.events[..b.next], b.writes, b.count, id, b'.writes[id]);
    }
  }

  lemma UpdateKeepsInv(s: State, r: nat, ok: bool)
    requires Inv(s) && Apply(s, Update(r, ok)).Some?
    ensures Inv(Apply(s, Update(r, ok)).value)
  {
    var s' := Apply(s, Update(r, ok)).value;
    AfterUpdateInv(s, s.relays[r], ok);
    forall p | p in s'.relays ensures BatchInv(s', s'.relays[p]) {
      assert BatchInv(s, s'.relays[p]);
    }
  }

  lemma SelectKeepsInv(s: State, r: nat, limit: nat, selection: seq<string>, scanned: seq<string>)
    requires Inv(s) && Apply(s, Select(r, limit, selection, scanned)).Some?
    ensures Inv(Apply(s, Select(r, limit, selection, scanned)).value)
  {
    var s' := Apply(s, Select(r, limit, selection, scanned)).value;
    if scanned != [] {
      assert PublishedIds(map[]) == {};
      forall p | p in s'.relays ensures BatchInv(s', s'.relays[p]) {
        if p != r { assert BatchInv(s, s.relays[p]); }
      }
      forall p, q | p in s'.relays && q in s'.relays && p != q
                    && s'.relays[p].HoldsLocks() && s'.relays[q].HoldsLocks()
        ensures s'.relays[p].locked !! s'.relays[q].locked
      {
        if p == r {
          assert s.relays[q].locked <= LockedRows(s.relays);
        } else if q == r {
          assert s.relays[p].locked <= LockedRows(s.relays);
        }
      }
    }
  }

  /** What a commit does: it publishes rows that were pending and whose content the queue
      has accepted, as many as its totals go up by, and nothing unless its transaction
      is open and accepted. */
  ghost predicate CommitEffect(s: State, r: nat, fault: CommitFault, s': State)
    requires r in s.relays
  {
    var marked := PublishedIds(s'.table) - PublishedIds(s.table);
    && PublishedIds(s.table) <= PublishedIds(s'.table)
    && (forall id :: id in marked ==> Pending(s.table, id) && Delivered(s.table, s.queue, id))
    && s'.reported - s.reported == (if fault == Acked then |marked| else 0)
    && s'.unreported - s.unreported == (if fault == AckLost then |marked| else 0)
    && (s.relays[r].txn != Open || fault == Rejected ==> s'.table == s.table)
  }

  lemma CommitPublishes(s: State, r: nat, fault: CommitFault)
    requires Inv(s) && Apply(s, Commit(r, fault)).Some?
    ensures CommitEffect(s, r, fault, Apply(s, Commit(r, fault)).value)
  {
    var b := s.relays[r];
    assert BatchInv(s, b);
    if b.txn == Open && fault != Rejected {
      DoneWrites(s, b);
      CommitCounts(s.table, b.writes);
    }
  }

  /** A batch that is not this one keeps its part, since the rows it locks are others. */
  lemma OpenCommitKeepsOther(s: State, b: Batch, other: Batch, s': State)
    requires BatchInv(s, b) && b.txn == Open && b.Done() && BatchInv(s, other)
    requires other.HoldsLocks() ==> other.locked !! b.locked
    requires s'.table == s.table + b.writes && s'.queue == s.queue
    ensures BatchInv(s', other)
  {
    DoneWrites(s, b);
    assert b.writes.Keys <= b.locked;
    forall id | Delivered(s.table, s.queue, id) ensures Delivered(s'.table, s'.queue, id) {
    }
  }

  lemma OpenCommitKeepsBatches(s: State, r: nat, fault: CommitFault)
    requires Inv(s) && Apply(s, Commit(r, fault)).Some? && s.relays[r].txn == Open && fault != Rejected
    ensures var s' := Apply(s, Commit(r, fault)).value;
      forall p :: p in s'.relays ==> BatchInv(s', s'.relays[p])
  {
    var b := s.relays[r];
    var s' := Apply(s, Commit(r, fault)).value;
    assert BatchInv(s, b);
    forall p | p in s'.relays ensures BatchInv(s', s'.relays[p]) {
      assert BatchInv(s, s.relays[p]);
      OpenCommitKeepsOther(s, b, s.relays[p], s');
    }
  }

  lemma OpenCommitKeepsRest(s: State, r: nat, fault: CommitFault)
    requires Inv(s) && Apply(s, Commit(r, fault)).Some? && s.relays[r].txn == Open && fault != Rejected
    ensures var s' := Apply(s, Commit(r, fault)).value;
      && LocksDisjoint(s'.relays) && QueueInv(s'.table, s'.queue)
      && (forall id :: id in PublishedIds(s'.table) ==> Delivered(s'.table, s'.queue, id))
      && s'.reported + s'.unreported == |PublishedIds(s'.table)|
  {
    var b := s.relays[r];
    var s' := Apply(s, Commit(r, fault)).value;
    assert BatchInv(s, b);
    DoneWrites(s, b);
    RowTasksSurvive(s.table, s'.table, s.queue);
    CommitCounts(s.table, b.writes);
  }

  lemma ClosedCommitKeepsInv(s: State, r: nat, fault: CommitFault)
    requires Inv(s) && Apply(s, Commit(r, fault)).Some? && (s.relays[r].txn != Open || fault == Rejected)
    ensures Inv(Apply(s, Commit(r, fault)).value)
  {
    var s' := Apply(s, Commit(r, fault)).value;
    forall p | p in s'.relays ensures BatchInv(s', s'.relays[p]) {
      assert BatchInv(s, s.relays[p]);
    }
  }

  lemma CommitKeepsInv(s: State, r: nat, fault: CommitFault)
    requires Inv(s) && Apply(s, Commit(r, fault)).Some?
    ensures Inv(Apply(s, Commit(r, fault)).value)
    ensures CommitEffect(s, r, fault, Apply(s, Commit(r, fault)).value)
  {
    CommitPublishes(s, r, fault);
    if s.relays[r].txn == Open && fault != Rejected {
      OpenCommitKeepsBatches(s, r, fault);
      OpenCommitKeepsRest(s, r, fault);
    } else {
      ClosedCommitKeepsInv(s, r, fault);
    }
  }

  lemma ForgetKeepsQueueInv(t: Table, q: Queue, task: string)
    requires QueueInv(t, q) && task in q.remembered
    ensures QueueInv(t, Queue(q.remembered - {task}, q.log + [Forgot(task)]))
  {
    var q' := Queue(q.remembered - {task}, q.log + [Forgot(task)]);
    forall x
      ensures AcceptCount(q'.log, x) == ForgetCount(q'.log, x) + if x in q'.remembered then 1 else 0
    {
      CountSnoc(q.log, Forgot(task), x);
    }
  }

  lemma ForgetKeepsInv(s: State, task: string)
    requires Inv(s) && Apply(s, Forget(task)).Some?
    ensures Inv(Apply(s, Forget(task)).value)
  {
    var s' := Apply(s, Forget(task)).value;
    ForgetKeepsQueueInv(s.table, s.queue, task);
    forall p | p in s'.relays ensures BatchInv(s', s'.relays[p]) {
      BatchInvMonotone(s, s', s.relays[p]);
    }
  }

  /** Every step of every relay, and every environment step, keeps the invariant. */
  lemma StepKeepsInv(s: State, a: Action)
    requires Inv(s) && Apply(s, a).Some?
    ensures Inv(Apply(s, a).value)
  {
    var s' := Apply(s, a).value;
    match a {
      case Insert(id, event, createdAt) =>
        assert PublishedIds(s'.table) == PublishedIds(s.table);
        RowTasksSurvive(s.table, s'.table, s.queue);
        forall p | p in s'.relays ensures BatchInv(s', s'.relays[p]) { assert BatchInv(s, s.relays[p]); }
      case Select(r, limit, selection, scanned) => SelectKeepsInv(s, r, limit, selection, scanned);
      case Enqueue(r, fault) => EnqueueKeepsInv(s, r, fault);
      case Update(r, ok) => UpdateKeepsInv(s, r, ok);
      case LoseSession(r) =>
        forall p | p in s'.relays ensures BatchInv(s', s'.relays[p]) { assert BatchInv(s, s.relays[p]); }
      case Commit(r, fault) => CommitKeepsInv(s, r, fault);
      case Crash(r) =>
        forall p | p in s'.relays ensures BatchInv(s', s'.relays[p]) { assert BatchInv(s, s.relays[p]); }
      case Forget(task) => ForgetKeepsInv(s, task);
      case ForeignEnqueue(task, payload) =>
        OfferKeepsQueueInv(s.table, s.queue, task, payload);
        forall p | p in s'.relays ensures BatchInv(s', s'.relays[p]) { BatchInvMonotone(s, s', s.relays[p]); }
    }
  }

  lemma {:induction false} RunKeepsInv(s: State, acts: seq<Action>)
    requires Inv(s) && Run(s, acts).Some?
    ensures Inv(Run(s, acts).value)
  {
    if acts != [] {
      RunKeepsInv(s, acts[..|acts| - 1]);
      StepKeepsInv(Run(s, acts[..|acts| - 1]).value, acts[|acts| - 1]);
    }
  }

  ghost predicate KeepsRows(t: Table, t': Table) {
    forall id :: id in t ==> id in t' && t'[id].event == t[id].event
  }

  /** Rows are never removed, and what they ask for never changes. */
  lemma StepKeepsRows(s: State, a: Action)
    requires Inv(s) && Apply(s, a).Some?
    ensures KeepsRows(s.table, Apply(s, a).value.table)
  {
    if a.Commit? {
      assert BatchInv(s, s.relays[a.relay]);
    }
  }

  lemma StepKeepsKeys(s: State, a: Action)
    requires Inv(s) && Apply(s, a).Some?
    ensures Apply(s, a).value.table.Keys == if a.Insert? then s.table.Keys + {a.id} else s.table.Keys
  {
    if a.Commit? {
      var b := s.relays[a.relay];
      assert BatchInv(s, b);
      if b.txn == Open {
        DoneWrites(s, b);
        assert (s.table + b.writes).Keys == s.table.Keys + b.writes.Keys;
      }
    }
  }

  lemma {:induction false} RunKeepsRows(s: State, acts: seq<Action>)
    requires Inv(s) && Run(s, acts).Some?
    ensures KeepsRows(s.table, Run(s, acts).value.table)
  {
    if acts != [] {
      var before := acts[..|acts| - 1];
      RunKeepsRows(s, before);
      RunKeepsInv(s, before);
      StepKeepsRows(Run(s, before).value, acts[|acts| - 1]);
    }
  }

  lemma InitInv()
    ensures Inv(INIT)
  {
    assert PublishedIds(INIT.table) == {};
  }

  lemma ReachableInv(s: State)
    requires Reachable(s)
    ensures Inv(s)
  {
    var acts :| Run(INIT, acts) == Some(s);
    InitInv();
    RunKeepsInv(INIT, acts);
  }

  /** While the queue remembers a row's task it has accepted it exactly once more
      often than it has forgotten it, and otherwise equally often; live
      transactions never hold the same row. */
  lemma AtMostOnceWhileRemembered(s: State)
    requires Reachable(s)
    ensures forall id :: 0 <= Accepts(s.queue, id) - Forgets(s.queue, id) <= 1
    ensures forall id :: Accepts(s.queue, id) == Forgets(s.queue, id) + 1 <==> TaskId(id) in s.queue.remembered
    ensures LocksDisjoint(s.relays)
  {
    ReachableInv(s);
  }

  /** No loss and no forgery: a row whose `published_at` is committed was handed to the
      queue with its own content, every outbox task the queue ever took is some row's,
      and the relays' returned counts plus those of unacknowledged commits are
      exactly the rows published, so no row is ever counted twice. */
  lemma PublishedWereDelivered(s: State)
    requires Reachable(s)
    ensures forall id :: id in s.table ==> Pending(s.table, id) || Delivered(s.table, s.queue, id)
    ensures forall e :: e in s.queue.log && e.Accepted? && IsOutboxTask(e.task) ==> IsRowTask(s.table, e)
    ensures s.reported + s.unreported == |PublishedIds(s.table)|
  {
    ReachableInv(s);
  }
}
