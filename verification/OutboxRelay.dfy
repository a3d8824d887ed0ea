/** `Relay.ProcessBatch` as code. Between any two of its statements the other relays,
    the queue's expiry and the database may do whatever the protocol lets them do; the
    call then still takes exactly its own protocol steps. */
module OutboxRelay {
  import opened Prelude
  import opened Outbox

  /** How the enqueue and the update of one event turn out. */
  datatype EventFault = EventFault(enqueue: EnqueueFault, updateOk: bool)

  function EventScript(r: nat, f: EventFault): seq<Action> {
    [Enqueue(r, f.enqueue), Update(r, f.updateOk)]
  }

  function LoopScript(r: nat, faults: seq<EventFault>): seq<Action> {
    if faults == [] then []
    else LoopScript(r, faults[..|faults| - 1]) + EventScript(r, faults[|faults| - 1])
  }

  /** The steps of one whole call; a call that finds nothing ends after its SELECT. */
  function BatchScript(r: nat, limit: nat, selection: seq<string>, scanned: seq<string>,
                       faults: seq<EventFault>, commit: CommitFault): seq<Action> {
    if scanned == [] then [Select(r, limit, selection, scanned)]
    else [Select(r, limit, selection, scanned)] + LoopScript(r, faults) + [Commit(r, commit)]
  }

  // ----- a call's own steps among all steps -----

  /** Losing its session is not a step that a relay takes itself. */
  predicate IsOwn(a: Action, r: nat) {
    match a
    case Select(relay, _, _, _) => relay == r
    case Enqueue(relay, _) => relay == r
    case Update(relay, _) => relay == r
    case Commit(relay, _) => relay == r
    case Crash(relay) => relay == r
    case _ => false
  }

  function Own(acts: seq<Action>, r: nat): seq<Action> {
    if acts == [] then []
    else
      var last := acts[|acts| - 1];
      Own(acts[..|acts| - 1], r) + if IsOwn(last, r) then [last] else []
  }

  lemma {:induction false} OwnAppend(front: seq<Action>, back: seq<Action>, r: nat)
    ensures Own(front + back, r) == Own(front, r) + Own(back, r)
  {
    if back == [] {
      assert front + back == front;
    } else {
      OwnAppend(front, back[..|back| - 1], r);
      assert (front + back)[..|front + back| - 1] == front + back[..|back| - 1];
    }
  }

  lemma OwnSingle(a: Action, r: nat)
    requires IsOwn(a, r)
    ensures Own([a], r) == [a]
  {
    assert [a][..0] == [];
  }

  lemma RunOne(s: State, a: Action)
    ensures Run(s, [a]) == Apply(s, a)
  {
    assert [a][..0] == [];
    assert Run(s, []) == Some(s);
  }

  lemma {:induction false} RunAppend(s: State, front: seq<Action>, back: seq<Action>)
    requires Run(s, front).Some?
    ensures Run(s, front + back) == Run(Run(s, front).value, back)
  {
    if back == [] {
      assert front + back == front;
    } else {
      RunAppend(s, front, back[..|back| - 1]);
      assert (front + back)[..|front + back| - 1] == front + back[..|back| - 1];
    }
  }

  // ----- the surroundings of a call -----

  /** What the surroundings make of the system in the n-th pause of the call. */
  type Surroundings = (nat, State) -> State

  /** The protocol steps by which they do it, none of them the call's own. */
  type Moves = (nat, State) -> seq<Action>

  ghost predicate AreMoves(surroundings: Surroundings, moves: Moves, r: nat) {
    forall n, s :: Run(s, moves(n, s)) == Some(surroundings(n, s)) && Own(moves(n, s), r) == []
  }

  ghost predicate AreQuiet(moves: Moves) {
    forall n, s :: moves(n, s) == []
  }

  /** From `s` to `s'` by `acts`, of which `script` are relay `r`'s own. */
  ghost predicate Leads(s: State, acts: seq<Action>, s': State, r: nat, script: seq<Action>, moves: Moves) {
    && Run(s, acts) == Some(s') && Inv(s') && KeepsRows(s.table, s'.table)
    && Own(acts, r) == script && (AreQuiet(moves) ==> acts == script)
  }

  lemma LeadsBy(s: State, acts: seq<Action>, s': State, r: nat, script: seq<Action>, moves: Moves)
    requires Inv(s) && Run(s, acts) == Some(s') && Own(acts, r) == script && (AreQuiet(moves) ==> acts == script)
    ensures Leads(s, acts, s', r, script, moves)
  {
    RunKeepsInv(s, acts);
    RunKeepsRows(s, acts);
  }

  lemma LeadsByOne(s: State, a: Action, s': State, r: nat, moves: Moves)
    requires Inv(s) && Apply(s, a) == Some(s') && IsOwn(a, r)
    ensures Leads(s, [a], s', r, [a], moves)
  {
    RunOne(s, a);
    OwnSingle(a, r);
    LeadsBy(s, [a], s', r, [a], moves);
  }

  lemma LeadsOn(s: State, acts: seq<Action>, mid: State, more: seq<Action>, s': State, r: nat,
                script: seq<Action>, rest: seq<Action>, moves: Moves)
    requires Leads(s, acts, mid, r, script, moves) && Leads(mid, more, s', r, rest, moves)
    ensures Leads(s, acts + more, s', r, script + rest, moves)
  {
    RunAppend(s, acts, more);
    OwnAppend(acts, more, r);
  }

  /** Others cannot touch a relay's batch, but its session may get lost. */
  lemma {:induction false} OthersLeaveBatch(s: State, acts: seq<Action>, r: nat)
    requires r in s.relays && Run(s, acts).Some? && Own(acts, r) == []
    ensures var s' := Run(s, acts).value;
      r in s'.relays && (s'.relays[r] == s.relays[r] || s'.relays[r] == s.relays[r].(txn := Lost))
  {
    if acts != [] {
      OthersLeaveBatch(s, acts[..|acts| - 1], r);
      assert !IsOwn(acts[|acts| - 1], r);
    }
  }

  lemma WithoutSelf(batches: map<nat, Batch>, r: nat, b: Batch)
    requires r !in batches
    ensures batches[r := b] - {r} == batches
  {
  }

  lemma CommitLeads(s: State, r: nat, fault: CommitFault, s': State, moves: Moves)
    requires Inv(s) && r in s.relays && s.relays[r].Done() && s' == AfterCommit(s, r, fault)
    ensures Leads(s, [Commit(r, fault)], s', r, [Commit(r, fault)], moves)
  {
    LeadsByOne(s, Commit(r, fault), s', r, moves);
  }

  // ----- the code -----

  class OutboxStore {
    var rows: Table
    constructor ()
      ensures rows == map[]
    {
      rows := map[];
    }
  }

  datatype EnqueueReply = Enqueued | TaskIdConflict | Failed(error: string)

  class TaskQueue {
    var remembered: set<string>
    var log: seq<QueueEvent>

    constructor ()
      ensures View() == Queue({}, [])
    {
      remembered, log := {}, [];
    }

    function View(): Queue
      reads this
    {
      Queue(remembered, log)
    }

    method EnqueueTask(task: string, payload: string, fault: EnqueueFault) returns (reply: EnqueueReply)
      modifies this
      ensures View() == AfterEnqueue(old(View()), task, payload, fault).0
      ensures match fault
        case NoFault => reply == if task in old(remembered) then TaskIdConflict else Enqueued
        case Refused(e) => reply == Failed(e)
        case ReplyLost(e) => reply == Failed(e)
    {
      if fault.Refused? {
        return Failed(fault.error);
      }
      var conflict := task in remembered;
      if !conflict {
        remembered := remembered + {task};
        log := log + [Accepted(task, payload)];
      }
      reply := if fault.ReplyLost? then Failed(fault.error)
               else if conflict then TaskIdConflict else Enqueued;
    }
  }

  /** The other relays' batches, and the totals that all finished calls add up to. */
  class Deployment {
    var batches: map<nat, Batch>
    var reported: nat
    var unreported: nat

    constructor ()
      ensures batches == map[] && reported == 0 == unreported
    {
      batches, reported, unreported := map[], 0, 0;
    }
  }

  /** The positive batch size a relay is made with. */
  function BatchSize(size: int): nat {
    if size <= 0 then 20 else size
  }

  /** Whatever size is asked for, a call ends empty-handed only when nothing is free. */
  lemma IdleIff(size: int, t: Table, locked: set<string>, selection: seq<string>)
    requires IsSelection(t, locked, BatchSize(size), selection)
    ensures selection == [] <==> Free(t, locked) == {}
  {
    if selection == [] && Free(t, locked) != {} {
      var id :| id in Free(t, locked);
      assert Pending(t, id) && id !in selection;
    }
    if selection != [] {
      assert selection[0] in selection;
      assert selection[0] in Free(t, locked);
    }
  }

  class Relay {
    const batchSize: nat

    constructor (size: int)
      ensures batchSize == BatchSize(size) && (size <= 0 ==> batchSize == 20) && (size > 0 ==> batchSize == size)
    {
      batchSize := if size <= 0 then 20 else size;
    }

    /** The whole system while this call, as relay `self`, is at batch `b`. */
    function Whole(store: OutboxStore, queue: TaskQueue, others: Deployment, self: nat, b: Batch): State
      reads store, queue, others
    {
      State(store.rows, queue.View(), others.batches[self := b], others.reported, others.unreported)
    }

    /** The whole system before and after this call. */
    function Rest(store: OutboxStore, queue: TaskQueue, others: Deployment): State
      reads store, queue, others
    {
      State(store.rows, queue.View(), others.batches, others.reported, others.unreported)
    }

    /** A pause between two statements. */
    method Pause(store: OutboxStore, queue: TaskQueue, others: Deployment, self: nat, b: Batch,
                 n: nat, surroundings: Surroundings, ghost moves: Moves)
      returns (b': Batch, ghost acts: seq<Action>)
      requires self !in others.batches && AreMoves(surroundings, moves, self)
      requires Inv(Whole(store, queue, others, self, b))
      modifies store, queue, others
      ensures self !in others.batches && (b' == b || b' == b.(txn := Lost))
      ensures Leads(old(Whole(store, queue, others, self, b)), acts, Whole(store, queue, others, self, b'),
                    self, [], moves)
    {
      var s := Whole(store, queue, others, self, b);
      var s' := surroundings(n, s);
      acts := moves(n, s);
      assert Run(s, acts) == Some(s');
      OthersLeaveBatch(s, acts, self);
      store.rows := s'.table;
      queue.remembered, queue.log := s'.queue.remembered, s'.queue.log;
      others.batches := s'.relays - {self};
      others.reported, others.unreported := s'.reported, s'.unreported;
      b' := s'.relays[self];
      assert others.batches[self := b'] == s'.relays;
      LeadsBy(s, acts, s', self, [], moves);
    }

    /** Enqueue under the row's task id; `payload` was read by the SELECT. */
    method EnqueueEvent(store: OutboxStore, queue: TaskQueue, others: Deployment, self: nat, b: Batch, payload: string,
                        fault: EnqueueFault, ghost moves: Moves)
      returns (b': Batch)
      requires self !in others.batches
      requires Inv(Whole(store, queue, others, self, b)) && !b.Done() && b.phase == AtEnqueue
      requires b.events[b.next] in store.rows && store.rows[b.events[b.next]].event == payload
      modifies queue
      ensures b'.events == b.events && b'.next == b.next && b'.phase != AtEnqueue
      ensures Leads(old(Whole(store, queue, others, self, b)), [Enqueue(self, fault)],
                    Whole(store, queue, others, self, b'), self, [Enqueue(self, fault)], moves)
    {
      ghost var s := Whole(store, queue, others, self, b);
      var reply := queue.EnqueueTask(TaskId(b.events[b.next]), payload, fault);
      b' := b.(phase := if reply.Failed? then AtRecord(reply.error) else AtMark);
      assert s.relays[self := b'] == others.batches[self := b'];
      LeadsByOne(s, Enqueue(self, fault), Whole(store, queue, others, self, b'), self, moves);
    }

    /** The update itself: mark the row as published, or record the enqueue's error. */
    method WriteUpdate(store: OutboxStore, b: Batch, ok: bool) returns (b': Batch)
      requires !b.Done() && b.phase != AtEnqueue && b.events[b.next] in store.rows
      ensures b' == AfterUpdate(store.rows, b, ok)
      ensures b.txn != Open ==> b'.writes == b.writes && b'.count == b.count && b'.txn == b.txn
      ensures b.txn == Open && !ok ==> b'.txn == Aborted && b'.writes == b.writes && b'.count == b.count
      ensures b.txn == Open && ok ==>
        && b'.txn == Open
        && var row := store.rows[b.events[b.next]];
           if b.phase.AtRecord? then
             && b'.writes == b.writes[b.events[b.next] :=
                  Row(row.event, row.createdAt, row.published, row.attempts + 1, Some(b.phase.error))]
             && b'.count == b.count
           else
             && b'.writes == b.writes[b.events[b.next] := Row(row.event, row.createdAt, true, row.attempts, None)]
             && b'.count == b.count + 1
    {
      var id := b.events[b.next];
      b' := b;
      if b.txn == Open && !ok {
        b' := b.(txn := Aborted);
      } else if b.txn == Open && b.phase.AtRecord? {
        b' := b.(writes := b.writes[id := Recorded(store.rows[id], b.phase.error)]);
      } else if b.txn == Open {
        b' := b.(writes := b.writes[id := Marked(store.rows[id])], count := b.count + 1);
      }
      b' := b'.(next := b.next + 1, phase := AtEnqueue);
    }

    /** The update as a step of the protocol. */
    method UpdateEvent(store: OutboxStore, queue: TaskQueue, others: Deployment, self: nat, b: Batch,
                       ok: bool, ghost moves: Moves)
      returns (b': Batch)
      requires self !in others.batches
      requires Inv(Whole(store, queue, others, self, b)) && !b.Done() && b.phase != AtEnqueue
      ensures b'.events == b.events && b'.next == b.next + 1 && b'.phase == AtEnqueue
      ensures Leads(Whole(store, queue, others, self, b), [Update(self, ok)], Whole(store, queue, others, self, b'),
                    self, [Update(self, ok)], moves)
    {
      ghost var s := Whole(store, queue, others, self, b);
      assert BatchInv(s, s.relays[self]);
      assert b.events[b.next] in Elements(b.events);
      b' := WriteUpdate(store, b, ok);
      assert s.relays[self := b'] == others.batches[self := b'];
      LeadsByOne(s, Update(self, ok), Whole(store, queue, others, self, b'), self, moves);
    }

    /** A pause and the enqueue. */
    method PausedEnqueue(store: OutboxStore, queue: TaskQueue, others: Deployment, self: nat, b: Batch,
                         payload: string, fault: EnqueueFault, n: nat, surroundings: Surroundings, ghost moves: Moves)
      returns (b': Batch, ghost acts: seq<Action>)
      requires self !in others.batches && AreMoves(surroundings, moves, self)
      requires Inv(Whole(store, queue, others, self, b)) && !b.Done() && b.phase == AtEnqueue
      requires b.events[b.next] in store.rows && store.rows[b.events[b.next]].event == payload
      modifies store, queue, others
      ensures self !in others.batches
      ensures b'.events == b.events && b'.next == b.next && b'.phase != AtEnqueue
      ensures Leads(old(Whole(store, queue, others, self, b)), acts, Whole(store, queue, others, self, b'),
                    self, [Enqueue(self, fault)], moves)
    {
      ghost var s := Whole(store, queue, others, self, b);
      b', acts := Pause(store, queue, others, self, b, n, surroundings, moves);
      ghost var mid := Whole(store, queue, others, self, b');
      b' := EnqueueEvent(store, queue, others, self, b', payload, fault, moves);
      ghost var step := [Enqueue(self, fault)];
      LeadsOn(s, acts, mid, step, Whole(store, queue, others, self, b'), self, [], step, moves);
      acts := acts + step;
      assert [] + step == step;
    }

    /** A pause and the update. */
    method PausedUpdate(store: OutboxStore, queue: TaskQueue, others: Deployment, self: nat, b: Batch,
                        ok: bool, n: nat, surroundings: Surroundings, ghost moves: Moves)
      returns (b': Batch, ghost acts: seq<Action>)
      requires self !in others.batches && AreMoves(surroundings, moves, self)
      requires Inv(Whole(store, queue, others, self, b)) && !b.Done() && b.phase != AtEnqueue
      modifies store, queue, others
      ensures self !in others.batches
      ensures b'.events == b.events && b'.next == b.next + 1 && b'.phase == AtEnqueue
      ensures Leads(old(Whole(store, queue, others, self, b)), acts, Whole(store, queue, others, self, b'),
                    self, [Update(self, ok)], moves)
    {
      ghost var s := Whole(store, queue, others, self, b);
      b', acts := Pause(store, queue, others, self, b, n, surroundings, moves);
      ghost var mid := Whole(store, queue, others, self, b');
      b' := UpdateEvent(store, queue, others, self, b', ok, moves);
      ghost var step := [Update(self, ok)];
      LeadsOn(s, acts, mid, step, Whole(store, queue, others, self, b'), self, [], step, moves);
      acts := acts + step;
      assert [] + step == step;
    }

    /** One iteration of the loop. */
    method HandleEvent(store: OutboxStore, queue: TaskQueue, others: Deployment, self: nat, b: Batch,
                       payload: string, fault: EventFault, n: nat, surroundings: Surroundings, ghost moves: Moves)
      returns (b': Batch, ghost acts: seq<Action>)
      requires self !in others.batches && AreMoves(surroundings, moves, self)
      requires Inv(Whole(store, queue, others, self, b)) && !b.Done() && b.phase == AtEnqueue
      requires b.events[b.next] in store.rows && store.rows[b.events[b.next]].event == payload
      modifies store, queue, others
      ensures self !in others.batches
      ensures b'.events == b.events && b'.next == b.next + 1 && b'.phase == AtEnqueue
      ensures Leads(old(Whole(store, queue, others, self, b)), acts, Whole(store, queue, others, self, b'),
                    self, EventScript(self, fault), moves)
    {
      ghost var s := Whole(store, queue, others, self, b);
      b', acts := PausedEnqueue(store, queue, others, self, b, payload, fault.enqueue, n, surroundings, moves);
      ghost var mid, more := Whole(store, queue, others, self, b'), [];
      b', more := PausedUpdate(store, queue, others, self, b', fault.updateOk, n + 1, surroundings, moves);
      LeadsOn(s, acts, mid, more, Whole(store, queue, others, self, b'), self,
              [Enqueue(self, fault.enqueue)], [Update(self, fault.updateOk)], moves);
      acts := acts + more;
      assert [Enqueue(self, fault.enqueue)] + [Update(self, fault.updateOk)] == EventScript(self, fault);
    }

    /** The loop over the events the SELECT returned. */
    method HandleEvents(store: OutboxStore, queue: TaskQueue, others: Deployment, self: nat, b: Batch,
                        payloads: seq<string>, faults: seq<EventFault>, surroundings: Surroundings, ghost moves: Moves)
      returns (b': Batch, ghost acts: seq<Action>)
      requires self !in others.batches && AreMoves(surroundings, moves, self)
      requires Inv(Whole(store, queue, others, self, b)) && b.next == 0 && b.phase == AtEnqueue
      requires |faults| == |payloads| == |b.events|
      requires forall j :: 0 <= j < |b.events| ==>
        b.events[j] in store.rows && store.rows[b.events[j]].event == payloads[j]
      modifies store, queue, others
      ensures self !in others.batches && b'.Done()
      ensures Leads(old(Whole(store, queue, others, self, b)), acts, Whole(store, queue, others, self, b'),
                    self, LoopScript(self, faults), moves)
    {
      ghost var s := Whole(store, queue, others, self, b);
      b', acts := b, [];
      assert Run(s, []) == Some(s);
      LeadsBy(s, [], s, self, [], moves);
      for i := 0 to |faults|
        invariant self !in others.batches && b'.events == b.events && b'.next == i && b'.phase == AtEnqueue
        invariant Leads(s, acts, Whole(store, queue, others, self, b'), self, LoopScript(self, faults[..i]), moves)
      {
        ghost var at, more := Whole(store, queue, others, self, b'), [];
        assert b.events[i] in s.table && s.table[b.events[i]].event == payloads[i];
        b', more := HandleEvent(store, queue, others, self, b', payloads[i], faults[i], 2 * i, surroundings, moves);
        assert faults[..i + 1][..i] == faults[..i];
        LeadsOn(s, acts, at, more, Whole(store, queue, others, self, b'), self,
                LoopScript(self, faults[..i]), EventScript(self, faults[i]), moves);
        acts := acts + more;
      }
      assert faults[..|faults|] == faults;
    }

    /** The commit, which the relay can count on only when it is acknowledged. */
    method CommitBatch(store: OutboxStore, queue: TaskQueue, others: Deployment, self: nat, b: Batch,
                       commit: CommitFault, ghost moves: Moves)
      returns (published: nat, failed: bool)
      requires self !in others.batches && Inv(Whole(store, queue, others, self, b)) && b.Done()
      modifies store, others
      ensures self !in others.batches && (failed ==> published == 0)
      ensures Leads(old(Whole(store, queue, others, self, b)), [Commit(self, commit)], Rest(store, queue, others),
                    self, [Commit(self, commit)], moves)
      ensures published == others.reported - old(others.reported)
    {
      ghost var s := Whole(store, queue, others, self, b);
      WithoutSelf(others.batches, self, b);
      if b.txn != Open || commit == Rejected {
        published, failed := 0, true;
      } else if commit == AckLost {
        store.rows := store.rows + b.writes;
        others.unreported := others.unreported + b.count;
        published, failed := 0, true;
      } else {
        store.rows := store.rows + b.writes;
        others.reported := others.reported + b.count;
        published, failed := b.count, false;
      }
      CommitLeads(s, self, commit, Rest(store, queue, others), moves);
    }

    /** The pause before the commit, and the commit. */
    method FinishBatch(store: OutboxStore, queue: TaskQueue, others: Deployment, self: nat, b: Batch,
                       commit: CommitFault, n: nat, surroundings: Surroundings, ghost moves: Moves)
      returns (published: nat, failed: bool, ghost acts: seq<Action>, ghost last: State)
      requires self !in others.batches && AreMoves(surroundings, moves, self)
      requires Inv(Whole(store, queue, others, self, b)) && b.Done()
      modifies store, queue, others
      ensures self !in others.batches && (failed ==> published == 0)
      ensures Leads(old(Whole(store, queue, others, self, b)), acts, last, self, [], moves)
      ensures Leads(last, [Commit(self, commit)], Rest(store, queue, others), self, [Commit(self, commit)], moves)
      ensures published == others.reported - last.reported
    {
      var c: Batch;
      c, acts := Pause(store, queue, others, self, b, n, surroundings, moves);
      last := Whole(store, queue, others, self, c);
      published, failed := CommitBatch(store, queue, others, self, c, commit, moves);
    }

    /** `selection` and `scanned` are what the SELECT locks and what is read of it, in order. */
    method SelectEvents(store: OutboxStore, queue: TaskQueue, others: Deployment, self: nat,
                        selection: seq<string>, scanned: seq<string>, ghost moves: Moves)
      returns (b: Batch, payloads: seq<string>)
      requires self !in others.batches && Inv(Rest(store, queue, others))
      requires IsSelection(store.rows, LockedRows(others.batches), batchSize, selection)
      requires Distinct(scanned) && Elements(scanned) <= Elements(selection) && scanned != []
      ensures b == Batch(Elements(selection), scanned, 0, AtEnqueue, Open, map[], 0)
      ensures |payloads| == |scanned|
      ensures forall j :: 0 <= j < |scanned| ==> scanned[j] in store.rows && store.rows[scanned[j]].event == payloads[j]
      ensures var select := Select(self, batchSize, selection, scanned);
        Leads(Rest(store, queue, others), [select], Whole(store, queue, others, self, b), self, [select], moves)
    {
      b := Batch(Elements(selection), scanned, 0, AtEnqueue, Open, map[], 0);
      payloads := [];
      for i := 0 to |scanned|
        invariant |payloads| == i
        invariant forall j :: 0 <= j < i ==> scanned[j] in store.rows && store.rows[scanned[j]].event == payloads[j]
      {
        assert scanned[i] in Elements(scanned) && scanned[i] in selection;
        payloads := payloads + [store.rows[scanned[i]].event];
      }
      LeadsByOne(Rest(store, queue, others), Select(self, batchSize, selection, scanned),
                 Whole(store, queue, others, self, b), self, moves);
    }

    /** The call leaves a run of the protocol in which its own steps are those of its script,
        and all steps when the surroundings are quiet; it returns what its commit, the
        last step, adds to the reported total. */
    method ProcessBatch(store: OutboxStore, queue: TaskQueue, others: Deployment, self: nat,
                        selection: seq<string>, scanned: seq<string>,
                        faults: seq<EventFault>, commit: CommitFault, surroundings: Surroundings, ghost moves: Moves)
      returns (published: nat, failed: bool, ghost acts: seq<Action>, ghost last: State)
      requires self !in others.batches && Inv(Rest(store, queue, others))
      requires IsSelection(store.rows, LockedRows(others.batches), batchSize, selection)
      requires Distinct(scanned) && Elements(scanned) <= Elements(selection)
      requires |faults| == |scanned| && AreMoves(surroundings, moves, self)
      modifies store, queue, others
      ensures Leads(old(Rest(store, queue, others)), acts, Rest(store, queue, others), self,
                    BatchScript(self, batchSize, selection, scanned, faults, commit), moves)
      ensures scanned == [] ==> published == 0 && !failed
      ensures scanned != [] ==>
        && acts != [] && Run(old(Rest(store, queue, others)), acts[..|acts| - 1]) == Some(last)
        && acts[|acts| - 1] == Commit(self, commit) && published == others.reported - last.reported
      ensures failed ==> published == 0
    {
      ghost var s := Rest(store, queue, others);
      ghost var select := Select(self, batchSize, selection, scanned);
      if |scanned| == 0 {
        LeadsByOne(s, select, s, self, moves);
        return 0, false, [select], s;
      }
      var b, payloads := SelectEvents(store, queue, others, self, selection, scanned, moves);
      ghost var at, more := Whole(store, queue, others, self, b), [];
      b, more := HandleEvents(store, queue, others, self, b, payloads, faults, surroundings, moves);
      ghost var done := Whole(store, queue, others, self, b);
      LeadsOn(s, [select], at, more, done, self, [select], LoopScript(self, faults), moves);
      acts := [select] + more;
      published, failed, more, last :=
        FinishBatch(store, queue, others, self, b, commit, 2 * |scanned|, surroundings, moves);
      LeadsOn(s, acts, done, more, last, self, [select] + LoopScript(self, faults), [], moves);
      acts := acts + more;
      assert [select] + LoopScript(self, faults) + [] == [select] + LoopScript(self, faults);
      LeadsOn(s, acts, last, [Commit(self, commit)], Rest(store, queue, others), self,
              [select] + LoopScript(self, faults), [Commit(self, commit)], moves);
      assert (acts + [Commit(self, commit)])[..|acts|] == acts;
      acts := acts + [Commit(self, commit)];
    }
  }
}
