/** The hash-chained audit ledger of one workflow: what a verified chain says about
    its rows, how the append loop keeps it verified, and what interleaved appends do
    to it. The digest is any function to 64-character strings (SHA-256 in hex,
    section 6.2 of FIPS 180-4); it is never taken to be injective, so every claim of
    uniqueness is "or two of the strings hashed here collide". */
module AuditChain {
  import opened Prelude

  type Digest = string -> string

  const DIGEST_LENGTH := 64

  ghost predicate IsDigest(h: Digest) {
    forall s :: |h(s)| == DIGEST_LENGTH
  }

  /** Metadata is printed canonically when an event is appended, and read back from its
      stored form and printed again when the chain is verified. */
  datatype Codec<!M> = Codec(canon: M -> string, reprint: string -> string)

  ghost predicate Faithful<M(!new)>(c: Codec<M>) {
    forall m :: c.reprint(c.canon(m)) == c.canon(m)
  }

  datatype Row = Row(
    actor: string, action: string, payloadHash: string,
    previous: Option<string>, eventHash: string, metadata: string, timestamp: int)

  const SEPARATOR := "|"

  function Payload(workflow: string, actor: string, action: string, metadata: string): string {
    workflow + SEPARATOR + actor + SEPARATOR + action + SEPARATOR + metadata
  }

  function ChainInput(previous: Option<string>, payloadHash: string): string {
    match previous
    case None => payloadHash
    case Some(p) => p + SEPARATOR + payloadHash
  }

  function RowPayload<M>(c: Codec<M>, workflow: string, row: Row): string {
    Payload(workflow, row.actor, row.action, c.reprint(row.metadata))
  }

  function RowInput(row: Row): string {
    ChainInput(row.previous, row.payloadHash)
  }

  /** What is hashed, to the letter: the four fields and the two hashes in this order. */
  lemma HashedText()
    ensures Payload("w", "actor", "action", "{}") == "w|actor|action|{}"
    ensures ChainInput(None, "payload") == "payload"
    ensures ChainInput(Some("previous"), "payload") == "previous|payload"
  {
  }

  // ----- verification -----

  datatype Fault = GenesisHasPrevious | BrokenLink | PayloadMismatch | EventMismatch

  datatype Verdict = InvalidWorkflow | Verified(nonempty: bool) | Broken(fault: Fault, index: nat)

  /** The first check row `i` fails, in the order they are made. */
  function RowFault<M>(h: Digest, c: Codec<M>, workflow: string, rows: seq<Row>, i: nat): Option<Fault>
    requires i < |rows|
  {
    var row := rows[i];
    if i == 0 && row.previous != None then Some(GenesisHasPrevious)
    else if i > 0 && row.previous != Some(rows[i - 1].eventHash) then Some(BrokenLink)
    else if h(RowPayload(c, workflow, row)) != row.payloadHash then Some(PayloadMismatch)
    else if h(RowInput(row)) != row.eventHash then Some(EventMismatch)
    else None
  }

  ghost predicate Verifies<M>(h: Digest, c: Codec<M>, workflow: string, rows: seq<Row>) {
    forall i :: 0 <= i < |rows| ==> RowFault(h, c, workflow, rows, i) == None
  }

  /** `VerifyChain` accepts exactly the nonempty chains without a fault, and otherwise
      names the first faulty row and the first check it fails. */
  method VerifyChain<M>(h: Digest, c: Codec<M>, workflow: string, rows: seq<Row>) returns (verdict: Verdict)
    ensures verdict == InvalidWorkflow <==> workflow == ""
    ensures workflow != "" ==>
      (verdict == Verified(true) <==> rows != [] && Verifies(h, c, workflow, rows))
    ensures verdict == Verified(false) ==> rows == []
    ensures match verdict
      case Broken(fault, index) =>
        && index < |rows|
        && RowFault(h, c, workflow, rows, index) == Some(fault)
        && Verifies(h, c, workflow, rows[..index])
      case _ => true
  {
    if workflow == "" { return InvalidWorkflow; }
    var expected: Option<string> := None;
    var index := 0;
    while index < |rows|
      invariant index <= |rows|
      invariant expected == if index == 0 then None else Some(rows[index - 1].eventHash)
      invariant forall i :: 0 <= i < index ==> RowFault(h, c, workflow, rows, i) == None
    {
      var row := rows[index];
      ghost var fault := RowFault(h, c, workflow, rows, index);
      assert Verifies(h, c, workflow, rows[..index]) by { PrefixFaults(h, c, workflow, rows, index); }
      if index == 0 {
        if row.previous.Some? { return Broken(GenesisHasPrevious, index); }
      } else if row.previous == None || expected == None || row.previous.value != expected.value {
        return Broken(BrokenLink, index);
      }
      var computed := h(Payload(workflow, row.actor, row.action, c.reprint(row.metadata)));
      if computed != row.payloadHash { return Broken(PayloadMismatch, index); }
      var input := if row.previous.Some? then row.previous.value + SEPARATOR + row.payloadHash else row.payloadHash;
      if h(input) != row.eventHash { return Broken(EventMismatch, index); }
      expected := Some(row.eventHash);
      index := index + 1;
    }
    return Verified(index > 0);
  }

  lemma PrefixFaults<M>(h: Digest, c: Codec<M>, workflow: string, rows: seq<Row>, n: nat)
    requires n <= |rows|
    ensures forall i :: 0 <= i < n ==>
      RowFault(h, c, workflow, rows[..n], i) == RowFault(h, c, workflow, rows, i)
  {
  }

  /** Every prefix of a verified chain verifies: cutting off the newest rows is the one
      change the chain itself does not show. */
  lemma PrefixVerifies<M>(h: Digest, c: Codec<M>, workflow: string, rows: seq<Row>, n: nat)
    requires Verifies(h, c, workflow, rows) && n <= |rows|
    ensures Verifies(h, c, workflow, rows[..n])
  {
    PrefixFaults(h, c, workflow, rows, n);
  }

  // ----- collisions -----

  /** The strings that are hashed when the chain is verified. */
  ghost function HashInputs<M>(c: Codec<M>, workflow: string, rows: seq<Row>): set<string> {
    (set row | row in rows :: RowPayload(c, workflow, row)) + (set row | row in rows :: RowInput(row))
  }

  /** Two different strings among `inputs` have one digest. */
  ghost predicate Collide(h: Digest, inputs: set<string>) {
    exists x, y :: x in inputs && y in inputs && x != y && h(x) == h(y)
  }

  lemma EqualOrCollide(h: Digest, inputs: set<string>, x: string, y: string)
    requires x in inputs && y in inputs && h(x) == h(y)
    ensures x == y || Collide(h, inputs)
  {
  }

  lemma InputsOf<M>(c: Codec<M>, workflow: string, rows: seq<Row>, i: nat)
    requires i < |rows|
    ensures RowPayload(c, workflow, rows[i]) in HashInputs(c, workflow, rows)
    ensures RowInput(rows[i]) in HashInputs(c, workflow, rows)
  {
    assert rows[i] in rows;
  }

  /** A genesis input has 64 characters and a link input 129, and the latter splits
      uniquely, so equal inputs come from equal links. */
  lemma EqualInputs(a: Row, b: Row)
    requires |a.payloadHash| == DIGEST_LENGTH == |b.payloadHash|
    requires a.previous.Some? ==> |a.previous.value| == DIGEST_LENGTH
    requires b.previous.Some? ==> |b.previous.value| == DIGEST_LENGTH
    requires RowInput(a) == RowInput(b)
    ensures a.previous == b.previous && a.payloadHash == b.payloadHash
  {
    if a.previous.Some? && b.previous.Some? {
      assert a.previous.value == RowInput(a)[..DIGEST_LENGTH];
      assert b.previous.value == RowInput(b)[..DIGEST_LENGTH];
      assert a.payloadHash == RowInput(a)[DIGEST_LENGTH + 1..];
      assert b.payloadHash == RowInput(b)[DIGEST_LENGTH + 1..];
    }
  }

  lemma VerifiedRow<M>(h: Digest, c: Codec<M>, workflow: string, rows: seq<Row>, i: nat)
    requires IsDigest(h) && Verifies(h, c, workflow, rows) && i < |rows|
    ensures rows[i].previous == if i == 0 then None else Some(rows[i - 1].eventHash)
    ensures rows[i].payloadHash == h(RowPayload(c, workflow, rows[i])) && |rows[i].payloadHash| == DIGEST_LENGTH
    ensures rows[i].eventHash == h(RowInput(rows[i])) && |rows[i].eventHash| == DIGEST_LENGTH
    ensures i > 0 ==> |rows[i - 1].eventHash| == DIGEST_LENGTH
  {
    assert RowFault(h, c, workflow, rows, i) == None;
    if i > 0 { assert RowFault(h, c, workflow, rows, i - 1) == None; }
  }

  /** One step back from rows with equal event hashes. */
  lemma SameEvent<M>(h: Digest, c: Codec<M>, workflow: string, a: seq<Row>, b: seq<Row>, i: nat, j: nat)
    requires IsDigest(h) && Verifies(h, c, workflow, a) && Verifies(h, c, workflow, b)
    requires i < |a| && j < |b| && a[i].eventHash == b[j].eventHash
    ensures Collide(h, HashInputs(c, workflow, a) + HashInputs(c, workflow, b))
         || (a[i].previous == b[j].previous && a[i].payloadHash == b[j].payloadHash
             && RowPayload(c, workflow, a[i]) == RowPayload(c, workflow, b[j]))
  {
    var inputs := HashInputs(c, workflow, a) + HashInputs(c, workflow, b);
    InputsOf(c, workflow, a, i);
    InputsOf(c, workflow, b, j);
    VerifiedRow(h, c, workflow, a, i);
    VerifiedRow(h, c, workflow, b, j);
    EqualOrCollide(h, inputs, RowInput(a[i]), RowInput(b[j]));
    if RowInput(a[i]) == RowInput(b[j]) {
      EqualInputs(a[i], b[j]);
      EqualOrCollide(h, inputs, RowPayload(c, workflow, a[i]), RowPayload(c, workflow, b[j]));
    }
  }

  /** Equal in every hash and in the payload string, which is all that is hashed. */
  ghost predicate SameEntry<M>(c: Codec<M>, workflow: string, a: Row, b: Row) {
    && RowPayload(c, workflow, a) == RowPayload(c, workflow, b)
    && a.payloadHash == b.payloadHash
    && a.previous == b.previous
    && a.eventHash == b.eventHash
  }

  /** Tamper evidence: when the last hash of a verified chain `b` is the hash at index
      `k` of a verified chain `a`, the chain `b` is `a` up to `k`, row by row in
      every hash and every payload string, or two of the hashed strings collide. */
  lemma TamperEvident<M>(h: Digest, c: Codec<M>, workflow: string, a: seq<Row>, b: seq<Row>, k: nat)
    requires IsDigest(h) && Verifies(h, c, workflow, a) && Verifies(h, c, workflow, b)
    requires k < |a| && b != [] && a[k].eventHash == b[|b| - 1].eventHash
    ensures Collide(h, HashInputs(c, workflow, a) + HashInputs(c, workflow, b))
         || (|b| == k + 1 && forall i :: 0 <= i <= k ==> SameEntry(c, workflow, a[i], b[i]))
  {
    AgreeBackwards(h, c, workflow, a, b, k, |b| - 1);
  }

  /** Equal event hashes mean equal entries, and equal event hashes one step back. */
  ghost predicate StepsBack<M>(c: Codec<M>, workflow: string, a: seq<Row>, b: seq<Row>, i: nat, j: nat)
    requires i < |a| && j < |b|
  {
    a[i].eventHash == b[j].eventHash ==>
      && SameEntry(c, workflow, a[i], b[j])
      && if i == 0 || j == 0 then i == j else a[i - 1].eventHash == b[j - 1].eventHash
  }

  lemma StepsBackOrCollide<M>(h: Digest, c: Codec<M>, workflow: string, a: seq<Row>, b: seq<Row>, i: nat, j: nat)
    requires IsDigest(h) && Verifies(h, c, workflow, a) && Verifies(h, c, workflow, b)
    requires i < |a| && j < |b|
    ensures Collide(h, HashInputs(c, workflow, a) + HashInputs(c, workflow, b)) || StepsBack(c, workflow, a, b, i, j)
  {
    if a[i].eventHash == b[j].eventHash {
      SameEvent(h, c, workflow, a, b, i, j);
      VerifiedRow(h, c, workflow, a, i);
      VerifiedRow(h, c, workflow, b, j);
    }
  }

  lemma {:induction false} EqualBackwards<M>(c: Codec<M>, workflow: string, a: seq<Row>, b: seq<Row>, i: nat, j: nat)
    requires forall p: nat, q: nat :: p < |a| && q < |b| ==> StepsBack(c, workflow, a, b, p, q)
    requires i < |a| && j < |b| && a[i].eventHash == b[j].eventHash
    ensures i == j && forall n :: 0 <= n <= i ==> SameEntry(c, workflow, a[n], b[n])
  {
    assert StepsBack(c, workflow, a, b, i, j);
    if i > 0 && j > 0 {
      EqualBackwards(c, workflow, a, b, i - 1, j - 1);
    }
  }

  lemma AgreeBackwards<M>(h: Digest, c: Codec<M>, workflow: string, a: seq<Row>, b: seq<Row>, i: nat, j: nat)
    requires IsDigest(h) && Verifies(h, c, workflow, a) && Verifies(h, c, workflow, b)
    requires i < |a| && j < |b| && a[i].eventHash == b[j].eventHash
    ensures Collide(h, HashInputs(c, workflow, a) + HashInputs(c, workflow, b))
         || (i == j && forall n :: 0 <= n <= i ==> SameEntry(c, workflow, a[n], b[n]))
  {
    if !Collide(h, HashInputs(c, workflow, a) + HashInputs(c, workflow, b)) {
      forall p: nat, q: nat | p < |a| && q < |b| ensures StepsBack(c, workflow, a, b, p, q) {
        StepsBackOrCollide(h, c, workflow, a, b, p, q);
      }
      EqualBackwards(c, workflow, a, b, i, j);
    }
  }

  /** Two verified chains with one last hash hold the same history. */
  lemma SameHeadSameHistory<M>(h: Digest, c: Codec<M>, workflow: string, a: seq<Row>, b: seq<Row>)
    requires IsDigest(h) && Verifies(h, c, workflow, a) && Verifies(h, c, workflow, b)
    requires a != [] && b != [] && a[|a| - 1].eventHash == b[|b| - 1].eventHash
    requires forall r :: r in a + b ==> '|' !in r.actor && '|' !in r.action
    ensures Collide(h, HashInputs(c, workflow, a) + HashInputs(c, workflow, b))
         || (|a| == |b| && forall i :: 0 <= i < |a| ==>
               && a[i].actor == b[i].actor && a[i].action == b[i].action
               && c.reprint(a[i].metadata) == c.reprint(b[i].metadata))
  {
    TamperEvident(h, c, workflow, a, b, |a| - 1);
    if !Collide(h, HashInputs(c, workflow, a) + HashInputs(c, workflow, b)) {
      forall i | 0 <= i < |a|
        ensures a[i].actor == b[i].actor && a[i].action == b[i].action
          && c.reprint(a[i].metadata) == c.reprint(b[i].metadata)
      {
        assert a[i] in a + b && b[i] in a + b;
        PayloadSplits(workflow, a[i].actor, a[i].action, c.reprint(a[i].metadata),
                      b[i].actor, b[i].action, c.reprint(b[i].metadata));
      }
    }
  }

  ghost predicate IsEntryPrefix<M>(c: Codec<M>, workflow: string, b: seq<Row>, a: seq<Row>) {
    |b| <= |a| && forall i :: 0 <= i < |b| ==> SameEntry(c, workflow, a[i], b[i])
  }

  ghost predicate HoldsHash(rows: seq<Row>, hash: string) {
    exists i :: 0 <= i < |rows| && rows[i].eventHash == hash
  }

  /** What keeping the hashes of a verified chain `a` elsewhere is good for: the last hash
      of another verified chain is among them if and only if that chain is a prefix of
      `a`, entry by entry, or two of the hashed strings collide. */
  lemma KnownHashIffPrefix<M>(h: Digest, c: Codec<M>, workflow: string, a: seq<Row>, b: seq<Row>)
    requires IsDigest(h) && Verifies(h, c, workflow, a) && Verifies(h, c, workflow, b) && b != []
    ensures Collide(h, HashInputs(c, workflow, a) + HashInputs(c, workflow, b))
         || (HoldsHash(a, b[|b| - 1].eventHash) <==> IsEntryPrefix(c, workflow, b, a))
  {
    var last := |b| - 1;
    if IsEntryPrefix(c, workflow, b, a) {
      assert SameEntry(c, workflow, a[last], b[last]);
    } else if HoldsHash(a, b[last].eventHash) {
      var i :| 0 <= i < |a| && a[i].eventHash == b[last].eventHash;
      TamperEvident(h, c, workflow, a, b, i);
    }
  }

  // ----- what a payload string says about its fields -----

  lemma SeparatorPosition(a: string, r: string)
    requires '|' !in a
    ensures (a + SEPARATOR + r)[|a|] == '|'
    ensures forall i :: 0 <= i < |a| ==> (a + SEPARATOR + r)[i] != '|'
  {
    forall i | 0 <= i < |a| ensures (a + SEPARATOR + r)[i] != '|' {
      assert (a + SEPARATOR + r)[i] == a[i];
    }
  }

  lemma FirstSeparator(a: string, r: string, a': string, r': string)
    requires '|' !in a && '|' !in a' && a + SEPARATOR + r == a' + SEPARATOR + r'
    ensures a == a' && r == r'
  {
    var s, s' := a + SEPARATOR + r, a' + SEPARATOR + r';
    SeparatorPosition(a, r);
    SeparatorPosition(a', r');
    assert a == s[..|a|] && a' == s'[..|a'|];
    assert r == s[|a| + 1..] && r' == s'[|a'| + 1..];
  }

  function Fields(actor: string, action: string, metadata: string): string {
    actor + SEPARATOR + (action + SEPARATOR + metadata)
  }

  lemma PayloadIsFields(workflow: string, actor: string, action: string, metadata: string)
    ensures Payload(workflow, actor, action, metadata) == workflow + SEPARATOR + Fields(actor, action, metadata)
  {
  }

  lemma PayloadSplits(workflow: string, actor: string, action: string, metadata: string,
                      actor': string, action': string, metadata': string)
    requires '|' !in actor && '|' !in action && '|' !in actor' && '|' !in action'
    requires Payload(workflow, actor, action, metadata) == Payload(workflow, actor', action', metadata')
    ensures actor == actor' && action == action' && metadata == metadata'
  {
    SameFields(workflow, actor, action, metadata, actor', action', metadata');
    FirstSeparator(actor, action + SEPARATOR + metadata, actor', action' + SEPARATOR + metadata');
    FirstSeparator(action, metadata, action', metadata');
  }

  lemma SameFields(workflow: string, actor: string, action: string, metadata: string,
                   actor': string, action': string, metadata': string)
    ensures Payload(workflow, actor, action, metadata) == Payload(workflow, actor', action', metadata')
      <==> Fields(actor, action, metadata) == Fields(actor', action', metadata')
  {
    PayloadIsFields(workflow, actor, action, metadata);
    PayloadIsFields(workflow, actor', action', metadata');
    var n := |workflow + SEPARATOR|;
    assert (workflow + SEPARATOR + Fields(actor, action, metadata))[n..] == Fields(actor, action, metadata);
    assert (workflow + SEPARATOR + Fields(actor', action', metadata'))[n..] == Fields(actor', action', metadata');
  }

  /** No printed metadata ends in a separator and other printed metadata. JSON text does
      not: its only bars stand inside string literals, so what follows one has an odd
      number of unescaped quotes. */
  ghost predicate SelfDelimiting<M(!new)>(c: Codec<M>) {
    forall m, m', n: nat :: n < |c.canon(m)| && c.canon(m)[n] == '|' ==> c.canon(m)[n + 1..] != c.canon(m')
  }

  lemma FieldsAt(actor: string, action: string, metadata: string)
    ensures var f := Fields(actor, action, metadata);
      var p := |actor| + 1 + |action|;
      && |f| == p + 1 + |metadata|
      && f[|actor|] == '|' == f[p]
      && f[..|actor|] == actor && f[|actor| + 1..p] == action && f[p + 1..] == metadata
  {
  }

  /** Without separators in actor and action, the last split of an equal string cannot
      come earlier. */
  lemma SplitNoEarlier(actor: string, action: string, metadata: string,
                       actor': string, action': string, metadata': string)
    requires '|' !in actor && '|' !in action
    requires Fields(actor, action, metadata) == Fields(actor', action', metadata')
    ensures |actor'| >= |actor| && |actor'| + |action'| >= |actor| + |action|
    ensures |actor'| == |actor| || |actor'| >= |actor| + 1 + |action|
  {
    FieldsAt(actor, action, metadata);
    FieldsAt(actor', action', metadata');
    var f := Fields(actor, action, metadata);
    var q := |actor'| + 1 + |action'|;
    assert forall i :: 0 <= i < |actor| ==> f[i] == f[..|actor|][i];
    assert forall i :: |actor| < i < |actor| + 1 + |action| ==>
      f[i] == f[|actor| + 1..|actor| + 1 + |action|][i - |actor| - 1];
    assert f[|actor'|] == '|' == f[q];
  }

  /** So equal strings have equal fields, or metadata that ends in a separator and the
      other's metadata. */
  lemma OtherSplit(actor: string, action: string, metadata: string,
                   actor': string, action': string, metadata': string)
    requires '|' !in actor && '|' !in action
    requires Fields(actor, action, metadata) == Fields(actor', action', metadata')
    ensures (actor, action, metadata) == (actor', action', metadata')
         || exists n: nat :: n < |metadata| && metadata[n] == '|' && metadata[n + 1..] == metadata'
  {
    SplitNoEarlier(actor, action, metadata, actor', action', metadata');
    FieldsAt(actor, action, metadata);
    FieldsAt(actor', action', metadata');
    var f := Fields(actor, action, metadata);
    var p, q := |actor| + 1 + |action|, |actor'| + 1 + |action'|;
    if q > p {
      var n := q - p - 1;
      assert f[p + 1..][n] == f[q] && f[p + 1..][n + 1..] == f[q + 1..];
    }
  }

  /** Exactly when an event can pass for another without touching its payload hash's
      input: when the separator occurs in its actor or its action. */
  lemma FieldsAmbiguousIff<M(!new)>(c: Codec<M>, workflow: string, actor: string, action: string, m: M)
    requires SelfDelimiting(c)
    ensures (exists actor', action', m' ::
               (actor', action', c.canon(m')) != (actor, action, c.canon(m))
               && Payload(workflow, actor', action', c.canon(m')) == Payload(workflow, actor, action, c.canon(m)))
      <==> '|' in actor || '|' in action
  {
    var metadata := c.canon(m);
    if '|' in actor {
      var i :| 0 <= i < |actor| && actor[i] == '|';
      assert actor == actor[..i] + SEPARATOR + actor[i + 1..];
      var action' := actor[i + 1..] + SEPARATOR + action;
      assert Fields(actor[..i], action', metadata) == Fields(actor, action, metadata);
      SameFields(workflow, actor[..i], action', metadata, actor, action, metadata);
    } else if '|' in action {
      var i :| 0 <= i < |action| && action[i] == '|';
      assert action == action[..i] + SEPARATOR + action[i + 1..];
      var actor' := actor + SEPARATOR + action[..i];
      assert Fields(actor', action[i + 1..], metadata) == Fields(actor, action, metadata);
      SameFields(workflow, actor', action[i + 1..], metadata, actor, action, metadata);
    } else {
      forall actor', action', m' |
        Payload(workflow, actor', action', c.canon(m')) == Payload(workflow, actor, action, metadata)
        ensures (actor', action', c.canon(m')) == (actor, action, metadata)
      {
        SameFields(workflow, actor, action, metadata, actor', action', c.canon(m'));
        OtherSplit(actor, action, metadata, actor', action', c.canon(m'));
      }
    }
  }
}
