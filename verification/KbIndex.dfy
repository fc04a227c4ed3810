/** The publication protocol of the knowledge index, as a state machine.

    Unboundedly many upserts, deletions and indexing attempts run against one manifest and one
    vector store. A step is one store call, one read of the manifest, one run of a Lua script, or
    one reply. A client may give up on a script at any time; the script may then have run, may
    still run later, or may never run. A store call that raises may or may not have taken effect.
    Any operation may stop for ever between two of its steps. */
module KbIndex {
  import opened KbPointer

  type OpId = nat

  datatype Vector = Vector(kb: string, gen: Generation, idx: nat, text: string)

  /** What an upsert set out to publish under a fresh version. */
  datatype Batch = Batch(kb: string, texts: seq<string>, owner: OpId)

  /** A script sent at most once by its operation. */
  datatype Wire = Unsent | Sent | Ran(accepted: bool, previous: Pointer)

  datatype UpsertPc =
    | Staging(done: nat)            // the next batch starts at chunk `done`
    | Discarding                    // about to delete its own staged vectors
    | Publishing                    // waiting for the reply of the script
    | Confirming                    // the reply was lost; about to re-read the manifest
    | Removing(target: Generation)  // about to delete what it replaced
    | Finished

  datatype DeletePc = Awaiting | Purging | Purged

  datatype Kind =
    | Upsert(version: Uuid, expected: Pointer, upc: UpsertPc)
    | Deletion(permanent: bool, marker: Pointer, dpc: DeletePc)
    | Attempt(read: Pointer)

  datatype Op = Op(kb: string, wire: Wire, kind: Kind)

  /** `log` is a history variable: all values the manifest has had for a source, oldest first. */
  datatype State = State(
    manifest: Manifest,
    log: map<string, seq<Pointer>>,
    store: set<Vector>,
    batches: map<Uuid, Batch>,
    tokens: map<Uuid, OpId>,
    ops: map<OpId, Op>)
  {
    function Current(kb: string): Pointer {
      At(manifest, kb)
    }

    function Log(kb: string): seq<Pointer> {
      LogOf(log, kb)
    }

    /** HSET */
    function Write(kb: string, p: Pointer): State {
      this.(manifest := manifest[kb := p], log := log[kb := Log(kb) + [p]])
    }

    function WithOp(id: OpId, op: Op): State {
      this.(ops := ops[id := op])
    }

    function AtPc(id: OpId, pc: UpsertPc): State
      requires id in ops && ops[id].kind.Upsert?
    {
      WithOp(id, ops[id].(kind := ops[id].kind.(upc := pc)))
    }
  }

  function LogOf(log: map<string, seq<Pointer>>, kb: string): seq<Pointer> {
    if kb in log then log[kb] else [Absent]
  }

  const BATCH_SIZE := 100

  function Chunk(v: Uuid, b: Batch, i: nat): Vector
    requires i < |b.texts|
  {
    Vector(b.kb, Staged(v), i, b.texts[i])
  }

  function Chunks(v: Uuid, b: Batch, lo: nat, hi: nat): set<Vector>
    requires hi <= |b.texts|
  {
    set i: nat | lo <= i < hi :: Chunk(v, b, i)
  }

  /** The store filter "this source and this generation". */
  function Without(store: set<Vector>, kb: string, g: Generation): set<Vector> {
    set x | x in store && !(x.kb == kb && x.gen == g)
  }

  function WithoutSource(store: set<Vector>, kb: string): set<Vector> {
    set x | x in store && x.kb != kb
  }

  function BatchEnd(done: nat, total: nat): nat {
    if done + BATCH_SIZE <= total then done + BATCH_SIZE else total
  }

  predicate FreshUuid(s: State, u: Uuid) {
    u !in s.batches && u !in s.tokens
  }

  datatype Event =
    | BeginUpsert(id: OpId, kb: string, texts: seq<string>, version: Uuid)
    | StageBatch(id: OpId, applied: bool, raised: bool)
    | Discard(id: OpId, applied: bool)
    | SendPublish(id: OpId)
    | RunScript(id: OpId)
    | PublishReply(id: OpId)
    | LoseReply(id: OpId)
    | Confirm(id: OpId, answered: bool)
    | RemoveOld(id: OpId, applied: bool)
    | BeginDelete(id: OpId, kb: string, permanent: bool, token: Uuid)
    | DeleteReply(id: OpId)
    | Purge(id: OpId, applied: bool)
    | BeginAttempt(id: OpId, kb: string)
    | FailAttempt(id: OpId)

  predicate IsUpsert(s: State, id: OpId) {
    id in s.ops && s.ops[id].kind.Upsert? && s.ops[id].kind.version in s.batches
  }

  predicate Enabled(s: State, e: Event) {
    match e
    case BeginUpsert(id, kb, texts, version) =>
      id !in s.ops && texts != [] && FreshUuid(s, version) && s.Current(kb) != Deleted
    case StageBatch(id, applied, raised) =>
      && IsUpsert(s, id) && s.ops[id].kind.upc.Staging?
      && s.ops[id].kind.upc.done < |s.batches[s.ops[id].kind.version].texts|
      && (!raised ==> applied)
    case Discard(id, _) =>
      IsUpsert(s, id) && s.ops[id].kind.upc == Discarding
    case SendPublish(id) =>
      && IsUpsert(s, id) && s.ops[id].kind.upc.Staging?
      && s.ops[id].kind.upc.done == |s.batches[s.ops[id].kind.version].texts|
    case RunScript(id) =>
      id in s.ops && s.ops[id].wire == Sent
    case PublishReply(id) =>
      IsUpsert(s, id) && s.ops[id].kind.upc == Publishing && s.ops[id].wire.Ran?
    case LoseReply(id) =>
      IsUpsert(s, id) && s.ops[id].kind.upc == Publishing
    case Confirm(id, _) =>
      IsUpsert(s, id) && s.ops[id].kind.upc == Confirming
    case RemoveOld(id, _) =>
      IsUpsert(s, id) && s.ops[id].kind.upc.Removing?
    case BeginDelete(id, kb, permanent, token) =>
      id !in s.ops && FreshUuid(s, token)
    case DeleteReply(id) =>
      id in s.ops && s.ops[id].kind.Deletion? && s.ops[id].kind.dpc == Awaiting && s.ops[id].wire.Ran?
    case Purge(id, _) =>
      && id in s.ops && s.ops[id].kind.Deletion? && s.ops[id].kind.dpc == Purging && s.ops[id].wire.Ran?
      && (s.ops[id].kind.permanent || |Replaced(s.ops[id].wire.previous)| == 1)
    case BeginAttempt(id, kb) =>
      id !in s.ops && s.Current(kb) != Deleted
    case FailAttempt(id) =>
      id in s.ops && s.ops[id].kind.Attempt? && s.ops[id].wire == Unsent
  }

  /** The value that the script of an operation writes when it writes. */
  function Target(kind: Kind): Pointer {
    match kind
    case Upsert(version, _, _) => Live(version)
    case Deletion(_, marker, _) => marker
    case Attempt(read) => Failed(if read.Live? then Staged(read.version) else Legacy)
  }

  predicate Accepts(m: Manifest, op: Op) {
    match op.kind
    case Upsert(_, expected, _) => CasAccepts(m, op.kb, expected)
    case Deletion(_, _, _) => At(m, op.kb) != Deleted
    case Attempt(read) => CasAccepts(m, op.kb, read)
  }

  /** The script of an operation, run atomically on the manifest. */
  function Fire(s: State, id: OpId): State
    requires id in s.ops
  {
    var op := s.ops[id];
    var t := s.WithOp(id, op.(wire := Ran(Accepts(s.manifest, op), s.Current(op.kb))));
    if Accepts(s.manifest, op) then t.Write(op.kb, Target(op.kind)) else t
  }

  /** On the manifest this is the compare-and-swap or the deletion script, exactly as the strings of
      `ManifestHash` run it. */
  lemma FireRunsTheScript(s: State, id: OpId)
    requires id in s.ops && (s.ops[id].kind.Attempt? ==> !s.ops[id].kind.read.IsMarker())
    ensures var op := s.ops[id];
            Fire(s, id).manifest == match op.kind
              case Upsert(version, expected, _) => Cas(s.manifest, op.kb, Live(version), expected)
              case Deletion(_, marker, _) => Tombstone(s.manifest, op.kb, marker)
              case Attempt(read) => Cas(s.manifest, op.kb, Failed(Replaced(read)[0]), read)
    ensures Fire(s, id).store == s.store
  {
  }

  /** What an upsert does once it knows its generation is published over `previous`. */
  function AfterPublish(previous: Pointer): UpsertPc {
    if |Replaced(previous)| == 1 then Removing(Replaced(previous)[0]) else Finished
  }

  function Apply(s: State, e: Event): State
    requires Enabled(s, e)
  {
    match e
    case BeginUpsert(id, kb, texts, version) =>
      s.(batches := s.batches[version := Batch(kb, texts, id)])
      .WithOp(id, Op(kb, Unsent, Upsert(version, s.Current(kb), Staging(0))))
    case StageBatch(id, applied, raised) =>
      var k := s.ops[id].kind;
      var b := s.batches[k.version];
      var end := BatchEnd(k.upc.done, |b.texts|);
      var t := if applied then s.(store := s.store + Chunks(k.version, b, k.upc.done, end)) else s;
      t.AtPc(id, if raised then Discarding else Staging(end))
    case Discard(id, applied) =>
      var t := if applied then s.(store := Without(s.store, s.ops[id].kb, Staged(s.ops[id].kind.version))) else s;
      t.AtPc(id, Finished)
    case SendPublish(id) =>
      s.WithOp(id, s.ops[id].(wire := Sent, kind := s.ops[id].kind.(upc := Publishing)))
    case RunScript(id) =>
      Fire(s, id)
    case PublishReply(id) =>
      var w := s.ops[id].wire;
      s.AtPc(id, if w.accepted then AfterPublish(w.previous) else Discarding)
    case LoseReply(id) =>
      s.AtPc(id, Confirming)
    case Confirm(id, answered) =>
      var k := s.ops[id].kind;
      var published := answered && s.Current(s.ops[id].kb) == Live(k.version);
      s.AtPc(id, if published then AfterPublish(k.expected) else Finished)
    case RemoveOld(id, applied) =>
      var t := if applied then s.(store := Without(s.store, s.ops[id].kb, s.ops[id].kind.upc.target)) else s;
      t.AtPc(id, Finished)
    case BeginDelete(id, kb, permanent, token) =>
      s.(tokens := s.tokens[token := id])
      .WithOp(id, Op(kb, Sent, Deletion(permanent, if permanent then Deleted else Revoked(token), Awaiting)))
    case DeleteReply(id) =>
      var op := s.ops[id];
      var pc := if !op.kind.permanent && op.wire.previous.IsMarker() then Purged else Purging;
      s.WithOp(id, op.(kind := op.kind.(dpc := pc)))
    case Purge(id, applied) =>
      var op := s.ops[id];
      var t := if !applied then s
               else if op.kind.permanent then s.(store := WithoutSource(s.store, op.kb))
               else s.(store := Without(s.store, op.kb, Replaced(op.wire.previous)[0]));
      t.WithOp(id, op.(kind := op.kind.(dpc := Purged)))
    case BeginAttempt(id, kb) =>
      s.WithOp(id, Op(kb, Unsent, Attempt(s.Current(kb))))
    case FailAttempt(id) =>
      var op := s.ops[id];
      s.WithOp(id, op.(wire := if op.kind.read.IsMarker() then Ran(false, s.Current(op.kb)) else Sent))
  }

  ghost predicate Init(legacy: set<Vector>, s: State) {
    && (forall x :: x in legacy ==> x.gen == Legacy)
    && s == State(map[], map[], legacy, map[], map[], map[])
  }

  // ----- the invariant

  /** `b` was written directly over `a`. */
  ghost predicate Follows(log: seq<Pointer>, a: Pointer, b: Pointer) {
    exists i :: 0 < i < |log| && log[i - 1] == a && log[i] == b
  }

  ghost predicate NoRepeats(log: seq<Pointer>) {
    forall i, j :: 0 <= i < j < |log| ==> log[i] != log[j]
  }

  /** The values of one source: no value comes back, only the first means "never published",
      nothing follows a deletion, and a failed marker is written over what it hides. */
  ghost predicate LogShape(log: seq<Pointer>) {
    && |log| > 0
    && log[0] == Absent
    && NoRepeats(log)
    && (forall i :: 0 <= i < |log| && log[i] == Deleted ==> i == |log| - 1)
    && (forall i :: 0 <= i < |log| && log[i].Failed? ==> i > 0 && log[i - 1] == PointerTo(log[i].hidden))
  }

  ghost predicate History(manifest: Manifest, log: map<string, seq<Pointer>>) {
    && (forall kb :: kb in manifest ==> manifest[kb] != Absent)
    && (forall kb :: LogShape(LogOf(log, kb)))
    && (forall kb :: LogOf(log, kb)[|LogOf(log, kb)| - 1] == At(manifest, kb))
  }

  /** Each version belongs to one upsert, each revocation token to one deletion. */
  ghost predicate Owners(batches: map<Uuid, Batch>, tokens: map<Uuid, OpId>, ops: map<OpId, Op>) {
    && (forall v :: v in batches ==>
          var id := batches[v].owner;
          id in ops && ops[id].kb == batches[v].kb && ops[id].kind.Upsert? && ops[id].kind.version == v)
    && (forall t :: t in tokens ==> tokens[t] in ops && ops[tokens[t]].kind.Deletion?)
  }

  ghost predicate HasWritten(ops: map<OpId, Op>, id: OpId, kb: string) {
    id in ops && ops[id].kb == kb && ops[id].wire.Ran? && ops[id].wire.accepted
  }

  /** Every fresh identifier in a log was put there by the script of the operation that drew it. */
  ghost predicate Authors(log: map<string, seq<Pointer>>, batches: map<Uuid, Batch>, tokens: map<Uuid, OpId>,
          ops: map<OpId, Op>)
  {
    && (forall kb, v :: Live(v) in LogOf(log, kb) ==> v in batches && HasWritten(ops, batches[v].owner, kb))
    && (forall kb, t :: Revoked(t) in LogOf(log, kb) ==> t in tokens && HasWritten(ops, tokens[t], kb))
  }

  /** What holds of an operation, given the log of its source. */
  ghost predicate OpOk(id: OpId, op: Op, log: seq<Pointer>, batches: map<Uuid, Batch>, tokens: map<Uuid, OpId>) {
    && (op.wire.Ran? && op.wire.accepted ==> Follows(log, op.wire.previous, Target(op.kind)))
    && match op.kind
       case Upsert(version, expected, pc) =>
         && version in batches && batches[version].owner == id && batches[version].kb == op.kb
         && expected in log && expected != Deleted
         && (op.wire.Ran? && op.wire.accepted ==> op.wire.previous == expected)
         && (pc.Staging? ==> op.wire == Unsent && pc.done <= |batches[version].texts|)
         && (pc.Discarding? ==> op.wire == Unsent || (op.wire.Ran? && !op.wire.accepted))
         && (pc.Publishing? || pc.Confirming? ==> op.wire != Unsent)
         && (pc.Removing? ==> op.wire.Ran? && op.wire.accepted && Replaced(expected) == [pc.target])
       case Deletion(permanent, marker, pc) =>
         && op.wire != Unsent
         && (permanent ==> marker == Deleted)
         && (!permanent ==> marker.Revoked? && marker.token in tokens && tokens[marker.token] == id)
         && (op.wire.Ran? && !op.wire.accepted ==> op.wire.previous == Deleted && Deleted in log)
         && (pc == Purging && !permanent ==> op.wire.Ran? && op.wire.accepted && !op.wire.previous.IsMarker())
       case Attempt(read) =>
         && read in log
         && (op.wire == Sent || (op.wire.Ran? && op.wire.accepted) ==> !read.IsMarker())
         && (op.wire.Ran? && op.wire.accepted ==> op.wire.previous == read)
  }

  ghost predicate OpsOk(log: map<string, seq<Pointer>>, batches: map<Uuid, Batch>, tokens: map<Uuid, OpId>,
          ops: map<OpId, Op>)
  {
    forall id :: id in ops ==> OpOk(id, ops[id], LogOf(log, ops[id].kb), batches, tokens)
  }

  /** The manifest has moved off a generation: it names it no more, not even as a hidden one. */
  ghost predicate Gone(log: seq<Pointer>, g: Generation) {
    && |log| > 0 && PointerTo(g) in log
    && log[|log| - 1] != PointerTo(g) && log[|log| - 1] != Failed(g)
  }

  /** The generation is named by the manifest, or a script that may still run would name it. */
  ghost predicate Needed(current: Pointer, wire: Wire, v: Uuid) {
    && current != Deleted
    && (|| wire == Sent
        || (wire.Ran? && wire.accepted && (current == Live(v) || current == Failed(Staged(v)))))
  }

  ghost predicate Holds(store: set<Vector>, v: Uuid, b: Batch, n: nat)
    requires n <= |b.texts|
  {
    forall i: nat :: i < n ==> Chunk(v, b, i) in store
  }

  /** The store holds nothing but legacy vectors and chunks of upserts. */
  ghost predicate Sound(legacy: set<Vector>, store: set<Vector>, batches: map<Uuid, Batch>) {
    && (forall x :: x in store && x.gen.Legacy? ==> x in legacy)
    && (forall x :: x in store && x.gen.Staged? ==>
          && x.gen.version in batches
          && x.idx < |batches[x.gen.version].texts|
          && x == Chunk(x.gen.version, batches[x.gen.version], x.idx))
  }

  /** How many chunks of a batch must be in the store while it is being staged. */
  function StagedSoFar(current: Pointer, op: Op): nat {
    if op.kind.Upsert? && op.kind.upc.Staging? && current != Deleted then op.kind.upc.done else 0
  }

  /** A published or hidden generation, or one that a script may still publish, is there in full. */
  ghost predicate Whole(s: State)
    requires Owners(s.batches, s.tokens, s.ops)
  {
    forall v :: v in s.batches && Needed(s.Current(s.batches[v].kb), s.ops[s.batches[v].owner].wire, v) ==>
      Holds(s.store, v, s.batches[v], |s.batches[v].texts|)
  }

  /** Everything staged so far is there. */
  ghost predicate Prefixes(s: State)
    requires Owners(s.batches, s.tokens, s.ops)
  {
    forall v, i: nat :: v in s.batches && i < |s.batches[v].texts|
                        && i < StagedSoFar(s.Current(s.batches[v].kb), s.ops[s.batches[v].owner]) ==>
      Chunk(v, s.batches[v], i) in s.store
  }

  ghost predicate LegacyIntact(legacy: set<Vector>, manifest: Manifest, store: set<Vector>) {
    forall x :: x in legacy && (At(manifest, x.kb) == Absent || At(manifest, x.kb) == Failed(Legacy)) ==> x in store
  }

  ghost predicate Inv(legacy: set<Vector>, s: State) {
    && (forall x :: x in legacy ==> x.gen == Legacy)
    && History(s.manifest, s.log)
    && Owners(s.batches, s.tokens, s.ops)
    && Authors(s.log, s.batches, s.tokens, s.ops)
    && OpsOk(s.log, s.batches, s.tokens, s.ops)
    && Sound(legacy, s.store, s.batches)
    && Whole(s)
    && Prefixes(s)
    && LegacyIntact(legacy, s.manifest, s.store)
  }
}
