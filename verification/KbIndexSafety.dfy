/** Every step of the publication protocol keeps the invariant. */
module KbIndexSafety {
  import opened KbPointer
  import opened KbIndex

  // ----- one write to one log

  lemma AppendShape(log: seq<Pointer>, p: Pointer)
    requires LogShape(log) && p !in log && log[|log| - 1] != Deleted
    requires p.Failed? ==> log[|log| - 1] == PointerTo(p.hidden)
    ensures LogShape(log + [p])
    ensures Follows(log + [p], log[|log| - 1], p)
  {
    var grown := log + [p];
    assert grown[|log| - 1] == log[|log| - 1] && grown[|log|] == p;
  }

  lemma FollowsGrows(log: seq<Pointer>, p: Pointer, a: Pointer, b: Pointer)
    requires Follows(log, a, b)
    ensures Follows(log + [p], a, b)
  {
    var i :| 0 < i < |log| && log[i - 1] == a && log[i] == b;
    assert (log + [p])[i - 1] == a && (log + [p])[i] == b;
  }

  /** A value with a successor is not the current one, and neither is the marker that would hide it,
      unless that marker is the successor. */
  lemma Superseded(log: seq<Pointer>, a: Pointer, b: Pointer, g: Generation)
    requires LogShape(log) && Follows(log, a, b)
    requires Replaced(a) == [g] && !b.Failed?
    ensures PointerTo(g) in log
    ensures log[|log| - 1] != PointerTo(g) && log[|log| - 1] != Failed(g)
  {
    var i :| 0 < i < |log| && log[i - 1] == a && log[i] == b;
    if a.Failed? {
      assert log[i - 2] == PointerTo(g);
    } else {
      assert log[i - 1] == PointerTo(g);
      if log[|log| - 1].Failed? && log[|log| - 1] != b {
        assert log[|log| - 2] == PointerTo(log[|log| - 1].hidden);
      }
    }
  }

  // ----- running a script

  lemma TargetIsNew(s: State, id: OpId)
    requires History(s.manifest, s.log) && Authors(s.log, s.batches, s.tokens, s.ops)
    requires id in s.ops && OpOk(id, s.ops[id], LogOf(s.log, s.ops[id].kb), s.batches, s.tokens)
    requires s.ops[id].wire == Sent && Accepts(s.manifest, s.ops[id])
    ensures var p := Target(s.ops[id].kind); var kb := s.ops[id].kb;
            && p !in s.Log(kb) && p != Absent && s.Current(kb) != Deleted
            && (p.Failed? ==> s.Current(kb) == PointerTo(p.hidden))
  {
    var op := s.ops[id];
    var log := LogOf(s.log, op.kb);
    var last := |log| - 1;
    assert LogShape(log) && log[last] == s.Current(op.kb);
    if op.kind.Attempt? {
      forall i | 0 <= i < |log| && log[i].Failed? ensures log[i] != Target(op.kind) {
        assert log[i - 1] == PointerTo(log[i].hidden);
        assert log[last] == op.kind.read && i - 1 != last;
      }
    }
  }

  lemma WriteHistory(s: State, kb: string, p: Pointer)
    requires History(s.manifest, s.log) && p !in s.Log(kb) && p != Absent && s.Current(kb) != Deleted
    requires p.Failed? ==> s.Current(kb) == PointerTo(p.hidden)
    ensures History(s.Write(kb, p).manifest, s.Write(kb, p).log)
  {
    AppendShape(LogOf(s.log, kb), p);
    var t := s.Write(kb, p);
    forall k ensures LogShape(LogOf(t.log, k)) && LogOf(t.log, k)[|LogOf(t.log, k)| - 1] == At(t.manifest, k) {
      assert LogShape(LogOf(s.log, k)) && LogOf(s.log, k)[|LogOf(s.log, k)| - 1] == At(s.manifest, k);
    }
  }

  lemma FireHistory(s: State, id: OpId)
    requires History(s.manifest, s.log) && Authors(s.log, s.batches, s.tokens, s.ops)
    requires id in s.ops && OpOk(id, s.ops[id], LogOf(s.log, s.ops[id].kb), s.batches, s.tokens) &&
               s.ops[id].wire == Sent
    ensures History(Fire(s, id).manifest, Fire(s, id).log)
  {
    if Accepts(s.manifest, s.ops[id]) {
      TargetIsNew(s, id);
      WriteHistory(s, s.ops[id].kb, Target(s.ops[id].kind));
    }
  }

  lemma FireAuthors(s: State, id: OpId)
    requires Authors(s.log, s.batches, s.tokens, s.ops)
    requires id in s.ops && OpOk(id, s.ops[id], LogOf(s.log, s.ops[id].kb), s.batches, s.tokens) &&
               s.ops[id].wire == Sent
    ensures Authors(Fire(s, id).log, s.batches, s.tokens, Fire(s, id).ops)
  {
    var t := Fire(s, id);
    var op := s.ops[id];
    forall kb, v | Live(v) in LogOf(t.log, kb)
      ensures v in s.batches && HasWritten(t.ops, s.batches[v].owner, kb)
    {
      if !(Live(v) in LogOf(s.log, kb)) {
        assert Live(v) == Target(op.kind) && kb == op.kb;
      }
    }
    forall kb, u | Revoked(u) in LogOf(t.log, kb)
      ensures u in s.tokens && HasWritten(t.ops, s.tokens[u], kb)
    {
      if !(Revoked(u) in LogOf(s.log, kb)) {
        assert Revoked(u) == Target(op.kind) && kb == op.kb;
      }
    }
  }

  lemma OpSurvivesWrite(id: OpId, op: Op, log: seq<Pointer>, p: Pointer, batches: map<Uuid, Batch>,
          tokens: map<Uuid, OpId>)
    requires OpOk(id, op, log, batches, tokens)
    ensures OpOk(id, op, log + [p], batches, tokens)
  {
    if op.wire.Ran? && op.wire.accepted {
      FollowsGrows(log, p, op.wire.previous, Target(op.kind));
    }
  }

  /** An operation whose script has just run: what it knows of the manifest is what it found there. */
  lemma FiredOpIsOk(id: OpId, op: Op, m: Manifest, log: seq<Pointer>, batches: map<Uuid, Batch>,
          tokens: map<Uuid, OpId>)
    requires OpOk(id, op, log, batches, tokens) && op.wire == Sent
    requires |log| > 0 && log[|log| - 1] == At(m, op.kb)
    ensures var after := op.(wire := Ran(Accepts(m, op), At(m, op.kb)));
            OpOk(id, after, if Accepts(m, op) then log + [Target(op.kind)] else log, batches, tokens)
  {
    var p := Target(op.kind);
    assert (log + [p])[|log| - 1] == At(m, op.kb) && (log + [p])[|log|] == p;
  }

  lemma FireOps(s: State, id: OpId)
    requires History(s.manifest, s.log)
    requires OpsOk(s.log, s.batches, s.tokens, s.ops)
    requires id in s.ops && s.ops[id].wire == Sent
    ensures OpsOk(Fire(s, id).log, s.batches, s.tokens, Fire(s, id).ops)
  {
    var t := Fire(s, id);
    var op := s.ops[id];
    var log := LogOf(s.log, op.kb);
    assert LogShape(log) && log[|log| - 1] == At(s.manifest, op.kb);
    FiredOpIsOk(id, op, s.manifest, log, s.batches, s.tokens);
    forall other | other in t.ops && other != id
      ensures OpOk(other, t.ops[other], LogOf(t.log, t.ops[other].kb), s.batches, s.tokens)
    {
      OpSurvivesWrite(other, s.ops[other], LogOf(s.log, s.ops[other].kb), Target(op.kind), s.batches, s.tokens);
    }
  }

  /** A script makes nothing needed that was not needed when it was still to run. */
  lemma FireNeedsNoMore(s: State, id: OpId, v: Uuid)
    requires Owners(s.batches, s.tokens, s.ops) && v in s.batches
    requires History(s.manifest, s.log) && Authors(s.log, s.batches, s.tokens, s.ops)
    requires id in s.ops && OpOk(id, s.ops[id], LogOf(s.log, s.ops[id].kb), s.batches, s.tokens) &&
               s.ops[id].wire == Sent
    ensures var t := Fire(s, id); var kb := s.batches[v].kb; var owner := s.batches[v].owner;
            && (Needed(t.Current(kb), t.ops[owner].wire, v) ==> Needed(s.Current(kb), s.ops[owner].wire, v))
            && StagedSoFar(t.Current(kb), t.ops[owner]) <= StagedSoFar(s.Current(kb), s.ops[owner])
  {
    if Accepts(s.manifest, s.ops[id]) {
      TargetIsNew(s, id);
    }
  }

  lemma FireWhole(s: State, id: OpId)
    requires Owners(s.batches, s.tokens, s.ops)
    requires History(s.manifest, s.log) && Authors(s.log, s.batches, s.tokens, s.ops)
    requires id in s.ops && OpOk(id, s.ops[id], LogOf(s.log, s.ops[id].kb), s.batches, s.tokens) &&
               s.ops[id].wire == Sent
    requires Whole(s)
    ensures Owners(s.batches, s.tokens, Fire(s, id).ops) && Whole(Fire(s, id))
  {
    var t := Fire(s, id);
    forall v | v in t.batches && Needed(t.Current(t.batches[v].kb), t.ops[t.batches[v].owner].wire, v)
      ensures Holds(t.store, v, t.batches[v], |t.batches[v].texts|)
    {
      FireNeedsNoMore(s, id, v);
    }
  }

  lemma FirePrefixes(s: State, id: OpId)
    requires Owners(s.batches, s.tokens, s.ops)
    requires History(s.manifest, s.log) && Authors(s.log, s.batches, s.tokens, s.ops)
    requires id in s.ops && OpOk(id, s.ops[id], LogOf(s.log, s.ops[id].kb), s.batches, s.tokens) &&
               s.ops[id].wire == Sent
    requires Prefixes(s)
    ensures Owners(s.batches, s.tokens, Fire(s, id).ops) && Prefixes(Fire(s, id))
  {
    var t := Fire(s, id);
    forall v, i: nat | v in t.batches && i < |t.batches[v].texts|
                       && i < StagedSoFar(t.Current(t.batches[v].kb), t.ops[t.batches[v].owner])
      ensures Chunk(v, t.batches[v], i) in t.store
    {
      FireNeedsNoMore(s, id, v);
    }
  }

  lemma FireLegacy(legacy: set<Vector>, s: State, id: OpId)
    requires Owners(s.batches, s.tokens, s.ops)
    requires History(s.manifest, s.log) && Authors(s.log, s.batches, s.tokens, s.ops)
    requires id in s.ops && OpOk(id, s.ops[id], LogOf(s.log, s.ops[id].kb), s.batches, s.tokens) &&
               s.ops[id].wire == Sent
    requires LegacyIntact(legacy, s.manifest, s.store)
    ensures LegacyIntact(legacy, Fire(s, id).manifest, s.store)
  {
    if Accepts(s.manifest, s.ops[id]) {
      TargetIsNew(s, id);
    }
  }

  lemma FireKeepsInv(legacy: set<Vector>, s: State, id: OpId)
    requires Inv(legacy, s) && id in s.ops && s.ops[id].wire == Sent
    ensures Inv(legacy, Fire(s, id))
  {
    assert OpOk(id, s.ops[id], LogOf(s.log, s.ops[id].kb), s.batches, s.tokens);
    FireHistory(s, id);
    FireAuthors(s, id);
    FireOps(s, id);
    FireWhole(s, id);
    FirePrefixes(s, id);
    FireLegacy(legacy, s, id);
  }

  // ----- the other steps write no log

  /** One operation moves on: its program counter changes, or its script is sent. */
  predicate SameOp(before: Op, after: Op) {
    && after.kb == before.kb
    && (after.wire == before.wire ||
         (before.wire == Unsent && (after.wire == Sent || (after.wire.Ran? && !after.wire.accepted))))
    && match before.kind
       case Upsert(v, _, _) => after.kind.Upsert? && after.kind.version == v
       case Deletion(_, _, _) => after.kind.Deletion?
       case Attempt(_) => after.kind.Attempt?
  }

  /** What a move demands of the store, if the operation is the upsert `v`. */
  ghost predicate Backed(store: set<Vector>, current: Pointer, before: Op, after: Op, v: Uuid, b: Batch) {
    current != Deleted ==>
      && (after.wire == Sent && before.wire == Unsent ==> Holds(store, v, b, |b.texts|))
      && (StagedSoFar(current, after) <= |b.texts|)
      && Holds(store, v, b, StagedSoFar(current, after))
  }

  lemma MoveOwners(batches: map<Uuid, Batch>, tokens: map<Uuid, OpId>, ops: map<OpId, Op>, id: OpId, op: Op)
    requires Owners(batches, tokens, ops) && id in ops && SameOp(ops[id], op)
    ensures Owners(batches, tokens, ops[id := op])
  {
  }

  lemma MoveAuthors(log: map<string, seq<Pointer>>, batches: map<Uuid, Batch>, tokens: map<Uuid, OpId>,
          ops: map<OpId, Op>, id: OpId, op: Op)
    requires Authors(log, batches, tokens, ops) && id in ops && SameOp(ops[id], op)
    ensures Authors(log, batches, tokens, ops[id := op])
  {
    assert forall other, kb :: HasWritten(ops, other, kb) ==> HasWritten(ops[id := op], other, kb);
  }

  lemma MoveOps(log: map<string, seq<Pointer>>, batches: map<Uuid, Batch>, tokens: map<Uuid, OpId>,
          ops: map<OpId, Op>, id: OpId, op: Op)
    requires OpsOk(log, batches, tokens, ops) && OpOk(id, op, LogOf(log, op.kb), batches, tokens)
    ensures OpsOk(log, batches, tokens, ops[id := op])
  {
  }

  lemma MoveWhole(s: State, id: OpId, op: Op)
    requires Owners(s.batches, s.tokens, s.ops) && Owners(s.batches, s.tokens, s.ops[id := op])
    requires id in s.ops && SameOp(s.ops[id], op) && Whole(s)
    requires forall v :: v in s.batches && s.batches[v].owner == id ==>
               Backed(s.store, s.Current(op.kb), s.ops[id], op, v, s.batches[v])
    ensures Whole(s.WithOp(id, op))
  {
    var t := s.WithOp(id, op);
    forall v | v in t.batches && Needed(t.Current(t.batches[v].kb), t.ops[t.batches[v].owner].wire, v)
      ensures Holds(t.store, v, t.batches[v], |t.batches[v].texts|)
    {
      assert t.batches[v].owner == id ==> Backed(s.store, s.Current(op.kb), s.ops[id], op, v, s.batches[v]);
    }
  }

  lemma MovePrefixes(s: State, id: OpId, op: Op)
    requires Owners(s.batches, s.tokens, s.ops) && Owners(s.batches, s.tokens, s.ops[id := op])
    requires id in s.ops && SameOp(s.ops[id], op) && Prefixes(s)
    requires forall v :: v in s.batches && s.batches[v].owner == id ==>
               Backed(s.store, s.Current(op.kb), s.ops[id], op, v, s.batches[v])
    ensures Prefixes(s.WithOp(id, op))
  {
    var t := s.WithOp(id, op);
    forall v, i: nat | v in t.batches && i < |t.batches[v].texts|
                       && i < StagedSoFar(t.Current(t.batches[v].kb), t.ops[t.batches[v].owner])
      ensures Chunk(v, t.batches[v], i) in t.store
    {
      if t.batches[v].owner == id {
        assert Backed(s.store, s.Current(op.kb), s.ops[id], op, v, s.batches[v]);
      }
    }
  }

  lemma MoveKeepsInv(legacy: set<Vector>, s: State, id: OpId, op: Op)
    requires Inv(legacy, s) && id in s.ops && SameOp(s.ops[id], op)
    requires OpOk(id, op, LogOf(s.log, op.kb), s.batches, s.tokens)
    requires forall v :: v in s.batches && s.batches[v].owner == id ==>
               Backed(s.store, s.Current(op.kb), s.ops[id], op, v, s.batches[v])
    ensures Inv(legacy, s.WithOp(id, op))
  {
    MoveOwners(s.batches, s.tokens, s.ops, id, op);
    MoveAuthors(s.log, s.batches, s.tokens, s.ops, id, op);
    MoveOps(s.log, s.batches, s.tokens, s.ops, id, op);
    MoveWhole(s, id, op);
    MovePrefixes(s, id, op);
  }

  /** A removal is harmless when nothing it hits is needed, still being staged, or legacy in use. */
  ghost predicate Removable(s: State, kb: string, g: Generation)
    requires Owners(s.batches, s.tokens, s.ops)
  {
    && (g.Staged? && g.version in s.batches && s.batches[g.version].kb == kb ==>
          var op := s.ops[s.batches[g.version].owner];
          !Needed(s.Current(kb), op.wire, g.version) && StagedSoFar(s.Current(kb), op) == 0)
    && (g.Legacy? ==> s.Current(kb) != Absent && s.Current(kb) != Failed(Legacy))
  }

  lemma RemovalKeepsInv(legacy: set<Vector>, s: State, kb: string, g: Generation)
    requires Inv(legacy, s) && Removable(s, kb, g)
    ensures Inv(legacy, s.(store := Without(s.store, kb, g)))
  {
    var t := s.(store := Without(s.store, kb, g));
    forall v | v in t.batches && Needed(t.Current(t.batches[v].kb), t.ops[t.batches[v].owner].wire, v)
      ensures Holds(t.store, v, t.batches[v], |t.batches[v].texts|)
    {
      assert Holds(s.store, v, s.batches[v], |s.batches[v].texts|);
    }
    forall v, i: nat | v in t.batches && i < |t.batches[v].texts|
                       && i < StagedSoFar(t.Current(t.batches[v].kb), t.ops[t.batches[v].owner])
      ensures Chunk(v, t.batches[v], i) in t.store
    {
      assert Chunk(v, s.batches[v], i) in s.store;
    }
  }

  lemma PurgeKeepsInv(legacy: set<Vector>, s: State, kb: string)
    requires Inv(legacy, s) && s.Current(kb) == Deleted
    ensures Inv(legacy, s.(store := WithoutSource(s.store, kb)))
  {
    var t := s.(store := WithoutSource(s.store, kb));
    forall v | v in t.batches && Needed(t.Current(t.batches[v].kb), t.ops[t.batches[v].owner].wire, v)
      ensures Holds(t.store, v, t.batches[v], |t.batches[v].texts|)
    {
      assert Holds(s.store, v, s.batches[v], |s.batches[v].texts|);
    }
    forall v, i: nat | v in t.batches && i < |t.batches[v].texts|
                       && i < StagedSoFar(t.Current(t.batches[v].kb), t.ops[t.batches[v].owner])
      ensures Chunk(v, t.batches[v], i) in t.store
    {
      assert Chunk(v, s.batches[v], i) in s.store;
    }
  }

  lemma StagingKeepsInv(legacy: set<Vector>, s: State, v: Uuid, lo: nat, hi: nat)
    requires Inv(legacy, s) && v in s.batches && hi <= |s.batches[v].texts|
    ensures Inv(legacy, s.(store := s.store + Chunks(v, s.batches[v], lo, hi)))
  {
    var t := s.(store := s.store + Chunks(v, s.batches[v], lo, hi));
    assert Sound(legacy, t.store, t.batches);
    assert forall u, b: Batch, n: nat :: n <= |b.texts| && Holds(s.store, u, b, n) ==> Holds(t.store, u, b, n);
  }

  lemma OpHolds(legacy: set<Vector>, s: State, id: OpId)
    requires Inv(legacy, s) && id in s.ops
    ensures OpOk(id, s.ops[id], LogOf(s.log, s.ops[id].kb), s.batches, s.tokens)
    ensures LogShape(LogOf(s.log, s.ops[id].kb))
    ensures LogOf(s.log, s.ops[id].kb)[|LogOf(s.log, s.ops[id].kb)| - 1] == s.Current(s.ops[id].kb)
  {
  }

  lemma GoneIsRemovable(s: State, kb: string, g: Generation)
    requires Owners(s.batches, s.tokens, s.ops) && Authors(s.log, s.batches, s.tokens, s.ops)
    requires OpsOk(s.log, s.batches, s.tokens, s.ops)
    requires Gone(LogOf(s.log, kb), g) && LogOf(s.log, kb)[|LogOf(s.log, kb)| - 1] == s.Current(kb)
    ensures Removable(s, kb, g)
  {
    if g.Staged? {
      var owner := s.batches[g.version].owner;
      assert HasWritten(s.ops, owner, kb);
      assert OpOk(owner, s.ops[owner], LogOf(s.log, kb), s.batches, s.tokens);
    }
  }

  /** An operation that wrote over `previous` has moved the manifest off what `previous` named. */
  lemma WriterMovedOff(id: OpId, op: Op, log: seq<Pointer>, batches: map<Uuid, Batch>, tokens: map<Uuid, OpId>,
          g: Generation)
    requires LogShape(log) && OpOk(id, op, log, batches, tokens) && !op.kind.Attempt?
    requires op.wire.Ran? && op.wire.accepted && Replaced(op.wire.previous) == [g]
    ensures Gone(log, g)
  {
    Superseded(log, op.wire.previous, Target(op.kind), g);
  }

  lemma GoneMayBeRemoved(legacy: set<Vector>, s: State, kb: string, g: Generation)
    requires Inv(legacy, s) && Gone(s.Log(kb), g)
    ensures Removable(s, kb, g)
  {
    assert LogOf(s.log, kb)[|LogOf(s.log, kb)| - 1] == At(s.manifest, kb);
    GoneIsRemovable(s, kb, g);
  }

  /** The operation that wrote over `previous` may remove what `previous` named. */
  lemma WriterMayRemove(legacy: set<Vector>, s: State, id: OpId, g: Generation)
    requires Inv(legacy, s) && id in s.ops && HasWritten(s.ops, id, s.ops[id].kb)
    requires Replaced(s.ops[id].wire.previous) == [g] && !s.ops[id].kind.Attempt?
    ensures Gone(s.Log(s.ops[id].kb), g)
    ensures Removable(s, s.ops[id].kb, g)
  {
    OpHolds(legacy, s, id);
    WriterMovedOff(id, s.ops[id], s.Log(s.ops[id].kb), s.batches, s.tokens, g);
    GoneMayBeRemoved(legacy, s, s.ops[id].kb, g);
  }

  // ----- new operations

  /** `t` is `s` with one more operation, which has written nothing and staged nothing. */
  ghost predicate Joins(s: State, t: State, id: OpId, op: Op) {
    && id !in s.ops && t.ops == s.ops[id := op]
    && t.manifest == s.manifest && t.log == s.log && t.store == s.store
    && !op.wire.Ran? && (op.kind.Upsert? ==> op.wire == Unsent && op.kind.upc == Staging(0))
    && (forall v :: v in s.batches ==> v in t.batches && t.batches[v] == s.batches[v])
    && (forall v :: v in t.batches && v !in s.batches ==>
          t.batches[v].owner == id && t.batches[v].kb == op.kb && op.kind.Upsert? && op.kind.version == v)
    && (forall u :: u in s.tokens ==> u in t.tokens && t.tokens[u] == s.tokens[u])
    && (forall u :: u in t.tokens && u !in s.tokens ==> t.tokens[u] == id && op.kind.Deletion?)
    && OpOk(id, op, LogOf(s.log, op.kb), t.batches, t.tokens)
  }

  lemma JoinOwners(s: State, t: State, id: OpId, op: Op)
    requires Joins(s, t, id, op) && Owners(s.batches, s.tokens, s.ops)
    ensures Owners(t.batches, t.tokens, t.ops)
  {
  }

  lemma JoinAuthors(s: State, t: State, id: OpId, op: Op)
    requires Joins(s, t, id, op) && Authors(s.log, s.batches, s.tokens, s.ops)
    ensures Authors(t.log, t.batches, t.tokens, t.ops)
  {
    assert forall other, kb :: HasWritten(s.ops, other, kb) ==> HasWritten(t.ops, other, kb);
  }

  lemma JoinOps(s: State, t: State, id: OpId, op: Op)
    requires Joins(s, t, id, op) && Owners(s.batches, s.tokens, s.ops)
    requires OpsOk(s.log, s.batches, s.tokens, s.ops)
    ensures OpsOk(t.log, t.batches, t.tokens, t.ops)
  {
  }

  lemma JoinStored(s: State, t: State, id: OpId, op: Op)
    requires Joins(s, t, id, op)
    requires Owners(s.batches, s.tokens, s.ops) && Owners(t.batches, t.tokens, t.ops)
    requires Whole(s) && Prefixes(s)
    ensures Whole(t) && Prefixes(t)
  {
    forall v | v in t.batches && Needed(t.Current(t.batches[v].kb), t.ops[t.batches[v].owner].wire, v)
      ensures Holds(t.store, v, t.batches[v], |t.batches[v].texts|)
    {
      assert v in s.batches && Holds(s.store, v, s.batches[v], |s.batches[v].texts|);
    }
    forall v, i: nat | v in t.batches && i < |t.batches[v].texts|
                       && i < StagedSoFar(t.Current(t.batches[v].kb), t.ops[t.batches[v].owner])
      ensures Chunk(v, t.batches[v], i) in t.store
    {
      assert v in s.batches;
    }
  }

  lemma JoinKeepsInv(legacy: set<Vector>, s: State, t: State, id: OpId, op: Op)
    requires Inv(legacy, s) && Joins(s, t, id, op)
    ensures Inv(legacy, t)
  {
    JoinOwners(s, t, id, op);
    JoinAuthors(s, t, id, op);
    JoinOps(s, t, id, op);
    JoinStored(s, t, id, op);
    assert Sound(legacy, t.store, t.batches);
  }

  // ----- every step

  lemma CurrentIsLogged(legacy: set<Vector>, s: State, kb: string)
    requires Inv(legacy, s)
    ensures s.Current(kb) in LogOf(s.log, kb)
  {
    var log := LogOf(s.log, kb);
    assert log[|log| - 1] == At(s.manifest, kb);
  }

  lemma NewUpsertJoins(s: State, e: Event)
    requires Enabled(s, e) && e.BeginUpsert? && s.Current(e.kb) in LogOf(s.log, e.kb)
    ensures Joins(s, Apply(s, e), e.id, Op(e.kb, Unsent, Upsert(e.version, s.Current(e.kb), Staging(0))))
  {
  }

  lemma BeginUpsertKeepsInv(legacy: set<Vector>, s: State, e: Event)
    requires Inv(legacy, s) && Enabled(s, e) && e.BeginUpsert?
    ensures Inv(legacy, Apply(s, e))
  {
    CurrentIsLogged(legacy, s, e.kb);
    NewUpsertJoins(s, e);
    JoinKeepsInv(legacy, s, Apply(s, e), e.id, Op(e.kb, Unsent, Upsert(e.version, s.Current(e.kb), Staging(0))));
  }

  lemma NewDeletionJoins(s: State, e: Event)
    requires Enabled(s, e) && e.BeginDelete?
    ensures Joins(s, Apply(s, e), e.id, Apply(s, e).ops[e.id])
  {
  }

  lemma BeginDeleteKeepsInv(legacy: set<Vector>, s: State, e: Event)
    requires Inv(legacy, s) && Enabled(s, e) && e.BeginDelete?
    ensures Inv(legacy, Apply(s, e))
  {
    NewDeletionJoins(s, e);
    JoinKeepsInv(legacy, s, Apply(s, e), e.id, Apply(s, e).ops[e.id]);
  }

  lemma NewAttemptJoins(s: State, e: Event)
    requires Enabled(s, e) && e.BeginAttempt? && s.Current(e.kb) in LogOf(s.log, e.kb)
    ensures Joins(s, Apply(s, e), e.id, Op(e.kb, Unsent, Attempt(s.Current(e.kb))))
  {
  }

  lemma BeginAttemptKeepsInv(legacy: set<Vector>, s: State, e: Event)
    requires Inv(legacy, s) && Enabled(s, e) && e.BeginAttempt?
    ensures Inv(legacy, Apply(s, e))
  {
    CurrentIsLogged(legacy, s, e.kb);
    NewAttemptJoins(s, e);
    JoinKeepsInv(legacy, s, Apply(s, e), e.id, Op(e.kb, Unsent, Attempt(s.Current(e.kb))));
  }

  /** An upsert that is staging, and the batch that it stages. */
  lemma StagingHolds(legacy: set<Vector>, s: State, id: OpId)
    requires Inv(legacy, s) && IsUpsert(s, id) && s.ops[id].kind.upc.Staging?
    ensures var v := s.ops[id].kind.version;
            && s.batches[v].owner == id && s.batches[v].kb == s.ops[id].kb
            && s.ops[id].kind.upc.done <= |s.batches[v].texts| && s.ops[id].wire == Unsent
    ensures var v := s.ops[id].kind.version;
            s.Current(s.ops[id].kb) != Deleted ==> Holds(s.store, v, s.batches[v], s.ops[id].kind.upc.done)
  {
    OpHolds(legacy, s, id);
    var v := s.ops[id].kind.version;
    if s.Current(s.ops[id].kb) != Deleted {
      forall i: nat | i < s.ops[id].kind.upc.done ensures Chunk(v, s.batches[v], i) in s.store {
        assert i < StagedSoFar(s.Current(s.batches[v].kb), s.ops[id]);
      }
    }
  }

  lemma BatchAdds(store: set<Vector>, v: Uuid, b: Batch, done: nat, end: nat)
    requires done <= end <= |b.texts| && Holds(store, v, b, done)
    ensures Holds(store + Chunks(v, b, done, end), v, b, end)
  {
  }

  lemma StageKeepsInv(legacy: set<Vector>, s: State, e: Event)
    requires Inv(legacy, s) && Enabled(s, e) && e.StageBatch?
    ensures Inv(legacy, Apply(s, e))
  {
    var op := s.ops[e.id];
    var v := op.kind.version;
    var b := s.batches[v];
    var end := BatchEnd(op.kind.upc.done, |b.texts|);
    StagingHolds(legacy, s, e.id);
    var t := s;
    if e.applied {
      t := s.(store := s.store + Chunks(v, b, op.kind.upc.done, end));
      StagingKeepsInv(legacy, s, v, op.kind.upc.done, end);
    }
    if !e.raised && s.Current(op.kb) != Deleted {
      BatchAdds(s.store, v, b, op.kind.upc.done, end);
    }
    StageMoveKeepsInv(legacy, t, e.id, if e.raised then Discarding else Staging(end));
  }

  lemma StageMoveKeepsInv(legacy: set<Vector>, s: State, id: OpId, pc: UpsertPc)
    requires Inv(legacy, s) && IsUpsert(s, id) && s.ops[id].kind.upc.Staging?
    requires pc == Discarding || (pc.Staging? && pc.done <= |s.batches[s.ops[id].kind.version].texts|)
    requires pc.Staging? && s.Current(s.ops[id].kb) != Deleted ==>
               Holds(s.store, s.ops[id].kind.version, s.batches[s.ops[id].kind.version], pc.done)
    ensures Inv(legacy, s.AtPc(id, pc))
  {
    var op := s.ops[id];
    OpHolds(legacy, s, id);
    var after := op.(kind := op.kind.(upc := pc));
    forall u | u in s.batches && s.batches[u].owner == id
      ensures Backed(s.store, s.Current(op.kb), op, after, u, s.batches[u])
    {
      assert u == op.kind.version;
    }
    MoveKeepsInv(legacy, s, id, after);
  }

  lemma SendKeepsInv(legacy: set<Vector>, s: State, e: Event)
    requires Inv(legacy, s) && Enabled(s, e) && e.SendPublish?
    ensures Inv(legacy, Apply(s, e))
  {
    StagingHolds(legacy, s, e.id);
    SentMoveKeepsInv(legacy, s, e.id);
  }

  lemma SentMoveKeepsInv(legacy: set<Vector>, s: State, id: OpId)
    requires Inv(legacy, s) && IsUpsert(s, id) && s.ops[id].wire == Unsent
    requires s.Current(s.ops[id].kb) != Deleted ==>
               var v := s.ops[id].kind.version; Holds(s.store, v, s.batches[v], |s.batches[v].texts|)
    ensures Inv(legacy, s.WithOp(id, s.ops[id].(wire := Sent, kind := s.ops[id].kind.(upc := Publishing))))
  {
    var op := s.ops[id];
    OpHolds(legacy, s, id);
    var after := op.(wire := Sent, kind := op.kind.(upc := Publishing));
    forall u | u in s.batches && s.batches[u].owner == id
      ensures Backed(s.store, s.Current(op.kb), op, after, u, s.batches[u])
    {
      assert u == op.kind.version;
    }
    MoveKeepsInv(legacy, s, id, after);
  }

  lemma PcKeepsInv(legacy: set<Vector>, s: State, id: OpId, pc: UpsertPc)
    requires Inv(legacy, s) && id in s.ops && s.ops[id].kind.Upsert? && !pc.Staging?
    requires OpOk(id, s.ops[id].(kind := s.ops[id].kind.(upc := pc)), LogOf(s.log, s.ops[id].kb), s.batches, s.tokens)
    ensures Inv(legacy, s.AtPc(id, pc))
  {
    MoveKeepsInv(legacy, s, id, s.ops[id].(kind := s.ops[id].kind.(upc := pc)));
  }

  lemma FinishKeepsInv(legacy: set<Vector>, s: State, id: OpId)
    requires Inv(legacy, s) && id in s.ops && s.ops[id].kind.Upsert?
    ensures Inv(legacy, s.AtPc(id, Finished))
  {
    OpHolds(legacy, s, id);
    PcKeepsInv(legacy, s, id, Finished);
  }

  lemma RemoveKeepsInv(legacy: set<Vector>, s: State, id: OpId, g: Generation, applied: bool)
    requires Inv(legacy, s) && id in s.ops && s.ops[id].kind.Upsert?
    requires applied ==> Removable(s, s.ops[id].kb, g)
    ensures var t := if applied then s.(store := Without(s.store, s.ops[id].kb, g)) else s;
            Inv(legacy, t.AtPc(id, Finished))
  {
    if applied {
      RemovalKeepsInv(legacy, s, s.ops[id].kb, g);
      FinishKeepsInv(legacy, s.(store := Without(s.store, s.ops[id].kb, g)), id);
    } else {
      FinishKeepsInv(legacy, s, id);
    }
  }

  lemma DiscardKeepsInv(legacy: set<Vector>, s: State, e: Event)
    requires Inv(legacy, s) && Enabled(s, e) && e.Discard?
    ensures Inv(legacy, Apply(s, e))
  {
    OpHolds(legacy, s, e.id);
    RemoveKeepsInv(legacy, s, e.id, Staged(s.ops[e.id].kind.version), e.applied);
  }

  lemma RemoveOldKeepsInv(legacy: set<Vector>, s: State, e: Event)
    requires Inv(legacy, s) && Enabled(s, e) && e.RemoveOld?
    ensures Inv(legacy, Apply(s, e))
  {
    OpHolds(legacy, s, e.id);
    WriterMayRemove(legacy, s, e.id, s.ops[e.id].kind.upc.target);
    RemoveKeepsInv(legacy, s, e.id, s.ops[e.id].kind.upc.target, e.applied);
  }

  lemma PurgeStepKeepsInv(legacy: set<Vector>, s: State, e: Event)
    requires Inv(legacy, s) && Enabled(s, e) && e.Purge?
    ensures Inv(legacy, Apply(s, e))
  {
    var op := s.ops[e.id];
    OpHolds(legacy, s, e.id);
    var t := s;
    if e.applied && op.kind.permanent {
      assert Deleted in s.Log(op.kb);
      PurgeKeepsInv(legacy, s, op.kb);
      t := s.(store := WithoutSource(s.store, op.kb));
    } else if e.applied {
      var g := Replaced(op.wire.previous)[0];
      WriterMayRemove(legacy, s, e.id, g);
      RemovalKeepsInv(legacy, s, op.kb, g);
      t := s.(store := Without(s.store, op.kb, g));
    }
    MoveKeepsInv(legacy, t, e.id, op.(kind := op.kind.(dpc := Purged)));
  }

  lemma PublishReplyKeepsInv(legacy: set<Vector>, s: State, e: Event)
    requires Inv(legacy, s) && Enabled(s, e) && (e.PublishReply? || e.LoseReply?)
    ensures Inv(legacy, Apply(s, e))
  {
    OpHolds(legacy, s, e.id);
    PcKeepsInv(legacy, s, e.id, Apply(s, e).ops[e.id].kind.upc);
  }

  lemma ConfirmKeepsInv(legacy: set<Vector>, s: State, e: Event)
    requires Inv(legacy, s) && Enabled(s, e) && e.Confirm?
    ensures Inv(legacy, Apply(s, e))
  {
    var op := s.ops[e.id];
    OpHolds(legacy, s, e.id);
    if e.answered && s.Current(op.kb) == Live(op.kind.version) {
      assert Live(op.kind.version) in LogOf(s.log, op.kb);
      assert HasWritten(s.ops, e.id, op.kb);
      PcKeepsInv(legacy, s, e.id, AfterPublish(op.kind.expected));
    } else {
      PcKeepsInv(legacy, s, e.id, Finished);
    }
  }

  lemma DeleteReplyKeepsInv(legacy: set<Vector>, s: State, e: Event)
    requires Inv(legacy, s) && Enabled(s, e) && (e.DeleteReply? || e.FailAttempt?)
    ensures Inv(legacy, Apply(s, e))
  {
    OpHolds(legacy, s, e.id);
    MoveKeepsInv(legacy, s, e.id, Apply(s, e).ops[e.id]);
  }

  lemma StepKeepsInv(legacy: set<Vector>, s: State, e: Event)
    requires Inv(legacy, s) && Enabled(s, e)
    ensures Inv(legacy, Apply(s, e))
  {
    match e
    case BeginUpsert(_, _, _, _) => BeginUpsertKeepsInv(legacy, s, e);
    case BeginDelete(_, _, _, _) => BeginDeleteKeepsInv(legacy, s, e);
    case BeginAttempt(_, _) => BeginAttemptKeepsInv(legacy, s, e);
    case StageBatch(_, _, _) => StageKeepsInv(legacy, s, e);
    case SendPublish(_) => SendKeepsInv(legacy, s, e);
    case RunScript(id) => FireKeepsInv(legacy, s, id);
    case Discard(_, _) => DiscardKeepsInv(legacy, s, e);
    case RemoveOld(_, _) => RemoveOldKeepsInv(legacy, s, e);
    case Purge(_, _) => PurgeStepKeepsInv(legacy, s, e);
    case PublishReply(_) => PublishReplyKeepsInv(legacy, s, e);
    case LoseReply(_) => PublishReplyKeepsInv(legacy, s, e);
    case Confirm(_, _) => ConfirmKeepsInv(legacy, s, e);
    case DeleteReply(_) => DeleteReplyKeepsInv(legacy, s, e);
    case FailAttempt(_) => DeleteReplyKeepsInv(legacy, s, e);
  }

  lemma InitHasInv(legacy: set<Vector>, s: State)
    requires Init(legacy, s)
    ensures Inv(legacy, s)
  {
  }
}
