/** What the publication protocol guarantees over whole runs, and to a query. */
module KbIndexRuns {
  import opened KbPointer
  import opened KbIndex
  import opened KbIndexSafety

  ghost predicate Next(s: State, t: State) {
    exists e :: Enabled(s, e) && t == Apply(s, e)
  }

  /** Any interleaving of any operations, from an index that holds legacy vectors only. */
  ghost predicate IsRun(legacy: set<Vector>, run: seq<State>) {
    && |run| > 0
    && Init(legacy, run[0])
    && forall i: nat :: StepAt(run, i)
  }

  /** Step `i` of a run, if there is one. */
  ghost predicate StepAt(run: seq<State>, i: nat) {
    i + 1 < |run| ==> Next(run[i], run[i + 1])
  }

  lemma {:induction false} RunHasInv(legacy: set<Vector>, run: seq<State>, i: nat)
    requires IsRun(legacy, run) && i < |run|
    ensures Inv(legacy, run[i])
    decreases i
  {
    if i == 0 {
      InitHasInv(legacy, run[0]);
    } else {
      RunHasInv(legacy, run, i - 1);
      assert StepAt(run, i - 1);
      var e :| Enabled(run[i - 1], e) && run[i] == Apply(run[i - 1], e);
      StepKeepsInv(legacy, run[i - 1], e);
    }
  }

  lemma RunHasLog(legacy: set<Vector>, run: seq<State>, i: nat, kb: string)
    requires IsRun(legacy, run) && i < |run|
    ensures LogShape(run[i].Log(kb)) && run[i].Log(kb)[|run[i].Log(kb)| - 1] == run[i].Current(kb)
  {
    RunHasInv(legacy, run, i);
    assert LogShape(LogOf(run[i].log, kb));
  }

  lemma RunHasOp(legacy: set<Vector>, run: seq<State>, i: nat, id: OpId)
    requires IsRun(legacy, run) && i < |run| && id in run[i].ops
    ensures OpOk(id, run[i].ops[id], run[i].Log(run[i].ops[id].kb), run[i].batches, run[i].tokens)
  {
    RunHasInv(legacy, run, i);
    OpHolds(legacy, run[i], id);
  }

  // ----- published data

  /** A published generation is in the store in full, and nothing else carries its version. */
  lemma PublishedIsWhole(legacy: set<Vector>, run: seq<State>, i: nat, kb: string, v: Uuid)
    requires IsRun(legacy, run) && i < |run| && run[i].Current(kb) == Live(v)
    ensures v in run[i].batches && run[i].batches[v].kb == kb
    ensures (set x | x in run[i].store && x.gen == Staged(v))
            == Chunks(v, run[i].batches[v], 0, |run[i].batches[v].texts|)
  {
    RunHasInv(legacy, run, i);
    InvPublished(legacy, run[i], kb, v);
  }

  lemma InvPublished(legacy: set<Vector>, s: State, kb: string, v: Uuid)
    requires Inv(legacy, s) && s.Current(kb) == Live(v)
    ensures v in s.batches && s.batches[v].kb == kb
    ensures (set x | x in s.store && x.gen == Staged(v)) == Chunks(v, s.batches[v], 0, |s.batches[v].texts|)
  {
    var log := LogOf(s.log, kb);
    assert log[|log| - 1] == Live(v);
    assert Live(v) in log;
    var b := s.batches[v];
    assert Holds(s.store, v, b, |b.texts|);
    forall x | x in s.store && x.gen == Staged(v) ensures x in Chunks(v, b, 0, |b.texts|) {
      assert x == Chunk(v, b, x.idx);
    }
  }

  /** A source the manifest does not name still has all its legacy vectors. */
  lemma UnnamedKeepsLegacy(legacy: set<Vector>, run: seq<State>, i: nat, x: Vector)
    requires IsRun(legacy, run) && i < |run| && x in legacy && x.kb !in run[i].manifest
    ensures x in run[i].store
  {
    RunHasInv(legacy, run, i);
  }

  /** While a publication script may still run, what it would publish is in the store in full, however
      the upsert was told or not told about it. Only a permanent deletion of the source ends that. */
  lemma UnsettledStaysWhole(legacy: set<Vector>, run: seq<State>, i: nat, id: OpId)
    requires IsRun(legacy, run) && i < |run| && IsUpsert(run[i], id) && run[i].ops[id].wire == Sent
    requires run[i].Current(run[i].ops[id].kb) != Deleted
    ensures var v := run[i].ops[id].kind.version;
            Chunks(v, run[i].batches[v], 0, |run[i].batches[v].texts|) <= run[i].store
  {
    RunHasInv(legacy, run, i);
    OpHolds(legacy, run[i], id);
    var v := run[i].ops[id].kind.version;
    assert Holds(run[i].store, v, run[i].batches[v], |run[i].batches[v].texts|);
  }

  // ----- history

  lemma StepGrowsLog(s: State, t: State, kb: string)
    requires Next(s, t)
    ensures s.Log(kb) <= t.Log(kb)
  {
    var e :| Enabled(s, e) && t == Apply(s, e);
    if !e.RunScript? { OnlyScriptsWrite(s, e); }
  }

  lemma OnlyScriptsWrite(s: State, e: Event)
    requires Enabled(s, e) && !e.RunScript?
    ensures Apply(s, e).log == s.log && Apply(s, e).manifest == s.manifest
  {
  }

  lemma {:induction false} LogGrows(legacy: set<Vector>, run: seq<State>, i: nat, j: nat, kb: string)
    requires IsRun(legacy, run) && i <= j < |run|
    ensures run[i].Log(kb) <= run[j].Log(kb)
    decreases j
  {
    if i < j {
      LogGrows(legacy, run, i, j - 1, kb);
      assert StepAt(run, j - 1);
      StepGrowsLog(run[j - 1], run[j], kb);
    }
  }

  /** A value that a source once had, and has again or still, it had all along. */
  lemma ValueNeverRecurs(legacy: set<Vector>, run: seq<State>, i: nat, k: nat, j: nat, kb: string)
    requires IsRun(legacy, run) && i <= k <= j < |run|
    requires run[j].Current(kb) in run[i].Log(kb)
    ensures run[k].Current(kb) == run[j].Current(kb)
    ensures run[k].Log(kb) == run[i].Log(kb)
  {
    RunHasLog(legacy, run, i, kb);
    RunHasLog(legacy, run, k, kb);
    RunHasLog(legacy, run, j, kb);
    LogGrows(legacy, run, i, k, kb);
    LogGrows(legacy, run, k, j, kb);
    SamePlace(run[i].Log(kb), run[k].Log(kb), run[j].Log(kb));
  }

  lemma SamePlace(a: seq<Pointer>, b: seq<Pointer>, c: seq<Pointer>)
    requires LogShape(c) && |a| > 0 && a <= b <= c && c[|c| - 1] in a
    ensures a == b == c
  {
    var m :| 0 <= m < |a| && a[m] == c[|c| - 1];
    assert c[m] == c[|c| - 1];
  }

  lemma CurrentInLog(legacy: set<Vector>, run: seq<State>, i: nat, kb: string)
    requires IsRun(legacy, run) && i < |run|
    ensures run[i].Current(kb) in run[i].Log(kb)
  {
    RunHasLog(legacy, run, i, kb);
  }

  lemma RunNamesNoAbsent(legacy: set<Vector>, run: seq<State>, i: nat)
    requires IsRun(legacy, run) && i < |run|
    ensures forall kb :: kb in run[i].manifest ==> run[i].manifest[kb] != Absent
  {
    RunHasInv(legacy, run, i);
  }

  lemma SameManifest(m: Manifest, n: Manifest)
    requires forall kb :: kb in m ==> m[kb] != Absent
    requires forall kb :: kb in n ==> n[kb] != Absent
    requires forall kb :: At(m, kb) == At(n, kb)
    ensures m == n
  {
    assert forall kb :: kb in m <==> At(m, kb) != Absent;
    assert forall kb :: kb in n <==> At(n, kb) != Absent;
  }

  /** Two equal snapshots of the manifest mean that it did not change between them. */
  lemma EqualSnapshots(legacy: set<Vector>, run: seq<State>, i: nat, k: nat, j: nat)
    requires IsRun(legacy, run) && i <= k <= j < |run|
    requires run[i].manifest == run[j].manifest
    ensures run[k].manifest == run[i].manifest
  {
    forall kb ensures At(run[k].manifest, kb) == At(run[i].manifest, kb) {
      CurrentInLog(legacy, run, i, kb);
      ValueNeverRecurs(legacy, run, i, k, j, kb);
    }
    RunNamesNoAbsent(legacy, run, i);
    RunNamesNoAbsent(legacy, run, k);
    SameManifest(run[i].manifest, run[k].manifest);
  }

  /** Permanent deletion is absorbing. */
  lemma DeletionIsFinal(legacy: set<Vector>, run: seq<State>, i: nat, j: nat, kb: string)
    requires IsRun(legacy, run) && i <= j < |run| && run[i].Current(kb) == Deleted
    ensures run[j].Current(kb) == Deleted
  {
    CurrentInLog(legacy, run, i, kb);
    LogGrows(legacy, run, i, j, kb);
    RunHasLog(legacy, run, j, kb);
  }

  // ----- fences

  /** What an operation set out with never changes. */
  ghost predicate SameIntent(before: Op, after: Op) {
    && after.kb == before.kb
    && match before.kind
       case Upsert(v, expected, _) => after.kind.Upsert? && after.kind.version == v && after.kind.expected == expected
       case Deletion(p, m, _) => after.kind.Deletion? && after.kind.permanent == p && after.kind.marker == m
       case Attempt(read) => after.kind == before.kind
  }

  lemma OthersUntouched(s: State, e: Event, id: OpId)
    requires Enabled(s, e) && id in s.ops && e.id != id
    ensures id in Apply(s, e).ops && Apply(s, e).ops[id] == s.ops[id]
  {
  }

  lemma OwnStepKeepsIntent(s: State, e: Event)
    requires Enabled(s, e) && e.id in s.ops
    ensures e.id in Apply(s, e).ops && SameIntent(s.ops[e.id], Apply(s, e).ops[e.id])
  {
  }

  lemma OwnStepKeepsWire(s: State, e: Event)
    requires Enabled(s, e) && e.id in s.ops && e.id in Apply(s, e).ops
    requires e.SendPublish? ==> s.ops[e.id].wire == Unsent
    ensures s.ops[e.id].wire.Ran? ==> Apply(s, e).ops[e.id].wire == s.ops[e.id].wire
    ensures Apply(s, e).ops[e.id].wire.Ran? && Apply(s, e).ops[e.id].wire.accepted && !s.ops[e.id].wire.Ran? ==>
              e.RunScript? && Accepts(s.manifest, s.ops[e.id])
  {
  }

  lemma StepKeepsIntent(s: State, t: State, id: OpId)
    requires Next(s, t) && id in s.ops
    requires s.ops[id].kind.Upsert? && s.ops[id].kind.upc.Staging? ==> s.ops[id].wire == Unsent
    ensures id in t.ops && SameIntent(s.ops[id], t.ops[id])
    ensures s.ops[id].wire.Ran? ==> t.ops[id].wire == s.ops[id].wire
  {
    var e :| Enabled(s, e) && t == Apply(s, e);
    if e.id == id {
      OwnStepKeepsIntent(s, e);
      OwnStepKeepsWire(s, e);
    } else {
      OthersUntouched(s, e, id);
    }
  }

  lemma {:induction false} IntentLasts(legacy: set<Vector>, run: seq<State>, i: nat, j: nat, id: OpId)
    requires IsRun(legacy, run) && i <= j < |run| && id in run[i].ops
    ensures id in run[j].ops && SameIntent(run[i].ops[id], run[j].ops[id])
    ensures run[i].ops[id].wire.Ran? ==> run[j].ops[id].wire == run[i].ops[id].wire
    decreases j
  {
    if i < j {
      IntentLasts(legacy, run, i, j - 1, id);
      RunHasOp(legacy, run, j - 1, id);
      assert StepAt(run, j - 1);
      StepKeepsIntent(run[j - 1], run[j], id);
    }
  }

  /** The value an upsert or an attempt compares with. */
  function Expected(op: Op): Pointer
    requires !op.kind.Deletion?
  {
    if op.kind.Upsert? then op.kind.expected else op.kind.read
  }

  lemma WritingStep(s: State, t: State, id: OpId)
    requires Next(s, t) && id in s.ops && !s.ops[id].kind.Deletion? && id in t.ops
    requires s.ops[id].kind.Upsert? && s.ops[id].kind.upc.Staging? ==> s.ops[id].wire == Unsent
    requires !s.ops[id].wire.Ran? && t.ops[id].wire.Ran? && t.ops[id].wire.accepted
    ensures s.Current(s.ops[id].kb) == Expected(s.ops[id])
    ensures t.Current(s.ops[id].kb) == Target(s.ops[id].kind)
    ensures t.store == s.store
  {
    var e :| Enabled(s, e) && t == Apply(s, e);
    if e.id == id {
      OwnStepKeepsWire(s, e);
    } else {
      OthersUntouched(s, e, id);
    }
  }

  /** The fence: when the script of an upsert or of a failed attempt writes at step `j`, the source
      has had the value it read ever since it read it. No deletion, no revocation and no other
      publication came in between, and none that came and went. */
  lemma Fence(legacy: set<Vector>, run: seq<State>, i: nat, k: nat, j: nat, id: OpId)
    requires IsRun(legacy, run) && i <= k <= j < |run| - 1
    requires id in run[i].ops && !run[i].ops[id].kind.Deletion?
    requires id in run[j].ops && !run[j].ops[id].wire.Ran?
    requires id in run[j + 1].ops && run[j + 1].ops[id].wire.Ran? && run[j + 1].ops[id].wire.accepted
    ensures run[k].Current(run[i].ops[id].kb) == Expected(run[i].ops[id])
    ensures run[j + 1].Current(run[i].ops[id].kb) == Target(run[i].ops[id].kind)
  {
    RunHasOp(legacy, run, i, id);
    RunHasOp(legacy, run, j, id);
    IntentLasts(legacy, run, i, j, id);
    assert StepAt(run, j);
    WritingStep(run[j], run[j + 1], id);
    ValueNeverRecurs(legacy, run, i, k, j, run[i].ops[id].kb);
  }

  /** Once the source has any other value than the one read, a soft revocation for one, the script of
      that upsert or attempt never writes. */
  lemma {:induction false} FencedForGood(legacy: set<Vector>, run: seq<State>, i: nat, j: nat, id: OpId)
    requires IsRun(legacy, run) && i <= j < |run|
    requires id in run[i].ops && !run[i].ops[id].kind.Deletion? && !HasWritten(run[i].ops, id, run[i].ops[id].kb)
    requires run[i].Current(run[i].ops[id].kb) != Expected(run[i].ops[id])
    ensures !HasWritten(run[j].ops, id, run[i].ops[id].kb)
    decreases j
  {
    if i < j {
      FencedForGood(legacy, run, i, j - 1, id);
      FencedStep(legacy, run, i, j - 1, id);
    }
  }

  lemma FencedStep(legacy: set<Vector>, run: seq<State>, i: nat, j: nat, id: OpId)
    requires IsRun(legacy, run) && i <= j < |run| - 1 && id in run[i].ops && !run[i].ops[id].kind.Deletion?
    requires run[i].Current(run[i].ops[id].kb) != Expected(run[i].ops[id])
    requires !HasWritten(run[j].ops, id, run[i].ops[id].kb)
    ensures !HasWritten(run[j + 1].ops, id, run[i].ops[id].kb)
  {
    IntentLasts(legacy, run, i, j, id);
    IntentLasts(legacy, run, j, j + 1, id);
    if !run[j].ops[id].wire.Ran? && HasWritten(run[j + 1].ops, id, run[i].ops[id].kb) {
      Fence(legacy, run, i, i, j, id);
    }
  }

  /** Of all upserts and failed attempts that read one value of a source, at most one upsert writes,
      and then no attempt does. */
  lemma AtMostOnePublishes(legacy: set<Vector>, run: seq<State>, i: nat, a: OpId, b: OpId)
    requires IsRun(legacy, run) && i < |run| && a in run[i].ops && b in run[i].ops
    requires run[i].ops[a].kb == run[i].ops[b].kb
    requires run[i].ops[a].kind.Upsert? && !run[i].ops[b].kind.Deletion?
    requires Expected(run[i].ops[a]) == Expected(run[i].ops[b])
    requires HasWritten(run[i].ops, a, run[i].ops[a].kb) && HasWritten(run[i].ops, b, run[i].ops[b].kb)
    ensures a == b
  {
    RunHasOp(legacy, run, i, a);
    RunHasOp(legacy, run, i, b);
    RunHasLog(legacy, run, i, run[i].ops[a].kb);
    SameSuccessor(run[i].Log(run[i].ops[a].kb), Expected(run[i].ops[a]),
                  Target(run[i].ops[a].kind), Target(run[i].ops[b].kind));
  }

  lemma SameSuccessor(log: seq<Pointer>, a: Pointer, b: Pointer, c: Pointer)
    requires NoRepeats(log) && Follows(log, a, b) && Follows(log, a, c)
    ensures b == c
  {
    var i :| 0 < i < |log| && log[i - 1] == a && log[i] == b;
    var j :| 0 < j < |log| && log[j - 1] == a && log[j] == c;
    assert i - 1 == j - 1;
  }

  /** A failed attempt hides the generation it read, and that generation only: it was the published
      one all the time since the attempt read it, and its vectors stay. */
  lemma FailureHidesWhatItRead(legacy: set<Vector>, run: seq<State>, i: nat, k: nat, j: nat, id: OpId)
    requires IsRun(legacy, run) && i <= k <= j < |run| - 1
    requires id in run[i].ops && run[i].ops[id].kind.Attempt?
    requires id in run[j].ops && !run[j].ops[id].wire.Ran?
    requires id in run[j + 1].ops && run[j + 1].ops[id].wire.Ran? && run[j + 1].ops[id].wire.accepted
    ensures var kb := run[i].ops[id].kb; var read := run[i].ops[id].kind.read;
            && run[j + 1].Current(kb).Failed?
            && PointerTo(run[j + 1].Current(kb).hidden) == read
            && run[k].Current(kb) == read
    ensures run[j + 1].store == run[j].store
  {
    Fence(legacy, run, i, k, j, id);
    IntentLasts(legacy, run, i, j, id);
    IntentLasts(legacy, run, i, j + 1, id);
    RunHasOp(legacy, run, j, id);
    assert StepAt(run, j);
    WritingStep(run[j], run[j + 1], id);
    RunHasOp(legacy, run, j + 1, id);
  }

  /** Until the script of an upsert or attempt has written, which it does in the end, the source has the
      value that was read. */
  lemma ReadValueStands(legacy: set<Vector>, run: seq<State>, k: nat, i: nat, id: OpId)
    requires IsRun(legacy, run) && k <= i < |run| && id in run[k].ops && !run[k].ops[id].kind.Deletion?
    requires !HasWritten(run[k].ops, id, run[k].ops[id].kb) && HasWritten(run[i].ops, id, run[k].ops[id].kb)
    ensures run[k].Current(run[k].ops[id].kb) == Expected(run[k].ops[id])
  {
    if run[k].Current(run[k].ops[id].kb) != Expected(run[k].ops[id]) {
      FencedForGood(legacy, run, k, i, id);
    }
  }

  /** The value names the generation, as the published or as a hidden one. */
  ghost predicate Names(p: Pointer, g: Generation) {
    p == PointerTo(g) || p == Failed(g)
  }

  /** An upsert removes exactly the generation it replaced: the published one, or the one that a failure had
      hidden. Wherever in a run its clean-up comes, with whatever happened since its publication, and whether
      it got the reply or read the manifest instead: the vectors of that generation are gone and all others
      are there, and the source had the value that the upsert read until it wrote. */
  lemma RemovesWhatItReplaced(legacy: set<Vector>, run: seq<State>, i: nat, id: OpId, applied: bool,
          replaced: Generation)
    requires IsRun(legacy, run) && i < |run| && Enabled(run[i], RemoveOld(id, applied))
    requires Names(run[i].ops[id].kind.expected, replaced)
    ensures run[i].ops[id].kind.upc.target == replaced
    ensures var (kb, after) := (run[i].ops[id].kb, Apply(run[i], RemoveOld(id, applied)).store);
            && (forall x :: x in after <==> x in run[i].store && !(applied && x.kb == kb && x.gen == replaced))
            && HasWritten(run[i].ops, id, kb)
            && Follows(run[i].Log(kb), run[i].ops[id].kind.expected, Live(run[i].ops[id].kind.version))
    ensures forall k: nat :: k <= i && id in run[k].ops && !HasWritten(run[k].ops, id, run[k].ops[id].kb) ==>
              run[k].Current(run[k].ops[id].kb) == run[i].ops[id].kind.expected
  {
    RunHasOp(legacy, run, i, id);
    forall k: nat | k <= i && id in run[k].ops && !HasWritten(run[k].ops, id, run[k].ops[id].kb)
      ensures run[k].Current(run[k].ops[id].kb) == run[i].ops[id].kind.expected
    {
      IntentLasts(legacy, run, k, i, id);
      ReadValueStands(legacy, run, k, i, id);
    }
  }

  /** And it does come to that clean-up: both ways in which the upsert learns that it is published lead
      there. After a soft revocation there is nothing to clean up. */
  lemma GoesOnToRemove(legacy: set<Vector>, run: seq<State>, i: nat, e: Event)
    requires IsRun(legacy, run) && i < |run| && Enabled(run[i], e) && IsUpsert(run[i], e.id)
    requires (e.PublishReply? && run[i].ops[e.id].wire.accepted)
             || (e.Confirm? && e.answered && run[i].Current(run[i].ops[e.id].kb) == Live(run[i].ops[e.id].kind.version))
    ensures var (expected, pc) := (run[i].ops[e.id].kind.expected, Apply(run[i], e).ops[e.id].kind.upc);
            if expected.Revoked? then pc == Finished
            else pc.Removing? && Names(expected, pc.target)
  {
    RunHasOp(legacy, run, i, e.id);
  }

  /** An attempt that began before an upsert of its source wrote, and did not write before that, never
      writes: when a document fails after its vectors were published, they are not hidden. */
  lemma HidingComesTooLate(legacy: set<Vector>, run: seq<State>, k: nat, i: nat, j: nat, attempt: OpId, upsert: OpId)
    requires IsRun(legacy, run) && k <= i <= j < |run|
    requires attempt in run[k].ops && run[k].ops[attempt].kind.Attempt? && upsert !in run[k].ops
    requires HasWritten(run[i].ops, upsert, run[k].ops[attempt].kb) && run[i].ops[upsert].kind.Upsert?
    requires !HasWritten(run[i].ops, attempt, run[k].ops[attempt].kb)
    ensures !HasWritten(run[j].ops, attempt, run[k].ops[attempt].kb)
  {
    var kb := run[k].ops[attempt].kb;
    var v := run[i].ops[upsert].kind.version;
    RunHasOp(legacy, run, k, attempt);
    RunHasOp(legacy, run, i, upsert);
    IntentLasts(legacy, run, k, i, attempt);
    assert Live(v) in run[i].Log(kb);
    NotYetInLog(legacy, run, k, i, upsert, kb);
    if run[i].Current(kb) == run[k].ops[attempt].kind.read {
      ValueNeverRecurs(legacy, run, k, i, i, kb);
    }
    FencedForGood(legacy, run, i, j, attempt);
  }

  lemma NotYetInLog(legacy: set<Vector>, run: seq<State>, k: nat, i: nat, upsert: OpId, kb: string)
    requires IsRun(legacy, run) && k <= i < |run| && upsert !in run[k].ops && IsUpsert(run[i], upsert)
    ensures Live(run[i].ops[upsert].kind.version) !in run[k].Log(kb)
  {
    var v := run[i].ops[upsert].kind.version;
    RunHasInv(legacy, run, k);
    RunHasOp(legacy, run, i, upsert);
    if Live(v) in LogOf(run[k].log, kb) {
      assert HasWritten(run[k].ops, run[k].batches[v].owner, kb);
      BatchesLast(legacy, run, k, i, v);
    }
  }

  lemma LogStep(s: State, t: State, kb: string)
    requires Next(s, t)
    ensures t.Log(kb) == s.Log(kb) || t.Log(kb) == s.Log(kb) + [t.Current(kb)]
  {
    var e :| Enabled(s, e) && t == Apply(s, e);
    if !e.RunScript? { OnlyScriptsWrite(s, e); }
  }

  /** What is in the log of a source was its value at some time. */
  lemma {:induction false} LoggedWasCurrent(legacy: set<Vector>, run: seq<State>, j: nat, kb: string, p: Pointer)
      returns (i: nat)
    requires IsRun(legacy, run) && j < |run| && p in run[j].Log(kb)
    ensures i <= j && run[i].Current(kb) == p
    decreases j
  {
    i := j;
    if run[j].Current(kb) != p {
      RunHasLog(legacy, run, j, kb);
      assert j > 0;
      assert StepAt(run, j - 1);
      LogStep(run[j - 1], run[j], kb);
      i := LoggedWasCurrent(legacy, run, j - 1, kb, p);
    }
  }

  /** At this moment the source is published with exactly these texts, in this order. */
  ghost predicate PublishedAs(s: State, kb: string, v: Uuid, texts: seq<string>) {
    && s.Current(kb) == Live(v)
    && (set x | x in s.store && x.gen == Staged(v)) == VectorsOf(kb, v, texts)
  }

  /** What these texts become under a version. */
  function VectorsOf(kb: string, v: Uuid, texts: seq<string>): set<Vector> {
    set k: nat | k < |texts| :: Vector(kb, Staged(v), k, texts[k])
  }

  /** Whenever a source is published under a version, it is with the texts of that version. */
  lemma LiveIsPublished(legacy: set<Vector>, run: seq<State>, i: nat, kb: string, v: Uuid)
    requires IsRun(legacy, run) && i < |run| && run[i].Current(kb) == Live(v)
    ensures v in run[i].batches && PublishedAs(run[i], kb, v, run[i].batches[v].texts)
  {
    PublishedIsWhole(legacy, run, i, kb, v);
    var b := run[i].batches[v];
    assert forall k: nat :: k < |b.texts| ==> Chunk(v, b, k) == Vector(kb, Staged(v), k, b.texts[k]);
    forall x | x in Chunks(v, b, 0, |b.texts|)
      ensures x in VectorsOf(kb, v, b.texts)
    {
      var k: nat :| k < |b.texts| && x == Chunk(v, b, k);
    }
  }

  /** An upsert that wrote had all its texts published at some time. */
  lemma WriterPublished(legacy: set<Vector>, run: seq<State>, j: nat, id: OpId) returns (i: nat)
    requires IsRun(legacy, run) && j < |run| && IsUpsert(run[j], id) && HasWritten(run[j].ops, id, run[j].ops[id].kb)
    ensures var v := run[j].ops[id].kind.version;
            i <= j && PublishedAs(run[i], run[j].ops[id].kb, v, run[j].batches[v].texts)
  {
    var kb, v := run[j].ops[id].kb, run[j].ops[id].kind.version;
    RunHasOp(legacy, run, j, id);
    assert Live(v) in run[j].Log(kb);
    i := LoggedWasCurrent(legacy, run, j, kb, Live(v));
    LiveIsPublished(legacy, run, i, kb, v);
    BatchesLast(legacy, run, i, j, v);
  }

  // ----- removal

  /** An upsert whose version will never be published. */
  ghost predicate Doomed(s: State, id: OpId) {
    && id in s.ops && s.ops[id].kind.Upsert? && !s.ops[id].kind.upc.Staging?
    && (s.ops[id].wire == Unsent || (s.ops[id].wire.Ran? && !s.ops[id].wire.accepted))
  }

  lemma OwnStepKeepsDoom(s: State, e: Event)
    requires Enabled(s, e) && Doomed(s, e.id)
    ensures Doomed(Apply(s, e), e.id) && Apply(s, e).ops[e.id].kind.version == s.ops[e.id].kind.version
  {
  }

  lemma StepKeepsDoom(s: State, t: State, id: OpId)
    requires Next(s, t) && Doomed(s, id)
    ensures Doomed(t, id) && t.ops[id].kind.version == s.ops[id].kind.version
  {
    var e :| Enabled(s, e) && t == Apply(s, e);
    if e.id == id {
      OwnStepKeepsDoom(s, e);
    } else {
      OthersUntouched(s, e, id);
    }
  }

  lemma {:induction false} DoomLasts(legacy: set<Vector>, run: seq<State>, i: nat, j: nat, id: OpId)
    requires IsRun(legacy, run) && i <= j < |run| && Doomed(run[i], id)
    ensures Doomed(run[j], id) && run[j].ops[id].kind.version == run[i].ops[id].kind.version
    decreases j
  {
    if i < j {
      DoomLasts(legacy, run, i, j - 1, id);
      assert StepAt(run, j - 1);
      StepKeepsDoom(run[j - 1], run[j], id);
    }
  }

  lemma RemovingEvent(s: State, e: Event, x: Vector)
    requires Enabled(s, e) && x in s.store && x !in Apply(s, e).store
    ensures e.id in s.ops && x.kb == s.ops[e.id].kb
    ensures e.Discard? || e.RemoveOld? || e.Purge?
    ensures e.Discard? ==> x.gen == Staged(s.ops[e.id].kind.version)
    ensures e.RemoveOld? ==> x.gen == s.ops[e.id].kind.upc.target
    ensures e.Purge? && !s.ops[e.id].kind.permanent ==> Replaced(s.ops[e.id].wire.previous) == [x.gen]
  {
  }

  /** A vector leaves the store only after the manifest has moved off its generation, and the manifest
      never names that generation again, neither as published nor as hidden. */
  lemma RemovedIsNeverNamed(legacy: set<Vector>, run: seq<State>, i: nat, j: nat, x: Vector)
    requires IsRun(legacy, run) && i < |run| - 1 && i <= j < |run|
    requires x in run[i].store && x !in run[i + 1].store
    ensures !Names(run[j].Current(x.kb), x.gen)
  {
    assert StepAt(run, i);
    var e :| Enabled(run[i], e) && run[i + 1] == Apply(run[i], e);
    RemovingEvent(run[i], e, x);
    RemovalIsSettled(legacy, run, i, j, e, x);
  }

  lemma RemovalIsSettled(legacy: set<Vector>, run: seq<State>, i: nat, j: nat, e: Event, x: Vector)
    requires IsRun(legacy, run) && i <= j < |run|
    requires Enabled(run[i], e) && x in run[i].store && x !in Apply(run[i], e).store
    ensures !Names(run[j].Current(x.kb), x.gen)
  {
    RemovingEvent(run[i], e, x);
    RunHasOp(legacy, run, i, e.id);
    var op := run[i].ops[e.id];
    if e.Discard? {
      DoomedNeverNamed(legacy, run, i, j, e.id);
    } else if e.Purge? && op.kind.permanent {
      RunHasLog(legacy, run, i, x.kb);
      assert Deleted in run[i].Log(x.kb);
      DeletionIsFinal(legacy, run, i, j, x.kb);
    } else {
      RunHasInv(legacy, run, i);
      WriterMayRemove(legacy, run[i], e.id, x.gen);
      GoneIsForGood(legacy, run, i, j, x.kb, x.gen);
    }
  }

  lemma DoomedNeverNamed(legacy: set<Vector>, run: seq<State>, i: nat, j: nat, id: OpId)
    requires IsRun(legacy, run) && i <= j < |run| && Doomed(run[i], id)
    ensures !Names(run[j].Current(run[i].ops[id].kb), Staged(run[i].ops[id].kind.version))
  {
    DoomLasts(legacy, run, i, j, id);
    var v := run[j].ops[id].kind.version;
    var kb := run[i].ops[id].kb;
    UnwrittenNotNamed(legacy, run, j, id, kb);
    RunHasLog(legacy, run, j, kb);
    var log := run[j].Log(kb);
    if log[|log| - 1].Failed? {
      assert log[|log| - 2] == PointerTo(log[|log| - 1].hidden);
    }
  }

  lemma UnwrittenNotNamed(legacy: set<Vector>, run: seq<State>, i: nat, id: OpId, kb: string)
    requires IsRun(legacy, run) && i < |run| && Doomed(run[i], id)
    ensures Live(run[i].ops[id].kind.version) !in run[i].Log(kb)
  {
    RunHasInv(legacy, run, i);
    OpHolds(legacy, run[i], id);
    assert Live(run[i].ops[id].kind.version) in LogOf(run[i].log, kb) ==> HasWritten(run[i].ops, id, kb);
  }

  lemma GoneIsForGood(legacy: set<Vector>, run: seq<State>, i: nat, j: nat, kb: string, g: Generation)
    requires IsRun(legacy, run) && i <= j < |run| && Gone(run[i].Log(kb), g)
    ensures !Names(run[j].Current(kb), g)
  {
    RunHasLog(legacy, run, j, kb);
    LogGrows(legacy, run, i, j, kb);
    GoneLasts(run[i].Log(kb), run[j].Log(kb), g);
  }

  lemma GoneLasts(before: seq<Pointer>, after: seq<Pointer>, g: Generation)
    requires LogShape(after) && before <= after && Gone(before, g)
    ensures !Names(after[|after| - 1], g)
  {
    var m :| 0 <= m < |before| && before[m] == PointerTo(g);
    assert m < |before| - 1 && after[m] == PointerTo(g);
    var last := |after| - 1;
    if after[last].Failed? {
      assert after[last - 1] == PointerTo(after[last].hidden);
      assert last - 1 == m ==> after[last] == before[|before| - 1];
    }
  }

  // ----- queries

  /** The store filter that a query builds from its first snapshot. */
  predicate Shown(snapshot: Manifest, x: Vector) {
    match x.gen
    case Legacy => x.kb !in snapshot
    case Staged(v) => x.kb in snapshot && !snapshot[x.kb].IsMarker() && snapshot[x.kb] == Live(v)
  }

  function Visible(snapshot: Manifest, store: set<Vector>): set<Vector> {
    set x | x in store && Shown(snapshot, x)
  }

  /** The vectors of a store that the manifest names: of each source the published generation, and the
      legacy vectors of a source that it does not name. */
  ghost function Named(s: State, store: set<Vector>): set<Vector> {
    set x | x in store && s.Current(x.kb) == PointerTo(x.gen)
  }

  /** The filter lets exactly these through. */
  lemma FilterFindsNamed(legacy: set<Vector>, run: seq<State>, i: nat, store: set<Vector>)
    requires IsRun(legacy, run) && i < |run|
    ensures Visible(run[i].manifest, store) == Named(run[i], store)
  {
    RunNamesNoAbsent(legacy, run, i);
  }

  /** The states at which one attempt takes its first snapshot, searches, and takes its second. */
  datatype Moments = Moments(first: nat, search: nat, second: nat)

  /** Every match is of the generation that was published for its source from the first snapshot to
      the second, and that generation was complete all that time. */
  ghost predicate Consistent(run: seq<State>, m: Moments, matches: set<Vector>) {
    && m.first <= m.second < |run|
    && forall x, k: nat :: x in matches && m.first <= k <= m.second ==>
         && run[k].Current(x.kb) == PointerTo(x.gen)
         && x in run[k].store
  }

  lemma MatchesAreConsistent(legacy: set<Vector>, run: seq<State>, m: Moments, matches: set<Vector>)
    requires IsRun(legacy, run) && m.first <= m.search <= m.second < |run|
    requires run[m.first].manifest == run[m.second].manifest
    requires matches <= Visible(run[m.first].manifest, run[m.search].store)
    ensures Consistent(run, m, matches)
  {
    forall x, k: nat | x in matches && m.first <= k <= m.second
      ensures run[k].Current(x.kb) == PointerTo(x.gen) && x in run[k].store
    {
      EqualSnapshots(legacy, run, m.first, k, m.second);
      RunHasInv(legacy, run, k);
      RunHasInv(legacy, run, m.search);
      NamedIsStored(legacy, run, m.search, k, x);
    }
  }

  /** A vector seen in the store is there whenever its generation is published. */
  lemma NamedIsStored(legacy: set<Vector>, run: seq<State>, i: nat, k: nat, x: Vector)
    requires IsRun(legacy, run) && i < |run| && k < |run| && x in run[i].store
    requires run[k].Current(x.kb) == PointerTo(x.gen)
    ensures x in run[k].store
  {
    RunIsSound(legacy, run, i);
    RunIsSound(legacy, run, k);
    if x.gen.Staged? {
      var v := x.gen.version;
      PublishedIsWhole(legacy, run, k, x.kb, v);
      if i <= k { BatchesLast(legacy, run, i, k, v); } else { BatchesLast(legacy, run, k, i, v); }
      StoredChunk(legacy, run[i], x);
      assert x in Chunks(v, run[k].batches[v], 0, |run[k].batches[v].texts|);
    }
  }

  lemma RunIsSound(legacy: set<Vector>, run: seq<State>, i: nat)
    requires IsRun(legacy, run) && i < |run|
    ensures Sound(legacy, run[i].store, run[i].batches)
    ensures LegacyIntact(legacy, run[i].manifest, run[i].store)
  {
    RunHasInv(legacy, run, i);
  }

  lemma StoredChunk(legacy: set<Vector>, s: State, x: Vector)
    requires Sound(legacy, s.store, s.batches) && x in s.store && x.gen.Staged?
    ensures x.gen.version in s.batches && x.idx < |s.batches[x.gen.version].texts|
    ensures x == Chunk(x.gen.version, s.batches[x.gen.version], x.idx)
  {
  }

  lemma StepKeepsBatches(s: State, t: State, v: Uuid)
    requires Next(s, t) && v in s.batches
    ensures v in t.batches && t.batches[v] == s.batches[v]
  {
    var e :| Enabled(s, e) && t == Apply(s, e);
    EventKeepsBatches(s, e, v);
  }

  lemma EventKeepsBatches(s: State, e: Event, v: Uuid)
    requires Enabled(s, e) && v in s.batches
    ensures v in Apply(s, e).batches && Apply(s, e).batches[v] == s.batches[v]
  {
  }

  lemma {:induction false} BatchesLast(legacy: set<Vector>, run: seq<State>, i: nat, j: nat, v: Uuid)
    requires IsRun(legacy, run) && i <= j < |run| && v in run[i].batches
    ensures v in run[j].batches && run[i].batches[v] == run[j].batches[v]
    decreases j
  {
    if i < j {
      BatchesLast(legacy, run, i, j - 1, v);
      assert StepAt(run, j - 1);
      StepKeepsBatches(run[j - 1], run[j], v);
    }
  }

  /** What there is to find of a source: all chunks of its published version, in their places, or all its
      legacy vectors if nothing was ever published, and nothing if it is hidden or deleted. */
  ghost function ToFind(legacy: set<Vector>, s: State, kb: string): set<Vector> {
    match s.Current(kb)
    case Live(v) => if v in s.batches then VectorsOf(kb, v, s.batches[v].texts) else {}
    case Absent => set x | x in legacy && x.kb == kb
    case _ => {}
  }

  ghost function OfSource(vectors: set<Vector>, kb: string): set<Vector> {
    set x | x in vectors && x.kb == kb
  }

  lemma NamedIsAll(legacy: set<Vector>, run: seq<State>, k: nat, kb: string)
    requires IsRun(legacy, run) && k < |run|
    ensures OfSource(Named(run[k], run[k].store), kb) == ToFind(legacy, run[k], kb)
    ensures run[k].Current(kb).Live? ==> run[k].Current(kb).version in run[k].batches
  {
    RunIsSound(legacy, run, k);
    if run[k].Current(kb).Live? {
      var v := run[k].Current(kb).version;
      LiveIsPublished(legacy, run, k, kb, v);
      assert forall x :: x in VectorsOf(kb, v, run[k].batches[v].texts) ==> x.kb == kb && x.gen == Staged(v);
    }
    LegacyIsLegacy(legacy, run, k);
  }

  lemma LegacyIsLegacy(legacy: set<Vector>, run: seq<State>, k: nat)
    requires IsRun(legacy, run) && k < |run|
    ensures forall x :: x in legacy ==> x.gen == Legacy
  {
  }

  /** While the manifest stays as it was, the store loses and gains nothing of what it names. */
  lemma NamedStays(legacy: set<Vector>, run: seq<State>, i: nat, k: nat)
    requires IsRun(legacy, run) && i < |run| && k < |run| && run[i].manifest == run[k].manifest
    ensures Named(run[i], run[i].store) == Named(run[i], run[k].store)
  {
    forall x | x in Named(run[i], run[i].store) ensures x in run[k].store {
      NamedIsStored(legacy, run, i, k, x);
    }
    forall x | x in Named(run[i], run[k].store) ensures x in run[i].store {
      NamedIsStored(legacy, run, k, i, x);
    }
  }

  /** Between two equal snapshots a search can find, of each source, exactly what there is to find. */
  lemma NothingIsMissed(legacy: set<Vector>, run: seq<State>, m: Moments, kb: string)
    requires IsRun(legacy, run) && m.first <= m.search <= m.second < |run|
    requires run[m.first].manifest == run[m.second].manifest
    ensures OfSource(Visible(run[m.first].manifest, run[m.search].store), kb) == ToFind(legacy, run[m.first], kb)
  {
    FilterFindsNamed(legacy, run, m.first, run[m.search].store);
    EqualSnapshots(legacy, run, m.first, m.search, m.second);
    NamedStays(legacy, run, m.first, m.search);
    NamedIsAll(legacy, run, m.first, kb);
  }

  /** The candidates of one attempt are all that there is to find. */
  ghost predicate FindsAll(legacy: set<Vector>, s: State, candidates: set<Vector>) {
    forall kb :: OfSource(candidates, kb) == ToFind(legacy, s, kb)
  }

  const QUERY_ATTEMPTS := 3

  /** `query`: search between two snapshots, and try again when they differ. `search` stands for the
      store's ranking: it returns some of the vectors that the filter lets through. */
  method Query(ghost legacy: set<Vector>, run: seq<State>, moments: seq<Moments>, search: set<Vector> -> set<Vector>)
    returns (matches: set<Vector>, answered: bool, attempt: nat)
    requires IsRun(legacy, run) && |moments| == QUERY_ATTEMPTS
    requires forall m :: m in moments ==> m.first <= m.search <= m.second < |run|
    requires forall candidates :: search(candidates) <= candidates
    ensures attempt <= QUERY_ATTEMPTS && (answered <==> attempt < QUERY_ATTEMPTS)
    ensures answered ==> Consistent(run, moments[attempt], matches)
    ensures answered ==>
              var candidates := Named(run[moments[attempt].first], run[moments[attempt].search].store);
              matches == search(candidates) && FindsAll(legacy, run[moments[attempt].first], candidates)
    ensures answered <==> exists m :: m in moments && run[m.first].manifest == run[m.second].manifest
    ensures answered ==> run[moments[attempt].first].manifest == run[moments[attempt].second].manifest
    ensures forall n :: 0 <= n < attempt ==> run[moments[n].first].manifest != run[moments[n].second].manifest
    ensures forall i, kb :: answered && 0 <= i <= moments[attempt].first && run[i].Current(kb) == Deleted ==>
              forall x :: x in matches ==> x.kb != kb
  {
    for n := 0 to QUERY_ATTEMPTS
      invariant forall i :: 0 <= i < n ==> run[moments[i].first].manifest != run[moments[i].second].manifest
    {
      var m := moments[n];
      var state := run[m.first].manifest;
      matches := search(Visible(state, run[m.search].store));
      if state == run[m.second].manifest {
        MatchesAreConsistent(legacy, run, m, matches);
        FilterFindsNamed(legacy, run, m.first, run[m.search].store);
        forall kb ensures OfSource(Visible(state, run[m.search].store), kb) == ToFind(legacy, run[m.first], kb) {
          NothingIsMissed(legacy, run, m, kb);
        }
        forall i, kb | 0 <= i <= m.first && run[i].Current(kb) == Deleted
          ensures run[m.first].Current(kb) == Deleted
        {
          DeletionIsFinal(legacy, run, i, m.first, kb);
        }
        return matches, true, n;
      }
    }
    return {}, false, QUERY_ATTEMPTS;
  }
}
