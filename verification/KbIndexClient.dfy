/** `upsert` and `delete_by_kb` as the code runs them, step by step, while everybody else goes on: what
    they report, set against what they did. */
module KbIndexClient {
  import opened KbPointer
  import opened KbIndex
  import opened KbIndexRuns

  function Last(run: seq<State>): State
    requires |run| > 0
  {
    run[|run| - 1]
  }

  /** The operations that are a client's own, and the identifiers that only it draws. */
  datatype Client = Client(ops: set<OpId>, uuids: set<Uuid>) {
    function Without(id: OpId, u: Uuid): Client {
      Client(ops - {id}, uuids - {u})
    }
  }

  /** Nobody acts for `id`. The server may run the script it has sent. */
  ghost predicate Stays(id: OpId, s: State, t: State) {
    && (id in s.ops <==> id in t.ops)
    && (id in s.ops ==>
          && t.ops[id].kind == s.ops[id].kind && t.ops[id].kb == s.ops[id].kb
          && (t.ops[id].wire == s.ops[id].wire || (s.ops[id].wire == Sent && t.ops[id].wire.Ran?)))
  }

  ghost predicate LeftAlone(c: Client, s: State, t: State) {
    && (forall id :: id in c.ops ==> Stays(id, s, t))
    && (forall u :: u in c.uuids && FreshUuid(s, u) ==> FreshUuid(t, u))
  }

  /** A run goes on, and what is the client's is left alone. */
  ghost predicate GoesOn(legacy: set<Vector>, c: Client, run: seq<State>, next: seq<State>) {
    IsRun(legacy, run) && IsRun(legacy, next) && run <= next && LeftAlone(c, Last(run), Last(next))
  }

  lemma GoesOnTwice(legacy: set<Vector>, c: Client, a: seq<State>, b: seq<State>, d: seq<State>)
    requires GoesOn(legacy, c, a, b) && GoesOn(legacy, c, b, d)
    ensures GoesOn(legacy, c, a, d)
  {
    forall id | id in c.ops ensures Stays(id, Last(a), Last(d)) {
      assert Stays(id, Last(a), Last(b)) && Stays(id, Last(b), Last(d));
    }
  }

  lemma LessLeftAlone(legacy: set<Vector>, c: Client, id: OpId, u: Uuid, run: seq<State>, next: seq<State>)
    requires GoesOn(legacy, c, run, next)
    ensures GoesOn(legacy, c.Without(id, u), run, next)
  {
  }

  /** Everybody else, and the server: how a run goes on from a point where the client waits. */
  type Others = seq<State> -> seq<State>

  ghost predicate Polite(legacy: set<Vector>, c: Client, others: Others) {
    forall run :: IsRun(legacy, run) ==> GoesOn(legacy, c, run, run + others(run))
  }

  method Wait(ghost legacy: set<Vector>, ghost c: Client, others: Others, run: seq<State>) returns (next: seq<State>)
    requires IsRun(legacy, run) && Polite(legacy, c, others)
    ensures GoesOn(legacy, c, run, next) && next == run + others(run)
  {
    next := run + others(run);
  }

  lemma OneMore(legacy: set<Vector>, run: seq<State>, e: Event)
    requires IsRun(legacy, run) && Enabled(Last(run), e)
    ensures IsRun(legacy, run + [Apply(Last(run), e)])
  {
    var next := run + [Apply(Last(run), e)];
    forall i: nat
      ensures StepAt(next, i)
    {
      assert StepAt(run, i);
      assert i + 1 == |run| ==> Next(next[i], next[i + 1]);
    }
  }

  /** Such others exist: nobody may be there, and the run may be at its start. */
  lemma NobodyElse(legacy: set<Vector>, c: Client) returns (start: seq<State>, others: Others)
    requires forall x :: x in legacy ==> x.gen == Legacy
    ensures IsRun(legacy, start) && Polite(legacy, c, others) &&
              Last(start) == State(map[], map[], legacy, map[], map[], map[])
  {
    start := [State(map[], map[], legacy, map[], map[], map[])];
    others := run => [];
    forall run | IsRun(legacy, run)
      ensures GoesOn(legacy, c, run, run + others(run))
    {
      assert run + others(run) == run;
    }
  }

  /** A step for an operation that is not one of these, drawing none of these identifiers. */
  predicate Foreign(c: Client, e: Event) {
    && e.id !in c.ops
    && (e.BeginUpsert? ==> e.version !in c.uuids)
    && (e.BeginDelete? ==> e.token !in c.uuids)
  }

  lemma ForeignStep(c: Client, s: State, e: Event)
    requires Enabled(s, e) && Foreign(c, e)
    ensures LeftAlone(c, s, Apply(s, e))
  {
    forall id | id in c.ops ensures Stays(id, s, Apply(s, e)) {
      if id in s.ops {
        OthersUntouched(s, e, id);
      }
    }
  }

  method Do(ghost legacy: set<Vector>, ghost c: Client, run: seq<State>, e: Event) returns (next: seq<State>)
    requires IsRun(legacy, run) && Enabled(Last(run), e) && Foreign(c, e)
    ensures GoesOn(legacy, c, run, next) && next == run + [Apply(Last(run), e)]
  {
    OneMore(legacy, run, e);
    ForeignStep(c, Last(run), e);
    next := run + [Apply(Last(run), e)];
  }

  /** How the store and the connection treat this call: which store calls raise or take effect, whether a
      reply arrives, whether the manifest can be read again. */
  datatype Luck = Luck(batchApplied: nat -> bool, batchRaised: nat -> bool, cleanupApplied: bool, replied: bool,
                       answered: bool)

  datatype Outcome = NothingToDo | SourceDeleted | StoreFailed | Refused | Published | Unknown

  /** What an upsert is called with, and what it draws. */
  datatype Task = Task(id: OpId, kb: string, version: Uuid, texts: seq<string>)

  predicate Owns(c: Client, task: Task) {
    task.id in c.ops && task.version in c.uuids
  }

  /** Everybody else left alone what is the client's, and the client acted for this upsert only. */
  ghost predicate ActsFor(legacy: set<Vector>, c: Client, task: Task, run: seq<State>, next: seq<State>) {
    GoesOn(legacy, c.Without(task.id, task.version), run, next)
  }

  /** Where an upsert stands. */
  ghost predicate Stands(s: State, task: Task, pc: UpsertPc) {
    && IsUpsert(s, task.id) && s.ops[task.id].kb == task.kb && s.ops[task.id].kind.version == task.version
    && s.ops[task.id].kind.upc == pc
    && s.batches[task.version].texts == task.texts
  }

  lemma StandsOn(legacy: set<Vector>, c: Client, task: Task, pc: UpsertPc, run: seq<State>, next: seq<State>)
    requires GoesOn(legacy, c, run, next) && task.id in c.ops && Stands(Last(run), task, pc)
    ensures Stands(Last(next), task, pc)
  {
    var i, j := |run| - 1, |next| - 1;
    assert next[i] == run[i];
    assert Stays(task.id, run[i], next[j]);
    BatchesLast(legacy, next, i, j, task.version);
  }

  /** The client waits in the middle of an upsert. */
  method WaitFor(ghost legacy: set<Vector>, ghost c: Client, others: Others, ghost task: Task, ghost pc: UpsertPc,
          run: seq<State>)
    returns (next: seq<State>)
    requires IsRun(legacy, run) && Polite(legacy, c, others) && Owns(c, task) && Stands(Last(run), task, pc)
    ensures ActsFor(legacy, c, task, run, next) && Stands(Last(next), task, pc) && Stays(task.id, Last(run), Last(next))
  {
    next := Wait(legacy, c, others, run);
    LessLeftAlone(legacy, c, task.id, task.version, run, next);
    StandsOn(legacy, c, task, pc, run, next);
  }

  /** The client takes a step of an upsert, `run` being where it has come since `start`. */
  method DoFor(ghost legacy: set<Vector>, ghost c: Client, ghost task: Task, ghost start: seq<State>, run: seq<State>,
          e: Event)
    returns (next: seq<State>)
    requires ActsFor(legacy, c, task, start, run) && Enabled(Last(run), e) && e.id == task.id && !e.BeginDelete?
    requires e.BeginUpsert? ==> e.version == task.version
    ensures ActsFor(legacy, c, task, start, next) && next == run + [Apply(Last(run), e)]
  {
    next := Do(legacy, c.Without(task.id, task.version), run, e);
    GoesOnTwice(legacy, c.Without(task.id, task.version), start, run, next);
  }

  /** ... with its script not sent. */
  ghost predicate Silent(s: State, task: Task, pc: UpsertPc) {
    Stands(s, task, pc) && s.ops[task.id].wire == Unsent
  }

  lemma BatchStep(s: State, task: Task, done: nat, applied: bool, raised: bool)
    requires Silent(s, task, Staging(done)) && done < |task.texts| && (!raised ==> applied)
    ensures Enabled(s, StageBatch(task.id, applied, raised))
    ensures Silent(Apply(s, StageBatch(task.id, applied, raised)), task,
                   if raised then Discarding else Staging(BatchEnd(done, |task.texts|)))
  {
  }

  ghost predicate BatchRaises(task: Task, luck: Luck, n: nat) {
    n * BATCH_SIZE < |task.texts| && luck.batchRaised(n * BATCH_SIZE)
  }

  ghost predicate SomeBatchRaises(task: Task, luck: Luck) {
    exists n: nat :: BatchRaises(task, luck, n)
  }

  /** So many batches went through, up to this chunk. */
  ghost predicate BatchesDone(task: Task, luck: Luck, n: nat, done: nat) {
    && (if done < |task.texts| then done == n * BATCH_SIZE else |task.texts| <= n * BATCH_SIZE)
    && forall m: nat :: m < n ==> !BatchRaises(task, luck, m)
  }

  lemma OneMoreBatch(task: Task, luck: Luck, n: nat, done: nat)
    requires BatchesDone(task, luck, n, done) && done < |task.texts| && !luck.batchRaised(done)
    ensures BatchesDone(task, luck, n + 1, BatchEnd(done, |task.texts|))
  {
  }

  /** `upsert` up to the end of staging, in batches of a hundred. */
  method StageAll(ghost legacy: set<Vector>, ghost c: Client, others: Others, task: Task, luck: Luck, start: seq<State>)
    returns (run: seq<State>, raised: bool)
    requires IsRun(legacy, start) && Polite(legacy, c, others) && Owns(c, task) && Silent(Last(start), task, Staging(0))
    ensures ActsFor(legacy, c, task, start, run)
    ensures Silent(Last(run), task, if raised then Discarding else Staging(|task.texts|))
    ensures raised <==> SomeBatchRaises(task, luck)
  {
    run, raised := start, false;
    var done: nat := 0;
    ghost var n: nat := 0;
    while done < |task.texts|
      invariant ActsFor(legacy, c, task, start, run) && done <= |task.texts| && !raised
      invariant Silent(Last(run), task, Staging(done))
      invariant BatchesDone(task, luck, n, done)
      decreases |task.texts| - done
    {
      ghost var before := run;
      run, raised := StageOne(legacy, c, others, task, done, luck, run);
      GoesOnTwice(legacy, c.Without(task.id, task.version), start, before, run);
      if raised {
        assert BatchRaises(task, luck, n);
        return;
      }
      OneMoreBatch(task, luck, n, done);
      done, n := BatchEnd(done, |task.texts|), n + 1;
    }
    NoMoreBatches(task, luck, n, done);
  }

  lemma NoMoreBatches(task: Task, luck: Luck, n: nat, done: nat)
    requires BatchesDone(task, luck, n, done) && done >= |task.texts|
    ensures !SomeBatchRaises(task, luck)
  {
    forall m: nat ensures !BatchRaises(task, luck, m) {
      assert m >= n ==> m * BATCH_SIZE >= n * BATCH_SIZE;
    }
  }

  method StageOne(ghost legacy: set<Vector>, ghost c: Client, others: Others, task: Task, done: nat, luck: Luck,
          start: seq<State>)
    returns (run: seq<State>, raised: bool)
    requires IsRun(legacy, start) && Polite(legacy, c, others) && Owns(c, task) && done < |task.texts|
    requires Silent(Last(start), task, Staging(done))
    ensures ActsFor(legacy, c, task, start, run)
    ensures Silent(Last(run), task, if raised then Discarding else Staging(BatchEnd(done, |task.texts|)))
    ensures raised == luck.batchRaised(done)
  {
    run := WaitFor(legacy, c, others, task, Staging(done), start);
    raised := luck.batchRaised(done);
    var applied := !raised || luck.batchApplied(done);
    BatchStep(Last(run), task, done, applied, raised);
    run := DoFor(legacy, c, task, start, run, StageBatch(task.id, applied, raised));
  }

  // ----- what an upsert reports

  /** The upsert has nothing left to do: what was to be cleaned up has been, or its call has raised. */
  ghost predicate Through(s: State, task: Task) {
    Stands(s, task, Finished)
  }

  /** Its version is published at some time, or will never be. */
  ghost predicate Wrote(s: State, task: Task) {
    HasWritten(s.ops, task.id, task.kb)
  }

  /** The lost reply is made up for by reading the manifest: a version that is there was written by its
      own upsert. */
  lemma ReadBack(legacy: set<Vector>, run: seq<State>, task: Task, pc: UpsertPc)
    requires IsRun(legacy, run) && Stands(Last(run), task, pc) && Last(run).Current(task.kb) == Live(task.version)
    ensures Wrote(Last(run), task)
  {
    var i := |run| - 1;
    RunHasInv(legacy, run, i);
    RunHasOp(legacy, run, i, task.id);
    CurrentInLog(legacy, run, i, task.kb);
  }

  lemma RemoveStep(s: State, task: Task, target: Generation, applied: bool)
    requires Stands(s, task, Removing(target)) && Wrote(s, task)
    ensures Enabled(s, RemoveOld(task.id, applied))
    ensures Wrote(Apply(s, RemoveOld(task.id, applied)), task) && Through(Apply(s, RemoveOld(task.id, applied)), task)
    ensures applied ==>
              forall x :: x in Apply(s, RemoveOld(task.id, applied)).store && x.kb == task.kb ==> x.gen != target
  {
  }

  /** No vector is left of a generation that this manifest value names. */
  ghost predicate NoneNamed(s: State, kb: string, p: Pointer) {
    forall x :: x in s.store && x.kb == kb ==> !Names(p, x.gen)
  }

  /** ... nor of this version. */
  ghost predicate NoneStaged(s: State, task: Task) {
    forall x :: x in s.store && x.kb == task.kb ==> x.gen != Staged(task.version)
  }

  /** The clean-up of what was replaced, if anything is to be cleaned up. It may raise; that is only
      logged. */
  method CleanUp(ghost legacy: set<Vector>, ghost c: Client, others: Others, task: Task, previous: Pointer, luck: Luck,
          start: seq<State>)
    returns (run: seq<State>)
    requires IsRun(legacy, start) && Polite(legacy, c, others) && Owns(c, task)
    requires Stands(Last(start), task, AfterPublish(previous)) && Wrote(Last(start), task)
    ensures ActsFor(legacy, c, task, start, run) && Wrote(Last(run), task) && Through(Last(run), task)
    ensures luck.cleanupApplied ==> NoneNamed(Last(run), task.kb, previous)
  {
    run := WaitFor(legacy, c, others, task, AfterPublish(previous), start);
    match AfterPublish(previous)
    case Removing(target) =>
      RemoveStep(Last(run), task, target, luck.cleanupApplied);
      run := DoFor(legacy, c, task, start, run, RemoveOld(task.id, luck.cleanupApplied));
    case _ =>
  }

  lemma ReplyStep(s: State, task: Task)
    requires Stands(s, task, Publishing) && s.ops[task.id].wire.Ran?
    ensures var t := Apply(s, PublishReply(task.id)); var wire := s.ops[task.id].wire;
            && Stands(t, task, if wire.accepted then AfterPublish(wire.previous) else Discarding)
            && t.ops[task.id].wire == wire
  {
  }

  lemma LostStep(s: State, task: Task)
    requires Stands(s, task, Publishing)
    ensures Stands(Apply(s, LoseReply(task.id)), task, Confirming)
    ensures Apply(s, LoseReply(task.id)).ops[task.id].wire == s.ops[task.id].wire
  {
  }

  lemma PublishingIsSent(legacy: set<Vector>, run: seq<State>, task: Task)
    requires IsRun(legacy, run) && Stands(Last(run), task, Publishing)
    ensures Last(run).ops[task.id].wire != Unsent
  {
    RunHasOp(legacy, run, |run| - 1, task.id);
  }

  lemma ConfirmStep(s: State, task: Task, answered: bool)
    requires Stands(s, task, Confirming)
    ensures Apply(s, Confirm(task.id, answered)).ops[task.id].wire == s.ops[task.id].wire
    ensures Stands(Apply(s, Confirm(task.id, answered)), task,
                   if answered && s.Current(task.kb) == Live(task.version)
                   then AfterPublish(s.ops[task.id].kind.expected) else Finished)
  {
  }

  /** Its script was not sent, or it ran and was refused. */
  ghost predicate Unwritten(s: State, task: Task)
    requires task.id in s.ops
  {
    s.ops[task.id].wire == Unsent || (s.ops[task.id].wire.Ran? && !s.ops[task.id].wire.accepted)
  }

  lemma DiscardStep(s: State, task: Task, applied: bool)
    requires Stands(s, task, Discarding) && Unwritten(s, task)
    ensures Doomed(Apply(s, Discard(task.id, applied)), task.id) && Through(Apply(s, Discard(task.id, applied)), task)
    ensures Apply(s, Discard(task.id, applied)).ops[task.id].wire == s.ops[task.id].wire
    ensures applied ==>
              forall x :: x in Apply(s, Discard(task.id, applied)).store && x.kb == task.kb ==>
                x.gen != Staged(task.version)
  {
  }

  /** Throwing away what was staged: the version is never published afterwards. */
  method ThrowAway(ghost legacy: set<Vector>, ghost c: Client, others: Others, task: Task, luck: Luck,
          start: seq<State>)
    returns (run: seq<State>)
    requires IsRun(legacy, start) && Polite(legacy, c, others) && Owns(c, task)
    requires Stands(Last(start), task, Discarding) && Unwritten(Last(start), task)
    ensures ActsFor(legacy, c, task, start, run) && Doomed(Last(run), task.id) && Through(Last(run), task)
    ensures luck.cleanupApplied ==> NoneStaged(Last(run), task)
    ensures Last(start).ops[task.id].wire.Ran? ==> Last(run).ops[task.id].wire.Ran?
  {
    run := WaitFor(legacy, c, others, task, Discarding, start);
    DiscardStep(Last(run), task, luck.cleanupApplied);
    run := DoFor(legacy, c, task, start, run, Discard(task.id, luck.cleanupApplied));
  }

  /** What a report is worth. */
  ghost predicate Honest(outcome: Outcome, s: State, task: Task) {
    match outcome
    case NothingToDo => task.id !in s.ops && FreshUuid(s, task.version)
    case SourceDeleted => task.id !in s.ops && s.Current(task.kb) == Deleted
    case StoreFailed => Doomed(s, task.id) && Through(s, task)
    case Refused => Doomed(s, task.id) && Through(s, task) && s.ops[task.id].wire.Ran?
    case Published => Wrote(s, task) && Through(s, task)
    case Unknown => Through(s, task) && s.ops[task.id].wire != Unsent
  }

  /** The client waited for the reply no longer, although the script had not run or its reply was lost. */
  ghost predicate GaveUp(run: seq<State>, task: Task, luck: Luck) {
    exists k: nat :: k + 1 < |run| && GivesUpAt(run[k], run[k + 1], task, luck)
  }

  ghost predicate GivesUpAt(s: State, t: State, task: Task, luck: Luck) {
    && Stands(s, task, Publishing) && Stands(t, task, Confirming)
    && (luck.replied ==> s.ops[task.id].wire == Sent)
  }

  /** The manifest could not be read, or did not show the version. */
  ghost predicate NotSeen(run: seq<State>, task: Task, luck: Luck) {
    luck.answered ==>
      exists k: nat :: k < |run| && Stands(run[k], task, Confirming) && run[k].Current(task.kb) != Live(task.version)
  }

  /** What is left of it if the store calls that clean up take effect: nothing of what it replaced, or
      nothing of its own. */
  ghost predicate CleanedUp(outcome: Outcome, s: State, task: Task) {
    && (outcome == Published ==> Through(s, task) && NoneNamed(s, task.kb, s.ops[task.id].kind.expected))
    && (outcome in {StoreFailed, Refused} ==> NoneStaged(s, task))
  }

  /** `publish_confirmed` and what follows it. */
  method Publish(ghost legacy: set<Vector>, ghost c: Client, others: Others, task: Task, luck: Luck, start: seq<State>)
    returns (run: seq<State>, outcome: Outcome)
    requires IsRun(legacy, start) && Polite(legacy, c, others) && Owns(c, task)
    requires Stands(Last(start), task, Publishing)
    ensures ActsFor(legacy, c, task, start, run)
    ensures outcome in {Refused, Published, Unknown} && Honest(outcome, Last(run), task)
    ensures luck.cleanupApplied ==> CleanedUp(outcome, Last(run), task)
    ensures outcome == Unknown ==> GaveUp(run, task, luck) && NotSeen(run, task, luck)
  {
    run := WaitFor(legacy, c, others, task, Publishing, start);
    ghost var before := run;
    if luck.replied && Last(run).ops[task.id].wire.Ran? {
      run, outcome := Replied(legacy, c, others, task, luck, run);
    } else {
      run, outcome := Lost(legacy, c, others, task, luck, run);
    }
    GoesOnTwice(legacy, c.Without(task.id, task.version), start, before, run);
  }

  /** What an upsert expected it goes on expecting. */
  lemma StillExpects(legacy: set<Vector>, run: seq<State>, next: seq<State>, task: Task)
    requires |run| > 0 && IsRun(legacy, next) && run <= next && IsUpsert(Last(run), task.id)
    ensures task.id in Last(next).ops && Last(next).ops[task.id].kind.Upsert?
    ensures Last(next).ops[task.id].kind.expected == Last(run).ops[task.id].kind.expected
  {
    assert next[|run| - 1] == Last(run);
    IntentLasts(legacy, next, |run| - 1, |next| - 1, task.id);
  }

  lemma AcceptedOverExpected(legacy: set<Vector>, run: seq<State>, task: Task)
    requires IsRun(legacy, run) && IsUpsert(Last(run), task.id)
    requires Last(run).ops[task.id].wire.Ran? && Last(run).ops[task.id].wire.accepted
    ensures Last(run).ops[task.id].wire.previous == Last(run).ops[task.id].kind.expected
  {
    RunHasOp(legacy, run, |run| - 1, task.id);
  }

  lemma GaveUpBy(start: seq<State>, run: seq<State>, task: Task, luck: Luck)
    requires |start| > 0 && start < run && GivesUpAt(Last(start), run[|start|], task, luck)
    ensures GaveUp(run, task, luck)
  {
    assert run[|start| - 1] == Last(start);
  }

  method Replied(ghost legacy: set<Vector>, ghost c: Client, others: Others, task: Task, luck: Luck, start: seq<State>)
    returns (run: seq<State>, outcome: Outcome)
    requires IsRun(legacy, start) && Polite(legacy, c, others) && Owns(c, task)
    requires Stands(Last(start), task, Publishing) && Last(start).ops[task.id].wire.Ran?
    ensures ActsFor(legacy, c, task, start, run)
    ensures outcome in {Refused, Published} && Honest(outcome, Last(run), task)
    ensures luck.cleanupApplied ==> CleanedUp(outcome, Last(run), task)
  {
    var wire := Last(start).ops[task.id].wire;
    ReplyStep(Last(start), task);
    run := DoFor(legacy, c, task, start, start, PublishReply(task.id));
    ghost var before := run;
    if wire.accepted {
      AcceptedOverExpected(legacy, start, task);
      run := CleanUp(legacy, c, others, task, wire.previous, luck, run);
      StillExpects(legacy, start, run, task);
      outcome := Published;
    } else {
      run := ThrowAway(legacy, c, others, task, luck, run);
      outcome := Refused;
    }
    GoesOnTwice(legacy, c.Without(task.id, task.version), start, before, run);
  }

  method Lost(ghost legacy: set<Vector>, ghost c: Client, others: Others, task: Task, luck: Luck, start: seq<State>)
    returns (run: seq<State>, outcome: Outcome)
    requires IsRun(legacy, start) && Polite(legacy, c, others) && Owns(c, task)
    requires Stands(Last(start), task, Publishing)
    requires luck.replied ==> !Last(start).ops[task.id].wire.Ran?
    ensures ActsFor(legacy, c, task, start, run)
    ensures outcome in {Published, Unknown} && Honest(outcome, Last(run), task)
    ensures luck.cleanupApplied ==> CleanedUp(outcome, Last(run), task)
    ensures outcome == Unknown ==> GaveUp(run, task, luck) && NotSeen(run, task, luck)
  {
    PublishingIsSent(legacy, start, task);
    LostStep(Last(start), task);
    run := DoFor(legacy, c, task, start, start, LoseReply(task.id));
    ghost var before := run;
    run, outcome := ConfirmIt(legacy, c, others, task, luck, run);
    GaveUpBy(start, run, task, luck);
    GoesOnTwice(legacy, c.Without(task.id, task.version), start, before, run);
  }

  /** The reply was lost. Staged data stays, unless the manifest shows that it is published. */
  method ConfirmIt(ghost legacy: set<Vector>, ghost c: Client, others: Others, task: Task, luck: Luck,
          start: seq<State>)
    returns (run: seq<State>, outcome: Outcome)
    requires IsRun(legacy, start) && Polite(legacy, c, others) && Owns(c, task)
    requires Stands(Last(start), task, Confirming) && Last(start).ops[task.id].wire != Unsent
    ensures ActsFor(legacy, c, task, start, run)
    ensures outcome in {Published, Unknown} && Honest(outcome, Last(run), task)
    ensures luck.cleanupApplied ==> CleanedUp(outcome, Last(run), task)
    ensures outcome == Unknown ==> NotSeen(run, task, luck)
    ensures start <= run
  {
    run := WaitFor(legacy, c, others, task, Confirming, start);
    ghost var waited := run;
    var expected := Last(run).ops[task.id].kind.expected;
    var there := luck.answered && Last(run).Current(task.kb) == Live(task.version);
    if there {
      ReadBack(legacy, run, task, Confirming);
    }
    ConfirmStep(Last(run), task, luck.answered);
    run := DoFor(legacy, c, task, start, run, Confirm(task.id, luck.answered));
    if there {
      ghost var before := run;
      run := CleanUp(legacy, c, others, task, expected, luck, run);
      GoesOnTwice(legacy, c.Without(task.id, task.version), start, before, run);
      StillExpects(legacy, waited, run, task);
      outcome := Published;
    } else {
      assert run[|waited| - 1] == Last(waited);
      outcome := Unknown;
    }
  }

  lemma BeginStep(s: State, task: Task)
    requires task.id !in s.ops && task.texts != [] && FreshUuid(s, task.version) && s.Current(task.kb) != Deleted
    ensures Enabled(s, BeginUpsert(task.id, task.kb, task.texts, task.version))
    ensures Silent(Apply(s, BeginUpsert(task.id, task.kb, task.texts, task.version)), task, Staging(0))
  {
  }

  lemma SendStep(s: State, task: Task)
    requires Silent(s, task, Staging(|task.texts|))
    ensures Enabled(s, SendPublish(task.id)) && Stands(Apply(s, SendPublish(task.id)), task, Publishing)
    ensures Apply(s, SendPublish(task.id)).ops[task.id].wire == Sent
  {
  }

  /** Staging, and then publication, or throwing away what was staged. */
  method StageAndPublish(ghost legacy: set<Vector>, ghost c: Client, others: Others, task: Task, luck: Luck,
          start: seq<State>)
    returns (run: seq<State>, outcome: Outcome)
    requires IsRun(legacy, start) && Polite(legacy, c, others) && Owns(c, task) && Silent(Last(start), task, Staging(0))
    ensures ActsFor(legacy, c, task, start, run)
    ensures outcome in {StoreFailed, Refused, Published, Unknown} && Honest(outcome, Last(run), task)
    ensures outcome == StoreFailed <==> SomeBatchRaises(task, luck)
    ensures luck.cleanupApplied ==> CleanedUp(outcome, Last(run), task)
    ensures outcome == Unknown ==> GaveUp(run, task, luck) && NotSeen(run, task, luck)
  {
    var raised;
    run, raised := StageAll(legacy, c, others, task, luck, start);
    ghost var before := run;
    if raised {
      run := ThrowAway(legacy, c, others, task, luck, run);
      outcome := StoreFailed;
    } else {
      SendStep(Last(run), task);
      run := DoFor(legacy, c, task, start, run, SendPublish(task.id));
      before := run;
      run, outcome := Publish(legacy, c, others, task, luck, run);
    }
    GoesOnTwice(legacy, c.Without(task.id, task.version), start, before, run);
  }

  /** `upsert`, with everybody else going on between its calls: it reports success only if its version
      was published, and failure or refusal only if its version is not and never will be; an exception
      after a lost reply says neither. The run it takes part in is one of the protocol, so all that
      holds of runs holds of it. */
  method Upsert(ghost legacy: set<Vector>, ghost c: Client, others: Others, task: Task, luck: Luck, start: seq<State>)
    returns (run: seq<State>, outcome: Outcome)
    requires IsRun(legacy, start) && Polite(legacy, c, others) && Owns(c, task)
    requires task.id !in Last(start).ops && FreshUuid(Last(start), task.version)
    ensures ActsFor(legacy, c, task, start, run)
    ensures Honest(outcome, Last(run), task)
    ensures outcome == NothingToDo <==> task.texts == []
    ensures outcome == StoreFailed <==>
              outcome !in {NothingToDo, SourceDeleted} && SomeBatchRaises(task, luck)
    ensures luck.cleanupApplied ==> CleanedUp(outcome, Last(run), task)
    ensures outcome == Unknown ==> GaveUp(run, task, luck) && NotSeen(run, task, luck)
  {
    run := Wait(legacy, c, others, start);
    LessLeftAlone(legacy, c, task.id, task.version, start, run);
    assert Stays(task.id, Last(start), Last(run));
    if task.texts == [] {
      return run, NothingToDo;
    }
    if Last(run).Current(task.kb) == Deleted {
      return run, SourceDeleted;
    }
    BeginStep(Last(run), task);
    run := DoFor(legacy, c, task, start, run, BeginUpsert(task.id, task.kb, task.texts, task.version));
    ghost var before := run;
    run, outcome := StageAndPublish(legacy, c, others, task, luck, run);
    GoesOnTwice(legacy, c.Without(task.id, task.version), start, before, run);
  }

  // ----- what a deletion reports

  /** The script could not be sent or its reply was lost; the source was hidden or deleted before and a
      revocation leaves it at that; the store call went through, or raised. */
  datatype Report = NoReply | AlreadyHidden | Removed | PurgeFailed

  /** What a deletion is called with, and what it draws. */
  datatype Erasure = Erasure(id: OpId, kb: string, permanent: bool, token: Uuid)

  /** Where a deletion stands. */
  ghost predicate Deleting(s: State, erasure: Erasure, pc: DeletePc) {
    && erasure.id in s.ops && s.ops[erasure.id].kb == erasure.kb && s.ops[erasure.id].kind.Deletion?
    && s.ops[erasure.id].kind.permanent == erasure.permanent && s.ops[erasure.id].kind.dpc == pc
    && s.ops[erasure.id].kind.marker == if erasure.permanent then Deleted else Revoked(erasure.token)
  }

  /** A permanent deletion whose script has run leaves the source deleted. */
  lemma RanDeletes(legacy: set<Vector>, run: seq<State>, erasure: Erasure, pc: DeletePc)
    requires IsRun(legacy, run) && Deleting(Last(run), erasure, pc) && erasure.permanent
    requires Last(run).ops[erasure.id].wire.Ran?
    ensures Last(run).Current(erasure.kb) == Deleted
  {
    RunHasOp(legacy, run, |run| - 1, erasure.id);
    RunHasLog(legacy, run, |run| - 1, erasure.kb);
    assert Deleted in Last(run).Log(erasure.kb);
  }

  /** A revocation whose script has run revoked the source, unless it was deleted. */
  lemma RanRevokes(legacy: set<Vector>, run: seq<State>, erasure: Erasure, pc: DeletePc)
    requires IsRun(legacy, run) && Deleting(Last(run), erasure, pc) && !erasure.permanent
    requires Last(run).ops[erasure.id].wire.Ran?
    ensures Revoked(erasure.token) in Last(run).Log(erasure.kb) || Last(run).Current(erasure.kb) == Deleted
  {
    RunHasOp(legacy, run, |run| - 1, erasure.id);
    RunHasLog(legacy, run, |run| - 1, erasure.kb);
  }

  lemma BeginDeleteStep(s: State, erasure: Erasure)
    requires erasure.id !in s.ops && FreshUuid(s, erasure.token)
    ensures var e := BeginDelete(erasure.id, erasure.kb, erasure.permanent, erasure.token);
            Enabled(s, e) && Deleting(Apply(s, e), erasure, Awaiting)
  {
  }

  lemma DeleteReplyStep(s: State, erasure: Erasure)
    requires Deleting(s, erasure, Awaiting) && s.ops[erasure.id].wire.Ran?
    ensures var t := Apply(s, DeleteReply(erasure.id)); var wire := s.ops[erasure.id].wire;
            && t.ops[erasure.id].wire == wire
            && Deleting(t, erasure, if !erasure.permanent && wire.previous.IsMarker() then Purged else Purging)
  {
  }

  lemma PurgeStep(s: State, erasure: Erasure, applied: bool)
    requires Deleting(s, erasure, Purging) && s.ops[erasure.id].wire.Ran?
    requires erasure.permanent || |Replaced(s.ops[erasure.id].wire.previous)| == 1
    ensures Enabled(s, Purge(erasure.id, applied))
    ensures var t := Apply(s, Purge(erasure.id, applied)); var wire := s.ops[erasure.id].wire;
            && Deleting(t, erasure, Purged) && t.ops[erasure.id].wire == wire
            && (applied && erasure.permanent ==> forall x :: x in t.store ==> x.kb != erasure.kb)
            && (applied && !erasure.permanent ==>
                  forall x :: x in t.store && x.kb == erasure.kb ==> Replaced(wire.previous) != [x.gen])
            && (forall x :: x in s.store && x.kb != erasure.kb ==> x in t.store)
  {
  }

  lemma PurgingMay(legacy: set<Vector>, run: seq<State>, erasure: Erasure)
    requires IsRun(legacy, run) && Deleting(Last(run), erasure, Purging) && Last(run).ops[erasure.id].wire.Ran?
    ensures erasure.permanent || |Replaced(Last(run).ops[erasure.id].wire.previous)| == 1
  {
    RunHasOp(legacy, run, |run| - 1, erasure.id);
  }

  /** `delete_by_kb`: once the reply is there a permanent deletion holds, whatever becomes of the
      vectors; a revocation of a source that was hidden or deleted touches no vector. */
  method DeleteByKb(ghost legacy: set<Vector>, ghost c: Client, others: Others, erasure: Erasure, luck: Luck,
          start: seq<State>)
    returns (run: seq<State>, report: Report)
    requires IsRun(legacy, start) && Polite(legacy, c, others) && erasure.id in c.ops && erasure.token in c.uuids
    requires erasure.id !in Last(start).ops && FreshUuid(Last(start), erasure.token)
    ensures GoesOn(legacy, c.Without(erasure.id, erasure.token), start, run)
    ensures Deleting(Last(run), erasure, if report == NoReply then Awaiting else Purged)
    ensures erasure.permanent && report != NoReply ==> Last(run).Current(erasure.kb) == Deleted
    ensures report == Removed && erasure.permanent ==> forall x :: x in Last(run).store ==> x.kb != erasure.kb
    ensures !erasure.permanent && report != NoReply ==>
              Revoked(erasure.token) in Last(run).Log(erasure.kb) || Last(run).Current(erasure.kb) == Deleted
    ensures report == NoReply <==> !(luck.replied && Last(run).ops[erasure.id].wire.Ran?)
    ensures report == AlreadyHidden <==>
              report != NoReply && !erasure.permanent && Last(run).ops[erasure.id].wire.previous.IsMarker()
    ensures report == Removed ==> luck.cleanupApplied
    ensures report == PurgeFailed ==> !luck.cleanupApplied
    ensures report == Removed && !erasure.permanent ==>
              NoneNamed(Last(run), erasure.kb, Last(run).ops[erasure.id].wire.previous)
  {
    ghost var rest := c.Without(erasure.id, erasure.token);
    BeginDeleteStep(Last(start), erasure);
    run := Do(legacy, rest, start, BeginDelete(erasure.id, erasure.kb, erasure.permanent, erasure.token));
    run := WaitWhile(legacy, c, others, erasure, Awaiting, start, run);
    if !luck.replied || !Last(run).ops[erasure.id].wire.Ran? {
      return run, NoReply;
    }
    DeleteReplyStep(Last(run), erasure);
    ghost var before := run;
    run := Do(legacy, rest, run, DeleteReply(erasure.id));
    GoesOnTwice(legacy, rest, start, before, run);
    if Last(run).ops[erasure.id].kind.dpc == Purged {
      RanRevokes(legacy, run, erasure, Purged);
      return run, AlreadyHidden;
    }
    before := run;
    run, report := PurgeIt(legacy, c, others, erasure, luck, run);
    GoesOnTwice(legacy, rest, start, before, run);
    if !erasure.permanent {
      RanRevokes(legacy, run, erasure, Purged);
    }
  }

  /** The client waits in the middle of a deletion, `run` being where it has come since `start`. */
  method WaitWhile(ghost legacy: set<Vector>, ghost c: Client, others: Others, ghost erasure: Erasure,
          ghost pc: DeletePc, ghost start: seq<State>, run: seq<State>)
    returns (next: seq<State>)
    requires GoesOn(legacy, c.Without(erasure.id, erasure.token), start, run) && Polite(legacy, c, others)
    requires erasure.id in c.ops && Deleting(Last(run), erasure, pc)
    ensures GoesOn(legacy, c.Without(erasure.id, erasure.token), start, next)
    ensures Deleting(Last(next), erasure, pc) && Stays(erasure.id, Last(run), Last(next))
  {
    next := Wait(legacy, c, others, run);
    LessLeftAlone(legacy, c, erasure.id, erasure.token, run, next);
    GoesOnTwice(legacy, c.Without(erasure.id, erasure.token), start, run, next);
    assert Stays(erasure.id, Last(run), Last(next));
  }

  method PurgeIt(ghost legacy: set<Vector>, ghost c: Client, others: Others, erasure: Erasure, luck: Luck,
          start: seq<State>)
    returns (run: seq<State>, report: Report)
    requires IsRun(legacy, start) && Polite(legacy, c, others) && erasure.id in c.ops && erasure.token in c.uuids
    requires Deleting(Last(start), erasure, Purging) && Last(start).ops[erasure.id].wire.Ran?
    ensures GoesOn(legacy, c.Without(erasure.id, erasure.token), start, run)
    ensures report in {Removed, PurgeFailed} && Deleting(Last(run), erasure, Purged)
    ensures erasure.permanent ==> Last(run).Current(erasure.kb) == Deleted
    ensures report == Removed && erasure.permanent ==> forall x :: x in Last(run).store ==> x.kb != erasure.kb
    ensures report == if luck.cleanupApplied then Removed else PurgeFailed
    ensures Last(run).ops[erasure.id].wire == Last(start).ops[erasure.id].wire
    ensures report == Removed && !erasure.permanent ==>
              NoneNamed(Last(run), erasure.kb, Last(run).ops[erasure.id].wire.previous)
  {
    ghost var rest := c.Without(erasure.id, erasure.token);
    run := WaitWhile(legacy, c, others, erasure, Purging, start, start);
    PurgingMay(legacy, run, erasure);
    PurgeStep(Last(run), erasure, luck.cleanupApplied);
    ghost var before := run;
    run := Do(legacy, rest, run, Purge(erasure.id, luck.cleanupApplied));
    GoesOnTwice(legacy, rest, start, before, run);
    if erasure.permanent {
      RanDeletes(legacy, run, erasure, Purged);
    }
    report := if luck.cleanupApplied then Removed else PurgeFailed;
  }

  // ----- an upsert that nobody disturbs

  /** How an undisturbed upsert stands: its script is not sent, and the source is as it was when it began. */
  ghost predicate Undisturbed(s: State, task: Task, pc: UpsertPc, before: Manifest) {
    && Silent(s, task, pc) && s.manifest == before
    && s.ops[task.id].kind.expected == At(before, task.kb) != Deleted
  }

  lemma StepUndisturbed(s: State, task: Task, pc: UpsertPc, before: Manifest, e: Event)
    requires Undisturbed(s, task, pc, before) && Enabled(s, e) && e.id == task.id && e.StageBatch?
    ensures Apply(s, e).manifest == before
    ensures task.id in Apply(s, e).ops && Apply(s, e).ops[task.id].kind.Upsert?
    ensures Apply(s, e).ops[task.id].kind.expected == s.ops[task.id].kind.expected
  {
  }

  /** The chunks from `done` on are staged, batch by batch. */
  lemma {:induction false} StageRest(legacy: set<Vector>, run: seq<State>, task: Task, done: nat, before: Manifest)
      returns (next: seq<State>)
    requires IsRun(legacy, run) && done <= |task.texts| && Undisturbed(Last(run), task, Staging(done), before)
    ensures IsRun(legacy, next) && run <= next && Undisturbed(Last(next), task, Staging(|task.texts|), before)
    decreases |task.texts| - done
  {
    if done == |task.texts| {
      next := run;
    } else {
      var e := StageBatch(task.id, true, false);
      BatchStep(Last(run), task, done, true, false);
      StepUndisturbed(Last(run), task, Staging(done), before, e);
      OneMore(legacy, run, e);
      next := StageRest(legacy, run + [Apply(Last(run), e)], task, BatchEnd(done, |task.texts|), before);
    }
  }

  lemma BeginUndisturbed(s: State, task: Task)
    requires task.id !in s.ops && task.texts != [] && FreshUuid(s, task.version) && s.Current(task.kb) != Deleted
    ensures var e := BeginUpsert(task.id, task.kb, task.texts, task.version);
            Enabled(s, e) && Undisturbed(Apply(s, e), task, Staging(0), s.manifest)
  {
    BeginStep(s, task);
  }

  /** The script is sent and runs: it finds the value that the upsert read. */
  lemma SendAndRun(s: State, task: Task, before: Manifest)
    requires Undisturbed(s, task, Staging(|task.texts|), before)
    ensures Enabled(s, SendPublish(task.id))
    ensures var t := Apply(s, SendPublish(task.id));
            && Enabled(t, RunScript(task.id))
            && Apply(t, RunScript(task.id)).manifest == before[task.kb := Live(task.version)]
  {
    SendStep(s, task);
  }

  /** Whatever happened before, an upsert of a source that is not deleted can go through, and then the source
      is published with exactly its texts, and no other source has changed. */
  lemma UndisturbedPublishes(legacy: set<Vector>, run: seq<State>, task: Task) returns (next: seq<State>)
    requires IsRun(legacy, run) && task.texts != [] && task.id !in Last(run).ops && FreshUuid(Last(run), task.version)
    requires Last(run).Current(task.kb) != Deleted
    ensures IsRun(legacy, next) && run <= next && PublishedAs(Last(next), task.kb, task.version, task.texts)
    ensures Last(next).manifest == Last(run).manifest[task.kb := Live(task.version)]
  {
    var before := Last(run).manifest;
    var begin := BeginUpsert(task.id, task.kb, task.texts, task.version);
    BeginUndisturbed(Last(run), task);
    OneMore(legacy, run, begin);
    var staged := StageRest(legacy, run + [Apply(Last(run), begin)], task, 0, before);
    SendAndRun(Last(staged), task, before);
    OneMore(legacy, staged, SendPublish(task.id));
    var sent := staged + [Apply(Last(staged), SendPublish(task.id))];
    OneMore(legacy, sent, RunScript(task.id));
    next := sent + [Apply(Last(sent), RunScript(task.id))];
    LiveIsPublished(legacy, next, |next| - 1, task.kb, task.version);
    assert next[|staged| - 1] == Last(staged);
    BatchesLast(legacy, next, |staged| - 1, |next| - 1, task.version);
  }

  /** ... and so can its deletion: then it stays deleted, whatever happens afterwards. */
  lemma UndisturbedDeletes(legacy: set<Vector>, run: seq<State>, erasure: Erasure) returns (next: seq<State>)
    requires IsRun(legacy, run) && erasure.id !in Last(run).ops && FreshUuid(Last(run), erasure.token)
    requires Last(run).Current(erasure.kb) != Deleted
    ensures IsRun(legacy, next) && run <= next
    ensures Last(next).manifest ==
            Last(run).manifest[erasure.kb := if erasure.permanent then Deleted else Revoked(erasure.token)]
  {
    var begin := BeginDelete(erasure.id, erasure.kb, erasure.permanent, erasure.token);
    BeginDeleteStep(Last(run), erasure);
    OneMore(legacy, run, begin);
    var begun := run + [Apply(Last(run), begin)];
    OneMore(legacy, begun, RunScript(erasure.id));
    next := begun + [Apply(Last(begun), RunScript(erasure.id))];
  }

  /** ... and a failed attempt hides what it read. */
  lemma UndisturbedHides(legacy: set<Vector>, run: seq<State>, id: OpId, kb: string) returns (next: seq<State>)
    requires IsRun(legacy, run) && id !in Last(run).ops
    requires Last(run).Current(kb) != Deleted && !Last(run).Current(kb).IsMarker()
    ensures IsRun(legacy, next) && run <= next && Last(next).Current(kb).Failed?
    ensures Names(Last(run).Current(kb), Last(next).Current(kb).hidden)
  {
    OneMore(legacy, run, BeginAttempt(id, kb));
    var begun := run + [Apply(Last(run), BeginAttempt(id, kb))];
    OneMore(legacy, begun, FailAttempt(id));
    var sent := begun + [Apply(Last(begun), FailAttempt(id))];
    OneMore(legacy, sent, RunScript(id));
    next := sent + [Apply(Last(sent), RunScript(id))];
  }
}
