/** `process_documents` and `run_kb_job`: each document of a job is cut into chunks and upserted, while
    everybody else goes on, and the job says what became of it. */
module KbIngest {
  import opened Basics
  import opened KbPointer
  import opened KbIndex
  import opened KbIndexRuns
  import opened KbIndexClient
  import opened KbJob
  import Chunking

  /** How texts are cut: `boundaries` stands for the matches of the boundary pattern. */
  datatype Splitter = Splitter(size: int, overlap: int, maxInput: int, tok: Chunking.Tokenizer, blank: char -> bool,
                               boundaries: string -> seq<nat>, maxChunks: int)

  ghost predicate IsSplitter(sp: Splitter) {
    Chunking.IsTokenizer(sp.tok) && forall text :: Chunking.IsBoundaries(sp.boundaries(text), |text|)
  }

  predicate GoodLimits(sp: Splitter) {
    && sp.size > 0 && 2 < sp.maxInput <= Chunking.MAX_INPUT_TOKENS
    && 0 <= sp.overlap < Chunking.Budget(sp.size, sp.maxInput, sp.tok)
  }

  function JobFor(sp: Splitter, text: string): Chunking.Job
    requires GoodLimits(sp)
  {
    Chunking.Job(text, sp.boundaries(text), sp.tok, sp.blank, Chunking.Budget(sp.size, sp.maxInput, sp.tok),
                 sp.overlap, sp.maxInput)
  }

  /** The chunks that a document is indexed with: those of a cut of its text, and not too many. */
  ghost predicate Chunked(sp: Splitter, text: string, ws: seq<Chunking.Window>, texts: seq<string>) {
    && IsSplitter(sp) && GoodLimits(sp) && Chunking.Strip(text, sp.blank) != "" && sp.tok.encode(text) != []
    && 0 < |texts| <= sp.maxChunks && Chunking.IsCut(JobFor(sp, text), ws, texts)
  }

  /** Why a text cannot be indexed: the limits are wrong, there is nothing to cut, the next window is too
      large for the model or comes out empty, or there are no chunks or too many. */
  ghost predicate Uncuttable(sp: Splitter, text: string, ws: seq<Chunking.Window>, texts: seq<string>)
    requires IsSplitter(sp)
  {
    || !GoodLimits(sp)
    || Chunking.Strip(text, sp.blank) == "" || sp.tok.encode(text) == []
    || Chunking.Delivers(JobFor(sp, text), ws, Chunking.Outcome.Raised(Chunking.OverLimit))
    || Chunking.Delivers(JobFor(sp, text), ws, Chunking.Outcome.Raised(Chunking.Unsplittable))
    || (Chunking.IsCut(JobFor(sp, text), ws, texts) && !(0 < |texts| <= sp.maxChunks))
  }

  /** A text that can be indexed has one list of chunks, and no reason why it cannot. */
  lemma CutOnce(sp: Splitter, text: string, ws: seq<Chunking.Window>, texts: seq<string>, others: seq<Chunking.Window>,
          more: seq<string>)
    requires Chunked(sp, text, ws, texts)
    ensures Chunked(sp, text, others, more) ==> others == ws && more == texts
    ensures !Uncuttable(sp, text, others, more)
  {
    var job := JobFor(sp, text);
    if Chunking.IsCut(job, others, more) {
      Chunking.OneOutcome(job, ws, Chunking.Outcome.Chunks(texts), others, Chunking.Outcome.Chunks(more));
    }
    NotRaised(job, ws, texts, others, Chunking.OverLimit);
    NotRaised(job, ws, texts, others, Chunking.Unsplittable);
  }

  lemma NotRaised(job: Chunking.Job, ws: seq<Chunking.Window>, texts: seq<string>, others: seq<Chunking.Window>,
          problem: Chunking.Problem)
    requires Chunking.ValidJob(job) && Chunking.IsCut(job, ws, texts)
    ensures !Chunking.Delivers(job, others, Chunking.Outcome.Raised(problem))
  {
    if Chunking.Delivers(job, others, Chunking.Outcome.Raised(problem)) {
      Chunking.OneOutcome(job, ws, Chunking.Outcome.Chunks(texts), others, Chunking.Outcome.Raised(problem));
    }
  }

  /** A document: whether the read of the manifest is answered, what text it has, if it can be fetched and
      read, whether embedding its chunks returns, and with how many vectors, how its upsert fares, whether a
      script that hides it can be sent, and what is drawn for it. */
  datatype Source = Source(kbId: string, answered: bool, text: Option<string>, embedded: bool, vectors: nat,
                           luck: Luck, reachable: bool, attempt: OpId, upsert: OpId, version: Uuid)
  {
    /** `upsert` pairs chunks and vectors up to the end of the shorter list. */
    function Paired(texts: seq<string>): seq<string> {
      if vectors < |texts| then texts[..vectors] else texts
    }

    function TaskFor(texts: seq<string>): Task {
      Task(upsert, kbId, version, Paired(texts))
    }
  }

  /** The call of the upsert returns: when its version was published, and when there is nothing to do. */
  predicate Returns(report: Option<KbIndexClient.Outcome>) {
    report in {Some(Published), Some(NothingToDo)}
  }

  /** What is left of a client's own when it has done this document. */
  function Rest(c: Client, src: Source): Client {
    c.Without(src.upsert, src.version).Without(src.attempt, src.version)
  }

  ghost predicate OwnsSource(c: Client, src: Source) {
    src.attempt in c.ops && src.upsert in c.ops && src.version in c.uuids && src.attempt != src.upsert
  }

  ghost predicate Unused(s: State, src: Source) {
    src.attempt !in s.ops && src.upsert !in s.ops && FreshUuid(s, src.version)
  }

  /** What became of the work on a document that began at `asked`. */
  datatype Trail = Trail(asked: Counters, works: Works, texts: seq<string>, ws: seq<Chunking.Window>,
                         report: Option<KbIndexClient.Outcome>)

  // ----- the polls and saves

  method Ask(w: World, at: Counters) returns (turn: Turn, next: Counters)
    ensures turn == TurnOf(w.polls(at.polls)) && next == at.(polls := at.polls + 1)
  {
    next := at.(polls := at.polls + 1);
    match w.polls(at.polls)
    case Keep => turn := GoOn;
    case Cancel => turn := Stop;
    case PollFails => turn := Turn.Raised;
  }

  method Notify(job: Job, w: World, d: Document, at: Counters) returns (raised: bool, next: Counters)
    modifies job`documents, job`progress
    ensures raised == w.saves(at.saves).raised
    ensures Place(next, job.documents) == Saved(w, d, Place(at, old(job.documents)))
  {
    if w.saves(at.saves).kept {
      job.ApplyDocumentResult(d);
    }
    raised, next := w.saves(at.saves).raised, at.(saves := at.saves + 1);
  }

  /** A stage after the first, up to its work. */
  method OpenStage(job: Job, w: World, id: string, at: Counters) returns (turn: Turn, next: Counters)
    modifies job`documents, job`progress
    ensures Stand(turn, Place(next, job.documents)) ==
            Notified(w, Document(id, Running), CancelTold(w, id, Asked(w, Stand(GoOn, Place(at, old(job.documents))))))
  {
    turn, next := Ask(w, at);
    var raised;
    if turn == Stop {
      raised, next := Notify(job, w, Document(id, Canceled), next);
      turn := if raised then Turn.Raised else Stop;
    } else if turn == GoOn {
      raised, next := Notify(job, w, Document(id, Running), next);
      turn := if raised then Turn.Raised else GoOn;
    }
  }

  // ----- the work

  /** Cutting the text: it raises without chunks, or with more than the budget. */
  method Cut(sp: Splitter, text: string) returns (chunked: bool, texts: seq<string>, ghost ws: seq<Chunking.Window>)
    requires IsSplitter(sp)
    ensures if chunked then Chunked(sp, text, ws, texts) else Uncuttable(sp, text, ws, texts)
  {
    var r;
    r, ws := Chunking.ChunkText(text, sp.size, sp.overlap, sp.maxInput, sp.tok, sp.blank, sp.boundaries(text));
    match r
    case Raised(_) =>
      chunked, texts := false, [];
      assert GoodLimits(sp) ==> Chunking.Delivers(JobFor(sp, text), ws, r);
    case Chunks(chunks) =>
      chunked, texts := 0 < |chunks| <= sp.maxChunks, chunks;
      assert chunks == [] || Chunking.Delivers(JobFor(sp, text), ws, r);
  }

  /** The attempt has read the manifest and has sent no script. */
  ghost predicate Attempting(s: State, src: Source) {
    && src.attempt in s.ops && s.ops[src.attempt].kb == src.kbId && s.ops[src.attempt].kind.Attempt?
    && s.ops[src.attempt].wire == Unsent
  }

  ghost predicate ReadFits(src: Source, s: State, read: bool) {
    && (if read then Attempting(s, src) else src.attempt !in s.ops)
    && (read ==> src.answered)
    && (src.answered && !read ==> s.Current(src.kbId) == Deleted)
  }

  /** The read of the manifest will be answered: nobody else does anything, and the source is not deleted. */
  ghost predicate Readable(others: Others, src: Source, s: State) {
    src.answered && s.Current(src.kbId) != Deleted && forall run :: others(run) == []
  }

  /** `assert_not_deleted`. */
  method ReadManifest(ghost legacy: set<Vector>, ghost c: Client, others: Others, src: Source, start: seq<State>)
    returns (run: seq<State>, read: bool)
    requires IsRun(legacy, start) && Polite(legacy, c, others) && OwnsSource(c, src) && Unused(Last(start), src)
    ensures GoesOn(legacy, Rest(c, src), start, run)
    ensures ReadFits(src, Last(run), read) && (Readable(others, src, Last(start)) ==> read)
    ensures src.upsert !in Last(run).ops && FreshUuid(Last(run), src.version)
  {
    run := Wait(legacy, c, others, start);
    assert Stays(src.attempt, Last(start), Last(run)) && Stays(src.upsert, Last(start), Last(run));
    LessLeftAlone(legacy, c, src.upsert, src.version, start, run);
    LessLeftAlone(legacy, c.Without(src.upsert, src.version), src.attempt, src.version, start, run);
    read := src.answered && Last(run).Current(src.kbId) != Deleted;
    if read {
      ghost var before := run;
      run := Do(legacy, Rest(c, src), run, BeginAttempt(src.attempt, src.kbId));
      GoesOnTwice(legacy, Rest(c, src), start, before, run);
    }
  }

  /** The upsert of a document, with the vectors that its chunks were given. */
  method Index(ghost legacy: set<Vector>, ghost c: Client, others: Others, src: Source, texts: seq<string>,
          start: seq<State>)
    returns (run: seq<State>, report: KbIndexClient.Outcome)
    requires IsRun(legacy, start) && Polite(legacy, c, others) && OwnsSource(c, src) && Attempting(Last(start), src)
    requires src.upsert !in Last(start).ops && FreshUuid(Last(start), src.version)
    ensures GoesOn(legacy, Rest(c, src), start, run) && Attempting(Last(run), src)
    ensures Honest(report, Last(run), src.TaskFor(texts))
    ensures report == NothingToDo <==> texts == [] || src.vectors == 0
    ensures report == Published ==> Stored(legacy, run, src, src.Paired(texts))
  {
    run, report := KbIndexClient.Upsert(legacy, c, others, src.TaskFor(texts), src.luck, start);
    assert Stays(src.attempt, Last(start), Last(run));
    LessLeftAlone(legacy, c.Without(src.upsert, src.version), src.attempt, src.version, start, run);
    AheadOn(start, run, src);
    if report == Published {
      WroteIsStored(legacy, run, src, texts);
    }
  }

  /** At some time the source was published with exactly these texts. */
  ghost predicate PublishedWith(run: seq<State>, src: Source, texts: seq<string>) {
    exists i: nat :: i < |run| && PublishedAs(run[i], src.kbId, src.version, texts)
  }

  /** ... which are those of the version, and its own attempt never hides them. */
  ghost predicate Stored(legacy: set<Vector>, run: seq<State>, src: Source, texts: seq<string>)
    requires |run| > 0
  {
    && PublishedWith(run, src, texts)
    && src.version in Last(run).batches && Last(run).batches[src.version].texts == texts
    && NeverHides(legacy, run, src)
  }

  /** What a document leaves in the index when its upsert has returned. */
  ghost predicate Kept(legacy: set<Vector>, run: seq<State>, sp: Splitter, src: Source, trail: Trail)
    requires |run| > 0
  {
    trail.works.upserted ==>
      && src.text.Some? && Chunked(sp, src.text.value, trail.ws, trail.texts)
      && (src.vectors > 0 ==> Stored(legacy, run, src, src.Paired(trail.texts)))
      && (src.vectors == 0 ==> trail.report == Some(NothingToDo))
  }

  ghost predicate NeverHides(legacy: set<Vector>, run: seq<State>, src: Source) {
    forall later :: IsRun(legacy, later) && run <= later ==> !HasWritten(Last(later).ops, src.attempt, src.kbId)
  }

  lemma StoredOn(legacy: set<Vector>, run: seq<State>, next: seq<State>, src: Source, texts: seq<string>)
    requires |run| > 0 && Stored(legacy, run, src, texts) && run <= next && IsRun(legacy, next)
    ensures Stored(legacy, next, src, texts)
  {
    var i: nat :| i < |run| && PublishedAs(run[i], src.kbId, src.version, texts);
    assert PublishedAs(next[i], src.kbId, src.version, texts);
    assert next[|run| - 1] == Last(run);
    BatchesLast(legacy, next, |run| - 1, |next| - 1, src.version);
  }

  lemma KeptOn(legacy: set<Vector>, run: seq<State>, next: seq<State>, sp: Splitter, src: Source, trail: Trail)
    requires |run| > 0 && Kept(legacy, run, sp, src, trail) && run <= next && IsRun(legacy, next)
    ensures Kept(legacy, next, sp, src, trail)
  {
    if trail.works.upserted && src.vectors > 0 {
      StoredOn(legacy, run, next, src, src.Paired(trail.texts));
    }
  }

  /** The attempt began before the upsert. */
  ghost predicate Ahead(run: seq<State>, src: Source) {
    exists k: nat :: k < |run| && Attempting(run[k], src) && src.upsert !in run[k].ops
  }

  lemma AheadOn(run: seq<State>, next: seq<State>, src: Source)
    requires |run| > 0 && run <= next && Attempting(Last(run), src) && src.upsert !in Last(run).ops
    ensures Ahead(next, src)
  {
    assert Attempting(next[|run| - 1], src);
  }

  lemma WroteIsStored(legacy: set<Vector>, run: seq<State>, src: Source, texts: seq<string>)
    requires IsRun(legacy, run) && Ahead(run, src) && Attempting(Last(run), src)
    requires Honest(Published, Last(run), src.TaskFor(texts))
    ensures Stored(legacy, run, src, src.Paired(texts))
  {
    var n := |run| - 1;
    var k: nat :| k < |run| && Attempting(run[k], src) && src.upsert !in run[k].ops;
    var i := WriterPublished(legacy, run, n, src.upsert);
    assert PublishedAs(run[i], src.kbId, src.version, src.Paired(texts));
    forall later | IsRun(legacy, later) && run <= later
      ensures !HasWritten(Last(later).ops, src.attempt, src.kbId)
    {
      assert later[k] == run[k] && later[n] == run[n];
      HidingComesTooLate(legacy, later, k, n, |later| - 1, src.attempt, src.upsert);
    }
  }

  // ----- the stages

  /** The work of a stage is reached: the poll says to keep on, and progress is saved. */
  predicate Opened(w: World, at: Counters) {
    w.polls(at.polls) == Keep && !w.saves(at.saves).raised
  }

  method ExtractStage(job: Job, w: World, sp: Splitter, src: Source, read: bool, at: Counters)
    returns (turn: Turn, next: Counters, extracted: bool)
    modifies job`documents, job`progress
    ensures extracted <==> src.text.Some? && Chunking.Strip(src.text.value, sp.blank) != ""
    ensures Stand(turn, Place(next, job.documents)) ==
            FirstStage(w, src.kbId, read, extracted, Stand(GoOn, Place(at, old(job.documents))))
  {
    extracted := src.text.Some? && Chunking.Strip(src.text.value, sp.blank) != "";
    if !read {
      return Turn.Raised, at, extracted;
    }
    var raised;
    raised, next := Notify(job, w, Document(src.kbId, Running), at);
    turn := if raised || !extracted then Turn.Raised else GoOn;
  }

  method ChunkStage(job: Job, w: World, sp: Splitter, id: string, text: string, at: Counters)
    returns (turn: Turn, next: Counters, chunked: bool, texts: seq<string>, ghost ws: seq<Chunking.Window>)
    requires IsSplitter(sp)
    modifies job`documents, job`progress
    ensures Stand(turn, Place(next, job.documents)) ==
            LaterStage(w, id, chunked, Stand(GoOn, Place(at, old(job.documents))))
    ensures chunked ==> Chunked(sp, text, ws, texts)
    ensures Opened(w, at) && !chunked ==> Uncuttable(sp, text, ws, texts)
  {
    turn, next := OpenStage(job, w, id, at);
    chunked, texts, ws := false, [], [];
    if turn == GoOn {
      chunked, texts, ws := Cut(sp, text);
      turn := if chunked then GoOn else Turn.Raised;
    }
  }

  method EmbedStage(job: Job, w: World, src: Source, at: Counters) returns (turn: Turn, next: Counters)
    modifies job`documents, job`progress
    ensures Stand(turn, Place(next, job.documents)) ==
            LaterStage(w, src.kbId, src.embedded, Stand(GoOn, Place(at, old(job.documents))))
  {
    turn, next := OpenStage(job, w, src.kbId, at);
    if turn == GoOn && !src.embedded {
      turn := Turn.Raised;
    }
  }

  /** How the upsert of these chunks came out, if it was called. */
  ghost predicate ReportFits(src: Source, s: State, texts: seq<string>, report: Option<KbIndexClient.Outcome>) {
    && (if report.Some? then Honest(report.value, s, src.TaskFor(texts)) else src.upsert !in s.ops)
    && (report.Some? ==> (report.value == NothingToDo <==> src.Paired(texts) == []))
  }

  method IndexStage(ghost legacy: set<Vector>, ghost c: Client, others: Others, job: Job, w: World, src: Source,
          texts: seq<string>, at: Counters, start: seq<State>)
    returns (turn: Turn, next: Counters, run: seq<State>, report: Option<KbIndexClient.Outcome>)
    requires IsRun(legacy, start) && Polite(legacy, c, others) && OwnsSource(c, src) && Attempting(Last(start), src)
    requires src.upsert !in Last(start).ops && FreshUuid(Last(start), src.version)
    modifies job`documents, job`progress
    ensures Stand(turn, Place(next, job.documents)) ==
            LaterStage(w, src.kbId, Returns(report), Stand(GoOn, Place(at, old(job.documents))))
    ensures GoesOn(legacy, Rest(c, src), start, run) && Attempting(Last(run), src)
    ensures Opened(w, at) <==> report.Some?
    ensures ReportFits(src, Last(run), texts, report)
    ensures report == Some(NothingToDo) ==> texts == [] || src.vectors == 0
    ensures report == Some(Published) ==> src.vectors > 0 && Stored(legacy, run, src, src.Paired(texts))
  {
    turn, next := OpenStage(job, w, src.kbId, at);
    run, report := start, None;
    if turn == GoOn {
      var outcome;
      run, outcome := Index(legacy, c, others, src, texts, start);
      report := Some(outcome);
      turn := if Returns(report) then GoOn else Turn.Raised;
    }
  }

  // ----- one document

  /** The work of stage `n` is reached, the first poll being taken at `asked`. */
  ghost predicate Reached(w: World, works: Works, asked: Counters, n: nat) {
    Passed(w, works, asked, n) && Opened(w, Moved(asked, n))
  }

  ghost predicate CutFits(sp: Splitter, src: Source, trail: Trail, reached: bool)
    requires IsSplitter(sp)
  {
    && (trail.works.chunked ==> src.text.Some? && Chunked(sp, src.text.value, trail.ws, trail.texts))
    && (reached && !trail.works.chunked ==>
          src.text.Some? && Uncuttable(sp, src.text.value, trail.ws, trail.texts))
  }

  /** What the work on a document did up to its upsert, and why it raised where it did. */
  ghost predicate FrontFits(sp: Splitter, src: Source, w: World, asked: Counters, s: State, trail: Trail)
    requires IsSplitter(sp)
  {
    && ReadFits(src, s, trail.works.read)
    && (trail.works.extracted <==> src.text.Some? && Chunking.Strip(src.text.value, sp.blank) != "")
    && CutFits(sp, src, trail, Reached(w, trail.works, asked, 1))
    && trail.works.embedded == src.embedded && trail.asked == asked
  }

  /** The upsert is called when it is reached. */
  ghost predicate CalledWhenReached(w: World, asked: Counters, trail: Trail) {
    && (trail.report.Some? <==> Reached(w, trail.works, asked, 3))
    && (trail.works.upserted <==> Returns(trail.report))
  }

  /** ... and its upsert. */
  ghost predicate WorksFit(sp: Splitter, src: Source, w: World, asked: Counters, s: State, trail: Trail)
    requires IsSplitter(sp)
  {
    && FrontFits(sp, src, w, asked, s, trail)
    && CalledWhenReached(w, asked, trail)
    && ReportFits(src, s, trail.texts, trail.report)
  }

  /** The first three stages one after another. */
  lemma ThreeStages(w: World, id: string, works: Works, p: Place, s1: Stand, s2: Stand, s3: Stand)
    requires s1 == FirstStage(w, id, works.read, works.extracted, Stand(GoOn, Polled(p)))
    requires s2 == if s1.turn == GoOn then LaterStage(w, id, works.chunked, s1) else s1
    requires s3 == if s2.turn == GoOn then LaterStage(w, id, works.embedded, s2) else s2
    requires w.polls(p.at.polls) == Keep
    ensures s3 == Upto(w, id, works, Polled(p), 3)
    ensures Reached(w, works, p.at, 1) <==> s1.turn == GoOn && Opened(w, s1.p.at)
  {
    assert Upto(w, id, works, Polled(p), 0) == Stand(GoOn, Polled(p));
    assert Upto(w, id, works, Polled(p), 1) == s1;
    assert Upto(w, id, works, Polled(p), 2) == s2;
    UptoOutcome(w, id, works, p, 1);
  }

  /** The upsert does not matter to the stages before it. */
  lemma {:induction false} UpsertIsLast(w: World, id: string, works: Works, p: Place, upserted: bool, n: nat)
    requires n <= 3
    ensures Upto(w, id, works.(upserted := upserted), p, n) == Upto(w, id, works, p, n)
    ensures forall at: Counters :: Reached(w, works.(upserted := upserted), at, n) <==> Reached(w, works, at, n)
  {
    if n > 0 {
      UpsertIsLast(w, id, works, p, upserted, n - 1);
    }
    forall at: Counters, i: nat | i < n
      ensures GoesThrough(w, works.(upserted := upserted), at, i) <==> GoesThrough(w, works, at, i)
    {
    }
  }

  /** A document up to its upsert. */
  method Prepare(ghost legacy: set<Vector>, ghost c: Client, others: Others, sp: Splitter, job: Job, w: World,
          src: Source, asked: Counters, start: seq<State>)
    returns (turn: Turn, next: Counters, run: seq<State>, read: bool, texts: seq<string>, ghost trail: Trail)
    requires IsSplitter(sp) && w.polls(asked.polls) == Keep
    requires IsRun(legacy, start) && Polite(legacy, c, others) && OwnsSource(c, src) && Unused(Last(start), src)
    modifies job`documents, job`progress
    ensures Stand(turn, Place(next, job.documents)) ==
            Upto(w, src.kbId, trail.works, Polled(Place(asked, old(job.documents))), 3)
    ensures GoesOn(legacy, Rest(c, src), start, run)
    ensures src.upsert !in Last(run).ops && FreshUuid(Last(run), src.version)
    ensures FrontFits(sp, src, w, asked, Last(run), trail) && texts == trail.texts && read == trail.works.read
    ensures Readable(others, src, Last(start)) ==> read
    ensures turn == GoOn ==> trail.works.read && trail.works.chunked
  {
    var extracted, chunked := false, false;
    ghost var ws: seq<Chunking.Window> := [];
    texts := [];
    run, read := ReadManifest(legacy, c, others, src, start);
    turn, next, extracted := ExtractStage(job, w, sp, src, read, asked.(polls := asked.polls + 1));
    ghost var s1 := Stand(turn, Place(next, job.documents));
    if turn == GoOn {
      turn, next, chunked, texts, ws := ChunkStage(job, w, sp, src.kbId, src.text.value, next);
    }
    ghost var s2 := Stand(turn, Place(next, job.documents));
    if turn == GoOn {
      turn, next := EmbedStage(job, w, src, next);
    }
    ghost var s3 := Stand(turn, Place(next, job.documents));
    ghost var works := Works(read, extracted, chunked, src.embedded, false);
    ThreeStages(w, src.kbId, works, Place(asked, old(job.documents)), s1, s2, s3);
    trail := Trail(asked, works, texts, ws, None);
  }

  ghost function Reported(trail: Trail, report: Option<KbIndexClient.Outcome>): Trail {
    trail.(works := trail.works.(upserted := Returns(report)), report := report)
  }

  /** The upsert is reached when the first three stages went through and the fourth opens. */
  lemma ReachesUpsert(w: World, id: string, works: Works, p: Place, s3: Stand)
    requires w.polls(p.at.polls) == Keep && s3 == Upto(w, id, works, Polled(p), 3)
    ensures Reached(w, works, p.at, 3) <==> s3.turn == GoOn && Opened(w, s3.p.at)
  {
    UptoOutcome(w, id, works, p, 3);
  }

  lemma FitsWithUpsert(sp: Splitter, src: Source, w: World, asked: Counters, s: State, t: State, trail: Trail,
          report: Option<KbIndexClient.Outcome>)
    requires IsSplitter(sp) && FrontFits(sp, src, w, asked, s, trail)
    requires report.Some? <==> Reached(w, trail.works, asked, 3)
    requires ReadFits(src, t, trail.works.read) && ReportFits(src, t, trail.texts, report)
    ensures WorksFit(sp, src, w, asked, t, Reported(trail, report))
  {
    var p := Place(asked, []);
    UpsertIsLast(w, src.kbId, trail.works, p, Returns(report), 1);
    UpsertIsLast(w, src.kbId, trail.works, p, Returns(report), 3);
  }

  /** What is guarded against exceptions, after the first poll. */
  method Guarded(ghost legacy: set<Vector>, ghost c: Client, others: Others, sp: Splitter, job: Job, w: World,
          src: Source, asked: Counters, start: seq<State>)
    returns (turn: Turn, next: Counters, run: seq<State>, read: bool, ghost trail: Trail)
    requires IsSplitter(sp) && w.polls(asked.polls) == Keep
    requires IsRun(legacy, start) && Polite(legacy, c, others) && OwnsSource(c, src) && Unused(Last(start), src)
    modifies job`documents, job`progress
    ensures Stand(turn, Place(next, job.documents)) ==
            Stages(w, src.kbId, trail.works, Polled(Place(asked, old(job.documents))))
    ensures GoesOn(legacy, Rest(c, src), start, run)
    ensures WorksFit(sp, src, w, asked, Last(run), trail) && Kept(legacy, run, sp, src, trail)
    ensures read == trail.works.read && (Readable(others, src, Last(start)) ==> read)
  {
    var texts;
    var report: Option<KbIndexClient.Outcome> := None;
    turn, next, run, read, texts, trail := Prepare(legacy, c, others, sp, job, w, src, asked, start);
    ghost var p := Place(asked, old(job.documents));
    ghost var s3, prepared := Stand(turn, Place(next, job.documents)), run;
    ReachesUpsert(w, src.kbId, trail.works, p, s3);
    if turn == GoOn {
      turn, next, run, report := IndexStage(legacy, c, others, job, w, src, texts, next, run);
      GoesOnTwice(legacy, Rest(c, src), start, prepared, run);
    }
    ghost var s4 := Stand(turn, Place(next, job.documents));
    FitsWithUpsert(sp, src, w, asked, Last(prepared), Last(run), trail, report);
    UpsertIsLast(w, src.kbId, trail.works, Polled(p), Returns(report), 3);
    trail := Reported(trail, report);
    assert Upto(w, src.kbId, trail.works, Polled(p), 4) == s4;
    if turn == GoOn {
      var raised;
      raised, next := Notify(job, w, Document(src.kbId, Status.Ok), next);
      turn := if raised then Turn.Raised else GoOn;
    }
  }

  /** An upsert with nothing to do has not used its version. */
  ghost predicate VersionLeft(s: State, src: Source, trail: Trail) {
    trail.report == Some(NothingToDo) ==> FreshUuid(s, src.version)
  }

  /** The script that hides what the attempt read is on its way. */
  ghost predicate HideSent(s: State, src: Source) {
    src.attempt in s.ops && s.ops[src.attempt].wire != Unsent
  }

  /** It is exactly when the document failed after its read, and the script could be sent. */
  ghost predicate HidesOnFailure(s: State, src: Source, read: bool, outcome: Option<Status>) {
    read ==> (HideSent(s, src) <==> src.reachable && outcome !in {Some(Status.Ok), Some(Canceled)})
  }

  /** `revoke_failed`. It may raise; that is only logged. */
  method Hide(ghost legacy: set<Vector>, ghost c: Client, others: Others, src: Source, start: seq<State>)
    returns (run: seq<State>)
    requires IsRun(legacy, start) && Polite(legacy, c, others) && OwnsSource(c, src) && Attempting(Last(start), src)
    ensures GoesOn(legacy, Rest(c, src), start, run)
    ensures FreshUuid(Last(start), src.version) ==> FreshUuid(Last(run), src.version)
    ensures HideSent(Last(run), src) <==> src.reachable
  {
    run := Wait(legacy, c, others, start);
    assert Stays(src.attempt, Last(start), Last(run));
    LessLeftAlone(legacy, c, src.upsert, src.version, start, run);
    LessLeftAlone(legacy, c.Without(src.upsert, src.version), src.attempt, src.version, start, run);
    if src.reachable {
      ghost var before := run;
      run := Do(legacy, Rest(c, src), run, FailAttempt(src.attempt));
      GoesOnTwice(legacy, Rest(c, src), start, before, run);
    }
  }

  function Nothing(asked: Counters): Trail {
    Trail(asked, Works(false, false, false, false, false), [], [], None)
  }

  /** The work on a document was as it should when it ended. */
  ghost predicate Worked(sp: Splitter, src: Source, w: World, at: Counters, run: seq<State>, trail: Trail)
    requires IsSplitter(sp)
  {
    if w.polls(at.polls) == Keep then exists i: nat :: i < |run| && WorksFit(sp, src, w, at, run[i], trail)
    else trail == Nothing(at)
  }

  lemma UpsertedPassed(sp: Splitter, src: Source, w: World, at: Counters, run: seq<State>, trail: Trail)
    requires IsSplitter(sp) && Worked(sp, src, w, at, run, trail)
    ensures trail.works.upserted <==> Passed(w, trail.works, at, STAGES)
  {
    if w.polls(at.polls) == Keep {
      CalledPassed(w, at, trail);
    } else {
      assert !GoesThrough(w, trail.works, at, 0);
    }
  }

  lemma CalledPassed(w: World, at: Counters, trail: Trail)
    requires CalledWhenReached(w, at, trail)
    ensures trail.works.upserted <==> Passed(w, trail.works, at, STAGES)
  {
    assert Passed(w, trail.works, at, 4) ==> GoesThrough(w, trail.works, at, 3);
    PassedOne(w, trail.works, at, 3);
  }

  /** The way out when something has raised: hide what the attempt read, and report the error. */
  method Fail(ghost legacy: set<Vector>, ghost c: Client, others: Others, ghost sp: Splitter, job: Job, w: World,
          src: Source, at: Counters, ghost start: seq<State>, worked: seq<State>, read: bool, ghost trail: Trail)
    returns (raised: bool, next: Counters, run: seq<State>)
    requires Polite(legacy, c, others) && OwnsSource(c, src) && GoesOn(legacy, Rest(c, src), start, worked)
    requires ReadFits(src, Last(worked), read) && Kept(legacy, worked, sp, src, trail)
    requires VersionLeft(Last(worked), src, trail)
    modifies job`documents, job`progress
    ensures raised == w.saves(at.saves).raised
    ensures Place(next, job.documents) == Saved(w, Document(src.kbId, Status.Error), Place(at, old(job.documents)))
    ensures GoesOn(legacy, Rest(c, src), start, run) && worked <= run && Kept(legacy, run, sp, src, trail)
    ensures VersionLeft(Last(run), src, trail) && (read ==> (HideSent(Last(run), src) <==> src.reachable))
  {
    run := worked;
    if read {
      run := Hide(legacy, c, others, src, worked);
      GoesOnTwice(legacy, Rest(c, src), start, worked, run);
      KeptOn(legacy, worked, run, sp, src, trail);
    }
    raised, next := Notify(job, w, Document(src.kbId, Status.Error), at);
  }

  /** A document after its first poll. */
  method Attempt(ghost legacy: set<Vector>, ghost c: Client, others: Others, sp: Splitter, job: Job, w: World,
          src: Source, asked: Counters, start: seq<State>)
    returns (outcome: Option<Status>, next: Counters, run: seq<State>, ghost trail: Trail)
    requires IsSplitter(sp) && w.polls(asked.polls) == Keep
    requires IsRun(legacy, start) && Polite(legacy, c, others) && OwnsSource(c, src) && Unused(Last(start), src)
    modifies job`documents, job`progress
    ensures Path(outcome, Place(next, job.documents)) ==
            Closed(w, src.kbId, Stages(w, src.kbId, trail.works, Polled(Place(asked, old(job.documents)))))
    ensures GoesOn(legacy, Rest(c, src), start, run)
    ensures trail.asked == asked && Worked(sp, src, w, asked, run, trail) && Kept(legacy, run, sp, src, trail)
    ensures VersionLeft(Last(run), src, trail) && (Readable(others, src, Last(start)) ==> trail.works.read)
    ensures HidesOnFailure(Last(run), src, trail.works.read, outcome)
  {
    var turn, read, raised;
    turn, next, run, read, trail := Guarded(legacy, c, others, sp, job, w, src, asked, start);
    ghost var worked := run;
    match turn {
      case GoOn => outcome := Some(Status.Ok);
      case Stop => outcome := Some(Canceled);
      case Raised =>
        raised, next, run := Fail(legacy, c, others, sp, job, w, src, next, start, run, read, trail);
        outcome := if raised then None else Some(Status.Error);
    }
    assert WorksFit(sp, src, w, asked, run[|worked| - 1], trail);
  }

  /** When a document ends how: ok exactly when it was upserted and saving that does not raise, canceled when
      a poll said so before anything raised, and without a result when something raises that nothing guards. */
  ghost predicate Ends(w: World, id: string, works: Works, p: Place, outcome: Option<Status>) {
    && (outcome == Some(Status.Ok) <==> works.upserted && !w.saves(p.at.saves + 4).raised)
    && (outcome == Some(Canceled) <==>
          exists n: nat :: n < STAGES && Passed(w, works, p.at, n) && CanceledAt(w, p.at, n))
    && (outcome == None <==> Escapes(w, id, works, p))
  }

  lemma DocumentEnds(sp: Splitter, src: Source, w: World, p: Place, run: seq<State>, trail: Trail)
    requires IsSplitter(sp) && Worked(sp, src, w, p.at, run, trail)
    ensures Ends(w, src.kbId, trail.works, p, Walk(w, src.kbId, trail.works, p).outcome)
  {
    WalkOutcome(w, src.kbId, trail.works, p);
    UpsertedPassed(sp, src, w, p.at, run, trail);
  }

  /** The work on one document of the job was as it should, and its upsert left what it was to leave. */
  ghost predicate DocumentFits(legacy: set<Vector>, run: seq<State>, sp: Splitter, w: World, src: Source, trail: Trail)
    requires IsSplitter(sp) && |run| > 0
  {
    Worked(sp, src, w, trail.asked, run, trail) && Kept(legacy, run, sp, src, trail)
  }

  /** One document: its path, when it ends how, and what it leaves in the index. */
  method ProcessDocument(ghost legacy: set<Vector>, ghost c: Client, others: Others, sp: Splitter, job: Job, w: World,
          src: Source, at: Counters, start: seq<State>)
    returns (outcome: Option<Status>, next: Counters, run: seq<State>, ghost trail: Trail)
    requires IsSplitter(sp)
    requires IsRun(legacy, start) && Polite(legacy, c, others) && OwnsSource(c, src) && Unused(Last(start), src)
    modifies job`documents, job`progress
    ensures Path(outcome, Place(next, job.documents)) ==
            Walk(w, src.kbId, trail.works, Place(at, old(job.documents)))
    ensures GoesOn(legacy, Rest(c, src), start, run)
    ensures trail.asked == at && DocumentFits(legacy, run, sp, w, src, trail) && VersionLeft(Last(run), src, trail)
    ensures Ends(w, src.kbId, trail.works, Place(at, old(job.documents)), outcome)
    ensures w.polls(at.polls) == Keep && Readable(others, src, Last(start)) ==> trail.works.read
    ensures HidesOnFailure(Last(run), src, trail.works.read, outcome)
  {
    var turn, raised;
    turn, next := Ask(w, at);
    run, trail := start, Nothing(at);
    if turn == GoOn {
      outcome, next, run, trail := Attempt(legacy, c, others, sp, job, w, src, at, start);
    } else if turn == Stop {
      raised, next := Notify(job, w, Document(src.kbId, Canceled), next);
      outcome := if raised then None else Some(Canceled);
    } else {
      outcome := None;
    }
    DocumentEnds(sp, src, w, Place(at, old(job.documents)), run, trail);
  }

  // ----- all documents

  function IdsOf(sources: seq<Source>): (ids: seq<string>)
    ensures |ids| == |sources| && forall k :: 0 <= k < |ids| ==> ids[k] == sources[k].kbId
  {
    seq(|sources|, k requires 0 <= k < |sources| => sources[k].kbId)
  }

  ghost function WorksOf(trails: seq<Trail>): (works: seq<Works>)
    ensures |works| == |trails| && forall k :: 0 <= k < |works| ==> works[k] == trails[k].works
  {
    seq(|trails|, k requires 0 <= k < |trails| => trails[k].works)
  }

  predicate Apart(a: Source, b: Source) {
    a.version != b.version && {a.attempt, a.upsert} !! {b.attempt, b.upsert}
  }

  /** Everything drawn for these documents is the client's own, and nothing is drawn twice. */
  ghost predicate Drawn(c: Client, sources: seq<Source>) {
    && (forall k :: 0 <= k < |sources| ==> OwnsSource(c, sources[k]))
    && (forall j, k :: 0 <= j < k < |sources| ==> Apart(sources[j], sources[k]))
  }

  lemma StillUnused(legacy: set<Vector>, c: Client, a: Source, b: Source, start: seq<State>, run: seq<State>)
    requires GoesOn(legacy, Rest(c, a), start, run) && OwnsSource(c, b) && Apart(a, b) && Unused(Last(start), b)
    ensures Unused(Last(run), b)
  {
    assert b.attempt !in {a.attempt, a.upsert} && b.upsert !in {a.attempt, a.upsert};
    assert Stays(b.attempt, Last(start), Last(run)) && Stays(b.upsert, Last(start), Last(run));
  }

  lemma StillLeft(legacy: set<Vector>, c: Client, a: Source, b: Source, start: seq<State>, run: seq<State>,
          trail: Trail)
    requires GoesOn(legacy, Rest(c, a), start, run) && OwnsSource(c, b) && Apart(a, b)
    requires VersionLeft(Last(start), b, trail)
    ensures VersionLeft(Last(run), b, trail)
  {
  }

  /** Nothing is used of what was drawn for the documents to come, and no version of an upsert that had
      nothing to do. */
  ghost predicate Ready(s: State, sources: seq<Source>, trails: seq<Trail>)
    requires |trails| <= |sources|
  {
    && (forall j :: |trails| <= j < |sources| ==> Unused(s, sources[j]))
    && (forall j :: 0 <= j < |trails| ==> VersionLeft(s, sources[j], trails[j]))
  }

  /** The work on a document leaves alone what was drawn for the others. */
  lemma StaysReady(legacy: set<Vector>, c: Client, sources: seq<Source>, start: seq<State>, run: seq<State>,
          trails: seq<Trail>, trail: Trail)
    requires |trails| < |sources| && Drawn(c, sources) && GoesOn(legacy, Rest(c, sources[|trails|]), start, run)
    requires Ready(Last(start), sources, trails) && VersionLeft(Last(run), sources[|trails|], trail)
    ensures Ready(Last(run), sources, trails + [trail])
  {
    var k := |trails|;
    forall j | k < j < |sources| ensures Unused(Last(run), sources[j]) {
      StillUnused(legacy, c, sources[k], sources[j], start, run);
    }
    forall j | 0 <= j < k ensures VersionLeft(Last(run), sources[j], trails[j]) {
      StillLeft(legacy, c, sources[k], sources[j], start, run, trails[j]);
    }
  }

  lemma {:induction false} SameWalk(w: World, ids: seq<string>, works: seq<Works>, more: seq<Works>, p: Place, n: nat)
    requires n <= |ids| && n <= |works| && works <= more
    ensures WalkTo(w, ids, more, p, n) == WalkTo(w, ids, works, p, n)
  {
    if n > 0 {
      SameWalk(w, ids, works, more, p, n - 1);
    }
  }

  lemma DocumentFitsOn(legacy: set<Vector>, run: seq<State>, next: seq<State>, sp: Splitter, w: World, src: Source,
          trail: Trail)
    requires IsSplitter(sp) && |run| > 0 && DocumentFits(legacy, run, sp, w, src, trail)
    requires run <= next && IsRun(legacy, next)
    ensures DocumentFits(legacy, next, sp, w, src, trail)
  {
    KeptOn(legacy, run, next, sp, src, trail);
    if w.polls(trail.asked.polls) == Keep {
      var i: nat :| i < |run| && WorksFit(sp, src, w, trail.asked, run[i], trail);
      assert WorksFit(sp, src, w, trail.asked, next[i], trail);
    }
  }

  /** All documents that were begun. */
  ghost predicate AllFit(legacy: set<Vector>, run: seq<State>, sp: Splitter, w: World, sources: seq<Source>,
          trails: seq<Trail>)
    requires IsSplitter(sp) && |run| > 0 && |trails| <= |sources|
  {
    trails == [] ||
    var n := |trails| - 1;
    AllFit(legacy, run, sp, w, sources, trails[..n]) && DocumentFits(legacy, run, sp, w, sources[n], trails[n])
  }

  lemma {:induction false} AllFitOn(legacy: set<Vector>, run: seq<State>, next: seq<State>, sp: Splitter, w: World,
          sources: seq<Source>, trails: seq<Trail>)
    requires IsSplitter(sp) && |run| > 0 && |trails| <= |sources| && AllFit(legacy, run, sp, w, sources, trails)
    requires run <= next && IsRun(legacy, next)
    ensures AllFit(legacy, next, sp, w, sources, trails)
  {
    if trails != [] {
      var n := |trails| - 1;
      AllFitOn(legacy, run, next, sp, w, sources, trails[..n]);
      DocumentFitsOn(legacy, run, next, sp, w, sources[n], trails[n]);
    }
  }

  lemma OneMoreFits(legacy: set<Vector>, run: seq<State>, next: seq<State>, sp: Splitter, w: World,
          sources: seq<Source>, trails: seq<Trail>, trail: Trail)
    requires IsSplitter(sp) && |run| > 0 && |trails| < |sources| && AllFit(legacy, run, sp, w, sources, trails)
    requires run <= next && IsRun(legacy, next)
    requires DocumentFits(legacy, next, sp, w, sources[|trails|], trail)
    ensures AllFit(legacy, next, sp, w, sources, trails + [trail])
  {
    AllFitOn(legacy, run, next, sp, w, sources, trails);
    assert (trails + [trail])[..|trails|] == trails;
  }

  lemma {:induction false} EachFits(legacy: set<Vector>, run: seq<State>, sp: Splitter, w: World, sources: seq<Source>,
          trails: seq<Trail>, k: nat)
    requires IsSplitter(sp) && |run| > 0 && |trails| <= |sources| && k < |trails|
    requires AllFit(legacy, run, sp, w, sources, trails)
    ensures DocumentFits(legacy, run, sp, w, sources[k], trails[k])
  {
    var n := |trails| - 1;
    if k < n {
      EachFits(legacy, run, sp, w, sources, trails[..n], k);
      assert trails[..n][k] == trails[k];
    } else {
      assert k == n && DocumentFits(legacy, run, sp, w, sources[n], trails[n]);
    }
  }

  /** The documents begun take the job to `so`, each from where the one before it ended. */
  ghost predicate Traced(w: World, ids: seq<string>, trails: seq<Trail>, p: Place, so: Progressed) {
    && |trails| <= |ids|
    && WalkTo(w, ids, WorksOf(trails), p, |trails|) == so
    && Continuous(w, ids, trails, p, |trails|)
  }

  ghost predicate Continuous(w: World, ids: seq<string>, trails: seq<Trail>, p: Place, n: nat)
    requires n <= |trails| <= |ids|
  {
    forall k: nat :: k < n ==> BeginsWell(w, ids, trails, p, k)
  }

  ghost predicate BeginsWell(w: World, ids: seq<string>, trails: seq<Trail>, p: Place, k: nat)
    requires k < |trails| <= |ids|
  {
    trails[k].asked == WalkTo(w, ids, WorksOf(trails), p, k).p.at
  }

  lemma StillBeginsWell(w: World, ids: seq<string>, trails: seq<Trail>, trail: Trail, p: Place, k: nat)
    requires k < |trails| < |ids| && BeginsWell(w, ids, trails, p, k)
    ensures BeginsWell(w, ids, trails + [trail], p, k)
  {
    SameWalk(w, ids, WorksOf(trails), WorksOf(trails + [trail]), p, k);
  }

  lemma WalkFurther(w: World, ids: seq<string>, trails: seq<Trail>, p: Place, so: Progressed, trail: Trail)
    requires |trails| < |ids| && WalkTo(w, ids, WorksOf(trails), p, |trails|) == so && so.results.Some?
    ensures WalkTo(w, ids, WorksOf(trails + [trail]), p, |trails|) == so
    ensures WalkTo(w, ids, WorksOf(trails + [trail]), p, |trails| + 1) == WalkOne(w, ids[|trails|], trail.works, so)
  {
    SameWalk(w, ids, WorksOf(trails), WorksOf(trails + [trail]), p, |trails|);
  }

  lemma OneMoreTraced(w: World, ids: seq<string>, trails: seq<Trail>, p: Place, so: Progressed, trail: Trail)
    requires Traced(w, ids, trails, p, so) && so.results.Some? && |trails| < |ids| && trail.asked == so.p.at
    ensures Traced(w, ids, trails + [trail], p, WalkOne(w, ids[|trails|], trail.works, so))
  {
    WalkFurther(w, ids, trails, p, so, trail);
    forall k: nat | k < |trails| ensures BeginsWell(w, ids, trails + [trail], p, k) {
      StillBeginsWell(w, ids, trails, trail, p, k);
    }
    assert BeginsWell(w, ids, trails + [trail], p, |trails|);
  }

  /** What holds when so many documents are done. */
  ghost predicate Done(legacy: set<Vector>, run: seq<State>, sp: Splitter, w: World, sources: seq<Source>,
          trails: seq<Trail>, p: Place, so: Progressed)
    requires IsSplitter(sp) && |run| > 0 && |trails| <= |sources|
  {
    && AllFit(legacy, run, sp, w, sources, trails) && Ready(Last(run), sources, trails)
    && Traced(w, IdsOf(sources), trails, p, so)
  }

  lemma OneMoreDocument(legacy: set<Vector>, c: Client, sp: Splitter, w: World, sources: seq<Source>, p: Place,
          so: Progressed, start: seq<State>, run: seq<State>, trails: seq<Trail>, trail: Trail)
    requires IsSplitter(sp) && |start| > 0 && |trails| < |sources| && Drawn(c, sources)
    requires Done(legacy, start, sp, w, sources, trails, p, so) && so.results.Some?
    requires GoesOn(legacy, Rest(c, sources[|trails|]), start, run)
    requires DocumentFits(legacy, run, sp, w, sources[|trails|], trail) && trail.asked == so.p.at
    requires VersionLeft(Last(run), sources[|trails|], trail)
    ensures Done(legacy, run, sp, w, sources, trails + [trail], p,
                 WalkOne(w, IdsOf(sources)[|trails|], trail.works, so))
  {
    OneMoreFits(legacy, start, run, sp, w, sources, trails, trail);
    OneMoreTraced(w, IdsOf(sources), trails, p, so, trail);
    StaysReady(legacy, c, sources, start, run, trails, trail);
  }

  /** `process_documents`. */
  method ProcessDocuments(ghost legacy: set<Vector>, ghost c: Client, others: Others, sp: Splitter, job: Job, w: World,
          sources: seq<Source>, at: Counters, start: seq<State>)
    returns (results: Option<seq<Document>>, next: Counters, run: seq<State>, ghost trails: seq<Trail>)
    requires IsSplitter(sp) && IsRun(legacy, start) && Polite(legacy, c, others) && Drawn(c, sources)
    requires Ready(Last(start), sources, [])
    modifies job`documents, job`progress
    ensures IsRun(legacy, run) && start <= run
    ensures |trails| <= |sources| && (results.Some? ==> |trails| == |sources|)
    ensures AllFit(legacy, run, sp, w, sources, trails)
    ensures Ready(Last(run), sources, trails)
    ensures Traced(w, IdsOf(sources), trails, Place(at, old(job.documents)),
                   Progressed(results, Place(next, job.documents)))
  {
    var done: seq<Document> := [];
    next, run, trails := at, start, [];
    for k := 0 to |sources|
      invariant |trails| == k && IsRun(legacy, run) && start <= run
      invariant Done(legacy, run, sp, w, sources, trails, Place(at, old(job.documents)),
                     Progressed(Some(done), Place(next, job.documents)))
    {
      ghost var before, so := run, Progressed(Some(done), Place(next, job.documents));
      var outcome;
      ghost var trail;
      outcome, next, run, trail := ProcessDocument(legacy, c, others, sp, job, w, sources[k], next, run);
      OneMoreDocument(legacy, c, sp, w, sources, Place(at, old(job.documents)), so, before, run, trails, trail);
      trails := trails + [trail];
      if outcome.None? {
        return None, next, run, trails;
      }
      done := done + [Document(sources[k].kbId, outcome.value)];
    }
    results := Some(done);
  }

  // ----- the job

  /** `run_kb_job`: a job that is over stays as it is, one that is to be canceled before it starts is, and
      the others end as `EndOf` says of what the processing of their documents came to. */
  method RunKbJob(ghost legacy: set<Vector>, ghost c: Client, others: Others, sp: Splitter, job: Job, w: World,
          sources: seq<Source>, start: seq<State>, loaded: bool, requestedBefore: bool, requestedAfter: bool)
    returns (run: seq<State>, ghost trails: seq<Trail>)
    requires IsSplitter(sp) && IsRun(legacy, start) && Polite(legacy, c, others) && Drawn(c, sources)
    requires Ready(Last(start), sources, [])
    modifies job
    ensures IsRun(legacy, run) && start <= run && |trails| <= |sources|
    ensures AllFit(legacy, run, sp, w, sources, trails)
    ensures Ready(Last(run), sources, trails)
    ensures old(job.status).Some? ==>
              job.documents == old(job.documents) && job.status == old(job.status) && job.progress == old(job.progress)
    ensures old(job.status).None? ==> job.status.Some? && job.progress == ProgressOf(job.documents)
    ensures old(job.status).None? && requestedBefore ==>
              End(job.documents, job.status.value) == End(MarkAs(old(job.documents), Canceled), JobCanceled)
    ensures old(job.status).None? && !requestedBefore ==>
              var so := Processing(w, IdsOf(sources), WorksOf(trails), old(job.documents), loaded);
              && (so.results.Some? ==> |trails| == |sources|)
              && Traced(w, IdsOf(sources), trails, Place(Counters(0, 0), old(job.documents)),
                        if loaded then so else Progressed(Some([]), so.p))
              && End(job.documents, job.status.value) == EndOf(so, requestedAfter)
  {
    run, trails := start, [];
    if job.status.Some? {
      return;
    }
    if requestedBefore {
      job.MarkRemaining(Canceled);
      job.Finalize(true);
      return;
    }
    var results: Option<seq<Document>> := None;
    if loaded {
      var end;
      results, end, run, trails := ProcessDocuments(legacy, c, others, sp, job, w, sources, Counters(0, 0), start);
    }
    match results
    case None =>
      job.status := Some(JobStatus.Failed);
      job.MarkRemaining(Status.Error);
    case Some(all) =>
      job.Finish(all, requestedAfter);
  }

  // ----- what an ok document is worth

  /** A source published with two lists of texts at once is published with as many. */
  lemma SameTexts(s: State, kb: string, v: Uuid, a: seq<string>, b: seq<string>)
    requires PublishedAs(s, kb, v, a) && PublishedAs(s, kb, v, b)
    ensures |a| == |b|
  {
    NoMoreTexts(s, kb, v, a, b);
    NoMoreTexts(s, kb, v, b, a);
  }

  lemma NoMoreTexts(s: State, kb: string, v: Uuid, a: seq<string>, b: seq<string>)
    requires PublishedAs(s, kb, v, a) && PublishedAs(s, kb, v, b)
    ensures |b| <= |a|
  {
    assert VectorsOf(kb, v, a) == VectorsOf(kb, v, b);
    if b != [] {
      var k := |b| - 1;
      assert Vector(kb, Staged(v), k, b[k]) in VectorsOf(kb, v, b);
      assert Vector(kb, Staged(v), k, b[k]) in VectorsOf(kb, v, a);
    }
  }

  /** All chunks were published, at some time, if and only if there was a vector for each; without any
      vector nothing was. */
  lemma AllChunksIff(legacy: set<Vector>, run: seq<State>, src: Source, chunks: seq<string>)
    requires IsRun(legacy, run) && chunks != []
    requires src.vectors > 0 ==> Stored(legacy, run, src, src.Paired(chunks))
    requires src.vectors == 0 ==> FreshUuid(Last(run), src.version)
    ensures PublishedWith(run, src, chunks) <==> src.vectors >= |chunks|
    ensures src.vectors == 0 ==> forall i :: 0 <= i < |run| ==> run[i].Current(src.kbId) != Live(src.version)
  {
    forall i: nat | i < |run| && run[i].Current(src.kbId) == Live(src.version)
      ensures src.vectors > 0 && PublishedAs(run[i], src.kbId, src.version, src.Paired(chunks))
    {
      LiveIsPublished(legacy, run, i, src.kbId, src.version);
      BatchesLast(legacy, run, i, |run| - 1, src.version);
    }
    if PublishedWith(run, src, chunks) {
      var i: nat :| i < |run| && PublishedAs(run[i], src.kbId, src.version, chunks);
      SameTexts(run[i], src.kbId, src.version, chunks, src.Paired(chunks));
    }
  }

  /** What the index has of a document: its chunks, in their order, as far as there are vectors for them. All
      of them were published if and only if there was a vector for each. */
  ghost predicate Indexed(legacy: set<Vector>, run: seq<State>, sp: Splitter, src: Source, trail: Trail)
    requires |run| > 0
  {
    && src.text.Some? && Chunked(sp, src.text.value, trail.ws, trail.texts)
    && (src.vectors > 0 ==> PublishedWith(run, src, src.Paired(trail.texts)) && NeverHides(legacy, run, src))
    && (src.vectors == 0 ==> forall i :: 0 <= i < |run| ==> run[i].Current(src.kbId) != Live(src.version))
    && (PublishedWith(run, src, trail.texts) <==> src.vectors >= |trail.texts|)
  }

  lemma KeptIsIndexed(legacy: set<Vector>, run: seq<State>, sp: Splitter, src: Source, trail: Trail)
    requires IsRun(legacy, run) && Kept(legacy, run, sp, src, trail) && trail.works.upserted
    requires VersionLeft(Last(run), src, trail)
    ensures Indexed(legacy, run, sp, src, trail)
  {
    AllChunksIff(legacy, run, src, trail.texts);
  }

  /** An upsert that is found to have published ended so or does not know. */
  lemma MayHavePublished(legacy: set<Vector>, run: seq<State>, i: nat, j: nat, src: Source, texts: seq<string>,
          report: Option<KbIndexClient.Outcome>)
    requires IsRun(legacy, run) && i <= j < |run| && ReportFits(src, run[i], texts, report)
    requires src.upsert in run[i].ops && HasWritten(run[j].ops, src.upsert, src.kbId)
    ensures report in {Some(Published), Some(Unknown)}
  {
    if Doomed(run[i], src.upsert) {
      DoomLasts(legacy, run, i, j, src.upsert);
    }
  }

  /** How a document is reported whose upsert has published, now or later: as ok if the upsert knew and saving
      this does not raise, and otherwise as an error, unless reporting that raises as well. */
  lemma PublishedIsReported(legacy: set<Vector>, run: seq<State>, i: nat, j: nat, sp: Splitter, src: Source, w: World,
          p: Place, trail: Trail)
    requires IsSplitter(sp) && IsRun(legacy, run) && i <= j < |run| && WorksFit(sp, src, w, p.at, run[i], trail)
    requires src.upsert in run[i].ops && HasWritten(run[j].ops, src.upsert, src.kbId)
    ensures trail.report in {Some(Published), Some(Unknown)}
    ensures Walk(w, src.kbId, trail.works, p).outcome ==
            if trail.report == Some(Unknown) then
              if !w.saves(p.at.saves + 4).raised then Some(Status.Error) else None
            else if !w.saves(p.at.saves + 4).raised then Some(Status.Ok)
            else if !w.saves(p.at.saves + 5).raised then Some(Status.Error)
            else None
  {
    MayHavePublished(legacy, run, i, j, src, trail.texts, trail.report);
    assert Reached(w, trail.works, p.at, 3);
    if trail.report == Some(Unknown) {
      FailedUpsertIsReported(w, src.kbId, trail.works, p);
    } else {
      PassedOne(w, trail.works, p.at, 3);
      UpsertedIsReported(w, src.kbId, trail.works, p);
    }
  }

  /** However a new job ends, what it says is ok is in the index as far as its chunks were given vectors: the
      source was published with exactly these chunks, and they are not hidden on the document's account. */
  lemma OkIsPublished(legacy: set<Vector>, run: seq<State>, sp: Splitter, w: World, sources: seq<Source>,
          trails: seq<Trail>, loaded: bool, requested: bool)
    requires IsSplitter(sp) && Lasting(w.polls) && sources != [] && Distinct(IdsOf(sources)) && |trails| <= |sources|
    requires Processing(w, IdsOf(sources), WorksOf(trails), NewRecord(IdsOf(sources)), loaded).results.Some? ==>
               |trails| == |sources|
    requires IsRun(legacy, run) && AllFit(legacy, run, sp, w, sources, trails) && Ready(Last(run), sources, trails)
    ensures var ids := IdsOf(sources);
            var end := EndOf(Processing(w, ids, WorksOf(trails), NewRecord(ids), loaded), requested);
            && |end.documents| == |sources|
            && forall k :: 0 <= k < |sources| && end.documents[k].status == Status.Ok ==>
              k < |trails| && Indexed(legacy, run, sp, sources[k], trails[k])
  {
    var ids, works := IdsOf(sources), WorksOf(trails);
    OkMeansUpserted(w, ids, works, NewRecord(ids), loaded, requested);
    forall k | 0 <= k < |trails| && works[k].upserted
      ensures Indexed(legacy, run, sp, sources[k], trails[k])
    {
      EachFits(legacy, run, sp, w, sources, trails, k);
      KeptIsIndexed(legacy, run, sp, sources[k], trails[k]);
    }
  }

  // ----- an embedding service that returns nothing

  /** A document that no vectors were returned for, once it gets that far, is reported like an indexed one. */
  lemma NoVectorsIsOk(sp: Splitter, src: Source, w: World, p: Place, s: State, trail: Trail)
    requires IsSplitter(sp) && WorksFit(sp, src, w, p.at, s, trail) && Reached(w, trail.works, p.at, 3)
    requires src.vectors == 0
    ensures trail.report == Some(NothingToDo) && FreshUuid(s, src.version)
    ensures Walk(w, src.kbId, trail.works, p).outcome ==
            if !w.saves(p.at.saves + 4).raised then Some(Status.Ok)
            else if !w.saves(p.at.saves + 5).raised then Some(Status.Error)
            else None
  {
    PassedOne(w, trail.works, p.at, 3);
    UpsertedIsReported(w, src.kbId, trail.works, p);
  }

  // A splitter that reads a token from every character and knows no boundaries but the end.
  function OnePerChar(s: string): seq<Chunking.Span> {
    seq(|s|, k requires 0 <= k < |s| => Chunking.Span(k, k + 1))
  }

  const LETTERS := Splitter(256, 0, 256, Chunking.Tokenizer(s => OnePerChar(s), s => |s|, 0), c => c == ' ',
                            text => [|text|], 10)

  lemma LettersIsSplitter()
    ensures IsSplitter(LETTERS)
  {
    forall s: string ensures Chunking.IsEncoding(LETTERS.tok.encode(s), |s|) {
      assert LETTERS.tok.encode(s) == OnePerChar(s);
    }
    forall text: string ensures Chunking.IsBoundaries(LETTERS.boundaries(text), |text|) {
      assert LETTERS.boundaries(text) == [|text|];
    }
  }

  lemma ManyWindows(ws: seq<Chunking.Window>, n: nat)
    requires Chunking.Chain(ws, n)
    ensures |ws| > 1 ==> n > 1
  {
    if |ws| > 1 {
      assert ws[0].end < ws[1].end;
    }
  }

  lemma NeverCrowded(s: string, budget: nat)
    requires budget > 0
    ensures !Chunking.Crowded(LETTERS.tok.encode(s), budget)
  {
    assert LETTERS.tok.encode(s) == OnePerChar(s);
  }

  lemma NothingTooLarge(job: Chunking.Job)
    requires job.tok == LETTERS.tok && |job.text| <= job.maxInput && job.budget > 0
    ensures !Chunking.Oversized(job) && !Chunking.Overcrowded(job)
  {
    forall w | Chunking.InText(job, w)
      ensures job.tok.inputSize(Chunking.Strip(Chunking.Cut(job, w), job.blank)) <= job.maxInput
      ensures !Chunking.Crowded(job.tok.encode(Chunking.Cut(job, w)), job.budget)
    {
      NeverCrowded(Chunking.Cut(job, w), job.budget);
    }
    NeverCrowded(job.text, job.budget);
  }

  /** The text "a" has one chunk, itself. */
  lemma OneChunk(ws: seq<Chunking.Window>, texts: seq<string>)
    requires IsSplitter(LETTERS) && Chunking.IsCut(JobFor(LETTERS, "a"), ws, texts)
    ensures texts == ["a"]
  {
    var job := JobFor(LETTERS, "a");
    ManyWindows(ws, 1);
    assert Chunking.Cut(job, ws[0]) == "a";
    assert Chunking.Strip("a", job.blank) == "a";
    assert Chunking.ChunksOf(job, []) == [];
    assert ws[..0] == [];
  }

  lemma LettersCutsIt(ws: seq<Chunking.Window>, texts: seq<string>)
    requires IsSplitter(LETTERS)
    ensures !Uncuttable(LETTERS, "a", ws, texts)
  {
    assert GoodLimits(LETTERS) && LETTERS.tok.encode("a") == OnePerChar("a");
    assert Chunking.Strip("a", LETTERS.blank) == "a";
    NothingTooLarge(JobFor(LETTERS, "a"));
    if Chunking.IsCut(JobFor(LETTERS, "a"), ws, texts) {
      OneChunk(ws, texts);
    }
  }

  /** All goes well with this document, except that the embedding service returns no vectors. */
  const EMPTY_ANSWER := Source("kb", true, Some("a"), true, 0, Luck(n => true, n => false, true, true, true), true,
                               0, 1, "00000000000000000000000000000000")

  const SMOOTH := World(n => Keep, n => Save(false, true))

  const EMPTY := State(map[], map[], {}, map[], map[], map[])

  const NOBODY: Others := run => []

  lemma MayBegin(c: Client)
    requires c == Client({0, 1}, {EMPTY_ANSWER.version})
    ensures IsRun({}, [EMPTY]) && Polite({}, c, NOBODY)
    ensures OwnsSource(c, EMPTY_ANSWER) && Unused(EMPTY, EMPTY_ANSWER) && Readable(NOBODY, EMPTY_ANSWER, EMPTY)
  {
    forall run | IsRun({}, run) ensures GoesOn({}, c, run, run + NOBODY(run)) {
      assert run + NOBODY(run) == run;
    }
  }

  /** Then its one chunk is nowhere, nor will ever be, and the document is ok. */
  method EmptyAnswerIsOk() returns (outcome: Option<Status>, run: seq<State>, ghost trail: Trail)
    ensures outcome == Some(Status.Ok) && trail.texts == ["a"]
    ensures IsRun({}, run)
    ensures forall i :: 0 <= i < |run| ==> run[i].Current("kb") != Live(EMPTY_ANSWER.version)
  {
    ghost var c := Client({0, 1}, {EMPTY_ANSWER.version});
    MayBegin(c);
    LettersIsSplitter();
    var job := new Job(["kb"]);
    var next;
    outcome, next, run, trail :=
      ProcessDocument({}, c, NOBODY, LETTERS, job, SMOOTH, EMPTY_ANSWER, Counters(0, 0), [EMPTY]);
    ReachesTheEnd(run, trail);
    NeverIndexed(run, trail);
  }

  lemma ReachesTheEnd(run: seq<State>, trail: Trail)
    requires IsSplitter(LETTERS) && Worked(LETTERS, EMPTY_ANSWER, SMOOTH, Counters(0, 0), run, trail)
    requires trail.works.read
    ensures trail.works.upserted
  {
    var i: nat :| i < |run| && WorksFit(LETTERS, EMPTY_ANSWER, SMOOTH, Counters(0, 0), run[i], trail);
    NothingStops(run[i], trail);
  }

  lemma Reaches(works: Works, n: nat)
    requires forall i: nat :: i < n ==> Returned(works, i)
    ensures Reached(SMOOTH, works, Counters(0, 0), n)
  {
  }

  lemma HasText()
    ensures Chunking.Strip("a", LETTERS.blank) == "a"
  {
    assert !LETTERS.blank('a');
  }

  lemma CutWorks(trail: Trail)
    requires IsSplitter(LETTERS) && CutFits(LETTERS, EMPTY_ANSWER, trail, true)
    ensures trail.works.chunked
  {
    LettersCutsIt(trail.ws, trail.texts);
  }

  lemma AllWorks(s: State, trail: Trail)
    requires IsSplitter(LETTERS) && FrontFits(LETTERS, EMPTY_ANSWER, SMOOTH, Counters(0, 0), s, trail)
    requires trail.works.read
    ensures trail.works.extracted && trail.works.chunked && trail.works.embedded
  {
    HasText();
    Reaches(trail.works, 1);
    CutWorks(trail);
  }

  lemma ReturnsAtOnce(s: State, trail: Trail)
    requires CalledWhenReached(SMOOTH, Counters(0, 0), trail) && Reached(SMOOTH, trail.works, Counters(0, 0), 3)
    requires ReportFits(EMPTY_ANSWER, s, trail.texts, trail.report)
    ensures trail.works.upserted
  {
    assert EMPTY_ANSWER.Paired(trail.texts) == [];
  }

  lemma NothingStops(s: State, trail: Trail)
    requires IsSplitter(LETTERS) && WorksFit(LETTERS, EMPTY_ANSWER, SMOOTH, Counters(0, 0), s, trail)
    requires trail.works.read
    ensures trail.works.upserted
  {
    AllWorks(s, trail);
    Reaches(trail.works, 3);
    ReturnsAtOnce(s, trail);
  }

  lemma NeverIndexed(run: seq<State>, trail: Trail)
    requires IsSplitter(LETTERS) && IsRun({}, run) && Kept({}, run, LETTERS, EMPTY_ANSWER, trail)
    requires trail.works.upserted && VersionLeft(Last(run), EMPTY_ANSWER, trail)
    ensures trail.texts == ["a"]
    ensures forall i :: 0 <= i < |run| ==> run[i].Current("kb") != Live(EMPTY_ANSWER.version)
  {
    KeptIsIndexed({}, run, LETTERS, EMPTY_ANSWER, trail);
    OneChunk(trail.ws, trail.texts);
  }
}
