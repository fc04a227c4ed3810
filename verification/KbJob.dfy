/** A knowledge job: the path of a document through its four stages, with a poll for cancellation before
    each, the progress saved on the way, and what the job says at the end. */
module KbJob {
  import opened Basics

  datatype Status = Queued | Running | Ok | Error | Canceled

  predicate Processed(s: Status) {
    s in {Ok, Error, Canceled}
  }

  /** A document of the job record, or a result for one. */
  datatype Document = Document(kbId: string, status: Status)

  datatype Poll = Keep | Cancel | PollFails

  /** What becomes of a save of progress: whether it raises, and whether the record shows it afterwards. A
      save that raises may have gone through, and a request to cancel that read the record before it may
      write the old record back after it. */
  datatype Save = Save(raised: bool, kept: bool)

  /** The answers to the polls and the fates of the saves, in order. */
  datatype World = World(polls: nat -> Poll, saves: nat -> Save)

  /** A request to cancel is never taken back. */
  ghost predicate Lasting(polls: nat -> Poll) {
    forall i, j :: i < j && polls(i) == Cancel ==> polls(j) != Keep
  }

  /** Which parts of the work on a document return; the others raise, or are not reached. */
  datatype Works = Works(read: bool, extracted: bool, chunked: bool, embedded: bool, upserted: bool)

  datatype Counters = Counters(polls: nat, saves: nat)

  /** How far a job has come: the polls and saves so far, and the documents in its record. */
  datatype Place = Place(at: Counters, documents: seq<Document>)

  // ----- the record

  /** Where the first document of that id is, or the end. */
  function IndexOf(docs: seq<Document>, id: string): (k: nat)
    ensures k <= |docs| && (k < |docs| ==> docs[k].kbId == id)
    ensures forall j :: 0 <= j < k ==> docs[j].kbId != id
  {
    if docs == [] || docs[0].kbId == id then 0 else 1 + IndexOf(docs[1..], id)
  }

  lemma IndexIs(docs: seq<Document>, id: string, k: nat)
    requires k < |docs| && docs[k].kbId == id && forall j :: 0 <= j < k ==> docs[j].kbId != id
    ensures IndexOf(docs, id) == k
  {
  }

  /** `_apply_document_result_locked`: the first document of that id takes the result, or it is appended. */
  function Put(docs: seq<Document>, d: Document): seq<Document> {
    if d.kbId == "" then docs
    else
      var k := IndexOf(docs, d.kbId);
      if k < |docs| then docs[k := d] else docs + [d]
  }

  function PutAll(docs: seq<Document>, results: seq<Document>): seq<Document> {
    if results == [] then docs else Put(PutAll(docs, results[..|results| - 1]), results[|results| - 1])
  }

  // ----- the path of a document

  datatype Turn = GoOn | Stop | Raised

  /** How far the work on a document has come. Nothing but its clean-up happens once it has been stopped or
      something has raised. */
  datatype Stand = Stand(turn: Turn, p: Place)

  function Polled(p: Place): Place {
    p.(at := p.at.(polls := p.at.polls + 1))
  }

  function Saved(w: World, d: Document, p: Place): Place {
    Place(p.at.(saves := p.at.saves + 1), if w.saves(p.at.saves).kept then Put(p.documents, d) else p.documents)
  }

  function TurnOf(poll: Poll): Turn {
    match poll
    case Keep => GoOn
    case Cancel => Stop
    case PollFails => Raised
  }

  /** A poll for cancellation. */
  function Asked(w: World, s: Stand): Stand {
    Stand(TurnOf(w.polls(s.p.at.polls)), Polled(s.p))
  }

  /** A cancellation that a poll has seen is reported. */
  function CancelTold(w: World, id: string, s: Stand): Stand {
    if s.turn == Stop then
      Stand(if w.saves(s.p.at.saves).raised then Raised else Stop, Saved(w, Document(id, Canceled), s.p))
    else s
  }

  /** Progress is saved. */
  function Notified(w: World, d: Document, s: Stand): Stand {
    if s.turn == GoOn then Stand(if w.saves(s.p.at.saves).raised then Raised else GoOn, Saved(w, d, s.p)) else s
  }

  function Worked(returned: bool, s: Stand): Stand {
    if s.turn == GoOn && !returned then s.(turn := Raised) else s
  }

  /** Progress, then the work of a stage. */
  function Stage(w: World, id: string, returned: bool, s: Stand): Stand {
    Worked(returned, Notified(w, Document(id, Running), s))
  }

  predicate Returned(works: Works, stage: nat) {
    match stage
    case 0 => works.read && works.extracted
    case 1 => works.chunked
    case 2 => works.embedded
    case 3 => works.upserted
    case _ => false
  }

  /** The first stage begins with a read of the manifest, the others with a poll. */
  function FirstStage(w: World, id: string, read: bool, extracted: bool, s: Stand): Stand {
    Stage(w, id, extracted, Worked(read, s))
  }

  function LaterStage(w: World, id: string, returned: bool, s: Stand): Stand {
    Stage(w, id, returned, CancelTold(w, id, Asked(w, s)))
  }

  function StageAt(w: World, id: string, works: Works, n: nat, s: Stand): Stand {
    if s.turn != GoOn then s
    else if n == 0 then FirstStage(w, id, works.read, works.extracted, s)
    else LaterStage(w, id, Returned(works, n), s)
  }

  /** The first `n` stages, begun after the first poll. */
  function Upto(w: World, id: string, works: Works, p: Place, n: nat): Stand {
    if n == 0 then Stand(GoOn, p) else StageAt(w, id, works, n - 1, Upto(w, id, works, p, n - 1))
  }

  const STAGES := 4

  /** What is guarded against exceptions: the four stages and the report of success. */
  function Stages(w: World, id: string, works: Works, p: Place): Stand {
    Notified(w, Document(id, Ok), Upto(w, id, works, p, STAGES))
  }

  /** The result of a document, unless an exception escapes, and where the job stands then. */
  datatype Path = Path(outcome: Option<Status>, p: Place)

  /** A result that nothing guards the report of. */
  function Told(w: World, id: string, s: Status, p: Place): Path {
    Path(if w.saves(p.at.saves).raised then None else Some(s), Saved(w, Document(id, s), p))
  }

  function Closed(w: World, id: string, s: Stand): Path {
    match s.turn
    case GoOn => Path(Some(Ok), s.p)
    case Stop => Path(Some(Canceled), s.p)
    case Raised => Told(w, id, Error, s.p)
  }

  /** The path of a document in `process_documents`. */
  function Walk(w: World, id: string, works: Works, p: Place): Path {
    match w.polls(p.at.polls)
    case PollFails => Path(None, Polled(p))
    case Cancel => Told(w, id, Canceled, Polled(p))
    case Keep => Closed(w, id, Stages(w, id, works, Polled(p)))
  }

  // ----- when a document ends how

  predicate KeepsOn(w: World, at: Counters, i: nat) {
    w.polls(at.polls + i) == Keep && !w.saves(at.saves + i).raised
  }

  /** Stage `i` goes through: its poll says to keep on, its save does not raise and its work returns. */
  predicate GoesThrough(w: World, works: Works, at: Counters, i: nat) {
    KeepsOn(w, at, i) && Returned(works, i)
  }

  ghost predicate Passed(w: World, works: Works, at: Counters, n: nat) {
    forall i: nat :: i < n ==> GoesThrough(w, works, at, i)
  }

  /** The cancellation is seen before stage `n`, and the report of it goes through. */
  predicate CanceledAt(w: World, at: Counters, n: nat) {
    w.polls(at.polls + n) == Cancel && !w.saves(at.saves + n).raised
  }

  lemma PassedOne(w: World, works: Works, at: Counters, n: nat)
    ensures Passed(w, works, at, n + 1) <==>
            Passed(w, works, at, n) && GoesThrough(w, works, at, n)
  {
  }

  /** What that means for the works: those of all these stages have returned. */
  lemma PassedMeans(w: World, works: Works, at: Counters, n: nat)
    requires n <= STAGES
    ensures Passed(w, works, at, n) <==>
            && (forall i: nat :: i < n ==> KeepsOn(w, at, i))
            && (n > 0 ==> works.read && works.extracted) && (n > 1 ==> works.chunked)
            && (n > 2 ==> works.embedded) && (n > 3 ==> works.upserted)
  {
    if n > 0 {
      PassedOne(w, works, at, n - 1);
      PassedMeans(w, works, at, n - 1);
    }
  }

  function Moved(at: Counters, n: nat): Counters {
    Counters(at.polls + n, at.saves + n)
  }

  /** Where the stages before stage `n` end. A cancellation that was seen and reported is between two
      stages. */
  ghost predicate After(w: World, works: Works, at: Counters, n: nat, s: Stand) {
    && (s.turn == GoOn <==> Passed(w, works, at, n))
    && (s.turn == GoOn ==> s.p.at == Moved(at, n))
    && (s.turn == Stop <==> exists i: nat :: 0 < i < n && Passed(w, works, at, i) && CanceledAt(w, at, i))
  }

  lemma StageOutcome(w: World, id: string, works: Works, at: Counters, n: nat, s: Stand)
    requires 0 < n < STAGES && After(w, works, at, n, s)
    ensures After(w, works, at, n + 1, StageAt(w, id, works, n, s))
  {
    PassedOne(w, works, at, n);
  }

  lemma {:induction false} UptoOutcome(w: World, id: string, works: Works, p: Place, n: nat)
    requires w.polls(p.at.polls) == Keep && 0 < n <= STAGES
    ensures After(w, works, p.at, n, Upto(w, id, works, Polled(p), n))
  {
    if n == 1 {
      PassedOne(w, works, p.at, 0);
    } else {
      UptoOutcome(w, id, works, p, n - 1);
      StageOutcome(w, id, works, p.at, n - 1, Upto(w, id, works, Polled(p), n - 1));
    }
  }

  /** All that is guarded, begun after the first poll. */
  lemma StagesOutcome(w: World, id: string, works: Works, p: Place)
    requires w.polls(p.at.polls) == Keep
    ensures var s := Stages(w, id, works, Polled(p));
            && (s.turn == GoOn <==> Passed(w, works, p.at, 4) && !w.saves(p.at.saves + 4).raised)
            && (s.turn == Stop <==>
                  exists n: nat :: 0 < n < 4 && Passed(w, works, p.at, n) && CanceledAt(w, p.at, n))
            && (Passed(w, works, p.at, 4) ==> s.turn != Stop && s.p.at == Counters(p.at.polls + 4, p.at.saves + 5))
  {
    UptoOutcome(w, id, works, p, STAGES);
  }

  /** Nothing guards the first poll, the report of a cancellation that it saw, and the report of an error. */
  predicate Escapes(w: World, id: string, works: Works, p: Place) {
    match w.polls(p.at.polls)
    case PollFails => true
    case Cancel => w.saves(p.at.saves).raised
    case Keep =>
      var s := Stages(w, id, works, Polled(p));
      s.turn == Raised && w.saves(s.p.at.saves).raised
  }

  /** When a document ends how: ok when all four polls said to keep on and nothing raised, canceled when a
      poll said so before anything raised and this could be reported, and otherwise with an error, or with
      an exception that escapes. */
  lemma WalkOutcome(w: World, id: string, works: Works, p: Place)
    ensures var outcome := Walk(w, id, works, p).outcome;
            && (outcome == Some(Ok) <==> Passed(w, works, p.at, 4) && !w.saves(p.at.saves + 4).raised)
            && (outcome == Some(Canceled) <==>
                  exists n: nat :: n < 4 && Passed(w, works, p.at, n) && CanceledAt(w, p.at, n))
            && (outcome == None <==> Escapes(w, id, works, p))
            && (outcome.Some? ==> Processed(outcome.value))
  {
    if w.polls(p.at.polls) == Keep {
      StagesOutcome(w, id, works, p);
      assert !CanceledAt(w, p.at, 0);
    } else {
      assert !GoesThrough(w, works, p.at, 0);
      assert Passed(w, works, p.at, 0);
    }
  }

  /** A document that was upserted is reported as ok exactly when saving that does not raise. When it does,
      the document is reported as an error, or the whole job fails. */
  lemma UpsertedIsReported(w: World, id: string, works: Works, p: Place)
    requires Passed(w, works, p.at, 4)
    ensures Walk(w, id, works, p).outcome ==
            if !w.saves(p.at.saves + 4).raised then Some(Ok)
            else if !w.saves(p.at.saves + 5).raised then Some(Error)
            else None
  {
    assert GoesThrough(w, works, p.at, 0);
    StagesOutcome(w, id, works, p);
  }

  /** A document whose upsert was reached and raised is reported as an error, or the whole job fails. */
  lemma FailedUpsertIsReported(w: World, id: string, works: Works, p: Place)
    requires Passed(w, works, p.at, 3) && !works.upserted
    requires w.polls(p.at.polls + 3) == Keep && !w.saves(p.at.saves + 3).raised
    ensures Walk(w, id, works, p).outcome == if !w.saves(p.at.saves + 4).raised then Some(Error) else None
  {
    assert GoesThrough(w, works, p.at, 0);
    UptoOutcome(w, id, works, p, 3);
    var s := StageAt(w, id, works, 3, Upto(w, id, works, Polled(p), 3));
    assert s.turn == Raised && s.p.at == Counters(p.at.polls + 4, p.at.saves + 4);
    assert Stages(w, id, works, Polled(p)) == s;
  }

  /** A world in which this happens: everything goes well but the fifth save, which is also lost. */
  lemma UpsertedYetError(id: string)
    ensures var w := World(i => Keep, i => Save(i == 4, i != 4));
            var works := Works(true, true, true, true, true);
            var start := Place(Counters(0, 0), [Document(id, Queued)]);
            && Passed(w, works, start.at, 4)
            && Walk(w, id, works, start).outcome == Some(Error)
  {
    var w := World(i => Keep, i => Save(i == 4, i != 4));
    var works := Works(true, true, true, true, true);
    var start := Place(Counters(0, 0), [Document(id, Queued)]);
    forall i: nat | i < 4 ensures GoesThrough(w, works, start.at, i) {
    }
    UpsertedIsReported(w, id, works, start);
  }

  // ----- all documents of a job

  /** The results so far, unless an exception has escaped, and where the job stands. */
  datatype Progressed = Progressed(results: Option<seq<Document>>, p: Place)

  function WalkOne(w: World, id: string, works: Works, so: Progressed): Progressed
    requires so.results.Some?
  {
    var path := Walk(w, id, works, so.p);
    Progressed(if path.outcome == None then None
               else Some(so.results.value + [Document(id, path.outcome.value)]), path.p)
  }

  /** The first `n` documents. */
  function WalkTo(w: World, ids: seq<string>, works: seq<Works>, p: Place, n: nat): Progressed
    requires n <= |ids| && n <= |works|
  {
    if n == 0 then Progressed(Some([]), p)
    else
      var before := WalkTo(w, ids, works, p, n - 1);
      if before.results == None then before else WalkOne(w, ids[n - 1], works[n - 1], before)
  }

  /** Document `k` is reached, and something raises for it that nothing guards. */
  predicate EscapesIn(w: World, ids: seq<string>, works: seq<Works>, p: Place, k: nat)
    requires k < |ids| && k < |works|
  {
    var before := WalkTo(w, ids, works, p, k);
    before.results != None && Escapes(w, ids[k], works[k], before.p)
  }

  predicate Down(w: World, ids: seq<string>, works: seq<Works>, p: Place, n: nat)
    requires n <= |ids| && n <= |works|
  {
    WalkTo(w, ids, works, p, n).results == None
  }

  lemma EscapesStep(w: World, ids: seq<string>, works: seq<Works>, p: Place, n: nat)
    requires n < |ids| && n < |works|
    ensures Down(w, ids, works, p, n + 1) <==> Down(w, ids, works, p, n) || EscapesIn(w, ids, works, p, n)
  {
    WalkOutcome(w, ids[n], works[n], WalkTo(w, ids, works, p, n).p);
  }

  ghost predicate SomeEscapes(w: World, ids: seq<string>, works: seq<Works>, p: Place, n: nat)
    requires n <= |ids| && n <= |works|
  {
    exists k: nat :: k < n && EscapesIn(w, ids, works, p, k)
  }

  lemma OneMoreEscape(w: World, ids: seq<string>, works: seq<Works>, p: Place, n: nat)
    requires n < |ids| && n < |works|
    ensures SomeEscapes(w, ids, works, p, n + 1) <==>
              SomeEscapes(w, ids, works, p, n) || EscapesIn(w, ids, works, p, n)
  {
  }

  /** An exception brings the job down exactly when for one of the documents something raises that nothing
      guards. */
  lemma {:induction false} EscapesWhen(w: World, ids: seq<string>, works: seq<Works>, p: Place, n: nat)
    requires n <= |ids| && n <= |works|
    ensures Down(w, ids, works, p, n) <==> SomeEscapes(w, ids, works, p, n)
  {
    if n > 0 {
      EscapesWhen(w, ids, works, p, n - 1);
      EscapesStep(w, ids, works, p, n - 1);
      OneMoreEscape(w, ids, works, p, n - 1);
    }
  }

  /** One result for each document, in order, and none after a canceled one is anything but canceled. */
  ghost predicate OnePerDocument(ids: seq<string>, results: seq<Document>) {
    && |results| == |ids|
    && (forall k :: 0 <= k < |results| ==> results[k].kbId == ids[k] && Processed(results[k].status))
    && (forall j, k :: 0 <= j < k < |results| && results[j].status == Canceled ==> results[k].status == Canceled)
  }

  ghost predicate NoMoreKeep(w: World, from: nat) {
    forall i: nat :: from <= i ==> w.polls(i) != Keep
  }

  /** No poll is taken twice, and a stop comes from the last one. */
  ghost predicate LastPoll(w: World, from: nat, s: Stand) {
    from <= s.p.at.polls && (s.turn == Stop ==> s.p.at.polls > 0 && w.polls(s.p.at.polls - 1) == Cancel)
  }

  lemma {:induction false} UptoLastPoll(w: World, id: string, works: Works, p: Place, n: nat)
    ensures LastPoll(w, p.at.polls, Upto(w, id, works, p, n))
  {
    if n > 0 {
      UptoLastPoll(w, id, works, p, n - 1);
    }
  }

  lemma WalkLastPoll(w: World, id: string, works: Works, p: Place)
    ensures var path := Walk(w, id, works, p);
            && p.at.polls < path.p.at.polls
            && (path.outcome == Some(Canceled) ==> w.polls(path.p.at.polls - 1) == Cancel)
            && (path.outcome.Some? && w.polls(p.at.polls) != Keep ==> path.outcome == Some(Canceled))
  {
    if w.polls(p.at.polls) == Keep {
      UptoLastPoll(w, id, works, Polled(p), STAGES);
    }
  }

  ghost predicate HasCanceled(results: seq<Document>) {
    exists k :: 0 <= k < |results| && results[k].status == Canceled
  }

  /** The results so far, and that after a canceled one no poll says to keep on. */
  ghost predicate Going(w: World, ids: seq<string>, results: seq<Document>, polls: nat) {
    OnePerDocument(ids, results) && (HasCanceled(results) ==> NoMoreKeep(w, polls))
  }

  lemma GoingOn(w: World, ids: seq<string>, results: seq<Document>, polls: nat, s: Status, next: nat)
    requires |ids| == |results| + 1 && Going(w, ids[..|results|], results, polls)
    requires Processed(s) && polls < next
    requires (w.polls(polls) != Keep ==> s == Canceled) && (s == Canceled ==> NoMoreKeep(w, next))
    ensures Going(w, ids, results + [Document(ids[|results|], s)], next)
  {
    var n := |results|;
    var after := results + [Document(ids[n], s)];
    assert forall k :: 0 <= k < n ==> ids[..n][k] == ids[k] && after[k] == results[k];
    assert HasCanceled(results) ==> s == Canceled;
  }

  lemma GoingStep(w: World, ids: seq<string>, works: Works, so: Progressed)
    requires Lasting(w.polls) && so.results.Some? && |so.results.value| < |ids|
    requires Going(w, ids[..|so.results.value|], so.results.value, so.p.at.polls)
    ensures var n := |so.results.value|;
            var next := WalkOne(w, ids[n], works, so);
            next.results.Some? ==> Going(w, ids[..n + 1], next.results.value, next.p.at.polls)
  {
    var n := |so.results.value|;
    WalkOutcome(w, ids[n], works, so.p);
    WalkLastPoll(w, ids[n], works, so.p);
    var path := Walk(w, ids[n], works, so.p);
    if path.outcome.Some? {
      assert ids[..n + 1][..n] == ids[..n];
      GoingOn(w, ids[..n + 1], so.results.value, so.p.at.polls, path.outcome.value, path.p.at.polls);
    }
  }

  lemma {:induction false} WalkToResults(w: World, ids: seq<string>, works: seq<Works>, p: Place, n: nat)
    requires Lasting(w.polls) && n <= |ids| && n <= |works|
    ensures var so := WalkTo(w, ids, works, p, n);
            so.results.Some? ==> Going(w, ids[..n], so.results.value, so.p.at.polls)
  {
    if n > 0 {
      WalkToResults(w, ids, works, p, n - 1);
      var before := WalkTo(w, ids, works, p, n - 1);
      if before.results.Some? {
        assert |before.results.value| == n - 1;
        GoingStep(w, ids, works[n - 1], before);
        assert WalkTo(w, ids, works, p, n) == WalkOne(w, ids[n - 1], works[n - 1], before);
      }
    }
  }

  // ----- what stays in the record

  /** Nothing reaches this document by its id: it has none, or an earlier one has the same. */
  predicate Stuck(docs: seq<Document>, k: nat)
    requires k < |docs|
  {
    docs[k].kbId == "" || IndexOf(docs, docs[k].kbId) != k
  }

  /** The same documents as before, and the stuck ones as they were. */
  ghost predicate Steady(before: seq<Document>, after: seq<Document>) {
    && |after| == |before|
    && (forall k :: 0 <= k < |before| ==> after[k].kbId == before[k].kbId)
    && (forall k :: 0 <= k < |before| && Stuck(before, k) ==> after[k] == before[k])
  }

  lemma SameStuck(before: seq<Document>, after: seq<Document>, k: nat)
    requires |after| == |before| && k < |before|
    requires forall j :: 0 <= j < |before| ==> after[j].kbId == before[j].kbId
    ensures Stuck(after, k) <==> Stuck(before, k)
  {
  }

  lemma SteadyTwice(a: seq<Document>, b: seq<Document>, c: seq<Document>)
    requires Steady(a, b) && Steady(b, c)
    ensures Steady(a, c)
  {
    forall k | 0 <= k < |a| && Stuck(a, k) ensures c[k] == a[k] {
      SameStuck(a, b, k);
    }
  }

  predicate Listed(docs: seq<Document>, id: string) {
    IndexOf(docs, id) < |docs|
  }

  lemma PutIsSteady(docs: seq<Document>, d: Document)
    requires Listed(docs, d.kbId)
    ensures Steady(docs, Put(docs, d))
  {
  }

  lemma StaysListed(before: seq<Document>, after: seq<Document>, id: string)
    requires Steady(before, after) && Listed(before, id)
    ensures Listed(after, id)
  {
    assert after[IndexOf(before, id)].kbId == id;
  }

  lemma SavedIsSteady(w: World, d: Document, p: Place, start: seq<Document>)
    requires Steady(start, p.documents) && Listed(start, d.kbId)
    ensures Steady(start, Saved(w, d, p).documents)
  {
    StaysListed(start, p.documents, d.kbId);
    PutIsSteady(p.documents, d);
    SteadyTwice(start, p.documents, Saved(w, d, p).documents);
  }

  lemma StageIsSteady(w: World, id: string, works: Works, n: nat, s: Stand, start: seq<Document>)
    requires Steady(start, s.p.documents) && Listed(start, id)
    ensures Steady(start, StageAt(w, id, works, n, s).p.documents)
  {
    SavedIsSteady(w, Document(id, Running), if n == 0 then s.p else Polled(s.p), start);
    SavedIsSteady(w, Document(id, Canceled), Polled(s.p), start);
  }

  lemma {:induction false} UptoIsSteady(w: World, id: string, works: Works, p: Place, n: nat, start: seq<Document>)
    requires Steady(start, p.documents) && Listed(start, id)
    ensures Steady(start, Upto(w, id, works, p, n).p.documents)
  {
    if n > 0 {
      UptoIsSteady(w, id, works, p, n - 1, start);
      StageIsSteady(w, id, works, n - 1, Upto(w, id, works, p, n - 1), start);
    }
  }

  lemma WalkIsSteady(w: World, id: string, works: Works, p: Place, start: seq<Document>)
    requires Steady(start, p.documents) && Listed(start, id)
    ensures Steady(start, Walk(w, id, works, p).p.documents)
  {
    if w.polls(p.at.polls) == Keep {
      UptoIsSteady(w, id, works, Polled(p), STAGES, start);
      SavedIsSteady(w, Document(id, Ok), Upto(w, id, works, Polled(p), STAGES).p, start);
      SavedIsSteady(w, Document(id, Error), Stages(w, id, works, Polled(p)).p, start);
    } else {
      SavedIsSteady(w, Document(id, Canceled), Polled(p), start);
    }
  }

  lemma {:induction false} WalkToIsSteady(w: World, ids: seq<string>, works: seq<Works>, p: Place, n: nat)
    requires n <= |ids| && n <= |works| && forall k :: 0 <= k < |ids| ==> Listed(p.documents, ids[k])
    ensures Steady(p.documents, WalkTo(w, ids, works, p, n).p.documents)
  {
    if n > 0 {
      WalkToIsSteady(w, ids, works, p, n - 1);
      WalkIsSteady(w, ids[n - 1], works[n - 1], WalkTo(w, ids, works, p, n - 1).p, p.documents);
    }
  }

  lemma {:induction false} PutAllIsSteady(docs: seq<Document>, results: seq<Document>)
    requires forall k :: 0 <= k < |results| ==> Listed(docs, results[k].kbId)
    ensures Steady(docs, PutAll(docs, results))
  {
    if results != [] {
      var n := |results| - 1;
      assert forall k :: 0 <= k < n ==> results[..n][k] == results[k];
      PutAllIsSteady(docs, results[..n]);
      var before := PutAll(docs, results[..n]);
      StaysListed(docs, before, results[n].kbId);
      PutIsSteady(before, results[n]);
      SteadyTwice(docs, before, PutAll(docs, results));
    }
  }

  // ----- who is ok in the record

  /** A document is ok only if it was before, or has this id and may be. */
  ghost predicate OksFrom(before: seq<Document>, after: seq<Document>, id: string, may: bool) {
    forall k :: 0 <= k < |after| && after[k].status == Ok ==>
      (k < |before| && before[k] == after[k]) || (after[k].kbId == id && may)
  }

  lemma SavedOks(w: World, id: string, s: Status, p: Place, before: seq<Document>, may: bool)
    requires OksFrom(before, p.documents, id, may) && (s == Ok ==> may)
    ensures OksFrom(before, Saved(w, Document(id, s), p).documents, id, may)
  {
  }

  lemma {:induction false} UptoOks(w: World, id: string, works: Works, p: Place, n: nat)
    ensures OksFrom(p.documents, Upto(w, id, works, p, n).p.documents, id, false)
  {
    if n > 0 {
      UptoOks(w, id, works, p, n - 1);
      StageOks(w, id, works, n - 1, Upto(w, id, works, p, n - 1), p.documents);
    }
  }

  lemma StageOks(w: World, id: string, works: Works, n: nat, s: Stand, before: seq<Document>)
    requires OksFrom(before, s.p.documents, id, false)
    ensures OksFrom(before, StageAt(w, id, works, n, s).p.documents, id, false)
  {
    SavedOks(w, id, Running, if n == 0 then s.p else Polled(s.p), before, false);
    SavedOks(w, id, Canceled, Polled(s.p), before, false);
  }

  lemma UpsertedLast(w: World, id: string, works: Works, p: Place)
    ensures Upto(w, id, works, p, STAGES).turn == GoOn ==> works.upserted
  {
  }

  lemma WalkOks(w: World, id: string, works: Works, p: Place)
    ensures OksFrom(p.documents, Walk(w, id, works, p).p.documents, id, works.upserted)
  {
    if w.polls(p.at.polls) == Keep {
      var s := Upto(w, id, works, Polled(p), STAGES);
      UptoOks(w, id, works, Polled(p), STAGES);
      UpsertedLast(w, id, works, Polled(p));
      if s.turn == GoOn {
        SavedOks(w, id, Ok, s.p, p.documents, works.upserted);
      }
      SavedOks(w, id, Error, Stages(w, id, works, Polled(p)).p, p.documents, works.upserted);
    } else {
      SavedOks(w, id, Canceled, Polled(p), p.documents, works.upserted);
    }
  }

  /** A document is ok only if one with its id was upserted. */
  ghost predicate OksUpserted(docs: seq<Document>, ids: seq<string>, works: seq<Works>, n: nat)
    requires n <= |ids| && n <= |works|
  {
    forall k :: 0 <= k < |docs| && docs[k].status == Ok ==>
      exists j: nat :: j < n && docs[k].kbId == ids[j] && works[j].upserted
  }

  lemma MoreOks(before: seq<Document>, after: seq<Document>, ids: seq<string>, works: seq<Works>, n: nat)
    requires n < |ids| && n < |works| && OksUpserted(before, ids, works, n)
    requires OksFrom(before, after, ids[n], works[n].upserted)
    ensures OksUpserted(after, ids, works, n + 1)
  {
    forall k | 0 <= k < |after| && after[k].status == Ok
      ensures exists j: nat :: j < n + 1 && after[k].kbId == ids[j] && works[j].upserted
    {
      if k < |before| && before[k] == after[k] {
        var j: nat :| j < n && before[k].kbId == ids[j] && works[j].upserted;
      }
    }
  }

  lemma OksStep(w: World, ids: seq<string>, works: seq<Works>, n: nat, so: Progressed)
    requires n < |ids| && n < |works| && so.results.Some? && OksUpserted(so.p.documents, ids, works, n)
    ensures OksUpserted(WalkOne(w, ids[n], works[n], so).p.documents, ids, works, n + 1)
  {
    WalkOks(w, ids[n], works[n], so.p);
    MoreOks(so.p.documents, Walk(w, ids[n], works[n], so.p).p.documents, ids, works, n);
  }

  /** Whatever became of the job, a document that its record says is ok was upserted. */
  lemma {:induction false} WalkToOks(w: World, ids: seq<string>, works: seq<Works>, p: Place, n: nat)
    requires n <= |ids| && n <= |works| && forall k :: 0 <= k < |p.documents| ==> p.documents[k].status != Ok
    ensures OksUpserted(WalkTo(w, ids, works, p, n).p.documents, ids, works, n)
  {
    if n > 0 {
      WalkToOks(w, ids, works, p, n - 1);
      var before := WalkTo(w, ids, works, p, n - 1);
      if before.results.Some? {
        OksStep(w, ids, works, n - 1, before);
      }
    }
  }

  /** The results so far are ok only for documents that were upserted. */
  ghost predicate ResultsUpserted(results: seq<Document>, works: seq<Works>) {
    |results| <= |works| && forall k :: 0 <= k < |results| && results[k].status == Ok ==> works[k].upserted
  }

  lemma ResultStep(w: World, id: string, works: seq<Works>, so: Progressed)
    requires so.results.Some? && |so.results.value| < |works| && ResultsUpserted(so.results.value, works)
    ensures var next := WalkOne(w, id, works[|so.results.value|], so);
            next.results.Some? ==>
              |next.results.value| == |so.results.value| + 1 && ResultsUpserted(next.results.value, works)
  {
    OkIsUpserted(w, id, works[|so.results.value|], so.p);
  }

  lemma {:induction false} OkResults(w: World, ids: seq<string>, works: seq<Works>, p: Place, n: nat)
    requires n <= |ids| && n <= |works|
    ensures var results := WalkTo(w, ids, works, p, n).results;
            results.Some? ==> |results.value| == n && ResultsUpserted(results.value, works)
  {
    if n > 0 {
      OkResults(w, ids, works, p, n - 1);
      var before := WalkTo(w, ids, works, p, n - 1);
      if before.results.Some? {
        ResultStep(w, ids[n - 1], works, before);
      }
    }
  }

  lemma OkIsUpserted(w: World, id: string, works: Works, p: Place)
    ensures Walk(w, id, works, p).outcome == Some(Ok) ==> works.upserted
  {
    WalkOutcome(w, id, works, p);
    assert GoesThrough(w, works, p.at, 3) ==> works.upserted;
  }

  // ----- how a job ends

  function CountOf(docs: seq<Document>, s: Status): nat {
    if docs == [] then 0 else CountOf(docs[..|docs| - 1], s) + if docs[|docs| - 1].status == s then 1 else 0
  }

  datatype Progress = Progress(total: nat, processed: nat, succeeded: nat, failed: nat, canceled: nat, percent: nat)

  /** `int((processed / total) * 100)`. */
  function PercentOf(processed: nat, total: nat): (percent: nat)
    requires total > 0
  {
    var percent := ((processed as real / total as real) * 100.0).Floor;
    NotNegative(processed as real, total as real);
    percent
  }

  lemma NotNegative(p: real, n: real)
    requires p >= 0.0 && n > 0.0
    ensures p / n >= 0.0
  {
  }

  function ProgressOf(docs: seq<Document>): Progress {
    var (succeeded, failed, canceled) := (CountOf(docs, Ok), CountOf(docs, Error), CountOf(docs, Canceled));
    var processed := succeeded + failed + canceled;
    Progress(|docs|, processed, succeeded, failed, canceled, if |docs| == 0 then 0 else PercentOf(processed, |docs|))
  }

  lemma {:induction false} CountBounds(docs: seq<Document>, s: Status)
    ensures CountOf(docs, s) <= |docs|
    ensures CountOf(docs, s) == 0 <==> forall k :: 0 <= k < |docs| ==> docs[k].status != s
    ensures CountOf(docs, s) == |docs| <==> forall k :: 0 <= k < |docs| ==> docs[k].status == s
  {
    if docs != [] {
      var n := |docs| - 1;
      CountBounds(docs[..n], s);
      assert forall k :: 0 <= k < n ==> docs[..n][k] == docs[k];
    }
  }

  lemma {:induction false} ProcessedCount(docs: seq<Document>)
    ensures CountOf(docs, Ok) + CountOf(docs, Error) + CountOf(docs, Canceled) <= |docs|
    ensures CountOf(docs, Ok) + CountOf(docs, Error) + CountOf(docs, Canceled) == |docs|
            <==> forall k :: 0 <= k < |docs| ==> Processed(docs[k].status)
  {
    if docs != [] {
      var n := |docs| - 1;
      ProcessedCount(docs[..n]);
      assert forall k :: 0 <= k < n ==> docs[..n][k] == docs[k];
    }
  }

  /** A job is at 100 percent exactly when it has documents and all are processed. */
  lemma FullyProcessed(docs: seq<Document>)
    ensures ProgressOf(docs).percent <= 100
    ensures ProgressOf(docs).percent == 100 <==> docs != [] && forall k :: 0 <= k < |docs| ==> Processed(docs[k].status)
    ensures docs != [] ==>
              var (percent, processed) := (ProgressOf(docs).percent, ProgressOf(docs).processed);
              100 * processed - |docs| <= percent * |docs| <= 100 * processed
  {
    ProcessedCount(docs);
    if docs != [] {
      Percent(ProgressOf(docs).processed, |docs|);
    }
  }

  lemma Percent(p: nat, n: nat)
    requires p <= n && n > 0
    ensures PercentOf(p, n) <= 100 && (PercentOf(p, n) == 100 <==> p == n)
    ensures 100 * p - n <= PercentOf(p, n) * n <= 100 * p
  {
    Ratio(p as real, n as real);
    Share(p as real, n as real, PercentOf(p, n) as real);
  }

  lemma Share(p: real, n: real, percent: real)
    requires n > 0.0 && percent <= p / n * 100.0 <= percent + 1.0
    ensures 100.0 * p - n <= percent * n && percent * n <= 100.0 * p
  {
    var share := p / n * 100.0;
    Quotient(p, n, share);
    Scaled(percent, share, n);
    assert percent * n <= 100.0 * p;
    Scaled(share, percent + 1.0, n);
    assert (percent + 1.0) * n == percent * n + n;
  }

  lemma Quotient(p: real, n: real, share: real)
    requires n > 0.0 && share == p / n * 100.0
    ensures share * n == 100.0 * p
  {
    var q := p / n;
    assert q * n == p;
    assert share * n == 100.0 * (q * n);
  }

  lemma Scaled(a: real, b: real, n: real)
    requires a <= b && n > 0.0
    ensures a * n <= b * n
  {
  }

  lemma Ratio(p: real, n: real)
    requires p <= n && n > 0.0
    ensures p / n <= 1.0 && (p / n == 1.0 <==> p == n)
  {
  }

  datatype JobStatus = Succeeded | Failed | PartialFailed | JobCanceled

  /** `_finalize_job_locked`, by the counts. */
  function StatusBy(docs: seq<Document>): JobStatus {
    var progress := ProgressOf(docs);
    if progress.failed == 0 && progress.canceled == 0 then Succeeded
    else if progress.succeeded == 0 && progress.canceled == 0 then Failed
    else PartialFailed
  }

  predicate Has(docs: seq<Document>, s: Status) {
    exists k :: 0 <= k < |docs| && docs[k].status == s
  }

  predicate AllOk(docs: seq<Document>) {
    forall k :: 0 <= k < |docs| ==> docs[k].status == Ok
  }

  predicate AllProcessed(docs: seq<Document>) {
    forall k :: 0 <= k < |docs| ==> Processed(docs[k].status)
  }

  /** What the counts say of any record, with canceled or unfinished documents, or without documents. */
  lemma StatusByMeans(docs: seq<Document>)
    ensures StatusBy(docs) == Succeeded <==> !Has(docs, Error) && !Has(docs, Canceled)
    ensures StatusBy(docs) == Failed <==> Has(docs, Error) && !Has(docs, Ok) && !Has(docs, Canceled)
    ensures StatusBy(docs) == PartialFailed <==> Has(docs, Canceled) || (Has(docs, Error) && Has(docs, Ok))
  {
    CountBounds(docs, Ok);
    CountBounds(docs, Error);
    CountBounds(docs, Canceled);
  }

  /** What a status is to say of the documents: canceled if one is, and else whether all are ok, none, or
      some. */
  function StatusOf(docs: seq<Document>): JobStatus {
    if Has(docs, Canceled) then JobCanceled
    else if AllOk(docs) then Succeeded
    else if !Has(docs, Ok) then Failed
    else PartialFailed
  }

  lemma CountsAgree(docs: seq<Document>)
    requires docs != [] && AllProcessed(docs) && !Has(docs, Canceled)
    ensures StatusBy(docs) == StatusOf(docs)
  {
    StatusByMeans(docs);
    assert Processed(docs[0].status);
    assert docs[0].status == Ok || docs[0].status == Error;
    if !Has(docs, Error) {
      assert forall k :: 0 <= k < |docs| ==> Processed(docs[k].status) && docs[k].status != Error;
    }
  }

  /** Documents that are not processed yet end as `s`. */
  function MarkAs(docs: seq<Document>, s: Status): seq<Document> {
    seq(|docs|, k requires 0 <= k < |docs| => if Processed(docs[k].status) then docs[k] else docs[k].(status := s))
  }

  datatype End = End(documents: seq<Document>, status: JobStatus)

  /** The end of a job whose documents all went through. */
  function Finished(docs: seq<Document>, results: seq<Document>, requested: bool): End {
    var all := PutAll(docs, results);
    if requested || Has(results, Canceled) then End(MarkAs(all, Canceled), JobCanceled) else End(all, StatusBy(all))
  }

  /** The processing of a job, which does not begin when its payload cannot be loaded. `works` are the works
      of the documents begun. */
  function Processing(w: World, ids: seq<string>, works: seq<Works>, docs: seq<Document>, loaded: bool): Progressed
    requires |works| <= |ids|
  {
    var start := Place(Counters(0, 0), docs);
    if loaded then WalkTo(w, ids, works, start, |works|) else Progressed(None, start)
  }

  /** How `run_kb_job` leaves the job: an exception that escapes makes it fail and keeps what was saved. */
  function EndOf(so: Progressed, requested: bool): End {
    match so.results
    case None => End(MarkAs(so.p.documents, Error), Failed)
    case Some(results) => Finished(so.p.documents, results, requested)
  }

  // ----- what the end says

  predicate Distinct(ids: seq<string>) {
    && (forall j, k :: 0 <= j < k < |ids| ==> ids[j] != ids[k])
    && "" !in ids
  }

  function NewRecord(ids: seq<string>): (docs: seq<Document>)
    ensures |docs| == |ids| && forall k :: 0 <= k < |docs| ==> docs[k] == Document(ids[k], Queued)
  {
    seq(|ids|, k requires 0 <= k < |ids| => Document(ids[k], Queued))
  }

  ghost predicate Named(docs: seq<Document>, ids: seq<string>) {
    |docs| == |ids| && forall k :: 0 <= k < |docs| ==> docs[k].kbId == ids[k]
  }

  lemma AllListed(docs: seq<Document>, ids: seq<string>)
    requires Named(docs, ids)
    ensures forall k :: 0 <= k < |ids| ==> Listed(docs, ids[k])
  {
    forall k | 0 <= k < |ids| ensures Listed(docs, ids[k]) {
      assert docs[k].kbId == ids[k];
    }
  }

  /** The first `n` results are in the record. */
  ghost predicate Tells(docs: seq<Document>, results: seq<Document>, n: nat, after: seq<Document>)
    requires n <= |docs| == |results|
  {
    && |after| == |docs|
    && forall k :: 0 <= k < |docs| ==> after[k] == if k < n then results[k] else docs[k]
  }

  lemma PutTells(docs: seq<Document>, results: seq<Document>, ids: seq<string>, n: nat, after: seq<Document>)
    requires Named(docs, ids) && Named(results, ids) && Distinct(ids)
    requires n < |ids| && Tells(docs, results, n, after)
    ensures Tells(docs, results, n + 1, Put(after, results[n]))
  {
    assert forall k :: 0 <= k < |docs| ==> after[k].kbId == ids[k];
    assert ids[n] in ids;
    IndexIs(after, ids[n], n);
  }

  /** The results in the record: each document with an id of its own says what its result says. */
  lemma {:induction false} PutAllTells(docs: seq<Document>, results: seq<Document>, ids: seq<string>, n: nat)
    requires Named(docs, ids) && Named(results, ids) && Distinct(ids) && n <= |ids|
    ensures Tells(docs, results, n, PutAll(docs, results[..n]))
  {
    if n > 0 {
      PutAllTells(docs, results, ids, n - 1);
      assert results[..n][..n - 1] == results[..n - 1];
      PutTells(docs, results, ids, n - 1, PutAll(docs, results[..n - 1]));
    }
  }

  /** What processing leaves: the documents of the record, and a result for each if nothing escaped. */
  ghost predicate Orderly(ids: seq<string>, so: Progressed) {
    Named(so.p.documents, ids) && (so.results.Some? ==> OnePerDocument(ids, so.results.value))
  }

  lemma ProcessingIsOrderly(w: World, ids: seq<string>, works: seq<Works>, docs: seq<Document>, loaded: bool)
    requires Lasting(w.polls) && Named(docs, ids) && |works| <= |ids|
    requires Processing(w, ids, works, docs, loaded).results.Some? ==> |works| == |ids|
    ensures var so := Processing(w, ids, works, docs, loaded);
            Orderly(ids, so) && Steady(docs, so.p.documents)
  {
    if loaded {
      AllListed(docs, ids);
      WalkToIsSteady(w, ids, works, Place(Counters(0, 0), docs), |works|);
      WalkToResults(w, ids, works, Place(Counters(0, 0), docs), |works|);
      assert ids[..|ids|] == ids;
    }
  }

  /** All documents are processed, and the progress says so. */
  ghost predicate Over(docs: seq<Document>, ids: seq<string>) {
    Named(docs, ids) && AllProcessed(docs) && ProgressOf(docs).percent == 100
  }

  /** All documents are processed. When nothing escaped the documents say what the results say, and the
      status is what they ask for, or canceled if that was requested. When something did, it is failed,
      which fits the documents exactly when none had been saved as ok or canceled. */
  ghost predicate EndIsRight(ids: seq<string>, so: Progressed, requested: bool) {
    var end := EndOf(so, requested);
    && Over(end.documents, ids)
    && (so.results.Some? ==>
          && end.documents == so.results.value
          && end.status == if requested then JobCanceled else StatusOf(end.documents))
    && (so.results.None? ==>
          && end.status == Failed
          && (StatusOf(end.documents) == Failed <==>
                !Has(so.p.documents, Ok) && !Has(so.p.documents, Canceled)))
  }

  /** This is how every job ends whose documents have ids of their own. */
  lemma EndFits(ids: seq<string>, so: Progressed, requested: bool)
    requires ids != [] && Distinct(ids) && Orderly(ids, so)
    ensures EndIsRight(ids, so, requested)
  {
    match so.results
    case None => EscapedEnd(so.p.documents, ids);
    case Some(all) => FinishedEnd(so.p.documents, all, ids, requested);
  }

  /** How a new job ends, and when something escapes. */
  lemma JobEnds(w: World, ids: seq<string>, works: seq<Works>, docs: seq<Document>, loaded: bool, requested: bool)
    requires Lasting(w.polls) && ids != [] && Distinct(ids) && Named(docs, ids) && |works| <= |ids|
    requires Processing(w, ids, works, docs, loaded).results.Some? ==> |works| == |ids|
    ensures var so := Processing(w, ids, works, docs, loaded);
            && Orderly(ids, so) && EndIsRight(ids, so, requested)
            && (so.results == None <==>
                  !loaded || SomeEscapes(w, ids, works, Place(Counters(0, 0), docs), |works|))
  {
    ProcessingIsOrderly(w, ids, works, docs, loaded);
    EndFits(ids, Processing(w, ids, works, docs, loaded), requested);
    EscapesWhen(w, ids, works, Place(Counters(0, 0), docs), |works|);
  }

  lemma EscapedEnd(docs: seq<Document>, ids: seq<string>)
    requires ids != [] && Named(docs, ids)
    ensures var after := MarkAs(docs, Error);
            && Over(after, ids)
            && (StatusOf(after) == Failed <==> !Has(docs, Ok) && !Has(docs, Canceled))
  {
    var after := MarkAs(docs, Error);
    assert forall k :: 0 <= k < |docs| ==> (after[k].status == Ok <==> docs[k].status == Ok);
    assert forall k :: 0 <= k < |docs| ==> (after[k].status == Canceled <==> docs[k].status == Canceled);
    SameHas(docs, after, Ok);
    SameHas(docs, after, Canceled);
    assert AllOk(after) ==> after[0].status == Ok;
    FullyProcessed(after);
  }

  lemma SameHas(a: seq<Document>, b: seq<Document>, s: Status)
    requires |a| == |b| && forall k :: 0 <= k < |a| ==> (a[k].status == s <==> b[k].status == s)
    ensures Has(a, s) <==> Has(b, s)
  {
  }

  lemma FinishedEnd(docs: seq<Document>, results: seq<Document>, ids: seq<string>, requested: bool)
    requires ids != [] && Distinct(ids) && Named(docs, ids) && OnePerDocument(ids, results)
    ensures var end := Finished(docs, results, requested);
            && end.documents == results && Over(results, ids)
            && end.status == (if requested then JobCanceled else StatusOf(results))
  {
    PutAllTells(docs, results, ids, |ids|);
    assert results[..|ids|] == results;
    var all := PutAll(docs, results);
    assert all == results;
    assert MarkAs(results, Canceled) == results;
    if !Has(results, Canceled) {
      CountsAgree(results);
    }
    FullyProcessed(results);
  }

  /** However a new job ends, a document that it says is ok was upserted. */
  lemma OkMeansUpserted(w: World, ids: seq<string>, works: seq<Works>, docs: seq<Document>, loaded: bool,
          requested: bool)
    requires Lasting(w.polls) && ids != [] && Distinct(ids) && |works| <= |ids|
    requires Named(docs, ids) && forall k :: 0 <= k < |docs| ==> docs[k].status != Ok
    requires Processing(w, ids, works, docs, loaded).results.Some? ==> |works| == |ids|
    ensures var end := EndOf(Processing(w, ids, works, docs, loaded), requested);
            && Named(end.documents, ids)
            && forall k :: 0 <= k < |ids| && end.documents[k].status == Ok ==> k < |works| && works[k].upserted
  {
    var so := Processing(w, ids, works, docs, loaded);
    ProcessingIsOrderly(w, ids, works, docs, loaded);
    EndFits(ids, so, requested);
    var start := Place(Counters(0, 0), docs);
    if loaded {
      OkResults(w, ids, works, start, |works|);
      WalkToOks(w, ids, works, start, |works|);
    }
    if so.results.None? {
      SavedOkUpserted(so.p.documents, ids, works, if loaded then |works| else 0);
    }
  }

  lemma SavedOkUpserted(docs: seq<Document>, ids: seq<string>, works: seq<Works>, n: nat)
    requires Distinct(ids) && Named(docs, ids) && n <= |works| <= |ids| && OksUpserted(docs, ids, works, n)
    ensures forall k :: 0 <= k < |ids| && MarkAs(docs, Error)[k].status == Ok ==> k < |works| && works[k].upserted
  {
  }

  /** Without a cancellation and without an exception that escapes, a new job ends at 100 percent exactly
      when every document has an id of its own. */
  lemma FinishedWhenDistinct(ids: seq<string>, so: Progressed)
    requires ids != [] && Orderly(ids, so) && Steady(NewRecord(ids), so.p.documents)
    requires so.results.Some? && !Has(so.results.value, Canceled)
    ensures ProgressOf(EndOf(so, false).documents).percent == 100 <==> Distinct(ids)
  {
    if Distinct(ids) {
      EndFits(ids, so, false);
    } else {
      StaysQueued(ids, so.p.documents, so.results.value);
    }
  }

  lemma StaysQueued(ids: seq<string>, docs: seq<Document>, results: seq<Document>)
    requires !Distinct(ids) && Steady(NewRecord(ids), docs) && Named(results, ids)
    ensures ProgressOf(PutAll(docs, results)).percent < 100
  {
    AllListed(docs, ids);
    PutAllIsSteady(docs, results);
    SteadyTwice(NewRecord(ids), docs, PutAll(docs, results));
    var k := StuckSomewhere(ids);
    FullyProcessed(PutAll(docs, results));
  }

  lemma StuckSomewhere(ids: seq<string>) returns (k: nat)
    requires !Distinct(ids)
    ensures k < |ids| && Stuck(NewRecord(ids), k)
  {
    if "" in ids {
      k :| k < |ids| && ids[k] == "";
    } else {
      var j: nat;
      j, k :| j < k < |ids| && ids[j] == ids[k];
      assert NewRecord(ids)[j].kbId == ids[k];
    }
  }

  lemma PutAgain(docs: seq<Document>, id: string, s: Status, t: Status)
    requires id != "" && Listed(docs, id)
    ensures var k := IndexOf(docs, id); Put(docs[k := Document(id, s)], Document(id, t)) == docs[k := Document(id, t)]
  {
    var k := IndexOf(docs, id);
    var after := docs[k := Document(id, s)];
    IndexIs(after, id, k);
    assert after[k := Document(id, t)] == docs[k := Document(id, t)];
  }

  /** Nothing raises and nothing gets lost among the first `n` saves from here. */
  ghost predicate Smooth(w: World, at: Counters, n: nat) {
    forall i: nat :: at.saves <= i < at.saves + n ==> w.saves(i) == Save(false, true)
  }

  lemma {:induction false} SmoothUpto(w: World, id: string, works: Works, p: Place, n: nat)
    requires id != "" && Listed(p.documents, id) && 0 < n <= STAGES
    requires w.polls(p.at.polls) == Keep && Passed(w, works, p.at, n) && Smooth(w, p.at, n)
    ensures Upto(w, id, works, Polled(p), n) ==
            Stand(GoOn, Place(Moved(p.at, n), p.documents[IndexOf(p.documents, id) := Document(id, Running)]))
  {
    assert GoesThrough(w, works, p.at, n - 1);
    if n > 1 {
      SmoothUpto(w, id, works, p, n - 1);
      PutAgain(p.documents, id, Running, Running);
    }
  }

  /** A document that everything goes well for is ok in the record as well. */
  lemma SmoothWalk(w: World, id: string, works: Works, p: Place)
    requires id != "" && Listed(p.documents, id) && Passed(w, works, p.at, STAGES) && Smooth(w, p.at, 5)
    ensures Walk(w, id, works, p) ==
            Path(Some(Ok), Place(Counters(p.at.polls + 4, p.at.saves + 5),
                                 p.documents[IndexOf(p.documents, id) := Document(id, Ok)]))
  {
    assert GoesThrough(w, works, p.at, 0);
    SmoothUpto(w, id, works, p, STAGES);
    PutAgain(p.documents, id, Running, Ok);
  }

  /** A job that ends as failed with a document that is ok: the first document goes well and is saved, and
      the first poll for the second one raises. */
  lemma FailedYetOk()
    ensures var ids := ["a", "b"];
            var w := World(i => if i == 4 then PollFails else Keep, i => Save(false, true));
            var all := Works(true, true, true, true, true);
            var end := EndOf(Processing(w, ids, [all, all], NewRecord(ids), true), false);
            Lasting(w.polls) && end == End([Document("a", Ok), Document("b", Error)], Failed)
  {
    var ids := ["a", "b"];
    var w := World(i => if i == 4 then PollFails else Keep, i => Save(false, true));
    var all := Works(true, true, true, true, true);
    var docs := NewRecord(ids);
    var start := Place(Counters(0, 0), docs);
    IndexIs(docs, "a", 0);
    assert forall i: nat :: i < 4 ==> GoesThrough(w, all, start.at, i);
    SmoothWalk(w, "a", all, start);
    var next := Place(Counters(4, 5), docs[0 := Document("a", Ok)]);
    OneThenEscape(w, ids, [all, all], start, next);
    assert MarkAs(next.documents, Error) == [Document("a", Ok), Document("b", Error)];
  }

  lemma OneThenEscape(w: World, ids: seq<string>, works: seq<Works>, p: Place, next: Place)
    requires |ids| == |works| == 2 && Walk(w, ids[0], works[0], p) == Path(Some(Ok), next)
    requires w.polls(next.at.polls) == PollFails
    ensures WalkTo(w, ids, works, p, 2) == Progressed(None, Polled(next))
  {
    assert WalkTo(w, ids, works, p, 1) == WalkOne(w, ids[0], works[0], Progressed(Some([]), p));
  }

  // ----- the job

  class Job {
    var documents: seq<Document>
    var status: Option<JobStatus>
    var progress: Progress

    constructor (ids: seq<string>)
      ensures documents == NewRecord(ids) && status == None && progress == ProgressOf(documents)
    {
      documents := NewRecord(ids);
      status := None;
      new;
      progress := ProgressOf(documents);
    }

    /** `_apply_document_result_locked`. */
    method ApplyDocumentResult(result: Document)
      modifies this`documents, this`progress
      ensures documents == Put(old(documents), result)
      ensures progress == if result.kbId == "" then old(progress) else ProgressOf(documents)
    {
      if result.kbId == "" {
        return;
      }
      var k := 0;
      while k < |documents| && documents[k].kbId != result.kbId
        invariant 0 <= k <= |documents| && documents == old(documents)
        invariant forall j :: 0 <= j < k ==> documents[j].kbId != result.kbId
      {
        k := k + 1;
      }
      documents := if k < |documents| then documents[k := result] else documents + [result];
      progress := ProgressOf(documents);
    }

    method ApplyAll(results: seq<Document>)
      modifies this`documents, this`progress
      ensures documents == PutAll(old(documents), results)
    {
      for i := 0 to |results|
        invariant documents == PutAll(old(documents), results[..i])
      {
        ApplyDocumentResult(results[i]);
        assert results[..i + 1][..i] == results[..i];
      }
      assert results[..|results|] == results;
    }

    /** `_mark_remaining_documents_canceled_locked`, and the same with an error. */
    method MarkRemaining(s: Status)
      modifies this`documents, this`progress
      ensures documents == MarkAs(old(documents), s) && progress == ProgressOf(documents)
    {
      for i := 0 to |documents|
        invariant |documents| == |old(documents)|
        invariant forall k :: 0 <= k < |documents| ==>
                    documents[k] == if k < i then MarkAs(old(documents), s)[k] else old(documents)[k]
      {
        if !Processed(documents[i].status) {
          documents := documents[i := documents[i].(status := s)];
        }
      }
      progress := ProgressOf(documents);
    }

    /** `_finalize_job_locked`, by the counts. */
    method Finalize(canceled: bool)
      modifies this`status, this`progress
      ensures progress == ProgressOf(documents)
      ensures status == Some(if canceled then JobCanceled else StatusBy(documents))
      ensures !canceled ==>
                && (status == Some(Succeeded) <==> !Has(documents, Error) && !Has(documents, Canceled))
                && (status == Some(Failed) <==>
                      Has(documents, Error) && !Has(documents, Ok) && !Has(documents, Canceled))
                && (status == Some(PartialFailed) <==>
                      Has(documents, Canceled) || (Has(documents, Error) && Has(documents, Ok)))
    {
      StatusByMeans(documents);
      progress := ProgressOf(documents);
      if canceled {
        status := Some(JobCanceled);
      } else if progress.failed == 0 && progress.canceled == 0 {
        status := Some(Succeeded);
      } else if progress.succeeded == 0 && progress.canceled == 0 {
        status := Some(Failed);
      } else {
        status := Some(PartialFailed);
      }
    }

    /** The end of `run_kb_job` after its documents went through. */
    method Finish(results: seq<Document>, requested: bool)
      modifies this
      ensures status.Some? && End(documents, status.value) == Finished(old(documents), results, requested)
      ensures progress == ProgressOf(documents)
    {
      ApplyAll(results);
      if requested || Has(results, Canceled) {
        MarkRemaining(Canceled);
        Finalize(true);
      } else {
        Finalize(false);
      }
    }
  }
}
