/** The live transcript of one call: a bounded queue, one worker that publishes each event with up to
    three attempts, and a Redis script that suppresses repeats. */
module LivePublisher {
  import opened Basics

  datatype Speaker = User | Agent

  datatype Event =
    | Started
    | Final(speaker: Speaker, messageId: string, text: string)
    | Ended

  /** `dedup_token`. */
  function Token(e: Event): (t: string) {
    match e
    case Started => "lifecycle:started"
    case Ended => "lifecycle:ended"
    case Final(User, id, _) => "transcript:user:" + id
    case Final(Agent, id, _) => "transcript:agent:" + id
  }

  /** Two events share a token only as repeats of one lifecycle event or of one speaker's message. */
  lemma TokenInjective(a: Event, b: Event)
    ensures Token(a) == Token(b) <==>
              if a.Final? && b.Final? then a.speaker == b.speaker && a.messageId == b.messageId else a == b
  {
    assert Token(a)[0] == if a.Final? then 't' else 'l';
    assert Token(b)[0] == if b.Final? then 't' else 'l';
    if a.Final? && b.Final? {
      assert Token(a)[11] == if a.speaker == User then 'u' else 'a';
      assert Token(b)[11] == if b.speaker == User then 'u' else 'a';
      var n := if a.speaker == User then 16 else 17;
      assert Token(a)[n..] == a.messageId;
      assert a.speaker == b.speaker ==> Token(b)[n..] == b.messageId;
    } else if !a.Final? && !b.Final? {
      assert Token(a)[10] == if a == Started then 's' else 'e';
      assert Token(b)[10] == if b == Started then 's' else 'e';
    }
  }

  /** The keys of one call: the stream, which token got which place in it, whether the call is in the
      active set, and the last lifecycle event. */
  datatype Keys = Keys(stream: seq<Event>, dedup: map<string, nat>, active: bool, metadata: seq<Event>)

  const NO_KEYS := Keys([], map[], false, [])

  /** The publish script. */
  function Script(db: Keys, e: Event): Keys {
    if Token(e) in db.dedup then db
    else
      var next := db.(stream := db.stream + [e], dedup := db.dedup[Token(e) := |db.stream|]);
      match e
      case Started => next.(active := true, metadata := [e])
      case Ended => next.(active := false, metadata := [e])
      case Final(_, _, _) => next
  }

  ghost predicate OnePerToken(db: Keys) {
    && (forall k :: 0 <= k < |db.stream| ==> Token(db.stream[k]) in db.dedup && db.dedup[Token(db.stream[k])] == k)
    && (forall t :: t in db.dedup ==> db.dedup[t] < |db.stream| && Token(db.stream[db.dedup[t]]) == t)
  }

  lemma ScriptKeepsTokens(db: Keys, e: Event)
    requires OnePerToken(db)
    ensures OnePerToken(Script(db, e)) && Token(e) in Script(db, e).dedup
    ensures forall t :: t in db.dedup ==> t in Script(db, e).dedup
    ensures Script(Script(db, e), e) == Script(db, e) && db.stream <= Script(db, e).stream
  {
  }

  // ---- Order ----

  ghost predicate Rising(at: seq<nat>) {
    forall j, k :: 0 <= j < k < |at| ==> at[j] < at[k]
  }

  /** The items stand in `accepted` at the places `at`. */
  ghost predicate Sits(items: seq<Event>, at: seq<nat>, accepted: seq<Event>) {
    |items| == |at| && forall k :: 0 <= k < |at| ==> at[k] < |accepted| && accepted[at[k]] == items[k]
  }

  /** ... in the same order. */
  ghost predicate Picks(items: seq<Event>, at: seq<nat>, accepted: seq<Event>) {
    Sits(items, at, accepted) && Rising(at)
  }

  ghost predicate Below(at: seq<nat>, n: int) {
    forall k :: 0 <= k < |at| ==> at[k] < n
  }

  ghost predicate Above(at: seq<nat>, n: int) {
    forall k :: 0 <= k < |at| ==> n < at[k]
  }

  ghost predicate Subsequence(items: seq<Event>, accepted: seq<Event>) {
    exists at :: Picks(items, at, accepted)
  }

  /** The call starts and ends at most once, and nothing is accepted after its end. */
  ghost predicate Lifecycle(accepted: seq<Event>, started: bool, closed: bool) {
    && (forall k :: 0 <= k < |accepted| && accepted[k] == Ended ==> k == |accepted| - 1 && closed)
    && (forall k :: 0 <= k < |accepted| && accepted[k] == Started ==> started)
    && (forall j, k :: 0 <= j < k < |accepted| && accepted[j] == Started ==> accepted[k] != Started)
  }

  /** The call is active when its start was published and no end after it. */
  ghost predicate ActiveIsLast(db: Keys) {
    db.active <==> exists k :: StartsAt(db.stream, k)
  }

  ghost predicate StartsAt(stream: seq<Event>, k: nat) {
    k < |stream| && stream[k] == Started && forall j :: k < j < |stream| ==> stream[j] != Ended
  }

  lemma ScriptKeepsActive(db: Keys, e: Event)
    requires ActiveIsLast(db)
    ensures ActiveIsLast(Script(db, e))
  {
    var next := Script(db, e);
    if Token(e) !in db.dedup {
      assert e == Started ==> StartsAt(next.stream, |db.stream|);
      forall k: nat | e.Final?
        ensures StartsAt(next.stream, k) <==> StartsAt(db.stream, k)
      {
        assert forall j :: 0 <= j < |db.stream| ==> next.stream[j] == db.stream[j];
      }
      assert e == Ended ==> next.stream[|db.stream|] == Ended;
    }
  }

  /** A published event whose token is new was not accepted at `f` itself. */
  lemma NotYetPublished(db: Keys, at: seq<nat>, accepted: seq<Event>, f: nat)
    requires OnePerToken(db) && Sits(db.stream, at, accepted) && f < |accepted| && Below(at, f + 1)
    requires Token(accepted[f]) !in db.dedup
    ensures Below(at, f)
  {
    forall k | 0 <= k < |at|
      ensures at[k] != f
    {
      assert accepted[at[k]] == db.stream[k];
    }
  }

  function Placed(db: Keys, at: seq<nat>, e: Event, f: nat): seq<nat> {
    if Token(e) in db.dedup then at else at + [f]
  }

  lemma RisingMore(at: seq<nat>, f: nat)
    ensures Rising(at + [f]) <==> Rising(at) && Below(at, f)
  {
    var more := at + [f];
    if Rising(more) {
      forall j, k | 0 <= j < k < |at|
        ensures at[j] < at[k]
      {
        assert more[j] < more[k];
      }
      forall k | 0 <= k < |at|
        ensures at[k] < f
      {
        assert more[k] < more[|at|];
      }
    }
  }

  /** The script run for the event accepted at `f` overtakes when it adds an entry and a later event has
      been published already. */
  ghost predicate Overtakes(db: Keys, at: seq<nat>, e: Event, f: nat) {
    Token(e) !in db.dedup && !Below(at, f)
  }

  /** The stream stays in order exactly when the script does not overtake. */
  lemma ScriptAndOrder(db: Keys, at: seq<nat>, accepted: seq<Event>, f: nat)
    requires Sits(db.stream, at, accepted) && f < |accepted|
    ensures Sits(Script(db, accepted[f]).stream, Placed(db, at, accepted[f], f), accepted)
    ensures Rising(Placed(db, at, accepted[f], f)) <==> Rising(at) && !Overtakes(db, at, accepted[f], f)
  {
    RisingMore(at, f);
  }

  /** An entry behind one that was accepted later is of an event that was given up. */
  ghost predicate OnlyGivenUpLag(at: seq<nat>, lost: set<nat>) {
    forall j, k :: 0 <= j < k < |at| ==> at[j] < at[k] || at[k] in lost
  }

  lemma LagMore(at: seq<nat>, f: nat, lost: set<nat>)
    requires OnlyGivenUpLag(at, lost) && (Below(at, f) || f in lost)
    ensures OnlyGivenUpLag(at + [f], lost)
  {
  }

  /** Then the order is broken exactly by given-up events, and not at all when there are none. */
  lemma OrderAndGivenUp(at: seq<nat>, lost: set<nat>)
    requires OnlyGivenUpLag(at, lost)
    ensures Rising(at) <==> forall k: nat :: k < |at| && at[k] in lost ==> Below(at[..k], at[k])
    ensures lost == {} ==> Rising(at)
  {
    forall k: nat | Rising(at) && k < |at| && at[k] in lost
      ensures Below(at[..k], at[k])
    {
    }
    if forall k: nat :: k < |at| && at[k] in lost ==> Below(at[..k], at[k]) {
      forall j, k | 0 <= j < k < |at|
        ensures at[j] < at[k]
      {
        if at[k] in lost {
          assert at[..k][j] == at[j];
        }
      }
    }
  }

  /** A script that runs before anything later is sent never overtakes. */
  lemma InTurn(db: Keys, at: seq<nat>, accepted: seq<Event>, f: nat)
    requires OnePerToken(db) && Sits(db.stream, at, accepted) && f < |accepted| && Below(at, f + 1)
    ensures !Overtakes(db, at, accepted[f], f)
  {
    if Token(accepted[f]) !in db.dedup {
      NotYetPublished(db, at, accepted, f);
    }
  }

  /** In an ordered stream the end of the call is the last entry. */
  lemma EndIsLast(stream: seq<Event>, at: seq<nat>, accepted: seq<Event>, started: bool, closed: bool, k: nat)
    requires Picks(stream, at, accepted) && Lifecycle(accepted, started, closed)
    requires k < |stream| && stream[k] == Ended
    ensures k == |stream| - 1
  {
    var last := |at| - 1;
    assert accepted[at[k]] == Ended;
    assert at[k] <= at[last] < |accepted|;
  }

  ghost predicate Before(a: seq<nat>, b: seq<nat>) {
    forall j, k :: 0 <= j < |a| && 0 <= k < |b| ==> a[j] < b[k]
  }

  /** In an ordered stream the call is active exactly from its published start to its published end. */
  lemma ActiveIsExact(db: Keys, at: seq<nat>, accepted: seq<Event>, started: bool, closed: bool)
    requires ActiveIsLast(db) && Picks(db.stream, at, accepted) && Lifecycle(accepted, started, closed)
    ensures db.active <==> Started in db.stream && Ended !in db.stream
  {
    forall k: nat | k < |db.stream| && db.stream[k] == Ended
      ensures k == |db.stream| - 1
    {
      EndIsLast(db.stream, at, accepted, started, closed, k);
    }
    if Started in db.stream && Ended !in db.stream {
      var k :| 0 <= k < |db.stream| && db.stream[k] == Started;
      assert StartsAt(db.stream, k);
    }
    forall k: nat | StartsAt(db.stream, k)
      ensures Ended !in db.stream
    {
    }
  }

  /** Published or sent and not run yet, then queued in the order of acceptance. */
  ghost predicate InLine(stream: seq<Event>, at: seq<nat>, late: seq<Event>, lateAt: seq<nat>, queue: seq<Event>,
          queueAt: seq<nat>, accepted: seq<Event>)
  {
    && Sits(stream, at, accepted) && Sits(late, lateAt, accepted) && Picks(queue, queueAt, accepted)
    && Before(at, queueAt) && Before(lateAt, queueAt)
  }

  /** The event being sent was accepted after what is published or late and before what is queued. */
  ghost predicate FlightPlaced(e: Event, flightAt: nat, at: seq<nat>, lateAt: seq<nat>, queueAt: seq<nat>,
          accepted: seq<Event>)
  {
    && flightAt < |accepted| && accepted[flightAt] == e
    && Below(at, flightAt + 1) && Below(lateAt, flightAt + 1) && Above(queueAt, flightAt)
  }

  lemma PushKeepsLine(stream: seq<Event>, at: seq<nat>, late: seq<Event>, lateAt: seq<nat>, queue: seq<Event>,
          queueAt: seq<nat>, accepted: seq<Event>, e: Event)
    requires InLine(stream, at, late, lateAt, queue, queueAt, accepted)
    ensures InLine(stream, at, late, lateAt, queue + [e], queueAt + [|accepted|], accepted + [e])
  {
  }

  lemma PopKeepsLine(stream: seq<Event>, at: seq<nat>, late: seq<Event>, lateAt: seq<nat>, queue: seq<Event>,
          queueAt: seq<nat>, accepted: seq<Event>)
    requires InLine(stream, at, late, lateAt, queue, queueAt, accepted) && queue != []
    ensures InLine(stream, at, late, lateAt, queue[1..], queueAt[1..], accepted)
    ensures queueAt[0] < |accepted| && accepted[queueAt[0]] == queue[0]
    ensures Below(at, queueAt[0]) && Below(lateAt, queueAt[0]) && Above(queueAt[1..], queueAt[0])
  {
  }

  /** A late script has run: its event moves from the late ones to the stream, or is there already. */
  lemma LateKeepsLine(db: Keys, at: seq<nat>, late: seq<Event>, lateAt: seq<nat>, queue: seq<Event>,
          queueAt: seq<nat>, accepted: seq<Event>, i: nat)
    requires InLine(db.stream, at, late, lateAt, queue, queueAt, accepted) && i < |late|
    ensures InLine(Script(db, late[i]).stream, Placed(db, at, late[i], lateAt[i]), late[..i] + late[i + 1..],
                   lateAt[..i] + lateAt[i + 1..], queue, queueAt, accepted)
    ensures forall e, f: nat :: FlightPlaced(e, f, at, lateAt, queueAt, accepted) ==>
              FlightPlaced(e, f, Placed(db, at, late[i], lateAt[i]), lateAt[..i] + lateAt[i + 1..], queueAt, accepted)
    ensures Rising(Placed(db, at, late[i], lateAt[i])) <==> Rising(at) && !Overtakes(db, at, late[i], lateAt[i])
  {
    assert accepted[lateAt[i]] == late[i];
    ScriptAndOrder(db, at, accepted, lateAt[i]);
  }

  lemma PushKeepsLifecycle(accepted: seq<Event>, started: bool, closed: bool, e: Event)
    requires Lifecycle(accepted, started, closed) && forall k :: 0 <= k < |accepted| ==> accepted[k] != Ended
    requires e == Started ==> started && forall k :: 0 <= k < |accepted| ==> accepted[k] != Started
    requires e == Ended ==> closed
    ensures Lifecycle(accepted + [e], started, closed)
  {
  }

  /** Where every accepted event is: published, lost, queued, or with the worker. */
  ghost predicate AllAccounted(db: Keys, accepted: seq<Event>, lost: set<nat>, queueAt: seq<nat>, sending: bool,
          flightAt: nat)
  {
    forall k: nat :: k < |accepted| ==>
      Token(accepted[k]) in db.dedup || k in lost || k in queueAt || (sending && k == flightAt)
  }

  lemma PopKeepsAccount(db: Keys, accepted: seq<Event>, lost: set<nat>, queueAt: seq<nat>, flightAt: nat)
    requires AllAccounted(db, accepted, lost, queueAt, false, flightAt) && queueAt != []
    ensures AllAccounted(db, accepted, lost, queueAt[1..], true, queueAt[0])
    ensures AllAccounted(db, accepted, lost + {queueAt[0]}, queueAt[1..], false, flightAt)
  {
    assert queueAt == [queueAt[0]] + queueAt[1..];
  }

  lemma EvictKeepsAccount(db: Keys, accepted: seq<Event>, lost: set<nat>, queueAt: seq<nat>, sending: bool,
          flightAt: nat)
    requires AllAccounted(db, accepted, lost, queueAt, sending, flightAt) && queueAt != []
    ensures AllAccounted(db, accepted, lost + {queueAt[0]}, queueAt[1..], sending, flightAt)
  {
    assert queueAt == [queueAt[0]] + queueAt[1..];
  }

  lemma ScriptKeepsAccount(db: Keys, e: Event, accepted: seq<Event>, lost: set<nat>, queueAt: seq<nat>, sending: bool,
          flightAt: nat)
    requires AllAccounted(db, accepted, lost, queueAt, sending, flightAt)
    ensures AllAccounted(Script(db, e), accepted, lost, queueAt, sending, flightAt)
  {
  }

  datatype Worker = Absent | Idle | Sending(event: Event, attempt: nat) | Stopped

  /** How one run of the script goes for the worker: a script that was not answered in time may have run,
      may never run, or may still run later. */
  datatype Outcome = Replied | LostBeforeRunning | LostAfterRunning | StillToRun

  const PUBLISH_ATTEMPTS: nat := 3

  /** The publisher's state, with the bookkeeping of places. */
  datatype Book = Book(capacity: nat, worker: Worker, closed: bool, queue: seq<Event>, marker: bool, db: Keys,
                       late: seq<Event>, accepted: seq<Event>, at: seq<nat>, lateAt: seq<nat>, queueAt: seq<nat>,
                       overtaken: bool, flightAt: nat,
                       lost: set<nat>)

  ghost predicate Good(b: Book) {
    && b.capacity > 0 && |b.queue| + (if b.marker then 1 else 0) <= b.capacity
    && OnePerToken(b.db) && ActiveIsLast(b.db) && (b.overtaken <==> !Rising(b.at)) && OnlyGivenUpLag(b.at, b.lost)
    && InLine(b.db.stream, b.at, b.late, b.lateAt, b.queue, b.queueAt, b.accepted)
    && (b.worker.Sending? ==>
          && b.worker.attempt < PUBLISH_ATTEMPTS
          && FlightPlaced(b.worker.event, b.flightAt, b.at, b.lateAt, b.queueAt, b.accepted))
    && Lifecycle(b.accepted, b.worker != Absent, b.closed) && (b.marker ==> b.closed)
    && AllAccounted(b.db, b.accepted, b.lost, b.queueAt, b.worker.Sending?, b.flightAt)
  }

  ghost function AfterLate(b: Book, i: nat): Book
    requires i < |b.late| && |b.late| == |b.lateAt|
  {
    b.(db := Script(b.db, b.late[i]), at := Placed(b.db, b.at, b.late[i], b.lateAt[i]),
       late := b.late[..i] + b.late[i + 1..], lateAt := b.lateAt[..i] + b.lateAt[i + 1..],
       overtaken := b.overtaken || Overtakes(b.db, b.at, b.late[i], b.lateAt[i]))
  }

  /** A late script overtakes only for an event that was given up. */
  lemma OvertakingWasGivenUp(b: Book, i: nat)
    requires Good(b) && i < |b.late|
    ensures |b.late| == |b.lateAt|
    ensures Overtakes(b.db, b.at, b.late[i], b.lateAt[i]) ==> b.lateAt[i] in b.lost
  {
    var f := b.lateAt[i];
    assert b.accepted[f] == b.late[i];
    if Below(b.at, f + 1) {
      InTurn(b.db, b.at, b.accepted, f);
    }
    assert f !in b.queueAt;
  }

  lemma LateKeepsLag(b: Book, i: nat)
    requires Good(b) && i < |b.late|
    ensures |b.late| == |b.lateAt|
    ensures OnlyGivenUpLag(Placed(b.db, b.at, b.late[i], b.lateAt[i]), b.lost)
  {
    OvertakingWasGivenUp(b, i);
    if Token(b.late[i]) !in b.db.dedup {
      LagMore(b.at, b.lateAt[i], b.lost);
    }
  }

  lemma LateKeepsGood(b: Book, i: nat)
    requires Good(b) && i < |b.late|
    ensures |b.late| == |b.lateAt| && Good(AfterLate(b, i))
  {
    ScriptKeepsTokens(b.db, b.late[i]);
    ScriptKeepsActive(b.db, b.late[i]);
    ScriptKeepsAccount(b.db, b.late[i], b.accepted, b.lost, b.queueAt, b.worker.Sending?, b.flightAt);
    LateKeepsLine(b.db, b.at, b.late, b.lateAt, b.queue, b.queueAt, b.accepted, i);
    LateKeepsLag(b, i);
  }

  ghost function AfterPut(b: Book, e: Event): Book {
    b.(queue := b.queue + [e], queueAt := b.queueAt + [|b.accepted|], accepted := b.accepted + [e])
  }

  lemma PutKeepsGood(b: Book, e: Event)
    requires Good(b) && |b.queue| + (if b.marker then 1 else 0) < b.capacity
    requires forall k :: 0 <= k < |b.accepted| ==> b.accepted[k] != Ended
    requires e == Started ==> b.worker != Absent && forall k :: 0 <= k < |b.accepted| ==> b.accepted[k] != Started
    requires e == Ended ==> b.closed
    ensures Good(AfterPut(b, e))
  {
    PushKeepsLine(b.db.stream, b.at, b.late, b.lateAt, b.queue, b.queueAt, b.accepted, e);
    PushKeepsLifecycle(b.accepted, b.worker != Absent, b.closed, e);
    PushKeepsAccount(b.db, b.accepted, b.lost, b.queueAt, b.worker.Sending?, b.flightAt, e);
    if b.worker.Sending? {
      PushKeepsFlight(b.worker.event, b.flightAt, b.at, b.lateAt, b.queueAt, b.accepted, e);
    }
  }

  lemma PushKeepsAccount(db: Keys, accepted: seq<Event>, lost: set<nat>, queueAt: seq<nat>, sending: bool,
          flightAt: nat, e: Event)
    requires AllAccounted(db, accepted, lost, queueAt, sending, flightAt)
    ensures AllAccounted(db, accepted + [e], lost, queueAt + [|accepted|], sending, flightAt)
  {
    assert (queueAt + [|accepted|])[|queueAt|] == |accepted|;
  }

  lemma PushKeepsFlight(event: Event, f: nat, at: seq<nat>, lateAt: seq<nat>, queueAt: seq<nat>, accepted: seq<Event>,
          e: Event)
    requires FlightPlaced(event, f, at, lateAt, queueAt, accepted)
    ensures FlightPlaced(event, f, at, lateAt, queueAt + [|accepted|], accepted + [e])
  {
  }

  ghost function AfterScript(b: Book): Book
    requires b.worker.Sending?
  {
    b.(db := Script(b.db, b.worker.event), at := Placed(b.db, b.at, b.worker.event, b.flightAt))
  }

  lemma ScriptKeepsGood(b: Book)
    requires Good(b) && b.worker.Sending?
    ensures Good(AfterScript(b))
  {
    var e := b.worker.event;
    ScriptKeepsTokens(b.db, e);
    ScriptKeepsActive(b.db, e);
    InTurn(b.db, b.at, b.accepted, b.flightAt);
    ScriptAndOrder(b.db, b.at, b.accepted, b.flightAt);
    if Token(e) !in b.db.dedup {
      LagMore(b.at, b.flightAt, b.lost);
    }
    ScriptKeepsAccount(b.db, e, b.accepted, b.lost, b.queueAt, true, b.flightAt);
    ScriptKeepsFlight(b.db, e, b.flightAt, b.at, b.lateAt, b.queueAt, b.accepted);
  }

  lemma ScriptKeepsFlight(db: Keys, e: Event, f: nat, at: seq<nat>, lateAt: seq<nat>, queueAt: seq<nat>,
          accepted: seq<Event>)
    requires FlightPlaced(e, f, at, lateAt, queueAt, accepted) && Before(at, queueAt)
    ensures FlightPlaced(e, f, Placed(db, at, e, f), lateAt, queueAt, accepted) && Before(Placed(db, at, e, f), queueAt)
  {
  }

  datatype Step =
    | StartCall
    | Transcript(speaker: Option<Speaker>, messageId: string, text: string)
    | CloseCall
    | Flushed
    | WorkerCancelled(sent: bool)
    | Taken
    | Tried(outcome: Outcome)
    | RanLate(which: nat)

  datatype Config = Config(enabled: bool, publishTranscripts: bool, capacity: nat)

  /** What can be seen of a publisher at one moment, and what each step makes of it. */
  datatype View = View(worker: Worker, closed: bool, queue: seq<Event>, marker: bool, db: Keys, late: seq<Event>,
                       accepted: seq<Event>)
  {
    predicate Full(c: Config) {
      |queue| + (if marker then 1 else 0) >= c.capacity
    }

    function Takes(e: Event): View {
      this.(queue := queue + [e], accepted := accepted + [e])
    }

    function Starts(c: Config): View {
      if !c.enabled || worker != Absent || closed then this
      else if Full(c) then this.(worker := Idle)
      else Takes(Started).(worker := Idle)
    }

    function Hears(c: Config, speaker: Option<Speaker>, messageId: string, text: string): View {
      if c.enabled && !closed && c.publishTranscripts && speaker.Some? && text != "" && messageId != "" && !Full(c)
      then Takes(Final(speaker.value, messageId, text)) else this
    }

    function WithRoom(c: Config): View {
      if Full(c) && queue != [] then this.(queue := queue[1..]) else this
    }

    /** Nothing is accepted behind the end of the call, and a full queue makes room for it. */
    function Closes(c: Config): View {
      if closed then this
      else if !c.enabled || worker == Absent then this.(closed := true)
      else this.(closed := true).WithRoom(c).Takes(Ended)
    }

    function Flushes(c: Config): View {
      if !closed || marker || worker in {Absent, Stopped} then this
      else if Full(c) then this.(worker := Stopped)
      else this.(marker := true)
    }

    function Cancels(sent: bool): View {
      if !closed || worker == Absent then this
      else this.(worker := Stopped, late := if sent && worker.Sending? then late + [worker.event] else late)
    }

    function Gets(): View {
      if worker != Idle then this
      else if queue != [] then this.(worker := Sending(queue[0], 0), queue := queue[1..])
      else if marker then this.(marker := false, worker := Stopped)
      else this
    }

    /** A script that is not answered in time has run, is lost, or stays behind. */
    function Sends(outcome: Outcome): View
      requires worker.Sending?
    {
      match outcome
      case Replied => this.(db := Script(db, worker.event))
      case LostAfterRunning => this.(db := Script(db, worker.event))
      case StillToRun => this.(late := late + [worker.event])
      case LostBeforeRunning => this
    }

    /** An event has three attempts. */
    function Ends(replied: bool): View
      requires worker.Sending?
    {
      this.(worker := if replied || worker.attempt >= PUBLISH_ATTEMPTS - 1 then Idle
                      else worker.(attempt := worker.attempt + 1))
    }

    function Tries(outcome: Outcome): View {
      if worker.Sending? then Sends(outcome).Ends(outcome == Replied) else this
    }

    function RunsLate(i: nat): View {
      if i >= |late| then this
      else this.(db := Script(db, late[i]), late := late[..i] + late[i + 1..])
    }

    function After(c: Config, step: Step): View {
      match step
      case StartCall => Starts(c)
      case Transcript(speaker, messageId, text) => Hears(c, speaker, messageId, text)
      case CloseCall => Closes(c)
      case Flushed => Flushes(c)
      case WorkerCancelled(sent) => Cancels(sent)
      case Taken => Gets()
      case Tried(outcome) => Tries(outcome)
      case RanLate(which) => RunsLate(which)
    }
  }

  /** A message that nothing disturbs is published behind all others. */
  lemma MessageGoesThrough(c: Config, v: View, speaker: Speaker, messageId: string, text: string)
    requires c.enabled && c.publishTranscripts && c.capacity > 0 && !v.closed
    requires v.worker == Idle && v.queue == [] && !v.marker && messageId != "" && text != ""
    requires Token(Final(speaker, messageId, text)) !in v.db.dedup
    ensures var w := v.After(c, Transcript(Some(speaker), messageId, text)).After(c, Taken).After(c, Tried(Replied));
            && w.db.stream == v.db.stream + [Final(speaker, messageId, text)] && w.db.active == v.db.active
            && w.worker == Idle && w.queue == []
  {
    var heard := v.After(c, Transcript(Some(speaker), messageId, text));
    assert heard == v.Takes(Final(speaker, messageId, text));
    assert heard.After(c, Taken).worker == Sending(Final(speaker, messageId, text), 0);
  }

  /** The same with the start and the end of a call: it is active from the one to the other. */
  lemma CallGoesThrough(c: Config, v: View)
    requires c.enabled && c.capacity > 0 && v == View(Absent, false, [], false, NO_KEYS, [], [])
    ensures var started := v.After(c, StartCall).After(c, Taken).After(c, Tried(Replied));
            var w := started.After(c, CloseCall).After(c, Taken).After(c, Tried(Replied));
            && started.db.stream == [Started] && started.db.active && started.db.metadata == [Started]
            && w.db.stream == [Started, Ended] && !w.db.active && w.db.metadata == [Ended]
  {
    var begun := v.After(c, StartCall);
    assert begun.queue == [Started] && begun.worker == Idle;
    assert begun.After(c, Taken).worker == Sending(Started, 0);
    var started := begun.After(c, Taken).After(c, Tried(Replied));
    assert Token(Started) != Token(Ended) by { TokenInjective(Started, Ended); }
    assert started.queue == [] && started.worker == Idle && !started.closed;
    var closing := started.After(c, CloseCall);
    assert closing.queue == [Ended] && closing.worker == Idle;
    assert closing.After(c, Taken).worker == Sending(Ended, 0);
  }

  /** After the flush the stop marker goes behind the queue, or the worker is cancelled when it does not fit; a
      cancelled worker stops; a late script runs once. */
  lemma OtherSteps(c: Config, v: View, sent: bool, i: nat)
    ensures v.closed && !v.marker && v.worker !in {Absent, Stopped} ==>
              v.After(c, Flushed) == if v.Full(c) then v.(worker := Stopped) else v.(marker := true)
    ensures v.closed && v.worker != Absent ==> v.After(c, WorkerCancelled(sent)).worker == Stopped
    ensures i < |v.late| ==>
              && v.After(c, RanLate(i)).db == Script(v.db, v.late[i])
              && v.After(c, RanLate(i)).late == v.late[..i] + v.late[i + 1..]
  {
  }

  /** What the steps of a run change, in turn. */
  function AfterAll(c: Config, v: View, steps: seq<Step>): View {
    if steps == [] then v
    else AfterAll(c, v, steps[..|steps| - 1]).After(c, steps[|steps| - 1])
  }

  class Publisher {
    const enabled: bool
    const publishTranscripts: bool
    const capacity: nat
    var worker: Worker
    var closed: bool
    /** The queue; `marker` is the stop marker behind everything else. */
    var queue: seq<Event>
    var marker: bool
    var db: Keys
    /** The scripts sent that were not answered in time and have not run. */
    var late: seq<Event>
    /** Everything the queue ever accepted; the places of what is published, late, queued and being sent;
        what was evicted, given up after three attempts, or cut off; whether a late script overtook. */
    ghost var accepted: seq<Event>
    ghost var at: seq<nat>
    ghost var lateAt: seq<nat>
    ghost var queueAt: seq<nat>
    ghost var overtaken: bool
    ghost var flightAt: nat
    ghost var lost: set<nat>

    ghost function State(): Book
      reads this
    {
      Book(capacity, worker, closed, queue, marker, db, late, accepted, at, lateAt, queueAt, overtaken, flightAt, lost)
    }

    ghost function Settings(): Config
      reads this
    {
      Config(enabled, publishTranscripts, capacity)
    }

    ghost function Seen(): View
      reads this
    {
      View(worker, closed, queue, marker, db, late, accepted)
    }

    ghost predicate Valid()
      reads this
    {
      Good(State())
    }

    constructor (enabled: bool, publishTranscripts: bool, capacity: nat)
      requires capacity > 0
      ensures Valid() && worker == Absent && !closed && db == NO_KEYS && accepted == [] && lost == {}
      ensures queue == [] && !marker && late == [] && !overtaken
      ensures this.enabled == enabled && this.publishTranscripts == publishTranscripts && this.capacity == capacity
    {
      this.enabled := enabled;
      this.publishTranscripts := publishTranscripts;
      this.capacity := capacity;
      worker := Absent;
      closed := false;
      queue := [];
      marker := false;
      db := NO_KEYS;
      late := [];
      accepted := [];
      at := [];
      lateAt := [];
      overtaken := false;
      queueAt := [];
      flightAt := 0;
      lost := {};
    }

    predicate Full()
      reads this
    {
      |queue| + (if marker then 1 else 0) >= capacity
    }

    /** `put_nowait`. */
    method Put(e: Event)
      requires Valid() && !Full()
      requires forall k :: 0 <= k < |accepted| ==> accepted[k] != Ended
      requires e == Started ==> worker != Absent && forall k :: 0 <= k < |accepted| ==> accepted[k] != Started
      requires e == Ended ==> closed
      modifies this`queue, this`accepted, this`queueAt
      ensures Valid() && queue == old(queue) + [e] && accepted == old(accepted) + [e]
    {
      PutKeepsGood(State(), e);
      Append(e);
    }

    method Append(e: Event)
      modifies this`queue, this`accepted, this`queueAt
      ensures State() == AfterPut(old(State()), e)
    {
      queue := queue + [e];
      queueAt := queueAt + [|accepted|];
      accepted := accepted + [e];
    }

    /** The oldest queued event makes room. */
    method Evict()
      requires Valid() && queue != []
      modifies this`queue, this`queueAt, this`lost
      ensures Valid() && queue == old(queue)[1..] && lost == old(lost) + {old(queueAt[0])}
    {
      PopKeepsLine(db.stream, at, late, lateAt, queue, queueAt, accepted);
      EvictKeepsAccount(db, accepted, lost, queueAt, worker.Sending?, flightAt);
      queue := queue[1..];
      lost := lost + {queueAt[0]};
      queueAt := queueAt[1..];
    }

    method Start()
      requires Valid()
      modifies this`worker, this`queue, this`accepted, this`queueAt
      ensures Valid()
      ensures !enabled || old(worker) != Absent || closed ==>
                worker == old(worker) && accepted == old(accepted) && queue == old(queue)
      ensures enabled && old(worker) == Absent && !closed ==>
                var added := if old(Full()) then [] else [Started];
                worker == Idle && accepted == old(accepted) + added && queue == old(queue) + added
      ensures Seen() == old(Seen()).Starts(Settings())
    {
      if !enabled || worker != Absent || closed {
        return;
      }
      assert forall k :: 0 <= k < |accepted| ==> accepted[k] != Started && accepted[k] != Ended;
      worker := Idle;
      if !Full() {
        Put(Started);
      }
    }

    method PublishTranscript(speaker: Option<Speaker>, messageId: string, text: string)
      requires Valid()
      modifies this`queue, this`accepted, this`queueAt
      ensures Valid()
      ensures var takes := enabled && !closed && publishTranscripts && speaker.Some? && text != "" &&
                messageId != "" && !old(Full());
              var added := if takes then [Final(speaker.value, messageId, text)] else [];
              accepted == old(accepted) + added && queue == old(queue) + added
      ensures Seen() == old(Seen()).Hears(Settings(), speaker, messageId, text)
    {
      if !enabled || closed || !publishTranscripts || speaker.None? || text == "" || messageId == "" {
        return;
      }
      if !Full() {
        Put(Final(speaker.value, messageId, text));
      }
    }

    /** The end of the call, for which a full queue makes room. */
    method PutLast()
      requires Valid() && closed && !marker && forall k :: 0 <= k < |accepted| ==> accepted[k] != Ended
      modifies this`queue, this`accepted, this`queueAt, this`lost
      ensures Valid() && Seen() == old(Seen()).WithRoom(Settings()).Takes(Ended)
    {
      if Full() {
        Evict();
      }
      Put(Ended);
    }

    /** The first stretch of `close`: nothing is accepted behind the end of the call, and a full queue
        makes room for it. */
    method BeginClose()
      requires Valid()
      modifies this`closed, this`queue, this`accepted, this`queueAt, this`lost
      ensures Valid() && closed
      ensures var ends := !old(closed) && enabled && worker != Absent;
              var kept := if ends && old(Full()) then old(queue)[1..] else old(queue);
              && queue == kept + (if ends then [Ended] else [])
              && accepted == old(accepted) + (if ends then [Ended] else [])
      ensures Seen() == old(Seen()).Closes(Settings())
    {
      if closed {
        return;
      }
      assert !marker && forall k :: 0 <= k < |accepted| ==> accepted[k] != Ended;
      closed := true;
      if enabled && worker != Absent {
        PutLast();
      }
    }

    /** After the flush, or its timeout: the stop marker, or a cancelled worker when it does not fit. */
    method FinishClose()
      requires Valid()
      modifies this`marker, this`worker, this`lost
      ensures Valid()
      ensures var nothing := !closed || old(marker) || old(worker) in {Absent, Stopped};
              && marker == (old(marker) || (!nothing && !old(Full())))
              && worker == if !nothing && old(Full()) then Stopped else old(worker)
      ensures Seen() == old(Seen()).Flushes(Settings())
    {
      if !closed || marker || worker in {Absent, Stopped} {
        return;
      }
      if Full() {
        CancelWorker();
      } else {
        marker := true;
      }
    }

    method CancelWorker()
      requires Valid() && worker != Absent
      modifies this`worker, this`lost
      ensures Valid() && worker == Stopped
      ensures lost == old(lost) + if old(worker).Sending? then {flightAt} else {}
    {
      if worker.Sending? {
        lost := lost + {flightAt};
      }
      worker := Stopped;
    }

    /** The idle worker takes the next event, or the marker. */
    method Get()
      requires Valid()
      modifies this`worker, this`queue, this`queueAt, this`flightAt, this`marker
      ensures Valid()
      ensures old(worker == Idle && queue != []) ==> worker == Sending(old(queue)[0], 0) && queue == old(queue)[1..]
      ensures !old(worker == Idle && queue != []) ==> queue == old(queue)
      ensures !old(worker == Idle && queue != []) ==>
                var stops := old(worker) == Idle && old(marker);
                worker == (if stops then Stopped else old(worker)) && marker == (old(marker) && !stops)
      ensures Seen() == old(Seen()).Gets()
    {
      if worker != Idle {
        return;
      }
      if queue != [] {
        PopKeepsLine(db.stream, at, late, lateAt, queue, queueAt, accepted);
        PopKeepsAccount(db, accepted, lost, queueAt, flightAt);
        worker := Sending(queue[0], 0);
        flightAt := queueAt[0];
        queue, queueAt := queue[1..], queueAt[1..];
      } else if marker {
        marker := false;
        worker := Stopped;
      }
    }

    /** Redis runs the script for the event being sent. */
    method RunScript()
      requires Valid() && worker.Sending?
      modifies this`db, this`at
      ensures Valid() && db == Script(old(db), worker.event) && Token(worker.event) in db.dedup
      ensures old(db.stream) <= db.stream
    {
      ScriptKeepsTokens(db, worker.event);
      ScriptKeepsGood(State());
      at := Placed(db, at, worker.event, flightAt);
      db := Script(db, worker.event);
    }

    /** The script of the event being sent stays behind: it may run at any time from now on. */
    method LeaveBehind()
      requires Valid() && worker.Sending?
      modifies this`late, this`lateAt
      ensures Valid() && late == old(late) + [worker.event]
    {
      late := late + [worker.event];
      lateAt := lateAt + [flightAt];
    }

    /** The worker is cancelled, with its script on the way or not. */
    method CancelSending(sent: bool)
      requires Valid()
      modifies this`late, this`lateAt, this`worker, this`lost
      ensures Valid()
      ensures !closed || old(worker) == Absent ==> worker == old(worker) && late == old(late) && lost == old(lost)
      ensures closed && old(worker) != Absent ==>
                worker == Stopped &&
                late == old(late) + if sent && old(worker).Sending? then [old(worker).event] else []
      ensures Seen() == old(Seen()).Cancels(sent)
    {
      if !closed || worker == Absent {
        return;
      }
      if sent && worker.Sending? {
        LeaveBehind();
      }
      CancelWorker();
    }

    method TakeLate(i: nat)
      requires i < |late| && |late| == |lateAt|
      modifies this`db, this`at, this`late, this`lateAt, this`overtaken
      ensures State() == AfterLate(old(State()), i)
    {
      var e := late[i];
      ghost var f := lateAt[i];
      overtaken := overtaken || Overtakes(db, at, e, f);
      at := Placed(db, at, e, f);
      db := Script(db, e);
      late, lateAt := late[..i] + late[i + 1..], lateAt[..i] + lateAt[i + 1..];
    }

    /** A late script runs. It never publishes a token twice, and it breaks the order exactly when it adds
        an entry behind a later event, which it does only for an event that was given up. */
    method RunLate(i: nat)
      requires Valid()
      modifies this`db, this`at, this`late, this`lateAt, this`overtaken
      ensures Valid() && old(db.stream) <= db.stream
      ensures i >= |old(late)| ==> db == old(db) && late == old(late) && overtaken == old(overtaken)
      ensures i < |old(late)| ==>
                && db == Script(old(db), old(late)[i]) && late == old(late)[..i] + old(late)[i + 1..]
                && (overtaken <==> old(overtaken) || old(Overtakes(db, at, late[i], lateAt[i])))
                && (old(Overtakes(db, at, late[i], lateAt[i])) ==> old(lateAt[i]) in lost)
      ensures Seen() == old(Seen()).RunsLate(i)
    {
      if i >= |late| {
        return;
      }
      ScriptKeepsTokens(db, late[i]);
      LateKeepsGood(State(), i);
      OvertakingWasGivenUp(State(), i);
      TakeLate(i);
    }

    /** One attempt: an event is given up after the third. */
    method Attempt(outcome: Outcome)
      requires Valid()
      modifies this`worker, this`db, this`at, this`lost, this`late, this`lateAt
      ensures Valid() && old(db.stream) <= db.stream
      ensures !old(worker).Sending? ==> worker == old(worker) && db == old(db) && late == old(late)
      ensures old(worker).Sending? ==>
                var Sending(e, n) := old(worker);
                && db == (if outcome in {Replied, LostAfterRunning} then Script(old(db), e) else old(db))
                && late == old(late) + (if outcome == StillToRun then [e] else [])
                && worker == if outcome == Replied || n == 2 then Idle else Sending(e, n + 1)
      ensures lost ==
              old(lost)
              + if old(worker).Sending? && outcome != Replied && old(worker).attempt == 2 then {flightAt} else {}
      ensures Seen() == old(Seen()).Tries(outcome)
    {
      if !worker.Sending? {
        return;
      }
      Transmit(outcome);
      EndAttempt(outcome == Replied);
    }

    /** The script is sent, and runs, stays behind, or is lost. */
    method Transmit(outcome: Outcome)
      requires Valid() && worker.Sending?
      modifies this`db, this`at, this`late, this`lateAt
      ensures Valid() && old(db.stream) <= db.stream
      ensures outcome == Replied ==> Token(worker.event) in db.dedup
      ensures Seen() == old(Seen()).Sends(outcome)
    {
      match outcome
      case Replied => RunScript();
      case LostAfterRunning => RunScript();
      case StillToRun => LeaveBehind();
      case LostBeforeRunning =>
    }

    method EndAttempt(replied: bool)
      requires Valid() && worker.Sending? && (replied ==> Token(worker.event) in db.dedup)
      modifies this`worker, this`lost
      ensures Valid()
      ensures Seen() == old(Seen()).Ends(replied)
      ensures lost == old(lost) + if !replied && old(worker).attempt == 2 then {flightAt} else {}
    {
      if replied {
        worker := Idle;
      } else if worker.attempt < PUBLISH_ATTEMPTS - 1 {
        worker := worker.(attempt := worker.attempt + 1);
      } else {
        lost := lost + {flightAt};
        worker := Idle;
      }
    }
  }

  method Take(p: Publisher, step: Step)
    requires p.Valid()
    modifies p
    ensures p.Valid() && old(p.db.stream) <= p.db.stream && p.Seen() == old(p.Seen()).After(p.Settings(), step)
  {
    match step
    case StartCall => p.Start();
    case Transcript(speaker, messageId, text) => p.PublishTranscript(speaker, messageId, text);
    case CloseCall => p.BeginClose();
    case Flushed => p.FinishClose();
    case WorkerCancelled(sent) => p.CancelSending(sent);
    case Taken => p.Get();
    case Tried(outcome) => p.Attempt(outcome);
    case RanLate(which) => p.RunLate(which);
  }

  /** Whatever fits the queue, whatever is dropped, whichever replies are lost and however late a script
      runs: the stream holds accepted events only, at most one for a token, and the call is active when its
      start was published and no end after it. The entries of events that were not given up are in the order
      of acceptance, and the whole stream is if and only if no entry of a given-up event is behind a later
      one; in particular it is when nothing was given up. In that order the end of the call comes last and
      the call is active exactly from its published start to its published end. When nothing was given up
      all that was accepted and has been taken is published. */
  method Run(p: Publisher, steps: seq<Step>)
    requires p.Valid()
    modifies p
    ensures p.Valid() && old(p.db.stream) <= p.db.stream
    ensures Sits(p.db.stream, p.at, p.accepted) && (Rising(p.at) <==> !p.overtaken)
    ensures OnlyGivenUpLag(p.at, p.lost)
    ensures !p.overtaken <==> forall k: nat :: k < |p.at| && p.at[k] in p.lost ==> Below(p.at[..k], p.at[k])
    ensures p.lost == {} ==> !p.overtaken
    ensures forall j, k :: 0 <= j < k < |p.db.stream| ==> Token(p.db.stream[j]) != Token(p.db.stream[k])
    ensures p.db.active <==> exists k :: StartsAt(p.db.stream, k)
    ensures !p.overtaken ==>
              && Subsequence(p.db.stream, p.accepted)
              && (forall k :: 0 <= k < |p.db.stream| - 1 ==> p.db.stream[k] != Ended)
              && (p.db.active <==> Started in p.db.stream && Ended !in p.db.stream)
    ensures p.lost == {} && p.queue == [] && !p.worker.Sending? ==>
              forall k :: 0 <= k < |p.accepted| ==> Token(p.accepted[k]) in p.db.dedup
    ensures p.Seen() == AfterAll(p.Settings(), old(p.Seen()), steps)
  {
    for i := 0 to |steps|
      invariant p.Valid() && old(p.db.stream) <= p.db.stream
      invariant p.Seen() == AfterAll(p.Settings(), old(p.Seen()), steps[..i])
    {
      Take(p, steps[i]);
      assert steps[..i + 1][..i] == steps[..i];
    }
    assert steps[..|steps|] == steps;
    OrderAndGivenUp(p.at, p.lost);
    if !p.overtaken {
      Ordered(p.db, p.at, p.accepted, p.worker != Absent, p.closed);
    }
  }

  lemma Ordered(db: Keys, at: seq<nat>, accepted: seq<Event>, started: bool, closed: bool)
    requires ActiveIsLast(db) && Picks(db.stream, at, accepted) && Lifecycle(accepted, started, closed)
    ensures Subsequence(db.stream, accepted)
    ensures forall k :: 0 <= k < |db.stream| - 1 ==> db.stream[k] != Ended
    ensures db.active <==> Started in db.stream && Ended !in db.stream
  {
    ActiveIsExact(db, at, accepted, started, closed);
    forall k: nat | k < |db.stream| && db.stream[k] == Ended
      ensures k == |db.stream| - 1
    {
      EndIsLast(db.stream, at, accepted, started, closed, k);
    }
  }

  const FIRST := Final(User, "1", "a")
  const SECOND := Final(User, "2", "b")

  method StartedCall() returns (p: Publisher)
    ensures fresh(p) && p.Valid() && p.worker == Idle && p.queue == p.accepted == [Started]
    ensures p.db == NO_KEYS && p.late == []
    ensures p.enabled && p.publishTranscripts && p.capacity == 3 && !p.closed && !p.marker
  {
    p := new Publisher(true, true, 3);
    p.Start();
  }

  /** A call with two messages, all queued. */
  method TwoMessages() returns (p: Publisher)
    ensures fresh(p) && p.Valid() && p.worker == Idle && p.queue == [Started, FIRST, SECOND]
    ensures p.accepted == p.queue && p.db == NO_KEYS && p.late == []
  {
    p := StartedCall();
    p.PublishTranscript(Some(User), "1", "a");
    assert p.queue == [Started, FIRST];
    p.PublishTranscript(Some(User), "2", "b");
  }

  /** The next event is published at once. */
  method PublishNext(p: Publisher, e: Event)
    requires p.Valid() && p.worker == Idle && p.queue != [] && p.queue[0] == e
    modifies p
    ensures p.Valid() && p.worker == Idle && p.queue == old(p.queue)[1..] && p.late == old(p.late)
    ensures p.accepted == old(p.accepted) && p.db == Script(old(p.db), e)
  {
    p.Get();
    p.Attempt(Replied);
  }

  /** An attempt times out, its script still to run. */
  method TimeOut(p: Publisher, e: Event, n: nat)
    requires p.Valid() && p.worker == Sending(e, n)
    modifies p
    ensures p.Valid() && p.worker == if n == 2 then Idle else Sending(e, n + 1)
    ensures p.queue == old(p.queue) && p.accepted == old(p.accepted) && p.db == old(p.db)
    ensures p.late == old(p.late) + [e]
  {
    p.Attempt(StillToRun);
  }

  /** The next event is given up, its scripts still to run. */
  method GiveUpNext(p: Publisher, e: Event)
    requires p.Valid() && p.worker == Idle && p.queue != [] && p.queue[0] == e
    modifies p
    ensures p.Valid() && p.worker == Idle && p.queue == old(p.queue)[1..] && p.db == old(p.db)
    ensures p.accepted == old(p.accepted) && p.late == old(p.late) + seq(3, _ => e)
  {
    p.Get();
    var n := 0;
    while n < 3
      invariant 0 <= n <= 3 && p.Valid() && p.worker == if n == 3 then Idle else Sending(e, n)
      invariant p.queue == old(p.queue)[1..] && p.db == old(p.db) && p.accepted == old(p.accepted)
      invariant p.late == old(p.late) + seq(n, _ => e)
    {
      TimeOut(p, e, n);
      n := n + 1;
    }
  }

  /** The first message is given up with its scripts still to run, and the second one published. */
  method SecondOnly() returns (p: Publisher)
    ensures fresh(p) && p.Valid() && p.accepted == [Started, FIRST, SECOND]
    ensures p.db == Script(Script(NO_KEYS, Started), SECOND) && p.late == seq(3, _ => FIRST)
  {
    p := TwoMessages();
    PublishNext(p, Started);
    GiveUpNext(p, FIRST);
    PublishNext(p, SECOND);
  }

  /** A late script can overtake: three attempts for the first of two messages time out, the second is
      published, and then one of the three runs. */
  method LateScriptOvertakes() returns (p: Publisher)
    ensures fresh(p) && p.Valid() && p.accepted == [Started, FIRST, SECOND]
    ensures p.db.stream == [Started, SECOND, FIRST]
  {
    ThreeTokens();
    p := SecondOnly();
    p.RunLate(0);
  }

  lemma ThreeTokens()
    ensures Token(FIRST) != Token(SECOND) && Token(FIRST) != Token(Started) && Token(SECOND) != Token(Started)
    ensures Script(Script(Script(NO_KEYS, Started), SECOND), FIRST).stream == [Started, SECOND, FIRST]
    ensures Token(FIRST) !in Script(NO_KEYS, Started).dedup && Token(SECOND) !in Script(NO_KEYS, Started).dedup
  {
    TokenInjective(FIRST, SECOND);
    TokenInjective(FIRST, Started);
    TokenInjective(SECOND, Started);
  }
}
