/** The billing deadline: with billing required, how long a call can go on after an acknowledged usage
    report. Time is real and timers are exact; the server's answers are an oracle. */
module ReporterDeadline {
  import opened Basics

  const MAX_RESERVE_WINDOW := 60.0
  const MIN_TIMEOUT := 0.05

  datatype Settings = Settings(rawGap: real, rawInterval: real, rawBackoff: real, rawAttempts: int)
  {
    function Gap(): (gap: real)
      ensures 1.0 <= gap <= MAX_RESERVE_WINDOW - 5.0
      ensures 1.0 <= rawGap <= MAX_RESERVE_WINDOW - 5.0 ==> gap == rawGap
    {
      Min(MAX_RESERVE_WINDOW - 5.0, Max(1.0, rawGap))
    }

    function Interval(): (interval: real)
      ensures 0.001 <= interval <= Gap()
      ensures 0.001 <= rawInterval <= Gap() ==> interval == rawInterval
    {
      Min(Gap(), Max(0.001, rawInterval))
    }

    function Backoff(): (b: real)
      ensures b >= 0.0 && (rawBackoff >= 0.0 ==> b == rawBackoff)
    {
      Max(0.0, rawBackoff)
    }

    function Attempts(): (n: nat)
      ensures n >= 1 && (rawAttempts >= 1 ==> n == rawAttempts)
    {
      if rawAttempts < 1 then 1 else rawAttempts
    }
  }

  /** How the k-th request goes: an answer comes after some time, good or bad, or too late. */
  datatype Answer = Answer(after: real, acknowledged: bool, stop: bool)

  type Oracle = nat -> Answer

  ghost predicate IsOracle(server: Oracle) {
    forall k :: server(k).after >= 0.0
  }

  /** `_remaining_reporting_time` with billing required and a last success at `ack`. */
  function Remaining(cfg: Settings, ack: real, now: real): (r: real)
    ensures r >= 0.0 && (now >= ack ==> r <= cfg.Gap())
    ensures now >= ack ==> (r == 0.0 <==> now >= ack + cfg.Gap())
    ensures ack <= now <= ack + cfg.Gap() ==> now + r == ack + cfg.Gap()
  {
    Max(0.0, cfg.Gap() - Max(0.0, now - ack))
  }

  /** Where the call stands: still unreported since `ack`, reported again, or told to end. */
  datatype Outcome = Waiting | Acknowledged | StopRequested

  // ----- what a report is

  /** A report: the number of its first request, and when each of its attempts began. */
  datatype Report = Report(from: nat, times: seq<real>)

  function Deadline(cfg: Settings, ack: real): real {
    ack + cfg.Gap()
  }

  /** An attempt waits for its answer until the deadline, but at least for the minimal timeout. */
  function Timeout(cfg: Settings, ack: real, begun: real): real {
    Max(MIN_TIMEOUT, Deadline(cfg, ack) - begun)
  }

  /** When an attempt is over: its answer has come, or it has timed out. */
  ghost function Over(cfg: Settings, ack: real, answer: Answer, begun: real): real {
    begun + Min(answer.after, Timeout(cfg, ack, begun))
  }

  /** The acknowledgement came in time. */
  ghost predicate Heard(cfg: Settings, ack: real, answer: Answer, begun: real) {
    answer.acknowledged && answer.after <= Timeout(cfg, ack, begun)
  }

  /** The pause after attempt `k`; it doubles each time. */
  function Delay(cfg: Settings, k: nat): (d: real)
    ensures d >= 0.0
  {
    cfg.Backoff() * PowerOfTwo(k)
  }

  /** If there is an attempt after attempt `k`, that one was not heard of, there was time left, and the pause
      was as stated, but not beyond the deadline. */
  ghost predicate TriesAgain(cfg: Settings, ack: real, answers: Oracle, r: Report, k: nat) {
    k + 1 < |r.times| ==>
      && r.times[k] <= r.times[k + 1]
      && Resumes(cfg, ack, answers(r.from + k), r.times[k], k, r.times[k + 1])
  }

  ghost predicate Resumes(cfg: Settings, ack: real, answer: Answer, begun: real, k: nat, next: real) {
    var over := Over(cfg, ack, answer, begun);
    && !Heard(cfg, ack, answer, begun) && over < Deadline(cfg, ack)
    && next == Min(Deadline(cfg, ack), over + Delay(cfg, k))
  }

  ghost predicate Attempted(cfg: Settings, ack: real, answers: Oracle, r: Report) {
    0 < |r.times| <= cfg.Attempts() && forall k: nat :: TriesAgain(cfg, ack, answers, r, k)
  }

  ghost function LastAnswer(answers: Oracle, r: Report): Answer
    requires r.times != []
  {
    answers(r.from + |r.times| - 1)
  }

  ghost function EndOf(cfg: Settings, ack: real, answers: Oracle, r: Report): real
    requires r.times != []
  {
    Over(cfg, ack, LastAnswer(answers, r), r.times[|r.times| - 1])
  }

  ghost predicate Delivered(cfg: Settings, ack: real, answers: Oracle, r: Report)
    requires r.times != []
  {
    Heard(cfg, ack, LastAnswer(answers, r), r.times[|r.times| - 1])
  }

  /** A report made to the end: delivered by its last attempt, or given up after all attempts or at the
      deadline. */
  ghost predicate Made(cfg: Settings, ack: real, answers: Oracle, r: Report) {
    && Attempted(cfg, ack, answers, r)
    && (|| Delivered(cfg, ack, answers, r) || |r.times| == cfg.Attempts()
        || EndOf(cfg, ack, answers, r) >= Deadline(cfg, ack))
  }

  ghost function OutcomeOf(cfg: Settings, ack: real, answers: Oracle, r: Report): Outcome
    requires r.times != []
  {
    if Delivered(cfg, ack, answers, r) then Acknowledged
    else if EndOf(cfg, ack, answers, r) >= Deadline(cfg, ack) then StopRequested
    else Waiting
  }

  lemma OneMoreAttempt(cfg: Settings, ack: real, answers: Oracle, r: Report, now: real)
    requires |r.times| < cfg.Attempts()
    requires r.times != [] ==>
               && Attempted(cfg, ack, answers, r) && r.times[|r.times| - 1] <= now
               && Resumes(cfg, ack, LastAnswer(answers, r), r.times[|r.times| - 1], |r.times| - 1, now)
    ensures Attempted(cfg, ack, answers, Report(r.from, r.times + [now]))
  {
    var next := Report(r.from, r.times + [now]);
    forall k: nat ensures TriesAgain(cfg, ack, answers, next, k) {
      assert TriesAgain(cfg, ack, answers, r, k);
    }
  }

  /** One attempt, and whether it was heard of. */
  method TryOnce(cfg: Settings, ack: real, start: real, answer: Answer) returns (now: real, heard: bool)
    requires answer.after >= 0.0 && ack <= start <= Deadline(cfg, ack)
    ensures start <= now <= Deadline(cfg, ack) + MIN_TIMEOUT
    ensures now == Over(cfg, ack, answer, start) && (heard <==> Heard(cfg, ack, answer, start))
  {
    var timeout := Max(MIN_TIMEOUT, Remaining(cfg, ack, start));
    if answer.after <= timeout {
      now, heard := start + answer.after, answer.acknowledged;
    } else {
      now, heard := start + timeout, false;
    }
  }

  /** `_send_with_retry` for a report that is not final, sent asynchronously. It is acknowledged exactly when
      an acknowledgement came within the timeout of its attempt, and then nothing more is sent. */
  method SendWithRetry(cfg: Settings, ack: real, start: real, answers: Oracle, from: nat)
    returns (now: real, used: nat, acknowledged: bool, stop: bool, ghost r: Report)
    requires IsOracle(answers) && ack <= start <= Deadline(cfg, ack)
    ensures start <= now <= Deadline(cfg, ack) + MIN_TIMEOUT
    ensures Made(cfg, ack, answers, r) && r.from == from && r.times[0] == start
    ensures used == from + |r.times| && now == EndOf(cfg, ack, answers, r)
    ensures acknowledged <==> exists k :: 0 <= k < |r.times| && Heard(cfg, ack, answers(from + k), r.times[k])
    ensures acknowledged <==> Delivered(cfg, ack, answers, r)
    ensures stop <==> acknowledged && LastAnswer(answers, r).stop
  {
    now, used, acknowledged, stop := start, from, false, false;
    r := Report(from, []);
    var attempt := 0;
    while attempt < cfg.Attempts()
      invariant 0 <= attempt <= cfg.Attempts() && start <= now
      invariant now <= if attempt < cfg.Attempts() then Deadline(cfg, ack) else Deadline(cfg, ack) + MIN_TIMEOUT
      invariant used == from + attempt && !acknowledged && !stop
      invariant r.from == from && |r.times| == attempt
      invariant forall k :: 0 <= k < attempt ==> !Heard(cfg, ack, answers(from + k), r.times[k])
      invariant attempt == 0 ==> now == start
      invariant attempt > 0 ==> r.times[0] == start && Attempted(cfg, ack, answers, r) && r.times[attempt - 1] <= now
      invariant 0 < attempt < cfg.Attempts() ==>
                  Resumes(cfg, ack, LastAnswer(answers, r), r.times[attempt - 1], attempt - 1, now)
      invariant 0 < attempt == cfg.Attempts() ==> now == EndOf(cfg, ack, answers, r)
    {
      OneMoreAttempt(cfg, ack, answers, r, now);
      r := Report(from, r.times + [now]);
      var answer := answers(used);
      used := used + 1;
      now, acknowledged := TryOnce(cfg, ack, now, answer);
      if acknowledged {
        return now, used, true, answer.stop, r;
      }
      if attempt < cfg.Attempts() - 1 {
        var remaining := Remaining(cfg, ack, now);
        if remaining <= 0.0 {
          break;
        }
        now := now + Min(Delay(cfg, attempt), remaining);
      }
      attempt := attempt + 1;
    }
  }

  /** `report_now(final=False)`: stop when the server says so, or when the report failed and the gap is
      used up. */
  method ReportNow(cfg: Settings, ack: real, start: real, answers: Oracle, from: nat)
    returns (now: real, used: nat, outcome: Outcome, stopToo: bool, ghost r: Report)
    requires IsOracle(answers) && ack <= start <= Deadline(cfg, ack)
    ensures start <= now <= Deadline(cfg, ack) + MIN_TIMEOUT
    ensures Made(cfg, ack, answers, r) && r.from == from && r.times[0] == start
    ensures used == from + |r.times| && now == EndOf(cfg, ack, answers, r)
    ensures outcome == OutcomeOf(cfg, ack, answers, r)
    ensures stopToo <==> outcome == Acknowledged && LastAnswer(answers, r).stop
  {
    var acknowledged;
    now, used, acknowledged, stopToo, r := SendWithRetry(cfg, ack, start, answers, from);
    if acknowledged {
      outcome := Acknowledged;
    } else if Remaining(cfg, ack, now) <= 0.0 {
      outcome := StopRequested;
    } else {
      outcome := Waiting;
    }
  }

  /** How many whole intervals fit between a time and the deadline. */
  function IntervalsLeft(cfg: Settings, ack: real, now: real): int {
    ((ack + cfg.Gap() - now) / cfg.Interval()).Floor
  }

  lemma IntervalPasses(cfg: Settings, ack: real, now: real, later: real)
    requires now + cfg.Interval() <= later
    ensures IntervalsLeft(cfg, ack, later) < IntervalsLeft(cfg, ack, now)
  {
    var d, i := ack + cfg.Gap(), cfg.Interval();
    var x, y := d - now, d - later;
    assert x / i >= (y + i) / i by { DivMonotone(y + i, x, i); }
    DivOneMore(y, i);
  }

  lemma DivOneMore(y: real, i: real)
    requires i > 0.0
    ensures (y + i) / i == y / i + 1.0
  {
    var q := y / i;
    assert q * i == y;
    assert (q + 1.0) * i == y + i;
    Cancel(q + 1.0, y + i, i);
  }

  lemma Cancel(q: real, x: real, i: real)
    requires i > 0.0 && q * i == x
    ensures x / i == q
  {
  }

  lemma DivMonotone(a: real, b: real, i: real)
    requires a <= b && i > 0.0
    ensures a / i <= b / i
  {
  }

  lemma IntervalsNotNegative(cfg: Settings, ack: real, now: real)
    requires now <= ack + cfg.Gap()
    ensures IntervalsLeft(cfg, ack, now) >= 0
  {
    DivMonotone(0.0, ack + cfg.Gap() - now, cfg.Interval());
  }

  // ----- the reports since an acknowledged one

  /** When and with which request the next report may begin: by the loop's first wake-up, or within an
      interval of the end of the report before, which has neither been acknowledged nor used the gap up. */
  ghost predicate MayBegin(cfg: Settings, ack: real, wake: real, answers: Oracle, from: nat, reports: seq<Report>,
          at: real, request: nat)
  {
    if reports == [] then ack <= at <= wake && request == from
    else
      var last := reports[|reports| - 1];
      && last.times != [] && request == last.from + |last.times| && OutcomeOf(cfg, ack, answers, last) == Waiting
      && EndOf(cfg, ack, answers, last) <= at
      && (at <= wake || at <= EndOf(cfg, ack, answers, last) + cfg.Interval())
  }

  /** The reports since the one acknowledged at `ack`, in their order; the loop wakes up first at `wake`. */
  ghost predicate Since(cfg: Settings, ack: real, wake: real, answers: Oracle, from: nat, reports: seq<Report>) {
    forall i :: 0 <= i < |reports| ==>
      && Made(cfg, ack, answers, reports[i])
      && MayBegin(cfg, ack, wake, answers, from, reports[..i], reports[i].times[0], reports[i].from)
  }

  lemma OneMoreReport(cfg: Settings, ack: real, wake: real, answers: Oracle, from: nat, reports: seq<Report>, r: Report)
    requires Since(cfg, ack, wake, answers, from, reports) && Made(cfg, ack, answers, r)
    requires MayBegin(cfg, ack, wake, answers, from, reports, r.times[0], r.from)
    ensures Since(cfg, ack, wake, answers, from, reports + [r])
  {
    var more := reports + [r];
    forall i | 0 <= i < |more|
      ensures Made(cfg, ack, answers, more[i])
      ensures MayBegin(cfg, ack, wake, answers, from, more[..i], more[i].times[0], more[i].from)
    {
      assert more[..i] == reports[..i];
      assert i == |reports| ==> reports[..i] == reports;
    }
  }

  /** The last of these reports settles the matter so, at this time. */
  ghost predicate SettledBy(cfg: Settings, ack: real, answers: Oracle, reports: seq<Report>, outcome: Outcome, at: real,
          stopToo: bool)
  {
    reports != [] &&
    var last := reports[|reports| - 1];
    && last.times != [] && outcome == OutcomeOf(cfg, ack, answers, last) != Waiting
    && at == EndOf(cfg, ack, answers, last)
    && (stopToo <==> outcome == Acknowledged && LastAnswer(answers, last).stop)
  }

  /** The number of the next request after these reports. */
  ghost function EndRequest(reports: seq<Report>): nat
    requires reports != []
  {
    reports[|reports| - 1].from + |reports[|reports| - 1].times|
  }

  /** The last of these reports ended then and settled nothing; the next request has this number. Without a
      report since, it is the end of the acknowledged one. */
  ghost predicate Ready(cfg: Settings, ack: real, answers: Oracle, from: nat, reports: seq<Report>, end: real,
          request: nat)
  {
    if reports == [] then end == ack && request == from
    else
      var last := reports[|reports| - 1];
      && last.times != [] && request == EndRequest(reports) && OutcomeOf(cfg, ack, answers, last) == Waiting
      && end == EndOf(cfg, ack, answers, last)
  }

  /** The loop wakes up first at `first`, and after a report within an interval of its end. */
  ghost predicate InTime(cfg: Settings, first: real, reports: seq<Report>, end: real, at: real) {
    end <= at && (at <= first || (reports != [] && at <= end + cfg.Interval()))
  }

  /** The server acknowledges every request in the time that a report has for it which begins so long after
      the last acknowledged one. */
  ghost predicate Prompt(cfg: Settings, late: real, answers: Oracle) {
    forall k :: answers(k).acknowledged && answers(k).after <= Max(MIN_TIMEOUT, cfg.Gap() - late)
  }

  lemma SecondAfterWaiting(cfg: Settings, ack: real, wake: real, answers: Oracle, from: nat, reports: seq<Report>)
    requires Since(cfg, ack, wake, answers, from, reports) && reports != [] && reports[0].times != []
    ensures |reports| > 1 ==> OutcomeOf(cfg, ack, answers, reports[0]) == Waiting
  {
    if |reports| > 1 {
      assert reports[..1] == [reports[0]];
    }
  }

  /** Such a server is heard at once. */
  lemma PromptIsHeard(cfg: Settings, ack: real, wake: real, answers: Oracle, from: nat, reports: seq<Report>)
    requires Since(cfg, ack, wake, answers, from, reports) && reports != [] && Prompt(cfg, wake - ack, answers)
    ensures |reports| == 1 && |reports[0].times| == 1 && OutcomeOf(cfg, ack, answers, reports[0]) == Acknowledged
  {
    var r := reports[0];
    assert reports[..0] == [];
    assert Made(cfg, ack, answers, r) && Heard(cfg, ack, answers(r.from + 0), r.times[0]);
    assert TriesAgain(cfg, ack, answers, r, 0);
    SecondAfterWaiting(cfg, ack, wake, answers, from, reports);
  }

  /** One more report, after the last one that settled nothing. */
  method ReportMore(cfg: Settings, ack: real, ghost first: real, ghost end: real, start: real, answers: Oracle,
          ghost from: nat, request: nat, ghost before: seq<Report>)
    returns (now: real, used: nat, outcome: Outcome, stopToo: bool, ghost reports: seq<Report>)
    requires IsOracle(answers) && ack <= start <= Deadline(cfg, ack)
    requires Since(cfg, ack, first, answers, from, before)
    requires Ready(cfg, ack, answers, from, before, end, request) && InTime(cfg, first, before, end, start)
    ensures start <= now <= Deadline(cfg, ack) + MIN_TIMEOUT && used >= request
    ensures Since(cfg, ack, first, answers, from, reports) && |reports| == |before| + 1
    ensures outcome == Waiting ==> now < Deadline(cfg, ack) && Ready(cfg, ack, answers, from, reports, now, used)
    ensures outcome != Waiting ==> SettledBy(cfg, ack, answers, reports, outcome, now, stopToo)
    ensures outcome != Waiting ==> used == EndRequest(reports)
    ensures outcome == StopRequested ==> now >= Deadline(cfg, ack)
  {
    ghost var r;
    now, used, outcome, stopToo, r := ReportNow(cfg, ack, start, answers, request);
    OneMoreReport(cfg, ack, first, answers, from, before, r);
    reports := before + [r];
  }

  /** One that is asked for by the time the loop wakes up, or at once. */
  method AnotherReports(cfg: Settings, ack: real, ghost first: real, start: real, idle: real, ghost wake: real,
          answers: Oracle, ghost from: nat, request: nat, ghost before: seq<Report>)
    returns (now: real, used: nat, outcome: Outcome, stopToo: bool, ghost reports: seq<Report>)
    requires IsOracle(answers) && ack <= start < Deadline(cfg, ack) && wake <= Deadline(cfg, ack)
    requires idle <= 0.0 || start + idle <= wake
    requires Since(cfg, ack, first, answers, from, before) && Ready(cfg, ack, answers, from, before, start, request)
    requires InTime(cfg, first, before, start, Max(start, wake))
    ensures start <= now <= Deadline(cfg, ack) + MIN_TIMEOUT && used >= request
    ensures Since(cfg, ack, first, answers, from, reports) && |reports| == |before| + 1
    ensures outcome == Waiting ==>
              && now < Deadline(cfg, ack) && Ready(cfg, ack, answers, from, reports, now, used)
              && InTime(cfg, first, reports, now, Max(now, wake))
    ensures outcome != Waiting ==>
              SettledBy(cfg, ack, answers, reports, outcome, now, stopToo) && used == EndRequest(reports)
    ensures outcome == StopRequested ==> now >= Deadline(cfg, ack)
  {
    now, used, outcome, stopToo, reports :=
      ReportMore(cfg, ack, first, start, start + Max(0.0, idle), answers, from, request, before);
  }

  /** After so many reports the next, if there is one, is asked for after the loop wakes up. */
  ghost predicate NextIsLater(end: real, wake: real, idle: seq<real>, n: nat) {
    n <= |idle| && (n < |idle| ==> end + Max(0.0, idle[n]) > wake)
  }

  /** Reports that others ask for while the periodic loop sleeps or waits for the report lock, each after
      the pause that `idle` gives. They hold the lock one after the other; those asked for by the time the
      loop wakes up go before it. */
  method Meanwhile(cfg: Settings, ack: real, ghost first: real, start: real, wake: real, answers: Oracle,
          ghost from: nat, request: nat, idle: seq<real>, ghost before: seq<Report>)
    returns (now: real, used: nat, outcome: Outcome, stopToo: bool, ghost end: real, ghost reports: seq<Report>)
    requires IsOracle(answers) && ack <= start <= wake <= Deadline(cfg, ack)
    requires start < Deadline(cfg, ack)
    requires Since(cfg, ack, first, answers, from, before)
    requires Ready(cfg, ack, answers, from, before, start, request) && InTime(cfg, first, before, start, wake)
    ensures start <= now <= Deadline(cfg, ack) + MIN_TIMEOUT && used >= request
    ensures Since(cfg, ack, first, answers, from, reports)
    ensures outcome == Waiting ==>
              && |before| <= |reports| && wake <= now == Max(end, wake) <= Deadline(cfg, ack)
              && Ready(cfg, ack, answers, from, reports, end, used) && InTime(cfg, first, reports, end, now)
              && NextIsLater(end, wake, idle, |reports| - |before|)
    ensures outcome != Waiting ==>
              && |before| < |reports| && SettledBy(cfg, ack, answers, reports, outcome, now, stopToo)
              && used == EndRequest(reports)
    ensures outcome == StopRequested ==> now >= Deadline(cfg, ack)
  {
    now, used, outcome, stopToo, end, reports := start, request, Waiting, false, start, before;
    var k := 0;
    while outcome == Waiting && k < |idle| && (idle[k] <= 0.0 || now + idle[k] <= wake)
      invariant start <= now && used >= request && |reports| == |before| + k
      invariant Since(cfg, ack, first, answers, from, reports)
      invariant outcome == Waiting ==>
                  && k <= |idle| && now == end < Deadline(cfg, ack)
                  && Ready(cfg, ack, answers, from, reports, end, used)
                  && InTime(cfg, first, reports, end, Max(end, wake))
      invariant outcome != Waiting ==>
                  && 0 < k && now <= Deadline(cfg, ack) + MIN_TIMEOUT && used == EndRequest(reports)
                  && SettledBy(cfg, ack, answers, reports, outcome, now, stopToo)
      invariant outcome == StopRequested ==> now >= Deadline(cfg, ack)
    {
      now, used, outcome, stopToo, reports :=
        AnotherReports(cfg, ack, first, now, idle[k], wake, answers, from, used, reports);
      end := now;
      k := k + 1;
    }
    if outcome == Waiting {
      assert NextIsLater(end, wake, idle, k);
      now := Max(now, wake);
    }
  }

  /** One round of the loop: what others report meanwhile, and then its own report. */
  method OneRound(cfg: Settings, ack: real, ghost first: real, start: real, wake: real, answers: Oracle,
          ghost from: nat, request: nat, idle: seq<real>, ghost before: seq<Report>)
    returns (now: real, used: nat, outcome: Outcome, stopToo: bool, ghost reports: seq<Report>)
    requires IsOracle(answers) && ack <= start <= wake <= Deadline(cfg, ack)
    requires start < Deadline(cfg, ack)
    requires Since(cfg, ack, first, answers, from, before)
    requires Ready(cfg, ack, answers, from, before, start, request) && InTime(cfg, first, before, start, wake)
    ensures start <= now <= Deadline(cfg, ack) + MIN_TIMEOUT && used >= request
    ensures Since(cfg, ack, first, answers, from, reports) && |before| < |reports|
    ensures outcome == Waiting ==>
              && wake <= now < Deadline(cfg, ack) && Ready(cfg, ack, answers, from, reports, now, used)
    ensures outcome != Waiting ==>
              SettledBy(cfg, ack, answers, reports, outcome, now, stopToo) && used == EndRequest(reports)
    ensures outcome == StopRequested ==> now >= Deadline(cfg, ack)
  {
    ghost var end;
    now, used, outcome, stopToo, end, reports :=
      Meanwhile(cfg, ack, first, start, wake, answers, from, request, idle, before);
    if outcome == Waiting {
      now, used, outcome, stopToo, reports := ReportMore(cfg, ack, first, end, now, answers, from, used, reports);
    }
  }

  /** From an acknowledged report on, whether the periodic loop or another asked for it. The loop next
      wakes up at `firstWake`, and then after an interval or at the deadline; others report meanwhile.
      Whatever the server does, within the gap and one minimal timeout either a report is acknowledged or
      the call is told to end, and the loop gets there: it runs out of intervals. A server that acknowledges
      every request in time has its first acknowledgement heard. */
  method UntilSettled(cfg: Settings, ack: real, firstWake: real, answers: Oracle, from: nat, others: nat -> seq<real>)
    returns (now: real, used: nat, outcome: Outcome, stopToo: bool, ghost reports: seq<Report>)
    requires IsOracle(answers) && ack <= firstWake <= ack + cfg.Gap()
    ensures ack <= now <= ack + cfg.Gap() + MIN_TIMEOUT
    ensures outcome == StopRequested ==> now >= ack + cfg.Gap()
    ensures Since(cfg, ack, firstWake, answers, from, reports)
    ensures SettledBy(cfg, ack, answers, reports, outcome, now, stopToo) && used == EndRequest(reports)
    ensures Prompt(cfg, firstWake - ack, answers) ==> outcome == Acknowledged && |reports| == 1
  {
    now, used, outcome, stopToo, reports := ack, from, Waiting, false, [];
    var wake, round := firstWake, 0;
    while outcome == Waiting
      invariant ack <= now && used >= from
      invariant outcome == Waiting ==> now < ack + cfg.Gap() && now <= wake <= ack + cfg.Gap()
      invariant outcome == Waiting && round > 0 ==> wake == now + Min(cfg.Interval(), Remaining(cfg, ack, now))
      invariant outcome != Waiting ==> now <= ack + cfg.Gap() + MIN_TIMEOUT
      invariant outcome == StopRequested ==> now >= ack + cfg.Gap()
      invariant Since(cfg, ack, firstWake, answers, from, reports)
      invariant outcome == Waiting ==> Ready(cfg, ack, answers, from, reports, now, used)
      invariant outcome == Waiting ==> InTime(cfg, firstWake, reports, now, wake)
      invariant outcome != Waiting ==> SettledBy(cfg, ack, answers, reports, outcome, now, stopToo)
      invariant outcome != Waiting ==> used == EndRequest(reports)
      decreases if outcome == Waiting then 1 else 0, if round == 0 then 1 else 0, IntervalsLeft(cfg, ack, now)
    {
      ghost var before := now;
      now, used, outcome, stopToo, reports :=
        OneRound(cfg, ack, firstWake, now, wake, answers, from, used, others(round), reports);
      if outcome == Waiting {
        if round > 0 {
          IntervalPasses(cfg, ack, before, now);
        }
        IntervalsNotNegative(cfg, ack, now);
        wake := now + Min(cfg.Interval(), Remaining(cfg, ack, now));
      }
      round := round + 1;
    }
    if Prompt(cfg, firstWake - ack, answers) {
      PromptIsHeard(cfg, ack, firstWake, answers, from, reports);
    }
  }

  /** Each acknowledged report comes within the gap and one minimal timeout of the one before, and so inside
      the reserve window. */
  ghost predicate Spaced(cfg: Settings, acks: seq<real>) {
    forall i :: 0 < i < |acks| ==>
      acks[i - 1] <= acks[i] <= acks[i - 1] + cfg.Gap() + MIN_TIMEOUT && acks[i] - acks[i - 1] < MAX_RESERVE_WINDOW
  }

  lemma SpacedMore(cfg: Settings, acks: seq<real>, next: real)
    requires acks != [] && Spaced(cfg, acks)
    requires acks[|acks| - 1] <= next <= acks[|acks| - 1] + cfg.Gap() + MIN_TIMEOUT
    ensures Spaced(cfg, acks + [next])
  {
  }

  /** How long the loop sleeps first after an acknowledgement. */
  function FirstPause(cfg: Settings, pause: real): real {
    Min(cfg.Gap(), Max(0.0, pause))
  }

  /** The reports from one acknowledged report to the next, or to the end of the call. */
  datatype Stretch = Stretch(from: nat, reports: seq<Report>, outcome: Outcome, end: real, stopToo: bool)

  ghost predicate IsStretch(cfg: Settings, ack: real, pause: real, answers: Oracle, s: Stretch) {
    && Since(cfg, ack, ack + pause, answers, s.from, s.reports)
    && SettledBy(cfg, ack, answers, s.reports, s.outcome, s.end, s.stopToo)
  }

  /** Where a stretch begins: at the acknowledgement that ended the one before, which asked for no stop, and
      with the request after it. */
  ghost predicate Begins(first: real, before: seq<Stretch>, ack: real, from: nat) {
    if before == [] then ack == first && from == 0
    else
      var last := before[|before| - 1];
      && last.outcome == Acknowledged && !last.stopToo && ack == last.end
      && last.reports != [] && from == EndRequest(last.reports)
  }

  ghost predicate StretchFits(cfg: Settings, pauses: nat -> real, answers: Oracle, first: real, before: seq<Stretch>,
          s: Stretch)
  {
    exists ack ::
      Begins(first, before, ack, s.from) && IsStretch(cfg, ack, FirstPause(cfg, pauses(|before|)), answers, s)
  }

  /** The stretches of a call follow one another. */
  ghost predicate AreStretches(cfg: Settings, first: real, pauses: nat -> real, answers: Oracle, ss: seq<Stretch>) {
    forall i :: 0 <= i < |ss| ==> StretchFits(cfg, pauses, answers, first, ss[..i], ss[i])
  }

  lemma OneMoreStretch(cfg: Settings, first: real, pauses: nat -> real, answers: Oracle, ss: seq<Stretch>, s: Stretch)
    requires AreStretches(cfg, first, pauses, answers, ss) && StretchFits(cfg, pauses, answers, first, ss, s)
    ensures AreStretches(cfg, first, pauses, answers, ss + [s])
  {
    var more := ss + [s];
    forall i | 0 <= i < |more|
      ensures StretchFits(cfg, pauses, answers, first, more[..i], more[i])
    {
      assert more[..i] == ss[..i];
      assert i == |ss| ==> ss[..i] == ss;
    }
  }

  /** From an acknowledgement to the next, or to the end of the call. */
  method NextStretch(cfg: Settings, ghost first: real, ack: real, answers: Oracle, pauses: nat -> real, n: nat,
          others: nat -> seq<real>, from: nat, ghost before: seq<Stretch>)
    returns (end: real, used: nat, outcome: Outcome, stopToo: bool, ghost ss: seq<Stretch>)
    requires IsOracle(answers) && n == |before|
    requires AreStretches(cfg, first, pauses, answers, before) && Begins(first, before, ack, from)
    ensures ack <= end <= Deadline(cfg, ack) + MIN_TIMEOUT && outcome != Waiting
    ensures AreStretches(cfg, first, pauses, answers, ss) && |ss| == n + 1 && before <= ss
    ensures ss[n].outcome == outcome && ss[n].end == end && ss[n].stopToo == stopToo
    ensures outcome == Acknowledged && !stopToo ==> Begins(first, ss, end, used)
    ensures Prompt(cfg, FirstPause(cfg, pauses(n)), answers) ==> outcome == Acknowledged
    ensures NeverStops(answers) ==> !stopToo
  {
    ghost var reports;
    end, used, outcome, stopToo, reports :=
      UntilSettled(cfg, ack, ack + FirstPause(cfg, pauses(n)), answers, from, others);
    ghost var s := Stretch(from, reports, outcome, end, stopToo);
    assert IsStretch(cfg, ack, FirstPause(cfg, pauses(n)), answers, s);
    OneMoreStretch(cfg, first, pauses, answers, before, s);
    ss := before + [s];
  }

  ghost predicate NeverStops(answers: Oracle) {
    forall k :: !answers(k).stop
  }

  /** These acknowledgements after the first end these stretches. */
  ghost predicate EndsOf(acks: seq<real>, ss: seq<Stretch>) {
    forall i :: 0 < i < |acks| ==> i <= |ss| && acks[i] == ss[i - 1].end && ss[i - 1].outcome == Acknowledged
  }

  lemma EndsMore(acks: seq<real>, before: seq<Stretch>, ss: seq<Stretch>)
    requires acks != [] && EndsOf(acks, before) && before <= ss && |before| == |acks| - 1 < |ss|
    ensures EndsOf(acks, ss)
    ensures ss[|before|].outcome == Acknowledged ==> EndsOf(acks + [ss[|before|].end], ss)
  {
    forall i | 0 < i < |acks|
      ensures acks[i] == ss[i - 1].end && ss[i - 1].outcome == Acknowledged
    {
      assert ss[i - 1] == before[i - 1];
    }
  }

  /** A call so far: its acknowledged reports, the first at `first`, and the stretches between them. */
  ghost predicate Watching(cfg: Settings, first: real, pauses: nat -> real, answers: Oracle, acks: seq<real>,
          ss: seq<Stretch>)
  {
    && acks != [] && acks[0] == first && Spaced(cfg, acks)
    && AreStretches(cfg, first, pauses, answers, ss) && |ss| == |acks| - 1 && EndsOf(acks, ss)
  }

  /** A call that is told to end, or goes on. It is told to end exactly when the last acknowledgement says so
      or the gap is used up without one. */
  ghost predicate Watched(cfg: Settings, first: real, pauses: nat -> real, answers: Oracle, acks: seq<real>,
          ss: seq<Stretch>, stopped: bool, end: real)
  {
    && acks != [] && acks[0] == first && Spaced(cfg, acks)
    && acks[|acks| - 1] <= end <= Deadline(cfg, acks[|acks| - 1]) + MIN_TIMEOUT
    && end - acks[|acks| - 1] < MAX_RESERVE_WINDOW
    && AreStretches(cfg, first, pauses, answers, ss) && |acks| - 1 <= |ss| <= |acks| && EndsOf(acks, ss)
    && (|ss| < |acks| ==> end == acks[|acks| - 1])
    && (|ss| == |acks| ==> ss[|ss| - 1].outcome == StopRequested && ss[|ss| - 1].end == end)
    && (stopped <==> ss != [] && (ss[|ss| - 1].outcome == StopRequested || ss[|ss| - 1].stopToo))
  }

  lemma GoesOn(cfg: Settings, first: real, pauses: nat -> real, answers: Oracle, acks: seq<real>, ss: seq<Stretch>,
          more: seq<Stretch>)
    requires Watching(cfg, first, pauses, answers, acks, ss)
    requires AreStretches(cfg, first, pauses, answers, more) && |more| == |ss| + 1 && ss <= more
    requires acks[|acks| - 1] <= more[|ss|].end <= Deadline(cfg, acks[|acks| - 1]) + MIN_TIMEOUT
    requires more[|ss|].outcome == Acknowledged
    ensures Watching(cfg, first, pauses, answers, acks + [more[|ss|].end], more)
    ensures Watched(cfg, first, pauses, answers, acks + [more[|ss|].end], more, more[|ss|].stopToo, more[|ss|].end)
  {
    SpacedMore(cfg, acks, more[|ss|].end);
    EndsMore(acks, ss, more);
  }

  lemma GivesUp(cfg: Settings, first: real, pauses: nat -> real, answers: Oracle, acks: seq<real>, ss: seq<Stretch>,
          more: seq<Stretch>)
    requires Watching(cfg, first, pauses, answers, acks, ss)
    requires AreStretches(cfg, first, pauses, answers, more) && |more| == |ss| + 1 && ss <= more
    requires acks[|acks| - 1] <= more[|ss|].end <= Deadline(cfg, acks[|acks| - 1]) + MIN_TIMEOUT
    requires more[|ss|].outcome == StopRequested
    ensures Watched(cfg, first, pauses, answers, acks, more, true, more[|ss|].end)
  {
    EndsMore(acks, ss, more);
  }

  /** A call from its first acknowledged report: at most `rounds` acknowledged reports later, or when it
      is told to end. No stretch between two acknowledgements, and none before the end, exceeds the gap
      by more than the minimal timeout; it always stays inside the reserve window. `pauses` says when the
      loop wakes up first after each acknowledgement, `others` what others report in each round. A server
      that acknowledges every request in time and never asks for a stop keeps the call going. */
  method Watch(cfg: Settings, first: real, answers: Oracle, pauses: nat -> real, others: (nat, nat) -> seq<real>,
          rounds: nat)
    returns (acks: seq<real>, stopped: bool, end: real, ghost ss: seq<Stretch>)
    requires IsOracle(answers)
    ensures Watched(cfg, first, pauses, answers, acks, ss, stopped, end)
    ensures |acks| <= rounds + 1 && (!stopped ==> |acks| == rounds + 1)
    ensures (forall n :: Prompt(cfg, FirstPause(cfg, pauses(n)), answers)) && NeverStops(answers) ==> !stopped
  {
    acks, stopped, end, ss := [first], false, first, [];
    var used := 0;
    while |acks| <= rounds
      invariant |acks| <= rounds + 1 && Watching(cfg, first, pauses, answers, acks, ss)
      invariant Watched(cfg, first, pauses, answers, acks, ss, false, end) && end == acks[|acks| - 1]
      invariant Begins(first, ss, end, used)
      decreases rounds + 1 - |acks|
    {
      var outcome, stopToo;
      ghost var before := ss;
      end, used, outcome, stopToo, ss :=
        NextStretch(cfg, first, end, answers, pauses, |acks| - 1, (r: nat) => others(|acks| - 1, r), used, ss);
      if outcome == StopRequested {
        GivesUp(cfg, first, pauses, answers, acks, before, ss);
        return acks, true, end, ss;
      }
      GoesOn(cfg, first, pauses, answers, acks, before, ss);
      acks := acks + [end];
      if stopToo {
        return acks, true, end, ss;
      }
    }
  }
}
