/** The billing reporter between awaits: who may send a usage report when, and what every report built
    during a call says. Each method is one stretch of the source that runs without awaiting; `Run` plays
    them in any order. */
module BillingReporter {
  import opened Basics

  /** `round(x, 3)` in thousandths, ties to even. */
  function RoundMillis(x: real): (m: int)
    ensures -0.5 <= m as real - x * 1000.0 <= 0.5
    ensures m as real - x * 1000.0 in {-0.5, 0.5} ==> m % 2 == 0
  {
    var whole := (x * 1000.0).Floor;
    var rest := x * 1000.0 - whole as real;
    if rest < 0.5 then whole
    else if rest > 0.5 then whole + 1
    else if whole % 2 == 0 then whole else whole + 1
  }

  lemma RoundMonotone(x: real, y: real)
    requires x <= y
    ensures RoundMillis(x) <= RoundMillis(y)
  {
    var a, b := x * 1000.0, y * 1000.0;
    assert a.Floor <= b.Floor;
  }

  datatype Payload = Payload(sequence: nat, connectedMillis: int, final: bool)

  /** `connectedSeconds` of a report built when the call has been up since `started`. */
  function Connected(started: real, at: real): (millis: int)
    ensures at <= started ==> millis == 0
    ensures at >= started ==> -0.5 <= millis as real - (at - started) * 1000.0 <= 0.5
  {
    RoundMillis(if at < started then 0.0 else at - started)
  }

  lemma ConnectedMonotone(started: real, a: real, b: real)
    requires a <= b
    ensures Connected(started, a) <= Connected(started, b)
  {
    RoundMonotone(if a < started then 0.0 else a - started, if b < started then 0.0 else b - started);
  }

  /** Where the close task is: not there; created; call marked as ended; its final report waits for the
      report lock; is being sent; done. */
  datatype Closing = Open | Scheduled | Ending | FinalWaiting | FinalSending | Done

  /** What all reports built so far say, as a whole: numbers count up from one, connected time never
      falls, and a final report has no successor. */
  ghost predicate Orderly(payloads: seq<Payload>) {
    && (forall k :: 0 <= k < |payloads| ==> payloads[k].sequence == k + 1)
    && (forall j, k :: 0 <= j <= k < |payloads| ==> payloads[j].connectedMillis <= payloads[k].connectedMillis)
    && (forall k :: 0 <= k < |payloads| && payloads[k].final ==> k == |payloads| - 1)
  }

  predicate EndsFinal(payloads: seq<Payload>) {
    payloads != [] && payloads[|payloads| - 1].final
  }

  /** No report is built after a final one, so there is at most one and it has the greatest number. */
  lemma OneFinal(payloads: seq<Payload>, j: nat, k: nat)
    requires Orderly(payloads) && j < |payloads| && k < |payloads|
    requires payloads[j].final
    ensures payloads[k].final <==> j == k
    ensures payloads[k].sequence <= payloads[j].sequence
  {
  }

  /** Times stay below the clock while the call lasts; from its end on they are all the same. */
  ghost predicate Timed(payloads: seq<Payload>, started: real, ended: Option<real>, builtBeforeEnd: nat, now: real) {
    match ended
    case None => forall k :: 0 <= k < |payloads| ==> payloads[k].connectedMillis <= Connected(started, now)
    case Some(e) =>
      && e <= now && builtBeforeEnd <= |payloads|
      && (forall k :: 0 <= k < |payloads| ==> payloads[k].connectedMillis <= Connected(started, e))
      && (forall k :: builtBeforeEnd <= k < |payloads| ==> payloads[k].connectedMillis == Connected(started, e))
  }

  lemma AppendReport(payloads: seq<Payload>, started: real, ended: Option<real>, builtBeforeEnd: nat, now: real,
          p: Payload)
    requires Orderly(payloads) && !EndsFinal(payloads) && Timed(payloads, started, ended, builtBeforeEnd, now)
    requires p.sequence == |payloads| + 1
    requires p.connectedMillis == Connected(started, if ended.Some? then ended.value else now)
    ensures Orderly(payloads + [p]) && Timed(payloads + [p], started, ended, builtBeforeEnd, now)
  {
  }

  datatype Event =
    | Tick(elapsed: real)
    | Ask
    | End
    | CloseCall
    | CloseTaskStarts
    | FinalAsked
    | Locked
    | FinalLocked(written: bool)
    | Settled(delivered: bool, written: bool)
    | ReportCancelled(holder: bool)
    | CloseCancelled
  {
    predicate Possible() { Tick? ==> elapsed >= 0.0 }

    /** The durable queue cannot be written. */
    predicate WriteRaises() { (FinalLocked? || Settled?) && !written }
  }

  datatype Config = Config(required: bool, enabled: bool, started: real)

  /** A reporter at one moment, and what each event makes of it. `builtBeforeEnd` counts the reports built
      when the call ended; the final report was `acknowledged`, or writing it to the queue raised and it is
      `unwritten`; the close task was cancelled and has been `cut`. */
  datatype View = View(now: real, ended: Option<real>, closed: bool, closing: Closing, waiting: nat, sending: bool,
                       payloads: seq<Payload>, queued: seq<Payload>, builtBeforeEnd: nat, acknowledged: bool,
                       unwritten: bool, cut: bool)
  {
    predicate LockFree() { !sending && closing != FinalSending }

    /** What becomes of the final report: unless it is acknowledged, or billing is not required, it is
        queued if and only if writing it does not raise. */
    predicate FinalFate(c: Config)
      requires payloads != []
    {
      && (acknowledged || !c.required ==> queued == [] && !unwritten)
      && (!acknowledged && c.required ==> queued == if unwritten then [] else [payloads[|payloads| - 1]])
    }

    predicate FinalIsHandled(c: Config) {
      && (closed <==> closing == Done)
      && (closing == FinalSending ==> EndsFinal(payloads) && !sending)
      && (EndsFinal(payloads) ==> closing == FinalSending || closed)
      && (closed && !cut ==> EndsFinal(payloads) && FinalFate(c))
      && (unwritten ==> closed && !cut) && (cut ==> closed)
      && (queued != [] ==> closed && c.required && EndsFinal(payloads) && queued == [payloads[|payloads| - 1]])
    }

    ghost predicate Good(c: Config) {
      && Orderly(payloads) && Timed(payloads, c.started, ended, builtBeforeEnd, now) && FinalIsHandled(c)
      && (closing in {Ending, FinalWaiting, FinalSending} ==> ended.Some?)
    }

    function Next(c: Config, final: bool): Payload {
      Payload(|payloads| + 1, Connected(c.started, if ended.Some? then ended.value else now), final)
    }

    function Built(c: Config, final: bool): View {
      this.(payloads := payloads + [Next(c, final)])
    }

    /** The reporter closes itself; the final report, the last one built, is queued when it was not
        delivered, billing is required and the write returns. */
    function Closed(c: Config, delivered: bool, written: bool): View
      requires payloads != []
    {
      var enqueues := !delivered && c.required;
      this.(closed := true, closing := Done, acknowledged := delivered, unwritten := enqueues && !written,
            queued := if enqueues && written then [payloads[|payloads| - 1]] else [])
    }

    function Asked(): View {
      if closed then this else this.(waiting := waiting + 1)
    }

    function Ended(): View {
      if ended.None? then this.(ended := Some(now), builtBeforeEnd := |payloads|) else this
    }

    function Began(): View {
      if closing != Scheduled then this else Ended().(closing := Ending)
    }

    function Moved(from: Closing, to: Closing): View {
      if closing == from then this.(closing := to) else this
    }

    function Acquired(c: Config): View {
      if waiting == 0 || !LockFree() then this
      else if closed then this.(waiting := waiting - 1)
      else Built(c, false).(waiting := waiting - 1, sending := c.enabled)
    }

    function FinalAcquired(c: Config, written: bool): View {
      if closing != FinalWaiting || !LockFree() then this
      else if c.enabled then Built(c, true).(closing := FinalSending)
      else Built(c, true).Closed(c, false, written)
    }

    function SettledAs(c: Config, delivered: bool, written: bool): View {
      if closing != FinalSending || payloads == [] then this.(sending := false) else Closed(c, delivered, written)
    }

    function WithoutReport(holder: bool): View {
      if holder then this.(sending := false) else if waiting > 0 then this.(waiting := waiting - 1) else this
    }

    function Cut(): View {
      if closing in {FinalWaiting, FinalSending} then this.(closed := true, closing := Done, cut := true) else this
    }

    function After(c: Config, e: Event): View {
      match e
      case Tick(elapsed) => this.(now := now + elapsed)
      case Ask => Asked()
      case End => Ended()
      case CloseCall => Moved(Open, Scheduled)
      case CloseTaskStarts => Began()
      case FinalAsked => Moved(Ending, FinalWaiting)
      case Locked => Acquired(c)
      case FinalLocked(written) => FinalAcquired(c, written)
      case Settled(delivered, written) => SettledAs(c, delivered, written)
      case ReportCancelled(holder) => WithoutReport(holder)
      case CloseCancelled => Cut()
    }
  }

  lemma BuiltIsTimed(c: Config, v: View, final: bool)
    requires v.Good(c) && !EndsFinal(v.payloads)
    ensures Orderly(v.Built(c, final).payloads) && EndsFinal(v.Built(c, final).payloads) == final
    ensures Timed(v.Built(c, final).payloads, c.started, v.ended, v.builtBeforeEnd, v.now)
  {
    AppendReport(v.payloads, c.started, v.ended, v.builtBeforeEnd, v.now, v.Next(c, final));
  }

  lemma AskedIsGood(c: Config, v: View)
    requires v.Good(c)
    ensures v.Asked().Good(c)
  {
  }

  lemma EndedIsGood(c: Config, v: View)
    requires v.Good(c)
    ensures v.Ended().Good(c)
  {
  }

  lemma BeganIsGood(c: Config, v: View)
    requires v.Good(c)
    ensures v.Began().Good(c)
  {
  }

  lemma WithoutReportIsGood(c: Config, v: View, holder: bool)
    requires v.Good(c)
    ensures v.WithoutReport(holder).Good(c)
  {
  }

  lemma CutIsGood(c: Config, v: View)
    requires v.Good(c)
    ensures v.Cut().Good(c)
  {
  }

  lemma SettledIsGood(c: Config, v: View, delivered: bool, written: bool)
    requires v.Good(c)
    ensures v.SettledAs(c, delivered, written).Good(c)
  {
  }

  lemma MovedIsGood(c: Config, v: View, from: Closing, to: Closing)
    requires v.Good(c) && (from, to) in {(Open, Scheduled), (Ending, FinalWaiting)}
    ensures v.Moved(from, to).Good(c)
  {
  }

  lemma TickIsGood(c: Config, v: View, elapsed: real)
    requires v.Good(c) && elapsed >= 0.0
    ensures v.(now := v.now + elapsed).Good(c)
  {
    ConnectedMonotone(c.started, v.now, v.now + elapsed);
  }

  lemma AcquiredIsGood(c: Config, v: View)
    requires v.Good(c)
    ensures v.Acquired(c).Good(c)
  {
    if v.waiting > 0 && v.LockFree() && !v.closed {
      BuiltIsTimed(c, v, false);
    }
  }

  lemma FinalAcquiredIsGood(c: Config, v: View, written: bool)
    requires v.Good(c)
    ensures v.FinalAcquired(c, written).Good(c)
  {
    if v.closing == FinalWaiting && v.LockFree() {
      BuiltIsTimed(c, v, true);
    }
  }

  /** Every event keeps numbers, times and the fate of the final report in order. */
  lemma EventKeepsGood(c: Config, v: View, e: Event)
    requires v.Good(c) && e.Possible()
    ensures v.After(c, e).Good(c)
  {
    match e
    case Tick(elapsed) => TickIsGood(c, v, elapsed);
    case Ask => AskedIsGood(c, v);
    case End => EndedIsGood(c, v);
    case CloseCall => MovedIsGood(c, v, Open, Scheduled);
    case CloseTaskStarts => BeganIsGood(c, v);
    case FinalAsked => MovedIsGood(c, v, Ending, FinalWaiting);
    case Locked => AcquiredIsGood(c, v);
    case FinalLocked(written) => FinalAcquiredIsGood(c, v, written);
    case Settled(delivered, written) => SettledIsGood(c, v, delivered, written);
    case ReportCancelled(holder) => WithoutReportIsGood(c, v, holder);
    case CloseCancelled => CutIsGood(c, v);
  }

  /** What one event, or many, may change for good. */
  ghost predicate Onward(v: View, w: View) {
    && v.payloads <= w.payloads
    && (v.ended.Some? ==> w.ended == v.ended && w.builtBeforeEnd == v.builtBeforeEnd)
    && (EndsFinal(v.payloads) ==> w.payloads == v.payloads)
  }

  lemma EventIsOnward(c: Config, v: View, e: Event)
    requires v.Good(c)
    ensures Onward(v, v.After(c, e))
    ensures v.After(c, e).unwritten ==> v.unwritten || e.WriteRaises()
  {
  }

  /** Time passes, the end is recorded once, a cancelled report gives the lock back, and a close task that
      is cancelled at its report closes the reporter. */
  lemma OtherEvents(c: Config, v: View, elapsed: real)
    ensures v.After(c, Tick(elapsed)) == v.(now := v.now + elapsed)
    ensures v.After(c, End).ended == if v.ended.Some? then v.ended else Some(v.now)
    ensures !v.After(c, ReportCancelled(true)).sending
    ensures v.closing in {FinalWaiting, FinalSending} ==> v.After(c, CloseCancelled).closed
  {
  }

  /** A report that is asked for while the lock is free is built at once. */
  lemma ReportGoesThrough(c: Config, v: View)
    requires !v.closed && v.LockFree()
    ensures v.After(c, Ask).After(c, Locked).payloads == v.payloads + [v.Next(c, false)]
    ensures v.After(c, Ask).After(c, Locked).sending == c.enabled
    ensures v.After(c, Ask).After(c, Locked).waiting == v.waiting
  {
    assert v.Asked().waiting > 0 && v.Asked().LockFree();
  }

  /** A close that nothing disturbs builds the final report, with the time of the close, sends it, and queues
      it if it must. */
  lemma CloseGoesThrough(c: Config, v: View, delivered: bool, written: bool)
    requires v.closing == Open && v.LockFree() && v.ended.None? && c.enabled
    ensures var asked := v.After(c, CloseCall).After(c, CloseTaskStarts).After(c, FinalAsked);
            var w := asked.After(c, FinalLocked(written)).After(c, Settled(delivered, written));
            var last := Payload(|v.payloads| + 1, Connected(c.started, v.now), true);
            && w.closed && w.payloads == v.payloads + [last] && w.acknowledged == delivered
            && w.queued == if !delivered && c.required && written then [last] else []
  {
    var ending := v.After(c, CloseCall).After(c, CloseTaskStarts);
    assert ending == v.(closing := Ending, ended := Some(v.now), builtBeforeEnd := |v.payloads|);
    var asked := ending.After(c, FinalAsked);
    assert asked.closing == FinalWaiting && asked.LockFree();
  }

  class Reporter {
    const required: bool
    const enabled: bool
    const started: real
    /** The monotonic clock. */
    var now: real
    var sequence: nat
    var ended: Option<real>
    var closed: bool
    var closing: Closing
    /** Calls of `report_now` for an ordinary report: how many wait for the report lock, and whether one
        holds it. */
    var waiting: nat
    var sending: bool
    /** Every payload built, and every payload handed to the durable queue. */
    var payloads: seq<Payload>
    var queued: seq<Payload>
    ghost var builtBeforeEnd: nat
    ghost var acknowledged: bool
    ghost var unwritten: bool
    ghost var cut: bool

    ghost function Settings(): Config
      reads this
    {
      Config(required, enabled, started)
    }

    ghost function Seen(): View
      reads this
    {
      View(now, ended, closed, closing, waiting, sending, payloads, queued, builtBeforeEnd, acknowledged, unwritten,
           cut)
    }

    ghost predicate Valid()
      reads this
    {
      |payloads| == sequence && Seen().Good(Settings())
    }

    constructor (required: bool, enabled: bool, connectedAt: Option<real>, clock: real)
      ensures Valid() && payloads == [] && queued == [] && ended == None && closing == Open && now == clock
      ensures this.required == required && this.enabled == enabled && LockFree()
      ensures started == if connectedAt.Some? then connectedAt.value else clock
    {
      this.required := required;
      this.enabled := enabled;
      started := if connectedAt.Some? then connectedAt.value else clock;
      now := clock;
      sequence := 0;
      ended := None;
      closed := false;
      closing := Open;
      waiting := 0;
      sending := false;
      payloads := [];
      queued := [];
      builtBeforeEnd := 0;
      acknowledged := false;
      unwritten := false;
      cut := false;
    }

    method Advance(elapsed: real)
      requires Valid() && elapsed >= 0.0
      modifies this`now
      ensures Valid() && Seen() == old(Seen()).(now := old(now) + elapsed)
    {
      TickIsGood(Settings(), Seen(), elapsed);
      ghost var after := Seen().(now := now + elapsed);
      now := now + elapsed;
      assert Seen() == after;
    }

    /** An ordinary report is asked for: by `authorize`, the periodic loop or anyone else. */
    method AskReport()
      requires Valid()
      modifies this`waiting
      ensures Valid() && Seen() == old(Seen()).Asked()
      ensures waiting == old(waiting) + if closed then 0 else 1
    {
      AskedIsGood(Settings(), Seen());
      ghost var after := Seen().Asked();
      if closed {
        assert Seen() == after;
        return;
      }
      waiting := waiting + 1;
      assert Seen() == after;
    }

    method MarkEnded()
      requires Valid()
      modifies this`ended, this`builtBeforeEnd
      ensures Valid() && Seen() == old(Seen()).Ended()
      ensures ended == if old(ended).None? then Some(now) else old(ended)
    {
      EndedIsGood(Settings(), Seen());
      ghost var after := Seen().Ended();
      if ended.None? {
        ended := Some(now);
        builtBeforeEnd := |payloads|;
      }
      assert Seen() == after;
    }

    /** `close`: any number of calls create one close task. */
    method Close()
      requires Valid()
      modifies this`closing
      ensures Valid() && Seen() == old(Seen()).Moved(Open, Scheduled)
      ensures closing == if old(closing) == Open then Scheduled else old(closing)
    {
      MovedIsGood(Settings(), Seen(), Open, Scheduled);
      ghost var after := Seen().Moved(Open, Scheduled);
      if closed {
        assert Seen() == after;
        return;
      }
      if closing == Open {
        closing := Scheduled;
      }
      assert Seen() == after;
    }

    /** The first stretch of the close task. */
    method BeginClosing()
      requires Valid()
      modifies this`closing, this`ended, this`builtBeforeEnd
      ensures Valid() && Seen() == old(Seen()).Began()
    {
      BeganIsGood(Settings(), Seen());
      ghost var after := Seen().Began();
      if closing != Scheduled {
        assert Seen() == after;
        return;
      }
      MarkEnded();
      closing := Ending;
      assert Seen() == after;
    }

    /** The periodic task is gone; the close task asks for the final report. */
    method AskFinal()
      requires Valid()
      modifies this`closing
      ensures Valid() && Seen() == old(Seen()).Moved(Ending, FinalWaiting)
    {
      MovedIsGood(Settings(), Seen(), Ending, FinalWaiting);
      ghost var after := Seen().Moved(Ending, FinalWaiting);
      if closing == Ending {
        closing := FinalWaiting;
      }
      assert Seen() == after;
    }

    /** The holder of the lock takes the next number and builds its payload. */
    method Build(final: bool)
      requires |payloads| == sequence
      modifies this`sequence, this`payloads
      ensures |payloads| == sequence && Seen() == old(Seen()).Built(Settings(), final)
    {
      sequence := sequence + 1;
      var at := if ended.Some? then ended.value else now;
      payloads := payloads + [Payload(sequence, Connected(started, at), final)];
    }

    predicate LockFree()
      reads this
    {
      !sending && closing != FinalSending
    }

    /** A report that waited goes on with the lock; it holds it while it is sent. */
    method TakeLock()
      requires |payloads| == sequence
      modifies this`waiting, this`sending, this`sequence, this`payloads
      ensures |payloads| == sequence && Seen() == old(Seen()).Acquired(Settings())
    {
      if waiting == 0 || !LockFree() {
        return;
      }
      waiting := waiting - 1;
      if closed {
        return;
      }
      Build(false);
      sending := enabled;
    }

    /** A waiting ordinary report gets the free lock, up to its first await. */
    method Acquire()
      requires Valid()
      modifies this`waiting, this`sending, this`sequence, this`payloads
      ensures Valid() && Seen() == old(Seen()).Acquired(Settings())
      ensures old(waiting == 0 || !LockFree()) ==> waiting == old(waiting) && payloads == old(payloads)
      ensures old(waiting > 0 && LockFree()) ==>
                var at := if ended.Some? then ended.value else now;
                && waiting == old(waiting) - 1 && sending == (enabled && !closed)
                && payloads == old(payloads) + if closed then [] else
                               [Payload(old(sequence) + 1, Connected(started, at), false)]
    {
      AcquiredIsGood(Settings(), Seen());
      TakeLock();
    }

    /** `_enqueue_final`. A write that raises is only logged. */
    method EnqueueFinal(written: bool)
      requires payloads != [] && queued == []
      modifies this`queued, this`unwritten
      ensures queued == if written then [payloads[|payloads| - 1]] else []
      ensures unwritten == !written
    {
      if written {
        queued := queued + [payloads[|payloads| - 1]];
      }
      unwritten := !written;
    }

    /** The close task ends: a final report that was not delivered goes to the durable queue when billing
        is required, and the reporter is closed. */
    method EndClosing(delivered: bool, written: bool)
      requires payloads != [] && queued == [] && !unwritten
      modifies this`queued, this`closed, this`closing, this`acknowledged, this`unwritten
      ensures Seen() == old(Seen()).Closed(Settings(), delivered, written)
    {
      acknowledged := delivered;
      if !delivered && required {
        EnqueueFinal(written);
      }
      closed := true;
      closing := Done;
    }

    /** The waiting final report gets the free lock. */
    method AcquireFinal(written: bool)
      requires Valid()
      modifies this`closing, this`closed, this`sequence, this`payloads, this`queued, this`acknowledged, this`unwritten
      ensures Valid() && Seen() == old(Seen()).FinalAcquired(Settings(), written)
      ensures old(closing == FinalWaiting && LockFree()) ==>
                && payloads == old(payloads) + [Payload(old(sequence) + 1, Connected(started, ended.value), true)]
                && (!enabled && required ==> queued == if written then [payloads[|payloads| - 1]] else [])
    {
      FinalAcquiredIsGood(Settings(), Seen(), written);
      ghost var after := Seen().FinalAcquired(Settings(), written);
      if closing != FinalWaiting || !LockFree() {
        assert Seen() == after;
        return;
      }
      Build(true);
      if enabled {
        closing := FinalSending;
      } else {
        EndClosing(false, written);
      }
      assert Seen() == after;
    }

    /** The report of the lock holder is delivered or given up. */
    method Settle(delivered: bool, written: bool)
      requires Valid()
      modifies this`sending, this`queued, this`closed, this`closing, this`acknowledged, this`unwritten
      ensures Valid() && LockFree() && Seen() == old(Seen()).SettledAs(Settings(), delivered, written)
      ensures old(closing) == FinalSending ==>
                && closed && acknowledged == delivered
                && queued == if !delivered && required && written then [payloads[|payloads| - 1]] else []
    {
      SettledIsGood(Settings(), Seen(), delivered, written);
      ghost var after := Seen().SettledAs(Settings(), delivered, written);
      if closing == FinalSending {
        EndClosing(delivered, written);
      } else {
        sending := false;
      }
      assert Seen() == after;
    }

    /** The caller of an ordinary report is cancelled while it holds the lock or waits for it. */
    method CancelReport(holder: bool)
      requires Valid()
      modifies this`sending, this`waiting
      ensures Valid() && Seen() == old(Seen()).WithoutReport(holder)
      ensures holder ==> !sending && waiting == old(waiting)
      ensures !holder ==> sending == old(sending) && waiting == if old(waiting) > 0 then old(waiting) - 1 else 0
    {
      WithoutReportIsGood(Settings(), Seen(), holder);
      ghost var after := Seen().WithoutReport(holder);
      if holder {
        sending := false;
      } else if waiting > 0 {
        waiting := waiting - 1;
      }
      assert Seen() == after;
    }

    /** The close task itself is cancelled: before its final report nothing else happens, from then on
        its end still closes the reporter. */
    method CancelClosing()
      requires Valid()
      modifies this`closed, this`closing, this`cut
      ensures Valid() && Seen() == old(Seen()).Cut()
      ensures closed == (old(closed) || old(closing) in {FinalWaiting, FinalSending})
    {
      CutIsGood(Settings(), Seen());
      ghost var after := Seen().Cut();
      if closing in {FinalWaiting, FinalSending} {
        closed := true;
        closing := Done;
        cut := true;
      }
      assert Seen() == after;
    }
  }

  method Step(r: Reporter, e: Event)
    requires r.Valid() && e.Possible()
    modifies r
    ensures r.Valid() && r.Seen() == old(r.Seen()).After(r.Settings(), e)
  {
    match e
    case Tick(elapsed) => r.Advance(elapsed);
    case Ask => r.AskReport();
    case End => r.MarkEnded();
    case CloseCall => r.Close();
    case CloseTaskStarts => r.BeginClosing();
    case FinalAsked => r.AskFinal();
    case Locked => r.Acquire();
    case FinalLocked(written) => r.AcquireFinal(written);
    case Settled(delivered, written) => r.Settle(delivered, written);
    case ReportCancelled(holder) => r.CancelReport(holder);
    case CloseCancelled => r.CancelClosing();
  }

  /** What a schedule changes: every event has its effect, in turn. */
  function AfterAll(c: Config, v: View, schedule: seq<Event>): View {
    if schedule == [] then v
    else AfterAll(c, v, schedule[..|schedule| - 1]).After(c, schedule[|schedule| - 1])
  }

  /** A write of the final report that raises. */
  ghost predicate SomeWriteRaises(schedule: seq<Event>) {
    exists k :: 0 <= k < |schedule| && schedule[k].WriteRaises()
  }

  lemma {:induction false} ScheduleIsOnward(c: Config, v: View, schedule: seq<Event>)
    requires v.Good(c) && forall k :: 0 <= k < |schedule| ==> schedule[k].Possible()
    ensures AfterAll(c, v, schedule).Good(c) && Onward(v, AfterAll(c, v, schedule))
    ensures AfterAll(c, v, schedule).unwritten ==> v.unwritten || SomeWriteRaises(schedule)
  {
    if schedule != [] {
      var n := |schedule| - 1;
      ScheduleIsOnward(c, v, schedule[..n]);
      EventKeepsGood(c, AfterAll(c, v, schedule[..n]), schedule[n]);
      EventIsOnward(c, AfterAll(c, v, schedule[..n]), schedule[n]);
      assert schedule[n].WriteRaises() ==> SomeWriteRaises(schedule);
      assert SomeWriteRaises(schedule[..n]) ==> SomeWriteRaises(schedule);
    }
  }

  method StepAll(r: Reporter, schedule: seq<Event>)
    requires r.Valid()
    requires forall k :: 0 <= k < |schedule| ==> schedule[k].Possible()
    modifies r
    ensures r.Valid() && r.Seen() == AfterAll(r.Settings(), old(r.Seen()), schedule)
  {
    for i := 0 to |schedule|
      invariant r.Valid() && r.Seen() == AfterAll(r.Settings(), old(r.Seen()), schedule[..i])
    {
      Step(r, schedule[i]);
      assert schedule[..i + 1][..i] == schedule[..i];
    }
    assert schedule[..|schedule|] == schedule;
  }

  /** Any interleaving of `authorize`, `report_now`, the periodic loop, `mark_ended` and `close`:
      sequence numbers count up from one, connected time never falls and stands still from the moment
      the call is marked as ended, a final report is the last one ever built, and of a reporter that got to
      close itself the final report, if billing is required and it is not acknowledged, is in the durable
      queue if and only if writing it there did not raise. */
  method Run(r: Reporter, schedule: seq<Event>)
    requires r.Valid()
    requires forall k :: 0 <= k < |schedule| ==> schedule[k].Possible()
    modifies r
    ensures r.Valid() && old(r.payloads) <= r.payloads && Orderly(r.payloads)
    ensures old(r.ended).Some? ==> r.ended == old(r.ended)
    ensures old(r.ended).Some? ==> forall k :: |old(r.payloads)| <= k < |r.payloads| ==>
              r.payloads[k].connectedMillis == Connected(r.started, old(r.ended).value)
    ensures old(EndsFinal(r.payloads)) ==> r.payloads == old(r.payloads)
    ensures r.closed && !r.cut ==> EndsFinal(r.payloads)
    ensures r.closed && !r.cut ==>
              r.queued == if r.required && !r.acknowledged && !r.unwritten
                          then [r.payloads[|r.payloads| - 1]] else []
    ensures r.unwritten ==> old(r.unwritten) || SomeWriteRaises(schedule)
    ensures r.Seen() == AfterAll(r.Settings(), old(r.Seen()), schedule)
  {
    ScheduleIsOnward(r.Settings(), r.Seen(), schedule);
    StepAll(r, schedule);
  }

  /** A final report that is lost: billing is required, sending is disabled, and the queue directory cannot
      be written. */
  method FinalLost() returns (r: Reporter)
    ensures r.Valid() && r.required && r.closed && !r.cut && !r.acknowledged
    ensures EndsFinal(r.payloads) && r.queued == []
  {
    r := new Reporter(true, false, None, 0.0);
    r.Close();
    r.BeginClosing();
    r.AskFinal();
    r.AcquireFinal(false);
  }
}
