/** The inactivity guard of a call: two timers that run only while the agent listens, a warning, a
    hang-up, and a limit on the whole call. Time is real and timers are exact. */
module CallLimitGuard {
  import opened Basics

  /** What the guard does, in the order it does it: the user was active; the warning was spoken after so
      much listening; the silence ran out; a stop was asked for. */
  datatype Note =
    | Active(at: real)
    | Warned(at: real, listened: real)
    | Expired(at: real)
    | Stopped(at: real, reason: string)

  /** The k-th note is a warning that no activity has answered since. */
  ghost predicate StandingWarning(log: seq<Note>, k: int) {
    0 <= k < |log| && log[k].Warned? && forall j :: k < j < |log| ==> !log[j].Active?
  }

  /** Every warning comes after two thirds of the timeout spent listening; silence runs out one third
      of the timeout after a warning that nobody answered; at most one stop is asked for. */
  ghost predicate Truthful(log: seq<Note>, timeout: real) {
    && (forall k :: 0 <= k < |log| && log[k].Warned? ==> log[k].listened == 2.0 * timeout / 3.0)
    && (forall k :: 0 <= k < |log| && log[k].Expired? ==> WarnedBefore(log, k, timeout))
    && (forall j, k :: 0 <= j < |log| && 0 <= k < |log| && log[j].Stopped? && log[k].Stopped? ==> j == k)
  }

  ghost predicate WarnedBefore(log: seq<Note>, k: int, timeout: real)
    requires 0 <= k < |log|
  {
    exists j :: 0 <= j < k && StandingWarning(log[..k], j) && log[k].at == log[j].at + timeout / 3.0
  }

  ghost predicate NoStop(log: seq<Note>) {
    forall k :: 0 <= k < |log| ==> !log[k].Stopped?
  }

  lemma Append(log: seq<Note>, timeout: real, note: Note)
    requires Truthful(log, timeout)
    requires note.Warned? ==> note.listened == 2.0 * timeout / 3.0
    requires note.Expired? ==> exists j :: StandingWarning(log, j) && note.at == log[j].at + timeout / 3.0
    requires note.Stopped? ==> NoStop(log)
    ensures Truthful(log + [note], timeout)
    ensures note.Warned? ==> StandingWarning(log + [note], |log|)
    ensures !note.Active? ==> forall j :: StandingWarning(log, j) ==> StandingWarning(log + [note], j)
    ensures !note.Stopped? && NoStop(log) ==> NoStop(log + [note])
  {
    var after := log + [note];
    assert after[..|log|] == log;
    forall k | 0 <= k < |after| && after[k].Expired?
      ensures WarnedBefore(after, k, timeout)
    {
      if k < |log| {
        assert WarnedBefore(log, k, timeout);
        assert after[..k] == log[..k];
      } else {
        var j :| StandingWarning(log, j) && note.at == log[j].at + timeout / 3.0;
        assert StandingWarning(after[..k], j);
      }
    }
  }

  /** The inactivity timers against the clock. `listened` is the time the agent has really spent
      listening since the user was last active. */
  datatype Timers = Timers(listening: bool, warningSent: bool, warnLeft: real, hangLeft: real,
                           startedAt: Option<real>, warnAt: Option<real>, hangAt: Option<real>)

  ghost predicate Exact(t: Timers, timeout: real, now: real, listened: real) {
    if !t.warningSent then
      if t.listening then
        && t.startedAt.Some? && t.startedAt.value <= now
        && t.warnAt == Some(t.startedAt.value + t.warnLeft) && t.hangAt == Some(t.startedAt.value + t.hangLeft)
        && t.hangLeft == t.warnLeft + timeout / 3.0
        && listened + (t.hangAt.value - now) == timeout
        && now <= t.warnAt.value
      else
        && t.startedAt == None && t.warnAt == None && t.hangAt == None
        && t.hangLeft == t.warnLeft + timeout / 3.0 && t.warnLeft >= 0.0
        && listened + t.hangLeft == timeout
    else
      t.startedAt.Some? && t.warnAt == None && (t.hangAt.Some? ==> now <= t.hangAt.value)
  }

  /** `_start_inactivity_timer` from a standstill before the warning. */
  function Started(t: Timers, now: real): Timers {
    t.(startedAt := Some(now), warnAt := Some(now + t.warnLeft), hangAt := Some(now + t.hangLeft))
  }

  /** `_cancel_inactivity_timers`. */
  function Cancelled(t: Timers): Timers {
    t.(startedAt := None, warnAt := None, hangAt := None)
  }

  /** The clock moves on, but not past a timer that is due. */
  predicate MayAdvance(now: real, timers: Timers, durationAt: Option<real>, elapsed: real) {
    && elapsed >= 0.0
    && (timers.warnAt.Some? ==> now + elapsed <= timers.warnAt.value)
    && (timers.hangAt.Some? ==> now + elapsed <= timers.hangAt.value)
    && (durationAt.Some? ==> now + elapsed <= durationAt.value)
  }

  datatype Event =
    | Pass(elapsed: real)
    | AgentState(listening: bool)
    | Speech
    | Dtmf(identity: string)
    | WarnTimer
    | HangTimer
    | DurationTimer
    | SessionClosed
    | GuardClosed

  datatype Config = Config(timeout: real, participant: string)

  /** A guard at one moment, and what each event makes of it. */
  datatype View = View(now: real, closed: bool, timers: Timers, durationAt: Option<real>, stop: Option<string>,
                       listened: real, log: seq<Note>)
  {
    function Later(elapsed: real): View {
      this.(now := now + elapsed, listened := if timers.listening then listened + elapsed else listened)
    }

    function Noted(note: Note): View {
      this.(log := log + [note])
    }

    function Refreshed(c: Config): View {
      if closed then this
      else
        var full := Cancelled(timers).(warningSent := false, warnLeft := c.timeout * (2.0 / 3.0),
                                       hangLeft := c.timeout);
        Noted(Active(now)).(listened := 0.0, timers := if timers.listening then Started(full, now) else full)
    }

    function Pressed(c: Config, identity: string): View {
      if c.participant != "" && identity != c.participant then this else Refreshed(c)
    }

    /** A pause keeps what is left. */
    function Paused(): Timers {
      var elapsed := if timers.startedAt.Some? then Max(0.0, now - timers.startedAt.value) else 0.0;
      Cancelled(timers).(listening := false, warnLeft := Max(0.0, timers.warnLeft - elapsed),
                         hangLeft := Max(0.0, timers.hangLeft - elapsed))
    }

    function Heard(listening: bool): View {
      if closed || listening == timers.listening then this
      else if timers.warningSent then this.(timers := timers.(listening := listening))
      else this.(timers := if listening then Started(timers, now).(listening := true) else Paused())
    }

    function HasWarned(): View {
      Noted(Warned(now, listened)).(timers := timers.(warnAt := None, warnLeft := 0.0, warningSent := true))
    }

    function Stopping(reason: string): View {
      if closed || stop.Some? then this else Noted(Stopped(now, reason)).(stop := Some(reason))
    }

    function HasExpired(): View {
      Noted(Expired(now)).Stopping("silence_timeout").(timers := timers.(hangAt := None))
    }

    function HasOverrun(): View {
      Stopping("max_call_duration").(durationAt := None)
    }

    function Off(): View {
      if closed then this else this.(closed := true, durationAt := None, timers := Cancelled(timers))
    }

    function After(c: Config, e: Event): View {
      match e
      case Pass(elapsed) => if MayAdvance(now, timers, durationAt, elapsed) then Later(elapsed) else this
      case AgentState(listening) => Heard(listening)
      case Speech => Refreshed(c)
      case Dtmf(identity) => Pressed(c, identity)
      case WarnTimer => if timers.warnAt == Some(now) then HasWarned() else this
      case HangTimer => if timers.hangAt == Some(now) then HasExpired() else this
      case DurationTimer => if durationAt == Some(now) then HasOverrun() else this
      case SessionClosed => if closed then this else Stopping("session_closed").Off()
      case GuardClosed => Off()
    }
  }

  /** The agent listens and nobody says anything: the warning comes after two thirds of the timeout, and after
      the last third the call is told to end. */
  lemma SilenceEndsTheCall(c: Config, v: View)
    requires c.timeout > 0.0 && !v.closed && v.stop.None? && !v.timers.listening && !v.timers.warningSent
    requires v.timers.warnLeft == 2.0 * c.timeout / 3.0 && v.timers.hangLeft == c.timeout && v.listened == 0.0
    requires v.durationAt.Some? && v.now + c.timeout <= v.durationAt.value
    ensures var warned := v.After(c, AgentState(true)).After(c, Pass(2.0 * c.timeout / 3.0)).After(c, WarnTimer);
            var w := warned.After(c, Pass(c.timeout / 3.0)).After(c, HangTimer);
            && w.stop == Some("silence_timeout")
            && w.log == v.log + [Warned(v.now + 2.0 * c.timeout / 3.0, 2.0 * c.timeout / 3.0),
                                 Expired(v.now + c.timeout), Stopped(v.now + c.timeout, "silence_timeout")]
  {
    var heard := v.After(c, AgentState(true));
    assert heard == v.(timers := Started(v.timers, v.now).(listening := true));
    var later := heard.After(c, Pass(2.0 * c.timeout / 3.0));
    assert later == heard.(now := v.now + 2.0 * c.timeout / 3.0, listened := 2.0 * c.timeout / 3.0);
    var warned := later.After(c, WarnTimer);
    assert warned == later.HasWarned();
    var last := warned.After(c, Pass(c.timeout / 3.0));
    assert last == warned.(now := v.now + c.timeout, listened := c.timeout);
    assert last.After(c, HangTimer) == last.HasExpired();
  }

  /** Speech, and keys of the caller, take the warning back and restore the full timeout; keys of anybody
      else change nothing when the caller is known. */
  lemma ActivityIsHeard(c: Config, v: View, e: Event)
    requires !v.closed && (e.Speech? || e.Dtmf?)
    ensures e.Dtmf? && c.participant != "" && e.identity != c.participant ==> v.After(c, e) == v
    ensures e.Speech? || c.participant in {"", e.identity} ==>
              var w := v.After(c, e);
              && w.listened == 0.0 && !w.timers.warningSent && w.log == v.log + [Active(v.now)]
              && w.timers.hangLeft == c.timeout && w.timers.warnLeft == 2.0 * c.timeout / 3.0
              && w.timers.hangAt == if v.timers.listening then Some(v.now + c.timeout) else None
  {
  }

  /** An open guard asks for the stop, with its reason, when the limit on the whole call is reached or the
      session is closed, and is closed then or when it is told to. */
  lemma EndsForAReason(c: Config, v: View)
    requires !v.closed && v.stop.None?
    ensures v.durationAt == Some(v.now) ==> v.After(c, DurationTimer).stop == Some("max_call_duration")
    ensures v.After(c, SessionClosed).stop == Some("session_closed") && v.After(c, SessionClosed).closed
    ensures v.After(c, GuardClosed).stop == None && v.After(c, GuardClosed).closed
  {
  }

  class Guard {
    const timeout: real
    const participant: string
    var now: real
    var closed: bool
    var timers: Timers
    var durationAt: Option<real>
    /** The reason of the one stop task. */
    var stop: Option<string>
    ghost var listened: real
    ghost var log: seq<Note>
    /** The note of the standing warning. */
    ghost var warning: nat

    ghost function Settings(): Config
      reads this
    {
      Config(timeout, participant)
    }

    ghost function Seen(): View
      reads this
    {
      View(now, closed, timers, durationAt, stop, listened, log)
    }

    ghost predicate Armed()
      reads this
    {
      && Exact(timers, timeout, now, listened)
      && (timers.warningSent ==>
            if timers.hangAt.Some?
            then StandingWarning(log, warning) && timers.hangAt == Some(log[warning].at + timeout / 3.0)
            else stop.Some?)
      && (if durationAt.Some? then now <= durationAt.value else stop.Some?)
    }

    ghost predicate Valid()
      reads this
    {
      && timeout > 0.0 && Truthful(log, timeout) && (stop.None? <==> NoStop(log))
      && (if closed then durationAt == None && timers == Cancelled(timers) else Armed())
    }

    constructor (timeout: real, participant: string, maxDuration: real, connectedAt: real, clock: real)
      requires timeout > 0.0
      ensures Valid() && !closed && stop == None && log == [] && now == clock && listened == 0.0 && !timers.listening
      ensures this.timeout == timeout && this.participant == participant
      ensures durationAt.Some? && durationAt.value == clock + Max(0.0, maxDuration - (clock - connectedAt))
    {
      this.timeout := timeout;
      this.participant := participant;
      now := clock;
      closed := false;
      timers := Timers(false, false, timeout * (2.0 / 3.0), timeout, None, None, None);
      durationAt := Some(clock + Max(0.0, maxDuration - (clock - connectedAt)));
      stop := None;
      listened := 0.0;
      log := [];
      warning := 0;
    }

    method Advance(elapsed: real)
      requires Valid() && MayAdvance(now, timers, durationAt, elapsed)
      modifies this`now, this`listened
      ensures Valid() && now == old(now) + elapsed
      ensures listened == old(listened) + if timers.listening then elapsed else 0.0
      ensures Seen() == old(Seen()).Later(elapsed)
    {
      now := now + elapsed;
      if timers.listening {
        listened := listened + elapsed;
      }
    }

    ghost method Record(note: Note)
      requires Truthful(log, timeout) && (stop.None? <==> NoStop(log)) && timeout > 0.0
      requires note.Warned? ==> note.listened == 2.0 * timeout / 3.0
      requires note.Expired? ==> StandingWarning(log, warning) && note.at == log[warning].at + timeout / 3.0
      requires !note.Stopped?
      modifies this`log
      ensures log == old(log) + [note] && Truthful(log, timeout) && (stop.None? <==> NoStop(log))
      ensures note.Warned? ==> StandingWarning(log, |old(log)|)
      ensures !note.Active? && StandingWarning(old(log), warning) ==> StandingWarning(log, warning)
    {
      Append(log, timeout, note);
      assert NoStop(log + [note]) ==> NoStop(log) by {
        if NoStop(log + [note]) {
          forall k | 0 <= k < |log|
            ensures !log[k].Stopped?
          {
            assert (log + [note])[k] == log[k];
          }
        }
      }
      log := log + [note];
    }

    /** Any activity restores the full budget. */
    method RecordUserActivity()
      requires Valid()
      modifies this`timers, this`listened, this`log
      ensures Valid()
      ensures closed ==> timers == old(timers) && log == old(log)
      ensures !closed ==> listened == 0.0 && !timers.warningSent && log == old(log) + [Active(now)]
      ensures !closed && timers.listening ==>
                timers.hangAt == Some(now + timeout) && timers.warnAt == Some(now + timeout * (2.0 / 3.0))
      ensures timers.listening == old(timers.listening)
      ensures Seen() == old(Seen()).Refreshed(Settings())
    {
      if closed {
        return;
      }
      Record(Active(now));
      listened := 0.0;
      timers := Cancelled(timers.(warningSent := false));
      timers := timers.(warnLeft := timeout * (2.0 / 3.0), hangLeft := timeout);
      if timers.listening {
        timers := Started(timers, now);
      }
    }

    /** Keys pressed count as activity of the caller alone, when the caller is known. */
    method OnSipDtmfReceived(identity: string)
      requires Valid()
      modifies this`timers, this`listened, this`log
      ensures Valid()
      ensures old(log) <= log
      ensures participant != "" && identity != participant ==>
                timers == old(timers) && log == old(log) && listened == old(listened)
      ensures !closed && (participant == "" || identity == participant) ==>
                listened == 0.0 && log == old(log) + [Active(now)]
      ensures Seen() == old(Seen()).Pressed(Settings(), identity)
    {
      if participant != "" && identity != participant {
        return;
      }
      RecordUserActivity();
    }

    /** A pause keeps what is left; nothing pauses once the warning is out. */
    method OnAgentStateChanged(listening: bool)
      requires Valid()
      modifies this`timers
      ensures Valid() && (!closed ==> timers.listening == listening)
      ensures timers.warningSent == old(timers).warningSent
      ensures timers.warningSent ==> timers.hangAt == old(timers).hangAt
      ensures Seen() == old(Seen()).Heard(listening)
    {
      if closed || listening == timers.listening {
        return;
      }
      timers := timers.(listening := listening);
      if timers.warningSent {
        return;
      }
      if listening {
        timers := Started(timers, now);
      } else {
        var elapsed := Max(0.0, now - timers.startedAt.value);
        timers := timers.(warnLeft := Max(0.0, timers.warnLeft - elapsed),
                          hangLeft := Max(0.0, timers.hangLeft - elapsed));
        timers := Cancelled(timers);
      }
    }

    /** The warning timer is due. */
    method Warn()
      requires Valid() && timers.warnAt == Some(now)
      modifies this`timers, this`log, this`warning
      ensures Valid() && timers.warningSent && timers.hangAt == Some(now + timeout / 3.0)
      ensures log == old(log) + [Warned(now, listened)]
      ensures Seen() == old(Seen()).HasWarned()
    {
      Record(Warned(now, listened));
      warning := |log| - 1;
      timers := timers.(warnAt := None, warnLeft := 0.0, warningSent := true);
    }

    method RequestStop(reason: string)
      requires Valid()
      modifies this`stop, this`log
      ensures Valid()
      ensures if closed || old(stop).Some? then stop == old(stop) && log == old(log)
              else stop == Some(reason) && log == old(log) + [Stopped(now, reason)]
      ensures StandingWarning(old(log), warning) ==> StandingWarning(log, warning)
      ensures Seen() == old(Seen()).Stopping(reason)
    {
      if !closed && stop.None? {
        Append(log, timeout, Stopped(now, reason));
        assert (log + [Stopped(now, reason)])[|log|].Stopped?;
        log := log + [Stopped(now, reason)];
        stop := Some(reason);
      }
    }

    /** The hang-up timer is due. */
    method Expire()
      requires Valid() && timers.hangAt == Some(now)
      modifies this`timers, this`stop, this`log
      ensures Valid() && stop == if old(stop).Some? then old(stop) else Some("silence_timeout")
      ensures old(log) + [Expired(now)] <= log
      ensures Seen() == old(Seen()).HasExpired()
    {
      Record(Expired(now));
      RequestStop("silence_timeout");
      timers := timers.(hangAt := None);
    }

    /** The limit on the whole call is due. */
    method Overrun()
      requires Valid() && durationAt == Some(now)
      modifies this`durationAt, this`stop, this`log
      ensures Valid() && stop == (if old(stop).Some? then old(stop) else Some("max_call_duration")) && old(log) <= log
      ensures Seen() == old(Seen()).HasOverrun()
    {
      RequestStop("max_call_duration");
      durationAt := None;
    }

    method Close()
      requires Valid()
      modifies this`closed, this`durationAt, this`timers
      ensures Valid() && closed
      ensures Seen() == old(Seen()).Off()
    {
      if closed {
        return;
      }
      closed := true;
      durationAt := None;
      timers := Cancelled(timers);
    }

    /** The session is closed: a stop is asked for even now, once. */
    method OnClosed()
      requires Valid()
      modifies this`closed, this`durationAt, this`timers, this`stop, this`log
      ensures Valid() && closed && old(log) <= log
      ensures stop == if old(closed) || old(stop).Some? then old(stop) else Some("session_closed")
      ensures Seen() == if old(closed) then old(Seen()) else old(Seen()).Stopping("session_closed").Off()
    {
      if closed {
        return;
      }
      RequestStop("session_closed");
      Close();
    }
  }

  /** What a schedule changes: every event has its effect, in turn. */
  function AfterAll(c: Config, v: View, schedule: seq<Event>): View {
    if schedule == [] then v
    else AfterAll(c, v, schedule[..|schedule| - 1]).After(c, schedule[|schedule| - 1])
  }

  method Step(g: Guard, e: Event)
    requires g.Valid()
    modifies g
    ensures g.Valid() && old(g.log) <= g.log && (old(g.stop).Some? ==> g.stop == old(g.stop))
    ensures g.Seen() == old(g.Seen()).After(g.Settings(), e)
  {
    match e
    case Pass(elapsed) => if MayAdvance(g.now, g.timers, g.durationAt, elapsed) { g.Advance(elapsed); }
    case AgentState(listening) => g.OnAgentStateChanged(listening);
    case Speech => g.RecordUserActivity();
    case Dtmf(identity) => g.OnSipDtmfReceived(identity);
    case WarnTimer => if g.timers.warnAt == Some(g.now) { g.Warn(); }
    case HangTimer => if g.timers.hangAt == Some(g.now) { g.Expire(); }
    case DurationTimer => if g.durationAt == Some(g.now) { g.Overrun(); }
    case SessionClosed => g.OnClosed();
    case GuardClosed => g.Close();
  }

  /** Any schedule of agent states, user activity, timers and closing, with the clock never past a timer
      that is due: every warning comes after exactly two thirds of the timeout of listening since the user
      was last active, silence runs out exactly a third of the timeout after a warning nobody answered,
      and at most one stop is asked for. */
  method Run(g: Guard, schedule: seq<Event>)
    requires g.Valid()
    modifies g
    ensures g.Valid() && Truthful(g.log, g.timeout) && old(g.log) <= g.log
    ensures !g.closed && !g.timers.warningSent ==>
              g.listened + (if g.timers.hangAt.Some? then g.timers.hangAt.value - g.now else g.timers.hangLeft)
                == g.timeout
    ensures old(g.stop).Some? ==> g.stop == old(g.stop)
    ensures g.Seen() == AfterAll(g.Settings(), old(g.Seen()), schedule)
  {
    for i := 0 to |schedule|
      invariant g.Valid() && old(g.log) <= g.log && (old(g.stop).Some? ==> g.stop == old(g.stop))
      invariant g.Seen() == AfterAll(g.Settings(), old(g.Seen()), schedule[..i])
    {
      Step(g, schedule[i]);
      assert schedule[..i + 1][..i] == schedule[..i];
    }
    assert schedule[..|schedule|] == schedule;
  }
}
