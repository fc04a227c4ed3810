/** The consumer of a queue directory, file operation by file operation. The process may die before any of
    them, and others may enqueue before any of them. */
module OutboxConsumer {
  import opened Basics
  import opened Outbox

  class Queue {
    const kind: Kind
    /** Everything ever enqueued or sent. */
    ghost const known: set<Payload>
    var disk: Disk
    var now: real
    /** How many file operations the process lives to do. */
    var left: nat
    ghost var ledger: Ledger

    ghost predicate Valid()
      reads this
    {
      Safe(kind, known, disk, ledger)
    }

    ghost function Seen(): View
      reads this
    {
      View(disk, now, left, ledger)
    }

    constructor (kind: Kind, ghost known: set<Payload>, now: real)
      requires OnePayloadPerName(known)
      ensures Valid() && this.kind == kind && this.known == known && this.now == now
      ensures disk == EMPTY && ledger == Ledger({}, [], {}, {}, map[])
    {
      this.kind := kind;
      this.known := known;
      disk := EMPTY;
      this.now := now;
      left := 0;
      ledger := Ledger({}, [], {}, {}, map[]);
    }

    /** True when the process dies before its next file operation. */
    method Dies() returns (dies: bool)
      modifies this`left
      ensures dies <==> old(left) == 0
      ensures left == if dies then 0 else old(left) - 1
    {
      dies := left == 0;
      if !dies {
        left := left - 1;
      }
    }

    // ---- Others ----

    /** A payload is enqueued. */
    method Enqueue(a: Arrival)
      requires Valid() && a.payload in known
      modifies this`disk, this`ledger
      ensures Valid() && disk == Enqueued(kind, old(disk), a, now)
      ensures ledger == old(ledger).(owed := old(ledger).owed + {a.payload})
      ensures StillFree(old(disk), old(ledger), disk, ledger)
    {
      var p := a.payload;
      ArrivalKeepsFree(kind, disk, ledger, a, now);
      if !(kind == Webhook && !a.unseen && p.id in disk.live) {
        var f := File(p, 0, 0.0, now);
        WriteIsSafe(kind, known, disk, ledger, f);
        disk := WriteLive(disk, p.id, f);
      }
      OweIsSafe(kind, known, disk, ledger, p);
      ledger := ledger.(owed := ledger.owed + {p});
    }

    method EnqueueAll(arrivals: seq<Arrival>)
      requires Valid() && From(arrivals, known)
      modifies this`disk, this`ledger
      ensures Valid() && disk == EnqueuedAll(kind, old(disk), arrivals, now)
      ensures ledger == Owing(old(ledger), arrivals)
      ensures OnlyOwed(old(ledger), ledger) && StillFree(old(disk), old(ledger), disk, ledger)
    {
      for i := 0 to |arrivals|
        invariant Valid() && disk == EnqueuedAll(kind, old(disk), arrivals[..i], now)
        invariant ledger == Owing(old(ledger), arrivals[..i])
        invariant OnlyOwed(old(ledger), ledger) && StillFree(old(disk), old(ledger), disk, ledger)
      {
        assert arrivals[..i + 1][..i] == arrivals[..i];
        ghost var (d, l) := (disk, ledger);
        Enqueue(arrivals[i]);
        StillFreeOn(old(disk), old(ledger), d, l, disk, ledger);
      }
      assert arrivals[..|arrivals|] == arrivals;
    }

    /** Time passes, and others enqueue. */
    method Pause(g: Gap)
      requires Valid() && Possible(g, known)
      modifies this`disk, this`now, this`ledger
      ensures Valid() && now == old(now) + g.elapsed && disk == After(kind, old(disk), g, old(now))
      ensures ledger == Owing(old(ledger), g.arrivals)
      ensures OnlyOwed(old(ledger), ledger) && StillFree(old(disk), old(ledger), disk, ledger)
    {
      now := now + g.elapsed;
      EnqueueAll(g.arrivals);
    }

    /** The reporter's own attempts, which take the key from its session and the number of the report. */
    method SendSnapshot(session: string, sequence: nat, body: string, verdict: Verdict)
      requires Valid() && Snapshot(session, sequence, body, true) in known
      modifies this`ledger
      ensures Valid() && Grown(old(ledger), ledger)
      ensures ledger == Sent(old(ledger), IdempotencySource(session, sequence),
                             Snapshot(session, sequence, body, true), verdict)
    {
      var p := Snapshot(session, sequence, body, true);
      SentIsSafe(kind, known, disk, ledger, IdempotencySource(session, sequence), p);
      ledger := Sent(ledger, IdempotencySource(session, sequence), p, verdict);
    }

    /** `post_call_log` outside the queue. */
    method SendRecord(callId: string, body: string, verdict: Verdict)
      requires Valid() && Record(callId, body, true) in known
      modifies this`ledger
      ensures Valid() && Grown(old(ledger), ledger)
      ensures ledger == Sent(old(ledger), callId, Record(callId, body, true), verdict)
    {
      var p := Record(callId, body, true);
      SentIsSafe(kind, known, disk, ledger, callId, p);
      ledger := Sent(ledger, callId, p, verdict);
    }

    // ---- File operations ----

    method Unlink(n: string) returns (died: bool)
      requires Valid() && n in disk.claimed && Free(disk, ledger, n)
      modifies this`disk, this`left
      ensures Valid() && disk == if died then old(disk) else UnlinkClaim(old(disk), n)
      ensures left <= old(left) && (died ==> left == 0)
    {
      died := Dies();
      if died {
        return;
      }
      UnlinkIsSafe(kind, known, disk, ledger, n);
      disk := UnlinkClaim(disk, n);
    }

    method MoveToDead(n: string) returns (died: bool)
      requires Valid() && n in disk.claimed
      requires if kind == Webhook then ledger.Failed(n) >= MAX_ATTEMPTS else !disk.claimed[n].payload.complete
      modifies this`disk, this`left
      ensures Valid() && disk == if died then old(disk) else Bury(old(disk), n)
      ensures left <= old(left) && (died ==> left == 0)
    {
      died := Dies();
      if died {
        return;
      }
      BuryIsSafe(kind, known, disk, ledger, n);
      disk := Bury(disk, n);
    }

    method PutBack(n: string) returns (died: bool)
      requires Valid() && n in disk.claimed
      modifies this`disk, this`left
      ensures Valid() && disk == if died then old(disk) else Unclaim(old(disk), n)
      ensures left <= old(left) && (died ==> left == 0)
    {
      died := Dies();
      if !died {
        UnclaimIsSafe(kind, known, disk, ledger, n);
        disk := Unclaim(disk, n);
      }
    }

    /** Write the claimed file back to the live queue, then unlink the claim. */
    method Rewrite(n: string, again: File, unlinking: Gap) returns (died: bool)
      requires Valid() && n in disk.claimed && Possible(unlinking, known)
      requires again.payload in known && again.payload.id == n && again.attempts <= ledger.Failed(n)
      requires kind == Webhook ==> again.attempts < MAX_ATTEMPTS
      modifies this`disk, this`now, this`left, this`ledger
      ensures Valid() && OnlyOwed(old(ledger), ledger) && old(now) <= now
      ensures !died ==> disk == UnlinkClaim(After(kind, WriteLive(old(disk), n, again), unlinking, old(now)), n)
      ensures left <= old(left) && (died ==> left == 0)
      ensures old(left) == 0 ==> disk == old(disk) && ledger == old(ledger)
    {
      died := Dies();
      if died {
        return;
      }
      WriteIsSafe(kind, known, disk, ledger, again);
      disk := WriteLive(disk, n, again);
      Pause(unlinking);
      died := Unlink(n);
    }

    ghost method CountAttempt(n: string)
      requires Valid() && n in disk.claimed
      modifies this`ledger
      ensures Valid() && ledger == CountFailure(old(ledger), n)
      ensures disk.claimed[n].payload in known && disk.claimed[n].payload.id == n
      ensures disk.claimed[n].attempts + 1 <= ledger.Failed(n)
    {
      ClaimFacts(kind, known, disk, ledger, n);
      FailureIsSafe(kind, known, disk, ledger, n);
      ledger := CountFailure(ledger, n);
    }

    /** The failed attempt is counted and written back before the claim goes, or the webhook is buried. */
    method WriteBack(n: string, unlinking: Gap) returns (died: bool)
      requires Valid() && n in disk.claimed && Possible(unlinking, known)
      modifies this`disk, this`now, this`left, this`ledger
      ensures Valid() && OnlyOwed(CountFailure(old(ledger), n), ledger) && old(now) <= now
      ensures !died ==> disk == Resolved(kind, old(disk), n, Refused, unlinking, old(now))
      ensures left <= old(left) && (died ==> left == 0)
    {
      CountAttempt(n);
      var f := disk.claimed[n];
      if kind == Webhook && f.attempts + 1 >= MAX_ATTEMPTS {
        died := MoveToDead(n);
      } else {
        died := Rewrite(n, Again(kind, f, now), unlinking);
      }
    }

    /** The idempotency key of a queued payload, from its own fields. */
    method KeyOf(p: Payload) returns (key: string)
      ensures key == p.id
    {
      key := if p.Snapshot? then IdempotencySource(p.session, p.sequence) else p.callId;
    }

    /** The payload is sent and its answer awaited. */
    method Attempt(n: string, a: Answer)
      requires Valid() && n in disk.claimed && Possible(a.awaiting, known)
      requires kind == Webhook || disk.claimed[n].payload.complete
      modifies this`disk, this`now, this`ledger
      ensures Valid() && now == old(now) + a.awaiting.elapsed && disk == After(kind, old(disk), a.awaiting, old(now))
      ensures var p := old(disk).claimed[n].payload;
              OnlyOwed(Sent(old(ledger), p.id, p, Effective(kind, p, a.verdict)), ledger)
    {
      var p := disk.claimed[n].payload;
      ClaimFacts(kind, known, disk, ledger, n);
      Pause(a.awaiting);
      var key := KeyOf(p);
      if p.complete {
        SentIsSafe(kind, known, disk, ledger, key, p);
      }
      ledger := Sent(ledger, key, p, Effective(kind, p, a.verdict));
    }

    /** The payload is not owed any more: it was acknowledged, or its webhook is gone. */
    ghost method Discharge(n: string, verdict: Verdict)
      requires Valid() && n in disk.claimed && verdict in {Accepted, Removed} &&
                 (verdict == Removed ==> kind == Webhook)
      requires var p := disk.claimed[n].payload; verdict == Accepted ==> Delivery(p.id, p) in ledger.sent
      modifies this`ledger
      ensures Valid() && Free(disk, ledger, n) && Discharged(old(ledger), ledger, disk.claimed[n].payload, verdict)
      ensures disk.claimed[n].payload.id == n
    {
      var p := disk.claimed[n].payload;
      ClaimFacts(kind, known, disk, ledger, n);
      if verdict == Accepted {
        AckedIsSafe(kind, known, disk, ledger, p);
        ledger := ledger.(acked := ledger.acked + {p}, owed := ledger.owed - {p});
      } else {
        DroppedIsSafe(known, disk, ledger, p);
        ledger := ledger.(dropped := ledger.dropped + {p}, owed := ledger.owed - {p});
      }
    }

    method Release(n: string, verdict: Verdict, settling: Gap) returns (died: bool)
      requires Valid() && n in disk.claimed && Possible(settling, known)
      requires verdict in {Accepted, Removed} && (verdict == Removed ==> kind == Webhook)
      requires var p := disk.claimed[n].payload; verdict == Accepted ==> Delivery(p.id, p) in ledger.sent
      modifies this`disk, this`now, this`left, this`ledger
      ensures Valid() && now == old(now) + settling.elapsed
      ensures !died ==> disk == UnlinkClaim(After(kind, old(disk), settling, old(now)), n)
      ensures Concluded(old(ledger), ledger, old(disk).claimed[n].payload, verdict) &&
                old(disk).claimed[n].payload.id == n
      ensures left <= old(left) && (died ==> left == 0)
    {
      Discharge(n, verdict);
      ghost var between := ledger;
      Pause(settling);
      ReleaseConcludes(old(ledger), between, ledger, old(disk).claimed[n].payload, verdict);
      died := Unlink(n);
    }

    method Retry(n: string, settling: Gap, unlinking: Gap) returns (died: bool)
      requires Valid() && n in disk.claimed && Possible(settling, known) && Possible(unlinking, known)
      modifies this`disk, this`now, this`left, this`ledger
      ensures Valid() && old(now) <= now
      ensures !died ==> disk == Settled(kind, old(disk), n, Refused, settling, unlinking, old(now))
      ensures Concluded(old(ledger), ledger, old(disk).claimed[n].payload, Refused) &&
                old(disk).claimed[n].payload.id == n
      ensures left <= old(left) && (died ==> left == 0)
    {
      ClaimFacts(kind, known, disk, ledger, n);
      Pause(settling);
      SettledIs(kind, old(disk), n, Refused, settling, unlinking, old(now), disk, now);
      ghost var between := ledger;
      died := WriteBack(n, unlinking);
      RetryConcludes(old(ledger), between, ledger, old(disk).claimed[n].payload);
    }

    /** What follows the await. */
    method Conclude(n: string, verdict: Verdict, settling: Gap, unlinking: Gap) returns (died: bool)
      requires Valid() && n in disk.claimed && Possible(settling, known) && Possible(unlinking, known)
      requires var p := disk.claimed[n].payload; verdict == Accepted ==> Delivery(p.id, p) in ledger.sent
      requires verdict == Removed ==> kind == Webhook
      modifies this`disk, this`now, this`left, this`ledger
      ensures Valid() && old(now) <= now
      ensures !died ==> disk == Settled(kind, old(disk), n, verdict, settling, unlinking, old(now))
      ensures Concluded(old(ledger), ledger, old(disk).claimed[n].payload, verdict) &&
                old(disk).claimed[n].payload.id == n
      ensures left <= old(left) && (died ==> left == 0)
    {
      if verdict in {Accepted, Removed} {
        died := Release(n, verdict, settling);
      } else {
        died := Retry(n, settling, unlinking);
      }
    }

    method Deliver(n: string, a: Answer) returns (died: bool)
      requires Valid() && Thinkable(a, known) && n in disk.claimed
      requires kind == Webhook || disk.claimed[n].payload.complete
      modifies this`disk, this`now, this`left, this`ledger
      ensures Valid() && Grown(old(ledger), ledger) && old(now) <= now
      ensures !died ==> disk == Delivered(kind, old(disk), n, a, old(now))
      ensures var p := old(disk).claimed[n].payload;
              Answered(old(ledger), ledger, p, Effective(kind, p, a.verdict))
      ensures DropsOnly(old(ledger), ledger, n, a)
      ensures left <= old(left) && (died ==> left == 0)
    {
      var p := disk.claimed[n].payload;
      ghost var before := ledger;
      Attempt(n, a);
      DeliveredIs(kind, old(disk), n, a, old(now), disk, now);
      ghost var between := ledger;
      died := Conclude(n, Effective(kind, p, a.verdict), a.settling, a.unlinking);
      AttemptGrows(before, between, ledger, kind, p, a);
    }

    /** A claimed file that is not due goes back, and one that cannot be sent to the dead letters. */
    method PutAway(n: string, a: Answer) returns (died: bool)
      requires Valid() && Possible(a.settling, known) && n in disk.claimed
      requires disk.claimed[n].notBefore > now || (kind != Webhook && !disk.claimed[n].payload.complete)
      modifies this`disk, this`now, this`left, this`ledger
      ensures Valid() && OnlyOwed(old(ledger), ledger) && old(now) <= now
      ensures !died ==> disk == Finished(kind, old(disk), n, a, old(now))
      ensures left <= old(left) && (died ==> left == 0)
    {
      var due := disk.claimed[n].notBefore <= now;
      Pause(a.settling);
      if due {
        died := MoveToDead(n);
      } else {
        died := PutBack(n);
      }
    }

    /** A file that was just claimed: it is put away or sent. */
    method Finish(n: string, a: Answer) returns (died: bool)
      requires Valid() && Thinkable(a, known) && n in disk.claimed
      modifies this`disk, this`now, this`left, this`ledger
      ensures Valid() && Grown(old(ledger), ledger) && old(now) <= now
      ensures !died ==> disk == Finished(kind, old(disk), n, a, old(now))
      ensures AnsweredIfSendable(kind, old(disk).claimed[n], old(now), a, old(ledger), ledger)
      ensures DropsOnly(old(ledger), ledger, n, a)
      ensures left <= old(left) && (died ==> left == 0)
    {
      var f := disk.claimed[n];
      if f.notBefore > now || (kind != Webhook && !f.payload.complete) {
        died := PutAway(n, a);
        OnlyOwedGrows(old(ledger), ledger, n, a);
      } else {
        died := Deliver(n, a);
      }
    }

    /** One listed name: claim it, look at it, send it, answer for it. */
    method Handle(n: string, a: Answer) returns (died: bool)
      requires Valid() && Thinkable(a, known) && now >= 0.0
      modifies this`disk, this`now, this`left, this`ledger
      ensures Valid() && Grown(old(ledger), ledger) && old(now) <= now
      ensures !died ==> disk == Handled(kind, old(disk), n, a, old(now))
      ensures !died && n in old(disk).live ==>
                AnsweredIfSendable(kind, old(disk).live[n], old(now), a, old(ledger), ledger)
      ensures DropsOnly(old(ledger), ledger, n, a)
      ensures left <= old(left) && (died ==> left == 0)
    {
      Pause(a.claiming);
      HandledIs(kind, old(disk), n, a, old(now), disk, now);
      if n !in disk.live {
        NotListed(kind, known, old(disk), n, a, old(now), old(ledger), ledger);
        return false;
      }
      ghost var (d, between) := (disk, ledger);
      died := Take(n, a);
      PauseFirst(old(ledger), between, ledger, n, a);
      if !died {
        AnswersBefore(kind, known, old(disk), n, a, old(now), old(ledger), between, ledger);
      }
    }

    method Take(n: string, a: Answer) returns (died: bool)
      requires Valid() && Thinkable(a, known) && n in disk.live
      modifies this`disk, this`now, this`left, this`ledger
      ensures Valid() && Grown(old(ledger), ledger) && old(now) <= now
      ensures !died ==> disk == Looked(kind, Claim(old(disk), n), n, a, old(now))
      ensures !died ==> AnsweredIfSendable(kind, old(disk).live[n], old(now), a, old(ledger), ledger)
      ensures DropsOnly(old(ledger), ledger, n, a)
      ensures left <= old(left) && (died ==> left == 0)
      ensures old(left) == 0 ==> disk == old(disk) && ledger == old(ledger)
    {
      died := Dies();
      if died {
        return;
      }
      ClaimIsSafe(kind, known, disk, ledger, n);
      disk := Claim(disk, n);
      died := Look(n, a);
    }

    method Look(n: string, a: Answer) returns (died: bool)
      requires Valid() && Thinkable(a, known) && n in disk.claimed
      modifies this`disk, this`now, this`left, this`ledger
      ensures Valid() && Grown(old(ledger), ledger) && old(now) <= now
      ensures !died ==> disk == Looked(kind, old(disk), n, a, old(now))
      ensures AnsweredIfSendable(kind, old(disk).claimed[n], old(now), a, old(ledger), ledger)
      ensures DropsOnly(old(ledger), ledger, n, a)
      ensures left <= old(left) && (died ==> left == 0)
    {
      ghost var f := disk.claimed[n];
      Pause(a.reading);
      ghost var (read, readAt, between) := (disk, now, ledger);
      LookedIs(kind, old(disk), n, a, old(now), read, readAt);
      died := Finish(n, a);
      PauseFirst(old(ledger), between, ledger, n, a);
      if Sendable(kind, f, old(now)) {
        SameAnswer(old(ledger), between, ledger, f.payload, Effective(kind, f.payload, a.verdict));
      }
    }

    // ---- Stale claims ----

    /** One claim: a stale one goes back, or goes when billing sees a live file. */
    method ReclaimOne(n: string, r: Return) returns (died: bool)
      requires Valid() && Feasible(r, known) && n in disk.claimed
      modifies this`disk, this`now, this`left, this`ledger
      ensures Valid() && OnlyOwed(old(ledger), ledger) && old(now) <= now
      ensures !died ==> disk == Outbox.ReclaimOne(kind, old(disk), n, r, old(now))
      ensures left <= old(left) && (died ==> left == 0)
    {
      Pause(r.looking);
      var there := n in disk.live;
      ghost var (d, t) := (disk, now);
      AfterKeeps(kind, known, disk, r.moving, now);
      assert StaysLive(LiveAt(disk, n), After(kind, disk, r.moving, now), n);
      Pause(r.moving);
      ReclaimOneIs(kind, old(disk), n, r, old(now), d, t, disk);
      died := GiveUp(n, kind == Billing && there);
    }

    method GiveUp(n: string, superseded: bool) returns (died: bool)
      requires Valid() && n in disk.claimed && (superseded ==> Free(disk, ledger, n))
      modifies this`disk, this`left
      ensures Valid() && left <= old(left) && (died ==> left == 0)
      ensures !died ==> disk == if superseded then UnlinkClaim(old(disk), n) else Unclaim(old(disk), n)
    {
      if superseded {
        died := Unlink(n);
      } else {
        died := PutBack(n);
      }
    }

    method ReclaimNext(n: string, r: Return, start: real, ghost before: Disk, ghost todo: set<string>)
      returns (died: bool)
      requires Valid() && Feasible(r, known) && Returned(kind, before, disk, todo, start) && n in todo &&
                 n in before.claimed
      modifies this`disk, this`now, this`left, this`ledger
      ensures Valid() && OnlyOwed(old(ledger), ledger) && old(now) <= now
      ensures !died ==> Returned(kind, before, disk, todo - {n}, start)
      ensures !died && Quiet(r) && Undisturbed(kind, before, old(disk), todo, start) ==>
                Undisturbed(kind, before, disk, todo - {n}, start)
      ensures left <= old(left) && (died ==> left == 0)
    {
      died := false;
      if !Stale(disk.claimed[n], start) {
        KeepOne(kind, before, disk, todo, start, n);
        return;
      }
      ReturnOne(kind, known, before, disk, todo, start, n, r, now);
      if Quiet(r) && Undisturbed(kind, before, disk, todo, start) {
        ReturnQuietly(kind, before, disk, todo, start, n, r, now);
      }
      died := ReclaimOne(n, r);
    }

    /** `_reclaim_stale_queue_claims`. */
    method Reclaim(returning: string -> Return) returns (died: bool)
      requires Valid() && forall n :: Feasible(returning(n), known)
      modifies this`disk, this`now, this`left, this`ledger
      ensures Valid() && OnlyOwed(old(ledger), ledger) && old(now) <= now
      ensures !died ==> Returned(kind, old(disk), disk, {}, old(now))
      ensures !died && (forall n :: Quiet(returning(n))) ==> Undisturbed(kind, old(disk), disk, {}, old(now))
      ensures left <= old(left) && (died ==> left == 0)
    {
      var start, todo := now, disk.claimed.Keys;
      died := false;
      while todo != {}
        invariant left <= old(left)
        invariant Valid() && OnlyOwed(old(ledger), ledger) && old(now) <= now && todo <= old(disk).claimed.Keys
        invariant Returned(kind, old(disk), disk, todo, start)
        invariant (forall n :: Quiet(returning(n))) ==> Undisturbed(kind, old(disk), disk, todo, start)
        decreases |todo|
      {
        var n :| n in todo;
        died := ReclaimNext(n, returning(n), start, old(disk), todo);
        if died {
          return;
        }
        todo := todo - {n};
      }
    }

    // ---- A pass ----

    method SendOne(n: string, answers: string -> Answer, ghost todo: set<string>, ghost listed: Disk, ghost start: real,
            ghost before: Ledger)
      returns (died: bool)
      requires Valid() && 0.0 <= now && Thinkable(answers(n), known) && n in todo && Grown(before, ledger)
      requires StillThere(kind, listed, disk, todo, start, now)
      requires AllAnswered(kind, listed, todo, start, answers, before, ledger)
      modifies this`disk, this`now, this`left, this`ledger
      ensures Valid() && Grown(before, ledger) && old(now) <= now
      ensures !died ==> ClaimsOnly(old(disk), disk)
      ensures !died ==> StillThere(kind, listed, disk, todo - {n}, start, now)
      ensures !died ==> AllAnswered(kind, listed, todo - {n}, start, answers, before, ledger)
      ensures DropsOnly(old(ledger), ledger, n, answers(n))
      ensures left <= old(left) && (died ==> left == 0)
    {
      HandledUnclaims(kind, disk, n, answers(n), now);
      died := Handle(n, answers(n));
      GrownOn(before, old(ledger), ledger);
      if !died {
        HandledKeepsListed(kind, known, listed, old(disk), todo, start, old(now), now, n, answers(n));
        ListedAnswered(kind, listed, old(disk), todo, start, old(now), n, answers(n), old(ledger), ledger);
        OneMoreAnswered(kind, listed, todo, start, answers, before, old(ledger), ledger, n);
      }
    }

    /** The listed files, in any order. */
    method SendAll(answers: string -> Answer) returns (died: bool)
      requires Valid() && now >= 0.0 && forall n :: Thinkable(answers(n), known)
      modifies this`disk, this`now, this`left, this`ledger
      ensures Valid() && Grown(old(ledger), ledger) && old(now) <= now
      ensures !died ==> ClaimsOnly(old(disk), disk)
      ensures !died ==> AllAnswered(kind, old(disk), {}, old(now), answers, old(ledger), ledger)
      ensures forall p :: p in ledger.dropped ==> p in old(ledger).dropped || answers(p.id).verdict == Removed
      ensures left <= old(left) && (died ==> left == 0)
    {
      var todo := disk.live.Keys;
      died := false;
      while todo != {}
        invariant left <= old(left)
        invariant Valid() && Grown(old(ledger), ledger) && old(now) <= now && ClaimsOnly(old(disk), disk)
        invariant StillThere(kind, old(disk), disk, todo, old(now), now)
        invariant AllAnswered(kind, old(disk), todo, old(now), answers, old(ledger), ledger)
        invariant forall p :: p in ledger.dropped ==> p in old(ledger).dropped || answers(p.id).verdict == Removed
        decreases |todo|
      {
        var n :| n in todo;
        died := SendOne(n, answers, todo, old(disk), old(now), old(ledger));
        if died {
          return;
        }
        todo := todo - {n};
      }
    }

    /** One pass of the queue consumer. If it lives through the pass, every stale claim was back in the
        live queue, every file that was due then has been sent and answered for, and the only claims left
        are those of an earlier process that are not stale yet. */
    method Flush(configured: bool, returning: string -> Return, listing: Gap, answers: string -> Answer)
      returns (died: bool)
      requires Valid() && now >= 0.0 && Possible(listing, known)
      requires forall n :: Feasible(returning(n), known) && Thinkable(answers(n), known)
      modifies this`disk, this`now, this`left, this`ledger
      ensures Valid() && Grown(old(ledger), ledger) && old(now) <= now
      ensures !died ==> FreshOnly(old(disk), disk, old(now))
      ensures !died && (kind != Billing || configured) ==>
                BackAnswered(kind, old(disk), old(now), answers, old(ledger), ledger)
      ensures forall p :: p in ledger.dropped ==> p in old(ledger).dropped || answers(p.id).verdict == Removed
      ensures left <= old(left) && (died ==> left == 0)
    {
      died := Reclaim(returning);
      NothingDropped(old(ledger), ledger);
      if died || (kind == Billing && !configured) {
        return;
      }
      ghost var (d, l, t) := (disk, ledger, now);
      BackSendable(kind, known, old(disk), d, old(now), listing, t);
      Pause(listing);
      ghost var (listed, l2, t2) := (disk, ledger, now);
      died := SendAll(answers);
      PassGrows(old(ledger), l, l2, ledger);
      if !died {
        BackIsAnswered(kind, old(disk), old(now), listed, t2, answers, old(ledger), l, l2, ledger);
      }
    }
  }

  /** What is owed when these have been enqueued. */
  ghost function Owing(ledger: Ledger, arrivals: seq<Arrival>): Ledger {
    if arrivals == [] then ledger
    else
      var n := |arrivals| - 1;
      var before := Owing(ledger, arrivals[..n]);
      before.(owed := before.owed + {arrivals[n].payload})
  }

  predicate Quiet(r: Return) {
    r.looking.arrivals == [] && r.moving.arrivals == []
  }

  lemma ReclaimOneIs(kind: Kind, d: Disk, n: string, r: Return, now: real, there: Disk, later: real, moved: Disk)
    requires n in d.claimed && there == After(kind, d, r.looking, now) && later == now + r.looking.elapsed
    requires moved == After(kind, there, r.moving, later)
    ensures n in moved.claimed
    ensures Outbox.ReclaimOne(kind, d, n, r, now)
            == if kind == Billing && n in there.live then UnlinkClaim(moved, n) else Unclaim(moved, n)
  {
  }

  /** No claims but those that were there. */
  ghost predicate ClaimsOnly(before: Disk, d: Disk) {
    forall n :: n in d.claimed ==> n in before.claimed && d.claimed[n] == before.claimed[n]
  }

  lemma GrownOn(a: Ledger, b: Ledger, c: Ledger)
    requires Grown(a, b) && Grown(b, c)
    ensures Grown(a, c)
  {
    assert forall n :: a.Failed(n) <= b.Failed(n) <= c.Failed(n);
  }

  lemma NothingDropped(before: Ledger, after: Ledger)
    requires OnlyOwed(before, after)
    ensures Grown(before, after) && after.dropped == before.dropped
  {
    assert forall n :: after.Failed(n) == before.Failed(n);
  }

  lemma PassGrows(a: Ledger, b: Ledger, c: Ledger, d: Ledger)
    requires OnlyOwed(a, b) && OnlyOwed(b, c) && Grown(c, d)
    ensures Grown(a, d) && c.dropped == a.dropped
  {
    NothingDropped(a, b);
    NothingDropped(b, c);
    GrownOn(a, b, c);
    GrownOn(a, c, d);
  }

  lemma ListedAnswered(kind: Kind, listed: Disk, d: Disk, todo: set<string>, start: real, now: real, n: string,
          a: Answer, before: Ledger, after: Ledger)
    requires StillThere(kind, listed, d, todo, start, now) && n in todo
    requires n in d.live ==> AnsweredIfSendable(kind, d.live[n], now, a, before, after)
    ensures n in listed.live && Sendable(kind, listed.live[n], start) ==>
              Answered(before, after, listed.live[n].payload, Effective(kind, listed.live[n].payload, a.verdict))
  {
  }

  /** Every file that was due once the stale claims were back has been sent and answered for. */
  ghost predicate BackAnswered(kind: Kind, before: Disk, start: real, answers: string -> Answer, l: Ledger,
          after: Ledger)
  {
    forall n :: BackAt(kind, before, {}, n, start).Some? ==>
      AnsweredIfSendable(kind, BackAt(kind, before, {}, n, start).value, start, answers(n), l, after)
  }

  /** What came back is still there, and sendable, when the directory is listed. */
  ghost predicate BackListed(kind: Kind, before: Disk, start: real, listed: Disk, now: real) {
    forall n ::
      (&& BackAt(kind, before, {}, n, start).Some?
       && Sendable(kind, BackAt(kind, before, {}, n, start).value, start)) ==>
      && n in listed.live && listed.live[n].payload == BackAt(kind, before, {}, n, start).value.payload
      && Sendable(kind, listed.live[n], now)
  }

  lemma BackSendable(kind: Kind, known: set<Payload>, before: Disk, d: Disk, start: real, listing: Gap, now: real)
    requires Tidy(known, d) && Possible(listing, known) && 0.0 <= start <= now && Returned(kind, before, d, {}, start)
    ensures BackListed(kind, before, start, After(kind, d, listing, now), now + listing.elapsed)
  {
    AfterKeeps(kind, known, d, listing, now);
    var listed := After(kind, d, listing, now);
    forall n | (&& BackAt(kind, before, {}, n, start).Some?
                && Sendable(kind, BackAt(kind, before, {}, n, start).value, start))
      ensures n in listed.live && listed.live[n].payload == BackAt(kind, before, {}, n, start).value.payload
      ensures Sendable(kind, listed.live[n], now + listing.elapsed)
    {
      assert StaysLive(LiveAt(d, n), listed, n);
      StaysOn(BackAt(kind, before, {}, n, start), d, listed, n);
    }
  }

  lemma BackIsAnswered(kind: Kind, before: Disk, start: real, listed: Disk, now: real, answers: string -> Answer,
          l0: Ledger, l1: Ledger, l2: Ledger, l3: Ledger)
    requires BackListed(kind, before, start, listed, now) && AllAnswered(kind, listed, {}, now, answers, l2, l3)
    requires OnlyOwed(l0, l1) && OnlyOwed(l1, l2)
    ensures BackAnswered(kind, before, start, answers, l0, l3)
  {
    forall n | BackAt(kind, before, {}, n, start).Some?
      ensures AnsweredIfSendable(kind, BackAt(kind, before, {}, n, start).value, start, answers(n), l0, l3)
    {
      var f := BackAt(kind, before, {}, n, start).value;
      if Sendable(kind, f, start) {
        var verdict := Effective(kind, f.payload, answers(n).verdict);
        assert Answered(l2, l3, listed.live[n].payload, verdict);
        SameAnswer(l1, l2, l3, f.payload, verdict);
        SameAnswer(l0, l1, l3, f.payload, verdict);
      }
    }
  }

  ghost predicate Discharged(before: Ledger, after: Ledger, p: Payload, verdict: Verdict) {
    after == if verdict == Accepted then before.(acked := before.acked + {p}, owed := before.owed - {p})
             else before.(dropped := before.dropped + {p}, owed := before.owed - {p})
  }

  /** The effect of an answer on the ledger. */
  ghost predicate Concluded(before: Ledger, after: Ledger, p: Payload, verdict: Verdict) {
    && Grown(before, after) && after.sent == before.sent && Answered(before, after, p, verdict)
    && after.acked == before.acked + (if verdict == Accepted then {p} else {})
    && after.dropped == before.dropped + (if verdict == Removed then {p} else {})
  }

  /** Only this name is dropped, and only when its webhook was found removed. */
  ghost predicate DropsOnly(before: Ledger, after: Ledger, n: string, a: Answer) {
    forall p :: p in after.dropped ==> p in before.dropped || (p.id == n && a.verdict == Removed)
  }

  lemma ReleaseConcludes(before: Ledger, between: Ledger, after: Ledger, p: Payload, verdict: Verdict)
    requires verdict in {Accepted, Removed} && Discharged(before, between, p, verdict) && OnlyOwed(between, after)
    ensures Concluded(before, after, p, verdict)
  {
    assert forall n :: after.Failed(n) == before.Failed(n);
  }

  lemma RetryConcludes(before: Ledger, between: Ledger, after: Ledger, p: Payload)
    requires OnlyOwed(before, between) && OnlyOwed(CountFailure(between, p.id), after)
    ensures Concluded(before, after, p, Refused)
  {
    var counted := CountFailure(between, p.id);
    assert forall n :: after.Failed(n) == counted.Failed(n);
    assert forall n :: between.Failed(n) == before.Failed(n);
    assert forall n :: counted.Failed(n) >= between.Failed(n);
  }

  lemma OnlyOwedGrows(before: Ledger, after: Ledger, n: string, a: Answer)
    requires OnlyOwed(before, after)
    ensures Grown(before, after) && DropsOnly(before, after, n, a)
  {
    assert forall m :: after.Failed(m) == before.Failed(m);
  }

  /** What others enqueue before does not matter. */
  lemma PauseFirst(before: Ledger, between: Ledger, after: Ledger, n: string, a: Answer)
    requires OnlyOwed(before, between) && Grown(between, after) && DropsOnly(between, after, n, a)
    ensures Grown(before, after) && DropsOnly(before, after, n, a)
  {
    assert forall m :: between.Failed(m) == before.Failed(m);
  }

  lemma SameAnswer(before: Ledger, between: Ledger, after: Ledger, p: Payload, verdict: Verdict)
    requires OnlyOwed(before, between) && Answered(between, after, p, verdict)
    ensures Answered(before, after, p, verdict)
  {
  }

  lemma SettledIs(kind: Kind, d: Disk, n: string, verdict: Verdict, settling: Gap, unlinking: Gap, now: real,
          settled: Disk, later: real)
    requires n in d.claimed && settled == After(kind, d, settling, now) && later == now + settling.elapsed
    ensures Settled(kind, d, n, verdict, settling, unlinking, now)
              == Resolved(kind, settled, n, verdict, unlinking, later)
  {
  }

  lemma DeliveredIs(kind: Kind, d: Disk, n: string, a: Answer, now: real, sent: Disk, later: real)
    requires n in d.claimed && sent == After(kind, d, a.awaiting, now) && later == now + a.awaiting.elapsed
    ensures Delivered(kind, d, n, a, now)
            == Settled(kind, sent, n, Effective(kind, d.claimed[n].payload, a.verdict), a.settling, a.unlinking, later)
  {
  }

  lemma LookedIs(kind: Kind, d: Disk, n: string, a: Answer, now: real, read: Disk, readAt: real)
    requires n in d.claimed && read == After(kind, d, a.reading, now) && readAt == now + a.reading.elapsed
    ensures Looked(kind, d, n, a, now) == Finished(kind, read, n, a, readAt)
  {
  }

  lemma HandledIs(kind: Kind, d: Disk, n: string, a: Answer, now: real, there: Disk, claimedAt: real)
    requires there == After(kind, d, a.claiming, now) && claimedAt == now + a.claiming.elapsed
    ensures n in there.live ==> Handled(kind, d, n, a, now) == Looked(kind, Claim(there, n), n, a, claimedAt)
    ensures n !in there.live ==> Handled(kind, d, n, a, now) == there
  {
  }

  /** A file that could be sent has been answered for. */
  ghost predicate AnsweredIfSendable(kind: Kind, f: File, now: real, a: Answer, before: Ledger, after: Ledger) {
    Sendable(kind, f, now) ==> Answered(before, after, f.payload, Effective(kind, f.payload, a.verdict))
  }

  lemma NotListed(kind: Kind, known: set<Payload>, d: Disk, n: string, a: Answer, now: real, before: Ledger,
          after: Ledger)
    requires Tidy(known, d) && Possible(a.claiming, known) && n !in After(kind, d, a.claiming, now).live
    requires OnlyOwed(before, after)
    ensures n !in d.live && Grown(before, after) && DropsOnly(before, after, n, a)
  {
    AfterKeeps(kind, known, d, a.claiming, now);
    assert StaysLive(LiveAt(d, n), After(kind, d, a.claiming, now), n);
    OnlyOwedGrows(before, after, n, a);
  }

  /** A live file is still there when it is claimed, as it was or anew, and answering for it then answers
      for it now. */
  lemma AnswersBefore(kind: Kind, known: set<Payload>, d: Disk, n: string, a: Answer, now: real,
          before: Ledger, between: Ledger, after: Ledger)
    requires Tidy(known, d) && Possible(a.claiming, known) && now >= 0.0 && OnlyOwed(before, between)
    requires var e := After(kind, d, a.claiming, now);
             n in e.live && AnsweredIfSendable(kind, e.live[n], now + a.claiming.elapsed, a, between, after)
    ensures n in d.live ==> AnsweredIfSendable(kind, d.live[n], now, a, before, after)
  {
    AfterKeeps(kind, known, d, a.claiming, now);
    var e := After(kind, d, a.claiming, now);
    assert StaysLive(LiveAt(d, n), e, n);
    if n in d.live && Sendable(kind, d.live[n], now) {
      var p := d.live[n].payload;
      assert Sendable(kind, e.live[n], now + a.claiming.elapsed);
      SameAnswer(before, between, after, p, Effective(kind, p, a.verdict));
    }
  }

  lemma AttemptGrows(before: Ledger, between: Ledger, after: Ledger, kind: Kind, p: Payload, a: Answer)
    requires var verdict := Effective(kind, p, a.verdict);
             OnlyOwed(Sent(before, p.id, p, verdict), between) && Concluded(between, after, p, verdict)
    ensures Grown(before, after) && Answered(before, after, p, Effective(kind, p, a.verdict))
    ensures DropsOnly(before, after, p.id, a)
  {
    assert forall n :: between.Failed(n) == before.Failed(n);
  }

  /** Nothing is owed under a name unless its live file is there. */
  ghost predicate Free(d: Disk, ledger: Ledger, n: string) {
    n in d.live || forall p :: p in ledger.owed ==> p.id != n
  }

  ghost predicate StillFree(d: Disk, l: Ledger, e: Disk, m: Ledger) {
    forall n :: Free(d, l, n) ==> Free(e, m, n)
  }

  lemma StillFreeOn(d: Disk, l: Ledger, e: Disk, m: Ledger, f: Disk, k: Ledger)
    requires StillFree(d, l, e, m) && StillFree(e, m, f, k)
    ensures StillFree(d, l, f, k)
  {
  }

  lemma ArrivalKeepsFree(kind: Kind, d: Disk, l: Ledger, a: Arrival, now: real)
    ensures StillFree(d, l, Enqueued(kind, d, a, now), l.(owed := l.owed + {a.payload}))
  {
  }

  /** More may be owed, nothing else has changed. */
  ghost predicate OnlyOwed(before: Ledger, after: Ledger) {
    after == before.(owed := after.owed) && before.owed <= after.owed
  }

  function Sent(ledger: Ledger, key: string, p: Payload, verdict: Verdict): Ledger {
    if verdict in {Accepted, ReplyLost} then ledger.(sent := ledger.sent + [Delivery(key, p)]) else ledger
  }

  lemma ClaimFacts(kind: Kind, known: set<Payload>, d: Disk, ledger: Ledger, n: string)
    requires Safe(kind, known, d, ledger) && n in d.claimed
    ensures d.claimed[n].payload in known && d.claimed[n].payload.id == n
    ensures d.claimed[n].attempts <= ledger.Failed(n)
    ensures kind == Webhook ==> d.claimed[n].attempts < MAX_ATTEMPTS
    ensures forall p :: p in ledger.owed && p.id == n ==> p == d.claimed[n].payload
  {
  }

  // ---- Whole runs ----

  /** What can happen to the outbox between two passes, and a pass, in which the process lives for so many
      file operations and others enqueue before any of them. */
  datatype Event =
    | Others(gap: Gap)
    | DirectSnapshot(session: string, sequence: nat, body: string, verdict: Verdict)
    | DirectRecord(callId: string, body: string, verdict: Verdict)
    | Pass(lives: nat, configured: bool, returning: string -> Return, listing: Gap, answers: string -> Answer)

  ghost predicate Allowed(e: Event, known: set<Payload>) {
    match e
    case Others(gap) => Possible(gap, known)
    case DirectSnapshot(session, sequence, body, _) => Snapshot(session, sequence, body, true) in known
    case DirectRecord(callId, body, _) => Record(callId, body, true) in known
    case Pass(_, _, returning, listing, answers) =>
      Possible(listing, known) && forall n :: Feasible(returning(n), known) && Thinkable(answers(n), known)
  }

  /** Some pass found the webhook of this name removed. */
  ghost predicate FoundRemoved(schedule: seq<Event>, n: string) {
    exists e :: e in schedule && e.Pass? && e.answers(n).verdict == Removed
  }

  /** A queue at one moment. */
  datatype View = View(disk: Disk, now: real, left: nat, ledger: Ledger)

  /** What each event changes. A pass that the process survives answers for all that was due and leaves only
      fresh claims; one that it does not survive has used up its file operations. */
  ghost predicate Moves(kind: Kind, v: View, e: Event, w: View) {
    match e
    case Others(gap) =>
      w == v.(disk := After(kind, v.disk, gap, v.now), now := v.now + gap.elapsed,
              ledger := Owing(v.ledger, gap.arrivals))
    case DirectSnapshot(session, sequence, body, verdict) =>
      w == v.(ledger := Sent(v.ledger, IdempotencySource(session, sequence), Snapshot(session, sequence, body, true),
                             verdict))
    case DirectRecord(callId, body, verdict) =>
      w == v.(ledger := Sent(v.ledger, callId, Record(callId, body, true), verdict))
    case Pass(lives, configured, _, _, answers) =>
      && Grown(v.ledger, w.ledger) && v.now <= w.now && w.left <= lives
      && (w.left > 0 ==>
            && FreshOnly(v.disk, w.disk, v.now)
            && (kind != Billing || configured ==> BackAnswered(kind, v.disk, v.now, answers, v.ledger, w.ledger)))
  }

  /** The views from one end of a schedule to the other. */
  ghost predicate Follows(kind: Kind, schedule: seq<Event>, views: seq<View>) {
    |views| == |schedule| + 1 && forall k :: 0 <= k < |schedule| ==> Moves(kind, views[k], schedule[k], views[k + 1])
  }

  lemma FollowsOn(kind: Kind, schedule: seq<Event>, e: Event, views: seq<View>, w: View)
    requires Follows(kind, schedule, views) && Moves(kind, views[|schedule|], e, w)
    ensures Follows(kind, schedule + [e], views + [w])
  {
    var (more, longer) := (schedule + [e], views + [w]);
    forall k | 0 <= k < |more| ensures Moves(kind, longer[k], more[k], longer[k + 1]) {
      if k < |schedule| {
        assert Moves(kind, views[k], schedule[k], views[k + 1]);
      }
    }
  }

  method Step(q: Queue, e: Event)
    requires q.Valid() && q.now >= 0.0 && Allowed(e, q.known)
    modifies q
    ensures q.Valid() && q.now >= 0.0 && Grown(old(q.ledger), q.ledger)
    ensures forall p :: p in q.ledger.dropped ==>
              p in old(q.ledger).dropped || (e.Pass? && e.answers(p.id).verdict == Removed)
    ensures Moves(q.kind, old(q.Seen()), e, q.Seen())
  {
    match e
    case Others(gap) =>
      q.Pause(gap);
      NothingDropped(old(q.ledger), q.ledger);
    case DirectSnapshot(session, sequence, body, verdict) => q.SendSnapshot(session, sequence, body, verdict);
    case DirectRecord(callId, body, verdict) => q.SendRecord(callId, body, verdict);
    case Pass(lives, configured, returning, listing, answers) =>
      q.left := lives;
      var _ := q.Flush(configured, returning, listing, answers);
  }

  /** Whatever happens, in whatever order, whatever others enqueue between any two file operations, and
      wherever the process dies: what is owed is on disk, and a payload once owed stays so until it is
      acknowledged or its webhook is found removed; a webhook is buried only after ten failed attempts,
      anything else only when it is incomplete; an acknowledged payload was applied exactly once by a
      receiver that goes by the idempotency key, however often it was sent, directly or from the queue. */
  method Run(q: Queue, schedule: seq<Event>) returns (ghost views: seq<View>)
    requires q.Valid() && q.now >= 0.0 && forall k :: 0 <= k < |schedule| ==> Allowed(schedule[k], q.known)
    modifies q
    ensures q.Valid() && Grown(old(q.ledger), q.ledger)
    ensures forall p :: p in q.ledger.owed ==> OnDisk(q.disk, p)
    ensures forall p :: p in old(q.ledger).owed ==> OnDisk(q.disk, p) || p in q.ledger.acked || p in q.ledger.dropped
    ensures q.ledger.dropped != {} ==> q.kind == Webhook
    ensures forall p :: p in q.ledger.dropped ==> p in old(q.ledger).dropped || FoundRemoved(schedule, p.id)
    ensures DeadForAReason(q.kind, q.disk, q.ledger)
    ensures forall p :: p in q.ledger.acked ==> AppliedOnce(q.ledger.sent, p)
    ensures forall s :: s in q.ledger.sent ==> s.payload.complete
    ensures Follows(q.kind, schedule, views) && views[0] == old(q.Seen()) && views[|schedule|] == q.Seen()
  {
    views := [q.Seen()];
    for i := 0 to |schedule|
      invariant q.Valid() && q.now >= 0.0 && Grown(old(q.ledger), q.ledger)
      invariant Follows(q.kind, schedule[..i], views) && views[0] == old(q.Seen()) && views[i] == q.Seen()
      invariant forall p :: p in q.ledger.dropped ==> p in old(q.ledger).dropped || FoundRemoved(schedule[..i], p.id)
    {
      ghost var l := q.ledger;
      Step(q, schedule[i]);
      FollowsOn(q.kind, schedule[..i], schedule[i], views, q.Seen());
      assert schedule[..i + 1] == schedule[..i] + [schedule[i]];
      views := views + [q.Seen()];
      GrownOn(old(q.ledger), l, q.ledger);
      FoundSoFar(schedule, i);
    }
    assert schedule[..|schedule|] == schedule;
    OwedIsOnDisk(q.kind, q.known, q.disk, q.ledger);
    forall p | p in q.ledger.acked
      ensures AppliedOnce(q.ledger.sent, p)
    {
      SentIsAppliedOnce(q.ledger.sent, q.known, Delivery(p.id, p));
    }
  }

  lemma FoundSoFar(schedule: seq<Event>, i: nat)
    requires i < |schedule|
    ensures forall n ::
              (FoundRemoved(schedule[..i], n) || (schedule[i].Pass? && schedule[i].answers(n).verdict == Removed)) ==>
              FoundRemoved(schedule[..i + 1], n)
  {
    assert schedule[..i + 1] == schedule[..i] + [schedule[i]];
  }
}
