/** The durable outboxes: final billing snapshots, call logs and post-call webhooks wait as files in a
    directory. One consumer claims a file by renaming it, sends it, and unlinks or rewrites it, while
    others enqueue. This module is about the directory; the consumer is in `OutboxConsumer`. */
module Outbox {
  import opened Basics
  import opened Decimals

  datatype Kind = Billing | CallLog | Webhook

  /** `f"{session_id}:{sequence}"`: what the idempotency key of a usage report is the digest of, and the
      file name of a final one. */
  function IdempotencySource(session: string, sequence: nat): string {
    session + ":" + Decimal(sequence)
  }

  /** What is sent: a usage snapshot, or the record of a call. A payload that is not complete cannot be
      sent. File name and idempotency key are digests of `id`. */
  datatype Payload =
    | Snapshot(session: string, sequence: nat, body: string, complete: bool)
    | Record(callId: string, body: string, complete: bool)
  {
    const id: string := if Snapshot? then IdempotencySource(session, sequence) else callId
  }

  /** What reached the receiver, under which idempotency key. */
  datatype Delivery = Delivery(key: string, payload: Payload)

  datatype File = File(payload: Payload, attempts: nat, notBefore: real, written: real)

  /** The directory: `x.json`, `x.json.processing` and `dead-letter/x.json`, by name `x`. */
  datatype Disk = Disk(live: map<string, File>, claimed: map<string, File>, dead: map<string, File>)

  const STALE_SECONDS := 300.0
  const MAX_BACKOFF := 300.0
  const MAX_ATTEMPTS: nat := 10

  /** The pause before the next attempt, after so many failed ones. */
  function RetryDelay(kind: Kind, attempts: nat): (d: real)
    requires attempts >= 1
    ensures 1.0 <= d <= MAX_BACKOFF
  {
    var exponent := if kind == Webhook then attempts else if attempts - 1 < 10 then attempts - 1 else 10;
    if PowerOfTwo(exponent) < MAX_BACKOFF then PowerOfTwo(exponent) else MAX_BACKOFF
  }

  /** The pause doubles with each failed attempt, up to the maximum. */
  lemma RetryDelayDoubles(kind: Kind, attempts: nat)
    requires attempts >= 1
    ensures RetryDelay(kind, 1) == if kind == Webhook then 2.0 else 1.0
    ensures RetryDelay(kind, attempts + 1) ==
            if 2.0 * RetryDelay(kind, attempts) < MAX_BACKOFF then 2.0 * RetryDelay(kind, attempts) else MAX_BACKOFF
  {
    assert PowerOfTwo(1) == 2.0 * PowerOfTwo(0);
    if attempts >= 10 && kind != Webhook {
      TenIsEnough();
    }
  }

  lemma TenIsEnough()
    ensures PowerOfTwo(9) > MAX_BACKOFF && PowerOfTwo(10) > MAX_BACKOFF
  {
    assert PowerOfTwo(5) == 32.0;
    assert PowerOfTwo(10) == 2.0 * PowerOfTwo(9) == 4.0 * PowerOfTwo(8) == 8.0 * PowerOfTwo(7);
    assert PowerOfTwo(7) == 4.0 * PowerOfTwo(5);
  }

  /** What has happened so far: which payloads are enqueued and neither acknowledged nor given up, what
      reached the receiver, what was acknowledged, what was given up because its webhook was removed,
      and how many attempts failed for each name. */
  datatype Ledger = Ledger(owed: set<Payload>, sent: seq<Delivery>, acked: set<Payload>, dropped: set<Payload>,
                           failed: map<string, nat>)
  {
    function Failed(n: string): nat {
      if n in failed then failed[n] else 0
    }
  }

  /** What later ledgers keep: the receiver's log and the acknowledgements grow, and an owed payload is
      owed until it is acknowledged or dropped. */
  ghost predicate Grown(before: Ledger, after: Ledger) {
    && before.sent <= after.sent && before.acked <= after.acked && before.dropped <= after.dropped
    && (forall p :: p in before.owed ==> p in after.owed || p in after.acked || p in after.dropped)
    && (forall n :: before.Failed(n) <= after.Failed(n))
  }

  ghost predicate OnePayloadPerName(known: set<Payload>) {
    forall p, q :: p in known && q in known && p.id == q.id ==> p == q
  }

  ghost predicate Labelled(known: set<Payload>, files: map<string, File>) {
    forall n :: n in files ==> files[n].payload in known && files[n].payload.id == n
  }

  ghost predicate Counted(kind: Kind, files: map<string, File>, ledger: Ledger) {
    forall n :: n in files ==>
      files[n].attempts <= ledger.Failed(n) && (kind == Webhook ==> files[n].attempts < MAX_ATTEMPTS)
  }

  /** The name is on disk in one of the three places. */
  predicate Present(d: Disk, n: string) {
    n in d.live || n in d.claimed || n in d.dead
  }

  ghost predicate NothingLost(d: Disk, owed: set<Payload>) {
    forall p :: p in owed ==> Present(d, p.id)
  }

  ghost predicate DeadForAReason(kind: Kind, d: Disk, ledger: Ledger) {
    && (kind == Webhook ==> forall n :: n in d.dead ==> ledger.Failed(n) >= MAX_ATTEMPTS)
    && (kind != Webhook ==> forall n :: n in d.dead ==> !d.dead[n].payload.complete)
  }

  ghost predicate Safe(kind: Kind, known: set<Payload>, d: Disk, ledger: Ledger) {
    && OnePayloadPerName(known) && ledger.owed <= known
    && Labelled(known, d.live) && Labelled(known, d.claimed) && Labelled(known, d.dead)
    && Counted(kind, d.live, ledger) && Counted(kind, d.claimed, ledger)
    && NothingLost(d, ledger.owed)
    && DeadForAReason(kind, d, ledger)
    && (forall p :: p in ledger.acked ==> Delivery(p.id, p) in ledger.sent)
    && (forall s :: s in ledger.sent ==> s.payload in known && s.key == s.payload.id && s.payload.complete)
    && (ledger.dropped != {} ==> kind == Webhook)
  }

  /** The payload itself, not merely its name, is in a file. */
  predicate OnDisk(d: Disk, p: Payload) {
    || (p.id in d.live && d.live[p.id].payload == p)
    || (p.id in d.claimed && d.claimed[p.id].payload == p)
    || (p.id in d.dead && d.dead[p.id].payload == p)
  }

  lemma OwedIsOnDisk(kind: Kind, known: set<Payload>, d: Disk, ledger: Ledger)
    requires Safe(kind, known, d, ledger)
    ensures forall p :: p in ledger.owed ==> OnDisk(d, p)
  {
  }

  // ---- File operations ----

  function WriteLive(d: Disk, n: string, f: File): Disk {
    d.(live := d.live[n := f])
  }

  function UnlinkClaim(d: Disk, n: string): Disk {
    d.(claimed := d.claimed - {n})
  }

  /** `path.rename(claimed)`: the time of the last write stays. */
  function Claim(d: Disk, n: string): Disk
    requires n in d.live
  {
    d.(live := d.live - {n}, claimed := d.claimed[n := d.live[n]])
  }

  function Unclaim(d: Disk, n: string): Disk
    requires n in d.claimed
  {
    d.(live := d.live[n := d.claimed[n]], claimed := d.claimed - {n})
  }

  function Bury(d: Disk, n: string): Disk
    requires n in d.claimed
  {
    d.(dead := d.dead[n := d.claimed[n]], claimed := d.claimed - {n})
  }

  lemma ClaimIsSafe(kind: Kind, known: set<Payload>, d: Disk, ledger: Ledger, n: string)
    requires Safe(kind, known, d, ledger) && n in d.live
    ensures Safe(kind, known, Claim(d, n), ledger)
  {
  }

  lemma UnclaimIsSafe(kind: Kind, known: set<Payload>, d: Disk, ledger: Ledger, n: string)
    requires Safe(kind, known, d, ledger) && n in d.claimed
    ensures Safe(kind, known, Unclaim(d, n), ledger)
  {
  }

  lemma BuryIsSafe(kind: Kind, known: set<Payload>, d: Disk, ledger: Ledger, n: string)
    requires Safe(kind, known, d, ledger) && n in d.claimed
    requires if kind == Webhook then ledger.Failed(n) >= MAX_ATTEMPTS else !d.claimed[n].payload.complete
    ensures Safe(kind, known, Bury(d, n), ledger)
  {
  }

  /** A claim may go once its payload is no longer owed, or once the live file is there. */
  lemma UnlinkIsSafe(kind: Kind, known: set<Payload>, d: Disk, ledger: Ledger, n: string)
    requires Safe(kind, known, d, ledger)
    requires n in d.live || forall p :: p in ledger.owed ==> p.id != n
    ensures Safe(kind, known, UnlinkClaim(d, n), ledger)
  {
  }

  lemma WriteIsSafe(kind: Kind, known: set<Payload>, d: Disk, ledger: Ledger, f: File)
    requires Safe(kind, known, d, ledger) && f.payload in known
    requires f.attempts <= ledger.Failed(f.payload.id) && (kind == Webhook ==> f.attempts < MAX_ATTEMPTS)
    ensures Safe(kind, known, WriteLive(d, f.payload.id, f), ledger)
  {
  }

  // ---- What happens outside the directory ----

  lemma OweIsSafe(kind: Kind, known: set<Payload>, d: Disk, ledger: Ledger, p: Payload)
    requires Safe(kind, known, d, ledger) && p in known && p.id in d.live
    ensures Safe(kind, known, d, ledger.(owed := ledger.owed + {p}))
  {
    var more := ledger.(owed := ledger.owed + {p});
    assert forall n :: more.Failed(n) == ledger.Failed(n);
    assert NothingLost(d, more.owed);
  }

  lemma SentIsSafe(kind: Kind, known: set<Payload>, d: Disk, ledger: Ledger, key: string, p: Payload)
    requires Safe(kind, known, d, ledger) && p in known && key == p.id && p.complete
    ensures Safe(kind, known, d, ledger.(sent := ledger.sent + [Delivery(key, p)]))
  {
  }

  lemma AckedIsSafe(kind: Kind, known: set<Payload>, d: Disk, ledger: Ledger, p: Payload)
    requires Safe(kind, known, d, ledger) && Delivery(p.id, p) in ledger.sent
    ensures Safe(kind, known, d, ledger.(acked := ledger.acked + {p}, owed := ledger.owed - {p}))
  {
  }

  lemma DroppedIsSafe(known: set<Payload>, d: Disk, ledger: Ledger, p: Payload)
    requires Safe(Webhook, known, d, ledger)
    ensures Safe(Webhook, known, d, ledger.(dropped := ledger.dropped + {p}, owed := ledger.owed - {p}))
  {
  }

  function CountFailure(ledger: Ledger, n: string): (next: Ledger)
    ensures next.Failed(n) == ledger.Failed(n) + 1
    ensures forall m :: m != n ==> next.Failed(m) == ledger.Failed(m)
  {
    ledger.(failed := ledger.failed[n := ledger.Failed(n) + 1])
  }

  lemma FailureIsSafe(kind: Kind, known: set<Payload>, d: Disk, ledger: Ledger, n: string)
    requires Safe(kind, known, d, ledger)
    ensures Safe(kind, known, d, CountFailure(ledger, n))
  {
    var next := CountFailure(ledger, n);
    assert forall m :: ledger.Failed(m) <= next.Failed(m);
  }

  /** How an attempt to deliver ends. Only a webhook can be found removed. */
  datatype Verdict = Accepted | ReplyLost | Refused | Removed

  /** Nobody enqueues while a name is handled. */
  predicate Calm(a: Answer) {
    && a.claiming.arrivals == a.reading.arrivals == a.awaiting.arrivals == []
    && a.settling.arrivals == a.unlinking.arrivals == []
  }

  /** A name is handled from this time on, in this way. */
  datatype Round = Round(at: real, a: Answer)

  function AfterRounds(kind: Kind, d: Disk, n: string, rounds: seq<Round>): Disk {
    if rounds == [] then d
    else
      var last := rounds[|rounds| - 1];
      Handled(kind, AfterRounds(kind, d, n, rounds[..|rounds| - 1]), n, last.a, last.at)
  }

  /** The payload is not acknowledged, and nothing says that nobody wants it: without its fields a webhook is
      not even sent, and no other payload can be found removed. */
  predicate Fails(kind: Kind, p: Payload, verdict: Verdict) {
    if kind == Webhook then !p.complete || verdict in {Refused, ReplyLost} else verdict != Accepted
  }

  /** Each time the file is due, if it is there, nobody enqueues, and the attempt fails. */
  ghost predicate RefusedWhenDue(kind: Kind, d: Disk, n: string, rounds: seq<Round>)
    requires n in d.live
  {
    forall k :: 0 <= k < |rounds| ==>
      && Calm(rounds[k].a) && Fails(kind, d.live[n].payload, rounds[k].a.verdict)
      && var before := AfterRounds(kind, d, n, rounds[..k]);
         n in before.live ==>
           before.live[n].notBefore <= rounds[k].at + rounds[k].a.claiming.elapsed + rounds[k].a.reading.elapsed
  }

  /** One failure: the attempt is counted, and the tenth of a webhook buries it. */
  lemma RefusedOnce(kind: Kind, d: Disk, n: string, a: Answer, now: real)
    requires n in d.live && n !in d.claimed && Calm(a) && Fails(kind, d.live[n].payload, a.verdict)
    requires d.live[n].notBefore <= now + a.claiming.elapsed + a.reading.elapsed
    requires kind == Webhook || d.live[n].payload.complete
    ensures var (w, f) := (Handled(kind, d, n, a, now), d.live[n]);
            && n !in w.claimed
            && if kind == Webhook && f.attempts + 1 >= MAX_ATTEMPTS
               then n !in w.live && n in w.dead && w.dead[n].payload == f.payload
               else n in w.live && w.live[n].payload == f.payload && w.live[n].attempts == f.attempts + 1
  {
  }

  /** A file that is due leaves the directory when it is accepted, or when its webhook is found removed; one
      that cannot be sent at all is buried at once, and a webhook's fails like a refused one. */
  lemma SettledForGood(kind: Kind, d: Disk, n: string, a: Answer, now: real)
    requires n in d.live && n !in d.claimed && Calm(a)
    requires d.live[n].notBefore <= now + a.claiming.elapsed + a.reading.elapsed
    ensures var (w, f) := (Handled(kind, d, n, a, now), d.live[n]);
            && (f.payload.complete && (a.verdict == Accepted || (a.verdict == Removed && kind == Webhook)) ==>
                  n !in w.live && n !in w.claimed && w.dead == d.dead)
            && (!f.payload.complete && kind != Webhook ==>
                  n !in w.live && n !in w.claimed && n in w.dead && w.dead[n].payload == f.payload)
  {
  }

  /** A file whose attempts fail over and over stays in the queue with its attempts counted, until ten of
      them bury it if it is a webhook's. */
  lemma {:induction false} RefusedTimes(kind: Kind, d: Disk, n: string, rounds: seq<Round>)
    requires n in d.live && n !in d.claimed && d.live[n].attempts == 0
    requires kind == Webhook || d.live[n].payload.complete
    requires RefusedWhenDue(kind, d, n, rounds)
    ensures var w := AfterRounds(kind, d, n, rounds);
            && n !in w.claimed
            && if kind == Webhook && |rounds| >= MAX_ATTEMPTS
               then n !in w.live && n in w.dead && w.dead[n].payload == d.live[n].payload
               else n in w.live && w.live[n].payload == d.live[n].payload && w.live[n].attempts == |rounds|
  {
    if rounds != [] {
      var k := |rounds| - 1;
      var before := AfterRounds(kind, d, n, rounds[..k]);
      assert forall j :: 0 <= j < k ==> rounds[..k][..j] == rounds[..j];
      RefusedTimes(kind, d, n, rounds[..k]);
      if n in before.live {
        RefusedOnce(kind, before, n, rounds[k].a, rounds[k].at);
      }
    }
  }

  /** A webhook payload that is not complete fails before anything is sent; only a webhook can be gone. */
  function Effective(kind: Kind, p: Payload, verdict: Verdict): Verdict {
    if kind == Webhook && !p.complete then Refused
    else if kind != Webhook && verdict == Removed then Refused
    else verdict
  }

  // ---- What others do ----

  /** A payload that is enqueued. A webhook is written unless its file is seen to be there; `unseen` says
      that it came there only after its producer had looked. */
  datatype Arrival = Arrival(payload: Payload, unseen: bool)

  ghost predicate From(arrivals: seq<Arrival>, known: set<Payload>) {
    forall k :: 0 <= k < |arrivals| ==> arrivals[k].payload in known
  }

  function Enqueued(kind: Kind, d: Disk, a: Arrival, now: real): Disk {
    if kind == Webhook && !a.unseen && a.payload.id in d.live then d
    else WriteLive(d, a.payload.id, File(a.payload, 0, 0.0, now))
  }

  function {:tailrecursion false} EnqueuedAll(kind: Kind, d: Disk, arrivals: seq<Arrival>, now: real): (after: Disk)
    ensures after.claimed == d.claimed && after.dead == d.dead
    decreases |arrivals|
  {
    if arrivals == [] then d
    else Enqueued(kind, EnqueuedAll(kind, d, arrivals[..|arrivals| - 1], now), arrivals[|arrivals| - 1], now)
  }

  /** The consumer is between two file operations, or awaits an answer: time passes and others enqueue. */
  datatype Gap = Gap(elapsed: real, arrivals: seq<Arrival>)

  ghost predicate Possible(g: Gap, known: set<Payload>) {
    g.elapsed >= 0.0 && From(g.arrivals, known)
  }

  function After(kind: Kind, d: Disk, g: Gap, now: real): (after: Disk)
    ensures after.claimed == d.claimed && after.dead == d.dead
  {
    EnqueuedAll(kind, d, g.arrivals, now + g.elapsed)
  }

  /** Of two payloads enqueued under one name, one is lost. */
  lemma CollisionLosesOne(kind: Kind, p: Payload, q: Payload, now: real)
    requires p.id == q.id && p != q
    ensures var d := Enqueued(kind, Enqueued(kind, EMPTY, Arrival(p, false), now), Arrival(q, false), now);
            if kind == Webhook then OnDisk(d, p) && !OnDisk(d, q) else !OnDisk(d, p) && OnDisk(d, q)
  {
  }

  const EMPTY := Disk(map[], map[], map[])

  /** Whatever is enqueued of `known`, all of it is on disk. */
  ghost predicate EnqueuesKeepAll(kind: Kind, known: set<Payload>) {
    forall arrivals: seq<Arrival>, now, k :: From(arrivals, known) && 0 <= k < |arrivals| ==>
      OnDisk(EnqueuedAll(kind, EMPTY, arrivals, now), arrivals[k].payload)
  }

  /** Enqueuing loses nothing if and only if each name stands for one payload. That nothing is lost
      afterwards either is `OutboxConsumer.Run`. */
  lemma EnqueuesKeepAllIff(kind: Kind, known: set<Payload>)
    ensures EnqueuesKeepAll(kind, known) <==> OnePayloadPerName(known)
  {
    if OnePayloadPerName(known) {
      forall arrivals: seq<Arrival>, now, k | From(arrivals, known) && 0 <= k < |arrivals|
        ensures OnDisk(EnqueuedAll(kind, EMPTY, arrivals, now), arrivals[k].payload)
      {
        ArrivedIsLive(kind, known, arrivals, now, k);
      }
    } else {
      var p, q :| p in known && q in known && p.id == q.id && p != q;
      CollisionLosesOne(kind, p, q, 0.0);
      var two := [Arrival(p, false), Arrival(q, false)];
      TwoArrivals(kind, EMPTY, two[0], two[1], 0.0);
      assert two[0].payload == p && two[1].payload == q && From(two, known);
    }
  }

  lemma TwoArrivals(kind: Kind, d: Disk, a: Arrival, b: Arrival, now: real)
    ensures EnqueuedAll(kind, d, [a, b], now) == Enqueued(kind, Enqueued(kind, d, a, now), b, now)
  {
    assert [a, b][..1] == [a] && [a][..0] == [];
    assert EnqueuedAll(kind, d, [a], now) == Enqueued(kind, d, a, now);
  }

  lemma {:induction false} ArrivedIsLive(kind: Kind, known: set<Payload>, arrivals: seq<Arrival>, now: real, k: nat)
    requires OnePayloadPerName(known) && k < |arrivals| && From(arrivals, known)
    ensures IsLive(EnqueuedAll(kind, EMPTY, arrivals, now), arrivals[k].payload)
    decreases |arrivals|
  {
    var n := |arrivals| - 1;
    var earlier := arrivals[..n];
    EnqueuedAllLabelled(kind, known, EMPTY, earlier, now);
    if k < n {
      ArrivedIsLive(kind, known, earlier, now, k);
    }
    ArriveOne(kind, known, EnqueuedAll(kind, EMPTY, earlier, now), arrivals[n], now, arrivals[k].payload);
  }

  predicate IsLive(d: Disk, p: Payload) {
    p.id in d.live && d.live[p.id].payload == p
  }

  lemma ArriveOne(kind: Kind, known: set<Payload>, d: Disk, a: Arrival, now: real, p: Payload)
    requires OnePayloadPerName(known) && Labelled(known, d.live) && a.payload in known && p in known
    requires p == a.payload || IsLive(d, p)
    ensures IsLive(Enqueued(kind, d, a, now), p)
  {
  }

  // ---- One name ----

  /** How an attempt ends, and what happens before the claim, before the file is looked at, while the answer
      is awaited, before it is acted upon, and between a rewrite and the unlink of the claim. */
  datatype Answer = Answer(verdict: Verdict, claiming: Gap, reading: Gap, awaiting: Gap, settling: Gap, unlinking: Gap)

  ghost predicate Thinkable(a: Answer, known: set<Payload>) {
    && Possible(a.claiming, known) && Possible(a.reading, known) && Possible(a.awaiting, known)
    && Possible(a.settling, known) && Possible(a.unlinking, known)
  }

  /** The file that is tried again. */
  function Again(kind: Kind, f: File, now: real): File {
    File(f.payload, f.attempts + 1, now + RetryDelay(kind, f.attempts + 1), now)
  }

  /** The directory after a claimed file has been answered for, if the process lives. */
  function Resolved(kind: Kind, d: Disk, n: string, verdict: Verdict, unlinking: Gap, now: real): Disk
    requires n in d.claimed
  {
    var f := d.claimed[n];
    if verdict == Accepted || (verdict == Removed && kind == Webhook) then UnlinkClaim(d, n)
    else if kind == Webhook && f.attempts + 1 >= MAX_ATTEMPTS then Bury(d, n)
    else UnlinkClaim(After(kind, WriteLive(d, n, Again(kind, f, now)), unlinking, now), n)
  }

  /** ... with what happens before it is acted upon. */
  function Settled(kind: Kind, d: Disk, n: string, verdict: Verdict, settling: Gap, unlinking: Gap, now: real): Disk
    requires n in d.claimed
  {
    Resolved(kind, After(kind, d, settling, now), n, verdict, unlinking, now + settling.elapsed)
  }

  /** ... and while it is awaited. */
  function Delivered(kind: Kind, d: Disk, n: string, a: Answer, now: real): Disk
    requires n in d.claimed
  {
    Settled(kind, After(kind, d, a.awaiting, now), n, Effective(kind, d.claimed[n].payload, a.verdict), a.settling,
            a.unlinking, now + a.awaiting.elapsed)
  }

  /** The directory after a claimed file has been looked at and answered for. */
  function Finished(kind: Kind, d: Disk, n: string, a: Answer, now: real): Disk
    requires n in d.claimed
  {
    var f := d.claimed[n];
    if f.notBefore > now then Unclaim(After(kind, d, a.settling, now), n)
    else if kind != Webhook && !f.payload.complete then Bury(After(kind, d, a.settling, now), n)
    else Delivered(kind, d, n, a, now)
  }

  /** ... with what happens before it is looked at. */
  function Looked(kind: Kind, d: Disk, n: string, a: Answer, now: real): Disk
    requires n in d.claimed
  {
    Finished(kind, After(kind, d, a.reading, now), n, a, now + a.reading.elapsed)
  }

  /** The directory after one listed name has been handled, if the process lives. */
  function Handled(kind: Kind, d: Disk, n: string, a: Answer, now: real): Disk {
    var there := After(kind, d, a.claiming, now);
    if n !in there.live then there else Looked(kind, Claim(there, n), n, a, now + a.claiming.elapsed)
  }

  /** A file that is not due is back where it was, untouched, when nobody enqueues meanwhile. */
  lemma NotDueIsUntouched(kind: Kind, d: Disk, n: string, a: Answer, now: real)
    requires n in d.live && n !in d.claimed && d.live[n].notBefore > now + a.claiming.elapsed + a.reading.elapsed
    requires a.claiming.arrivals == a.reading.arrivals == a.settling.arrivals == []
    ensures Handled(kind, d, n, a, now) == d
  {
    assert Unclaim(Claim(d, n), n).live == d.live;
    assert Unclaim(Claim(d, n), n).claimed == d.claimed;
  }

  /** A consumer that lives leaves no claim behind. */
  lemma HandledUnclaims(kind: Kind, d: Disk, n: string, a: Answer, now: real)
    ensures Handled(kind, d, n, a, now).claimed
            == if n in After(kind, d, a.claiming, now).live then d.claimed - {n} else d.claimed
  {
    var there := After(kind, d, a.claiming, now);
    if n in there.live {
      assert Claim(there, n).claimed - {n} == d.claimed - {n};
    }
  }

  // ---- The receiver ----

  ghost predicate Seen(log: seq<Delivery>, key: string) {
    exists s :: s in log && s.key == key
  }

  /** What a receiver applies that ignores a key it has seen. */
  ghost function Applied(log: seq<Delivery>): (applied: seq<Delivery>)
    ensures forall k :: 0 <= k < |applied| ==> applied[k] in log
    ensures forall s :: s in log ==> Seen(applied, s.key)
    ensures forall j, k :: 0 <= j < k < |applied| ==> applied[j].key != applied[k].key
  {
    if log == [] then []
    else
      var earlier, last := Applied(log[..|log| - 1]), log[|log| - 1];
      assert log == log[..|log| - 1] + [last];
      if Seen(earlier, last.key) then earlier else earlier + [last]
  }

  /** The receiver applied exactly this payload under its key, and once. */
  ghost predicate AppliedOnce(log: seq<Delivery>, p: Payload) {
    var applied := Applied(log);
    exists k :: 0 <= k < |applied| && applied[k].payload == p
      && forall j :: 0 <= j < |applied| && applied[j].key == p.id ==> j == k
  }

  /** However often a payload is sent, directly or from the queue, it is applied once. */
  lemma SentIsAppliedOnce(log: seq<Delivery>, known: set<Payload>, s: Delivery)
    requires OnePayloadPerName(known) && s in log
    requires forall t :: t in log ==> t.payload in known && t.key == t.payload.id
    ensures AppliedOnce(log, s.payload)
  {
    var applied := Applied(log);
    assert Seen(applied, s.key);
    var t :| t in applied && t.key == s.key;
    var k :| 0 <= k < |applied| && applied[k] == t;
    assert applied[k] in log && t.payload == s.payload;
  }

  /** A report that is sent by the reporter and again from its file goes out under one key, under which
      nothing else is sent, so it is applied once. */
  lemma BothWaysAreOne(log: seq<Delivery>, known: set<Payload>, session: string, sequence: nat, body: string,
          s: Delivery)
    requires OnePayloadPerName(known) && s in log
    requires forall t :: t in log ==> t.payload in known && t.key == t.payload.id
    requires Delivery(IdempotencySource(session, sequence), Snapshot(session, sequence, body, true)) in log
    ensures s.key == IdempotencySource(session, sequence) <==> s.payload == Snapshot(session, sequence, body, true)
    ensures AppliedOnce(log, Snapshot(session, sequence, body, true))
  {
    SentIsAppliedOnce(log, known, Delivery(IdempotencySource(session, sequence),
                                           Snapshot(session, sequence, body, true)));
  }

  lemma AfterTheLastColon(session: string, sequence: nat)
    ensures var s := IdempotencySource(session, sequence);
            && |s| > |session| && s[|session|] == ':'
            && forall k :: |session| < k < |s| ==> s[k] != ':'
  {
    var s, digits := IdempotencySource(session, sequence), Decimal(sequence);
    forall k | |session| < k < |s|
      ensures s[k] != ':'
    {
      assert s[k] == digits[k - |session| - 1];
    }
  }

  /** Two reports share a source only when they are of the same session and number, colons in the session
      id or not. */
  lemma SourceInjective(s: string, m: nat, t: string, n: nat)
    ensures IdempotencySource(s, m) == IdempotencySource(t, n) <==> s == t && m == n
  {
    var whole := IdempotencySource(s, m);
    if whole == IdempotencySource(t, n) {
      AfterTheLastColon(s, m);
      AfterTheLastColon(t, n);
      assert |s| == |t|;
      assert s == whole[..|s|] && t == whole[..|t|];
      assert Decimal(m) == whole[|s| + 1..] && Decimal(n) == whole[|t| + 1..];
      DecimalInjective(m, n);
    }
  }

  /** Final snapshots, one for each session and number, have a name each. */
  lemma SnapshotsHaveOwnNames(snapshots: map<(string, nat), string>)
    ensures OnePayloadPerName(set k | k in snapshots :: Snapshot(k.0, k.1, snapshots[k], true))
  {
    forall j, k | j in snapshots && k in snapshots && IdempotencySource(j.0, j.1) == IdempotencySource(k.0, k.1)
      ensures j == k
    {
      SourceInjective(j.0, j.1, k.0, k.1);
    }
  }

  // ---- Stale claims ----

  function Stale(f: File, now: real): bool {
    f.written <= now - STALE_SECONDS
  }

  /** What happens before it is looked at whether the live file is there, and before the claim goes. */
  datatype Return = Return(looking: Gap, moving: Gap)

  ghost predicate Feasible(r: Return, known: set<Payload>) {
    Possible(r.looking, known) && Possible(r.moving, known)
  }

  /** Billing prefers a live file that it sees; the other two replace it. */
  function ReclaimOne(kind: Kind, d: Disk, n: string, r: Return, now: real): Disk
    requires n in d.claimed
  {
    var there := After(kind, d, r.looking, now);
    var moved := After(kind, there, r.moving, now + r.looking.elapsed);
    if kind == Billing && n in there.live then UnlinkClaim(moved, n) else Unclaim(moved, n)
  }

  function LiveAt(d: Disk, n: string): Option<File> {
    if n in d.live then Some(d.live[n]) else None
  }

  /** What is in the live queue under a name once the stale claims, but those still to do, are back. */
  function BackAt(kind: Kind, before: Disk, todo: set<string>, n: string, start: real): Option<File> {
    if n in before.claimed && n !in todo && Stale(before.claimed[n], start) && !(kind == Billing && n in before.live)
    then Some(before.claimed[n])
    else LiveAt(before, n)
  }

  /** The same file, or one enqueued anew with the same payload. */
  predicate SameOrNew(f: File, g: File) {
    g == f || (g.payload == f.payload && g.notBefore == 0.0)
  }

  /** A file is still there, as it was or anew; one that was not there before is new. */
  ghost predicate StaysLive(f: Option<File>, d: Disk, n: string) {
    if f.Some? then n in d.live && SameOrNew(f.value, d.live[n]) else n in d.live ==> d.live[n].notBefore == 0.0
  }

  /** The claims that are left are those still to do and those that are not stale; every stale claim but
      those still to do is back in the live queue, and what was live still is. */
  ghost predicate Returned(kind: Kind, before: Disk, d: Disk, todo: set<string>, start: real) {
    && d.dead == before.dead
    && (forall n :: n in d.claimed <==> n in before.claimed && (n in todo || !Stale(before.claimed[n], start)))
    && (forall n :: n in d.claimed ==> d.claimed[n] == before.claimed[n])
    && (forall n :: StaysLive(BackAt(kind, before, todo, n, start), d, n))
  }

  /** ... and, when nobody enqueues meanwhile, nothing else has changed. */
  ghost predicate Undisturbed(kind: Kind, before: Disk, d: Disk, todo: set<string>, start: real) {
    forall n :: LiveAt(d, n) == BackAt(kind, before, todo, n, start)
  }

  lemma {:induction false} EnqueuedAllKeeps(kind: Kind, known: set<Payload>, d: Disk, arrivals: seq<Arrival>,
          now: real, m: string)
    requires OnePayloadPerName(known) && Labelled(known, d.live) && From(arrivals, known)
    ensures StaysLive(LiveAt(d, m), EnqueuedAll(kind, d, arrivals, now), m)
    decreases |arrivals|
  {
    if arrivals != [] {
      var earlier := arrivals[..|arrivals| - 1];
      EnqueuedAllKeeps(kind, known, d, earlier, now, m);
      EnqueuedAllLabelled(kind, known, d, earlier, now);
      var between := EnqueuedAll(kind, d, earlier, now);
      ArrivalKeeps(kind, known, between, arrivals[|arrivals| - 1], now, m);
      StaysOn(LiveAt(d, m), between, Enqueued(kind, between, arrivals[|arrivals| - 1], now), m);
    }
  }

  lemma ArrivalKeeps(kind: Kind, known: set<Payload>, d: Disk, a: Arrival, now: real, m: string)
    requires OnePayloadPerName(known) && Labelled(known, d.live) && a.payload in known
    ensures StaysLive(LiveAt(d, m), Enqueued(kind, d, a, now), m)
  {
  }

  lemma StaysOn(f: Option<File>, d: Disk, e: Disk, m: string)
    requires StaysLive(f, d, m) && StaysLive(LiveAt(d, m), e, m)
    ensures StaysLive(f, e, m)
  {
  }

  lemma {:induction false} EnqueuedAllLabelled(kind: Kind, known: set<Payload>, d: Disk, arrivals: seq<Arrival>,
          now: real)
    requires Labelled(known, d.live) && From(arrivals, known)
    ensures Labelled(known, EnqueuedAll(kind, d, arrivals, now).live)
    decreases |arrivals|
  {
    if arrivals != [] {
      EnqueuedAllLabelled(kind, known, d, arrivals[..|arrivals| - 1], now);
      assert arrivals[|arrivals| - 1].payload in known;
    }
  }

  /** What others enqueue leaves every live file there, as it was or anew. */
  lemma AfterKeeps(kind: Kind, known: set<Payload>, d: Disk, g: Gap, now: real)
    requires OnePayloadPerName(known) && Labelled(known, d.live) && Possible(g, known)
    ensures Labelled(known, After(kind, d, g, now).live)
    ensures forall m :: StaysLive(LiveAt(d, m), After(kind, d, g, now), m)
  {
    EnqueuedAllLabelled(kind, known, d, g.arrivals, now + g.elapsed);
    forall m
      ensures StaysLive(LiveAt(d, m), After(kind, d, g, now), m)
    {
      EnqueuedAllKeeps(kind, known, d, g.arrivals, now + g.elapsed, m);
    }
  }

  // ---- The other names ----

  ghost predicate Tidy(known: set<Payload>, d: Disk) {
    OnePayloadPerName(known) && Labelled(known, d.live) && Labelled(known, d.claimed)
  }

  /** The files under other names than `n` are there, as they were or anew. */
  ghost predicate OthersStay(d: Disk, e: Disk, n: string) {
    forall m :: m != n ==> StaysLive(LiveAt(d, m), e, m)
  }

  lemma OthersStayOn(d: Disk, e: Disk, f: Disk, n: string)
    requires OthersStay(d, e, n) && OthersStay(e, f, n)
    ensures OthersStay(d, f, n)
  {
    forall m | m != n
      ensures StaysLive(LiveAt(d, m), f, m)
    {
      StaysOn(LiveAt(d, m), e, f, m);
    }
  }

  lemma GapKeeps(kind: Kind, known: set<Payload>, d: Disk, g: Gap, now: real, n: string)
    requires Tidy(known, d) && Possible(g, known)
    ensures Tidy(known, After(kind, d, g, now)) && OthersStay(d, After(kind, d, g, now), n)
  {
    AfterKeeps(kind, known, d, g, now);
  }

  /** A file operation under one name leaves the other names alone. */
  lemma OneOperation(d: Disk, e: Disk, n: string)
    requires forall m :: m != n ==> LiveAt(d, m) == LiveAt(e, m)
    ensures OthersStay(d, e, n)
  {
    forall m | m != n
      ensures StaysLive(LiveAt(d, m), e, m)
    {
      assert LiveAt(d, m) == LiveAt(e, m);
    }
  }

  lemma ResolvedKeeps(kind: Kind, known: set<Payload>, d: Disk, n: string, verdict: Verdict, unlinking: Gap, now: real)
    requires Tidy(known, d) && n in d.claimed && Possible(unlinking, known)
    ensures OthersStay(d, Resolved(kind, d, n, verdict, unlinking, now), n)
  {
    var f := d.claimed[n];
    if verdict == Accepted || (verdict == Removed && kind == Webhook) ||
      (kind == Webhook && f.attempts + 1 >= MAX_ATTEMPTS) {
      OneOperation(d, Resolved(kind, d, n, verdict, unlinking, now), n);
    } else {
      var written := WriteLive(d, n, Again(kind, f, now));
      var moved := After(kind, written, unlinking, now);
      OneOperation(d, written, n);
      GapKeeps(kind, known, written, unlinking, now, n);
      OneOperation(moved, UnlinkClaim(moved, n), n);
      OthersStayOn(d, written, moved, n);
      OthersStayOn(d, moved, UnlinkClaim(moved, n), n);
    }
  }

  lemma SettledKeeps(kind: Kind, known: set<Payload>, d: Disk, n: string, verdict: Verdict, settling: Gap,
          unlinking: Gap, now: real)
    requires Tidy(known, d) && n in d.claimed && Possible(settling, known) && Possible(unlinking, known)
    ensures OthersStay(d, Settled(kind, d, n, verdict, settling, unlinking, now), n)
  {
    var settled := After(kind, d, settling, now);
    GapKeeps(kind, known, d, settling, now, n);
    ResolvedKeeps(kind, known, settled, n, verdict, unlinking, now + settling.elapsed);
    OthersStayOn(d, settled, Settled(kind, d, n, verdict, settling, unlinking, now), n);
  }

  lemma DeliveredKeeps(kind: Kind, known: set<Payload>, d: Disk, n: string, a: Answer, now: real)
    requires Tidy(known, d) && n in d.claimed && Thinkable(a, known)
    ensures OthersStay(d, Delivered(kind, d, n, a, now), n)
  {
    var sent := After(kind, d, a.awaiting, now);
    var verdict := Effective(kind, d.claimed[n].payload, a.verdict);
    GapKeeps(kind, known, d, a.awaiting, now, n);
    SettledKeeps(kind, known, sent, n, verdict, a.settling, a.unlinking, now + a.awaiting.elapsed);
    OthersStayOn(d, sent, Delivered(kind, d, n, a, now), n);
  }

  lemma FinishedKeeps(kind: Kind, known: set<Payload>, d: Disk, n: string, a: Answer, now: real)
    requires Tidy(known, d) && n in d.claimed && Thinkable(a, known)
    ensures OthersStay(d, Finished(kind, d, n, a, now), n)
  {
    var f := d.claimed[n];
    if f.notBefore > now || (kind != Webhook && !f.payload.complete) {
      var settled := After(kind, d, a.settling, now);
      GapKeeps(kind, known, d, a.settling, now, n);
      OneOperation(settled, Finished(kind, d, n, a, now), n);
      OthersStayOn(d, settled, Finished(kind, d, n, a, now), n);
    } else {
      DeliveredKeeps(kind, known, d, n, a, now);
    }
  }

  /** Handling one name leaves every other file there, with its payload; if it is written anew it is due. */
  lemma HandledKeepsOthers(kind: Kind, known: set<Payload>, d: Disk, n: string, a: Answer, now: real)
    requires Tidy(known, d) && Thinkable(a, known)
    ensures OthersStay(d, Handled(kind, d, n, a, now), n)
  {
    var there := After(kind, d, a.claiming, now);
    GapKeeps(kind, known, d, a.claiming, now, n);
    if n in there.live {
      ClaimedKeeps(kind, known, there, n, a, now + a.claiming.elapsed);
      OthersStayOn(d, there, Handled(kind, d, n, a, now), n);
    }
  }

  lemma ClaimedKeeps(kind: Kind, known: set<Payload>, d: Disk, n: string, a: Answer, now: real)
    requires Tidy(known, d) && Thinkable(a, known) && n in d.live
    ensures OthersStay(d, Looked(kind, Claim(d, n), n, a, now), n)
  {
    var claimed := Claim(d, n);
    var read := After(kind, claimed, a.reading, now);
    OneOperation(d, claimed, n);
    GapKeeps(kind, known, claimed, a.reading, now, n);
    FinishedKeeps(kind, known, read, n, a, now + a.reading.elapsed);
    OthersStayOn(d, claimed, read, n);
    OthersStayOn(d, read, Looked(kind, claimed, n, a, now), n);
  }

  // ---- A whole pass ----

  /** Every claim is an earlier one that was not stale. */
  ghost predicate FreshOnly(before: Disk, d: Disk, now: real) {
    forall n :: n in d.claimed ==> n in before.claimed && d.claimed[n] == before.claimed[n] && !Stale(d.claimed[n], now)
  }

  /** What an attempt leads to: an acknowledgement, a drop, or one more counted failure. */
  ghost predicate Answered(before: Ledger, after: Ledger, p: Payload, verdict: Verdict) {
    match verdict
    case Accepted => p in after.acked
    case Removed => p in after.dropped
    case _ => before.Failed(p.id) < after.Failed(p.id)
  }

  /** The file is due and will be sent. */
  predicate Sendable(kind: Kind, f: File, now: real) {
    f.notBefore <= now && (kind == Webhook || f.payload.complete)
  }

  /** The sendable files listed at the start that are not done yet are still there and sendable. */
  ghost predicate StillThere(kind: Kind, listed: Disk, d: Disk, todo: set<string>, start: real, now: real) {
    forall n :: n in todo && n in listed.live && Sendable(kind, listed.live[n], start) ==>
      n in d.live && d.live[n].payload == listed.live[n].payload && Sendable(kind, d.live[n], now)
  }

  /** The sendable files listed at the start, but those still to do, have been sent and answered for. */
  ghost predicate AllAnswered(kind: Kind, listed: Disk, todo: set<string>, start: real, answers: string -> Answer,
          before: Ledger, after: Ledger)
  {
    forall n :: n in listed.live && n !in todo && Sendable(kind, listed.live[n], start) ==>
      Answered(before, after, listed.live[n].payload, Effective(kind, listed.live[n].payload, answers(n).verdict))
  }

  lemma HandledKeepsListed(kind: Kind, known: set<Payload>, listed: Disk, d: Disk, todo: set<string>, start: real,
          now: real, later: real, n: string, a: Answer)
    requires Tidy(known, d) && Thinkable(a, known) && 0.0 <= now <= later
    requires StillThere(kind, listed, d, todo, start, now)
    ensures StillThere(kind, listed, Handled(kind, d, n, a, now), todo - {n}, start, later)
  {
    HandledKeepsOthers(kind, known, d, n, a, now);
    forall m | m in todo - {n} && m in listed.live && Sendable(kind, listed.live[m], start)
      ensures var after := Handled(kind, d, n, a, now);
              m in after.live && after.live[m].payload == listed.live[m].payload && Sendable(kind, after.live[m], later)
    {
      assert StaysLive(LiveAt(d, m), Handled(kind, d, n, a, now), m);
    }
  }

  lemma OneMoreAnswered(kind: Kind, listed: Disk, todo: set<string>, start: real, answers: string -> Answer,
          before: Ledger, between: Ledger, after: Ledger, n: string)
    requires AllAnswered(kind, listed, todo, start, answers, before, between) && Grown(before, between) &&
               Grown(between, after)
    requires n in listed.live && Sendable(kind, listed.live[n], start) ==>
               Answered(between, after, listed.live[n].payload,
                 Effective(kind, listed.live[n].payload, answers(n).verdict))
    ensures AllAnswered(kind, listed, todo - {n}, start, answers, before, after)
  {
    forall m | m in listed.live && m !in todo - {n} && Sendable(kind, listed.live[m], start)
      ensures Answered(before, after, listed.live[m].payload,
                Effective(kind, listed.live[m].payload, answers(m).verdict))
    {
      var p := listed.live[m].payload;
      assert before.Failed(p.id) <= between.Failed(p.id) <= after.Failed(p.id);
    }
  }

  // ---- One claim comes back ----

  lemma ReturnOne(kind: Kind, known: set<Payload>, before: Disk, d: Disk, todo: set<string>, start: real, n: string,
          r: Return, now: real)
    requires Tidy(known, d) && Feasible(r, known) && Returned(kind, before, d, todo, start)
    requires n in todo && n in d.claimed && Stale(d.claimed[n], start)
    ensures Returned(kind, before, ReclaimOne(kind, d, n, r, now), todo - {n}, start)
  {
    var there := After(kind, d, r.looking, now);
    AfterKeeps(kind, known, d, r.looking, now);
    AfterKeeps(kind, known, there, r.moving, now + r.looking.elapsed);
    forall m
      ensures StaysLive(BackAt(kind, before, todo - {n}, m, start), ReclaimOne(kind, d, n, r, now), m)
    {
      ReturnAt(kind, known, before, d, todo, start, n, r, now, m);
    }
  }

  lemma ReturnAt(kind: Kind, known: set<Payload>, before: Disk, d: Disk, todo: set<string>, start: real, n: string,
          r: Return, now: real, m: string)
    requires Tidy(known, d) && n in todo && n in d.claimed && n in before.claimed && before.claimed[n] == d.claimed[n]
    requires Stale(d.claimed[n], start) && StaysLive(BackAt(kind, before, todo, m, start), d, m)
    requires var there := After(kind, d, r.looking, now);
             var moved := After(kind, there, r.moving, now + r.looking.elapsed);
             && Labelled(known, there.live) && Labelled(known, moved.live)
             && StaysLive(LiveAt(d, m), there, m) && StaysLive(LiveAt(there, m), moved, m)
    ensures StaysLive(BackAt(kind, before, todo - {n}, m, start), ReclaimOne(kind, d, n, r, now), m)
  {
    var there := After(kind, d, r.looking, now);
    var moved := After(kind, there, r.moving, now + r.looking.elapsed);
    var f := BackAt(kind, before, todo, m, start);
    StaysOn(f, d, there, m);
    StaysOn(f, there, moved, m);
  }

  lemma KeepOne(kind: Kind, before: Disk, d: Disk, todo: set<string>, start: real, n: string)
    requires Returned(kind, before, d, todo, start) && n in todo && n in d.claimed && !Stale(d.claimed[n], start)
    ensures Returned(kind, before, d, todo - {n}, start)
    ensures Undisturbed(kind, before, d, todo, start) ==> Undisturbed(kind, before, d, todo - {n}, start)
  {
    forall m
      ensures BackAt(kind, before, todo - {n}, m, start) == BackAt(kind, before, todo, m, start)
    {
    }
  }

  lemma ReturnQuietly(kind: Kind, before: Disk, d: Disk, todo: set<string>, start: real, n: string, r: Return,
          now: real)
    requires Returned(kind, before, d, todo, start) && Undisturbed(kind, before, d, todo, start)
    requires n in todo && n in d.claimed && Stale(d.claimed[n], start) && r.looking.arrivals == r.moving.arrivals == []
    ensures Undisturbed(kind, before, ReclaimOne(kind, d, n, r, now), todo - {n}, start)
  {
    var after := ReclaimOne(kind, d, n, r, now);
    forall m
      ensures LiveAt(after, m) == BackAt(kind, before, todo - {n}, m, start)
    {
      assert LiveAt(d, m) == BackAt(kind, before, todo, m, start);
    }
  }
}
