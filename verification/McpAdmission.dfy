/** Admission of MCP sessions: capacity is reserved before the API key is validated and given back when
    the initializing request is over. Each method is one stretch of the server that runs without awaiting. */
module McpAdmission {
  import opened Basics
  import opened Sets

  type Key = string

  /** An admitted initialize request: its key is being validated; its transport handles the request; over. */
  datatype Stage = Validating | Handling | Over

  /** `pending` is the flag of its release closure; `initialized` says its transport got a session. */
  datatype Request = Request(key: Key, stage: Stage, pending: bool, initialized: bool)

  datatype Session = Session(key: Key, transport: nat, createdAt: int, lastActivityAt: int)

  datatype Attempts = Attempts(count: nat, resetAt: int)

  const MAX_ATTEMPTS: nat := 20
  const MAX_ADDRESSES: nat := 10_000
  const ATTEMPT_WINDOW := 60_000

  // ---- Counting requests ----

  /** Requests that hold a reservation, of one key or of all; `idle` keeps those without a session. */
  datatype Filter = Filter(key: Option<Key>, idle: bool)

  predicate Matches(r: Request, f: Filter) {
    r.pending && (f.key.Some? ==> r.key == f.key.value) && (f.idle ==> !r.initialized)
  }

  function One(r: Request, f: Filter): nat {
    if Matches(r, f) then 1 else 0
  }

  function Count(requests: seq<Request>, f: Filter): nat {
    if requests == [] then 0 else Count(requests[..|requests| - 1], f) + One(requests[|requests| - 1], f)
  }

  lemma CountMore(requests: seq<Request>, r: Request, f: Filter)
    ensures Count(requests + [r], f) == Count(requests, f) + One(r, f)
  {
    assert (requests + [r])[..|requests|] == requests;
  }

  lemma {:induction false} CountChanged(requests: seq<Request>, i: nat, r: Request, f: Filter)
    requires i < |requests|
    ensures Count(requests[i := r], f) == Count(requests, f) - One(requests[i], f) + One(r, f)
  {
    var n := |requests| - 1;
    if i == n {
      assert requests[i := r][..n] == requests[..n];
    } else {
      assert requests[i := r][..n] == requests[..n][i := r];
      CountChanged(requests[..n], i, r, f);
    }
  }

  lemma {:induction false} IdleArePending(requests: seq<Request>, key: Option<Key>)
    ensures Count(requests, Filter(key, true)) <= Count(requests, Filter(key, false))
  {
    if requests != [] {
      IdleArePending(requests[..|requests| - 1], key);
    }
  }

  lemma {:induction false} CountAtLeastOne(requests: seq<Request>, i: nat, f: Filter)
    requires i < |requests| && Matches(requests[i], f)
    ensures Count(requests, f) > 0
  {
    if i < |requests| - 1 {
      CountAtLeastOne(requests[..|requests| - 1], i, f);
    }
  }

  // ---- Counting sessions ----

  function SessionsOf(sessions: map<string, Session>, key: Key): set<string> {
    set id | id in sessions && sessions[id].key == key
  }

  lemma SessionAdded(sessions: map<string, Session>, id: string, s: Session, key: Key)
    requires id !in sessions
    ensures |SessionsOf(sessions[id := s], key)| == |SessionsOf(sessions, key)| + if s.key == key then 1 else 0
    ensures |sessions[id := s]| == |sessions| + 1
  {
    if s.key == key {
      assert SessionsOf(sessions[id := s], key) == SessionsOf(sessions, key) + {id};
    } else {
      assert SessionsOf(sessions[id := s], key) == SessionsOf(sessions, key);
    }
  }

  lemma SessionRemoved(sessions: map<string, Session>, id: string, key: Key)
    ensures |SessionsOf(sessions - {id}, key)| <= |SessionsOf(sessions, key)|
    ensures |sessions - {id}| <= |sessions|
  {
    Smaller(SessionsOf(sessions - {id}, key), SessionsOf(sessions, key));
    Smaller((sessions - {id}).Keys, sessions.Keys);
  }

  lemma SessionTouched(sessions: map<string, Session>, id: string, s: Session, key: Key)
    requires id in sessions && s.key == sessions[id].key
    ensures SessionsOf(sessions[id := s], key) == SessionsOf(sessions, key)
    ensures sessions[id := s].Keys == sessions.Keys
  {
  }

  // ---- What always holds ----

  function Held(byKey: map<Key, nat>, key: Key): nat {
    if key in byKey then byKey[key] else 0
  }

  ghost function Pick(byKey: map<Key, nat>): (k: Key)
    requires byKey != map[]
    ensures k in byKey
  {
    var k :| k in byKey;
    k
  }

  /** The sum of the per-key counters. */
  ghost function Sum(byKey: map<Key, nat>): nat
    decreases byKey.Keys
  {
    if byKey == map[] then 0 else byKey[Pick(byKey)] + Sum(byKey - {Pick(byKey)})
  }

  lemma {:induction false} SumWithout(byKey: map<Key, nat>, k: Key)
    ensures Sum(byKey) == Held(byKey, k) + Sum(byKey - {k})
    decreases byKey.Keys
  {
    if k !in byKey {
      assert byKey - {k} == byKey;
    } else if Pick(byKey) != k {
      var c := Pick(byKey);
      SumWithout(byKey - {c}, k);
      SumWithout(byKey - {k}, c);
      assert byKey - {c} - {k} == byKey - {k} - {c};
    }
  }

  lemma SumWith(byKey: map<Key, nat>, k: Key, n: nat)
    ensures Sum(byKey[k := n]) == n + Sum(byKey - {k})
  {
    SumWithout(byKey[k := n], k);
    assert byKey[k := n] - {k} == byKey - {k};
  }

  /** The counters agree with the unreleased reservations, in all and for each key. */
  ghost predicate CountersAgree(requests: seq<Request>, pending: nat, byKey: map<Key, nat>) {
    && pending == Count(requests, Filter(None, false)) && pending == Sum(byKey)
    && (forall k :: Held(byKey, k) == Count(requests, Filter(Some(k), false)))
    && (forall k :: k in byKey ==> byKey[k] > 0)
  }

  /** Open sessions and requests that may still open one fit the limits, in all and for each key. */
  ghost predicate Fits(sessions: map<string, Session>, requests: seq<Request>, maxSessions: nat, maxPerKey: nat) {
    && |sessions| + Count(requests, Filter(None, true)) <= maxSessions
    && (forall k: Key :: FitsKey(sessions, requests, k, maxPerKey))
  }

  ghost predicate FitsKey(sessions: map<string, Session>, requests: seq<Request>, k: Key, maxPerKey: nat) {
    |SessionsOf(sessions, k)| + Count(requests, Filter(Some(k), true)) <= maxPerKey
  }

  /** Every session belongs to the request that opened it and to its key; no two share a transport. */
  ghost predicate Owned(sessions: map<string, Session>, requests: seq<Request>) {
    && (forall id :: id in sessions ==>
          && sessions[id].transport < |requests| && requests[sessions[id].transport].initialized
          && requests[sessions[id].transport].key == sessions[id].key)
    && (forall a, b :: a in sessions && b in sessions && sessions[a].transport == sessions[b].transport ==> a == b)
  }

  /** A reservation is held exactly until its request is over, and only a handled request has a session. */
  ghost predicate Staged(requests: seq<Request>) {
    forall i :: 0 <= i < |requests| ==>
      && (requests[i].pending <==> requests[i].stage != Over)
      && (requests[i].initialized ==> requests[i].stage != Validating)
  }

  ghost predicate RateLimited(attempts: map<string, Attempts>, now: int) {
    && |attempts| <= MAX_ADDRESSES
    && forall a :: a in attempts ==>
         0 < attempts[a].count <= MAX_ATTEMPTS && attempts[a].resetAt <= now + ATTEMPT_WINDOW
  }

  // ---- One reservation more, one less ----

  lemma Reserve(requests: seq<Request>, pending: nat, byKey: map<Key, nat>, key: Key)
    requires CountersAgree(requests, pending, byKey)
    ensures CountersAgree(requests + [Request(key, Validating, true, false)], pending + 1,
                          byKey[key := Held(byKey, key) + 1])
  {
    var r := Request(key, Validating, true, false);
    CountMore(requests, r, Filter(None, false));
    SumWithout(byKey, key);
    SumWith(byKey, key, Held(byKey, key) + 1);
    forall k
      ensures Held(byKey[key := Held(byKey, key) + 1], k) == Count(requests + [r], Filter(Some(k), false))
    {
      CountMore(requests, r, Filter(Some(k), false));
    }
  }

  lemma ReserveFits(sessions: map<string, Session>, requests: seq<Request>, key: Key, maxSessions: nat, maxPerKey: nat)
    requires Fits(sessions, requests, maxSessions, maxPerKey)
    requires |sessions| + Count(requests, Filter(None, false)) < maxSessions
    requires |SessionsOf(sessions, key)| + Count(requests, Filter(Some(key), false)) < maxPerKey
    ensures Fits(sessions, requests + [Request(key, Validating, true, false)], maxSessions, maxPerKey)
  {
    var r := Request(key, Validating, true, false);
    CountMore(requests, r, Filter(None, true));
    IdleArePending(requests, None);
    forall k: Key
      ensures FitsKey(sessions, requests + [r], k, maxPerKey)
    {
      assert FitsKey(sessions, requests, k, maxPerKey);
      CountMore(requests, r, Filter(Some(k), true));
      IdleArePending(requests, Some(k));
    }
  }

  lemma ReserveOwned(sessions: map<string, Session>, requests: seq<Request>, key: Key)
    requires Owned(sessions, requests) && Staged(requests)
    ensures Owned(sessions, requests + [Request(key, Validating, true, false)])
    ensures Staged(requests + [Request(key, Validating, true, false)])
  {
  }

  function Released(byKey: map<Key, nat>, key: Key): map<Key, nat> {
    var held: int := if key in byKey then byKey[key] else 1;
    var remaining := held - 1;
    if remaining > 0 then byKey[key := remaining] else byKey - {key}
  }

  lemma Release(requests: seq<Request>, pending: nat, byKey: map<Key, nat>, i: nat)
    requires CountersAgree(requests, pending, byKey) && i < |requests| && requests[i].pending
    ensures pending > 0 && requests[i].key in byKey
    ensures CountersAgree(requests[i := requests[i].(pending := false, stage := Over)], pending - 1,
              Released(byKey, requests[i].key))
  {
    var r := requests[i];
    var after := r.(pending := false, stage := Over);
    CountChanged(requests, i, after, Filter(None, false));
    CountAtLeastOne(requests, i, Filter(Some(r.key), false));
    assert Held(byKey, r.key) > 0;
    SumWithout(byKey, r.key);
    SumWith(byKey, r.key, Held(byKey, r.key) - 1);
    forall k
      ensures Held(Released(byKey, r.key), k) == Count(requests[i := after], Filter(Some(k), false))
    {
      assert Held(byKey, k) == Count(requests, Filter(Some(k), false));
      CountChanged(requests, i, after, Filter(Some(k), false));
    }
  }

  lemma ReleaseOwned(sessions: map<string, Session>, requests: seq<Request>, i: nat)
    requires Owned(sessions, requests) && Staged(requests) && i < |requests|
    ensures Owned(sessions, requests[i := requests[i].(pending := false, stage := Over)])
    ensures Staged(requests[i := requests[i].(pending := false, stage := Over)])
  {
  }

  /** A change of one request that reserves nothing new keeps the limits. */
  lemma ChangeFits(sessions: map<string, Session>, requests: seq<Request>, i: nat, r: Request, maxSessions: nat,
          maxPerKey: nat)
    requires Fits(sessions, requests, maxSessions, maxPerKey) && i < |requests|
    requires r.key == requests[i].key && (r.pending ==> requests[i].pending) &&
               (requests[i].initialized ==> r.initialized)
    ensures Fits(sessions, requests[i := r], maxSessions, maxPerKey)
  {
    var after := requests[i := r];
    CountChanged(requests, i, r, Filter(None, true));
    forall k: Key
      ensures FitsKey(sessions, after, k, maxPerKey)
    {
      assert FitsKey(sessions, requests, k, maxPerKey);
      CountChanged(requests, i, r, Filter(Some(k), true));
    }
  }

  /** A reserved request trades its reservation for a session. */
  lemma InitializeFits(sessions: map<string, Session>, requests: seq<Request>, i: nat, id: string, s: Session,
          maxSessions: nat, maxPerKey: nat)
    requires Fits(sessions, requests, maxSessions, maxPerKey) && i < |requests| && id !in sessions
    requires requests[i].pending && !requests[i].initialized && s.key == requests[i].key
    ensures Fits(sessions[id := s], requests[i := requests[i].(initialized := true)], maxSessions, maxPerKey)
  {
    var r := requests[i].(initialized := true);
    CountChanged(requests, i, r, Filter(None, true));
    SessionAdded(sessions, id, s, s.key);
    var (open, after) := (sessions[id := s], requests[i := r]);
    forall k: Key
      ensures FitsKey(open, after, k, maxPerKey)
    {
      assert FitsKey(sessions, requests, k, maxPerKey);
      CountChanged(requests, i, r, Filter(Some(k), true));
      SessionAdded(sessions, id, s, k);
    }
  }

  lemma RemoveFits(sessions: map<string, Session>, requests: seq<Request>, id: string, maxSessions: nat, maxPerKey: nat)
    requires Fits(sessions, requests, maxSessions, maxPerKey)
    ensures Fits(sessions - {id}, requests, maxSessions, maxPerKey)
  {
    SessionRemoved(sessions, id, "");
    forall k: Key
      ensures FitsKey(sessions - {id}, requests, k, maxPerKey)
    {
      assert FitsKey(sessions, requests, k, maxPerKey);
      SessionRemoved(sessions, id, k);
    }
  }

  predicate Expired(s: Session, now: int, idleTtl: int, absoluteTtl: int) {
    now - s.lastActivityAt >= idleTtl || now - s.createdAt >= absoluteTtl
  }

  /** What a cleanup keeps. */
  function Unexpired(sessions: map<string, Session>, now: int, idleTtl: int, absoluteTtl: int)
    : (open: map<string, Session>)
    ensures forall id :: id in open <==>
              && id in sessions && now < sessions[id].lastActivityAt + idleTtl
              && now < sessions[id].createdAt + absoluteTtl
    ensures forall id :: id in open ==> open[id] == sessions[id]
  {
    map id | id in sessions && !Expired(sessions[id], now, idleTtl, absoluteTtl) :: sessions[id]
  }

  function Standing(attempts: map<string, Attempts>, now: int): (standing: map<string, Attempts>)
    ensures forall a :: a in standing <==> a in attempts && now < attempts[a].resetAt
    ensures forall a :: a in standing ==> standing[a] == attempts[a]
  {
    map a | a in attempts && attempts[a].resetAt > now :: attempts[a]
  }

  /** Part of the way from `before` to what is kept of it: only the keys in `todo` are undecided. */
  ghost predicate Sifted<V>(before: map<string, V>, kept: map<string, V>, m: map<string, V>, todo: set<string>) {
    && m.Keys <= before.Keys && kept.Keys <= m.Keys
    && (forall k :: k in m ==> m[k] == before[k])
    && (forall k :: k in kept ==> kept[k] == before[k])
    && (forall k :: k in m ==> k in todo || k in kept)
  }

  lemma Sift<V>(before: map<string, V>, kept: map<string, V>, m: map<string, V>, todo: set<string>, k: string)
    requires Sifted(before, kept, m, todo) && k in todo
    ensures Sifted(before, kept, if k in kept then m else m - {k}, todo - {k})
  {
  }

  lemma SiftedOut<V>(before: map<string, V>, kept: map<string, V>, m: map<string, V>)
    requires Sifted(before, kept, m, {})
    ensures m == kept && |m| <= |before|
  {
    assert m.Keys == kept.Keys;
    Smaller(m.Keys, before.Keys);
  }

  /** What a request without a usable session gets. */
  datatype Refusal = UnknownSession | ForeignSession | NotInitialize | TooManyAttempts | CapacityReached

  /** An existing session's transport, a new reservation, or a refusal. */
  datatype Answer = Existing(transport: nat) | Admitted(request: nat) | Refused(why: Refusal)

  // ---- What a request is told, and what it changes ----

  datatype Limits = Limits(maxSessions: nat, maxSessionsPerKey: nat, maxPendingInitializations: nat, idleTtl: int,
                           absoluteTtl: int)

  /** The server at one moment; the counters are those of the requests. */
  datatype View = View(now: int, sessions: map<string, Session>, attempts: map<string, Attempts>,
                       requests: seq<Request>)

  function OpenSessions(l: Limits, v: View): map<string, Session> {
    Unexpired(v.sessions, v.now, l.idleTtl, l.absoluteTtl)
  }

  /** The address has used up its attempts, or is one address too many. */
  predicate TooMany(standing: map<string, Attempts>, address: string) {
    if address in standing then standing[address].count >= MAX_ATTEMPTS else |standing| >= MAX_ADDRESSES
  }

  function Counted(standing: map<string, Attempts>, address: string, now: int): map<string, Attempts> {
    if address in standing then standing[address := standing[address].(count := standing[address].count + 1)]
    else standing[address := Attempts(1, now + ATTEMPT_WINDOW)]
  }

  /** One of the limits is reached by open sessions and reservations. */
  predicate Full(l: Limits, open: map<string, Session>, requests: seq<Request>, key: Key) {
    || |open| + Count(requests, Filter(None, false)) >= l.maxSessions
    || |SessionsOf(open, key)| + Count(requests, Filter(Some(key), false)) >= l.maxSessionsPerKey
    || Count(requests, Filter(None, false)) >= l.maxPendingInitializations
  }

  /** The capacity is refused exactly when one more reservation would not fit. */
  lemma FullMeansNoRoom(l: Limits, open: map<string, Session>, requests: seq<Request>, key: Key)
    ensures var more := requests + [Request(key, Validating, true, false)];
            Full(l, open, requests, key) <==>
            || |open| + Count(more, Filter(None, false)) > l.maxSessions
            || |SessionsOf(open, key)| + Count(more, Filter(Some(key), false)) > l.maxSessionsPerKey
            || Count(more, Filter(None, false)) > l.maxPendingInitializations
  {
    var r := Request(key, Validating, true, false);
    CountMore(requests, r, Filter(None, false));
    CountMore(requests, r, Filter(Some(key), false));
  }

  /** The attempts of one address, at these times. */
  function AfterAttempts(standing: map<string, Attempts>, address: string, times: seq<int>): map<string, Attempts> {
    if times == [] then standing
    else Counted(AfterAttempts(standing, address, times[..|times| - 1]), address, times[|times| - 1])
  }

  /** They are counted in the window of the first one, and one address has twenty of them. */
  lemma {:induction false} AttemptsAddUp(standing: map<string, Attempts>, address: string, times: seq<int>)
    requires address !in standing && times != []
    ensures AfterAttempts(standing, address, times) ==
            standing[address := Attempts(|times|, times[0] + 60_000)]
    ensures TooMany(AfterAttempts(standing, address, times), address) <==> |times| >= 20
    ensures TooMany(standing, address) <==> |standing| >= 10_000
  {
    var n := |times| - 1;
    if n > 0 {
      AttemptsAddUp(standing, address, times[..n]);
    }
  }

  /** The whole answer, from the state before: exactly when a request gets a transport, a reservation, or
      which refusal. */
  ghost predicate IsAnswer(l: Limits, v: View, sessionId: string, key: Key, isInitialize: bool, address: string,
          answer: Answer)
  {
    var open, standing := OpenSessions(l, v), Standing(v.attempts, v.now);
    var initializes := sessionId == "" && isInitialize;
    && (answer.Existing? <==> sessionId != "" && sessionId in open && open[sessionId].key == key)
    && (answer.Existing? ==> answer.transport == open[sessionId].transport)
    && (answer == Refused(UnknownSession) <==> sessionId != "" && sessionId !in open)
    && (answer == Refused(ForeignSession) <==> sessionId != "" && sessionId in open && open[sessionId].key != key)
    && (answer == Refused(NotInitialize) <==> sessionId == "" && !isInitialize)
    && (answer == Refused(TooManyAttempts) <==> initializes && TooMany(standing, address))
    && (answer == Refused(CapacityReached) <==>
          initializes && !TooMany(standing, address) && Full(l, open, v.requests, key))
    && (answer.Admitted? <==> initializes && !TooMany(standing, address) && !Full(l, open, v.requests, key))
    && (answer.Admitted? ==> answer.request == |v.requests|)
  }

  /** What it changes: expired sessions and attempt windows go, the session is active again, the attempt
      counts, and an admission is a reservation. */
  ghost predicate Serves(l: Limits, v: View, sessionId: string, key: Key, isInitialize: bool, address: string,
          answer: Answer, w: View)
  {
    var open, standing := OpenSessions(l, v), Standing(v.attempts, v.now);
    && IsAnswer(l, v, sessionId, key, isInitialize, address, answer)
    && w.now == v.now
    && w.sessions == (if answer.Existing? then open[sessionId := open[sessionId].(lastActivityAt := v.now)] else open)
    && w.attempts == (if answer.Admitted? || answer == Refused(CapacityReached) then Counted(standing, address, v.now)
                      else standing)
    && w.requests == v.requests + if answer.Admitted? then [Request(key, Validating, true, false)] else []
  }

  /** A session's answer to a request that names it. */
  ghost predicate LooksUp(open: map<string, Session>, sessionId: string, key: Key, now: int, answer: Answer,
          after: map<string, Session>)
  {
    if sessionId !in open then answer == Refused(UnknownSession) && after == open
    else if open[sessionId].key != key then answer == Refused(ForeignSession) && after == open
    else
      && answer == Existing(open[sessionId].transport)
      && after == open[sessionId := open[sessionId].(lastActivityAt := now)]
  }

  lemma ServesSession(l: Limits, v: View, sessionId: string, key: Key, isInitialize: bool, address: string,
          answer: Answer, w: View)
    requires sessionId != "" && LooksUp(OpenSessions(l, v), sessionId, key, v.now, answer, w.sessions)
    requires w.now == v.now && w.requests == v.requests && w.attempts == Standing(v.attempts, v.now)
    ensures Serves(l, v, sessionId, key, isInitialize, address, answer, w)
  {
  }

  /** The answer to a request that initializes. */
  ghost predicate Initializes(l: Limits, open: map<string, Session>, requests: seq<Request>,
          attempts: map<string, Attempts>, now: int, key: Key, address: string, answer: Answer, w: View)
  {
    && answer == (if TooMany(attempts, address) then Refused(TooManyAttempts)
                  else if Full(l, open, requests, key) then Refused(CapacityReached)
                  else Admitted(|requests|))
    && w.attempts == (if TooMany(attempts, address) then attempts else Counted(attempts, address, now))
    && w.requests == requests + (if answer.Admitted? then [Request(key, Validating, true, false)] else [])
    && w.now == now && w.sessions == open
  }

  lemma ServesInitialize(l: Limits, v: View, key: Key, address: string, answer: Answer, w: View)
    requires Initializes(l, OpenSessions(l, v), v.requests, Standing(v.attempts, v.now), v.now, key, address, answer, w)
    ensures Serves(l, v, "", key, true, address, answer, w)
  {
  }

  class Server {
    const maxSessions: nat
    const maxSessionsPerKey: nat
    const maxPendingInitializations: nat
    const idleTtl: int
    const absoluteTtl: int
    var now: int
    var sessions: map<string, Session>
    var pendingByKey: map<Key, nat>
    var pendingInitializations: nat
    var attempts: map<string, Attempts>
    /** The admitted initialize requests, numbered in order, over or not. */
    var requests: seq<Request>

    ghost function Config(): Limits
      reads this
    {
      Limits(maxSessions, maxSessionsPerKey, maxPendingInitializations, idleTtl, absoluteTtl)
    }

    ghost function Seen(): View
      reads this
    {
      View(now, sessions, attempts, requests)
    }

    ghost predicate Valid()
      reads this
    {
      && CountersAgree(requests, pendingInitializations, pendingByKey)
      && pendingInitializations <= maxPendingInitializations
      && Fits(sessions, requests, maxSessions, maxSessionsPerKey)
      && Owned(sessions, requests) && Staged(requests)
      && RateLimited(attempts, now)
    }

    constructor (maxSessions: nat, maxSessionsPerKey: nat, maxPendingInitializations: nat, idleTtl: int,
            absoluteTtl: int, clock: int)
      ensures Valid() && sessions == map[] && requests == [] && attempts == map[] && now == clock
      ensures this.maxSessions == maxSessions && this.maxSessionsPerKey == maxSessionsPerKey
      ensures this.maxPendingInitializations == maxPendingInitializations
    {
      this.maxSessions := maxSessions;
      this.maxSessionsPerKey := maxSessionsPerKey;
      this.maxPendingInitializations := maxPendingInitializations;
      this.idleTtl := idleTtl;
      this.absoluteTtl := absoluteTtl;
      now := clock;
      sessions := map[];
      pendingByKey := map[];
      pendingInitializations := 0;
      attempts := map[];
      requests := [];
    }

    method Advance(elapsed: nat)
      requires Valid()
      modifies this`now
      ensures Valid() && now == old(now) + elapsed
    {
      now := now + elapsed;
    }

    method RemoveSession(id: string)
      requires Valid()
      modifies this`sessions
      ensures Valid() && sessions == old(sessions) - {id}
    {
      RemoveFits(sessions, requests, id, maxSessions, maxSessionsPerKey);
      sessions := sessions - {id};
    }

    method ForgetAttempts()
      requires Valid()
      modifies this`attempts
      ensures Valid() && attempts == Standing(old(attempts), now)
    {
      ghost var kept := Standing(attempts, now);
      var todo := attempts.Keys;
      while todo != {}
        invariant todo <= attempts.Keys && Sifted(old(attempts), kept, attempts, todo)
        decreases |todo|
      {
        var a :| a in todo;
        Sift(old(attempts), kept, attempts, todo, a);
        todo := todo - {a};
        if attempts[a].resetAt <= now {
          attempts := attempts - {a};
        }
      }
      SiftedOut(old(attempts), kept, attempts);
    }

    method RemoveExpired()
      requires Valid()
      modifies this`sessions
      ensures Valid() && sessions == Unexpired(old(sessions), now, idleTtl, absoluteTtl)
    {
      ghost var kept := Unexpired(sessions, now, idleTtl, absoluteTtl);
      var todo := sessions.Keys;
      while todo != {}
        invariant Valid() && todo <= sessions.Keys && Sifted(old(sessions), kept, sessions, todo)
        decreases |todo|
      {
        var id :| id in todo;
        Sift(old(sessions), kept, sessions, todo, id);
        todo := todo - {id};
        if Expired(sessions[id], now, idleTtl, absoluteTtl) {
          RemoveSession(id);
        }
      }
      SiftedOut(old(sessions), kept, sessions);
    }

    method CleanupExpiredSessions()
      requires Valid()
      modifies this`sessions, this`attempts
      ensures Valid()
      ensures attempts == Standing(old(attempts), now)
      ensures sessions == Unexpired(old(sessions), now, idleTtl, absoluteTtl)
    {
      ForgetAttempts();
      RemoveExpired();
    }

    /** A session answers only to the key that opened it. */
    method Lookup(id: string, key: Key) returns (answer: Answer)
      requires Valid()
      modifies this`sessions
      ensures Valid()
      ensures LooksUp(old(sessions), id, key, now, answer, sessions)
      ensures answer.Existing? ==> answer.transport < |requests| && requests[answer.transport].key == key
    {
      if id !in sessions {
        return Refused(UnknownSession);
      }
      var s := sessions[id];
      if s.key != key {
        return Refused(ForeignSession);
      }
      TouchFits(sessions, requests, id, s.(lastActivityAt := now), maxSessions, maxSessionsPerKey);
      sessions := sessions[id := s.(lastActivityAt := now)];
      return Existing(s.transport);
    }

    /** Twenty attempts for an address within its window, and so many addresses at a time. */
    method CountAttempt(address: string) returns (allowed: bool)
      requires Valid()
      modifies this`attempts
      ensures Valid()
      ensures allowed <==> !TooMany(old(attempts), address)
      ensures attempts == if allowed then Counted(old(attempts), address, now) else old(attempts)
    {
      var entry := if address in attempts then attempts[address] else Attempts(0, now + ATTEMPT_WINDOW);
      if entry.count >= MAX_ATTEMPTS || (address !in attempts && |attempts| >= MAX_ADDRESSES) {
        return false;
      }
      attempts := attempts[address := entry.(count := entry.count + 1)];
      return true;
    }

    method TakeReservation(key: Key)
      requires Valid()
      requires |sessions| + pendingInitializations < maxSessions && pendingInitializations < maxPendingInitializations
      requires |SessionsOf(sessions, key)| + Held(pendingByKey, key) < maxSessionsPerKey
      modifies this`requests, this`pendingInitializations, this`pendingByKey
      ensures Valid() && requests == old(requests) + [Request(key, Validating, true, false)]
    {
      Reserve(requests, pendingInitializations, pendingByKey, key);
      ReserveFits(sessions, requests, key, maxSessions, maxSessionsPerKey);
      ReserveOwned(sessions, requests, key);
      requests := requests + [Request(key, Validating, true, false)];
      pendingInitializations := pendingInitializations + 1;
      pendingByKey := pendingByKey[key := Held(pendingByKey, key) + 1];
    }

    /** The reservation is made before anything is awaited. */
    method Admit(key: Key) returns (answer: Answer)
      requires Valid()
      modifies this`requests, this`pendingInitializations, this`pendingByKey
      ensures Valid()
      ensures if Full(Config(), sessions, old(requests), key)
              then answer == Refused(CapacityReached) && requests == old(requests)
              else answer == Admitted(|old(requests)|)
                   && requests == old(requests) + [Request(key, Validating, true, false)]
    {
      assert Held(pendingByKey, key) == Count(requests, Filter(Some(key), false));
      var pendingForKey := Held(pendingByKey, key);
      if |sessions| + pendingInitializations >= maxSessions
         || |SessionsOf(sessions, key)| + pendingForKey >= maxSessionsPerKey
         || pendingInitializations >= maxPendingInitializations {
        return Refused(CapacityReached);
      }
      answer := Admitted(|requests|);
      TakeReservation(key);
    }

    /** An initialize request: its attempt counts, and then its reservation is made. */
    method Initialize(key: Key, address: string) returns (answer: Answer)
      requires Valid()
      modifies this`attempts, this`requests, this`pendingInitializations, this`pendingByKey
      ensures Valid()
      ensures Initializes(Config(), sessions, old(requests), old(attempts), now, key, address, answer, Seen())
    {
      var allowed := CountAttempt(address);
      if !allowed {
        return Refused(TooManyAttempts);
      }
      answer := Admit(key);
    }

    /** `transportForRequest` up to its first await. */
    method TransportForRequest(sessionId: string, key: Key, isInitialize: bool, address: string)
      returns (answer: Answer)
      requires Valid()
      modifies this`sessions, this`attempts, this`requests, this`pendingInitializations, this`pendingByKey
      ensures Valid()
      ensures Serves(Config(), old(Seen()), sessionId, key, isInitialize, address, answer, Seen())
      ensures answer.Existing? ==> answer.transport < |requests| && requests[answer.transport].key == key
    {
      ghost var before := Seen();
      CleanupExpiredSessions();
      if sessionId != "" {
        answer := Lookup(sessionId, key);
        ServesSession(Config(), before, sessionId, key, isInitialize, address, answer, Seen());
      } else if !isInitialize {
        answer := Refused(NotInitialize);
      } else {
        answer := Initialize(key, address);
        ServesInitialize(Config(), before, key, address, answer, Seen());
      }
    }

    /** The release closure of a request: the first call gives its reservation back, every other does
        nothing. */
    method ReleaseInitialization(i: nat)
      requires Valid() && i < |requests|
      modifies this`requests, this`pendingInitializations, this`pendingByKey
      ensures Valid()
      ensures requests == old(requests)[i := old(requests)[i].(pending := false, stage := Over)]
      ensures pendingInitializations == old(pendingInitializations) - if old(requests)[i].pending then 1 else 0
      ensures !old(requests)[i].pending ==> requests == old(requests) && pendingByKey == old(pendingByKey)
    {
      if !requests[i].pending {
        assert requests[i := requests[i].(pending := false, stage := Over)] == requests;
        return;
      }
      Release(requests, pendingInitializations, pendingByKey, i);
      ReleaseOwned(sessions, requests, i);
      ChangeFits(sessions, requests, i, requests[i].(pending := false, stage := Over), maxSessions, maxSessionsPerKey);
      pendingInitializations := pendingInitializations - 1;
      pendingByKey := Released(pendingByKey, requests[i].key);
      requests := requests[i := requests[i].(pending := false, stage := Over)];
    }

    /** The key of an admitted request has been checked and its transport connected, or it is over. */
    method Validated(i: nat, accepted: bool)
      requires Valid() && i < |requests| && requests[i].stage == Validating
      modifies this`requests, this`pendingInitializations, this`pendingByKey
      ensures Valid()
      ensures requests == old(requests)[i := if accepted then old(requests)[i].(stage := Handling)
                                             else old(requests)[i].(pending := false, stage := Over)]
    {
      if accepted {
        HandlingKeepsCounts(requests, pendingInitializations, pendingByKey, i);
        ChangeFits(sessions, requests, i, requests[i].(stage := Handling), maxSessions, maxSessionsPerKey);
        requests := requests[i := requests[i].(stage := Handling)];
      } else {
        ReleaseInitialization(i);
      }
    }

    /** `onsessioninitialized`: the handled request opens its session under a fresh id. */
    method OnSessionInitialized(i: nat, id: string)
      requires Valid() && i < |requests| && requests[i].stage == Handling && !requests[i].initialized
      requires id !in sessions
      modifies this`sessions, this`requests
      ensures Valid() && sessions == old(sessions)[id := Session(old(requests)[i].key, i, now, now)]
      ensures requests == old(requests)[i := old(requests)[i].(initialized := true)]
    {
      var s := Session(requests[i].key, i, now, now);
      InitializedKeepsCounts(requests, pendingInitializations, pendingByKey, i);
      InitializeFits(sessions, requests, i, id, s, maxSessions, maxSessionsPerKey);
      sessions := sessions[id := s];
      requests := requests[i := requests[i].(initialized := true)];
    }

    /** `onclose` of a transport: only its own session goes. */
    method OnClose(transport: nat, id: string)
      requires Valid()
      modifies this`sessions
      ensures Valid()
      ensures sessions ==
              if id in old(sessions) && old(sessions)[id].transport == transport then old(sessions) - {id}
              else old(sessions)
    {
      if id in sessions && sessions[id].transport == transport {
        RemoveSession(id);
      }
    }
  }

  lemma TouchFits(sessions: map<string, Session>, requests: seq<Request>, id: string, s: Session, maxSessions: nat,
          maxPerKey: nat)
    requires Fits(sessions, requests, maxSessions, maxPerKey) && id in sessions && s.key == sessions[id].key
    ensures Fits(sessions[id := s], requests, maxSessions, maxPerKey)
  {
    SessionTouched(sessions, id, s, s.key);
    Smaller(sessions[id := s].Keys, sessions.Keys);
    var open := sessions[id := s];
    forall k: Key
      ensures FitsKey(open, requests, k, maxPerKey)
    {
      assert FitsKey(sessions, requests, k, maxPerKey);
      SessionTouched(sessions, id, s, k);
    }
  }

  lemma HandlingKeepsCounts(requests: seq<Request>, pending: nat, byKey: map<Key, nat>, i: nat)
    requires CountersAgree(requests, pending, byKey) && i < |requests|
    ensures CountersAgree(requests[i := requests[i].(stage := Handling)], pending, byKey)
  {
    SameCounts(requests, pending, byKey, i, requests[i].(stage := Handling));
  }

  lemma InitializedKeepsCounts(requests: seq<Request>, pending: nat, byKey: map<Key, nat>, i: nat)
    requires CountersAgree(requests, pending, byKey) && i < |requests|
    ensures CountersAgree(requests[i := requests[i].(initialized := true)], pending, byKey)
  {
    SameCounts(requests, pending, byKey, i, requests[i].(initialized := true));
  }

  lemma SameCounts(requests: seq<Request>, pending: nat, byKey: map<Key, nat>, i: nat, r: Request)
    requires CountersAgree(requests, pending, byKey) && i < |requests| && r.key == requests[i].key &&
               r.pending == requests[i].pending
    ensures CountersAgree(requests[i := r], pending, byKey)
  {
    CountChanged(requests, i, r, Filter(None, false));
    forall k
      ensures Held(byKey, k) == Count(requests[i := r], Filter(Some(k), false))
    {
      assert Held(byKey, k) == Count(requests, Filter(Some(k), false));
      CountChanged(requests, i, r, Filter(Some(k), false));
    }
  }

  datatype Event =
    | Tick(elapsed: nat)
    | Arrives(sessionId: string, key: Key, isInitialize: bool, address: string)
    | Checked(request: nat, accepted: bool)
    | Opened(request: nat, id: string)
    | Finished(request: nat)
    | Closes(transport: nat, id: string)
    | CleanupTimer

  /** What each event changes. Steps a request cannot take, and session ids that are not fresh, leave the
      server alone. */
  ghost predicate Moves(l: Limits, v: View, e: Event, w: View) {
    match e
    case Tick(elapsed) => w == v.(now := v.now + elapsed)
    case Arrives(sessionId, key, isInitialize, address) =>
      exists answer :: Serves(l, v, sessionId, key, isInitialize, address, answer, w)
    case Checked(i, accepted) =>
      w == if i < |v.requests| && v.requests[i].stage == Validating
           then v.(requests := v.requests[i := if accepted then v.requests[i].(stage := Handling)
                                               else v.requests[i].(pending := false, stage := Over)])
           else v
    case Opened(i, id) =>
      w == if i < |v.requests| && v.requests[i].stage == Handling && !v.requests[i].initialized && id !in v.sessions
           then v.(sessions := v.sessions[id := Session(v.requests[i].key, i, v.now, v.now)],
                   requests := v.requests[i := v.requests[i].(initialized := true)])
           else v
    case Finished(i) =>
      w == if i < |v.requests| then v.(requests := v.requests[i := v.requests[i].(pending := false, stage := Over)])
           else v
    case Closes(transport, id) =>
      w == if id in v.sessions && v.sessions[id].transport == transport then v.(sessions := v.sessions - {id}) else v
    case CleanupTimer => w == v.(sessions := OpenSessions(l, v), attempts := Standing(v.attempts, v.now))
  }

  method Step(s: Server, e: Event)
    requires s.Valid()
    modifies s
    ensures s.Valid() && Moves(s.Config(), old(s.Seen()), e, s.Seen())
  {
    match e
    case Tick(elapsed) => s.Advance(elapsed);
    case Arrives(sessionId, key, isInitialize, address) =>
      var _ := s.TransportForRequest(sessionId, key, isInitialize, address);
    case Checked(i, accepted) => if i < |s.requests| && s.requests[i].stage == Validating { s.Validated(i, accepted); }
    case Opened(i, id) =>
      if i < |s.requests| && s.requests[i].stage == Handling && !s.requests[i].initialized && id !in s.sessions {
        s.OnSessionInitialized(i, id);
      }
    case Finished(i) => if i < |s.requests| { s.ReleaseInitialization(i); }
    case Closes(transport, id) => s.OnClose(transport, id);
    case CleanupTimer => s.CleanupExpiredSessions();
  }

  /** The views from one end of a schedule to the other. */
  ghost predicate Follows(l: Limits, schedule: seq<Event>, views: seq<View>) {
    |views| == |schedule| + 1 && forall k :: 0 <= k < |schedule| ==> Moves(l, views[k], schedule[k], views[k + 1])
  }

  lemma FollowsOn(l: Limits, schedule: seq<Event>, e: Event, views: seq<View>, w: View)
    requires Follows(l, schedule, views) && Moves(l, views[|schedule|], e, w)
    ensures Follows(l, schedule + [e], views + [w])
  {
    var (more, longer) := (schedule + [e], views + [w]);
    forall k | 0 <= k < |more| ensures Moves(l, longer[k], more[k], longer[k + 1]) {
      if k < |schedule| {
        assert Moves(l, views[k], schedule[k], views[k + 1]);
      }
    }
  }

  /** Any interleaving at the awaits: open sessions and admitted requests that may still open one stay
      within the limits, for all keys together and for each; the counters agree with the reservations
      held, so that with none held both are back to nothing. Every event has its effect, in turn. */
  method Run(s: Server, schedule: seq<Event>) returns (ghost views: seq<View>)
    requires s.Valid()
    modifies s
    ensures s.Valid()
    ensures Follows(s.Config(), schedule, views) && views[0] == old(s.Seen()) && views[|schedule|] == s.Seen()
    ensures |s.sessions| + Count(s.requests, Filter(None, true)) <= s.maxSessions
    ensures forall k: Key ::
              |SessionsOf(s.sessions, k)| + Count(s.requests, Filter(Some(k), true)) <= s.maxSessionsPerKey
    ensures s.pendingInitializations == Count(s.requests, Filter(None, false)) <= s.maxPendingInitializations
    ensures s.pendingInitializations == Sum(s.pendingByKey)
    ensures forall k :: Held(s.pendingByKey, k) == Count(s.requests, Filter(Some(k), false))
    ensures forall k :: k in s.pendingByKey ==> s.pendingByKey[k] > 0
    ensures (forall i :: 0 <= i < |s.requests| ==> s.requests[i].stage == Over) ==>
              s.pendingInitializations == 0 && s.pendingByKey == map[]
  {
    views := [s.Seen()];
    for i := 0 to |schedule|
      invariant s.Valid() && s.Config() == old(s.Config())
      invariant Follows(s.Config(), schedule[..i], views) && views[0] == old(s.Seen()) && views[i] == s.Seen()
    {
      Step(s, schedule[i]);
      FollowsOn(s.Config(), schedule[..i], schedule[i], views, s.Seen());
      assert schedule[..i + 1] == schedule[..i] + [schedule[i]];
      views := views + [s.Seen()];
    }
    assert schedule[..|schedule|] == schedule;
    forall k: Key
      ensures |SessionsOf(s.sessions, k)| + Count(s.requests, Filter(Some(k), true)) <= s.maxSessionsPerKey
    {
      assert FitsKey(s.sessions, s.requests, k, s.maxSessionsPerKey);
    }
    if forall i :: 0 <= i < |s.requests| ==> s.requests[i].stage == Over {
      NoneHeld(s.requests, s.pendingInitializations, s.pendingByKey);
    }
  }

  lemma {:induction false} CountOfNone(requests: seq<Request>, f: Filter)
    requires forall i :: 0 <= i < |requests| ==> !requests[i].pending
    ensures Count(requests, f) == 0
  {
    if requests != [] {
      CountOfNone(requests[..|requests| - 1], f);
    }
  }

  lemma NoneHeld(requests: seq<Request>, pending: nat, byKey: map<Key, nat>)
    requires CountersAgree(requests, pending, byKey)
    requires forall i :: 0 <= i < |requests| ==> !requests[i].pending
    ensures pending == 0 && byKey == map[]
  {
    CountOfNone(requests, Filter(None, false));
    forall k
      ensures k !in byKey
    {
      CountOfNone(requests, Filter(Some(k), false));
      assert Held(byKey, k) == 0;
    }
  }
}
