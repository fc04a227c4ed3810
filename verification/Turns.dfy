/** The bookkeeping of the transcript collector, on values: which caller segments a committed turn
    replaces, and what is true of the collected items at every moment. */
module Turns {
  import opened Basics
  import opened Decimals

  datatype Role = User | Agent

  datatype Item = Item(id: string, role: Role, content: string, time: int)

  const USER_PREFIX := "user-transcript-"
  const AGENT_PREFIX := "agent-transcript-"

  function UserId(n: nat): string {
    USER_PREFIX + Decimal(n)
  }

  function AgentId(n: nat): string {
    AGENT_PREFIX + Decimal(n)
  }

  /** An id that the collector never makes up. */
  ghost predicate Foreign(id: string) {
    forall n: nat :: id != UserId(n) && id != AgentId(n)
  }

  predicate Committed(unpublished: set<string>, it: Item) {
    it.role == User && it.id !in unpublished
  }

  // ----- which segments a committed turn may replace

  /** The positions of the unpublished segments after the last committed caller turn. */
  function Tail(items: seq<Item>, unpublished: set<string>): (r: seq<nat>)
    ensures InRange(r, |items|)
  {
    if items == [] then []
    else
      var n := |items| - 1;
      if Committed(unpublished, items[n]) then []
      else if items[n].id in unpublished then Tail(items[..n], unpublished) + [n]
      else Tail(items[..n], unpublished)
  }

  lemma {:induction false} TailIs(items: seq<Item>, unpublished: set<string>)
    ensures forall j, k :: 0 <= j < k < |Tail(items, unpublished)| ==>
              Tail(items, unpublished)[j] < Tail(items, unpublished)[k]
    ensures forall i :: i in Tail(items, unpublished) <==>
              && 0 <= i < |items| && items[i].id in unpublished
              && forall j :: i < j < |items| ==> !Committed(unpublished, items[j])
    decreases |items|
  {
    if items != [] {
      var n := |items| - 1;
      TailIs(items[..n], unpublished);
    }
  }

  predicate InRange(indices: seq<nat>, n: nat) {
    forall k :: 0 <= k < |indices| ==> indices[k] < n
  }

  function Join(items: seq<Item>, indices: seq<nat>): string
    requires InRange(indices, |items|)
  {
    if indices == [] then ""
    else if |indices| == 1 then items[indices[0]].content
    else items[indices[0]].content + " " + Join(items, indices[1..])
  }

  /** Where the last run of consecutive positions starts. */
  function RunStart(indices: seq<nat>): (from: nat)
    requires indices != []
    ensures from < |indices|
    ensures forall k :: from < k < |indices| ==> indices[k - 1] + 1 == indices[k]
    ensures from > 0 ==> indices[from - 1] + 1 != indices[from]
  {
    var n := |indices| - 1;
    if n == 0 || indices[n - 1] + 1 != indices[n] then n else RunStart(indices[..n])
  }

  /** The segments that a committed turn with this text replaces: all segments since the last committed
      turn if they spell the text; else the last contiguous ones, if nothing was said since or they
      spell the text; else none. */
  function Chosen(items: seq<Item>, unpublished: set<string>, norm: string -> string, text: string): (r: seq<nat>)
    ensures InRange(r, |items|)
  {
    var all := Tail(items, unpublished);
    if all == [] then []
    else if norm(Join(items, all)) == norm(text) then all
    else
      var run := all[RunStart(all)..];
      if run[|run| - 1] == |items| - 1 || norm(Join(items, run)) == norm(text) then run else []
  }

  lemma ChosenIsSuffix(items: seq<Item>, unpublished: set<string>, norm: string -> string, text: string)
      returns (from: nat)
    ensures from <= |Tail(items, unpublished)|
    ensures Chosen(items, unpublished, norm, text) == Tail(items, unpublished)[from..]
  {
    var all := Tail(items, unpublished);
    var r := Chosen(items, unpublished, norm, text);
    from := if r == [] then |all| else if r == all then 0 else RunStart(all);
  }

  /** A committed turn replaces only unpublished segments after the last committed caller turn. */
  lemma ChosenAreSegments(items: seq<Item>, unpublished: set<string>, norm: string -> string, text: string)
    ensures var r := Chosen(items, unpublished, norm, text);
            && (forall j, k :: 0 <= j < k < |r| ==> r[j] < r[k])
            && (forall i :: i in r ==>
                  && items[i].id in unpublished
                  && forall j :: i < j < |items| ==> !Committed(unpublished, items[j]))
  {
    var from := ChosenIsSuffix(items, unpublished, norm, text);
    SuffixOfTail(items, unpublished, from);
  }

  lemma SuffixOfTail(items: seq<Item>, unpublished: set<string>, from: nat)
    requires from <= |Tail(items, unpublished)|
    ensures var r := Tail(items, unpublished)[from..];
            && (forall j, k :: 0 <= j < k < |r| ==> r[j] < r[k])
            && (forall i :: i in r ==>
                  && 0 <= i < |items| && items[i].id in unpublished
                  && forall j :: i < j < |items| ==> !Committed(unpublished, items[j]))
  {
    TailIs(items, unpublished);
    assert forall i :: i in Tail(items, unpublished)[from..] ==> i in Tail(items, unpublished);
  }

  // ----- which ones these are, by their places

  ghost predicate Increasing(gone: seq<nat>) {
    forall i, j :: 0 <= i < j < |gone| ==> gone[i] < gone[j]
  }

  /** An unpublished segment after the last committed caller turn. */
  ghost predicate Pending(items: seq<Item>, unpublished: set<string>, i: nat) {
    && i < |items| && items[i].id in unpublished
    && forall j :: i < j < |items| ==> !Committed(unpublished, items[j])
  }

  /** ... with nothing but segments from there to the last one. */
  ghost predicate InLastRun(items: seq<Item>, unpublished: set<string>, i: nat) {
    && Pending(items, unpublished, i)
    && forall k: nat, j: nat :: i <= k <= j && Pending(items, unpublished, j) ==> Pending(items, unpublished, k)
  }

  /** All of them, in their order. */
  ghost predicate ListsPending(items: seq<Item>, unpublished: set<string>, all: seq<nat>) {
    Increasing(all) && forall i: nat :: i in all <==> Pending(items, unpublished, i)
  }

  ghost predicate ListsRun(items: seq<Item>, unpublished: set<string>, run: seq<nat>) {
    Increasing(run) && forall i: nat :: i in run <==> InLastRun(items, unpublished, i)
  }

  lemma {:induction false} ListsOnce(a: seq<nat>, b: seq<nat>)
    requires Increasing(a) && Increasing(b) && forall i: nat :: i in a <==> i in b
    ensures a == b
  {
    assert b != [] ==> b[0] in b;
    if a != [] {
      var m, n := |a| - 1, |b| - 1;
      assert a[m] in b && b != [];
      assert b[n] in a;
      assert a[m] == b[n];
      forall i: nat ensures i in a[..m] <==> i in b[..n] {
        assert i in a[..m] <==> i in a && i != a[m];
        assert i in b[..n] <==> i in b && i != b[n];
      }
      ListsOnce(a[..m], b[..n]);
      assert a == a[..m] + [a[m]] && b == b[..n] + [b[n]];
    }
  }

  lemma TailLists(items: seq<Item>, unpublished: set<string>)
    ensures ListsPending(items, unpublished, Tail(items, unpublished))
  {
    TailIs(items, unpublished);
  }

  /** Between two neighbours in an increasing list there is nothing of it. */
  lemma BetweenNeighbours(all: seq<nat>, m: nat, k: nat)
    requires Increasing(all) && m + 1 < |all| && all[m] < k < all[m + 1]
    ensures k !in all
  {
    forall t | 0 <= t < |all| ensures all[t] != k {
      assert t <= m || m + 1 <= t;
    }
  }

  /** The places from `from` on follow one another. */
  lemma {:induction false} Consecutive(all: seq<nat>, from: nat, m: nat)
    requires from <= m < |all| && forall k :: from < k < |all| ==> all[k - 1] + 1 == all[k]
    ensures all[m] == all[from] + (m - from)
    decreases m
  {
    if from < m {
      Consecutive(all, from, m - 1);
    }
  }

  lemma RunHere(items: seq<Item>, unpublished: set<string>, all: seq<nat>, from: nat, m: nat)
    requires ListsPending(items, unpublished, all) && from <= m < |all|
    requires forall k :: from < k < |all| ==> all[k - 1] + 1 == all[k]
    ensures InLastRun(items, unpublished, all[m])
  {
    assert all[m] in all;
    forall k: nat, j: nat | all[m] <= k <= j && Pending(items, unpublished, j)
      ensures Pending(items, unpublished, k)
    {
      assert j in all;
      var q :| 0 <= q < |all| && all[q] == j;
      assert m <= q;
      Consecutive(all, from, m);
      Consecutive(all, from, q);
      Consecutive(all, from, m + (k - all[m]));
      assert all[m + (k - all[m])] in all;
    }
  }

  lemma RunStopsHere(items: seq<Item>, unpublished: set<string>, all: seq<nat>, from: nat, m: nat)
    requires ListsPending(items, unpublished, all) && m < from < |all|
    requires all[from - 1] + 1 != all[from]
    ensures !InLastRun(items, unpublished, all[m])
  {
    var k := all[from] - 1;
    BetweenNeighbours(all, from - 1, k);
    assert all[from] in all && Pending(items, unpublished, all[from]);
    assert m == from - 1 || all[m] < all[from - 1];
  }

  lemma RunFrom(items: seq<Item>, unpublished: set<string>, all: seq<nat>)
    requires all != [] && ListsPending(items, unpublished, all)
    ensures forall m :: 0 <= m < |all| ==> (InLastRun(items, unpublished, all[m]) <==> RunStart(all) <= m)
  {
    forall m | 0 <= m < |all|
      ensures InLastRun(items, unpublished, all[m]) <==> RunStart(all) <= m
    {
      if m < RunStart(all) {
        RunStopsHere(items, unpublished, all, RunStart(all), m);
      } else {
        RunHere(items, unpublished, all, RunStart(all), m);
      }
    }
  }

  lemma RunLists(items: seq<Item>, unpublished: set<string>, all: seq<nat>)
    requires all != [] && ListsPending(items, unpublished, all)
    ensures ListsRun(items, unpublished, all[RunStart(all)..])
  {
    RunFrom(items, unpublished, all);
    var from := RunStart(all);
    forall i: nat
      ensures i in all[from..] <==> InLastRun(items, unpublished, i)
    {
      assert InLastRun(items, unpublished, i) ==> i in all;
      assert i in all[from..] <==> exists m :: from <= m < |all| && all[m] == i;
    }
  }

  /** A committed turn replaces all segments that wait since the last committed one if together they spell
      it; otherwise those from which on there are only segments up to the last, if nothing came after or if
      together they spell it; and otherwise none. */
  lemma ChosenIs(items: seq<Item>, unpublished: set<string>, norm: string -> string, text: string, all: seq<nat>,
          run: seq<nat>)
    requires ListsPending(items, unpublished, all) && ListsRun(items, unpublished, run)
    ensures InRange(all, |items|) && InRange(run, |items|) && (all != [] ==> run != [])
    ensures Chosen(items, unpublished, norm, text) ==
            if all == [] then []
            else if norm(Join(items, all)) == norm(text) then all
            else if run[|run| - 1] == |items| - 1 || norm(Join(items, run)) == norm(text) then run
            else []
  {
    TailLists(items, unpublished);
    ListsOnce(all, Tail(items, unpublished));
    if all != [] {
      RunLists(items, unpublished, all);
      ListsOnce(run, all[RunStart(all)..]);
    }
    forall k | 0 <= k < |run| ensures run[k] < |items| {
      assert run[k] in run;
    }
  }

  /** Older speech that is separated from the last segments stays, unless all segments together spell the
      turn. */
  lemma OlderSpeechStays(items: seq<Item>, unpublished: set<string>, norm: string -> string, text: string, i: nat,
          k: nat, j: nat)
    requires Pending(items, unpublished, i) && i < k < j && Pending(items, unpublished, j)
    requires !Pending(items, unpublished, k)
    requires norm(Join(items, Tail(items, unpublished))) != norm(text)
    ensures i !in Chosen(items, unpublished, norm, text)
  {
    TailLists(items, unpublished);
    var all := Tail(items, unpublished);
    assert i in all;
    RunLists(items, unpublished, all);
    assert !InLastRun(items, unpublished, i);
  }

  /** Joining puts one space between any two parts. */
  lemma {:induction false} JoinParts(items: seq<Item>, a: seq<nat>, b: seq<nat>)
    requires InRange(a, |items|) && InRange(b, |items|) && a != [] && b != []
    ensures InRange(a + b, |items|) && Join(items, a + b) == Join(items, a) + " " + Join(items, b)
  {
    assert InRange(a + b, |items|);
    assert (a + b)[1..] == a[1..] + b;
    if |a| > 1 {
      JoinParts(items, a[1..], b);
    } else {
      assert a[1..] + b == b;
    }
  }

  // ----- replacing them

  function Survivors(items: seq<Item>, gone: seq<nat>, lo: nat, hi: nat): seq<Item>
    requires lo <= hi <= |items|
    decreases hi - lo
  {
    if lo == hi then []
    else (if lo in gone then [] else [items[lo]]) + Survivors(items, gone, lo + 1, hi)
  }

  /** The items with the positions `gone` taken out and `item` put where the first of them was. */
  function Splice(items: seq<Item>, gone: seq<nat>, item: Item): seq<Item>
    requires gone != [] && gone[0] <= |items|
  {
    items[..gone[0]] + [item] + Survivors(items, gone, gone[0], |items|)
  }

  // ----- what always holds

  /** How often an id has been published for the caller. */
  function Times(sent: seq<Item>, id: string): nat {
    if sent == [] then 0
    else Times(sent[..|sent| - 1], id) + (if sent[|sent| - 1].role == User && sent[|sent| - 1].id == id then 1 else 0)
  }

  datatype Book = Book(items: seq<Item>, unpublished: set<string>, seen: set<string>, next: nat, sent: seq<Item>)

  ghost predicate DistinctIds(items: seq<Item>) {
    forall i, j :: 0 <= i < j < |items| ==> items[i].id != items[j].id
  }

  predicate MadeUp(id: string, n: nat) {
    id == UserId(n) || id == AgentId(n)
  }

  /** Ids the collector made up carry numbers already used; all others have been recorded as seen. */
  ghost predicate KnownIds(b: Book) {
    && (forall it :: it in b.items ==>
          (Foreign(it.id) && it.id in b.seen) || exists n: nat :: n < b.next && MadeUp(it.id, n))
    && (forall id :: id in b.seen ==> Foreign(id))
  }

  /** The unpublished ids are exactly those of caller items that have not been published; the other
      caller items have been published once. */
  ghost predicate Published(b: Book) {
    && (forall id :: id in b.unpublished ==> exists it :: it in b.items && it.id == id && it.role == User)
    && (forall it :: it in b.items && it.role == User ==>
         Times(b.sent, it.id) == if it.id in b.unpublished then 0 else 1)
    && (forall it :: it in b.sent && it.role == User ==> it in b.items && it.id !in b.unpublished)
  }

  ghost predicate Ok(b: Book) {
    && DistinctIds(b.items) && KnownIds(b) && Published(b)
    && |b.sent| == |b.items| - |b.unpublished|
  }

  // ----- ids

  lemma MadeUpOnce(id: string, m: nat, n: nat)
    requires MadeUp(id, m) && (id == UserId(n) || id == AgentId(n))
    ensures m == n
  {
    assert USER_PREFIX[0] == 'u' && AGENT_PREFIX[0] == 'a';
    if id == UserId(m) {
      assert id[0] == 'u' && id == UserId(n);
      SamePrefix(USER_PREFIX, Decimal(m), Decimal(n));
    } else {
      assert id[0] == 'a' && id == AgentId(n);
      SamePrefix(AGENT_PREFIX, Decimal(m), Decimal(n));
    }
    DecimalInjective(m, n);
  }

  lemma MadeUpIsNotForeign(n: nat)
    ensures !Foreign(UserId(n)) && !Foreign(AgentId(n))
  {
  }

  /** The next made-up id is not in use. */
  lemma NextIsNew(b: Book)
    requires Ok(b)
    ensures forall it :: it in b.items ==> it.id != UserId(b.next) && it.id != AgentId(b.next)
    ensures UserId(b.next) !in b.unpublished
    ensures Times(b.sent, UserId(b.next)) == 0
  {
    forall it | it in b.items ensures it.id != UserId(b.next) && it.id != AgentId(b.next) {
      MadeUpIsNotForeign(b.next);
      if !(Foreign(it.id) && it.id in b.seen) {
        var n: nat :| n < b.next && MadeUp(it.id, n);
        if it.id == UserId(b.next) || it.id == AgentId(b.next) {
          MadeUpOnce(it.id, n, b.next);
        }
      }
    }
    NotSent(b.sent, UserId(b.next));
  }

  lemma {:induction false} NotSent(sent: seq<Item>, id: string)
    requires forall it :: it in sent && it.role == User ==> it.id != id
    ensures Times(sent, id) == 0
    decreases |sent|
  {
    if sent != [] {
      NotSent(sent[..|sent| - 1], id);
    }
  }

  /** An id from outside that has not been seen is not in use. */
  lemma UnseenIsNew(b: Book, id: string)
    requires Ok(b) && Foreign(id) && id !in b.seen
    ensures forall it :: it in b.items ==> it.id != id
    ensures id !in b.unpublished && Times(b.sent, id) == 0
  {
    forall it | it in b.items ensures it.id != id {
      if !(Foreign(it.id) && it.id in b.seen) {
        var n: nat :| n < b.next && MadeUp(it.id, n);
        MadeUpIsNotForeign(n);
      }
    }
    NotSent(b.sent, id);
  }

  lemma SentOneMore(sent: seq<Item>, it: Item, id: string)
    ensures Times(sent + [it], id) == Times(sent, id) + (if it.role == User && it.id == id then 1 else 0)
  {
    assert (sent + [it])[..|sent|] == sent;
  }

  // ----- inserting and removing

  function Inserted(items: seq<Item>, at: nat, it: Item): seq<Item>
    requires at <= |items|
  {
    items[..at] + [it] + items[at..]
  }

  function Removed(items: seq<Item>, at: nat): seq<Item>
    requires at < |items|
  {
    items[..at] + items[at + 1..]
  }

  lemma InsertedItems(items: seq<Item>, at: nat, it: Item)
    requires at <= |items|
    ensures forall x :: x in Inserted(items, at, it) <==> x == it || x in items
  {
    assert items == items[..at] + items[at..];
  }

  lemma InsertedDistinct(items: seq<Item>, at: nat, it: Item)
    requires at <= |items| && DistinctIds(items) && forall k :: 0 <= k < |items| ==> items[k].id != it.id
    ensures DistinctIds(Inserted(items, at, it))
  {
    var grown := Inserted(items, at, it);
    assert forall k :: 0 <= k < at ==> grown[k] == items[k];
    assert forall k :: at < k < |grown| ==> grown[k] == items[k - 1];
  }

  lemma RemovedItems(items: seq<Item>, at: nat)
    requires at < |items| && DistinctIds(items)
    ensures forall x :: x in Removed(items, at) <==> x in items && x.id != items[at].id
    ensures DistinctIds(Removed(items, at))
  {
    var rest := Removed(items, at);
    assert forall k :: 0 <= k < at ==> rest[k] == items[k];
    assert forall k :: at <= k < |rest| ==> rest[k] == items[k + 1];
    forall x | x in items && x.id != items[at].id ensures x in rest {
      var k :| 0 <= k < |items| && items[k] == x;
      assert rest[if k < at then k else k - 1] == x;
    }
  }

  /** The unpublished ids still belong to caller items when those are still there. */
  lemma SegmentsStay(before: seq<Item>, after: seq<Item>, ids: set<string>)
    requires forall id :: id in ids ==> exists x :: x in before && x.id == id && x.role == User
    requires forall x :: x in before && x.role == User && x.id in ids ==> x in after
    ensures forall id :: id in ids ==> exists x :: x in after && x.id == id && x.role == User
  {
    forall id | id in ids ensures exists x :: x in after && x.id == id && x.role == User {
      var x :| x in before && x.id == id && x.role == User;
      assert x in after;
    }
  }

  // ----- the steps

  /** An item that is held but not published. */
  lemma HoldSegment(b: Book, it: Item, c: Book)
    requires Ok(b) && it.role == User && it.id == UserId(b.next)
    requires c == Book(b.items + [it], b.unpublished + {it.id}, b.seen, b.next + 1, b.sent)
    ensures Ok(c)
  {
    NextIsNew(b);
    InsertedDistinct(b.items, |b.items|, it);
    assert c.items == Inserted(b.items, |b.items|, it);
    HeldIdKnown(b, it, c);
    HeldUnpublished(b, it, c);
  }

  lemma HeldIdKnown(b: Book, it: Item, c: Book)
    requires KnownIds(b) && it.id == UserId(b.next)
    requires c.items == b.items + [it] && c.seen == b.seen && c.next == b.next + 1
    ensures KnownIds(c)
  {
    assert MadeUp(it.id, b.next);
  }

  lemma HeldUnpublished(b: Book, it: Item, c: Book)
    requires Published(b) && it.role == User && Times(b.sent, it.id) == 0
    requires forall x :: x in b.items ==> x.id != it.id
    requires c.items == b.items + [it] && c.unpublished == b.unpublished + {it.id} && c.sent == b.sent
    ensures Published(c)
  {
    assert it in c.items;
    SegmentsStay(b.items, c.items, b.unpublished);
  }

  /** An item that is inserted and published: a committed turn with a new id, or agent speech. */
  lemma PublishItem(b: Book, at: nat, it: Item, c: Book)
    requires Ok(b) && at <= |b.items|
    requires (Foreign(it.id) && it.id !in b.seen) || (it.role == Agent && it.id == AgentId(b.next))
    requires c.items == Inserted(b.items, at, it) && c.unpublished == b.unpublished
    requires c.sent == b.sent + [it]
    requires if Foreign(it.id) then c.seen == b.seen + {it.id} && c.next == b.next
             else c.seen == b.seen && c.next == b.next + 1
    ensures Ok(c)
  {
    if Foreign(it.id) { UnseenIsNew(b, it.id); } else { NextIsNew(b); }
    InsertedItems(b.items, at, it);
    InsertedDistinct(b.items, at, it);
    PublishedIdKnown(b, it, c);
    PublishedOnce(b, it, c);
  }

  lemma PublishedIdKnown(b: Book, it: Item, c: Book)
    requires KnownIds(b) && forall x :: x in c.items <==> x == it || x in b.items
    requires Foreign(it.id) || it.id == AgentId(b.next)
    requires if Foreign(it.id) then c.seen == b.seen + {it.id} && c.next == b.next
             else c.seen == b.seen && c.next == b.next + 1
    ensures KnownIds(c)
  {
    if !Foreign(it.id) { assert MadeUp(it.id, b.next); }
  }

  lemma PublishedOnce(b: Book, it: Item, c: Book)
    requires Published(b) && (forall x :: x in c.items <==> x == it || x in b.items)
    requires forall x :: x in b.items ==> x.id != it.id
    requires c.unpublished == b.unpublished && c.sent == b.sent + [it]
    requires it.role == User ==> it.id !in b.unpublished && Times(b.sent, it.id) == 0
    ensures Published(c)
  {
    forall x | x in c.items && x.role == User
      ensures Times(c.sent, x.id) == if x.id in c.unpublished then 0 else 1
    {
      SentOneMore(b.sent, it, x.id);
    }
    SegmentsStay(b.items, c.items, b.unpublished);
  }

  /** A segment that a committed turn replaces is dropped. */
  lemma DropSegment(b: Book, at: nat, c: Book)
    requires Ok(b) && at < |b.items| && b.items[at].id in b.unpublished
    requires c == Book(Removed(b.items, at), b.unpublished - {b.items[at].id}, b.seen, b.next, b.sent)
    ensures Ok(c)
  {
    RemovedItems(b.items, at);
    SegmentsStay(b.items, c.items, c.unpublished);
  }

  /** Agent speech gets the id of the turn it turns out to be. */
  lemma RenameAgent(b: Book, at: nat, id: string, time: int, c: Book)
    requires Ok(b) && at < |b.items| && b.items[at].role == Agent && Foreign(id) && id !in b.seen
    requires c == Book(b.items[at := b.items[at].(id := id, time := time)], b.unpublished,
                       b.seen - {b.items[at].id} + {id}, b.next, b.sent)
    ensures Ok(c)
  {
    UnseenIsNew(b, id);
    forall x ensures x in c.items && x.role == User <==> x in b.items && x.role == User {
      if x in b.items && x.role == User {
        var k :| 0 <= k < |b.items| && b.items[k] == x;
        assert c.items[k] == x;
      }
    }
    forall x | x in c.items
      ensures (Foreign(x.id) && x.id in c.seen) || exists n: nat :: n < c.next && MadeUp(x.id, n)
    {
      var k :| 0 <= k < |c.items| && c.items[k] == x;
      if k != at { assert b.items[k] == x; }
    }
    forall u | u in c.unpublished ensures exists x :: x in c.items && x.id == u && x.role == User {
      var x :| x in b.items && x.id == u && x.role == User;
      assert x in c.items;
    }
  }

  /** A held segment is published. */
  lemma PublishSegment(b: Book, at: nat, c: Book)
    requires Ok(b) && at < |b.items| && b.items[at].id in b.unpublished
    requires c == Book(b.items, b.unpublished - {b.items[at].id}, b.seen, b.next, b.sent + [b.items[at]])
    ensures Ok(c)
  {
    var it := b.items[at];
    var holder :| holder in b.items && holder.id == it.id && holder.role == User;
    assert holder == it;
    forall x | x in c.items && x.role == User
      ensures Times(c.sent, x.id) == if x.id in c.unpublished then 0 else 1
    {
      SentOneMore(b.sent, it, x.id);
    }
    forall x | x in c.sent && x.role == User ensures x in c.items && x.id !in c.unpublished {
      assert x in b.sent || x == it;
    }
  }

  // ----- flushing

  /** The items whose ids are unpublished, in order. */
  function Segments(items: seq<Item>, ids: set<string>): seq<Item> {
    if items == [] then []
    else
      var n := |items| - 1;
      Segments(items[..n], ids) + (if items[n].id in ids then [items[n]] else [])
  }

  /** `b` is `start` with the segments among the first `k` items published. */
  ghost predicate FlushedTo(start: Book, b: Book, k: nat) {
    && k <= |start.items|
    && b.items == start.items && b.seen == start.seen && b.next == start.next
    && b.unpublished <= start.unpublished
    && (forall j :: 0 <= j < k ==> start.items[j].id !in b.unpublished)
    && (forall j :: k <= j < |start.items| && start.items[j].id in start.unpublished ==>
         start.items[j].id in b.unpublished)
    && b.sent == start.sent + Segments(start.items[..k], start.unpublished)
  }

  function PublishAt(b: Book, k: nat): Book
    requires k < |b.items|
  {
    var it := b.items[k];
    if it.id in b.unpublished then b.(unpublished := b.unpublished - {it.id}, sent := b.sent + [it]) else b
  }

  lemma FlushOne(start: Book, b: Book, k: nat)
    requires DistinctIds(start.items) && FlushedTo(start, b, k) && k < |b.items|
    ensures FlushedTo(start, PublishAt(b, k), k + 1)
  {
    assert start.items[..k + 1][..k] == start.items[..k];
  }

  lemma FlushKeepsOk(b: Book, k: nat)
    requires Ok(b) && k < |b.items|
    ensures Ok(PublishAt(b, k))
  {
    if b.items[k].id in b.unpublished {
      PublishSegment(b, k, PublishAt(b, k));
    }
  }

  /** Publishing what is held back, from item `k` on. */
  function FlushFrom(b: Book, k: nat): Book
    decreases |b.items| - k
  {
    if k < |b.items| then FlushFrom(PublishAt(b, k), k + 1) else b
  }

  lemma {:induction false} FlushIs(start: Book, b: Book, k: nat)
    requires DistinctIds(start.items) && FlushedTo(start, b, k)
    ensures FlushedTo(start, FlushFrom(b, k), |start.items|)
    decreases |b.items| - k
  {
    if k < |b.items| {
      FlushOne(start, b, k);
      FlushIs(start, PublishAt(b, k), k + 1);
    }
  }

  lemma {:induction false} FlushIsOk(b: Book, k: nat)
    requires Ok(b)
    ensures Ok(FlushFrom(b, k))
    decreases |b.items| - k
  {
    if k < |b.items| {
      FlushKeepsOk(b, k);
      FlushIsOk(PublishAt(b, k), k + 1);
    }
  }

  lemma FlushEnds(start: Book)
    requires Ok(start)
    ensures var b := FlushFrom(start, 0);
            && Ok(b) && b.items == start.items && b.seen == start.seen && b.next == start.next
            && b.unpublished == {} && b.sent == start.sent + Segments(start.items, start.unpublished)
  {
    FlushIs(start, start, 0);
    FlushIsOk(start, 0);
    assert start.items[..|start.items|] == start.items;
    NoneHeld(FlushFrom(start, 0));
  }

  lemma NoneHeld(b: Book)
    requires Ok(b) && forall k :: 0 <= k < |b.items| ==> b.items[k].id !in b.unpublished
    ensures b.unpublished == {}
  {
    assert forall x :: x in b.items ==> x.id !in b.unpublished;
  }

  // ----- dropping the segments that a committed turn replaces

  /** Where the items dropped so far begin. */
  function CutAt(items: seq<Item>, gone: seq<nat>, k: nat): (cut: nat)
    requires k <= |gone| && InRange(gone, |items|)
    ensures cut <= |items|
  {
    if k == |gone| then |items| else gone[k]
  }

  function IdsFrom(items: seq<Item>, gone: seq<nat>, k: nat): set<string>
    requires InRange(gone, |items|)
  {
    set j | k <= j < |gone| :: items[gone[j]].id
  }

  /** The items without the segments `gone[k..]`. */
  function ItemsLeft(items: seq<Item>, gone: seq<nat>, k: nat): seq<Item>
    requires k <= |gone| && InRange(gone, |items|)
  {
    items[..CutAt(items, gone, k)] + Survivors(items, gone, CutAt(items, gone, k), |items|)
  }

  function Left(b: Book, gone: seq<nat>, k: nat): Book
    requires k <= |gone| && InRange(gone, |b.items|)
  {
    b.(items := ItemsLeft(b.items, gone, k), unpublished := b.unpublished - IdsFrom(b.items, gone, k))
  }

  function DropAt(b: Book, at: nat): Book
    requires at < |b.items|
  {
    b.(items := Removed(b.items, at), unpublished := b.unpublished - {b.items[at].id})
  }

  lemma LeftAtEnd(b: Book, gone: seq<nat>)
    requires InRange(gone, |b.items|)
    ensures Left(b, gone, |gone|) == b
  {
    assert b.items[..|b.items|] == b.items;
    assert b.unpublished - IdsFrom(b.items, gone, |gone|) == b.unpublished;
  }

  lemma RemoveOne(items: seq<Item>, gone: seq<nat>, k: nat)
    requires k < |gone| && Increasing(gone) && InRange(gone, |items|)
    ensures gone[k] < |ItemsLeft(items, gone, k + 1)| && ItemsLeft(items, gone, k + 1)[gone[k]] == items[gone[k]]
    ensures Removed(ItemsLeft(items, gone, k + 1), gone[k]) == ItemsLeft(items, gone, k)
  {
    var at, cut := gone[k], CutAt(items, gone, k + 1);
    SurvivorsAfter(items, gone, k + 1, cut);
    var rest := Survivors(items, gone, cut, |items|);
    var left := items[..cut] + rest;
    assert left[..at] == items[..at];
    assert left[at + 1..] == items[at + 1..cut] + rest;
  }

  lemma DropOne(start: Book, gone: seq<nat>, k: nat)
    requires k < |gone| && Increasing(gone) && InRange(gone, |start.items|)
    ensures gone[k] < |Left(start, gone, k + 1).items|
    ensures Left(start, gone, k + 1).items[gone[k]] == start.items[gone[k]]
    ensures DropAt(Left(start, gone, k + 1), gone[k]) == Left(start, gone, k)
  {
    RemoveOne(start.items, gone, k);
    IdsFromStep(start.items, gone, k + 1);
  }

  lemma IdsFromStep(items: seq<Item>, gone: seq<nat>, k: nat)
    requires InRange(gone, |items|) && 0 < k <= |gone|
    ensures IdsFrom(items, gone, k - 1) == IdsFrom(items, gone, k) + {items[gone[k - 1]].id}
  {
  }

  /** Dropping the first `k` of the chosen segments, the last first. */
  function DropAll(b: Book, gone: seq<nat>, k: nat): Book
    requires k <= |gone|
    decreases k
  {
    if k == 0 || gone[k - 1] >= |b.items| then b else DropAll(DropAt(b, gone[k - 1]), gone, k - 1)
  }

  lemma {:induction false} DropIs(start: Book, gone: seq<nat>, k: nat)
    requires k <= |gone| && Increasing(gone) && InRange(gone, |start.items|)
    ensures DropAll(Left(start, gone, k), gone, k) == Left(start, gone, 0)
    ensures k > 0 ==> gone[k - 1] < |Left(start, gone, k).items|
    decreases k
  {
    if k > 0 {
      DropOne(start, gone, k - 1);
      DropIs(start, gone, k - 1);
    }
  }

  /** The segments `gone` taken out at once. */
  function Dropped(b: Book, gone: seq<nat>): Book
    requires gone != [] && InRange(gone, |b.items|)
  {
    b.(items := b.items[..gone[0]] + Survivors(b.items, gone, gone[0], |b.items|),
       unpublished := b.unpublished - IdsFrom(b.items, gone, 0))
  }

  lemma DropEnds(start: Book, gone: seq<nat>)
    requires gone != [] && InRange(gone, |start.items|) && Increasing(gone)
    ensures DropAll(start, gone, |gone|) == Dropped(start, gone)
  {
    LeftAtEnd(start, gone);
    DropIs(start, gone, |gone|);
  }

  ghost predicate AllHeld(b: Book, gone: seq<nat>) {
    InRange(gone, |b.items|) && forall j :: 0 <= j < |gone| ==> b.items[gone[j]].id in b.unpublished
  }

  /** The segment dropped next is still unpublished: no segment dropped before has its id. */
  lemma StillUnpublished(start: Book, gone: seq<nat>, k: nat)
    requires k < |gone| && Increasing(gone) && DistinctIds(start.items) && AllHeld(start, gone)
    ensures start.items[gone[k]].id in Left(start, gone, k + 1).unpublished
  {
    assert forall j :: k < j < |gone| ==> start.items[gone[j]].id != start.items[gone[k]].id;
  }

  lemma LeftStep(start: Book, gone: seq<nat>, k: nat)
    requires DistinctIds(start.items) && Increasing(gone) && AllHeld(start, gone) && k < |gone|
    requires Ok(Left(start, gone, k + 1))
    ensures Ok(Left(start, gone, k))
  {
    DropOne(start, gone, k);
    StillUnpublished(start, gone, k);
    DropSegment(Left(start, gone, k + 1), gone[k], DropAt(Left(start, gone, k + 1), gone[k]));
  }

  lemma DroppedIsOk(start: Book, gone: seq<nat>)
    requires Ok(start) && gone != [] && Increasing(gone) && AllHeld(start, gone)
    ensures Ok(Dropped(start, gone))
  {
    LeftAtEnd(start, gone);
    Countdown((k: nat) => k <= |gone| && Ok(Left(start, gone, k)), |gone|) by {
      forall k: nat | k < |gone| && Ok(Left(start, gone, k + 1)) ensures Ok(Left(start, gone, k)) {
        LeftStep(start, gone, k);
      }
    }
  }

  /** What holds at `n` and goes on to hold one below holds at nought. */
  lemma {:induction false} Countdown(p: nat -> bool, n: nat)
    requires p(n) && forall k: nat :: k < n && p(k + 1) ==> p(k)
    ensures p(0)
  {
    if n > 0 {
      Countdown(p, n - 1);
    }
  }

  lemma SurvivorsAfter(items: seq<Item>, gone: seq<nat>, k: nat, cut: nat)
    requires 0 < k <= |gone| && InRange(gone, |items|) && cut == (if k == |gone| then |items| else gone[k])
    requires forall i, j :: 0 <= i < j < |gone| ==> gone[i] < gone[j]
    ensures gone[k - 1] < cut <= |items|
    ensures Survivors(items, gone, gone[k - 1], |items|)
              == items[gone[k - 1] + 1..cut] + Survivors(items, gone, cut, |items|)
  {
    var at := gone[k - 1];
    SurvivorsSkip(items, gone, at + 1, cut, |items|);
  }

  // ----- the replacement keeps the order of what survives

  lemma {:induction false} SurvivorsSkip(items: seq<Item>, gone: seq<nat>, lo: nat, mid: nat, hi: nat)
    requires lo <= mid <= hi <= |items|
    requires forall i :: lo <= i < mid ==> i !in gone
    ensures Survivors(items, gone, lo, hi) == items[lo..mid] + Survivors(items, gone, mid, hi)
    decreases mid - lo
  {
    if lo < mid {
      SurvivorsSkip(items, gone, lo + 1, mid, hi);
      assert items[lo..mid] == [items[lo]] + items[lo + 1..mid];
    } else {
      assert items[lo..mid] == [];
    }
  }

  /** `at` lists increasing positions of items that are not taken out, and `kept` is what is there. */
  ghost predicate Selects(items: seq<Item>, gone: seq<nat>, lo: nat, at: seq<nat>, kept: seq<Item>) {
    && |at| == |kept|
    && (forall k :: 0 <= k < |at| ==> lo <= at[k] < |items| && at[k] !in gone && items[at[k]] == kept[k])
    && (forall j, k :: 0 <= j < k < |at| ==> at[j] < at[k])
  }

  lemma SelectMore(items: seq<Item>, gone: seq<nat>, lo: nat, at: seq<nat>, kept: seq<Item>)
    requires lo < |items| && lo !in gone && Selects(items, gone, lo + 1, at, kept)
    ensures Selects(items, gone, lo, [lo] + at, [items[lo]] + kept)
  {
  }

  lemma SelectSkip(items: seq<Item>, gone: seq<nat>, lo: nat, at: seq<nat>, kept: seq<Item>)
    requires Selects(items, gone, lo + 1, at, kept)
    ensures Selects(items, gone, lo, at, kept)
  {
  }

  /** The survivors of a replacement keep their order. */
  lemma {:induction false} SurvivorsInOrder(items: seq<Item>, gone: seq<nat>, lo: nat, hi: nat) returns (at: seq<nat>)
    requires lo <= hi <= |items|
    ensures Selects(items, gone, lo, at, Survivors(items, gone, lo, hi))
    decreases hi - lo
  {
    at := [];
    if lo < hi {
      at := SurvivorsInOrder(items, gone, lo + 1, hi);
      if lo !in gone {
        SelectMore(items, gone, lo, at, Survivors(items, gone, lo + 1, hi));
        assert Survivors(items, gone, lo, hi) == [items[lo]] + Survivors(items, gone, lo + 1, hi);
        at := [lo] + at;
      } else {
        SelectSkip(items, gone, lo, at, Survivors(items, gone, lo + 1, hi));
      }
    }
  }

  /** And no other item is lost. */
  lemma {:induction false} SurvivorsComplete(items: seq<Item>, gone: seq<nat>, lo: nat, hi: nat, i: nat)
    requires lo <= i < hi <= |items| && i !in gone
    ensures items[i] in Survivors(items, gone, lo, hi)
    decreases hi - lo
  {
    if lo < i {
      SurvivorsComplete(items, gone, lo + 1, hi, i);
    }
  }

  /** A replacement leaves every item in place that it does not replace. */
  lemma SpliceKeepsOthers(items: seq<Item>, gone: seq<nat>, it: Item, i: nat)
    requires gone != [] && InRange(gone, |items|) && i < |items| && i !in gone
    ensures items[i] in Splice(items, gone, it)
    ensures i < gone[0] ==> Splice(items, gone, it)[i] == items[i]
  {
    if i < gone[0] {
      assert Splice(items, gone, it)[i] == items[i];
    } else {
      SurvivorsComplete(items, gone, gone[0], |items|, i);
    }
  }

  /** Once nothing is held back, the published caller turns are the held ones, each published once. */
  lemma FlushedOnce(b: Book, it: Item)
    requires Ok(b) && b.unpublished == {} && it.role == User
    ensures it in b.items <==> it in b.sent
    ensures it in b.items ==> Times(b.sent, it.id) == 1
    ensures |b.sent| == |b.items|
  {
    if it in b.items {
      var x := SentItem(b.sent, it.id);
      assert x in b.items;
    }
  }

  // ----- what each event does to the book

  datatype Speaker = Caller | Assistant | Other

  /** The id under which a turn is recorded: its own, or one made from the number of items held. */
  function TurnId(id: string, items: seq<Item>): string {
    if id == "" then "msg-" + Decimal(|items|) else id
  }

  lemma TurnIdIsForeign(id: string, items: seq<Item>)
    requires Foreign(id)
    ensures Foreign(TurnId(id, items))
  {
    assert USER_PREFIX[0] == 'u' && AGENT_PREFIX[0] == 'a';
    if id == "" {
      assert TurnId(id, items)[0] == 'm';
    }
  }

  /** An agent item with the same words. */
  predicate Echoes(it: Item, norm: string -> string, text: string) {
    it.role == Agent && norm(it.content) == norm(text)
  }

  predicate SpokenLately(items: seq<Item>, norm: string -> string, text: string) {
    exists j :: 0 <= j < |items| && |items| - 3 <= j && Echoes(items[j], norm, text)
  }

  /** The last of the first `k` items that is transcribed agent speech with these words and among the
      last five items. */
  function SpokenBefore(items: seq<Item>, norm: string -> string, text: string, k: nat): (r: Option<nat>)
    requires k <= |items|
    ensures r.Some? ==>
              && r.value < k && |items| - 5 <= r.value && AGENT_PREFIX <= items[r.value].id
              && Echoes(items[r.value], norm, text)
    ensures forall j :: (if r.Some? then r.value + 1 else 0) <= j < k && |items| - 5 <= j ==>
              !(AGENT_PREFIX <= items[j].id && Echoes(items[j], norm, text))
  {
    if k == 0 || k <= |items| - 5 then None
    else if AGENT_PREFIX <= items[k - 1].id && Echoes(items[k - 1], norm, text) then Some(k - 1)
    else SpokenBefore(items, norm, text, k - 1)
  }

  function Spoken(items: seq<Item>, norm: string -> string, text: string): (r: Option<nat>)
    ensures r.Some? ==> r.value < |items| && items[r.value].role == Agent && AGENT_PREFIX <= items[r.value].id
    ensures r.None? <==> forall j :: 0 <= j < |items| && |items| - 5 <= j ==>
              !(AGENT_PREFIX <= items[j].id && Echoes(items[j], norm, text))
    ensures r.Some? ==> |items| - 5 <= r.value && Echoes(items[r.value], norm, text)
    ensures r.Some? ==> forall j :: r.value < j < |items| ==>
              !(AGENT_PREFIX <= items[j].id && Echoes(items[j], norm, text))
  {
    SpokenBefore(items, norm, text, |items|)
  }

  /** A segment of the caller's speech is held back. */
  function HeardAt(b: Book, text: string, time: int): Book {
    var it := Item(UserId(b.next), User, text, time);
    b.(items := b.items + [it], unpublished := b.unpublished + {it.id}, next := b.next + 1)
  }

  /** Agent speech is published. */
  function SpokeAt(b: Book, text: string, time: int): Book {
    var it := Item(AgentId(b.next), Agent, text, time);
    b.(items := b.items + [it], next := b.next + 1, sent := b.sent + [it])
  }

  /** A committed turn of the caller takes the place of the segments it stands for, if there are any. */
  function CallerTurn(b: Book, norm: string -> string, it: Item): Book {
    var chosen := Chosen(b.items, b.unpublished, norm, it.content);
    Book(if chosen == [] then b.items + [it] else Splice(b.items, chosen, it),
         b.unpublished - IdsFrom(b.items, chosen, 0), b.seen + {it.id}, b.next, b.sent + [it])
  }

  /** A committed turn of the agent gives its id and time to the speech already transcribed, if there is
      any, and is published otherwise. */
  function AgentTurn(b: Book, norm: string -> string, it: Item): Book {
    match Spoken(b.items, norm, it.content)
    case Some(k) =>
      b.(items := b.items[k := b.items[k].(id := it.id, time := it.time)], seen := b.seen - {b.items[k].id} + {it.id})
    case None => b.(items := b.items + [it], seen := b.seen + {it.id}, sent := b.sent + [it])
  }

  /** A committed turn. One whose id has been seen is ignored. */
  function TurnAt(b: Book, norm: string -> string, speaker: Speaker, text: string, id: string, time: int): Book {
    var messageId := TurnId(id, b.items);
    if speaker == Other || text == "" || messageId in b.seen then b
    else if speaker == Caller then CallerTurn(b, norm, Item(messageId, User, text, time))
    else AgentTurn(b, norm, Item(messageId, Agent, text, time))
  }

  lemma HeardKeepsOk(b: Book, text: string, time: int)
    requires Ok(b)
    ensures Ok(HeardAt(b, text, time))
  {
    HoldSegment(b, Item(UserId(b.next), User, text, time), HeardAt(b, text, time));
  }

  lemma SpokeKeepsOk(b: Book, text: string, time: int)
    requires Ok(b)
    ensures Ok(SpokeAt(b, text, time))
  {
    var it := Item(AgentId(b.next), Agent, text, time);
    MadeUpIsNotForeign(b.next);
    assert b.items + [it] == Inserted(b.items, |b.items|, it);
    PublishItem(b, |b.items|, it, SpokeAt(b, text, time));
  }

  lemma InsertKeepsOk(b: Book, at: nat, it: Item)
    requires Ok(b) && at <= |b.items| && Foreign(it.id) && it.id !in b.seen
    ensures Ok(b.(items := Inserted(b.items, at, it), seen := b.seen + {it.id}, sent := b.sent + [it]))
  {
    PublishItem(b, at, it, b.(items := Inserted(b.items, at, it), seen := b.seen + {it.id}, sent := b.sent + [it]));
  }

  lemma CallerTurnKeepsOk(b: Book, norm: string -> string, it: Item)
    requires Ok(b) && it.role == User && Foreign(it.id) && it.id !in b.seen
    ensures Ok(CallerTurn(b, norm, it))
  {
    var chosen := Chosen(b.items, b.unpublished, norm, it.content);
    if chosen == [] {
      InsertKeepsOk(b, |b.items|, it);
      assert b.items + [it] == Inserted(b.items, |b.items|, it);
      assert b.unpublished - IdsFrom(b.items, chosen, 0) == b.unpublished;
    } else {
      ChosenAreSegments(b.items, b.unpublished, norm, it.content);
      ReplaceKeepsOk(b, chosen, it);
    }
  }

  lemma ReplaceKeepsOk(b: Book, gone: seq<nat>, it: Item)
    requires Ok(b) && gone != [] && Increasing(gone) && AllHeld(b, gone)
    requires it.role == User && Foreign(it.id) && it.id !in b.seen
    ensures Ok(Book(Splice(b.items, gone, it), b.unpublished - IdsFrom(b.items, gone, 0), b.seen + {it.id}, b.next,
                    b.sent + [it]))
  {
    DroppedIsOk(b, gone);
    InsertKeepsOk(Dropped(b, gone), gone[0], it);
    SpliceIs(b, gone, it);
  }

  lemma SpliceIs(b: Book, gone: seq<nat>, it: Item)
    requires gone != [] && InRange(gone, |b.items|)
    ensures Inserted(Dropped(b, gone).items, gone[0], it) == Splice(b.items, gone, it)
  {
    var rest := Survivors(b.items, gone, gone[0], |b.items|);
    assert (b.items[..gone[0]] + rest)[..gone[0]] == b.items[..gone[0]];
    assert (b.items[..gone[0]] + rest)[gone[0]..] == rest;
  }

  /** A committed turn keeps the book in order when its id is none that the collector makes up. */
  lemma TurnKeepsOk(b: Book, norm: string -> string, speaker: Speaker, text: string, id: string, time: int)
    requires Ok(b) && Foreign(id)
    ensures Ok(TurnAt(b, norm, speaker, text, id, time))
  {
    TurnIdIsForeign(id, b.items);
    var messageId := TurnId(id, b.items);
    if !(speaker == Other || text == "" || messageId in b.seen) {
      if speaker == Caller {
        CallerTurnKeepsOk(b, norm, Item(messageId, User, text, time));
      } else {
        AgentTurnKeepsOk(b, norm, Item(messageId, Agent, text, time));
      }
    }
  }

  lemma AgentTurnKeepsOk(b: Book, norm: string -> string, it: Item)
    requires Ok(b) && it.role == Agent && Foreign(it.id) && it.id !in b.seen
    ensures Ok(AgentTurn(b, norm, it))
  {
    match Spoken(b.items, norm, it.content)
    case Some(k) =>
      RenameAgent(b, k, it.id, it.time, AgentTurn(b, norm, it));
    case None =>
      InsertKeepsOk(b, |b.items|, it);
      assert b.items + [it] == Inserted(b.items, |b.items|, it);
  }

  // ----- whole calls

  datatype CallEvent =
    | Segment(isFinal: bool, heard: string, echo: bool, at: int)
    | Speech(spoken: string, at: int)
    | Turn(speaker: Speaker, text: string, id: string, at: int)
    | FlushNow

  const NEW_BOOK := Book([], {}, {}, 0, [])

  function After(b: Book, norm: string -> string, e: CallEvent): Book {
    match e
    case Segment(isFinal, heard, echo, at) => if !isFinal || heard == "" || echo then b else HeardAt(b, heard, at)
    case Speech(spoken, at) => if spoken == "" || SpokenLately(b.items, norm, spoken) then b else SpokeAt(b, spoken, at)
    case Turn(speaker, text, id, at) => TurnAt(b, norm, speaker, text, id, at)
    case FlushNow => FlushFrom(b, 0)
  }

  function Call(norm: string -> string, events: seq<CallEvent>): Book {
    if events == [] then NEW_BOOK else After(Call(norm, events[..|events| - 1]), norm, events[|events| - 1])
  }

  /** No turn of the call has an id that the collector makes up. */
  ghost predicate AllForeign(events: seq<CallEvent>) {
    forall k :: 0 <= k < |events| && events[k].Turn? ==> Foreign(events[k].id)
  }

  lemma EventKeepsOk(b: Book, norm: string -> string, e: CallEvent)
    requires Ok(b) && (e.Turn? ==> Foreign(e.id))
    ensures Ok(After(b, norm, e))
  {
    match e
    case Segment(_, heard, _, at) => HeardKeepsOk(b, heard, at);
    case Speech(spoken, at) => SpokeKeepsOk(b, spoken, at);
    case Turn(speaker, text, id, at) => TurnKeepsOk(b, norm, speaker, text, id, at);
    case FlushNow => FlushEnds(b);
  }

  lemma {:induction false} CallKeepsOk(norm: string -> string, events: seq<CallEvent>)
    requires AllForeign(events)
    ensures Ok(Call(norm, events))
  {
    if events != [] {
      CallKeepsOk(norm, events[..|events| - 1]);
      EventKeepsOk(Call(norm, events[..|events| - 1]), norm, events[|events| - 1]);
    }
  }

  /** The caller turns that are held are the published ones, each was published once, and there was one
      notification for each item. */
  ghost predicate Conserved(b: Book) {
    && |b.sent| == |b.items|
    && (forall it: Item :: it.role == User ==> (it in b.items <==> it in b.sent))
    && (forall it: Item :: it in b.items && it.role == User ==> Times(b.sent, it.id) == 1)
  }

  /** Once what is held back has been published, the caller turns that are held are the published ones, each
      published once. */
  lemma CallEnds(norm: string -> string, events: seq<CallEvent>)
    requires AllForeign(events)
    ensures var b := FlushFrom(Call(norm, events), 0);
            Ok(b) && Conserved(b)
  {
    CallKeepsOk(norm, events);
    FlushEnds(Call(norm, events));
    var b := FlushFrom(Call(norm, events), 0);
    forall it: Item | it.role == User
      ensures it in b.items <==> it in b.sent
      ensures it in b.items ==> Times(b.sent, it.id) == 1
    {
      FlushedOnce(b, it);
    }
  }

  lemma OneMoreEvent(norm: string -> string, events: seq<CallEvent>, e: CallEvent)
    ensures Call(norm, events + [e]) == After(Call(norm, events), norm, e)
  {
    assert (events + [e])[..|events|] == events;
  }

  /** Two held segments before an agent item are replaced by a turn that spells them. */
  lemma TwoReplaced(norm: string -> string, s1: Item, s2: Item, a: Item, t: Item, b: Book)
    requires s1.role == s2.role == User && a.role == Agent && a.id !in b.unpublished
    requires b.items == [s1, s2, a] && b.unpublished == {s1.id, s2.id}
    requires t.content == s1.content + " " + s2.content
    ensures CallerTurn(b, norm, t) == Book([t, a], {}, b.seen + {t.id}, b.next, b.sent + [t])
  {
    var (items, ids) := (b.items, b.unpublished);
    assert items[..2] == [s1, s2] && [s1, s2][..1] == [s1] && [s1][..0] == [];
    assert Tail([s1], ids) == [0];
    assert Tail([s1, s2], ids) == [0, 1];
    assert Tail(items, ids) == Tail(items[..2], ids);
    assert [0, 1][1..] == [1];
    assert Join(items, [1]) == s2.content;
    assert Join(items, [0, 1]) == t.content;
    TwoSurvive(items, t);
    assert IdsFrom(items, [0, 1], 0) == {s1.id, s2.id} by {
      assert [0, 1][0] == 0 && [0, 1][1] == 1;
    }
  }

  lemma TwoSurvive(items: seq<Item>, t: Item)
    requires |items| == 3
    ensures Splice(items, [0, 1], t) == [t, items[2]]
  {
    assert Survivors(items, [0, 1], 3, 3) == [];
    assert Survivors(items, [0, 1], 2, 3) == [items[2]];
    assert Survivors(items, [0, 1], 1, 3) == [items[2]];
    assert Survivors(items, [0, 1], 0, 3) == [items[2]];
  }

  const BOTH := "yes" + " " + "please"

  const OPENING: seq<CallEvent> := [
    Segment(true, "yes", false, 0), Segment(true, "please", false, 1), Turn(Assistant, "one moment", "", 2),
    Turn(Caller, BOTH, "t", 3)]

  lemma FourEvents(norm: string -> string, e0: CallEvent, e1: CallEvent, e2: CallEvent, e3: CallEvent)
    ensures Call(norm, [e0, e1, e2, e3])
            == After(After(After(After(NEW_BOOK, norm, e0), norm, e1), norm, e2), norm, e3)
  {
    var none: seq<CallEvent> := [];
    assert none + [e0] == [e0] && [e0] + [e1] == [e0, e1];
    assert [e0, e1] + [e2] == [e0, e1, e2] && [e0, e1, e2] + [e3] == [e0, e1, e2, e3];
    OneMoreEvent(norm, none, e0);
    OneMoreEvent(norm, [e0], e1);
    OneMoreEvent(norm, [e0, e1], e2);
    OneMoreEvent(norm, [e0, e1, e2], e3);
  }

  /** Without agent items a turn of the agent is new. */
  lemma AgentIsNew(b: Book, norm: string -> string, it: Item)
    requires forall k :: 0 <= k < |b.items| ==> b.items[k].role == User
    ensures AgentTurn(b, norm, it) == b.(items := b.items + [it], seen := b.seen + {it.id}, sent := b.sent + [it])
  {
  }

  lemma TwoHeard(s1: string, s2: string, i: int, j: int) returns (b: Book)
    ensures b == HeardAt(HeardAt(NEW_BOOK, s1, i), s2, j)
    ensures b.items == [Item(UserId(0), User, s1, i), Item(UserId(1), User, s2, j)]
    ensures b.unpublished == {UserId(0), UserId(1)} && b.seen == {} && b.next == 2 && b.sent == []
  {
    b := HeardAt(HeardAt(NEW_BOOK, s1, i), s2, j);
  }

  /** An agent turn without an id is recorded under the number of items before it. */
  lemma NamedByNumber(b: Book, norm: string -> string, text: string, time: int) returns (it: Item)
    requires (forall k :: 0 <= k < |b.items| ==> b.items[k].role == User) && b.seen == {} && text != ""
    requires forall id :: id in b.unpublished ==> id != "" && id[0] == 'u'
    ensures it == Item("msg-" + Decimal(|b.items|), Agent, text, time) && it.id !in b.unpublished
    ensures TurnAt(b, norm, Assistant, text, "", time)
            == Book(b.items + [it], b.unpublished, {it.id}, b.next, b.sent + [it])
  {
    it := Item("msg-" + Decimal(|b.items|), Agent, text, time);
    assert it.id[0] == 'm';
    AgentIsNew(b, norm, it);
  }

  lemma TurnIsNew(b: Book, norm: string -> string, text: string, id: string, time: int)
    requires text != "" && id != "" && id !in b.seen
    ensures TurnAt(b, norm, Caller, text, id, time) == CallerTurn(b, norm, Item(id, User, text, time))
  {
  }

  lemma AgentThenCaller(b: Book, norm: string -> string, said: string, text: string, i: int, j: int) returns (a: Item)
    requires |b.items| == 2 && b.items[0].role == b.items[1].role == User && b.seen == {} && b.sent == []
    requires b.unpublished == {b.items[0].id, b.items[1].id} && said != "" && text != ""
    requires forall id :: id in b.unpublished ==> id != "" && id[0] == 'u'
    requires text == b.items[0].content + " " + b.items[1].content
    ensures a == Item("msg-" + Decimal(2), Agent, said, i)
    ensures var t := Item("t", User, text, j);
            TurnAt(TurnAt(b, norm, Assistant, said, "", i), norm, Caller, text, "t", j)
            == Book([t, a], {}, {a.id} + {t.id}, b.next, [a, t])
  {
    a := NamedByNumber(b, norm, said, i);
    var c := Book(b.items + [a], b.unpublished, {a.id}, b.next, [a]);
    assert a.id[0] == 'm';
    TurnIsNew(c, norm, text, "t", j);
    TwoReplaced(norm, b.items[0], b.items[1], a, Item("t", User, text, j), c);
  }

  lemma AfterOpening(norm: string -> string)
    ensures var a, t := Item("msg-" + Decimal(2), Agent, "one moment", 2), Item("t", User, BOTH, 3);
            Call(norm, OPENING) == Book([t, a], {}, {a.id} + {t.id}, 2, [a, t])
  {
    FourEvents(norm, OPENING[0], OPENING[1], OPENING[2], OPENING[3]);
    var b := TwoHeard("yes", "please", 0, 1);
    assert UserId(0)[0] == 'u' && UserId(1)[0] == 'u';
    var a := AgentThenCaller(b, norm, "one moment", BOTH, 2, 3);
  }

  /** A turn without an id that is lost: two segments are held, an agent turn without an id becomes "msg-2",
      a committed turn takes the place of both segments, and then two items are held again, so that the next
      turn without an id gets the same name and is ignored as a repeat. */
  lemma TurnIgnored(norm: string -> string, text: string, time: int)
    requires text !in [BOTH, "one moment"]
    ensures Call(norm, OPENING + [Turn(Assistant, text, "", time)]) == Call(norm, OPENING)
    ensures forall it :: it in Call(norm, OPENING).items ==> it.content != text
  {
    AfterOpening(norm);
    OneMoreEvent(norm, OPENING, Turn(Assistant, text, "", time));
  }

  // ----- the exact condition on ids

  /** The turns of a call have an id from `ids`, or none. */
  ghost predicate IdsFromSet(events: seq<CallEvent>, ids: iset<string>) {
    forall k :: 0 <= k < |events| && events[k].Turn? ==> events[k].id == "" || events[k].id in ids
  }

  /** Every such call, once what is held back has been published, has conserved its turns. */
  ghost predicate ConservesTurns(norm: string -> string, ids: iset<string>) {
    forall events :: IdsFromSet(events, ids) ==> Conserved(FlushFrom(Call(norm, events), 0))
  }

  lemma CallOne(norm: string -> string, events: seq<CallEvent>, e: CallEvent, b: Book)
    requires b == Call(norm, events)
    ensures Call(norm, events + [e]) == After(b, norm, e)
  {
    OneMoreEvent(norm, events, e);
  }

  function Filler(n: nat): seq<CallEvent> {
    seq(n, _ => Segment(true, "a", false, 0))
  }

  /** `n` numbers are used up, by the caller's speech only. */
  predicate UsedUp(b: Book, n: nat) {
    b.next == n && b.seen == {} && forall k :: 0 <= k < |b.items| ==> b.items[k].role == User
  }

  lemma OneMoreUsed(b: Book, n: nat)
    requires UsedUp(b, n)
    ensures UsedUp(HeardAt(b, "a", 0), n + 1)
  {
  }

  lemma {:induction false} FillerUses(norm: string -> string, n: nat)
    ensures UsedUp(Call(norm, Filler(n)), n)
  {
    if n > 0 {
      FillerUses(norm, n - 1);
      assert Filler(n) == Filler(n - 1) + [Segment(true, "a", false, 0)];
      CallOne(norm, Filler(n - 1), Segment(true, "a", false, 0), Call(norm, Filler(n - 1)));
      OneMoreUsed(Call(norm, Filler(n - 1)), n - 1);
    }
  }

  predicate NoTurns(events: seq<CallEvent>) {
    forall k :: 0 <= k < |events| ==> !events[k].Turn?
  }

  lemma FillerHasNoTurns(n: nat)
    ensures NoTurns(Filler(n)) && NoTurns(Filler(n) + [FlushNow])
  {
    var events := Filler(n) + [FlushNow];
    forall k | 0 <= k < |events| ensures !events[k].Turn? {
      assert k < n ==> events[k] == Filler(n)[k];
    }
  }

  /** A call that has used up `n` numbers and holds nothing back. */
  lemma NumbersUsed(norm: string -> string, n: nat) returns (events: seq<CallEvent>, b: Book)
    ensures NoTurns(events) && b == Call(norm, events)
    ensures Ok(b) && UsedUp(b, n) && b.unpublished == {}
  {
    FillerUses(norm, n);
    FillerHasNoTurns(n);
    var c := Call(norm, Filler(n));
    CallOne(norm, Filler(n), FlushNow, c);
    CallKeepsOk(norm, Filler(n));
    FlushEnds(c);
    events, b := Filler(n) + [FlushNow], FlushFrom(c, 0);
  }

  lemma {:induction false} NoTail(items: seq<Item>)
    ensures Tail(items, {}) == []
  {
    if items != [] {
      NoTail(items[..|items| - 1]);
    }
  }

  /** With nothing held back a committed turn of the caller is appended. */
  lemma NothingToReplace(b: Book, norm: string -> string, it: Item)
    requires b.unpublished == {}
    ensures CallerTurn(b, norm, it)
            == Book(b.items + [it], {}, b.seen + {it.id}, b.next, b.sent + [it])
  {
    NoTail(b.items);
  }

  /** A flush passes over items that are not held back. */
  lemma {:induction false} FlushPasses(b: Book, k: nat, n: nat)
    requires k <= n <= |b.items| && forall j :: k <= j < n ==> b.items[j].id !in b.unpublished
    ensures FlushFrom(b, k) == FlushFrom(b, n)
    decreases n - k
  {
    if k < n {
      FlushPasses(b, k + 1, n);
    }
  }

  lemma FlushNothing(b: Book)
    requires b.unpublished == {}
    ensures FlushFrom(b, 0) == b
  {
    FlushPasses(b, 0, |b.items|);
  }

  /** A turn under the id that the next segment gets is published again by the flush. */
  lemma FlushRepeats(items: seq<Item>, sent: seq<Item>, turn: Item, segment: Item, c: Book)
    requires turn.id == segment.id && turn.role == User && forall x :: x in items ==> x.id != turn.id
    requires c.items == items + [turn, segment] && c.unpublished == {turn.id} && c.sent == sent + [turn]
    ensures FlushFrom(c, 0) == c.(unpublished := {}, sent := sent + [turn, turn])
  {
    var n := |items|;
    assert forall j :: 0 <= j < n ==> c.items[j] == items[j] && items[j] in items;
    FlushPasses(c, 0, n);
    var d := c.(unpublished := {}, sent := sent + [turn, turn]);
    assert sent + [turn] + [turn] == sent + [turn, turn];
    assert PublishAt(c, n) == d;
    FlushPasses(d, n + 1, |d.items|);
  }

  lemma TwiceSent(sent: seq<Item>, a: Item, b: Item)
    requires a.role == b.role == User && a.id == b.id
    ensures Times(sent + [a] + [b], a.id) == Times(sent, a.id) + 2
  {
    SentOneMore(sent, a, a.id);
    SentOneMore(sent + [a], b, a.id);
  }

  lemma CallTwo(norm: string -> string, events: seq<CallEvent>, e: CallEvent, f: CallEvent, b: Book)
    requires b == Call(norm, events)
    ensures Call(norm, events + [e, f]) == After(After(b, norm, e), norm, f)
  {
    CallOne(norm, events, e, b);
    CallOne(norm, events + [e], f, After(b, norm, e));
    assert events + [e] + [f] == events + [e, f];
  }

  lemma TurnThenSegment(b: Book, norm: string -> string, turn: Item, segment: Item)
    requires b.unpublished == {} && b.seen == {} && turn.role == segment.role == User
    requires turn.id == segment.id == UserId(b.next) && turn.content != "" && segment.content != ""
    ensures After(After(b, norm, Turn(Caller, turn.content, turn.id, turn.time)), norm,
                  Segment(true, segment.content, false, segment.time))
            == Book(b.items + [turn, segment], {turn.id}, {turn.id}, b.next + 1, b.sent + [turn])
  {
    assert turn.id[0] == 'u';
    NothingToReplace(b, norm, turn);
    assert b.items + [turn] + [segment] == b.items + [turn, segment];
  }

  /** A call whose one turn has the id of the next segment: the flush publishes the turn again. */
  lemma UserIdFails(norm: string -> string, n: nat) returns (events: seq<CallEvent>)
    ensures forall k :: 0 <= k < |events| && events[k].Turn? ==> events[k].id == UserId(n)
    ensures !Conserved(FlushFrom(Call(norm, events), 0))
  {
    var filler, b := NumbersUsed(norm, n);
    var turn, segment := Item(UserId(n), User, "a", 0), Item(UserId(n), User, "b", 0);
    var e, f := Turn(Caller, "a", UserId(n), 0), Segment(true, "b", false, 0);
    events := filler + [e, f];
    CallTwo(norm, filler, e, f, b);
    TurnThenSegment(b, norm, turn, segment);
    NextIsNew(b);
    var c := Call(norm, events);
    FlushRepeats(b.items, b.sent, turn, segment, c);
    assert c.items[|b.items|] == turn;
    SentTwice(FlushFrom(c, 0), b.sent, turn);
  }

  /** A turn that was published twice is not conserved. */
  lemma SentTwice(b: Book, sent: seq<Item>, turn: Item)
    requires turn in b.items && turn.role == User && b.sent == sent + [turn, turn]
    ensures !Conserved(b)
  {
    TwiceSent(sent, turn, turn);
    assert sent + [turn] + [turn] == sent + [turn, turn];
  }

  /** Transcribed speech that is one but last is adopted by a turn that repeats it. */
  lemma AdoptsLastButOne(items: seq<Item>, norm: string -> string, sp: Item, t: Item)
    requires sp.role == Agent && t.role == User && AGENT_PREFIX <= sp.id
    ensures Spoken(items + [sp, t], norm, sp.content) == Some(|items|)
  {
    var all := items + [sp, t];
    assert all[|items|] == sp && all[|items| + 1] == t;
    assert SpokenBefore(all, norm, sp.content, |all|) == SpokenBefore(all, norm, sp.content, |items| + 1);
  }

  /** Speech, and a caller turn under the id that the speech was given. */
  lemma SpeechThenTurn(b: Book, norm: string -> string, sp: Item, t: Item)
    requires b.unpublished == {} && b.seen == {} && forall k :: 0 <= k < |b.items| ==> b.items[k].role == User
    requires sp.role == Agent && t.role == User && sp.id == t.id == AgentId(b.next)
    requires sp.content != "" && t.content != ""
    ensures After(After(b, norm, Speech(sp.content, sp.time)), norm, Turn(Caller, t.content, t.id, t.time))
            == Book(b.items + [sp, t], {}, {t.id}, b.next + 1, b.sent + [sp, t])
  {
    assert t.id[0] == 'a';
    var c := SpokeAt(b, sp.content, sp.time);
    NothingToReplace(c, norm, t);
    assert b.items + [sp] + [t] == b.items + [sp, t] && b.sent + [sp] + [t] == b.sent + [sp, t];
  }

  /** A turn of the agent adopts the speech, and the id of the caller turn is forgotten. */
  lemma AdoptThenAgain(b: Book, norm: string -> string, items: seq<Item>, sp: Item, t: Item) returns (c: Book)
    requires b.unpublished == {} && b.items == items + [sp, t] && b.seen == {t.id}
    requires sp.role == Agent && t.role == User && sp.id == t.id && AGENT_PREFIX <= t.id
    requires sp.content != "" && t.content != ""
    ensures c == After(After(b, norm, Turn(Assistant, sp.content, "", 0)), norm, Turn(Caller, t.content, t.id, t.time))
    ensures t in c.items && c.unpublished == {} && c.sent == b.sent + [t]
  {
    AdoptsLastButOne(items, norm, sp, t);
    var id := TurnId("", b.items);
    assert id[0] == 'm' && t.id[0] == AGENT_PREFIX[0] == 'a';
    var d := AgentTurn(b, norm, Item(id, Agent, sp.content, 0));
    assert d.seen == {id} && d.unpublished == {} && d.sent == b.sent;
    NothingToReplace(d, norm, t);
    c := CallerTurn(d, norm, t);
  }

  /** The call up to the caller turn. */
  lemma SpeechCall(norm: string -> string, n: nat, sp: Item, t: Item) returns (events: seq<CallEvent>, b: Book)
    requires sp == Item(AgentId(n), Agent, "a", 0) && t == Item(AgentId(n), User, "b", 0)
    ensures forall k :: 0 <= k < |events| && events[k].Turn? ==> events[k].id == AgentId(n)
    ensures b.unpublished == {} && Call(norm, events) == Book(b.items + [sp, t], {}, {t.id}, n + 1, b.sent + [sp, t])
  {
    var filler;
    filler, b := NumbersUsed(norm, n);
    var e, f := Speech("a", 0), Turn(Caller, "b", AgentId(n), 0);
    events := filler + [e, f];
    CallTwo(norm, filler, e, f, b);
    SpeechThenTurn(b, norm, sp, t);
  }

  /** A call whose turns have the id of the agent's next speech, or none: one is published twice. */
  lemma AgentIdFails(norm: string -> string, n: nat) returns (events: seq<CallEvent>)
    ensures forall k :: 0 <= k < |events| && events[k].Turn? ==> events[k].id in {"", AgentId(n)}
    ensures !Conserved(FlushFrom(Call(norm, events), 0))
  {
    var sp, t := Item(AgentId(n), Agent, "a", 0), Item(AgentId(n), User, "b", 0);
    var front, b := SpeechCall(norm, n, sp, t);
    var c := Call(norm, front);
    var g, h := Turn(Assistant, "a", "", 0), Turn(Caller, "b", AgentId(n), 0);
    events := front + [g, h];
    CallTwo(norm, front, g, h, c);
    var d := AdoptThenAgain(c, norm, b.items, sp, t);
    FlushNothing(d);
    assert b.sent + [sp, t] + [t] == b.sent + [sp] + [t, t];
    SentTwice(d, b.sent + [sp], t);
  }

  /** The exact condition: calls whose turns have ids from a set, or none, conserve their turns if and only
      if the set has no id that the collector makes up. */
  lemma ConservesIff(norm: string -> string, ids: iset<string>)
    ensures ConservesTurns(norm, ids) <==> forall id :: id in ids ==> Foreign(id)
  {
    if forall id :: id in ids ==> Foreign(id) {
      forall events | IdsFromSet(events, ids)
        ensures Conserved(FlushFrom(Call(norm, events), 0))
      {
        EmptyIsForeign();
        CallEnds(norm, events);
      }
    } else {
      var id :| id in ids && !Foreign(id);
      var n: nat :| id == UserId(n) || id == AgentId(n);
      if id == UserId(n) {
        var events := UserIdFails(norm, n);
        assert IdsFromSet(events, ids);
      } else {
        var events := AgentIdFails(norm, n);
        assert IdsFromSet(events, ids);
      }
    }
  }

  lemma EmptyIsForeign()
    ensures Foreign("")
  {
    forall n: nat ensures "" != UserId(n) && "" != AgentId(n) {
      assert |UserId(n)| > 0 && |AgentId(n)| > 0;
    }
  }

  lemma {:induction false} SentItem(sent: seq<Item>, id: string) returns (x: Item)
    requires Times(sent, id) > 0
    ensures x in sent && x.role == User && x.id == id
    decreases |sent|
  {
    var last := sent[|sent| - 1];
    if last.role == User && last.id == id {
      x := last;
    } else {
      x := SentItem(sent[..|sent| - 1], id);
    }
  }

  // ----- plain calls

  /** Speech of the caller, recognised to its end. */
  predicate IsSpeech(e: CallEvent) {
    e.Segment? && e.isFinal && e.heard != "" && !e.echo
  }

  function Heard(events: seq<CallEvent>): (items: seq<Item>)
    requires forall k :: 0 <= k < |events| ==> IsSpeech(events[k])
    ensures |items| == |events|
  {
    seq(|events|, k requires 0 <= k < |events| && IsSpeech(events[k]) =>
      Item(UserId(k), User, events[k].heard, events[k].at))
  }

  lemma {:induction false} SpeechIsHeld(norm: string -> string, events: seq<CallEvent>)
    requires forall k :: 0 <= k < |events| ==> IsSpeech(events[k])
    ensures var b := Call(norm, events);
            && b.items == Heard(events) && b.sent == [] && b.next == |events|
            && forall it :: it in b.items ==> it.id in b.unpublished
  {
    if events != [] {
      var n := |events| - 1;
      SpeechIsHeld(norm, events[..n]);
      assert Heard(events) == Heard(events[..n]) + [Item(UserId(n), User, events[n].heard, events[n].at)];
    }
  }

  lemma {:induction false} AllSegments(items: seq<Item>, ids: set<string>)
    requires forall it :: it in items ==> it.id in ids
    ensures Segments(items, ids) == items
  {
    if items != [] {
      AllSegments(items[..|items| - 1], ids);
    }
  }

  /** When only the caller speaks, and nothing is committed, all that was said is published in the end, word
      for word and in its order. */
  lemma SpeechIsPublished(norm: string -> string, events: seq<CallEvent>)
    requires forall k :: 0 <= k < |events| ==> IsSpeech(events[k])
    ensures FlushFrom(Call(norm, events), 0).sent == Heard(events)
  {
    SpeechIsHeld(norm, events);
    CallKeepsOk(norm, events);
    FlushEnds(Call(norm, events));
    AllSegments(Call(norm, events).items, Call(norm, events).unpublished);
  }

  /** Committed turns with an id each, none of which looks like one of the agent's speech. */
  ghost predicate AreTurns(events: seq<CallEvent>) {
    && (forall k :: 0 <= k < |events| ==> IsTurn(events[k]))
    && (forall j, k :: 0 <= j < k < |events| ==> events[j].id != events[k].id)
  }

  ghost predicate IsTurn(e: CallEvent) {
    e.Turn? && e.speaker != Other && e.text != "" && e.id != "" && Foreign(e.id) && !(AGENT_PREFIX <= e.id)
  }

  function ItemOf(e: CallEvent): Item
    requires e.Turn?
  {
    Item(e.id, if e.speaker == Caller then User else Agent, e.text, e.at)
  }

  function Said(events: seq<CallEvent>): (items: seq<Item>)
    requires forall k :: 0 <= k < |events| ==> events[k].Turn?
    ensures |items| == |events| && forall k :: 0 <= k < |items| ==> items[k] == ItemOf(events[k])
  {
    seq(|events|, k requires 0 <= k < |events| && events[k].Turn? => ItemOf(events[k]))
  }

  lemma TurnIsPublished(b: Book, norm: string -> string, e: CallEvent)
    requires IsTurn(e) && b.unpublished == {} && e.id !in b.seen
    requires forall k :: 0 <= k < |b.items| ==> !(AGENT_PREFIX <= b.items[k].id)
    ensures After(b, norm, e) == Book(b.items + [ItemOf(e)], {}, b.seen + {e.id}, b.next, b.sent + [ItemOf(e)])
  {
    if e.speaker == Caller {
      NothingToReplace(b, norm, ItemOf(e));
    } else {
      assert Spoken(b.items, norm, e.text) == None;
    }
  }

  ghost predicate SeenOnly(seen: set<string>, events: seq<CallEvent>)
    requires forall k :: 0 <= k < |events| ==> events[k].Turn?
  {
    forall id :: id in seen ==> exists k :: 0 <= k < |events| && events[k].id == id
  }

  lemma NotSeenYet(seen: set<string>, events: seq<CallEvent>, n: nat)
    requires AreTurns(events) && n == |events| - 1 && SeenOnly(seen, events[..n])
    ensures events[n].id !in seen && SeenOnly(seen + {events[n].id}, events)
  {
    forall id | id in seen ensures exists k :: 0 <= k < n && events[k].id == id {
      var k :| 0 <= k < |events[..n]| && events[..n][k].id == id;
      assert events[k].id == id;
    }
  }

  /** When all that comes is committed turns, each is published at once, word for word and in its order. */
  lemma {:induction false} TurnsArePublished(norm: string -> string, events: seq<CallEvent>)
    requires AreTurns(events)
    ensures var b := Call(norm, events);
            b.items == b.sent == Said(events) && b.unpublished == {} && SeenOnly(b.seen, events)
  {
    if events != [] {
      var n := |events| - 1;
      TurnsArePublished(norm, events[..n]);
      NotSeenYet(Call(norm, events[..n]).seen, events, n);
      TurnIsPublished(Call(norm, events[..n]), norm, events[n]);
      assert Said(events) == Said(events[..n]) + [ItemOf(events[n])];
    }
  }
}
