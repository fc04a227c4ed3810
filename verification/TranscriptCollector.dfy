/** The transcript collector: it holds the turns of a call, publishes committed turns as they come, and
    keeps the caller's speech segments back until a committed turn replaces them or the call ends. */
module TranscriptCollector {
  import opened Basics
  import opened Turns

  class Collector {
    /** `_normalize_text` */
    const norm: string -> string

    var items: seq<Item>
    var seen: set<string>
    var unpublished: set<string>
    var nextSynthetic: nat
    /** The calls of `on_item`, in order. */
    var sent: seq<Item>

    ghost function State(): Book
      reads this
    {
      Book(items, unpublished, seen, nextSynthetic, sent)
    }

    ghost predicate Valid()
      reads this
    {
      Ok(State())
    }

    constructor (norm: string -> string)
      ensures Valid() && State() == NEW_BOOK && this.norm == norm
    {
      this.norm := norm;
      items := [];
      seen := {};
      unpublished := {};
      nextSynthetic := 0;
      sent := [];
    }

    /** A final segment of the caller's speech. `echo` is the verdict of `_looks_like_agent_echo`. */
    method OnUserInputTranscribed(isFinal: bool, text: string, echo: bool, time: int)
      modifies this
      ensures !isFinal || text == "" || echo ==> State() == old(State())
      ensures isFinal && text != "" && !echo ==> State() == HeardAt(old(State()), text, time)
      ensures old(Valid()) ==> Valid()
    {
      if !isFinal || text == "" || echo {
        return;
      }
      ghost var before := State();
      var id := UserId(nextSynthetic);
      nextSynthetic := nextSynthetic + 1;
      unpublished := unpublished + {id};
      items := items + [Item(id, User, text, time)];
      if Ok(before) {
        HeardKeepsOk(before, text, time);
      }
    }

    /** Agent speech as it was spoken, unless it repeats one of the last three items. */
    method OnAgentTranscriptionFinal(text: string, time: int)
      modifies this
      ensures State() == if text == "" || SpokenLately(old(items), norm, text) then old(State())
                         else SpokeAt(old(State()), text, time)
      ensures old(Valid()) ==> Valid()
    {
      if text == "" {
        return;
      }
      var k := if |items| < 3 then 0 else |items| - 3;
      while k < |items|
        invariant 0 <= k <= |items|
        invariant forall j :: |items| - 3 <= j < k && 0 <= j ==> !Echoes(items[j], norm, text)
      {
        if Echoes(items[k], norm, text) {
          return;
        }
        k := k + 1;
      }
      ghost var before := State();
      var it := Item(AgentId(nextSynthetic), Agent, text, time);
      nextSynthetic := nextSynthetic + 1;
      items := items + [it];
      sent := sent + [it];
      if Ok(before) {
        SpokeKeepsOk(before, text, time);
      }
    }

    /** Publish what the caller said and nobody committed. */
    method Flush()
      modifies this
      ensures State() == FlushFrom(old(State()), 0)
      ensures old(Valid()) ==>
                && Valid() && unpublished == {} && items == old(items)
                && sent == old(sent) + Segments(old(items), old(unpublished))
                && seen == old(seen) && nextSynthetic == old(nextSynthetic)
    {
      ghost var start := State();
      if Ok(start) {
        FlushEnds(start);
      }
      var k: nat := 0;
      while k < |items|
        invariant FlushFrom(State(), k) == FlushFrom(start, 0) && |items| == |start.items|
      {
        PublishHeld(k);
        k := k + 1;
      }
    }

    method PublishHeld(k: nat)
      requires k < |items|
      modifies this
      ensures State() == PublishAt(old(State()), k)
    {
      if items[k].id in unpublished {
        unpublished := unpublished - {items[k].id};
        sent := sent + [items[k]];
      }
    }

    method DropHeld(at: nat)
      requires at < |items|
      modifies this
      ensures State() == DropAt(old(State()), at)
    {
      unpublished := unpublished - {items[at].id};
      items := items[..at] + items[at + 1..];
    }

    /** A turn that the session has committed. */
    method OnConversationItemAdded(speaker: Speaker, text: string, id: string, time: int)
      modifies this
      ensures State() == TurnAt(old(State()), norm, speaker, text, id, time)
      ensures old(Valid()) && Foreign(id) ==> Valid()
    {
      if old(Valid()) && Foreign(id) {
        TurnKeepsOk(old(State()), norm, speaker, text, id, time);
      }
      if speaker == Other || text == "" {
        return;
      }
      var messageId := TurnId(id, items);
      if messageId in seen {
        return;
      }
      if speaker == Caller {
        CommitCaller(Item(messageId, User, text, time));
      } else {
        CommitAgent(Item(messageId, Agent, text, time));
      }
    }

    /** The caller's half of `_replace_matching_synthetic_turn`, or else the turn is appended. */
    method CommitCaller(it: Item)
      modifies this
      ensures State() == CallerTurn(old(State()), norm, it)
    {
      var indices := ChooseSegments(it.content);
      if indices == [] {
        assert unpublished - IdsFrom(items, indices, 0) == unpublished;
        assert Inserted(items, |items|, it) == items + [it];
        InsertTurn(|items|, it);
        return;
      }
      ChosenAreSegments(items, unpublished, norm, it.content);
      DropSegments(indices);
      SpliceIs(old(State()), indices, it);
      InsertTurn(indices[0], it);
    }

    method InsertTurn(at: nat, it: Item)
      requires at <= |items|
      modifies this
      ensures State() == old(State()).(items := Inserted(old(items), at, it), seen := old(seen) + {it.id},
                                       sent := old(sent) + [it])
    {
      items := items[..at] + [it] + items[at..];
      seen := seen + {it.id};
      sent := sent + [it];
    }

    /** Which segments the committed turn stands for. */
    method ChooseSegments(text: string) returns (indices: seq<nat>)
      ensures indices == Chosen(items, unpublished, norm, text)
    {
      indices := FindSegments();
      if indices == [] {
        return;
      }
      var combined := Join(items, indices);
      if norm(combined) != norm(text) {
        var from := LastRun(indices);
        indices := indices[from..];
        combined := Join(items, indices);
        if indices[|indices| - 1] != |items| - 1 && norm(combined) != norm(text) {
          return [];
        }
      }
    }

    static method LastRun(indices: seq<nat>) returns (from: nat)
      requires indices != []
      ensures from == RunStart(indices)
    {
      from := |indices| - 1;
      while from > 0 && indices[from - 1] + 1 == indices[from]
        invariant 0 <= from < |indices|
        invariant forall k :: from < k < |indices| ==> indices[k - 1] + 1 == indices[k]
      {
        from := from - 1;
      }
      RunStartIs(indices, from);
    }

    /** Take these items out, the last first. */
    method DropSegments(indices: seq<nat>)
      requires indices != [] && InRange(indices, |items|) && Increasing(indices)
      modifies this
      ensures State() == Dropped(old(State()), indices)
    {
      ghost var start := State();
      DropEnds(start, indices);
      LeftAtEnd(start, indices);
      var k: nat := |indices|;
      while k > 0
        invariant k <= |indices| && State() == Left(start, indices, k)
      {
        DropOne(start, indices, k - 1);
        k := k - 1;
        DropHeld(indices[k]);
      }
    }

    /** The unpublished segments after the last committed caller turn. */
    method FindSegments() returns (indices: seq<nat>)
      ensures indices == Tail(items, unpublished)
    {
      indices := [];
      var k := |items|;
      assert items[..k] == items;
      while k > 0
        invariant 0 <= k <= |items|
        invariant Tail(items, unpublished) == Tail(items[..k], unpublished) + indices
      {
        k := k - 1;
        assert items[..k + 1][..k] == items[..k];
        if items[k].role == User && items[k].id !in unpublished {
          return;
        }
        if items[k].id in unpublished {
          indices := [k] + indices;
        }
      }
    }

    /** The agent's half: speech already transcribed takes the id of the committed turn. */
    method CommitAgent(it: Item)
      modifies this
      ensures State() == AgentTurn(old(State()), norm, it)
    {
      var k := |items|;
      while k > 0 && k > |items| - 5
        invariant 0 <= k <= |items| && |items| - 5 <= k
        invariant State() == old(State())
        invariant Spoken(items, norm, it.content) == SpokenBefore(items, norm, it.content, k)
      {
        k := k - 1;
        if AGENT_PREFIX <= items[k].id && Echoes(items[k], norm, it.content) {
          seen := seen - {items[k].id} + {it.id};
          items := items[k := items[k].(id := it.id, time := it.time)];
          return;
        }
      }
      assert Inserted(items, |items|, it) == items + [it];
      InsertTurn(|items|, it);
    }
  }

  lemma {:induction false} RunStartIs(indices: seq<nat>, from: nat)
    requires from < |indices|
    requires forall k :: from < k < |indices| ==> indices[k - 1] + 1 == indices[k]
    requires from > 0 ==> indices[from - 1] + 1 != indices[from]
    ensures RunStart(indices) == from
  {
    if from < |indices| - 1 {
      RunStartIs(indices[..|indices| - 1], from);
    }
  }

  method Take(c: Collector, e: CallEvent)
    modifies c
    ensures c.State() == After(old(c.State()), c.norm, e)
  {
    match e
    case Segment(isFinal, heard, echo, at) => c.OnUserInputTranscribed(isFinal, heard, echo, at);
    case Speech(spoken, at) => c.OnAgentTranscriptionFinal(spoken, at);
    case Turn(speaker, text, id, at) => c.OnConversationItemAdded(speaker, text, id, at);
    case FlushNow => c.Flush();
  }

  /** Any call, whatever happens in whatever order. When no turn has an id that the collector makes up, then
      at its end the caller turns that are held are the published ones, each was published exactly once, and
      there was one notification for each item. */
  method RunCall(norm: string -> string, events: seq<CallEvent>) returns (c: Collector)
    ensures c.State() == FlushFrom(Call(norm, events), 0)
    ensures AllForeign(events) ==> c.Valid() && Conserved(c.State())
  {
    c := new Collector(norm);
    for k := 0 to |events|
      invariant fresh(c) && c.norm == norm
      invariant c.State() == Call(norm, events[..k])
    {
      assert events[..k + 1] == events[..k] + [events[k]];
      OneMoreEvent(norm, events[..k], events[k]);
      Take(c, events[k]);
    }
    assert events[..|events|] == events;
    c.Flush();
    if AllForeign(events) {
      CallEnds(norm, events);
    }
  }
}
