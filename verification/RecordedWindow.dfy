/** The in-memory record of HTTP cost events: a bounded window with duplicate refusal. */
module RecordedWindow {
  import opened Sequences

  type Id = nat

  const MAX_RECORDED := 10_000

  datatype Event = Event(id: Id, payload: nat)

  datatype Command = Store(event: Event) | Clear

  function Ids(events: seq<Event>): set<Id> { set e | e in events :: e.id }

  predicate Distinct(events: seq<Event>) {
    forall i, j :: 0 <= i < j < |events| ==> events[i].id != events[j].id
  }

  function LastN(events: seq<Event>, n: nat): seq<Event> {
    if |events| <= n then events else events[|events| - n..]
  }

  /** The events accepted since the last clear, by replaying every command from the beginning. */
  function Accepted(commands: seq<Command>): seq<Event> {
    if commands == [] then []
    else
      var before := Accepted(commands[..|commands| - 1]);
      match commands[|commands| - 1]
      case Clear => []
      case Store(e) => if e.id in Ids(LastN(before, MAX_RECORDED)) then before else before + [e]
  }

  /** Ids in the window are distinct, even though an id that left the window may be accepted again. */
  lemma {:induction false} WindowDistinct(commands: seq<Command>)
    ensures Distinct(LastN(Accepted(commands), MAX_RECORDED))
  {
    if commands != [] {
      var before := Accepted(commands[..|commands| - 1]);
      WindowDistinct(commands[..|commands| - 1]);
      match commands[|commands| - 1] {
        case Clear =>
        case Store(e) =>
          if e.id !in Ids(LastN(before, MAX_RECORDED)) { WindowGrows(before, e); }
      }
    }
  }

  lemma WindowGrows(before: seq<Event>, e: Event)
    requires Distinct(LastN(before, MAX_RECORDED)) && e.id !in Ids(LastN(before, MAX_RECORDED))
    ensures Distinct(LastN(before + [e], MAX_RECORDED))
  {
    var old_, new_ := LastN(before, MAX_RECORDED), LastN(before + [e], MAX_RECORDED);
    var shift := |old_| + 1 - |new_|;
    assert forall i :: 0 <= i < |new_| - 1 ==> new_[i] == old_[i + shift];
    forall i | 0 <= i < |new_| - 1 ensures new_[i].id != e.id {
      assert old_[i + shift] in old_;
    }
  }

  lemma LastOfLast(before: seq<Event>, e: Event)
    ensures LastN(LastN(before, MAX_RECORDED) + [e], MAX_RECORDED) == LastN(before + [e], MAX_RECORDED)
  {
  }

  /** The mutable record: a buffer and the set of ids in it. */
  class Recorder {
    var events: seq<Event>
    var ids: set<Id>
    ghost var commands: seq<Command>

    ghost predicate Valid()
      reads this
    {
      && events == LastN(Accepted(commands), MAX_RECORDED)
      && ids == Ids(events)
      && Distinct(events)
    }

    constructor ()
      ensures Valid() && commands == []
    {
      events, ids, commands := [], {}, [];
    }

    /** Refused exactly when the id is still in the window of the last accepted events. */
    method StoreRecordedEvent(e: Event) returns (stored: bool)
      requires Valid()
      modifies this
      ensures Valid() && commands == old(commands) + [Store(e)]
      ensures stored <==> e.id !in Ids(LastN(Accepted(old(commands)), MAX_RECORDED))
      ensures Accepted(commands) == Accepted(old(commands)) + if stored then [e] else []
    {
      ghost var before := Accepted(commands);
      commands := commands + [Store(e)];
      assert commands[..|commands| - 1] == old(commands);
      if e.id in ids {
        assert before + [] == before;
        return false;
      }
      WindowGrows(before, e);
      Append(e);
      LastOfLast(before, e);
      stored := true;
    }

    /** Appends and evicts the oldest entries over the limit. */
    method Append(e: Event)
      requires ids == Ids(events) && Distinct(events) && e.id !in ids
      modifies this`events, this`ids
      ensures events == LastN(old(events) + [e], MAX_RECORDED) && ids == Ids(events)
    {
      forall i | 0 <= i < |events| ensures events[i].id != e.id { assert events[i] in events; }
      assert Ids(events + [e]) == ids + {e.id};
      events := events + [e];
      ids := ids + {e.id};
      if |events| > MAX_RECORDED {
        var excess := |events| - MAX_RECORDED;
        ids := RemoveEvicted(events[..excess]);
        EvictedIds(events, excess);
        events := events[excess..];
      }
    }

    method RemoveEvicted(evicted: seq<Event>) returns (left: set<Id>)
      ensures left == ids - Ids(evicted)
    {
      left := ids;
      for i := 0 to |evicted|
        invariant left == ids - Ids(evicted[..i])
      {
        assert evicted[..i + 1] == evicted[..i] + [evicted[i]];
        assert Ids(evicted[..i + 1]) == Ids(evicted[..i]) + {evicted[i].id};
        left := left - {evicted[i].id};
      }
      assert evicted[..|evicted|] == evicted;
    }

    method ClearRecordedEvents()
      requires Valid()
      modifies this
      ensures Valid() && commands == old(commands) + [Clear] && events == []
    {
      events, ids := [], {};
      commands := commands + [Clear];
    }
  }

  /** Among distinct ids, dropping a prefix drops exactly its ids. */
  lemma EvictedIds(events: seq<Event>, excess: nat)
    requires excess <= |events| && Distinct(events)
    ensures Ids(events) - Ids(events[..excess]) == Ids(events[excess..])
  {
    assert events == events[..excess] + events[excess..];
    forall a, b | a in events[..excess] && b in events[excess..] ensures a.id != b.id {
      var i :| 0 <= i < excess && events[i] == a;
      var j :| 0 <= j < |events| - excess && events[excess..][j] == b;
      assert events[excess + j] == b;
    }
    assert Ids(events) == Ids(events[..excess]) + Ids(events[excess..]);
  }
}
