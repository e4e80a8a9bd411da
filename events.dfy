/** The unified event store of store/events.ts: browser, terminal and file
    events in arrival order, de-duplicated by id, with clearing and filtering
    by event type. The payload fields of each event kind play no part in the
    store's logic and are reduced to the `type` string and the timestamp. */
module EventStore {
  import opened EventLog

  /** The `eventType` discriminator. */
  datatype EventType = Browser | Terminal | File

  datatype Event = Event(id: string, eventType: EventType, kind: string, timestamp: string)

  function IdOf(e: Event): string
  {
    e.id
  }

  /** `events.filter(event => (event.eventType === t) === keep)`: the events of
      type `t` when `keep` holds, all the others when it does not. */
  function Filter(events: seq<Event>, t: EventType, keep: bool): (r: seq<Event>)
    ensures |r| <= |events|
  {
    if events == [] then []
    else (if (events[0].eventType == t) == keep then [events[0]] else []) + Filter(events[1..], t, keep)
  }

  /** The filter keeps exactly the events whose type test matches `keep`. */
  lemma {:induction false} FilterMembers(events: seq<Event>, t: EventType, keep: bool, e: Event)
    ensures e in Filter(events, t, keep) <==> e in events && (e.eventType == t) == keep
    decreases |events|
  {
    if events != [] {
      FilterMembers(events[1..], t, keep, e);
      assert events == [events[0]] + events[1..];
    }
  }

  /** `events.filter(event => event.eventType === t)`. */
  function OfType(events: seq<Event>, t: EventType): seq<Event>
  {
    Filter(events, t, true)
  }

  /** `events.filter(event => event.eventType !== t)`. */
  function NotOfType(events: seq<Event>, t: EventType): seq<Event>
  {
    Filter(events, t, false)
  }

  /** Filtering keeps relative order: filtering a concatenation filters each part. */
  lemma {:induction false} FilterDistributes(a: seq<Event>, b: seq<Event>, t: EventType, keep: bool)
    ensures Filter(a + b, t, keep) == Filter(a, t, keep) + Filter(b, t, keep)
    decreases |a|
  {
    if a == [] {
      assert a + b == b;
    } else {
      assert (a + b)[0] == a[0] && (a + b)[1..] == a[1..] + b;
      FilterDistributes(a[1..], b, t, keep);
    }
  }

  /** Every event keeps its place on exactly one side of the split. */
  lemma {:induction false} FiltersPartition(events: seq<Event>, t: EventType)
    ensures |OfType(events, t)| + |NotOfType(events, t)| == |events|
    decreases |events|
  {
    if events != [] {
      FiltersPartition(events[1..], t);
    }
  }

  /** `clearEventsByType(t)` leaves the events of every other type exactly as
      they were, in order, and none of type `t`. */
  lemma {:induction false} ClearByTypeKeepsOthers(events: seq<Event>, t: EventType, u: EventType)
    ensures OfType(NotOfType(events, t), t) == []
    ensures u != t ==> OfType(NotOfType(events, t), u) == OfType(events, u)
    decreases |events|
  {
    if events != [] {
      ClearByTypeKeepsOthers(events[1..], t, u);
      var head := if events[0].eventType != t then [events[0]] else [];
      FilterDistributes(head, NotOfType(events[1..], t), t, true);
      FilterDistributes(head, NotOfType(events[1..], t), u, true);
    }
  }

  /** Filtering events whose ids are unique leaves ids unique. */
  lemma {:induction false} FilterKeepsUnique(events: seq<Event>, t: EventType, keep: bool)
    requires UniqueIds(events, IdOf)
    ensures UniqueIds(Filter(events, t, keep), IdOf)
    decreases |events|
  {
    if events != [] {
      assert UniqueIds(events[1..], IdOf) by {
        forall i, j | 0 <= i < j < |events[1..]|
          ensures IdOf(events[1..][i]) != IdOf(events[1..][j])
        {
          assert events[1..][i] == events[i + 1] && events[1..][j] == events[j + 1];
        }
      }
      FilterKeepsUnique(events[1..], t, keep);
      var rest := Filter(events[1..], t, keep);
      if (events[0].eventType == t) == keep {
        forall j | 0 <= j < |rest| ensures IdOf(events[0]) != IdOf(rest[j]) {
          FilterMembers(events[1..], t, keep, rest[j]);
          assert rest[j] in events[1..];
          var k :| 0 <= k < |events[1..]| && events[1..][k] == rest[j];
          assert events[k + 1] == rest[j];
        }
        assert Filter(events, t, keep) == [events[0]] + rest;
      }
    }
  }

  /** The zustand store: its single state cell `events`, swapped by each action. */
  class Store {
    var events: seq<Event>

    /** Ids are unique; every action keeps this. */
    ghost predicate Valid()
      reads this
    {
      UniqueIds(events, IdOf)
    }

    constructor ()
      ensures Valid() && events == []
    {
      events := [];
    }

    method AddEvent(e: Event)
      requires Valid()
      modifies this
      ensures Valid()
      ensures events == AddById(old(events), IdOf, e)
    {
      events := AddById(events, IdOf, e);
    }

    method ClearEvents()
      modifies this
      ensures Valid() && events == []
    {
      events := [];
    }

    method ClearEventsByType(t: EventType)
      requires Valid()
      modifies this
      ensures Valid()
      ensures events == NotOfType(old(events), t)
    {
      FilterKeepsUnique(events, t, false);
      events := NotOfType(events, t);
    }

    /** Reads the store and changes nothing. */
    method GetEventsByType(t: EventType) returns (r: seq<Event>)
      ensures r == OfType(events, t)
    {
      r := OfType(events, t);
    }
  }
}
