/** The older browser-only event store of store/browser-events.ts: events in
    arrival order, de-duplicated by id, and a clear action. */
module BrowserEventStore {
  import opened EventLog

  /** A captured browser event, reduced to the fields the store reads or keeps
      in order (the element and details payloads are left out). */
  datatype BrowserEvent = BrowserEvent(id: string, kind: string, timestamp: string, url: string)

  function IdOf(e: BrowserEvent): string
  {
    e.id
  }

  /** `addEvent` with an id already in the list is a no-op; with a fresh id
      the event lands at the end and the earlier events keep their order. */
  lemma AddEventCases(events: seq<BrowserEvent>, e: BrowserEvent)
    ensures HasId(events, IdOf, e.id) ==> AddById(events, IdOf, e) == events
    ensures !HasId(events, IdOf, e.id) ==> AddById(events, IdOf, e) == events + [e]
  {
    var r := AddById(events, IdOf, e);
    if !HasId(events, IdOf, e.id) {
      assert r[..|events|] == events;
      assert r == r[..|events|] + [r[|events|]];
    }
  }

  class Store {
    var events: seq<BrowserEvent>

    ghost predicate Valid()
      reads this
    {
      UniqueIds(events, IdOf)
    }

    constructor ()
      ensures Valid() && events == []
    {
      events := [];
    }

    method AddEvent(e: BrowserEvent)
      requires Valid()
      modifies this
      ensures Valid()
      ensures events == AddById(old(events), IdOf, e)
      ensures |events| == |old(events)| + 1 <==> !HasId(old(events), IdOf, e.id)
    {
      events := AddById(events, IdOf, e);
    }

    method ClearEvents()
      modifies this
      ensures Valid() && events == []
    {
      events := [];
    }
  }
}
