/** The de-duplicating append both event stores perform (store/events.ts and
    store/browser-events.ts): an event whose id is already present is dropped,
    any other is appended at the end. The element type and the way to read
    its id are parameters, so the two stores share one definition. */
module EventLog {

  /** `events.some(existing => existing.id === id)`. */
  predicate HasId<T>(events: seq<T>, idOf: T -> string, id: string)
  {
    exists i :: 0 <= i < |events| && idOf(events[i]) == id
  }

  /** No two events share an id. */
  predicate UniqueIds<T>(events: seq<T>, idOf: T -> string)
  {
    forall i, j :: 0 <= i < j < |events| ==> idOf(events[i]) != idOf(events[j])
  }

  /** `addEvent`: the list is returned as it was when the id is taken, and with
      `e` appended otherwise. */
  function AddById<T>(events: seq<T>, idOf: T -> string, e: T): (r: seq<T>)
    ensures events <= r && HasId(r, idOf, idOf(e))
    ensures |r| == |events| + 1 <==> !HasId(events, idOf, idOf(e))
    ensures |r| == |events| <==> HasId(events, idOf, idOf(e))
    ensures r != events ==> r[|events|] == e
    ensures UniqueIds(events, idOf) ==> UniqueIds(r, idOf)
  {
    if HasId(events, idOf, idOf(e)) then events
    else
      var r := events + [e];
      assert idOf(r[|events|]) == idOf(e);
      r
  }

  /** Adding the same event twice is adding it once. */
  lemma AddByIdIdempotent<T>(events: seq<T>, idOf: T -> string, e: T)
    ensures AddById(AddById(events, idOf, e), idOf, e) == AddById(events, idOf, e)
  {
  }

  /** Replaying a batch of events through `AddById` from the empty list leaves
      ids unique, whatever the batch held. */
  function AddAll<T>(events: seq<T>, idOf: T -> string, batch: seq<T>): (r: seq<T>)
    decreases |batch|
  {
    if batch == [] then events else AddAll(AddById(events, idOf, batch[0]), idOf, batch[1..])
  }

  lemma {:induction false} AddAllUnique<T>(events: seq<T>, idOf: T -> string, batch: seq<T>)
    requires UniqueIds(events, idOf)
    ensures UniqueIds(AddAll(events, idOf, batch), idOf)
    ensures events <= AddAll(events, idOf, batch)
    ensures |AddAll(events, idOf, batch)| <= |events| + |batch|
    decreases |batch|
  {
    if batch != [] {
      AddAllUnique(AddById(events, idOf, batch[0]), idOf, batch[1..]);
    }
  }
}
