/**
 * Traffic Monitor's bounded event log (EventsThreadsafe).
 *
 * The log keeps the newest event first. Each Add stamps the event with the
 * next index, puts it in front of a fresh copy of the list, cuts the list to
 * max - 1 entries when it would exceed max, publishes the new list and bumps
 * the 64-bit index counter. A list handed out by Get is never written again.
 */
module Events {

  /** 2^64: the index counter is a uint64. */
  const U64Limit: nat := 0x1_0000_0000_0000_0000

  datatype Event = Event(
    index: nat,
    time: int,
    description: string,
    name: string,
    hostname: string,
    eventType: string,
    available: bool)

  /** Indices strictly decrease from the newest event to the oldest, all below `nextIndex`. */
  predicate IndicesDescending(events: seq<Event>, nextIndex: nat) {
    && (forall i, j :: 0 <= i < j < |events| ==> events[j].index < events[i].index)
    && (forall i :: 0 <= i < |events| ==> events[i].index < nextIndex)
  }

  /**
   * The list published by Add: the stamped event in front of the old list,
   * cut to max - 1 entries when the result would be longer than max.
   */
  function Added(events: seq<Event>, nextIndex: nat, max: nat, e: Event): (r: seq<Event>)
    requires max >= 1
    ensures |r| == if |events| + 1 <= max then |events| + 1 else max - 1
    ensures |events| <= max ==> |r| <= max
    ensures |events| + 1 <= max || max >= 2 ==> |r| >= 1 && r[0] == e.(index := nextIndex)
    ensures |events| + 1 <= max ==> r == [e.(index := nextIndex)] + events
    ensures forall i :: 1 <= i < |r| ==> r[i] == events[i - 1]
    ensures IndicesDescending(events, nextIndex) ==> IndicesDescending(r, nextIndex + 1)
  {
    var grown := [e.(index := nextIndex)] + events;
    if |grown| > max then grown[..max - 1] else grown
  }

  /**
   * With max = 1 the cut to max - 1 applies as soon as one event is stored:
   * the next Add publishes the empty list and the added event is lost.
   */
  lemma SingleSlotLogDropsAddedEvent(stored: Event, nextIndex: nat, e: Event)
    ensures Added([stored], nextIndex, 1, e) == []
  {
  }

  /** Once the log is full, it alternates between max - 1 and max entries. */
  lemma FullLogShrinksToMaxMinusOne(events: seq<Event>, nextIndex: nat, max: nat, e: Event)
    requires max >= 1 && |events| == max
    ensures |Added(events, nextIndex, max, e)| == max - 1
    ensures |Added(Added(events, nextIndex, max, e), nextIndex + 1, max, e)| == max
  {
  }

  /** copyEvents: a fresh array holding the same events. */
  method CopyEvents(a: array<Event>) returns (b: array<Event>)
    ensures fresh(b)
    ensures b[..] == a[..]
  {
    b := new Event[a.Length];
    for i := 0 to a.Length
      invariant forall k :: 0 <= k < i ==> b[k] == a[k]
    {
      b[i] := a[i];
    }
  }

  class EventsThreadsafe {
    var events: array<Event>
    var nextIndex: nat
    const max: nat

    ghost predicate Valid()
      reads this
    {
      nextIndex < U64Limit && events.Length <= max
    }

    /** NewEventsThreadsafe: an empty log whose next index is 0. */
    constructor (maxEvents: nat)
      requires maxEvents < U64Limit
      ensures Valid()
      ensures fresh(events) && events[..] == [] && nextIndex == 0 && max == maxEvents
    {
      events := new Event[0];
      nextIndex := 0;
      max := maxEvents;
    }

    /** The published list itself; callers must not write to it. */
    method Get() returns (r: array<Event>)
      ensures r == events
    {
      r := events;
    }

    /**
     * Adds `e` as the newest event. The published list is a fresh array, so
     * arrays handed out earlier keep their contents. With max = 0 the Go code
     * slices to max - 1, which underflows and panics, hence max >= 1.
     */
    method Add(e: Event)
      requires Valid() && max >= 1
      modifies this
      ensures Valid() && fresh(events)
      ensures events[..] == Added(old(events[..]), old(nextIndex), max, e)
      ensures nextIndex == (old(nextIndex) + 1) % U64Limit
      ensures old(IndicesDescending(events[..], nextIndex)) && old(nextIndex) + 1 < U64Limit
              ==> IndicesDescending(events[..], nextIndex)
    {
      var copied := CopyEvents(events);
      var stamped := e.(index := nextIndex);
      var n := if copied.Length + 1 > max then max - 1 else copied.Length + 1;
      var published := new Event[n];
      for i := 0 to n
        modifies published
        invariant forall k :: 0 <= k < i ==> published[k] == ([stamped] + copied[..])[k]
      {
        published[i] := if i == 0 then stamped else copied[i - 1];
      }
      assert published[..] == Added(events[..], nextIndex, max, e);
      events := published;
      nextIndex := (nextIndex + 1) % U64Limit;
    }
  }

  /** An array obtained from Get before an Add still holds the events it held. */
  method SnapshotSurvivesAdd(log: EventsThreadsafe, e: Event) returns (snapshot: array<Event>)
    requires log.Valid() && log.max >= 1
    modifies log
    ensures snapshot == old(log.events) && snapshot[..] == old(log.events[..])
    ensures log.events != snapshot
  {
    snapshot := log.Get();
    log.Add(e);
  }
}
