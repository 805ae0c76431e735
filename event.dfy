/**
 * Events: construction, the global append-only event log, the fan-out to a feed's subscribers
 * (recorded as the ids notified), the pluggable payload parser and the exported projection.
 */
module Events {
  import opened Wrappers
  import opened Ids
  import opened Registry

  /** A creation time (`time.Now().UTC()`), supplied by the caller. */
  type Timestamp = int

  /**
   * An `interface{}` payload. The only one the library builds itself is the `{x, y}` record of
   * the notify handler; any other value stays opaque.
   */
  datatype Payload = Point(x: int, y: int) | Opaque(text: string)

  datatype Event = Event(id: Uuid, feed: Feed, ts: Timestamp, payload: Payload)

  /** The record `ToJSON` marshals (the JSON text itself is not modelled). */
  datatype ExportedEvent = ExportedEvent(feed: string, stamp: Timestamp, payload: Payload)

  const NoSubscribers: string := "no subscribers, this event will be lost"
  const ParserNotRegistered: string := "Parser function not registered"

  /** `ToJSON`: exposes the feed's name, the creation time and the payload, and nothing else. */
  function ToJSON(ev: Event): (x: ExportedEvent)
    ensures x.feed == ev.feed.name && x.stamp == ev.ts && x.payload == ev.payload
  {
    ExportedEvent(ev.feed.name, ev.ts, ev.payload)
  }

  /** The exported record does not reveal the event's id: events differing only in id export alike. */
  lemma ToJSONIgnoresId(ev: Event, other: Uuid)
    ensures ToJSON(ev.(id := other)) == ToJSON(ev)
  {
  }

  predicate Distinct(ids: seq<Uuid>) {
    forall i, j :: 0 <= i < j < |ids| ==> ids[i] != ids[j]
  }

  function Elements(ids: seq<Uuid>): set<Uuid> {
    set i | 0 <= i < |ids| :: ids[i]
  }

  lemma ElementsSnoc(ids: seq<Uuid>, s: Uuid)
    ensures Elements(ids + [s]) == Elements(ids) + {s}
  {
    var t := ids + [s];
    forall x | x in Elements(t) ensures x in Elements(ids) + {s} {
      var i :| 0 <= i < |t| && t[i] == x;
      if i < |ids| {
        assert ids[i] == x;
      }
    }
    forall x | x in Elements(ids) + {s} ensures x in Elements(t) {
      if x == s {
        assert t[|ids|] == s;
      } else {
        var i :| 0 <= i < |ids| && ids[i] == x;
        assert t[i] == x;
      }
    }
  }

  /** The global event log (Go's `events`). */
  class EventList {
    var list: seq<Event>

    constructor ()
      ensures list == []
    {
      list := [];
    }

    /** `Append`: one more event, at the end; earlier entries stay as they were. */
    method Append(ev: Event)
      modifies this
      ensures list == old(list) + [ev]
    {
      list := list + [ev];
    }
  }

  /** The global `parserFunction`. */
  class EventParser {
    var parse: string -> Result<Payload>

    /** Until a parser is registered, every body is refused. */
    constructor ()
      ensures forall body :: parse(body) == Err(ParserNotRegistered)
    {
      parse := body => Err(ParserNotRegistered);
    }

    /** `RegisterEventParser`: the given function replaces the current one. */
    method RegisterEventParser(f: string -> Result<Payload>)
      modifies this
      ensures parse == f
    {
      parse := f;
    }
  }

  /**
   * The notification loop of `NewEvent`: every subscriber id is dispatched to once, in
   * whatever order the map yields them.
   */
  method FanOut(subscribers: set<Uuid>) returns (notified: seq<Uuid>)
    ensures Distinct(notified) && Elements(notified) == subscribers
  {
    var pending := subscribers;
    notified := [];
    while pending != {}
      invariant Elements(notified) !! pending && Elements(notified) + pending == subscribers
      invariant Distinct(notified)
      decreases pending
    {
      var s :| s in pending;
      ElementsSnoc(notified, s);
      notified := notified + [s];
      pending := pending - {s};
    }
  }

  /**
   * `NewEvent`: refused for a feed without subscribers. Otherwise the event gets a fresh id,
   * is appended to the log, and every subscriber of the feed is notified exactly once.
   */
  method NewEvent(events: EventList, pool: UuidPool, feed: Feed, payload: Payload, now: Timestamp,
                  draws: seq<seq<nat>>)
    returns (r: Result<Event>, notified: seq<Uuid>)
    requires AreDraws(draws) && HasFreshCandidate(draws, pool.uuids)
    modifies events, pool
    ensures |feed.subscriptions| == 0 ==>
              && r == Err(NoSubscribers) && notified == []
              && events.list == old(events.list) && pool.uuids == old(pool.uuids)
    ensures |feed.subscriptions| > 0 ==>
              && r.Ok? && r.value.feed == feed && r.value.ts == now && r.value.payload == payload
              && r.value.id !in old(pool.uuids) && pool.uuids == old(pool.uuids) + {r.value.id}
              && events.list == old(events.list) + [r.value]
              && Distinct(notified) && Elements(notified) == feed.subscriptions.Keys
  {
    if |feed.subscriptions| == 0 {
      return Err(NoSubscribers), [];
    }
    var id := pool.NewUuid(draws);
    var ev := Event(id, feed, now, payload);
    events.Append(ev);
    notified := FanOut(feed.subscriptions.Keys);
    r := Ok(ev);
  }
}
