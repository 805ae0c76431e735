/**
 * The request handlers' decision logic, on an already parsed query. Waiting for a signal or a
 * timer is not modelled: the way a parked listen request ends is a parameter.
 */
module Handlers {
  import opened Wrappers
  import opened Ids
  import opened Decimal
  import opened Query
  import opened Registry
  import opened Events
  import opened RestHelper

  /** `extractFeeds`: every `feed` value, in order; none when the key is absent. */
  function ExtractFeeds(q: Values): (names: seq<string>)
    ensures names == (if "feed" in q then q["feed"] else [])
  {
    if "feed" in q && |q["feed"]| > 0 then q["feed"] else []
  }

  /** `extractSubscription`: the first `subscriptionID` value, or the empty id. */
  function ExtractSubscription(q: Values): (id: Uuid)
    ensures id != "" ==> "subscriptionID" in q && |q["subscriptionID"]| > 0
    ensures "subscriptionID" in q && |q["subscriptionID"]| > 0 ==> id == q["subscriptionID"][0]
    ensures !("subscriptionID" in q && |q["subscriptionID"]| > 0) ==> id == ""
  {
    if "subscriptionID" in q && |q["subscriptionID"]| > 0 then q["subscriptionID"][0] else ""
  }

  /** `extractTimeout`: the value of a single `timeout` that parses as an integer, otherwise 0. */
  function ExtractTimeout(q: Values): (t: int)
    ensures t != 0 ==> "timeout" in q && |q["timeout"]| == 1 && Atoi(q["timeout"][0]) == Some(t)
    ensures "timeout" in q && |q["timeout"]| == 1 && Atoi(q["timeout"][0]).Some? ==>
              t == Atoi(q["timeout"][0]).value
  {
    if "timeout" in q && |q["timeout"]| == 1 then
      match Atoi(q["timeout"][0])
      case Some(t) => t
      case None => 0
    else 0
  }

  /** The wait of a listen request: 30 seconds when none was given, otherwise exactly the given value. */
  function ListenTimeout(t: int): (wait: int)
    ensures wait != 0
    ensures t != 0 ==> wait == t
    ensures t == 0 ==> wait == 30
  {
    if t == 0 then 30 else t
  }

  function FeedNames(fs: seq<Feed>): seq<string> {
    seq(|fs|, i requires 0 <= i < |fs| => fs[i].name)
  }

  /** The names, in order, that are registered in `known`. */
  function Registered(names: seq<string>, known: set<string>): seq<string> {
    if names == [] then []
    else
      var prefix := Registered(names[..|names| - 1], known);
      if names[|names| - 1] in known then prefix + [names[|names| - 1]] else prefix
  }

  /** The feeds the names resolve to, in order; unknown names are dropped. */
  function Resolved(reg: FeedRegistry, names: seq<string>): (fs: seq<Feed>)
    reads reg
    requires reg.NamesConsistent()
    ensures |fs| <= |names|
    ensures forall i :: 0 <= i < |fs| ==> fs[i] in reg.feeds.Values
  {
    if names == [] then []
    else
      var prefix := Resolved(reg, names[..|names| - 1]);
      match reg.GetFeedFromName(names[|names| - 1])
      case Ok(f) => prefix + [f]
      case Err(_) => prefix
  }

  /** The resolved feeds carry exactly the registered names of the request, in request order. */
  lemma {:induction false} ResolvedNames(reg: FeedRegistry, names: seq<string>)
    requires reg.NamesConsistent()
    ensures FeedNames(Resolved(reg, names)) == Registered(names, reg.feedNameToUuid.Keys)
  {
    if names != [] {
      var init := names[..|names| - 1];
      ResolvedNames(reg, init);
      var fs := Resolved(reg, init);
      match reg.GetFeedFromName(names[|names| - 1])
      case Ok(f) =>
        assert FeedNames(fs + [f]) == FeedNames(fs) + [f.name];
      case Err(_) =>
    }
  }

  /** `getFeeds`: look each requested name up, keeping the feeds that exist. */
  method GetFeeds(reg: FeedRegistry, q: Values) returns (fs: seq<Feed>)
    requires reg.NamesConsistent()
    ensures fs == Resolved(reg, ExtractFeeds(q))
  {
    fs := [];
    var names := ExtractFeeds(q);
    if |names| > 0 {
      for i := 0 to |names|
        invariant fs == Resolved(reg, names[..i])
      {
        assert names[..i + 1][..i] == names[..i];
        var r := reg.GetFeedFromName(names[i]);
        if r.Ok? {
          fs := fs + [r.value];
        }
      }
      assert names[..|names|] == names;
    }
  }

  /** The reply of `CreateFeed` for the requested names, given the names already registered. */
  function CreateFeedResponse(names: seq<string>, registered: set<string>): (r: Response)
    ensures r.status == 400 <==> |names| != 1
    ensures r.status == 500 <==> |names| == 1 && names[0] in registered
    ensures r.status == 200 <==> |names| == 1 && names[0] !in registered
  {
    if |names| == 0 then SendError(400, "missing valid feed(s)")
    else if |names| > 1 then SendError(400, "to many feeds")
    else if names[0] in registered then SendError(500, "can not create feed " + names[0])
    else SendOK()
  }

  /** `CreateFeed`: exactly one new name creates a feed; anything else leaves the registry alone. */
  method CreateFeed(reg: FeedRegistry, q: Values, draws: seq<seq<nat>>) returns (resp: Response)
    requires reg.Valid() && AreDraws(draws) && HasFreshCandidate(draws, reg.pool.uuids)
    modifies reg, reg.pool
    ensures reg.Valid()
    ensures resp == CreateFeedResponse(ExtractFeeds(q), old(reg.feedNameToUuid.Keys))
    ensures resp.status == 200 ==>
              var name := ExtractFeeds(q)[0];
              && name in reg.feedNameToUuid
              && var id := reg.feedNameToUuid[name];
              && id !in old(reg.pool.uuids) && reg.pool.uuids == old(reg.pool.uuids) + {id}
              && reg.feedNameToUuid == old(reg.feedNameToUuid)[name := id]
              && id in reg.feeds && fresh(reg.feeds[id])
              && reg.feeds[id].name == name && reg.feeds[id].subscriptions == map[]
              && reg.feeds == old(reg.feeds)[id := reg.feeds[id]]
    ensures resp.status != 200 ==>
              && reg.feeds == old(reg.feeds) && reg.feedNameToUuid == old(reg.feedNameToUuid)
              && reg.pool.uuids == old(reg.pool.uuids)
  {
    var names := ExtractFeeds(q);
    if |names| == 0 {
      return SendError(400, "missing valid feed(s)");
    }
    if |names| > 1 {
      return SendError(400, "to many feeds");
    }
    var r := reg.NewFeed(names[0], draws);
    if r.Err? {
      return SendError(500, "can not create feed " + names[0]);
    }
    resp := SendOK();
  }

  /** The reply carrying the new subscription's id as the code writes it, under `ConnectionID`. */
  function SubscribeReplyAsWritten(names: seq<string>, id: Uuid): (b: Body)
    ensures b.FeedsReply? && b.feeds == names && b.id == id
    ensures b.idField == ConnectionID
  {
    FeedsReply(names, ConnectionID, id)
  }

  /** The reply carrying the new subscription's id under `SubscriptionID`, the key the client reads. */
  function SubscribeReply(names: seq<string>, id: Uuid): (b: Body)
    ensures b.FeedsReply? && b.feeds == names && b.id == id
    ensures b.idField == SubscriptionID
  {
    FeedsReply(names, SubscriptionID, id)
  }

  /** A feed's subscribers after `c` subscribes: unchanged when its id is already there. */
  function Joined(subscribers: map<Uuid, Subscription>, c: Subscription): (m: map<Uuid, Subscription>)
    reads c
    ensures c.id in m && m.Keys == subscribers.Keys + {c.id}
    ensures c.id !in subscribers ==> m[c.id] == c
    ensures forall k :: k in subscribers ==> m[k] == subscribers[k]
  {
    if c.id in subscribers then subscribers else subscribers[c.id := c]
  }

  /** Feeds that share an id are the same feed. */
  predicate IdsIdentify(fs: seq<Feed>) {
    forall i, j :: 0 <= i < |fs| && 0 <= j < |fs| && fs[i].id == fs[j].id ==> fs[i] == fs[j]
  }

  /** In a consistent registry a feed is stored under its own id, so registered feeds satisfy `IdsIdentify`. */
  lemma RegisteredIdsIdentify(reg: FeedRegistry, fs: seq<Feed>)
    requires reg.NamesConsistent()
    requires forall i :: 0 <= i < |fs| ==> fs[i] in reg.feeds.Values
    ensures IdsIdentify(fs)
  {
    forall i, j | 0 <= i < |fs| && 0 <= j < |fs| && fs[i].id == fs[j].id
      ensures fs[i] == fs[j]
    {
      var ki :| ki in reg.feeds && reg.feeds[ki] == fs[i];
      var kj :| kj in reg.feeds && reg.feeds[kj] == fs[j];
    }
  }

  /**
   * The subscribe loop of `SubscribeHandler`: `c` subscribes to each feed in turn; a feed that
   * already holds `c`'s id (or appears twice) reports an error that the loop ignores.
   */
  method SubscribeAll(c: Subscription, fs: seq<Feed>)
    modifies c, set i | 0 <= i < |fs| :: fs[i]
    ensures forall i :: 0 <= i < |fs| ==> fs[i].subscriptions == Joined(old(fs[i].subscriptions), c)
    ensures c.feeds.Keys ==
              old(c.feeds.Keys) + set i | 0 <= i < |fs| && c.id !in old(fs[i].subscriptions) :: fs[i].id
    ensures forall key :: key in c.feeds ==>
              || (key in old(c.feeds) && c.feeds[key] == old(c.feeds[key]))
              || (c.feeds[key] in fs && c.feeds[key].id == key)
    ensures c.listening == old(c.listening) && c.handlerIsSet == old(c.handlerIsSet)
  {
    for k := 0 to |fs|
      invariant forall i :: 0 <= i < |fs| && fs[i] in fs[..k] ==>
                  fs[i].subscriptions == Joined(old(fs[i].subscriptions), c)
      invariant forall i :: 0 <= i < |fs| && fs[i] !in fs[..k] ==>
                  fs[i].subscriptions == old(fs[i].subscriptions)
      invariant c.feeds.Keys ==
                  old(c.feeds.Keys) + set i | 0 <= i < k && c.id !in old(fs[i].subscriptions) :: fs[i].id
      invariant forall key :: key in c.feeds ==>
                  || (key in old(c.feeds) && c.feeds[key] == old(c.feeds[key]))
                  || (c.feeds[key] in fs && c.feeds[key].id == key)
      invariant c.listening == old(c.listening) && c.handlerIsSet == old(c.handlerIsSet)
    {
      var _ := c.Subscribe(fs[k]);
      assert fs[..k + 1] == fs[..k] + [fs[k]];
    }
    assert fs[..|fs|] == fs;
  }

  /** Every registered feed's subscribers carry ids drawn from `pool`. */
  ghost predicate SubscribersDrawn(reg: FeedRegistry, pool: UuidPool)
    reads reg, reg.feeds.Values, pool
  {
    forall f :: f in reg.feeds.Values ==> f.subscriptions.Keys <= pool.uuids
  }

  /**
   * `SubscribeHandler`: no subscription is created when no requested feed exists. Otherwise a new
   * subscription joins every resolved feed and the reply lists their names and its id, the id
   * under `ConnectionID` as the code writes it.
   */
  method SubscribeHandler(reg: FeedRegistry, subs: SubscriptionRegistry, q: Values, draws: seq<seq<nat>>)
    returns (resp: Response)
    requires reg.NamesConsistent() && subs.Valid() && reg.pool == subs.pool
    requires SubscribersDrawn(reg, subs.pool)
    requires AreDraws(draws) && HasFreshCandidate(draws, subs.pool.uuids)
    modifies subs, subs.pool, reg.feeds.Values
    ensures subs.Valid() && SubscribersDrawn(reg, subs.pool)
    ensures Resolved(reg, ExtractFeeds(q)) == [] ==>
              && resp == SendError(400, "missing valid feed(s)")
              && subs.subscriptions == old(subs.subscriptions) && subs.pool.uuids == old(subs.pool.uuids)
              && unchanged(reg.feeds.Values)
    ensures Resolved(reg, ExtractFeeds(q)) != [] ==>
              var fs := Resolved(reg, ExtractFeeds(q));
              && resp.body.FeedsReply?
              && var id := resp.body.id;
              && resp == SendResponse(SubscribeReplyAsWritten(FeedNames(fs), id))
              && IsUuid(id) && id !in old(subs.pool.uuids)
              && subs.pool.uuids == old(subs.pool.uuids) + {id}
              && id in subs.subscriptions && fresh(subs.subscriptions[id])
              && subs.subscriptions == old(subs.subscriptions)[id := subs.subscriptions[id]]
              && subs.subscriptions[id].feeds.Keys == (set i | 0 <= i < |fs| :: fs[i].id)
              && !subs.subscriptions[id].handlerIsSet && !subs.subscriptions[id].listening
              && forall i :: 0 <= i < |fs| ==>
                   fs[i].subscriptions == old(fs[i].subscriptions)[id := subs.subscriptions[id]]
    ensures Resolved(reg, ExtractFeeds(q)) != [] ==>
              var fs := Resolved(reg, ExtractFeeds(q));
              && resp.body.FeedsReply? && resp.body.id in subs.subscriptions
              && (forall i :: 0 <= i < |fs| ==> subs.subscriptions[resp.body.id].feeds[fs[i].id] == fs[i])
              && forall f :: f in reg.feeds.Values && f !in fs ==> f.subscriptions == old(f.subscriptions)
  {
    var fs := GetFeeds(reg, q);
    if |fs| == 0 {
      return SendError(400, "missing valid feed(s)");
    }
    RegisteredIdsIdentify(reg, fs);
    var c := SubscribeNew(subs, fs, draws);
    forall f | f in reg.feeds.Values && f !in fs
      ensures f.subscriptions == old(f.subscriptions)
    {
      assert f !in set i | 0 <= i < |fs| :: fs[i];
    }
    forall f | f in reg.feeds.Values
      ensures f.subscriptions.Keys <= subs.pool.uuids
    {
      if f !in set i | 0 <= i < |fs| :: fs[i] {
        assert f.subscriptions == old(f.subscriptions);
      }
    }
    var names := CollectNames(fs);
    resp := SendResponse(SubscribeReplyAsWritten(names, c.id));
  }

  /** The subscribing part of `SubscribeHandler`: a new subscription that joins every feed of `fs`. */
  method SubscribeNew(subs: SubscriptionRegistry, fs: seq<Feed>, draws: seq<seq<nat>>) returns (c: Subscription)
    requires subs.Valid() && AreDraws(draws) && HasFreshCandidate(draws, subs.pool.uuids)
    requires forall i :: 0 <= i < |fs| ==> fs[i].subscriptions.Keys <= subs.pool.uuids
    modifies subs, subs.pool, set i | 0 <= i < |fs| :: fs[i]
    ensures subs.Valid() && fresh(c) && IsUuid(c.id)
    ensures c.id !in old(subs.pool.uuids) && subs.pool.uuids == old(subs.pool.uuids) + {c.id}
    ensures subs.subscriptions == old(subs.subscriptions)[c.id := c]
    ensures c.feeds.Keys == (set i | 0 <= i < |fs| :: fs[i].id) && !c.handlerIsSet && !c.listening
    ensures forall i :: 0 <= i < |fs| ==> fs[i].subscriptions == old(fs[i].subscriptions)[c.id := c]
    ensures IdsIdentify(fs) ==> forall i :: 0 <= i < |fs| ==> c.feeds[fs[i].id] == fs[i]
  {
    c := subs.NewSubscription(draws);
    assert forall i :: 0 <= i < |fs| ==> c.id !in fs[i].subscriptions;
    SubscribeAll(c, fs);
  }

  /** The name-list loop of `SubscribeHandler`: the names of `fs`, in order. */
  method CollectNames(fs: seq<Feed>) returns (names: seq<string>)
    ensures |names| == |fs| && forall i :: 0 <= i < |fs| ==> names[i] == fs[i].name
  {
    names := [];
    for i := 0 to |fs|
      invariant |names| == i && forall j :: 0 <= j < i ==> names[j] == fs[j].name
    {
      names := names + [fs[i].name];
    }
  }

  /** The fixed payload the notify handler publishes. */
  const NotifyPayload: Payload := Point(1, 2)

  /** The reply of `NotifyEvent` from the number of resolved feeds and the subscribers of the one feed. */
  function NotifyEventResponse(resolved: nat, subscribers: nat): (r: Response)
    ensures r.status == 400 <==> resolved != 1
    ensures r.status == 500 <==> resolved == 1 && subscribers == 0
    ensures r.status == 200 <==> resolved == 1 && subscribers > 0
  {
    if resolved == 0 then SendError(400, "missing valid feed(s)")
    else if resolved > 1 then SendError(400, "too many feeds")
    else if subscribers == 0 then SendError(500, "can not register event")
    else SendOK()
  }

  /** `NotifyEvent`: publishes to exactly one resolved feed, if it has subscribers. */
  method NotifyEvent(reg: FeedRegistry, events: EventList, pool: UuidPool, q: Values, now: Timestamp,
                     draws: seq<seq<nat>>)
    returns (resp: Response, notified: seq<Uuid>)
    requires reg.NamesConsistent() && pool == reg.pool
    requires AreDraws(draws) && HasFreshCandidate(draws, pool.uuids)
    modifies events, pool
    ensures var fs := Resolved(reg, ExtractFeeds(q));
            resp == NotifyEventResponse(|fs|, if |fs| == 1 then |fs[0].subscriptions| else 0)
    ensures resp.status != 200 ==>
              events.list == old(events.list) && notified == [] && pool.uuids == old(pool.uuids)
    ensures resp.status == 200 ==>
              var fs := Resolved(reg, ExtractFeeds(q));
              && |events.list| == |old(events.list)| + 1
              && events.list[..|old(events.list)|] == old(events.list)
              && var ev := events.list[|old(events.list)|];
                 && ev.feed == fs[0] && ev.ts == now && ev.payload == NotifyPayload
                 && ev.id !in old(pool.uuids) && pool.uuids == old(pool.uuids) + {ev.id}
                 && Distinct(notified) && Elements(notified) == fs[0].subscriptions.Keys
  {
    notified := [];
    var fs := GetFeeds(reg, q);
    if |fs| == 0 {
      return SendError(400, "missing valid feed(s)"), [];
    }
    if |fs| > 1 {
      return SendError(400, "too many feeds"), [];
    }
    var r;
    r, notified := NewEvent(events, pool, fs[0], NotifyPayload, now, draws);
    if r.Err? {
      return SendError(500, "can not register event"), notified;
    }
    resp := SendOK();
  }

  /** How a parked listen request ends: a ready signal with the events handed over, an abort, the timer, or another signal. */
  datatype Wake = Ready(events: seq<Event>) | Abort | Expired | Unrecognized

  /**
   * `ListenHandler`: an unknown subscription is refused with 403. Otherwise an abort is sent
   * exactly when a request was already listening, the subscription is marked listening, and the
   * ready and timer outcomes clear the mark again.
   */
  method ListenHandler(subs: SubscriptionRegistry, q: Values, wake: Wake)
    returns (resp: Option<Response>, abortSent: bool, wait: int)
    modifies if ExtractSubscription(q) in subs.subscriptions then {subs.subscriptions[ExtractSubscription(q)]} else {}
    ensures ExtractSubscription(q) !in subs.subscriptions ==>
              resp == Some(SendError(403, "not valid subscriptionID")) && !abortSent
    ensures ExtractSubscription(q) in subs.subscriptions ==>
              var c := subs.subscriptions[ExtractSubscription(q)];
              && abortSent == old(c.listening)
              && wait == ListenTimeout(ExtractTimeout(q))
              && c.listening == (wake.Abort? || wake.Unrecognized?)
              && c.feeds == old(c.feeds) && c.handlerIsSet == old(c.handlerIsSet)
              && resp == match wake
                         case Ready(evs) => Some(Response(200, EventsData(false, EventDataOf(evs))))
                         case Abort => Some(SendError(500, "ABORTED"))
                         case Expired => Some(SendTimeout())
                         case Unrecognized => None
  {
    wait := 0;
    var found := subs.GetSubscription(ExtractSubscription(q));
    if found.Err? {
      return Some(SendError(403, "not valid subscriptionID")), false, wait;
    }
    var c := found.value;
    abortSent := c.listening;
    c.listening := true;
    wait := ExtractTimeout(q);
    if wait == 0 {
      wait := 30;
    }
    match wake
    case Ready(evs) =>
      c.listening := false;
      var sent := SendEvents(evs);
      resp := Some(sent);
    case Abort =>
      resp := Some(SendError(500, "ABORTED"));
    case Expired =>
      c.listening := false;
      resp := Some(SendTimeout());
    case Unrecognized =>
      resp := None;
  }
}
