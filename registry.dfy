/**
 * Feeds and subscriptions, and the registries that own them. Membership of a subscription in
 * a feed is recorded on both sides: in the feed's `subscriptions` and in the subscription's
 * `feeds`.
 */
module Registry {
  import opened Wrappers
  import opened Ids

  /** A named topic. Its name and id never change; its subscriber map does. */
  class Feed {
    const name: string
    const id: Uuid
    var subscriptions: map<Uuid, Subscription>

    constructor (name: string, id: Uuid)
      ensures this.name == name && this.id == id && subscriptions == map[]
    {
      this.name := name;
      this.id := id;
      subscriptions := map[];
    }

    /** `addSubscription`: refuses a subscription whose id is already present. */
    method AddSubscription(c: Subscription) returns (err: Option<string>)
      modifies this`subscriptions
      ensures c.id in old(subscriptions) ==>
                && err == Some("connection " + c.id + " already subscribed feed " + name)
                && subscriptions == old(subscriptions)
      ensures c.id !in old(subscriptions) ==> err == None && subscriptions == old(subscriptions)[c.id := c]
    {
      if c.id in subscriptions {
        return Some("connection " + c.id + " already subscribed feed " + name);
      }
      subscriptions := subscriptions[c.id := c];
      err := None;
    }

    /** `removeSubscription`: never fails; removing an absent subscription changes nothing. */
    method RemoveSubscription(c: Subscription) returns (err: Option<string>)
      modifies this`subscriptions
      ensures err == None
      ensures c.id !in subscriptions && subscriptions == old(subscriptions) - {c.id}
      ensures c.id !in old(subscriptions) ==> subscriptions == old(subscriptions)
    {
      subscriptions := subscriptions - {c.id};
      err := None;
    }

    /** The feed's name followed by its id, in the form `name( F:id)`: both can be read back. */
    function String(): (s: string)
      reads {}
      ensures |s| == |name| + |id| + 5
      ensures s[..|name|] == name && s[|name|..|name| + 4] == "( F:"
      ensures s[|s| - |id| - 1..|s| - 1] == id && s[|s| - 1] == ')'
    {
      name + "( F:" + id + ")"
    }
  }

  /** A consumer's registration against feeds. */
  class Subscription {
    const id: Uuid
    var feeds: map<Uuid, Feed>
    var handlerIsSet: bool
    /** Whether a listen request is currently parked on this subscription. */
    var listening: bool

    constructor (id: Uuid)
      ensures this.id == id && feeds == map[] && !handlerIsSet && !listening
    {
      this.id := id;
      feeds := map[];
      handlerIsSet := false;
      listening := false;
    }

    /** `Subscribe`: registers on the feed first; if the feed refuses, nothing changes here. */
    method Subscribe(feed: Feed) returns (err: Option<string>)
      modifies this`feeds, feed`subscriptions
      ensures id in old(feed.subscriptions) ==>
                && err == Some("connection " + id + " already subscribed feed " + feed.name)
                && feeds == old(feeds) && feed.subscriptions == old(feed.subscriptions)
      ensures id !in old(feed.subscriptions) ==>
                && err == None
                && feeds == old(feeds)[feed.id := feed]
                && feed.subscriptions == old(feed.subscriptions)[id := this]
      ensures id in feed.subscriptions
    {
      err := feed.AddSubscription(this);
      if err.Some? {
        return;
      }
      feeds := feeds[feed.id := feed];
    }

    /** `Unsubscribe`: always succeeds and drops the membership on both sides. */
    method Unsubscribe(feed: Feed) returns (err: Option<string>)
      modifies this`feeds, feed`subscriptions
      ensures err == None
      ensures feeds == old(feeds) - {feed.id}
      ensures feed.subscriptions == old(feed.subscriptions) - {id}
    {
      err := feed.RemoveSubscription(this);
      if err.Some? {
        return;
      }
      feeds := feeds - {feed.id};
    }

    /** The id behind a `C:` prefix: everything after the prefix is the id. */
    function String(): (s: string)
      reads {}
      ensures |s| == |id| + 2 && s[..2] == "C:" && s[2..] == id
    {
      "C:" + id
    }
  }

  /** Subscriptions with different ids print differently. */
  lemma SubscriptionStringsDistinct(a: Subscription, b: Subscription)
    requires a.id != b.id
    ensures a.String() != b.String()
  {
  }

  /** Feeds whose ids have the same length, as issued ids do, print differently when the ids differ. */
  lemma FeedStringsDistinct(f: Feed, g: Feed)
    requires |f.id| == |g.id| && f.id != g.id
    ensures f.String() != g.String()
  {
  }

  /** Subscribing to a feed not yet subscribed and unsubscribing again restores both maps. */
  method SubscribeThenUnsubscribe(c: Subscription, feed: Feed)
    requires c.id !in feed.subscriptions && feed.id !in c.feeds
    modifies c`feeds, feed`subscriptions
    ensures c.feeds == old(c.feeds) && feed.subscriptions == old(feed.subscriptions)
  {
    var subscribed := c.Subscribe(feed);
    assert subscribed == None;
    var unsubscribed := c.Unsubscribe(feed);
    assert c.feeds == old(c.feeds)[feed.id := feed] - {feed.id};
  }

  /** The feed registry: `feeds` (id to feed) and `feedNameToUUID` (name to id). */
  class FeedRegistry {
    const pool: UuidPool
    var feeds: map<Uuid, Feed>
    var feedNameToUuid: map<string, Uuid>

    /** Names and ids correspond one to one, and each feed is stored under its own id and name. */
    ghost predicate NamesConsistent()
      reads this
    {
      && (forall n :: n in feedNameToUuid ==>
            feedNameToUuid[n] in feeds && feeds[feedNameToUuid[n]].name == n)
      && (forall id :: id in feeds ==>
            feeds[id].id == id && feeds[id].name in feedNameToUuid && feedNameToUuid[feeds[id].name] == id)
    }

    ghost predicate Valid()
      reads this, pool
    {
      NamesConsistent() && feeds.Keys <= pool.uuids
    }

    constructor (pool: UuidPool)
      ensures Valid() && this.pool == pool && feeds == map[] && feedNameToUuid == map[]
    {
      this.pool := pool;
      feeds := map[];
      feedNameToUuid := map[];
    }

    /** `NewFeed`: a name already registered is refused and nothing changes. */
    method NewFeed(name: string, draws: seq<seq<nat>>) returns (r: Result<Feed>)
      requires Valid() && AreDraws(draws) && HasFreshCandidate(draws, pool.uuids)
      modifies this, pool
      ensures Valid()
      ensures name in old(feedNameToUuid) ==>
                && r == Err("feed " + name + " exists")
                && feeds == old(feeds) && feedNameToUuid == old(feedNameToUuid)
                && pool.uuids == old(pool.uuids)
      ensures name !in old(feedNameToUuid) ==>
                && r.Ok? && fresh(r.value)
                && r.value.name == name && r.value.subscriptions == map[]
                && r.value.id !in old(pool.uuids) && pool.uuids == old(pool.uuids) + {r.value.id}
                && feedNameToUuid == old(feedNameToUuid)[name := r.value.id]
                && feeds == old(feeds)[r.value.id := r.value]
    {
      if name in feedNameToUuid {
        return Err("feed " + name + " exists");
      }
      var id := pool.NewUuid(draws);
      feedNameToUuid := feedNameToUuid[name := id];
      var f := new Feed(name, id);
      feeds := feeds[id := f];
      r := Ok(f);
    }

    /** `GetFeed`: fails exactly for an unknown id. */
    function GetFeed(id: Uuid): (r: Result<Feed>)
      reads this
      ensures r.Ok? <==> id in feeds
      ensures r.Ok? ==> r.value == feeds[id]
      ensures NamesConsistent() && r.Ok? ==> r.value.id == id
    {
      if id !in feeds then Err("feed " + id + " does not exists") else Ok(feeds[id])
    }

    /** `GetFeedFromName`: fails exactly for an unregistered name; otherwise the feed of that name. */
    function GetFeedFromName(name: string): (r: Result<Feed>)
      reads this
      requires NamesConsistent()
      ensures r.Ok? <==> name in feedNameToUuid
      ensures r.Ok? ==> r.value.name == name && r.value in feeds.Values
    {
      if name !in feedNameToUuid then Err("feed " + name + " does not exists")
      else Ok(feeds[feedNameToUuid[name]])
    }
  }

  /** The subscription registry (Go's `subscriptions`). */
  class SubscriptionRegistry {
    const pool: UuidPool
    var subscriptions: map<Uuid, Subscription>

    ghost predicate Valid()
      reads this, pool
    {
      (forall id :: id in subscriptions ==> subscriptions[id].id == id) && subscriptions.Keys <= pool.uuids
    }

    constructor (pool: UuidPool)
      ensures Valid() && this.pool == pool && subscriptions == map[]
    {
      this.pool := pool;
      subscriptions := map[];
    }

    /** `NewSubscription`: a fresh id, no feeds, no handler, registered under its id. */
    method NewSubscription(draws: seq<seq<nat>>) returns (c: Subscription)
      requires Valid() && AreDraws(draws) && HasFreshCandidate(draws, pool.uuids)
      modifies this, pool
      ensures Valid() && fresh(c)
      ensures c.id !in old(pool.uuids) && pool.uuids == old(pool.uuids) + {c.id} && IsUuid(c.id)
      ensures c.feeds == map[] && !c.handlerIsSet && !c.listening
      ensures subscriptions == old(subscriptions)[c.id := c]
    {
      var id := pool.NewUuid(draws);
      c := new Subscription(id);
      subscriptions := subscriptions[c.id := c];
    }

    /** `GetSubscription`: fails exactly for an unknown id. */
    function GetSubscription(id: Uuid): (r: Result<Subscription>)
      reads this
      ensures r.Ok? <==> id in subscriptions
      ensures r.Ok? ==> r.value == subscriptions[id]
      ensures Valid() && r.Ok? ==> r.value.id == id
    {
      if id !in subscriptions then Err("connection " + id + " does not exists") else Ok(subscriptions[id])
    }
  }
}
