/**
 * The client SDK: default connection parameters, the subscribe and listen URLs, and how a
 * decoded reply is classified. Also the round trips between what the client writes and what
 * the server reads.
 */
module Sdk {
  import opened Wrappers
  import opened Decimal
  import opened Query
  import opened Events
  import opened RestHelper
  import opened Handlers

  /** The user-facing connection parameters of `SDK`. */
  datatype Config = Config(protocol: string, host: string, port: int, feeds: seq<string>, timeout: int)

  /** `getServerURL`: `protocol://host:port`. */
  function GetServerUrl(protocol: string, host: string, port: int): (u: string)
    ensures |u| == |protocol| + |host| + 4 + |Itoa(port)|
    ensures u[..|protocol|] == protocol && u[|protocol|..|protocol| + 3] == "://"
    ensures u[|protocol| + 3..|protocol| + 3 + |host|] == host
    ensures var n := |Itoa(port)|; n < |u| && u[|u| - n - 1] == ':' && u[|u| - n..] == Itoa(port)
  {
    protocol + "://" + host + ":" + Itoa(port)
  }

  /** The parameters `Connect` uses: each unset (zero) value replaced by its default, the rest kept. */
  function WithDefaults(cfg: Config): (d: Config)
    ensures d.protocol == (if cfg.protocol == "" then "http" else cfg.protocol)
    ensures d.host == (if cfg.host == "" then "localhost" else cfg.host)
    ensures d.port == (if cfg.port == 0 then 8080 else cfg.port)
    ensures d.timeout == (if cfg.timeout == 0 then 30 else cfg.timeout)
    ensures d.feeds == cfg.feeds
    ensures d.protocol != "" && d.host != "" && d.port != 0 && d.timeout != 0
  {
    Config(if cfg.protocol == "" then "http" else cfg.protocol,
           if cfg.host == "" then "localhost" else cfg.host,
           if cfg.port == 0 then 8080 else cfg.port,
           cfg.feeds,
           if cfg.timeout == 0 then 30 else cfg.timeout)
  }

  /** The subscribe query: `feed=<name>&` for each feed, in order. */
  function FeedQuery(names: seq<string>): (r: string)
    ensures r == "" <==> names == []
    ensures r != "" ==> |r| > 5 && r[..5] == "feed=" && r[|r| - 1] == '&'
  {
    if names == [] then "" else "feed=" + names[0] + "&" + FeedQuery(names[1..])
  }

  /** The listen query: the subscription id and the timeout in seconds. */
  function ListenQuery(id: string, timeout: int): (r: string)
    ensures |r| == 24 + |id| + |Itoa(timeout)|
    ensures r[..15] == "subscriptionID=" && r[15..15 + |id|] == id
    ensures r[15 + |id|..24 + |id|] == "&timeout=" && r[24 + |id|..] == Itoa(timeout)
  {
    "subscriptionID=" + id + "&timeout=" + Itoa(timeout)
  }

  lemma {:induction false} FeedQuerySnoc(names: seq<string>, name: string)
    ensures FeedQuery(names + [name]) == FeedQuery(names) + "feed=" + name + "&"
  {
    if names != [] {
      assert (names + [name])[1..] == names[1..] + [name];
      FeedQuerySnoc(names[1..], name);
    }
  }

  /**
   * The URL-building part of `Connect`: fill in the defaults, build the feed query with a loop,
   * then the subscribe URL and, for the id the server returned, the listen URL.
   */
  method Connect(cfg: Config, subscriptionId: string) returns (subscribeUrl: string, listenUrl: string)
    ensures var d := WithDefaults(cfg);
            subscribeUrl == GetServerUrl(d.protocol, d.host, d.port) + "/subscribe?" + FeedQuery(cfg.feeds)
    ensures var d := WithDefaults(cfg);
            listenUrl == GetServerUrl(d.protocol, d.host, d.port) + "/listen?" + ListenQuery(subscriptionId, d.timeout)
  {
    var protocol := cfg.protocol;
    if protocol == "" {
      protocol := "http";
    }
    var host := cfg.host;
    if host == "" {
      host := "localhost";
    }
    var port := cfg.port;
    if port == 0 {
      port := 8080;
    }
    var timeout := cfg.timeout;
    if timeout == 0 {
      timeout := 30;
    }
    ghost var d := WithDefaults(cfg);
    assert protocol == d.protocol && host == d.host && port == d.port && timeout == d.timeout;
    var feeds := "";
    for i := 0 to |cfg.feeds|
      invariant feeds == FeedQuery(cfg.feeds[..i])
    {
      assert FeedQuery(cfg.feeds[..i + 1]) == feeds + "feed=" + cfg.feeds[i] + "&" by {
        assert cfg.feeds[..i + 1] == cfg.feeds[..i] + [cfg.feeds[i]];
        FeedQuerySnoc(cfg.feeds[..i], cfg.feeds[i]);
      }
      feeds := feeds + "feed=" + cfg.feeds[i] + "&";
    }
    assert cfg.feeds[..|cfg.feeds|] == cfg.feeds;
    var serverUrl := GetServerUrl(protocol, host, port);
    subscribeUrl := serverUrl + "/subscribe?" + feeds;
    listenUrl := serverUrl + "/listen?subscriptionID=" + subscriptionId + "&timeout=" + Itoa(timeout);
    ListenUrlShape(serverUrl, subscriptionId, Itoa(timeout));
  }

  /** The listen URL as `Connect` writes it is the server URL, the path and `ListenQuery`. */
  lemma ListenUrlShape(server: string, id: string, t: string)
    ensures server + "/listen?subscriptionID=" + id + "&timeout=" + t ==
            server + "/listen?" + ("subscriptionID=" + id + "&timeout=" + t)
  {
  }

  /** The fields of a listen reply the client decodes; absent fields keep their zero value. */
  datatype ListenReply = ListenReply(error: bool, message: string, events: seq<EventData>)

  /** JSON field matching of a reply body onto the client's listen record. */
  function DecodeListen(b: Body): (r: ListenReply)
    ensures b.FeedsReply? ==> r == ListenReply(false, "", [])
    ensures !b.FeedsReply? ==> r.error == b.error
    ensures !b.EventsData? ==> r.events == []
    ensures b.EventsData? ==> r.events == b.events && r.message == ""
    ensures (b.ErrorResponse? || b.StatusMessage?) ==> r.message == b.message
  {
    match b
    case ErrorResponse(e, _, m) => ListenReply(e, m, [])
    case StatusMessage(e, m) => ListenReply(e, m, [])
    case EventsData(e, evs) => ListenReply(e, "", evs)
    case FeedsReply(_, _, _) => ListenReply(false, "", [])
  }

  /** The client's view of a listen reply: the events, or a timeout. */
  datatype Poll = Poll(events: seq<EventData>, timeout: bool)

  /** The classification in `getEvents`: a timeout never carries events; anything else passes its events on. */
  function GetEvents(reply: ListenReply): (p: Poll)
    ensures p.timeout <==> reply.error && reply.message == "timeout"
    ensures p.timeout ==> p.events == []
    ensures !p.timeout ==> p.events == reply.events
  {
    if reply.error && reply.message == "timeout" then Poll([], true) else Poll(reply.events, false)
  }

  /**
   * JSON field matching of a reply body onto the client's `{SubscriptionID}` record. Keys match
   * regardless of case; `ConnectionID` does not match `SubscriptionID` in any case.
   */
  function DecodeSubscriptionId(b: Body): (id: string)
    ensures b.FeedsReply? && b.idField == SubscriptionID ==> id == b.id
    ensures id != "" ==> b.FeedsReply? && b.idField == SubscriptionID
  {
    match b
    case FeedsReply(_, SubscriptionID, id) => id
    case _ => ""
  }

  /** The check in `getSubscriptionID`: an empty id is an error. */
  function GetSubscriptionId(id: string): (r: Result<string>)
    ensures r.Ok? <==> id != ""
    ensures r.Ok? ==> r.value == id
  {
    if id == "" then Err("server did not return SubscriptionID") else Ok(id)
  }

  /** The server's timeout reply reads as a timeout on the client. */
  lemma TimeoutReplyIsTimeout()
    ensures GetEvents(DecodeListen(SendTimeout().body)) == Poll([], true)
  {
  }

  /** The server's events reply reads as those events, in order, and not as a timeout. */
  lemma EventsReplyDelivers(events: seq<Event>)
    ensures GetEvents(DecodeListen(EventsData(false, EventDataOf(events)))) == Poll(EventDataOf(events), false)
  {
  }

  /** Any error reply other than one with the message "timeout" reads as an empty delivery. */
  lemma ErrorReplyIsEmptyDelivery(code: int, message: string)
    requires message != "timeout"
    ensures GetEvents(DecodeListen(SendError(code, message).body)) == Poll([], false)
  {
  }

  /** The server's OK reply reads as an empty delivery, not as a timeout. */
  lemma OkReplyIsEmptyDelivery()
    ensures GetEvents(DecodeListen(SendOK().body)) == Poll([], false)
  {
  }

  /** As written, the subscribe reply the handler sends puts the id under a key the client never reads. */
  lemma SubscribeReplyAsWrittenLosesId(names: seq<string>, id: string)
    ensures GetSubscriptionId(DecodeSubscriptionId(SendResponse(SubscribeReplyAsWritten(names, id)).body)) ==
            Err("server did not return SubscriptionID")
  {
  }

  /** With the id under `SubscriptionID`, the client reads back the id the server issued. */
  lemma SubscribeReplyRoundTrip(names: seq<string>, id: string)
    requires id != ""
    ensures GetSubscriptionId(DecodeSubscriptionId(SendResponse(SubscribeReply(names, id)).body)) == Ok(id)
  {
  }

  lemma {:induction false} FeedQueryPlain(names: seq<string>)
    requires forall k :: 0 <= k < |names| ==> Plain(names[k])
    ensures Plain(FeedQuery(names))
  {
    if names != [] {
      FeedQueryPlain(names[1..]);
      var s := FeedQuery(names);
      var head := "feed=" + names[0] + "&";
      assert s == head + FeedQuery(names[1..]);
      forall i | 0 <= i < |s| ensures s[i] != '%' && s[i] != '+' && s[i] != ';' {
        if i >= |head| {
          assert s[i] == FeedQuery(names[1..])[i - |head|];
        } else if 5 <= i < 5 + |names[0]| {
          assert s[i] == names[0][i - 5];
        }
      }
    }
  }

  lemma {:induction false} FeedQueryParse(m: Values, names: seq<string>)
    requires forall k :: 0 <= k < |names| ==> Free(names[k], '&')
    ensures ParseInto(m, FeedQuery(names)) == AddAll(m, "feed", names)
    decreases names
  {
    if names != [] {
      var rest := names[1..];
      assert "feed=" == "feed" + "=";
      assert FeedQuery(names) == "feed" + "=" + names[0] + "&" + FeedQuery(rest);
      ParsePair(m, "feed", names[0], FeedQuery(rest));
      FeedQueryParse(Add(m, "feed", names[0]), rest);
    }
  }

  /** The feeds the client asks for in its subscribe query are the names the server extracts. */
  lemma SubscribeQueryRoundTrip(names: seq<string>)
    requires forall k :: 0 <= k < |names| ==> QuerySafe(names[k])
    ensures ParseQuery(FeedQuery(names)).Some?
    ensures ExtractFeeds(ParseQuery(FeedQuery(names)).value) == names
  {
    FeedQueryPlain(names);
    FeedQueryParse(map[], names);
    AddAllAppends(map[], "feed", names);
    var q := ParseInto(map[], FeedQuery(names));
    assert ParseQuery(FeedQuery(names)) == Some(q);
    if names == [] {
      assert q == map[];
    } else {
      var empty: seq<string> := [];
      assert empty + names == names;
      assert q == map["feed" := names];
    }
  }

  /** Neither query key contains a separator. */
  lemma ListenKeysFree()
    ensures Free("subscriptionID", '&') && Free("subscriptionID", '=')
    ensures Free("timeout", '&') && Free("timeout", '=')
  {
  }

  lemma ListenQueryPlain(id: string, t: string)
    requires Plain(id) && Plain(t)
    ensures Plain("subscriptionID=" + id + "&timeout=" + t)
  {
  }

  lemma ListenIdPair(id: string, t: string)
    requires Free(id, '&')
    ensures ParseInto(map[], "subscriptionID=" + id + "&timeout=" + t) ==
            ParseInto(map["subscriptionID" := [id]], "timeout=" + t)
  {
    ListenKeysFree();
    assert "subscriptionID=" + id + "&timeout=" + t == "subscriptionID" + "=" + id + "&" + ("timeout=" + t);
    ParsePair(map[], "subscriptionID", id, "timeout=" + t);
    var empty: seq<string> := [];
    assert empty + [id] == [id];
  }

  lemma ListenTimeoutPair(id: string, t: string)
    requires Free(t, '&')
    ensures ParseInto(map["subscriptionID" := [id]], "timeout=" + t) ==
            map["subscriptionID" := [id], "timeout" := [t]]
  {
    ListenKeysFree();
    assert "timeout=" + t == "timeout" + "=" + t;
    ParseLastPair(map["subscriptionID" := [id]], "timeout", t);
    var empty: seq<string> := [];
    assert empty + [t] == [t];
    assert "subscriptionID"[0] != "timeout"[0];
  }

  lemma ListenQueryParse(id: string, t: string)
    requires Free(id, '&') && Free(t, '&')
    ensures ParseInto(map[], "subscriptionID=" + id + "&timeout=" + t) ==
            map["subscriptionID" := [id], "timeout" := [t]]
  {
    ListenIdPair(id, t);
    ListenTimeoutPair(id, t);
  }

  /** The subscription id and timeout the client puts in its listen query are what the server extracts. */
  lemma ListenQueryRoundTrip(id: string, timeout: int)
    requires QuerySafe(id) && MinInt <= timeout <= MaxInt
    ensures ParseQuery(ListenQuery(id, timeout)).Some?
    ensures ExtractSubscription(ParseQuery(ListenQuery(id, timeout)).value) == id
    ensures ExtractTimeout(ParseQuery(ListenQuery(id, timeout)).value) == timeout
  {
    var t := Itoa(timeout);
    ItoaAtoiRoundTrip(timeout);
    assert Plain(t) && Free(t, '&');
    ListenQueryPlain(id, t);
    ListenQueryParse(id, t);
  }

  /** A listen request built by `Connect` makes the server wait exactly the client's timeout. */
  lemma ServerWaitsClientTimeout(cfg: Config, id: string)
    requires QuerySafe(id) && MinInt <= cfg.timeout <= MaxInt
    ensures var q := ParseQuery(ListenQuery(id, WithDefaults(cfg).timeout));
            q.Some? && ListenTimeout(ExtractTimeout(q.value)) == WithDefaults(cfg).timeout
  {
    ListenQueryRoundTrip(id, WithDefaults(cfg).timeout);
  }

  /** The port of a server URL is read back from the text after its last `:`. */
  lemma ServerUrlPort(protocol: string, host: string, port: int)
    requires MinInt <= port <= MaxInt
    ensures var u := GetServerUrl(protocol, host, port);
            var n := |Itoa(port)|;
            n < |u| && u[|u| - n - 1] == ':' && Atoi(u[|u| - n..]) == Some(port)
  {
    ItoaAtoiRoundTrip(port);
    var u := GetServerUrl(protocol, host, port);
    assert u == (protocol + "://" + host + ":") + Itoa(port);
    assert u[|u| - |Itoa(port)|..] == Itoa(port);
  }
}
