# lp — a verified model of a long-poll broadcast library

`lp` is a small Go library for long-poll publish/subscribe over HTTP. A server keeps named
**feeds**; clients create a **subscription** to one or more feeds, then park a *listen* request
that is answered with the events published meanwhile, with a timeout reply, or with an abort
when a newer listen request for the same subscription arrives. A client SDK builds the
subscribe and listen URLs and classifies the replies.

This project models the in-memory bookkeeping of that library in Dafny and proves what its code
promises. It covers:

- the feed registry (`feeds`, `feedNameToUUID`) and the two-sided feed/subscription membership;
- the subscription registry;
- event publication: the no-subscriber guard, the append-only event log and the fan-out
  recorded as the set of subscription ids notified;
- identifier generation (a retry loop until the id is unused);
- the state names;
- the decision logic of the four HTTP handlers on a parsed query;
- the response envelopes;
- the client's URL building and reply classification.

Channels, goroutines, locks, HTTP and JSON are abstracted away (see "Left out").

Layout, one module per Go file. `feed.go` and `subscription.go` share one module because Feed
and Subscription refer to each other.

| file | module | models |
|---|---|---|
| `wrappers.dfy` | `Wrappers` | `Option` and `Result` for the error paths |
| `state.dfy` | `States` | `state.go` |
| `uuid.dfy` | `Ids` | `uuid.go`; the global `uuids` set is the class `UuidPool` |
| `registry.dfy` | `Registry` | `feed.go` and `subscription.go`; package globals become `FeedRegistry` and `SubscriptionRegistry` |
| `event.dfy` | `Events` | `event.go`; the globals `events` and `parserFunction` become `EventList` and `EventParser` |
| `resthelper.dfy` | `RestHelper` | `resthelper.go`; a response is a status plus the record that would be marshalled |
| `decimal.dfy` | `Decimal` | `strconv.Itoa` and `strconv.Atoi` on Go's 64-bit `int` |
| `query.dfy` | `Query` | `URL.Query()` on queries without percent-escapes, `+` or `;` |
| `handlers.dfy` | `Handlers` | `handlers.go` |
| `sdk.dfy` | `Sdk` | `sdk.go`, and the client/server round trips |

Randomness is a parameter. `newUUID` draws characters from a random source. Here the caller
passes the successive rounds of draws, as sequences of indices into the charset. The
precondition `HasFreshCandidate` says that some round spells an unused id, which is exactly
when the Go retry loop stops. The creation time of an event is also a parameter. How a parked
listen request ends (`Ready`, `Abort`, timer `Expired`, or any other signal) is a parameter of
`ListenHandler`.

`NewEvent` (event.go:50-52) refuses to publish to a feed with no subscribers, with the error
"no subscribers, this event will be lost"; `Events.NewEvent` and `Handlers.NotifyEvent` model
that refusal.

The subscribe handler replies as the code writes it, with the id under `ConnectionID`
(handlers.go:70-77); the client cannot read that reply (see "Findings"). The reply with the id
under `SubscriptionID` is kept beside it as the corrected definition.

Go keeps a single `uuids` set for feeds, subscriptions and events alike. The handlers that use
more than one registry require those registries to share one `UuidPool`. The subscribe handler
also requires that every feed's subscribers carry ids from that pool
(`Handlers.SubscribersDrawn`), which holds because subscriptions are only created with pool ids;
it keeps that invariant.

`Subscription` carries a `listening` flag. `handlers.go` reads and writes this flag, although
the `Subscription` struct in `subscription.go` does not declare it.

## Model

| member | source | states |
|---|---|---|
| States.String | state.go:13-27 | the name differs from "Unknown" exactly for the five constants 1..5; every other value maps to "Unknown" |
| States.StateNamesDistinct | state.go:5-27 | two different constants never share a name |
| Ids.DrawCandidate | uuid.go:20-27 | the buffer filled position by position is the id spelled by that round of draws, 32 characters from the 62-character charset |
| Ids.UuidPool.constructor | uuid.go:12-14 | no id has been handed out |
| Ids.UuidPool.NewUuid | uuid.go:16-34 | the returned id was not in `uuids` before; afterwards `uuids` is the old set plus that id; it is well formed (32 characters from the charset) and is one of the candidates drawn |
| Ids.NewUuidTwice | uuid.go:16-34 | two successive calls return distinct ids, both new, and the pool grows by exactly those two |
| Registry.Feed.constructor | feed.go:38-40 | a feed has the given name and id and no subscribers |
| Registry.Feed.AddSubscription | feed.go:68-77 | if the subscription id is present: the error "connection <id> already subscribed feed <name>" and the map is unchanged; otherwise no error and exactly `c.id ↦ c` is added |
| Registry.Feed.RemoveSubscription | feed.go:80-86 | never fails; afterwards `c.id` is absent and every other entry is kept; removing an absent id changes nothing (idempotent) |
| Registry.Feed.String | feed.go:88-90 | the text is the feed's name, then `( F:`, then its id, then a closing `)`, five characters longer than name and id together, so both can be read back |
| Registry.FeedStringsDistinct | feed.go:88-90 | two feeds whose ids have the same length (as issued ids do) but differ print differently |
| Registry.Subscription.constructor | subscription.go:29-33 | a subscription has the given id, no feeds, no handler and is not listening |
| Registry.Subscription.Subscribe | subscription.go:67-74 | when the feed refuses, its error is returned and neither map changes; otherwise both sides record the membership; in both cases the subscription is on the feed afterwards |
| Registry.Subscription.Unsubscribe | subscription.go:77-84 | always returns no error and drops the membership on both sides, leaving every other entry |
| Registry.Subscription.String | subscription.go:86-88 | the text is `C:` and everything after it is the id |
| Registry.SubscriptionStringsDistinct | subscription.go:86-88 | subscriptions with different ids print differently |
| Registry.SubscribeThenUnsubscribe | subscription.go:67-84 | subscribing to a feed not yet subscribed and then unsubscribing restores both membership maps |
| Registry.FeedRegistry.constructor | feed.go:13-16 | both registry maps start empty and consistent |
| Registry.FeedRegistry.NewFeed | feed.go:27-43 | a registered name yields "feed <name> exists" and changes nothing; otherwise a fresh feed with a new id, that name and no subscribers is stored under its id, and its name maps to that id; the name/id correspondence is preserved in both cases |
| Registry.FeedRegistry.GetFeed | feed.go:46-53 | fails exactly for an id not in `feeds`, otherwise returns `feeds[id]`, which carries that id |
| Registry.FeedRegistry.GetFeedFromName | feed.go:56-65 | fails exactly for an unregistered name, otherwise returns a registered feed with that name |
| Registry.SubscriptionRegistry.constructor | subscription.go:12-14 | the registry starts empty |
| Registry.SubscriptionRegistry.NewSubscription | subscription.go:27-36 | a fresh, well-formed id; no feeds; no handler set; registered under its id, other entries unchanged |
| Registry.SubscriptionRegistry.GetSubscription | subscription.go:39-48 | fails exactly for an id not in `subscriptions`, otherwise returns the subscription with that id |
| Events.ToJSON | event.go:84-99 | the exported record holds the feed's name, the creation time and the payload |
| Events.ToJSONIgnoresId | event.go:84-99 | the export does not reveal the event's id: events differing only in id export alike |
| Events.EventList.constructor | event.go:33-34 | the log starts empty |
| Events.EventList.Append | event.go:76-81 | the log is the old log with the event added at the end |
| Events.EventParser.constructor | event.go:35-37 | before registration, every body is refused with "Parser function not registered" |
| Events.EventParser.RegisterEventParser | event.go:41-43 | the registered function replaces the parser |
| Events.FanOut | event.go:66-69 | the notified ids are exactly the subscriber ids, each once |
| Events.NewEvent | event.go:46-72 | no subscribers: the error "no subscribers, this event will be lost", the log and the id pool unchanged, nobody notified; otherwise an event with a fresh id, the given feed, time and payload is appended at the end of the log and every subscriber is notified exactly once |
| RestHelper.SendError | resthelper.go:31-35 | status `code` with an error record carrying the same code and the message |
| RestHelper.SendOK | resthelper.go:44-50 | status 200, no error, message "OK" |
| RestHelper.SendTimeout | resthelper.go:60-66 | status 408, error flag set, message "timeout" |
| RestHelper.SendEvents | resthelper.go:76-87 | status 200, no error, one record per event with its time and payload, same length and order |
| RestHelper.SendResponse | resthelper.go:98-101 | status 200 with the given record unchanged |
| Sdk.OkReplyIsEmptyDelivery | resthelper.go:44-50 | the server's OK reply reads on the client as an empty delivery, not as a timeout |
| Decimal.Atoi | handlers.go:234 | a value is only read from a non-empty text and always lies in the range of Go's 64-bit `int` |
| Decimal.Itoa | sdk.go:166 | the decimal text of a number is non-empty, starts with `-` exactly for a negative number, and otherwise consists of digits |
| Decimal.ItoaAtoiRoundTrip | sdk.go:75 | for every 64-bit `int`, reading back the text `Itoa` writes gives the same number |
| Query.AddSegment | handlers.go:203 | one query segment only adds: keys already present keep their values as a prefix, and a key it introduces has a value |
| Query.ParseIntoExtends | handlers.go:203 | parsing the rest of a query only adds: every key already collected keeps its values as a prefix of its final values |
| Query.ParseIntoNonEmpty | handlers.go:203 | parsing never produces a key without a value, so `ok` from a lookup always comes with at least one value |
| Query.ParseQuery | handlers.go:203 | a query with an undecoded character (`%`, `+`, `;`) has no value; otherwise the map has at least one value for every key |
| Query.AddAllAppends | handlers.go:203 | values collected one at a time under a key are appended, in order, to those already there |
| Query.ParsePair | handlers.go:203 | a leading `key=value&` adds the value under the key and parsing continues after the `&` |
| Query.ParseLastPair | handlers.go:203 | a final `key=value` adds the value under the key |
| Handlers.ExtractFeeds | handlers.go:198-212 | all `feed` values in order, and none when the key is absent; the length check is redundant |
| Handlers.ExtractSubscription | handlers.go:214-226 | the first `subscriptionID` value when the key has at least one value, otherwise the empty id |
| Handlers.ExtractTimeout | handlers.go:228-239 | a non-zero result means exactly one `timeout` value that parses to it; exactly one value that parses is returned as parsed; anything else gives 0 |
| Handlers.ListenTimeout | handlers.go:110-113 | the wait is never 0: 30 seconds when the extracted value is 0, otherwise that value, negatives included |
| Handlers.Resolved | handlers.go:183-196 | the resolved feeds are registered feeds, no more of them than names asked for |
| Handlers.ResolvedNames | handlers.go:183-196 | the resolved feeds carry exactly the registered names of the request, in request order; unknown names are dropped |
| Handlers.GetFeeds | handlers.go:183-196 | the append loop returns exactly the resolved feeds |
| Handlers.CreateFeedResponse | handlers.go:18-41 | 400 exactly when the request names no feed or more than one; 500 exactly when the single name is already registered; 200 exactly when it is new |
| Handlers.CreateFeed | handlers.go:18-41 | the reply is that decision; on 200 the requested name maps to a new id that was not in the pool, the pool grows by exactly that id, and a fresh feed with that name, that id and no subscribers is stored under it, all other entries unchanged; on any other status both maps and the pool are unchanged |
| Handlers.SubscribeReplyAsWritten | handlers.go:70-77 | the reply the code writes: the feed names, and the id under the key `ConnectionID` |
| Handlers.SubscribeReply | handlers.go:70-77 | the corrected reply: the feed names, and the id under the key `SubscriptionID` |
| Handlers.Joined | feed.go:68-77 | a feed's subscribers after a subscribe: the subscription's id is present, the map gains no other key, an existing entry is kept and a new one is that subscription |
| Handlers.SubscribeAll | handlers.go:60-62 | each feed's subscribers become `Joined` of its old subscribers (repeated feeds included); the subscription's feed keys grow by exactly the ids of the feeds that did not already hold it, and every entry is either an old one kept or one of the given feeds stored under its own id; its own flags are unchanged |
| Handlers.RegisteredIdsIdentify | feed.go:39-41 | a consistent registry stores each feed under its own id, so two registered feeds with the same id are the same feed |
| Handlers.SubscribeNew | handlers.go:57-62 | a fresh subscription with a new pool id, registered under it, whose feed keys are exactly the ids of the given feeds, each stored under its id when ids identify the feeds, with no handler and not listening; each feed's subscribers gain exactly that subscription |
| Handlers.CollectNames | handlers.go:64-68 | the names of the feeds, in order |
| Handlers.SubscribeHandler | handlers.go:44-80 | no resolved feed: 400 "missing valid feed(s)" and nothing changes; otherwise a new subscription with a fresh id is registered, the id pool grows by exactly that id, its feeds are exactly the resolved feeds, each under its id, it has no handler and is not listening, each resolved feed's subscribers gain exactly that subscription, every other registered feed keeps its subscribers, every feed's subscribers stay drawn from the pool, and the reply is the as-written one: the resolved names in order and that id under `ConnectionID` |
| Handlers.NotifyEventResponse | handlers.go:152-181 | 400 exactly when the request resolves to no feed or to more than one; 500 exactly when the one feed has no subscribers; otherwise 200 |
| Handlers.NotifyEvent | handlers.go:152-181 | the reply is that decision; only on 200 is an event with payload `{1, 2}` and a fresh id appended to the log, the id pool grown by exactly that id, and every subscriber of the feed notified once; otherwise the log and the pool are unchanged |
| Handlers.ListenHandler | handlers.go:83-149 | unknown subscription: 403 "not valid subscriptionID"; otherwise an abort is sent exactly when a request was already listening, the flag is set, the Ready and Expired outcomes clear it while Abort keeps it, the reply is the events, "ABORTED" (500) or the timeout reply, and the wait is `ListenTimeout` of the extracted timeout |
| Sdk.WithDefaults | sdk.go:31-49 | an empty protocol becomes "http", an empty host "localhost", port 0 becomes 8080 and timeout 0 becomes 30; other values and the feeds pass through |
| Sdk.GetServerUrl | sdk.go:161-167 | the URL is the protocol, `://`, the host, `:` and the port's decimal text, each at its position |
| Sdk.FeedQuery | sdk.go:52-55 | the feed query is empty exactly when no feed is configured; otherwise it starts with `feed=` and ends with `&` |
| Sdk.ListenQuery | sdk.go:75 | the listen query is `subscriptionID=`, the id, `&timeout=` and the timeout's decimal text, each at its position |
| Sdk.DecodeSubscriptionId | sdk.go:118-123 | a body with the id under `SubscriptionID` decodes to that id; any non-empty result comes from such a body |
| Sdk.DecodeListen | sdk.go:141-150 | fields the body does not carry decode to their zero values: the error flag of every record, the message of an error or status record, and only an events record yields events |
| Sdk.FeedQuerySnoc | sdk.go:52-55 | one more feed adds `feed=<name>&` at the end of the feed query |
| Sdk.Connect | sdk.go:31-75 | the subscribe URL is the server URL, `/subscribe?` and the in-order feed query; the listen URL is the server URL, `/listen?` and the listen query for the id and the defaulted timeout |
| Sdk.GetEvents | sdk.go:152-158 | a timeout exactly when the error flag is set and the message is "timeout", and then with no events; otherwise the reply's events |
| Sdk.GetSubscriptionId | sdk.go:124-127 | an error exactly for the empty id, otherwise that id |
| Sdk.TimeoutReplyIsTimeout | resthelper.go:60-66 | the server's timeout reply reads as a timeout with no events on the client |
| Sdk.EventsReplyDelivers | resthelper.go:76-87 | the server's events reply reads as those events, in order, and not as a timeout |
| Sdk.ErrorReplyIsEmptyDelivery | sdk.go:152-158 | an error reply with any other message reads as an empty delivery, not as a timeout |
| Sdk.SubscribeReplyAsWrittenLosesId | sdk.go:118-126 | for every body the subscribe handler sends, the client reports "server did not return SubscriptionID" |
| Sdk.SubscribeReplyRoundTrip | sdk.go:118-127 | with the id under `SubscriptionID` in the body sent, the client reads back exactly the id the server issued |
| Sdk.FeedQueryPlain | sdk.go:52-55 | the feed query has no character the query parser would decode, when the names have none |
| Sdk.FeedQueryParse | sdk.go:52-55 | parsing the feed query collects the names under `feed`, in order |
| Sdk.SubscribeQueryRoundTrip | handlers.go:198-212 | for names with no `%`, `+`, `;`, `&`, `#`, space or control character, the feeds the client puts in its subscribe query are, in order, the names the server extracts |
| Sdk.ListenQueryPlain | sdk.go:75 | the listen query has no character the query parser would decode, when the id and timeout have none |
| Sdk.ListenQueryParse | sdk.go:75 | parsing the listen query yields exactly one `subscriptionID` and one `timeout` value |
| Sdk.ListenQueryRoundTrip | handlers.go:214-239 | for an id with no `%`, `+`, `;`, `&`, `#`, space or control character (issued ids are alphanumeric), the subscription id and the timeout the client writes are those the server extracts |
| Sdk.ServerWaitsClientTimeout | handlers.go:110-113 | a listen request built by `Connect` makes the server wait exactly the client's (defaulted) timeout |
| Sdk.ServerUrlPort | sdk.go:161-167 | the server URL ends in `:` followed by the port's decimal text, which reads back as the port |

## Left out

- Channels, goroutines and `select` are not modelled: the `SetHandler` abort handshake, the race between the signal and the timer in `ListenHandler`, `go s.NotifyEvent(ev)` and `go subscription.CheckForEvents()`. The way a listen request ends is an input, and the fan-out is the set of ids notified.
- `subscription.signal`, `GetEvents` and `CheckForEvents` are used by `ListenHandler`, and `Subscription.NotifyEvent` by `NewEvent` (event.go:68); none of them is defined in `subscription.go`, whose struct has `channel` and `handlerIsSet` instead. The events a `Ready` wake hands over are an input; no pending-event queue is modelled.
- `SetHandler` and the `handler`/`channel` fields are not modelled; only the `handlerIsSet` flag is kept.
- All `sync.Mutex` locking: the model is sequential.
- HTTP and JSON are not modelled:
  - responses are a status plus the record that would be marshalled;
  - client decoding is field matching by key;
  - the retry of `SendError` on a marshal failure and `sendInternalError`'s recovery from a panic are left out;
  - JSON fidelity of payloads is left out: the notify payload `{x, y}` has unexported fields and would marshal as `{}`;
  - every body is written with `fmt.Fprintf(w, json)` (resthelper.go:40, 56, 72, 94, 106), so a `%` in the JSON text is read as a format verb and the bytes sent differ from the record (a feed named `a%b` in a reply or error message, a payload string `50%off`). The model takes the body to be the record as marshalled; the client-side reply lemmas (`Sdk.TimeoutReplyIsTimeout`, `Sdk.EventsReplyDelivers` and the others over reply bodies) hold only for bodies whose JSON text has no `%`.
- Logging (`Log`, `LogRequest`, `sdk.log`) is not modelled.
- `time.Now().UTC()` and `time.After` become a timestamp parameter and the `Expired` outcome.
- `seededRand` is replaced by caller-supplied rounds of draws. Ids.UuidPool.NewUuid requires that some round spells an unused id. The Go loop would spin forever otherwise, and the model does not describe that case.
- `uuid.String` is the identity and has no member: ids are plain strings here.
- On a duplicate name `NewFeed` returns a blank `Feed` alongside its error. `GetFeedFromName` does the same for an unknown name. The model returns only the error.
- The network loop of `Connect` (sdk.go:77-92) and the HTTP calls in `getSubscriptionID`/`getEvents` are left out. `Connect` is modelled up to building the two URLs, with the id returned by the server as a parameter.
- `URL.Query()` is modelled only for queries without `%`, `+` or `;`. `ParseQuery` yields no value for other queries.
- Splitting a URL into path, query and fragment at `?` and `#` is not modelled, nor is the rejection of spaces and control characters in a URL: the round trips take the query text as the client writes it, and assume ids and names without `%`, `+`, `;`, `&`, `#`, space, control character or DEL (`Query.QuerySafe`).
- The feed and subscription registries can be built over different `UuidPool`s; only the handlers that use both require one shared pool.
- `strconv.Atoi`/`Itoa` are modelled for Go's 64-bit `int`. Overflow of `time.Duration(timeout) * time.Second` is not modelled.
- Handlers.SubscribeAll: states that each new entry of the subscription's feed map is one of the given feeds stored under its own id, not which one when two distinct feed objects share an id (the later one wins). Handlers.SubscribeNew and Handlers.SubscribeHandler state the exact entries, because registered feeds never share an id.

## Findings

| source | as written | input that shows it | evidently intended | confidence | as-written member | corrected member |
|---|---|---|---|---|---|---|
| handlers.go:70-77 | the subscribe reply carries the new id in a field named `ConnectionID`, but the client (sdk.go:118-126) decodes a record whose only field is `SubscriptionID` | any successful subscribe, e.g. a request naming one registered feed: the client decodes an empty id and reports "server did not return SubscriptionID" | the reply carries the id under `SubscriptionID`, so the client gets the id the server issued | not executed | Handlers.SubscribeReplyAsWritten, Sdk.SubscribeReplyAsWrittenLosesId | Handlers.SubscribeReply, Sdk.SubscribeReplyRoundTrip |
