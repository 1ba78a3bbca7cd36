# Sandbox-aware task admission, modelled in Dafny

Signadot's examples run a workload twice: once as the baseline, and once
or more as a sandbox (a workload with a non-empty sandbox name). Each copy
asks a route server for the routing keys that belong to sandboxes. It then
decides, task by task or message by message, whether to handle it:

- a sandbox takes exactly the keys it was given;
- the baseline takes every other key.

The rule is implemented three times. This project models all three and
proves what each promises:

- **Temporal tutorial worker** (`temporal-tutorial/temporal_worker/routing.py`, `interceptors.py`):
  - a routing-key cache with a freshness test, a double-checked refresh, and replace-on-success / keep-on-failure updates;
  - the parse of a routing-rules body into a key set;
  - the admission rule;
  - the extraction of `sd-routing-key=` from the baggage carried in activity headers;
  - the workflow and activity gates, which either raise without calling the next interceptor or return its result unchanged.
- **Older Temporal platform worker** (`temporal/platform/route_server.py`, `interceptors.py`):
  - a key set replaced by each pull that does not raise;
  - the same admission rule;
  - gates that reject with a non-retryable `ApplicationError`.
- **Pub/Sub and Kafka demos**:
  - the pull router (`pullrouter.js`), whose cached JavaScript `Set` is absent before the first load;
  - the consumer-group and subscription naming, and the create-or-reuse decision (`pubsub.js`);
  - the event log both demos keep in Redis (`events.js`): events are stored under `event-<id>` for 30 seconds, and a cursor-based collector scans them in batches, keeps ids greater than the cursor, tracks the largest id, and sorts by timestamp.
  - The Kafka copy of the collector restarts its accumulators on every batch.

The files are:

- `wire.dfy` holds Option, Result, decoded JSON and HTTP replies.
- `text.dfy` holds decimal numerals, split/join, Python's `strip` and the last path segment.
- `route_query.dfy` holds the routing-rules query shared by all clients.
- `tasks.dfy` holds the baggage lookup and gate outcomes shared by the Temporal workers.
- One module per core file:
  - `tutorial_routing.dfy`, `tutorial_interceptors.dfy`;
  - `platform_route_server.dfy`, `platform_interceptors.dfy`;
  - `pubsub_pullrouter.dfy`, `pubsub_subscription.dfy`;
  - `redis_events.dfy`, which holds what both collectors share;
  - `pubsub_events.dfy`, `kafka_events.dfy`.
- `agreement.dfy` holds the cross-implementation lemmas.

Modelling choices:

- **Stateful parts are classes.** The tutorial cache, the platform client and the Pub/Sub router are classes whose methods update their fields.
- **The loops the source has are `for`/`while` loops** with invariants:
  - the rule parse;
  - the `Set` building;
  - the pull loop;
  - the per-batch `forEach`;
  - the Pub/Sub scan.
- **Kafka's collector is a method that calls itself**, as the source does.
- **Each method is proved against a specification function**, whose properties are proved as lemmas.
- **HTTP, JSON decoding and Redis replies are inputs.** A request is given its reply (`HttpReply`, `ScanReply`).
- **Clocks are inputs.** A clock reading is an `int` parameter.

## Model

| member | source | states |
|---|---|---|
| TutorialRouting.RoutesApiClient.constructor | temporal-tutorial/temporal_worker/routing.py:16-30 | the scheme defaults to "http"; the cache starts empty with no update done, last update time 0 and the event clear |
| TutorialRouting.RoutesApiClient.BuildRoutesUrl | temporal-tutorial/temporal_worker/routing.py:32-49 | the path is /api/v1/workloads/routing-rules; the three baseline parameters come first and read back as configured; destinationSandboxName is present iff the sandbox name is non-empty (3 or 4 parameters) |
| TutorialRouting.PyStr | temporal-tutorial/temporal_worker/routing.py:62 | str() of a string key is the string itself, and of an integer key its decimal numeral |
| TutorialRouting.RuleKey | temporal-tutorial/temporal_worker/routing.py:61-62 | a rule contributes a key iff it is a dict whose routingKey is present and not None |
| TutorialRouting.KeysOfRules | temporal-tutorial/temporal_worker/routing.py:58-62 | a key is in the set iff some rule contributes it |
| TutorialRouting.RulesOf | temporal-tutorial/temporal_worker/routing.py:59 | the rules are the routingRules list of a dict body, and none for a body that is not a dict |
| TutorialRouting.RoutingKeysOf | temporal-tutorial/temporal_worker/routing.py:57-62 | the keys of a 200 body are exactly those contributed by its rules |
| TutorialRouting.WrongShapeGivesNoKeys | temporal-tutorial/temporal_worker/routing.py:58-59 | a body without a routingRules list yields the empty set |
| TutorialRouting.RoutesApiClient.ShouldProcess | temporal-tutorial/temporal_worker/routing.py:109-131 | a sandbox accepts iff the key is present and cached; the baseline accepts iff it is absent or not cached |
| TutorialRouting.RoutesApiClient.PerformFetchAndUpdate | temporal-tutorial/temporal_worker/routing.py:51-74 | on status 200 with a decodable body the cache becomes exactly the parsed keys, the update time becomes now and the first update is done; on any other status or failure none of the three fields changes |
| TutorialRouting.RoutesApiClient.EnsureCacheFresh | temporal-tutorial/temporal_worker/routing.py:76-94 | no fetch unless the cache is stale, both before and after taking the lock; a caller finding the lock held changes nothing; the cache changes only through a successful fetch whose reply was handled, including one cancelled afterwards in the `async with` exits; a cancellation before the reply is handled changes nothing; the lock holder leaves the event set even when its fetch is cancelled |
| TutorialRouting.AbsentKeyGoesToBaseline | temporal-tutorial/temporal_worker/routing.py:114-126 | a sandbox rejects a task without a key and the baseline accepts it |
| TutorialRouting.SandboxAndBaselineComplementary | temporal-tutorial/temporal_worker/routing.py:113-131 | over the same cache a sandbox and the baseline decide oppositely on every present key |
| TutorialRouting.FreshClientFavorsBaseline | temporal-tutorial/temporal_worker/routing.py:109-131 | with the initial empty cache the baseline takes every task and a sandbox none |
| TutorialRouting.RecheckAgreesWithoutInterleaving | temporal-tutorial/temporal_worker/routing.py:77-87 | with a clock that does not go back and no refresh in between, the re-check under the lock agrees with the first check |
| TutorialRouting.RefreshTwice | temporal-tutorial/temporal_worker/routing.py:76-94 | a stale cache is fetched once; a second call within the refresh interval after a successful fetch fetches nothing and keeps the fetched keys |
| TutorialInterceptors.FirstRoutingIndex | temporal-tutorial/temporal_worker/interceptors.py:76-78 | the search stops at the first matching item; no earlier item matches |
| TutorialInterceptors.FirstRoutingValue | temporal-tutorial/temporal_worker/interceptors.py:76-78 | no value iff no item matches; otherwise the text after the first '=' of the first matching item |
| TutorialInterceptors.RoutingKeyOfBaggage | temporal-tutorial/temporal_worker/interceptors.py:75-81 | the key is the value of the first matching comma-separated item, or "" when none matches |
| TutorialInterceptors.ExtractRoutingKeyFromHeaders | temporal-tutorial/temporal_worker/interceptors.py:68-81 | a missing header, bytes that are not a JSON object, or a missing or non-string baggage all give "", never an exception; otherwise the baggage's key |
| TutorialInterceptors.RoutingItemValue | temporal-tutorial/temporal_worker/interceptors.py:77-78 | an item of leading whitespace, the prefix and a value matches and yields exactly that value, trailing text included |
| TutorialInterceptors.FirstRoutingItemWins | temporal-tutorial/temporal_worker/interceptors.py:76-78 | with two routing items in the baggage, the earlier one's value is returned |
| TutorialInterceptors.WorkerIdent | temporal-tutorial/temporal_worker/interceptors.py:30 | the identity is "sandbox=<name or baseline> task_queue=<queue>" |
| TutorialInterceptors.ExecuteWorkflow | temporal-tutorial/temporal_worker/interceptors.py:41-55 | the task is delegated iff there is no routing client or the client accepts the baggage key ("" when absent); a delegated task returns next's result unchanged; a rejection raises "Workflow/Worker cannot handle routing key: <key> - Worker: <ident>" |
| TutorialInterceptors.ExecuteActivity | temporal-tutorial/temporal_worker/interceptors.py:83-97 | the same decision on the key extracted from the headers, with the "Activity/Worker ..." message |
| TutorialInterceptors.MalformedHeadersActAsEmptyKey | temporal-tutorial/temporal_worker/interceptors.py:68-97 | an activity without usable baggage is judged as key "": the baseline runs it unless "" is cached, and a sandbox only if it is |
| Tasks.BaggageRoutingKey | temporal/platform/interceptors.py:15 | the key is the sd-routing-key baggage entry, or "" when it is absent |
| RouteQuery.QueryNamesSandboxOnlyForSandbox | selective-consumption-with-google-pub-sub/src/modules/routesapi-mq-client/pullrouter.js:9-16 | the server reads back exactly the three baseline parameters, and destinationSandboxName iff the sandbox name is non-empty |
| RouteQuery.Lookup | selective-consumption-with-google-pub-sub/src/modules/routesapi-mq-client/pullrouter.js:9-22 | a parameter is found iff present, and its value is the one held by the first parameter with that name |
| PlatformRouteServer.RouteServerClient.constructor | temporal/platform/route_server.py:9-16 | the configuration is kept and the key set starts empty |
| PlatformRouteServer.RouteServerClient.PullUrl | temporal/platform/route_server.py:19-26 | plain http to the configured address and the routing-rules path; the three baseline parameters first, in order, with the configured values; destinationSandboxName iff the sandbox name is non-empty (3 or 4 parameters) |
| PlatformRouteServer.RuleKeyOf | temporal/platform/route_server.py:30-31 | a rule yields its routingKey iff it is an object holding one that a set can hold |
| PlatformRouteServer.KeysOfRuleList | temporal/platform/route_server.py:29-32 | the comprehension succeeds iff every rule yields a key, and then holds exactly those keys |
| PlatformRouteServer.KeysOfBody | temporal/platform/route_server.py:29-32 | a body that is not an object raises; a missing routingRules gives the empty set; a list of rules gives their keys |
| PlatformRouteServer.KeysOfReply | temporal/platform/route_server.py:27-32 | a transport error or a body that is not JSON raises; otherwise the body's keys |
| PlatformRouteServer.StatusIsIgnored | temporal/platform/route_server.py:28-32 | the pulled keys do not depend on the status code |
| PlatformRouteServer.RuleWithoutKeyFailsPull | temporal/platform/route_server.py:30-34 | one rule without routingKey makes the whole pull raise |
| PlatformRouteServer.Await | temporal/platform/route_server.py:28 | awaiting succeeds iff the call is awaitable, and then yields its reply; awaiting a plain Response fails |
| PlatformRouteServer.KeysOfCall | temporal/platform/route_server.py:28-34 | a pull through a plain Response always raises; through an awaitable it yields the reply's keys |
| PlatformRouteServer.RouteServerClient.PullVia | temporal/platform/route_server.py:27-34 | the keys are replaced by the pulled ones, or left as they were when the pull raises |
| PlatformRouteServer.RouteServerClient.PullRoutesAsWritten | temporal/platform/route_server.py:18-34 | as written, a pull never changes the keys |
| PlatformRouteServer.RouteServerClient.PullRoutes | temporal/platform/route_server.py:18-34 | as intended, a pull replaces the keys when it does not raise and keeps them when it does |
| PlatformRouteServer.RouteServerClient.Run | temporal/platform/route_server.py:36-40 | after a sequence of pulls the keys are the fold of replace-or-keep over them |
| PlatformRouteServer.SyncCalls | temporal/platform/route_server.py:28 | every pull as written hands a plain Response to await |
| PlatformRouteServer.AwaitableCalls | temporal/platform/route_server.py:28 | every pull as intended goes through an awaitable GET |
| PlatformRouteServer.SyncPullsNeverChangeKeys | temporal/platform/route_server.py:27-34 | as written, no sequence of server replies ever changes the keys |
| PlatformRouteServer.LastGoodPullWins | temporal/platform/route_server.py:27-40 | as intended, the keys after a sequence of pulls are those of the last pull that did not raise |
| PlatformRouteServer.AsWrittenSandboxNeverAccepts | temporal/platform/route_server.py:27-44 | as written, a sandbox worker rejects every key however many pulls it makes |
| PlatformRouteServer.AwaitingSyncResponseLosesRules | temporal/platform/route_server.py:28-32 | a reply listing "r1" gives {"r1"} to the intended pull and raises in the pull as written |
| PlatformRouteServer.RouteServerClient.ShouldProcess | temporal/platform/route_server.py:42-45 | a sandbox accepts iff the key was pulled; the baseline iff it was not |
| PlatformRouteServer.FreshClientFavorsBaseline | temporal/platform/route_server.py:9-45 | before any pull the baseline accepts every key and a sandbox none |
| PlatformRouteServer.SandboxAndBaselineComplementary | temporal/platform/route_server.py:42-45 | over the same keys a sandbox and the baseline decide oppositely |
| PlatformInterceptors.ExecuteWorkflow | temporal/platform/interceptors.py:14-18 | delegated iff the router accepts the baggage key; next's result unchanged; a rejection raises ApplicationError("routing key rejected", non-retryable) |
| PlatformInterceptors.ExecuteActivity | temporal/platform/interceptors.py:28-32 | the same for activities |
| PlatformInterceptors.GatesAgree | temporal/platform/interceptors.py:14-32 | with the same baggage a workflow and an activity are admitted or rejected together |
| PlatformInterceptors.MissingKeyActsAsEmptyKey | temporal/platform/interceptors.py:15-16 | a task without the baggage entry is judged as key "" |
| PlatformInterceptors.AsWrittenSandboxRejectsAll | temporal/platform/interceptors.py:16-18 | with the key set left empty, a sandbox rejects every workflow and the baseline runs every one |
| PubSubPullRouter.PullRouter.constructor | selective-consumption-with-google-pub-sub/src/modules/routesapi-mq-client/pullrouter.js:1-26 | the configuration is kept and the cache holds no key set |
| PubSubPullRouter.PullRouter.RouteServerUrl | selective-consumption-with-google-pub-sub/src/modules/routesapi-mq-client/pullrouter.js:9-22 | http to the route server and the routing-rules path; the three baseline parameters first, in order, with the configured values; destinationSandboxName iff the sandbox name is non-empty (3 or 4 parameters) |
| PubSubPullRouter.RoutingKeyProperty | selective-consumption-with-google-pub-sub/src/modules/routesapi-mq-client/pullrouter.js:55 | `.routingKey` of a value is its member when it is an object holding one, and undefined otherwise |
| PubSubPullRouter.ForInValues | selective-consumption-with-google-pub-sub/src/modules/routesapi-mq-client/pullrouter.js:54-55 | for-in visits an array's elements, an object's member values, a string's characters, and nothing in a null, number or boolean |
| PubSubPullRouter.KeysOfRules | selective-consumption-with-google-pub-sub/src/modules/routesapi-mq-client/pullrouter.js:52-56 | the loop throws iff it visits a null rule; otherwise the Set holds exactly the routingKey properties of the visited rules |
| PubSubPullRouter.KeysOfBody | selective-consumption-with-google-pub-sub/src/modules/routesapi-mq-client/pullrouter.js:51-57 | a null body throws; a body without routingRules gives the empty Set; otherwise the rules' keys |
| PubSubPullRouter.NoKeysAreFiltered | selective-consumption-with-google-pub-sub/src/modules/routesapi-mq-client/pullrouter.js:52-56 | a rule without routingKey adds undefined, and a null routingKey adds null |
| PubSubPullRouter.PullRouter.GetRoutes | selective-consumption-with-google-pub-sub/src/modules/routesapi-mq-client/pullrouter.js:38-73 | the cache is overwritten with the parsed Set only when the body was read in full and the keys were logged; a request error, a body that is not JSON, a throw while reading or a key whose string conversion throws in `join` keeps it |
| PubSubPullRouter.PrimitiveKeysAreLogged | selective-consumption-with-google-pub-sub/src/modules/routesapi-mq-client/pullrouter.js:60 | keys that are strings, numbers, booleans, null or undefined never make the log line throw |
| PubSubPullRouter.ToStringMemberBlocksLoad | selective-consumption-with-google-pub-sub/src/modules/routesapi-mq-client/pullrouter.js:52-64 | a routingKey object with a `toString` member enters the Set, but logging it throws, so the load stores nothing |
| PubSubPullRouter.PullRouter.ShouldProcess | selective-consumption-with-google-pub-sub/src/modules/routesapi-mq-client/pullrouter.js:76-85 | a sandbox throws without a loaded Set and otherwise accepts iff the key is in it; the baseline accepts iff no Set is loaded or the key is not in it |
| PubSubPullRouter.UnloadedCache | selective-consumption-with-google-pub-sub/src/modules/routesapi-mq-client/pullrouter.js:77-84 | before the first load the baseline accepts every message and a sandbox throws on every one |
| PubSubPullRouter.SandboxAndBaselineComplementary | selective-consumption-with-google-pub-sub/src/modules/routesapi-mq-client/pullrouter.js:76-85 | with the same loaded Set a sandbox and the baseline decide oppositely on every key |
| PubSubSubscription.SignadotConsumerGroup | selective-consumption-with-google-pub-sub/src/modules/pubsub/pubsub.js:7-13 | an empty sandbox name returns the argument; otherwise exactly argument + "-" + name, so the argument is always a prefix |
| PubSubSubscription.SubscriptionsAreDistinct | selective-consumption-with-google-pub-sub/src/modules/pubsub/pubsub.js:3-35 | the subscription is the consumer group of "pubsub-grp"; distinct sandbox names, the baseline's included, never share a subscription |
| PubSubSubscription.SubscriptionExists | selective-consumption-with-google-pub-sub/src/modules/pubsub/pubsub.js:48 | found iff some listed name's last '/'-separated segment equals the subscription name |
| PubSubSubscription.FullPathIsFound | selective-consumption-with-google-pub-sub/src/modules/pubsub/pubsub.js:48 | a subscription listed under its full resource path is found by its short name |
| PubSubSubscription.InitializeSubscription | selective-consumption-with-google-pub-sub/src/modules/pubsub/pubsub.js:34-73 | creation is attempted iff the listing succeeded and no listed subscription has the name; otherwise an existing one is reused; a failed listing or create leaves nothing to listen to |
| Text.LastSegment | selective-consumption-with-google-pub-sub/src/modules/pubsub/pubsub.js:48 | `split('/').pop()` is the text after the last '/', or the whole name without one |
| Text.Split | temporal-tutorial/temporal_worker/interceptors.py:76 | at least one part, none holding the separator, and joining the parts gives back the text |
| Text.Strip | temporal-tutorial/temporal_worker/interceptors.py:77 | the result is a slice of the input with only Python whitespace before and after it, and it neither starts nor ends with whitespace: exactly the leading and trailing whitespace is removed |
| RedisEvents.EventKey | selective-consumption-with-google-pub-sub/src/modules/events/events.js:27 | the key is "event-" followed by a decimal numeral that reads back as the id |
| RedisEvents.EventKeyInjective | selective-consumption-with-kafka/src/modules/events/events.js:23 | distinct ids are stored under distinct keys |
| RedisEvents.StoreEvent | selective-consumption-with-google-pub-sub/src/modules/events/events.js:25-52 | a failed INCR reports "couldn't generate event ID" and writes nothing; otherwise SETEX of {id, body} under the id's key for 30 seconds, reporting "couldn't store event in redis" iff it fails |
| RedisEvents.StoredRecordIsScannable | selective-consumption-with-kafka/src/modules/events/events.js:21-36 | what a store writes matches the scan pattern, names the stored id and carries the event |
| RedisEvents.EmptyBatchSkipsMget | selective-consumption-with-google-pub-sub/src/modules/events/events.js:83-110 | an empty batch goes straight to the cursor check: the MGET reply makes no difference |
| RedisEvents.BatchValuesInOrder | selective-consumption-with-google-pub-sub/src/modules/events/events.js:92-93 | a batch whose values all parse holds one record per key, in key order |
| RedisEvents.KeptMembers | selective-consumption-with-google-pub-sub/src/modules/events/events.js:94-96 | exactly the records whose id exceeds the cursor are kept |
| RedisEvents.MaxIdIsMaximum | selective-consumption-with-google-pub-sub/src/modules/events/events.js:56-99 | the running maximum is at least its start and every id, and equals its start or one of the ids |
| RedisEvents.CollectBatch | selective-consumption-with-google-pub-sub/src/modules/events/events.js:92-101 | the loop throws iff some value of the batch is missing or nil; otherwise it appends the kept events in order and raises lastEventID to the maximum of the kept ids |
| RedisEvents.ScanCallback | selective-consumption-with-google-pub-sub/src/modules/events/events.js:73-110 | a failed SCAN or MGET reports its error; a throw while reading ends the call; otherwise the batch is collected and its cursor passed on |
| RedisEvents.NewerEvents | selective-consumption-with-kafka/src/modules/events/events.js:72-81 | the collected events are exactly those of records newer than the cursor, and lastEventID is the largest of their ids or 0 |
| RedisEvents.SortByTimestampIsStableSort | selective-consumption-with-google-pub-sub/src/modules/events/events.js:68 | the sort yields timestamp order, the same multiset of events, and events with equal timestamps in their original order |
| RedisEvents.ScanTrace | selective-consumption-with-kafka/src/modules/events/events.js:50-100 | one request per reply consumed plus the pending one, the first with the given cursor, pattern and count |
| RedisEvents.ScanTraceFollowsCursors | selective-consumption-with-kafka/src/modules/events/events.js:84-100 | every later SCAN starts from the previous reply's cursor with "event-*" and 10, and only a cursor other than "0" is followed by another SCAN |
| PubSubEvents.RegisterEvent | selective-consumption-with-google-pub-sub/src/modules/events/events.js:5-40 | the stored record carries the message, its routing key, the sandbox name and the time under the INCR id; the store succeeds iff SETEX does |
| PubSubEvents.CollectReadsEveryBatch | selective-consumption-with-google-pub-sub/src/modules/events/events.js:55-100 | a completed collection is the result over the records of every batch read, earlier batches included |
| PubSubEvents.CompletedCollection | selective-consumption-with-google-pub-sub/src/modules/events/events.js:54-115 | onSuccess receives every event newer than the cursor from every batch and only those, in timestamp order, with lastEventID their largest id or 0 |
| PubSubEvents.EarlierBatchCounts | selective-consumption-with-google-pub-sub/src/modules/events/events.js:55-100 | an event in a batch that continues the scan is still reported, and bounds lastEventID |
| PubSubEvents.GetEvents | selective-consumption-with-google-pub-sub/src/modules/events/events.js:54-115 | the outcome is the specified collection over the replies, and the SCAN requests are the scan trace from the given cursor |
| KafkaEvents.StoredEventsHaveNoRoutingKey | selective-consumption-with-kafka/src/modules/events/events.js:5-36 | every stored event has routing key "" and carries the sandbox name and the time under its id |
| KafkaEvents.ContinuedBatchIsDropped | selective-consumption-with-kafka/src/modules/events/events.js:51-100 | a batch that continues the scan has no bearing on the outcome |
| KafkaEvents.CompletedCollectionIsLastBatch | selective-consumption-with-kafka/src/modules/events/events.js:50-106 | a completed collection reports the kept events of the batch with cursor "0" alone, in scan order, with their largest id; every batch before it continued |
| KafkaEvents.GetEvents | selective-consumption-with-kafka/src/modules/events/events.js:50-106 | the outcome is the specified collection; the first SCAN uses the given pattern and count and later ones the defaults |
| Agreement.WellFormedRulesAgree | temporal/platform/route_server.py:29-32 | on rules that all carry a string key, the tutorial, platform and Pub/Sub parsers load the same keys, and the Pub/Sub router can log them, so its load stores them |
| Agreement.SameRulesSameDecision | selective-consumption-with-google-pub-sub/src/modules/routesapi-mq-client/pullrouter.js:76-85 | three workers in the same role that loaded the same well-formed rules decide alike on every present key |
| Agreement.RuleWithoutKeyDiverges | selective-consumption-with-google-pub-sub/src/modules/routesapi-mq-client/pullrouter.js:54-56 | a rule without routingKey is skipped by the tutorial, fails the platform pull, and loads undefined into the Pub/Sub Set |
| Agreement.PubSubReportsBothBatches | selective-consumption-with-google-pub-sub/src/modules/events/events.js:55-70 | on two batches of one newer event each, Pub/Sub reports both events in timestamp order and the larger id |
| Agreement.KafkaReportsLastBatchOnly | selective-consumption-with-kafka/src/modules/events/events.js:84-91 | on the same two batches, Kafka reports only the second batch's event |

## Left out

- Concurrency is not modelled. That covers the asyncio lock and the event waits in `_ensure_cache_fresh`, the periodic loops (`_periodic_cache_updater`, `run`, `setInterval`), and the task cancellation in the worker start-up. A held lock is an input meaning "this caller does not fetch"; an event cleared and set by the lock holder is visible only to concurrent waiters, which are not modelled.
- HTTP, JSON decoding, URL encoding and the Redis commands are foreign calls. Requests are given their decoded replies, and a URL is kept before encoding.
- The OpenTelemetry baggage API and `baggage.js` wrap library code; a workflow's baggage is a map.
- TutorialRouting.PyStr: `str()` of a list or dict routing key is rendered by a fixed marker, not Python's repr.
- PlatformRouteServer.KeysOfRuleList: Python's set treats `1` and `True` (and `0` and `False`) as one element, but `set<Json>` keeps `JInt(1)` and `JBool(true)` apart. Decisions are unaffected, since `ShouldProcess` looks up a string key, which equals neither.
- JSON numbers are integers only. Fractional and exponent numbers are not modelled, for example a routingKey 1.5, for which the tutorial's `str()` gives "1.5".
- Timestamps are integers in milliseconds. The Pub/Sub comparator's `new Date(...)` parse is not modelled.
- The events cursor arrives as a query string and `id <= cursor` converts it. The model takes the converted number, with None for a missing or non-numeric cursor (against which every event is kept). Fractional cursors are not modelled.
- KafkaEvents.GetEvents: the sort is modelled as leaving the order unchanged. Its comparator subtracts two timestamp strings, which gives NaN. ECMAScript treats NaN from a comparator as +0, so the stable sort reorders nothing.
- The JavaScript `Set` is modelled by value: two objects with equal members count as one key. JavaScript compares objects by identity.
- The node-cache copy of the stored `Set` is not modelled.
- An uncaught throw inside a JavaScript callback is modelled as the outcome `Threw`, or as a cache left unchanged. What the process then does is not modelled.
- PubSubSubscription.InitializeSubscription: the topic step only logs and is not modelled. The creation options and the message and error listeners are not modelled either.
- `publishMessages`, `registerEvent` callers, `setKeys` and `getKeys` are not part of the admission logic and are not modelled.
- TutorialRouting.RoutesApiClient.EnsureCacheFresh: the monotonic clock is an `int` parameter, not Python's float seconds.

## Findings

| source | as written | input that shows it | evidently intended | confidence | as-written member | corrected member |
|---|---|---|---|---|---|---|
| temporal/platform/route_server.py:28 | `await httpx.get(...)` awaits the Response of httpx's synchronous `get`. That raises TypeError, the exception is logged, and the routing keys stay empty forever. | any reply, e.g. a 200 body `{"routingRules":[{"routingKey":"r1"}]}` | an awaitable GET (an async client), so the pulled keys replace the old ones | high, not executed | PlatformRouteServer.RouteServerClient.PullRoutesAsWritten, PlatformRouteServer.SyncPullsNeverChangeKeys, PlatformRouteServer.AwaitingSyncResponseLosesRules | PlatformRouteServer.RouteServerClient.PullRoutes, PlatformRouteServer.LastGoodPullWins |
| selective-consumption-with-kafka/src/modules/events/events.js:85 | each recursive call starts with fresh `events` and `lastEventID`, so only the last scan batch reaches onSuccess | two SCAN batches, cursor "17" then "0", each with one event newer than the cursor | accumulate across batches, as the Pub/Sub copy does with closure accumulators | high, not executed | KafkaEvents.GetEvents, KafkaEvents.ContinuedBatchIsDropped, Agreement.KafkaReportsLastBatchOnly | PubSubEvents.GetEvents, PubSubEvents.EarlierBatchCounts, Agreement.PubSubReportsBothBatches |
