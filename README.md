# kryten-userstats query publisher, modelled in Dafny

This project models `StatsPublisher` from `userstats/nats_publisher.py`. That class is the NATS side of the user-statistics service. It connects to NATS and subscribes one handler per query kind on the subjects `userstats.query.{domain}.{query_type}`. Each handler answers a decoded request with `{"success": True, "data": …}` or `{"error": msg}`. `disconnect` unsubscribes everything, then drains and closes the client; it marks the publisher disconnected only when both of those succeed.

The model has two parts, and each one takes the form of the code it models.

- **Subscription bookkeeping** (`publisher.dfy`, module `Publisher`) is a class `StatsPublisher` whose fields match the source:
  - `nats` (a client or none), `connected` and `subscriptions`;
  - `domain` and `config`, which never change;
  - a ghost `trace` of the calls made on the NATS library.

  The application reference is not a field. The handlers read `self.app._running`, `self.app.db` and `self.app.activity_tracker` afresh for every message, so `Serve` takes the application's state at that moment as a parameter, as it takes the database.

  `Connect`, `Disconnect`, `Subscribe` (`_subscribe`), `PublishResponse` (`_publish_response`) and `Serve` (one handler invocation) are methods with `modifies` clauses. The two loops, over the subscriptions `connect` makes and the ones `disconnect` releases, are the methods `SubscribeEach` and `UnsubscribeEach`, with their loop invariants. The class invariant `Valid()` has three parts:
  - a client is held exactly while connected;
  - there are no subscriptions while disconnected;
  - the subscriptions are always a prefix of the sixteen that `connect` makes, in its order.

  Whatever the NATS library does is a parameter of the method that calls it: the result of `nats.connect`, what the k-th `subscribe` call does, and whether `drain` and `close` succeed. A failing `unsubscribe` is only logged, so its outcome changes nothing and is not a parameter.
- **Request handling** (`handlers.dfy`, module `Handlers`) consists of pure functions, one per `_handle_*` method. Each maps a request body to a `Run`: the database calls the handler made, in order, and the one response it hands to `_publish_response`. The database and the activity tracker are a function `Db` from a call (with its arguments) to what that call returns or raises.

Supporting modules:
- `values.dfy` (`Values`): decoded JSON values, Python truthiness, `dict.get`, and the `AttributeError` text for `.get` on a non-object.
- `queries.dfy` (`Queries`): the sixteen query kinds, their subject suffixes, the subscription order, and `Route`, the inverse of the subject naming.
- `wrappers.dfy` (`Wrappers`): `Option`, and `Attempt`, a call that returns or raises.

Two points of behaviour the model keeps as the code has them:
- There is no single command dispatcher and no `service` or `command` field. There are sixteen subjects, one per query, and routing is by exact subject match. Responses carry only `success` and `data`, or only `error`.
- A `connect` whose subscribe fails is not rolled back. The publisher stays connected with the subscriptions made so far (`PartialConnectScenario`), and a later `connect` does nothing. A `connect` whose `nats.connect` raises changes nothing.

## Model

| member | source | states |
|---|---|---|
| `Values.Truthy` | userstats/nats_publisher.py:149 | `if not username` (and `if not channel`) rejects exactly `None`, `False`, `0`, `""`, `[]` and `{}` |
| `Values.GetOr` | userstats/nats_publisher.py:223 | `request.get(key, default)` yields the stored value whenever the key is present (even `null`) and the default only when it is absent |
| `Values.Get` | userstats/nats_publisher.py:146-147 | `request.get(key)` yields the stored value when the key is present and `None` when it is absent |
| `Values.NoGetError` | userstats/nats_publisher.py:145-146 | a decoded request that is not an object raises on the first `.get`, with Python's text: the quoted type name followed by ` object has no attribute 'get'` |
| `Queries.ParseSuffix` | userstats/nats_publisher.py:57-85 | every suffix it recognises is the suffix of the query kind it returns |
| `Queries.ParseSuffixInverse` | userstats/nats_publisher.py:57-85 | parsing the suffix of a query kind gives back that kind |
| `Queries.SuffixInjective` | userstats/nats_publisher.py:57-85 | no two query kinds share a suffix |
| `Queries.Base` | userstats/nats_publisher.py:55 | the subject base is `userstats.query.` plus the domain plus a dot, and its length is fixed by the domain's |
| `Queries.Route` | userstats/nats_publisher.py:55-85 | a subject routes to a query kind only if it is exactly that kind's subject for the domain |
| `Queries.RouteSubject` | userstats/nats_publisher.py:55-85 | the subject of every query kind routes back to that kind |
| `Queries.SubjectInjective` | userstats/nats_publisher.py:55-85 | within a domain, distinct query kinds are subscribed on distinct subjects |
| `Queries.Position` | userstats/nats_publisher.py:57-85 | every query kind appears in the subscription order |
| `Queries.QueryOrderComplete` | userstats/nats_publisher.py:57-85 | `connect` subscribes sixteen query kinds, each exactly once, and no kind is missing |
| `Handlers.ToDict` | userstats/nats_publisher.py:150-158 | a success response has exactly the keys `success` (True) and `data`; an error response has only `error`; neither has `service` or `command` |
| `Handlers.FromDict` | userstats/nats_publisher.py:150-158 | any dictionary it reads back is the encoding of the response it returns |
| `Handlers.DictRoundTrip` | userstats/nats_publisher.py:150-158 | the two response shapes are told apart: reading back an encoded response gives the response |
| `Handlers.Request` | userstats/nats_publisher.py:145-146 | the request is usable exactly when the body decodes to an object; an undecodable body raises its decoding error; a decoded non-object raises Python's `'<type>' object has no attribute 'get'` |
| `Handlers.Reply` | userstats/nats_publisher.py:153-158 | a returned database result becomes the success data unchanged; a raised failure becomes `{"error": str(e)}` |
| `Handlers.Gather` | userstats/nats_publisher.py:320-327 | the totals are fetched in order; the first call that raises ends the fetch and is the failure; on success every call was made and returned |
| `Handlers.GatherStep` | userstats/nats_publisher.py:320-327 | the totals succeed exactly when the first fetch and all later ones return, and then hold the first key with its value |
| `Handlers.GatherKeys` | userstats/nats_publisher.py:320-327 | successful totals hold exactly the listed keys |
| `Handlers.GatherValues` | userstats/nats_publisher.py:320-327 | in successful totals each key holds what its last call returned |
| `Handlers.HandleUserStats` | userstats/nats_publisher.py:142-158 | no call and `username required` without a truthy `username`; otherwise one `get_user_stats(username, channel)` call whose result or failure is the response |
| `Handlers.HandleUserMessages` | userstats/nats_publisher.py:160-180 | no call and `username required` without a truthy `username`; otherwise one `get_user_message_count(username, channel)` call, answered as `{"username", "message_count"}` or with its failure |
| `Handlers.HandleUserActivity` | userstats/nats_publisher.py:182-198 | no call and `username required` without a truthy `username`; otherwise one `get_user_activity_time(username, channel)` call whose result or failure is the response |
| `Handlers.HandleUserKudos` | userstats/nats_publisher.py:200-216 | no call and `username required` without a truthy `username`; otherwise one `get_user_kudos(username, channel)` call whose result or failure is the response |
| `Handlers.HandleChannelTopUsers` | userstats/nats_publisher.py:218-230 | one `get_top_users_by_messages(channel, limit)` call, `limit` 10 when absent, whose result or failure is the response |
| `Handlers.HandleChannelPopulation` | userstats/nats_publisher.py:232-243 | one `get_latest_population_snapshot(channel)` call whose result or failure is the response |
| `Handlers.HandleChannelMediaHistory` | userstats/nats_publisher.py:245-257 | one `get_recent_media_changes(channel, limit)` call, `limit` 50 when absent, whose result or failure is the response |
| `Handlers.HandleLeaderboardMessages` | userstats/nats_publisher.py:259-271 | one `get_top_users_by_messages(channel, limit)` call, `limit` 10 when absent, whose result or failure is the response |
| `Handlers.HandleLeaderboardKudos` | userstats/nats_publisher.py:273-285 | one `get_top_users_by_kudos(channel, limit)` call, `limit` 10 when absent, whose result or failure is the response |
| `Handlers.HandleLeaderboardEmotes` | userstats/nats_publisher.py:287-299 | one `get_top_emotes(channel, limit)` call, `limit` 10 when absent, whose result or failure is the response |
| `Handlers.HealthReport` | userstats/nats_publisher.py:304-310 | the health dictionary has exactly five keys; `service` is `userstats`; `status` is `healthy` exactly when the app is running and `unhealthy` otherwise; `uptime_seconds` is 0; the two connection flags are reported as they are |
| `Handlers.HandleSystemHealth` | userstats/nats_publisher.py:301-315 | answers the health dictionary as success data without any call |
| `Handlers.CollectStats` | userstats/nats_publisher.py:317-336 | the calls made are a prefix of the totals' calls followed by the session count call (with a tracker); an error is the failure of the last call made |
| `Handlers.HandleSystemStats` | userstats/nats_publisher.py:317-336 | the calls made are a prefix of the six totals' calls in source order, then the session count with a tracker; an error is the failure of the last call made |
| `Handlers.HandleChannelWatermarks` | userstats/nats_publisher.py:338-354 | no call and `channel required` without a truthy `channel`; otherwise one `get_water_marks(channel, domain, days)` call whose result or failure is the response |
| `Handlers.HandleMovieVotes` | userstats/nats_publisher.py:356-372 | no call and `channel required` without a truthy `channel`; otherwise one `get_movie_votes(channel, domain, media_title)` call whose result or failure is the response |
| `Handlers.HandleTimeseriesMessages` | userstats/nats_publisher.py:374-391 | no call and `channel required` without a truthy `channel`; otherwise one `get_time_series_messages(channel, domain, start_time, end_time)` call whose result or failure is the response |
| `Handlers.HandleTimeseriesKudos` | userstats/nats_publisher.py:393-403 | success with an empty list and no call |
| `Handlers.Handle` | userstats/nats_publisher.py:142-403 | every handler but `system.health` and `system.stats` answers an undecodable or non-object request with its error and no database call; no handler but `system.stats` makes more than one call |
| `Handlers.UsernameRequired` | userstats/nats_publisher.py:142-216 | the four user queries call the database exactly when `username` is truthy, with their own method (`get_user_stats`, `get_user_message_count`, `get_user_activity_time`, `get_user_kudos`) and the request's `username` and `channel`; otherwise they answer `username required`; a raised failure becomes the error |
| `Handlers.UserPayload` | userstats/nats_publisher.py:172-176 | user stats, activity and kudos answer with the database result itself; `user.messages` answers `{"username", "message_count"}` |
| `Handlers.UserMessagesIgnoresLimit` | userstats/nats_publisher.py:160-176 | `user.messages` reads `limit` (default 100) but never forwards it: its presence or value changes nothing |
| `Handlers.ChannelRequired` | userstats/nats_publisher.py:338-391 | watermarks, movie votes and message time series call the database exactly when `channel` is truthy, with the publisher's domain; otherwise they answer `channel required` |
| `Handlers.ChannelQueryArguments` | userstats/nats_publisher.py:343-386 | `days`, `media_title`, `start_time` and `end_time` reach the database as given, `None` when absent |
| `Handlers.LimitDefaults` | userstats/nats_publisher.py:218-299 | top users and the leaderboards make their own one call (`get_top_users_by_messages`, `get_recent_media_changes`, `get_top_users_by_kudos`, `get_top_emotes`) with the request's channel and `limit`, which defaults to 10, or 50 for media history, only when the key is absent; its result is the response |
| `Handlers.TopUsersIsMessageLeaderboard` | userstats/nats_publisher.py:218-271 | `channel.top_users` and `leaderboard.messages` behave identically |
| `Handlers.PopulationArguments` | userstats/nats_publisher.py:232-243 | `channel.population` needs no field and makes one call with the request's channel |
| `Handlers.TimeseriesKudosEmpty` | userstats/nats_publisher.py:393-403 | the kudos time series answers success with an empty list and calls nothing |
| `Handlers.SystemQueriesIgnoreBody` | userstats/nats_publisher.py:301-336 | `system.health` and `system.stats` never decode their request |
| `Handlers.HealthReflectsState` | userstats/nats_publisher.py:301-315 | the health report always succeeds without a call; `status` is `healthy` exactly when the app is running; `uptime_seconds` is 0; `nats_connected` equals the publisher's flag |
| `Handlers.TotalsKeysDistinct` | userstats/nats_publisher.py:320-327 | the six total keys are distinct |
| `Handlers.ActiveSessionsNotATotal` | userstats/nats_publisher.py:320-330 | `active_sessions` is not one of the six totals |
| `Handlers.SystemStatsCalls` | userstats/nats_publisher.py:317-336 | every call `system.stats` makes before its last one returned |
| `Handlers.SystemStatsSucceeds` | userstats/nats_publisher.py:317-336 | `system.stats` succeeds exactly when it made every call it needs and none raised |
| `Handlers.StatsDataShape` | userstats/nats_publisher.py:320-332 | successful stats data is the totals dictionary, with `active_sessions` set to the tracker's returned count exactly when a tracker exists |
| `Handlers.SystemStatsKeys` | userstats/nats_publisher.py:320-332 | successful stats data holds exactly the total keys, plus `active_sessions` exactly when a tracker exists |
| `Handlers.SystemStatsValues` | userstats/nats_publisher.py:320-332 | for distinct total keys other than `active_sessions` (as `TotalsKeysDistinct` and `ActiveSessionsNotATotal` show the six are), successful stats hold every total as its call returned it, and the session count when a tracker exists |
| `Handlers.SystemStatsTotals` | userstats/nats_publisher.py:317-336 | a successful `system.stats` answer holds each of the six totals as its call returned it, and `active_sessions` as the tracker returned it when there is one |
| `Publisher.DialFor` | userstats/nats_publisher.py:43-48 | `nats.connect` gets the configured servers (default `nats://localhost:4222`), user, password and token |
| `Publisher.Bindings` | userstats/nats_publisher.py:55-85 | sixteen subscriptions, the k-th binding the k-th query kind to its own subject |
| `Publisher.BindingsWellFormed` | userstats/nats_publisher.py:55-85 | every subject is `userstats.query.{domain}.` plus its handler's suffix; every query kind is bound; no two bindings share a subject or a handler |
| `Publisher.DeliverStep` | userstats/nats_publisher.py:118-124 | adding one more subscription of `connect` adds its handler to a message's deliveries exactly when the message's subject is that subscription's |
| `Publisher.DeliverNamed` | userstats/nats_publisher.py:58-85 | with the first n subscriptions in place, a message on a query kind's subject reaches that one handler if it is already subscribed, and none otherwise |
| `Publisher.DeliverForeign` | userstats/nats_publisher.py:58-85 | a message on a subject that names no query kind of the domain reaches no handler |
| `Publisher.DeliverBindings` | userstats/nats_publisher.py:58-85 | with the first n subscriptions in place, a message reaches exactly the subscribed handler its subject routes to, and nothing else |
| `Publisher.AtMostOneHandler` | userstats/nats_publisher.py:118-124 | in every reachable state a message is handled at most once, and only by the handler its subject names |
| `Publisher.FullyConnectedRouting` | userstats/nats_publisher.py:58-85 | after a complete connect each subject of the domain reaches its one handler, and any other subject reaches none |
| `Publisher.Granted` | userstats/nats_publisher.py:89-91 | counts the subscribe calls that succeed in a row; the first failing call, if any, is the one that stops `connect` |
| `Publisher.StatsPublisher.constructor` | userstats/nats_publisher.py:19-34 | a new publisher has no client, is not connected and has no subscriptions |
| `Publisher.StatsPublisher.Subscribe` | userstats/nats_publisher.py:118-125 | without a client it raises `NATS client not connected` and changes nothing; otherwise it appends exactly the granted subscription at the end, or re-raises the client's failure |
| `Publisher.StatsPublisher.SubscribeEach` | userstats/nats_publisher.py:58-85 | subscribes the bindings in order and stops at the first failure, keeping those made before it |
| `Publisher.StatsPublisher.Connect` | userstats/nats_publisher.py:36-91 | a no-op when connected; a dial failure is raised with nothing changed; otherwise the publisher is connected with the client, and holds all sixteen subscriptions or, after a subscribe failure that is re-raised, those made before it |
| `Publisher.StatsPublisher.UnsubscribeEach` | userstats/nats_publisher.py:99-103 | unsubscribes every held subscription once, in order, whatever each call does, and touches nothing but the trace |
| `Publisher.StatsPublisher.Disconnect` | userstats/nats_publisher.py:93-116 | a no-op unless connected with a client; otherwise every subscription is unsubscribed whatever each call does, and the list is emptied; only when drain and close succeed is the publisher disconnected without a client; nothing is raised |
| `Publisher.StatsPublisher.PublishResponse` | userstats/nats_publisher.py:127-138 | publishes the response dictionary on the reply subject exactly when a client is held |
| `Publisher.StatsPublisher.Serve` | userstats/nats_publisher.py:142-158 | one message runs its handler with the publisher's domain and connection flag and the application's state when the message arrives, and publishes exactly its one response |

## Left out

- The NATS library is not modelled. Its calls (`nats.connect`, `subscribe`, `unsubscribe`, `drain`, `close`, `publish`) are network I/O, so their outcomes are method parameters and the calls are recorded in a ghost trace.
- The library's subject wildcards (`*`, `>`) are not modelled, so delivery is by exact subject match. A domain containing a wildcard character would subscribe more widely than modelled.
- JSON encoding and decoding and UTF-8 are not modelled. A request body is already decoded, or carries the text of its decoding error.
- `json.dumps` failing on a database result that is not JSON-serialisable is not modelled. Database results are decoded JSON values here, and such a failure would only be logged by `_publish_response`.
- Floating-point JSON numbers are not modelled: `Values.Value` has no float, so `0.0` as a falsy `username` or `channel` is not covered.
- The except path of `_handle_system_health` (lines 313-315) is not modelled. It is taken only when reading the application's attributes raises, and the model's application state is plain values that cannot raise, so `system.health` always succeeds here.
- The database (`self.app.db`) and `activity_tracker` are foreign collaborators. They are the function `Db` from calls to results, and their results are passed through unchanged.
- Logging, asyncio scheduling and the concurrent delivery of messages are left out. Each handler run is modelled on its own, and handlers share no mutable state besides the publisher fields they read.
- `Publisher.StatsPublisher.Connect` models the sixteen explicit `await self._subscribe(...)` calls (lines 58-85) as a loop over the subscription table, in the same order. The effect on state and on the client is the same.
- `query_cli.py` and `examples/query_example.py` are a command-line client and a demonstration. They are not part of this model.
