# Telemetry pipeline of the monitoring API

A Dafny model of the telemetry core of the monitoring stack. The API tracks the HTTP requests that reach its
metrics middleware, when they complete, in an in-memory aggregator and announces it to the dashboard's WebSocket subscribers. A webhook accepts
change-data-capture (CDC) events, stores them in the aggregator and broadcasts them too. A separate
consumer reads TiCDC's Canal-JSON records from Kafka and normalises them. Session-guarded routes expose the
aggregator's snapshot and its reset, behind an admin-only login.

The modules follow the source files:

| module | file | form |
|---|---|---|
| `JsValues` (`js_values.dfy`) | the JavaScript semantics the core relies on | values |
| `Metrics` (`metrics.dfy`) | `api/src/monitoring/metrics.js` | class `Aggregator` |
| `Broadcast` (`websocket.dfy`) | `api/src/monitoring/websocket.js` | class `Hub` plus frame functions |
| `Consumer` (`consumer.dfy`) | `cdc-consumer/src/consumer.js` | functions |
| `Middleware` (`middleware.dfy`) | `api/src/middleware/metricsMiddleware.js` | class `Response`, methods |
| `Routes` (`routes.dfy`) | `api/src/routes/monitoring.js` | class `Session`, functions and methods |

`JsValues` covers truthiness (`0`, `""`, `null`, `undefined` and `false` are falsy), property lookup,
`startsWith` and ASCII upper-casing.

Design of the aggregator and the hub:

- **Aggregator fields.** `Aggregator` holds the fields of the `metrics` object and updates them in place.
- **Ghost histories.** Two ghost histories sit beside the fields:
  - `log` holds every request tracked since the last reset, in arrival order;
  - `cdcLog` holds every stored CDC event, newest first.
- **`Valid()`.** This invariant ties every real field to a fold over those histories. Each counter
  property is then proved once, about the fold:
  - the counters equal `Tally(log)`;
  - the window equals `KeepLast(log, 1000)`;
  - the event list equals `KeepFirst(cdcLog, 100)`.
- **Hub abstractions.** `Hub` replaces the transport by parameters:
  - the set of clients whose `readyState` is OPEN when visited;
  - the set of clients whose `send` throws;
  - a per-client inbox of the frames accepted by `send`.

## Model

| member | source | states |
|---|---|---|
| Metrics.Aggregator.TrackRequest | api/src/monitoring/metrics.js:20-59 | Keeps `Valid()`. Appends exactly the record (now, `method path`, responseTime, status) to the request history and leaves the CDC history alone, so every counter, tally and the window are the folds over the history extended by this request. |
| Metrics.Aggregator.CountIn | api/src/monitoring/metrics.js:21-45 | The counting half of `trackRequest`: the counters after the call are the fold of the history extended by the new request. |
| Metrics.Aggregator.RecordTime | api/src/monitoring/metrics.js:48-58 | After the push and the tail slice, the window is the last 1000 entries of the extended history. |
| Metrics.TallyAppend | api/src/monitoring/metrics.js:21-45 | One more request adds exactly 1 to `total`. It adds 1 to `success` iff 200 ≤ status < 300 and 1 to `error` iff status ≥ 400. A missing endpoint entry starts at {0,0,0} and then counts the request. `byStatus[status]` goes up by one. Every other endpoint and status entry keeps its presence and value. |
| Metrics.TallyStep | api/src/monitoring/metrics.js:21-45 | The fold over the request history consumes one request at a time. |
| Metrics.TallyBounds | api/src/monitoring/metrics.js:21-45 | `total` equals the number of requests tracked, and `success + error ≤ total` (1xx and 3xx count in neither). |
| Metrics.EndpointTallyBounded | api/src/monitoring/metrics.js:27-45 | Every endpoint entry has a positive total, and its success plus error is at most its total. |
| Metrics.StatusTallyPositive | api/src/monitoring/metrics.js:33-36 | A status key is present iff some tracked request had that status, and its count is then positive. |
| Metrics.StatusTallySum | api/src/monitoring/metrics.js:21-36 | The `byStatus` values sum to the number of tracked requests. |
| Metrics.EndpointTallySum | api/src/monitoring/metrics.js:21-30 | The endpoint totals sum to the number of tracked requests. |
| Metrics.MapSumRemove | api/src/monitoring/metrics.js:33-36 | The sum of a tally is one entry plus the sum of the rest. |
| Metrics.MapSumUpdate | api/src/monitoring/metrics.js:33-36 | Overwriting one tally entry changes the sum by the difference. |
| Metrics.Totals | api/src/monitoring/metrics.js:27-30 | The per-endpoint totals have the same keys as the endpoint tally. |
| Metrics.Outcome | api/src/monitoring/metrics.js:30-45 | An endpoint entry's total grows by one. Its success grows by one iff 200 ≤ status < 300, its error grows by one iff status ≥ 400, and otherwise both stay. |
| Metrics.EndpointKey | api/src/monitoring/metrics.js:23 | The key is the method, one space, then the path; it is the same key the middleware builds (`api/src/middleware/metricsMiddleware.js:12`). |
| Metrics.CountRequest | api/src/monitoring/metrics.js:27-45 | Definition: a missing endpoint entry starts at {0,0,0}, the endpoint's entry becomes its `Outcome`, every other entry is left alone. |
| Metrics.Bump | api/src/monitoring/metrics.js:33-36 | Definition: a missing status count starts at 0 and the status's count goes up by one. |
| Metrics.Count | api/src/monitoring/metrics.js:21-45 | Definition: one request adds 1 to `total`, 1 to `success` for 2xx and 1 to `error` for ≥ 400, and counts the request in both tallies. |
| Metrics.Tally | api/src/monitoring/metrics.js:21-45 | Definition: the counters of a history are `Count` folded over it, oldest request first, from all zeros. |
| Metrics.KeepLast | api/src/monitoring/metrics.js:56-57 | Definition: a sequence longer than the bound is cut to its last `bound` elements, as `slice(-1000)` does. |
| Metrics.KeepFirst | api/src/monitoring/metrics.js:68-69 | Definition: a sequence longer than the bound is cut to its first `bound` elements, as `slice(0, 100)` and `slice(0, 20)` do. |
| Metrics.EndpointKeyInjective | api/src/monitoring/metrics.js:23 | The `method path` key identifies the method and the path when the method has no space. |
| Metrics.FirstSpace | api/src/monitoring/metrics.js:23 | In such a key the method ends at the first space. |
| Metrics.KeepLastAppend | api/src/monitoring/metrics.js:48-58 | Trimming after every push keeps the same window as trimming once at the end. |
| Metrics.KeepLastShape | api/src/monitoring/metrics.js:48-58 | The window has length min(N, 1000) and holds the last requests in arrival order. |
| Metrics.KeepFirstPrepend | api/src/monitoring/metrics.js:61-71 | Prepending and then truncating keeps the same list as truncating the whole history once. |
| Metrics.Stamped | api/src/monitoring/metrics.js:62-65 | A stored event has the event's own keys plus `timestamp`. The event's own values win, including its own `timestamp`. The generated ISO time is used only when the event has none. |
| Metrics.Aggregator.TrackCDCEvent | api/src/monitoring/metrics.js:61-71 | Keeps `Valid()`. The head of the list is the stamped event. The length is min(old + 1, 100). The rest is the old list's prefix. Every request counter and the window are unchanged. |
| Metrics.Aggregator.GetMetrics | api/src/monitoring/metrics.js:73-89 | Reads without changing anything. It copies the counters, tallies and window. It shows the first min(20, n) events. The average is 0 on an empty window. The success rate is 0 with no requests and always lies in [0, 100]. The average is `AverageTime` of the window and the rate is `SuccessRate(success, total)`, so `AverageTimeBounds` and `SuccessRateBounds` apply to the snapshot. |
| Metrics.AverageTime | api/src/monitoring/metrics.js:75-77 | The average response time is 0 for an empty window. |
| Metrics.AverageTimeBounds | api/src/monitoring/metrics.js:75-82 | The rounded average lies between the smallest and the largest response time. |
| Metrics.IsSuccess | api/src/monitoring/metrics.js:39 | Definition: a status counts as a success iff 200 ≤ status < 300. |
| Metrics.IsError | api/src/monitoring/metrics.js:42 | Definition: a status counts as an error iff it is at least 400; the `else if` changes nothing, since no 2xx status is that large. |
| Metrics.SumTimes | api/src/monitoring/metrics.js:76 | Definition: the sum of the window's `time` fields, as the `reduce` from 0 computes it. |
| Metrics.RoundDiv | api/src/monitoring/metrics.js:82-84 | Definition: `Math.round(p / q)` for q > 0 as the nearest integer to p/q, halves rounded up, in exact arithmetic. |
| Metrics.SumTimesBounds | api/src/monitoring/metrics.js:76 | The sum of the window's times lies between n·min and n·max. |
| Metrics.SuccessRate | api/src/monitoring/metrics.js:83-85 | The success rate is 0 when there were no requests. |
| Metrics.SuccessRateBounds | api/src/monitoring/metrics.js:83-85 | The rate lies in [0, 100]. It is 0 with no successes and 100 when every request succeeded. |
| Metrics.RoundDivBounds | api/src/monitoring/metrics.js:82-85 | Rounding a quotient that lies between two integers stays between them. |
| Metrics.Aggregator.ResetMetrics | api/src/monitoring/metrics.js:91-99 | All counters are 0, both tallies and both buffers are empty, and `Valid()` holds with empty histories. |
| Metrics.Aggregator.constructor | api/src/monitoring/metrics.js:2-12 | The initial `metrics` object has zero counters and empty collections. |
| Metrics.AggregatorInvariants | api/src/monitoring/metrics.js:15-71 | In every valid state the following hold: `success + error ≤ total`; the status counts sum to `total`; the endpoint totals sum to `total`; the same bound holds per endpoint; the buffers hold at most 1000 and at most 100 entries. |
| Metrics.ResetSnapshot | api/src/monitoring/metrics.js:73-99 | After a reset the snapshot is all zeros and empty collections. |
| Broadcast.Hub.constructor | api/src/monitoring/websocket.js:4-5 | There is no server and the client set is empty. |
| Broadcast.Hub.Init | api/src/monitoring/websocket.js:10-14 | After `initWebSocketServer` the server exists. |
| Broadcast.Hub.OnConnection | api/src/monitoring/websocket.js:16-27 | The client joins the set. It alone receives the `connected` frame. `getConnectedClients` grows by one exactly when the client was new. |
| Broadcast.Hub.Disconnect | api/src/monitoring/websocket.js:29-37 | `close` and `error` remove exactly that client. |
| Broadcast.Hub.Broadcast | api/src/monitoring/websocket.js:46-73 | Without a server nothing changes and both counters are 0. Otherwise, after one pass: the set is the old members that were OPEN and whose send succeeded; each of them received the message once and no one else received anything; `sent` is their number and `failed` is the number of OPEN members whose send threw. |
| Broadcast.Hub.Visit | api/src/monitoring/websocket.js:56-67 | An OPEN member whose send succeeds receives the message and stays. An OPEN member whose send throws is deleted. A member that is not OPEN is deleted. |
| Broadcast.PassProperties | api/src/monitoring/websocket.js:52-68 | The survivors are a subset of the members, and membership is decided per member. Survivors and failures are disjoint. `sent + failed` is at most the initial size. A second pass removes nobody. |
| Broadcast.VisitKeeps | api/src/monitoring/websocket.js:56-59 | Visiting an OPEN member whose send succeeds adds it to the survivors so far. |
| Broadcast.VisitFails | api/src/monitoring/websocket.js:60-64 | Visiting an OPEN member whose send throws adds it to the failures so far. |
| Broadcast.VisitSkips | api/src/monitoring/websocket.js:65-67 | Visiting a member that is not OPEN adds it to neither. |
| Broadcast.HandOver | api/src/monitoring/websocket.js:55-68 | Keeping a visited member leaves the live set as it is. |
| Broadcast.DropOne | api/src/monitoring/websocket.js:63-66 | Deleting only the visited member leaves the unvisited members and the survivors so far. |
| Broadcast.InboxAdvance | api/src/monitoring/websocket.js:58 | One more successful send extends the delivered-to set by exactly that member. |
| Broadcast.Hub.BroadcastCdcEvent | api/src/monitoring/websocket.js:78-84 | Broadcasts the `cdc_event` frame that carries the event unchanged. |
| Broadcast.Hub.BroadcastMetricsUpdate | api/src/monitoring/websocket.js:89-95 | Broadcasts the `metrics_update` frame that carries the snapshot unchanged. |
| Broadcast.Hub.BroadcastApiRequest | api/src/monitoring/websocket.js:100-110 | Broadcasts the `api_request` frame whose data is {endpoint, statusCode, responseTime}. |
| Broadcast.Envelope | api/src/monitoring/websocket.js:79-109 | Definition: the `{type, data, timestamp}` object every wrapper sends, with a string `type` and `timestamp`. |
| Broadcast.CdcEventFrame | api/src/monitoring/websocket.js:79-83 | Definition: the envelope of type `cdc_event` whose data is the event. |
| Broadcast.MetricsUpdateFrame | api/src/monitoring/websocket.js:90-94 | Definition: the envelope of type `metrics_update` whose data is the snapshot. |
| Broadcast.ApiRequestFrame | api/src/monitoring/websocket.js:101-109 | Definition: the envelope of type `api_request` whose data is `{endpoint, statusCode, responseTime}`. |
| Broadcast.ConnectedFrame | api/src/monitoring/websocket.js:23-27 | Definition: the greeting object `{type: 'connected', message, timestamp}`. |
| Broadcast.Survivors | api/src/monitoring/websocket.js:55-68 | Definition: the members a pass keeps are those OPEN at their visit whose `send` did not throw. |
| Broadcast.Failures | api/src/monitoring/websocket.js:55-68 | Definition: the failures of a pass are the OPEN members whose `send` threw. |
| Broadcast.ReadFrame | api/src/monitoring/websocket.js:78-110 | A frame that reads back has exactly the reported string `type`, defined `data` and string `timestamp` as properties. |
| Broadcast.EnvelopeRoundTrip | api/src/monitoring/websocket.js:78-110 | Every `{type, data, timestamp}` envelope reads back as what it was built from. |
| Broadcast.WrapperFrames | api/src/monitoring/websocket.js:78-110 | The three wrappers build frames of types `cdc_event`, `metrics_update` and `api_request`. The payloads come back unchanged, and the API frame's fields come back as given. |
| Broadcast.ConnectedFrameShape | api/src/monitoring/websocket.js:23-27 | The greeting has type `connected`, a fixed message and a timestamp, and no `data`. |
| Broadcast.Hub.ConnectedClients | api/src/monitoring/websocket.js:115-117 | The size of the client set, which is 0 exactly when the set is empty. |
| Consumer.ParseCanalMessage | cdc-consumer/src/consumer.js:21-42 | An unparseable payload gives null. An event comes out iff `type`, `database` and `table` are truthy and `type` is a string (otherwise `toUpperCase` throws and the catch gives null). `database` and `table` are copied. `operation` is the upper-cased `type`, is non-empty and has no lower-case letters. The row images are `data[0]`/`old[0]` or null. The timestamp is `ts` or the clock. |
| Consumer.FirstRow | cdc-consumer/src/consumer.js:31-32 | A row image is null or truthy. It is the array's first element when that is truthy. It is null for an empty array and for a falsy field. |
| Consumer.Stamp | cdc-consumer/src/consumer.js:33 | The timestamp is `ts` when truthy, the clock otherwise. |
| Consumer.CanalRoundTrip | cdc-consumer/src/consumer.js:26-34 | Re-encoding a normalised event as a Canal record and parsing it again gives the same event. |
| Consumer.ParseIdempotent | cdc-consumer/src/consumer.js:26-34 | Normalising an already normalised event changes nothing. |
| Consumer.UpperFixesNormalised | cdc-consumer/src/consumer.js:30 | Upper-casing leaves a string without lower-case letters alone. |
| Consumer.ExampleInsertParses | cdc-consumer/src/consumer.js:27-34 | The insert of user 1 with `old: []` and `ts: 1700000000000` gives operation INSERT, the row as `data`, a null `old_data` and that timestamp. |
| Consumer.ExampleKeys | cdc-consumer/src/consumer.js:26 | The example record's `type`, `database` and `table`. |
| Consumer.ExampleImages | cdc-consumer/src/consumer.js:31-33 | The example record's row images and timestamp. |
| Consumer.UpperInsert | cdc-consumer/src/consumer.js:30 | `insert` upper-cases to `INSERT`. |
| Consumer.ZeroTimestampFallsBack | cdc-consumer/src/consumer.js:33 | `ts: 0` is falsy, so the clock is used. |
| Consumer.EmptyOldIsNull | cdc-consumer/src/consumer.js:32 | `old: []` gives a null `old_data`. |
| Consumer.FalsyRowIsNull | cdc-consumer/src/consumer.js:31 | A falsy first row image is dropped in favour of null. |
| Consumer.MissingTableRejected | cdc-consumer/src/consumer.js:26-37 | A record without `table` gives null. |
| Consumer.NullRecordRejected | cdc-consumer/src/consumer.js:22-41 | A `null` payload makes `data.type` throw; the `catch` gives null, the same result as a record without `type`. |
| Consumer.EmptyTypeRejected | cdc-consumer/src/consumer.js:26-37 | An empty `type` string is falsy, so the record gives null. |
| Consumer.NumericTypeRejected | cdc-consumer/src/consumer.js:30-41 | A number as `type` has no `toUpperCase`, so the record gives null. |
| Consumer.UnknownKindForwarded | cdc-consumer/src/consumer.js:30 | An unknown kind such as `truncate` is forwarded as `TRUNCATE`; it is not checked against the three DML kinds. |
| Consumer.UpperTruncate | cdc-consumer/src/consumer.js:30 | `truncate` upper-cases to `TRUNCATE`. |
| Consumer.EachMessage | cdc-consumer/src/consumer.js:58-69 | At most one event is logged per message. It is logged iff the value is present and parses, and it is then the parsed event. |
| Middleware.MetricsMiddleware | api/src/middleware/metricsMiddleware.js:4-27 | Captures the start time, wraps `end` and calls `next`. |
| Middleware.End | api/src/middleware/metricsMiddleware.js:10-25 | A wrapped `end` always tracks the request once. The tracked record has the `method path` key, the status code and `now - start`. The request is announced with the same key iff its path starts with neither `/api/monitoring` nor `/ws/`. Without the wrapper nothing is tracked or announced. Either way the original `end` runs exactly once. |
| Middleware.ExcludedFromBroadcast | api/src/middleware/metricsMiddleware.js:19 | Definition: a request is not announced iff its path starts with `/api/monitoring` or with `/ws/`. |
| Middleware.RouterPathsAnnounced | api/src/middleware/metricsMiddleware.js:19 | The mount-relative paths of the monitoring routes, `/metrics`, `/metrics/reset`, `/login`, `/logout`, `/status` and `/cdc-event`, are not excluded. |
| Middleware.ExclusionExtends | api/src/middleware/metricsMiddleware.js:19 | The exclusion is a prefix test, so every extension of an excluded path is excluded. |
| Middleware.PrefixExtends | api/src/middleware/metricsMiddleware.js:19 | `startsWith` survives appending. |
| Middleware.ExclusionExamples | api/src/middleware/metricsMiddleware.js:19 | `/api/monitoring/metrics`, `/api/monitoringX` and `/ws/monitoring` are excluded. `/ws` and `/api/users` are announced. |
| Middleware.Response.constructor | api/src/middleware/metricsMiddleware.js:8 | A response starts with its original `end`, not yet called. |
| Routes.Authorised | api/src/routes/monitoring.js:11 | Definition: a request is authorised iff it has a session whose `monitoringAuth` is truthy; `/status` uses the same test (`api/src/routes/monitoring.js:81`). |
| Routes.RequireMonitoringAuth | api/src/routes/monitoring.js:10-15 | The handler runs iff a session exists and `monitoringAuth` is truthy. Otherwise the reply is 401. |
| Routes.Status | api/src/routes/monitoring.js:80-89 | The reply's `authenticated` field is true iff the session is authorised, and the username is included only then. |
| Routes.LoginDecision | api/src/routes/monitoring.js:18-67 | A user is admitted iff the reply is 200. The status is one of 200, 400, 401, 403 and 500. An admitted user is the first row found, whose password matched and whose username is `admin`. |
| Routes.MissingCredentialsFirst | api/src/routes/monitoring.js:22-24 | A missing username or password gives 400 whatever the database and the hash say. |
| Routes.UnknownUserLikeWrongPassword | api/src/routes/monitoring.js:32-43 | An unknown user and a wrong password get the same 401 reply. |
| Routes.NonAdminForbiddenOnlyWithPassword | api/src/routes/monitoring.js:39-48 | A user other than `admin` gets 403 with the right password and 401 with a wrong one. |
| Routes.AdminWithPasswordAdmitted | api/src/routes/monitoring.js:46-62 | The admin with the right password is admitted. With `LoginDecision` this makes success exactly that case. |
| Routes.Login | api/src/routes/monitoring.js:18-67 | The reply is the ladder's. Session fields are set, to the admitted user, only on success. Every other outcome leaves the session unchanged. |
| Routes.MetricsRoute | api/src/routes/monitoring.js:92-100 | An authorised session gets the aggregator's snapshot. Anyone else gets 401. |
| Routes.ResetRoute | api/src/routes/monitoring.js:103-111 | An authorised session resets the aggregator. Anyone else gets 401, and the aggregator is unchanged. |
| Routes.AcceptableCdcEvent | api/src/routes/monitoring.js:117 | Definition: the webhook accepts a body iff the body and its `database`, `table` and `operation` are all truthy. |
| Routes.AcceptableIsObject | api/src/routes/monitoring.js:117 | Only an object passes the webhook test, and an object passes iff its `database`, `table` and `operation` are present and truthy. |
| Routes.CdcEventRoute | api/src/routes/monitoring.js:114-129 | Replies success iff the body and its `database`, `table` and `operation` are truthy. It then stores the stamped event at the head of the bounded list and broadcasts the `cdc_event` frame. Otherwise it replies 400 and neither the aggregator nor the hub changes. No session is consulted. |
| Routes.Session.constructor | api/src/routes/monitoring.js:51-53 | A fresh session carries none of the login fields. |
| JsValues.Truthy | cdc-consumer/src/consumer.js:26 | Definition: `undefined`, `null`, `false`, `0` and `""` are falsy; every other value, empty arrays and objects included, is truthy. |
| JsValues.StartsWith | api/src/middleware/metricsMiddleware.js:19 | Definition: `s.startsWith(prefix)` holds iff the prefix is no longer than `s` and equals its first characters. |
| JsValues.Get | api/src/routes/monitoring.js:117 | Property lookup gives `undefined` off objects and for missing keys. |
| JsValues.Index0 | cdc-consumer/src/consumer.js:31-32 | `v[0]` is the first element of a non-empty array, `undefined` for an empty one, and truthy on a string iff the string is non-empty. |
| JsValues.ToUpperAscii | cdc-consumer/src/consumer.js:30 | Upper-casing keeps the length and maps every character. |
| JsValues.UpperChar | cdc-consumer/src/consumer.js:30 | a-z move to A-Z. Every other character stays. |
| JsValues.ToUpperAsciiNormalises | cdc-consumer/src/consumer.js:30 | Upper-casing leaves no lower-case letter and is idempotent. |

## Left out

- **Transport and I/O.** Kafka, the WebSocket server, `JSON.parse`, `JSON.stringify` and every logger call are not modelled. This covers `connect`, `subscribe`, `run`, the 5-second retry and shutdown in `cdc-consumer/src/consumer.js:44-91`.
  - A parse is an input that either parsed or failed.
  - A frame is the value handed to `send`, not its serialisation.
- **Clocks.** `Date.now()` and `new Date().toISOString()` are parameters. The middleware and `trackRequest` read the clock separately, so `Middleware.End` takes two readings.
- **Floating point.** `getMetrics` divides in floating point and then applies `Math.round`. The model uses exact rational rounding, with halves rounded up.
  - Metrics.AverageTime: rounds the exact mean rather than the double-precision quotient, so results can differ where the float quotient is off by a rounding error.
  - Metrics.SuccessRate: the same approximation of `Math.round(success / total * 100)`.
- JsValues.ToUpperAscii: upper-cases only a-z; JavaScript's `toUpperCase` is Unicode-aware.
- **Numbers.** Numbers are integers, with no NaN and no infinities.
- **JavaScript object keys.** `byStatus` is keyed by the integer status. JavaScript turns that key into a string, which changes nothing here.
- **Passes as sets.** `forEach` visits a `Set` in insertion order, and the model abstracts that order away.
  - Only the current member is deleted, so the model treats a pass as a set-level outcome of per-member decisions.
  - `readyState` and the outcome of `send` are fixed per broadcast. They are given as the sets `open` and `throwing`.
- **Connection greeting.** The `connected` greeting carries a `message` and no `data` (`api/src/monitoring/websocket.js:23-27`). A `send` that throws during the greeting is not modelled; that call has no `try`.
- **Mutation order.** The middleware tracks, then announces, then runs the original `end`. The model shows the combined effect, not the order between these:
  - updating the stats object in place;
  - pushing before slicing;
  - tracking before broadcasting.
- Middleware.MetricsMiddleware: requires a response that is not yet wrapped, because the middleware is mounted once (`api/src/server.js:86`); nesting two wrappers is not modelled.
- **Express routing and mounting.** These are not modelled. `Middleware.End` takes `path` as given: it stands for `req.path` read when `end` runs.
  - Inside a router Express has stripped the mount point from `req.path`. The monitoring router is mounted at `/api/monitoring` (`api/src/server.js:95`), so its replies reach the test as `/metrics`, `/login`, `/status` or `/cdc-event`.
  - `RouterPathsAnnounced` shows that none of these paths is excluded. Monitoring replies are therefore tracked and announced, keyed as e.g. `GET /metrics`, although the prefix test was meant to leave them out. This includes the dashboard's poll of the metrics route every 5 seconds.
  - `POST /api/auth/login` and `POST /api/monitoring/login` share the endpoint key `POST /login`.
  - Replies sent before the metrics middleware runs are never tracked, because the middleware is mounted after everything that can answer early (`api/src/server.js:86`). Among them:
    - the `cors` middleware's replies to CORS preflight `OPTIONS` requests, with status 200 (`api/src/server.js:55-57`);
    - the rate limiter's 429 replies for `/api/` (`api/src/server.js:60-67`);
    - the body parsers' errors, handed to the error handler before the metrics middleware is reached: `express.json`'s 400 for a malformed body and 413 for one over the 10 MB limit, and the same from `express.urlencoded` (`api/src/server.js:70-71`).
- **Logout and `catch` branches.**
  - `/logout` (`api/src/routes/monitoring.js:70-77`) destroys the session through a callback and is not modelled.
  - The routes' `catch` branches for `getMetrics`, `resetMetrics` and the webhook are not modelled. Those calls cannot throw in the model.
  - The login's `catch` is modelled: a rejected query, a rejected comparison and an undestructurable body all give 500.
- **Login replies.** Bodies of error replies carry the messages of the source. The `user` object in the login reply is copied from the row as given.
- **Wiring.**
  - The consumer only logs the events it parses (`cdc-consumer/src/consumer.js:63-65`). It does not call the aggregator or the hub, and the model does not connect them.
  - A record with a falsy `type`, `database` or `table` gives null without any log line. The `catch` logs both a payload that does not parse and the `TypeError` that `toUpperCase` throws on a truthy `type` that is not a string (`cdc-consumer/src/consumer.js:38-41`). Log lines are not modelled.
  - Nothing calls `broadcastMetricsUpdate` in the core files. It is modelled as a wrapper only.

