# Connection bootstrap and request gate of the recipe-sharing backend

This project models the entry point of the backend (`backend/src/index.js`) in Dafny:

- **The cached, retrying connection bootstrap** (`connectToDatabase`). The model is the class
  `Bootstrap.Bootstrapper`. Its fields are the process-wide `cachedDb`, the observers registered on the
  driver's connection, and a ghost trace of every connect attempt and backoff wait.
  `ConnectToDatabase` keeps the source's shape. A live cached handle is returned at once.
  Otherwise a `while` loop makes at most three attempts, updating `retries` and `lastError`.
  After failure number `r`, when `r < 3`, it waits `2^r * 100`. A success caches the new handle and
  registers the `error` and `disconnected` observers. Exhaustion rethrows the last error.
  The method is proved against the specification function `Bootstrap.Connect` (built on `Bootstrap.Retry`).
  Lemmas about that function give the attempt bound, stopping at the first success, the backoff
  schedule and the 600 bound on waiting. `Disconnected` is the `disconnected` observer.
- **The request chain** (`allowCors`, `mountRoutesWithErrorHandling`, the 404 and 500 handlers). The model is
  the pure function `RequestGate.Handle`. It runs the CORS stage with its preflight exit, then the
  connection gate of a mounted group, then the 404 fallback, then the 500 handler. Its inputs are
  `NODE_ENV`, the request method, whether the path falls in a mounted group, the connection call's
  result and what the group's router does. `RequestGate.ServeRequest` ties the two parts together:
  the connection call is made exactly when a non-preflight request falls in a mounted group.

The model takes these as inputs:

- The driver's connect call is a sequence of outcomes, one per attempt. The caller supplies at least three.
- The `cachedDb.serverConfig.isConnected()` probe is a boolean `alive`.
- The backoff timer is recorded as `Sleep(ms)` steps in the ghost trace.
- Express's prefix matching of `app.use(route, …)` is the boolean `matched`.

Two points of the code's behaviour shape the model:

- The code waits only while `retries < maxRetries` (index.js:60). So there are two waits, 200 and 400, and none after the third failure.
- Exhaustion rethrows the last attempt's error itself (index.js:68, 71). No new error wraps it.

## Model

| member | source | states |
|---|---|---|
| Bootstrap.Backoff | backend/src/index.js:59-61 | The wait after a failure is at least 100, and each further failure doubles it. |
| Bootstrap.Retry | backend/src/index.js:28-65 | The retry loop as a function. Its first step is an attempt with the next number. A success returns the db of one of the remaining attempts. A throw carries the error of the third attempt. |
| Bootstrap.Connect | backend/src/index.js:14-73 | One whole call. A returned handle is either the cached one or the db of one of the three attempts. A throw carries the third attempt's error and comes only after attempts were made. |
| Bootstrap.AttemptBound | backend/src/index.js:24-28 | A call that enters the loop makes at least one and at most three connect attempts. |
| Bootstrap.StopsAtFirstSuccess | backend/src/index.js:28-68 | Every attempt before the last one failed. A success returns the db of the last attempt. An error is thrown only after all three attempts failed, and it is the third attempt's error. The loop succeeds iff some attempt's outcome is `Ok`. |
| Bootstrap.Schedule | backend/src/index.js:56-63 | The steps alternate attempt, wait, attempt. Attempts are numbered from 1. The wait after failed attempt `m` is `2^m * 100`. The last step is an attempt, so no wait follows the final failure. |
| Bootstrap.WaitBound | backend/src/index.js:57-63 | The waits of the loop add up to at most the sum of the backoffs still available. |
| Bootstrap.BackoffValues | backend/src/index.js:60-61 | The two backoffs are 200 and 400. Their sum is 600. |
| Bootstrap.CacheHit | backend/src/index.js:16-19 | A call takes no step at all iff a handle is cached and the probe says it is connected. It then returns the cached handle. |
| Bootstrap.CallBounds | backend/src/index.js:14-73 | Any call makes at most three attempts and waits at most 600 in total. Each of its waits is 200 or 400. |
| Bootstrap.FailTwiceThenSucceed | backend/src/index.js:28-63 | Two failures then a success give exactly attempt 1, wait 200, attempt 2, wait 400, attempt 3, and the new handle. |
| Bootstrap.AllAttemptsFail | backend/src/index.js:56-71 | Three failures throw the third error after waits of 200 and 400. The cache keeps whatever it held, even a stale handle, and no observer is registered. |
| Bootstrap.Bootstrapper.constructor | backend/src/index.js:10-11 | The process starts with no cached handle, no observers and an empty trace. |
| Bootstrap.Bootstrapper.ConnectToDatabase | backend/src/index.js:14-73 | The loop implements `Connect`. It returns that function's result. The cache afterwards is the new handle on success and is unchanged otherwise. Exactly the two observers are appended iff a new connection was made. The call's attempts and waits are appended to the trace. A handle is never cached without a clearing observer. |
| Bootstrap.Bootstrapper.Disconnected | backend/src/index.js:49-52 | The `disconnected` event clears the cache when a clearing observer is registered, and with the invariant it always ends with no handle cached. Observers and trace are unchanged. |
| RequestGate.AllowOrigin | backend/src/index.js:92 | The allowed origin is `https://recipedium.vercel.app` iff `NODE_ENV` is `production`. Otherwise it is `http://localhost:3000`. |
| RequestGate.CorsHeaders | backend/src/index.js:91-95 | There are exactly four headers. Looking up each of the four access-control names gives the origin above, the fixed method list, the fixed header list and `true`. |
| RequestGate.MountedGroup | backend/src/index.js:128-141 | A group answers 503 "Database service temporarily unavailable" iff the connection call threw or the router threw while being called. Otherwise the router's own answer, its `next(err)` or its `next()` passes through unchanged. |
| RequestGate.ServerErrorBody | backend/src/index.js:159-168 | The error handler's body is `{success: false, message: "Server Error"}`. It carries `error` iff `NODE_ENV` is `development` and the error has a `message`. Then `error` is that message. |
| RequestGate.Handle | backend/src/index.js:90-168 | Every response carries the CORS headers. The body is empty iff the method is `OPTIONS`, and then the status is 200. The 503 body comes exactly from a gated request whose connection or router call threw. The 404 body comes exactly from a non-preflight request outside every group, or one whose router called `next()`. The 500 body comes exactly from a router's `next(err)`. A router's own answer comes through with its status. |
| RequestGate.UngatedIgnoresConnection | backend/src/index.js:97-100 | A preflight, or a request outside every mounted group, gets the same response whatever the connection would yield. A preflight gets 200 with an empty body. |
| RequestGate.Gated | backend/src/index.js:98-100 | A request reaches the connection call only when it is not a preflight and its path falls in a mounted group. |
| RequestGate.ServeRequest | backend/src/index.js:129-133 | The response is `Handle` of the result of a connect call. The bootstrapper is untouched unless the request is gated. When it is gated, its new state is that of `ConnectToDatabase`. |

## Left out

- The real `mongoose.connect` call and its pool and timeout options are a call into a foreign library. They are replaced by the outcome sequence.
- The `setTimeout` backoff timer depends on wall-clock time. Its delays are recorded as ghost `Sleep` steps.
- The `res.setTimeout` 8000 ms watchdog and its 503 "Request timeout" answer are left out. Whether it fires depends on socket timing.
- Body parsing (`express.json`, `express.urlencoded` and their 5mb limits) is left out. So is a parse error, which Express sends to the error handler before the CORS stage runs.
- The `morgan` logging stage in development mode changes no response and is left out, as is all `console` output.
- The `error` observer is kept only as an entry in the observer list. It only logs.
- Express's path-prefix matching of the mounted groups is the input `matched`. The route modules themselves are not part of this model.
- Errors thrown asynchronously inside a route handler, after the router call has returned, are not modelled. Only the synchronous throw, `next(err)` and `next()` are.
- `startServer`, `app.listen`, `PORT`, the `serverless` auto-start switch, `module.exports` and the `unhandledRejection` handler are process plumbing. They are left out.
- Concurrent requests interleaving their reconnects on the event loop are left out. The model runs one call at a time. For the same reason the trace is appended when a call returns rather than step by step.
- `backend/webpack.functions.js` is build configuration only and is not part of this model.
- An error's `message` is modelled as a string or absent. A `message` of another type, which `JSON.stringify` would render differently, is not modelled.
- Bootstrap.Bootstrapper.ConnectToDatabase: the cached handle's liveness probe is one boolean. It stands for `cachedDb.serverConfig && cachedDb.serverConfig.isConnected()`, whose semantics belong to the driver.
