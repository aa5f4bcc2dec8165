# microtracker rate limiter, package service and message lifecycle in Dafny

This project models three parts of the microtracker service.

- **The rate-limiting middleware** (`internal/middleware/rate_limiter.go`). It keeps a two-level table: endpoint key, then client address, then an entry holding a token bucket and the time of last access.
  - `getLimiter` creates an entry on first use and stamps its last access on every call.
  - Policy lookups prefer the endpoint's configured override and fall back to the default.
  - The middleware admits a request or aborts it with a 429 body.
  - The periodic sweep evicts entries idle past their endpoint's TTL.
  - The table is the `Middleware.RateLimiter` class. Its methods are specified by the pure functions `Touched`, `Swept` and `Admit`, and the lemmas state the properties of those functions.
- **The package service** (`internal/service/package_service.go`). It validates input and clamps pagination in front of the repository.
  - The repository is abstract. Each operation either names the one repository call it makes and whose result it returns unchanged (`Delegate`), or returns an error without calling the repository (`Rejected`).
- **The messenger's message record** (`messenger/internal/models/message.go`). It is a small state machine over the status string `pending` / `processed` / `failed` and a retry counter.
  - The `Models.Message` class holds the fields, and `State()` packs them into a `MessageState` value.
  - The transitions are pure functions on that value.
  - The module also models the message ID generator (a timestamp, a `-`, then 8 characters from the charset).

Time is an explicit parameter everywhere. For the rate limiter, `now` counts whole seconds.

The bucket from `golang.org/x/time/rate` is replaced by an integer bucket (module `TokenBucket`):
- tokens are counted in sixtieths of a request, so a refill of `requestsPerMinute / 60` requests per second is exactly `requestsPerMinute` units per second;
- capacity is `burst * 60` units and a new bucket starts full;
- an admission needs 60 units and takes them;
- a refused admission leaves the bucket untouched, as the library does;
- a clock reading earlier than the last update counts as no time elapsed, as the library does.

The endpoint key is `method + ":" + literal URL path`, as the code builds it (rate_limiter.go:113). It is not the matched route template, so each distinct path gets its own quota. `LiteralPathsAreDistinctKeys` states this.

The service test at `internal/service/package_service_test.go:158-167` expects the recipient error for a package that carries only an ID. The code checks the sender first, and the model follows the code (`IdOnlyPackageFailsOnSender`).

## Model

| member | source | states |
|---|---|---|
| `TokenBucket.NewBucket` | internal/middleware/rate_limiter.go:73-76 | A new limiter has the given rate and burst and is full: it offers exactly `burst` requests' worth of units at its creation time (and earlier). |
| `TokenBucket.Available` | internal/middleware/rate_limiter.go:73-76 | The units available never exceed the capacity. With no elapsed time they are the stored units, capped at the capacity. |
| `TokenBucket.Allow` | internal/middleware/rate_limiter.go:117 | Admits exactly when at least one whole request is available. A refusal leaves the bucket unchanged. An admission takes exactly one request's worth and records the time. Rate and burst never change, and the capacity bound is preserved. |
| `TokenBucket.ReplayDrains` | internal/middleware/rate_limiter.go:117 | A bucket holding exactly n requests at an instant admits the first n of k immediate requests and refuses every later one. |
| `TokenBucket.FullBucketAdmitsBurst` | internal/middleware/rate_limiter.go:72-77 | From a new bucket of burst B, exactly B immediate requests succeed and request B+1 is refused. |
| `TokenBucket.Refill` | internal/middleware/rate_limiter.go:74 | With a non-negative rate and no consumption, waiting dt seconds adds dt * rate units, capped at the capacity. |
| `TokenBucket.AvailableMonotone` | internal/middleware/rate_limiter.go:74 | With a non-negative rate, the units available never decrease as time passes. |
| `Middleware.PolicyResolution` | internal/middleware/rate_limiter.go:87-108 | The requests-per-minute, burst and TTL lookups all read the same policy: the endpoint's override when configured, the default otherwise. |
| `Middleware.OverrideWins` | internal/middleware/rate_limiter.go:87-108 | Configuring an override for an endpoint makes all three lookups for it return the override. The lookups for every other endpoint are unchanged. |
| `Middleware.RequestsPerMinute` | internal/middleware/rate_limiter.go:87-92 | getRequestsPerMinute: the endpoint's override if configured, else the default (stated by `PolicyResolution`). |
| `Middleware.BurstSize` | internal/middleware/rate_limiter.go:95-100 | getBurstSize: the endpoint's override if configured, else the default (stated by `PolicyResolution`). |
| `Middleware.TTL` | internal/middleware/rate_limiter.go:103-108 | getTTL, in minutes: the endpoint's override if configured, else the default (stated by `PolicyResolution`). |
| `Middleware.EndpointKey` | internal/middleware/rate_limiter.go:113 | The key `method:path`. `EndpointKeyRoundTrip` and `LiteralPathsAreDistinctKeys` state what it determines. |
| `Middleware.Rejection` | internal/middleware/rate_limiter.go:118-124 | The 429 body: status 429, error "Rate limit exceeded", success false, the endpoint key, and the configured limit and burst. `Admit` states these fields for every rejection. |
| `Middleware.Touched` | internal/middleware/rate_limiter.go:62-84 | After getLimiter(e, ip) the entry exists and its last access is `now`. An existing entry keeps its bucket (no replacement, no duplicate). A new entry gets a full bucket with e's policy. All other entries are unchanged, endpoint groups only grow, and no group is left empty. |
| `Middleware.Swept` | internal/middleware/rate_limiter.go:47-56 | After the sweep an entry is present exactly when it was present before and `now - lastAccess <= TTL * 60`, with its content unchanged. No endpoint group is left empty, and no group is added. |
| `Middleware.Admit` | internal/middleware/rate_limiter.go:112-129 | The request continues exactly when the entry's bucket (the existing one, or a fresh full one) has a token. Otherwise the response is status 429, error "Rate limit exceeded", success false, the endpoint key, and the configured limit and burst. Only the (endpoint, ip) entry changes, and its last access becomes `now`. |
| `Middleware.RateLimiter.constructor` | internal/middleware/rate_limiter.go:27-37 | A new limiter holds the given configuration and an empty table. |
| `Middleware.RateLimiter.GetLimiter` | internal/middleware/rate_limiter.go:62-84 | The imperative getLimiter changes the table exactly as `Touched` says and returns the stored entry. It keeps the no-empty-group invariant. |
| `Middleware.RateLimiter.Cleanup` | internal/middleware/rate_limiter.go:45-56 | One tick of cleanupLoop's nested deletion loops leaves the table equal to `Swept` of the old table. It keeps the invariant. |
| `Middleware.RateLimiter.RateLimit` | internal/middleware/rate_limiter.go:111-130 | The middleware's new table and decision are exactly `Admit` of the old table. |
| `Middleware.Independence` | internal/middleware/rate_limiter.go:66-80 | Admitting one request on (e1, ip1) does not change the decision for any other (e2, ip2). |
| `Middleware.AdmitRunFrame` | internal/middleware/rate_limiter.go:66-80 | A run of any number of requests on (e1, ip1) leaves every other (e2, ip2) entry of the table exactly as it was. |
| `Middleware.IndependenceRun` | internal/middleware/rate_limiter.go:66-80 | Exhausting one client's quota leaves every other client's unaffected. After any run of requests on (e1, ip1), the decision for another (e2, ip2) is the one it would have had without the run. |
| `Middleware.SweepKeepsLive` | internal/middleware/rate_limiter.go:49 | An entry accessed no more than its TTL ago survives the sweep unchanged. |
| `Middleware.EvictionResetsQuota` | internal/middleware/rate_limiter.go:49-50 | An expired entry is gone after the sweep. The next request for that key gets a fresh full bucket with the endpoint's policy, so it is admitted exactly when the burst is at least 1. |
| `Middleware.AdmitRun` | internal/middleware/rate_limiter.go:112-129 | k requests at one instant yield k decisions. Afterwards (k > 0) the client's entry exists with last access `now`. |
| `Middleware.AdmitRunDrains` | internal/middleware/rate_limiter.go:115-127 | When the bucket holds exactly n tokens at `now`, the first n of k immediate requests continue and the rest are rejected with the endpoint's 429 body. |
| `Middleware.FreshClientGetsBurst` | internal/middleware/rate_limiter.go:70-80 | A client new to an endpoint with burst B gets exactly B immediate requests through, and request B+1 is rejected. |
| `Middleware.ListEndpointScenario` | config/config.go:69-73 | Under the list endpoint's policy (200, 100, 5), 100 immediate requests pass and the 101st gets a 429 with limit 200 and burst 100. After more than 5 minutes and a sweep, the next request passes. |
| `Middleware.TwoClientsScenario` | internal/integration/rate_limit_test.go:220-253 | With burst 1, the first client's second request is rejected, while a second client's first request still passes. |
| `Middleware.EndpointKeyRoundTrip` | internal/middleware/rate_limiter.go:113 | For a method with no ':', splitting the key at its first ':' gives back the method and the path, so different requests cannot collide on a key. |
| `Middleware.LiteralPathsAreDistinctKeys` | internal/middleware/rate_limiter.go:113 | Two different literal paths under one method give different keys, and so separate quotas. |
| `Service.BlankIsTrimmedEmpty` | internal/service/package_service.go:26 | `strings.TrimSpace(s) == ""` holds exactly when every character of s is Unicode white space. |
| `Service.TrimSpace` | internal/service/package_service.go:26 | strings.TrimSpace: the result is the middle slice of the input. Everything dropped before and after it is white space, and the result neither starts nor ends with white space. |
| `Service.TrimLeft` | internal/service/package_service.go:26 | The result is a suffix of the input, starting with a non-space character or empty, and every dropped character is white space. |
| `Service.TrimRight` | internal/service/package_service.go:26 | The result is a prefix of the input, ending with a non-space character or empty, and every dropped character is white space. |
| `Service.ValidatePackage` | internal/service/package_service.go:79-109 | validatePackage returns nil exactly when the package is present and all eight required fields are non-blank. Otherwise it returns the first failure in the order nil package, ID, sender, recipient, origin, destination, current status (each case stated as an iff). |
| `Service.IdOnlyPackageFailsOnSender` | internal/service/package_service.go:88-90 | A package carrying only an ID fails with "sender name and address are required". |
| `Service.GetPackage` | internal/service/package_service.go:25-30 | A blank ID returns ErrEmptyPackageID without calling the repository. Otherwise FindByID receives the ID untrimmed. |
| `Service.DeletePackage` | internal/service/package_service.go:72-77 | A blank ID returns ErrEmptyPackageID without calling the repository. Otherwise Delete receives the ID untrimmed. |
| `Service.ListPackages` | internal/service/package_service.go:32-43 | Always calls FindAll with page >= 1 and 1 <= size <= 100. Page < 1 becomes 1. Size < 1 becomes 10 and size > 100 becomes 100. In-range values pass through. |
| `Service.SearchPackages` | internal/service/package_service.go:45-56 | Calls Search with the query unchanged and exactly the page and size ListPackages would use. |
| `Service.ClampingIdempotent` | internal/service/package_service.go:32-43 | Clamping already-clamped values changes nothing. |
| `Service.CreatePackage` | internal/service/package_service.go:58-63 | Create is called exactly when validation passes. Otherwise the validation error is returned unchanged. |
| `Service.UpdatePackage` | internal/service/package_service.go:65-70 | Update is called exactly when validation passes. Otherwise the validation error is returned unchanged. |
| `Models.MarkedProcessed` | messenger/internal/models/message.go:33-37 | MarkAsProcessed sets status "processed" and ProcessedAt. CanRetry is then false for every max. RetryCount, Error and all other fields are untouched. |
| `Models.MarkedFailed` | messenger/internal/models/message.go:40-44 | MarkAsFailed sets status "failed" and records the error text. RetryCount grows by exactly one. CanRetry(max) then holds exactly when the new count is below max. Nothing else changes. |
| `Models.RunEffect` | messenger/internal/models/message.go:33-44 | After any sequence of calls: RetryCount has grown by the number of failures, the status is that of the last call, and ID, topic, content and receipt time are unchanged. |
| `Models.Lifecycle` | messenger/internal/models/message.go:21-54 | For a new message after any calls: RetryCount equals the number of failures. IsProcessed holds exactly when the last call was MarkAsProcessed. CanRetry(max) holds exactly when the last call was MarkAsFailed and the failures are below max. |
| `Models.RepeatedFailures` | messenger/internal/models/message.go:40-54 | After k MarkAsFailed calls on a new message, RetryCount = k, and CanRetry(max) holds exactly when 0 < k < max. |
| `Models.Padded` | messenger/internal/models/message.go:72 | Each timestamp field is all digits and at least `width` long. It is exactly `width` long when the value fits. When the value does not fit, it is longer, with no leading zero. |
| `Models.PaddedRoundTrip` | messenger/internal/models/message.go:72 | The zero-padded digits read back as the number. |
| `Models.FormatStamp` | messenger/internal/models/message.go:72 | The "20060102150405" timestamp is all digits and is 14 characters when every field fits its width. |
| `Models.StampRoundTrip` | messenger/internal/models/message.go:72 | The 14-digit timestamp parses back to the time it was formatted from. |
| `Models.RandomString` | messenger/internal/models/message.go:76-83 | randomString(n) returns exactly n characters. Character i is the charset entry that clock reading i selects, so every character comes from the 62-character charset. |
| `Models.GenerateMessageID` | messenger/internal/models/message.go:71-73 | The ID is the timestamp, a '-', then 8 charset characters. When the time fits the layout, it has the 23-character ID shape and its first 14 characters parse back to the time. |
| `Models.MessageState.IsProcessed` | messenger/internal/models/message.go:47-49 | True exactly for status "processed". Its ensures (neither pending nor failed) is only a sanity fact that the three status strings differ. |
| `Models.MessageState.CanRetry` | messenger/internal/models/message.go:52-54 | True exactly for a failed message below the retry ceiling. A retryable message is not processed, and its retry count is below the ceiling. |
| `Models.Message.IsProcessed` | messenger/internal/models/message.go:47-49 | The object's IsProcessed reads its current status. Its ensures (neither pending nor failed) is only a sanity fact that the three status strings differ. |
| `Models.Message.CanRetry` | messenger/internal/models/message.go:52-54 | The object's CanRetry reads its current state. A retryable message is not processed, and its retry count is below the ceiling. |
| `Models.Message.constructor` | messenger/internal/models/message.go:21-30 | A new message stores the given ID, topic and content, with status "pending", RetryCount 0, no ProcessedAt and no error. |
| `Models.Message.MarkAsProcessed` | messenger/internal/models/message.go:33-37 | The object's fields change exactly as `MarkedProcessed` says. |
| `Models.Message.MarkAsFailed` | messenger/internal/models/message.go:40-44 | The object's fields change exactly as `MarkedFailed` says. |
| `Models.NewMessage` | messenger/internal/models/message.go:21-30 | Returns a fresh pending message with the given topic and content and a generated ID. When the time fits the layout, the ID has the ID shape and its first 14 characters parse back to the time. |

## Left out

- Concurrency: the `sync.RWMutex` and the goroutine and ticker that drive `cleanupLoop`. The limiter's lock serializes `getLimiter` and one sweep of `cleanupLoop` (rate_limiter.go:46, 63-64), and each of those is one step here. The five-minute cadence is left to the caller of `Cleanup`.
- `Middleware.RateLimiter.RateLimit`: the model treats getLimiter followed by the token consumption as one step. The source does not. Its `Allow()` call (rate_limiter.go:117) runs after the table lock is released, under the limiter's own mutex, so a sweep can run between the last-access stamp and the consumption. With a TTL of 0 or less, that sweep evicts the entry just stamped, and `Allow()` then consumes from a limiter no longer in the table. The model writes the consumed bucket back into the table. Interleavings in which a sweep comes between the two steps are not modelled.
- Entries are values in the table, not shared pointers. `RateLimit` writes the consumed bucket back into the entry's slot, where the source mutates the limiter through the pointer `getLimiter` returned. When no sweep comes between the two steps, the resulting table is the same. Pointer identity and aliasing are not modelled.
- `Middleware.Swept`: the TTL is compared as an unbounded number of seconds, `TTL * 60`. The source converts it to an int64 count of nanoseconds (`time.Duration(ttl) * time.Minute`, rate_limiter.go:49). The configured value is not range-checked. A TTL from 153,722,868 to 307,445,734 minutes wraps to a negative threshold, and the sweep then evicts every entry. Other out-of-range values, including TTLs of -153,722,868 or below, wrap to an unrelated threshold. This wrap-around is not modelled.
- `TokenBucket.Available`: time is counted in whole seconds, and tokens in exact integer sixtieths rather than the library's floating-point tokens. Sub-second refill and rounding are not modelled.
- `TokenBucket.NewBucket`: for a negative requests-per-minute, the library's new limiter starts empty and never admits. The model starts it full, so the model admits up to `burst` requests at creation time. Zero and positive rates behave like the library. A zero rate admits `burst` requests in total in both.
- The library's reservation, wait and `AllowN` APIs, and its special case for an infinite limit, are not modelled; the middleware only calls `Allow`.
- Gin plumbing: how `ClientIP()` derives the address, JSON rendering of the 429 body, and `c.Next()` / `c.Abort()` beyond the `Next` / `Abort` decision.
- Configuration loading (`config.NewConfig`, environment variables and their defaults) is not part of this model. The limiter takes a resolved `RateLimitConfig` value.
- The repository, MongoDB and the errors they return: each service operation stops at naming the repository call.
- `Service.ValidatePackage`: a Go string is UTF-8 bytes and here it is a sequence of characters, so invalid UTF-8 is not modelled.
- `Models.Message` content: the `map[string]interface{}` payload is kept as a map of strings, since no modelled operation inspects it.
- `ToJSON` / `FromJSON`, `time.Now()` and the local time zone: times are parameters, and the calendar reading an ID is formatted from is a `DateTime` value.
- `Models.RandomString`: clock readings are natural numbers. A negative `UnixNano` reading (a clock before 1970) would make Go's truncating `%` negative and panic; that path is not modelled.
- `Models.MarkedFailed`: the source's `MarkAsFailed` takes a Go `error` and calls its `Error()` method (message.go:42), so a nil error panics. Here the error is its text, a string, so that panic cannot arise.
- `Models.MarkedFailed`: `RetryCount` is an unbounded integer, so the 64-bit wrap-around after 2^63 - 1 failures is not modelled.
- `Models.DateTime`: negative years are not modelled (the year is a natural number).
