# Verified model of the restaurant platform's session, rate-limit and metrics core

This project models the stateful parts of the platform's services and proves what they keep.

**Refresh tokens.** `Tokens` has claims, signing, parsing and records; `RedisKeyspace` the Redis commands
used; `RedisStorage`, `MockStore` and `SqliteStore` the three token stores; `JwtService` the service over
any of them. `Rotation` is the service over Redis as the platform deploys it: any number of calls,
interleaved command by command, with the clock moving, keys expiring and commands failing in between. The
other `Rotation...` modules prove its invariant and what follows from it; `RotationRaces` is about several
refreshes of one token at once. `StoreAgreement` proves that, one call at a time, the three stores are
interchangeable.

**Rate limiting.** `RateLimiter` has the counters, one check and the middleware; `LimiterRuns` any number
of requests interleaved Redis command by Redis command; `LimiterInvariant`, `LimiterSteps` and
`LimiterTheorems` the proofs; `LimiterMishaps` what becomes of a counter that does not expire as it should;
`LimiterSharpness` a run that reaches the bound.

**Metrics, response writer, users.** `Metrics` has the middleware and its concurrent runs,
`ResponseWriter` the first-header-wins writer, `Users` registration and login.

Objects that the source updates in place are classes whose methods are proved against functions on values.
The interleaved models are state machines: a run is a sequence of labels, `Enabled` says which step may be
taken and `Apply` what it does, and every theorem is about all runs from an empty server. `RotationAlone`,
`LimiterAlone` and `Metrics.RequestAlone` prove that an uninterrupted run of steps does what the functions
behind the methods say, so that the two kinds of model are of one program.

## Findings

- **A refused rotation on Redis can leave a trace.** `RevokeAndSave` is a batch, not a transaction.
  `RedisStorage.RefusedSwap` says exactly when a refused call leaves the keyspace as it was, for every
  failure and every prefix of the batch; `TornSwaps` has an input for each way it does not.
- **A lost refresh race leaves an orphan.** When a second call's Del finds the token gone, the call answers
  "not found" but its SetNX has stored the new token all the same. Any token that would be accepted can be
  raced for (`RotationRaces.AnyTokenCanRace`); `RaceOutcome` says how racers may end over every
  interleaving, and `OrphanIsNobodys` that an orphan is never returned by any call. The key accounting has
  a term for orphans.
- **Only Redis decides a race.** The mock and SQLite stores let a second swap of a token succeed although
  the first has revoked it (`StoreAgreement.SecondSwap`).
- **The stores agree only if refresh tokens have a positive lifetime.** Otherwise Redis refuses what the
  others accept (`StoreAgreement.StoresAgreeIff`). `NewJWT` takes any lifetime; the configuration's
  validation asks for a week at least.
- **The mock store's rotation is not atomic.** A refused save leaves the old token revoked
  (`MockStore.RefusedRotation`); SQLite's rotation is all or nothing.
- **A limit of `n` lets `n - 1` requests through in a window**, because the request that reaches the limit
  has nothing remaining and is rejected (`LimiterTheorems.WindowExact`, `WindowAdmits`). Two windows can
  meet within one expiry, so `2 * (n - 1)` is the most it lets through in that time
  (`LimiterTheorems.RouteBound`), and some runs do (`LimiterSharpness.BoundIsReached`).
- **A stranded counter locks its route.** If the reply to the INCR that creates a counter is lost, or its
  EXPIRE and then its DEL fail, the counter never expires: it lets through what it had left and then
  nobody (`LimiterMishaps.LostReplyStrands`, `StrandedLocks`).
- **A limit without an expiry limits nothing.** The configuration (`pkg/config/config.go:70-73`) lets a path
  have a limit and no expiry. The missing entry reads as zero, with which EXPIRE deletes the counter it is
  meant to arm (`LimiterMishaps.NoExpiryNoLimit`).
- **A per-address limit is a limit for each connection**, not for each host, because the peer's address is
  used with its port. Thanks to the port, counter keys never collide, whatever colons there are in the
  paths (`RateLimiter.KeysNeverCollide`).
- **The advertised lifetime** is wrong outside the range of 32-bit seconds; `Tokens.AdvertisedLifetime` has
  the exact range.
- The messages for names and passwords speak of characters; the code counts bytes, and so does the model.

## Assumptions

- Signing is ideal and does not fail: a signed token determines its algorithm, key and claims, and parses
  only under its key. Nothing is assumed about which tokens callers present.
- Generated identifiers are fresh: they are taken from a counter.
- One clock serves services and Redis, and never goes back. A key is absent from its deadline on, and stored
  records read back as written. `getKey` puts a fixed prefix before the token, so keys are represented by
  their tokens.
- Times to live reach the server as given: the client sends the limiter's expiries in whole seconds and the
  token lifetimes in milliseconds, so they are taken to be multiples of those.
- A failed command of the token stores has no effect or has taken effect with the reply lost; a failed
  pipeline has executed any prefix; a failed SQL statement has no effect. The limiter's INCR may have taken
  effect with the reply lost; its EXPIRE, when it fails, has had no effect; the reply to its DEL is only
  logged, so a DEL with its reply lost is one that succeeds.
- Requests come over TCP: the peer's address is a host, in brackets if it has colons, a colon and a port,
  and the host has no brackets of its own.
- What a call does between two store commands is local, so its clock readings there are arbitrary instants
  between them, in program order.

## Model

| member | source | states |
|---|---|---|
| Tokens.AccessIff | services/auth/internal/service/jwt.go:60-83 | on every input: the user of exactly the access tokens that are signed with HS256 under the service's key and within their life; "wrong type" for exactly such tokens of another kind; a parsing error for everything else |
| Tokens.RefreshCheckIff | services/auth/internal/service/jwt.go:86-108 | the same for refresh tokens, before the store is asked |
| Tokens.KindsAreExclusive | services/auth/internal/service/jwt.go:60-108 | a token passes as the kind it was signed as and no other, at any times; other kinds and unsigned text pass as neither |
| Tokens.PairValidity | services/auth/internal/service/jwt.go:161-200 | each half of a pair passes under the same key only, as its own kind only, for its user, exactly from its truncated issue time to its truncated expiry, and under no other algorithm |
| Tokens.RecordCoversToken | services/auth/internal/service/jwt.go:182-222 | a stored record is of its token and user, unrevoked, and expires no earlier than the signed token and later only by the rounding and the time between the readings |
| Tokens.AdvertisedLifetime | services/auth/internal/service/jwt.go:136-142 | the advertised seconds are the low 32 bits of the truncated lifetime, which is the lifetime for exactly one range of TTLs, and then miss the signed expiry by less than a second |
| RedisKeyspace.SetNXSeen | services/auth/internal/storage/redis/redis.go:43-49 | SetNX answers true exactly if nobody could see the key; the record is then visible until its TTL is over, and nobody sees any other difference, lost replies included |
| RedisKeyspace.OneSetNXWins | services/auth/internal/storage/redis/redis.go:43-49 | of two delivered SetNX on one key the second succeeds exactly if the record the key held after the first has expired by then |
| RedisKeyspace.DelSeen | services/auth/internal/storage/redis/redis.go:80-86 | Del counts 1 exactly if the key was visible, removes it from every later view and nothing else, and a second Del counts 0 |
| RedisStorage.Storage.Save | services/auth/internal/storage/redis/redis.go:30-52 | new keyspace and error of a save, including expired, taken and failed |
| RedisStorage.Storage.Revoke | services/auth/internal/storage/redis/redis.go:77-89 | new keyspace and error of a revocation |
| RedisStorage.Storage.Rotate | services/auth/internal/storage/redis/redis.go:91-144 | new keyspace and error of the Exists check and the pipeline, for every failure and every prefix executed |
| RedisStorage.SaveAnswers | services/auth/internal/storage/redis/redis.go:30-52 | which error a save reports, by expiry, failure and visibility, and when the keyspace stays the same |
| RedisStorage.GetAnswers | services/auth/internal/storage/redis/redis.go:54-75 | a reader gets the visible record, or is told unreachable, not found or revoked |
| RedisStorage.RevokeAnswers | services/auth/internal/storage/redis/redis.go:77-89 | acknowledged exactly if the token was visible and the reply arrives; gone from every later view whenever the command arrives |
| RedisStorage.SaveThenGet | services/auth/internal/storage/redis/redis.go:30-75 | a saved record is what a reader gets until its TTL has run out; other keys are untouched |
| RedisStorage.RotateAlone | services/auth/internal/storage/redis/redis.go:91-144 | without interference the swap succeeds exactly if the old token is alive and the new one unexpired, different and free, and then replaces one visible record by the other |
| RedisStorage.RotateEffects | services/auth/internal/storage/redis/redis.go:97-143 | for every failure and every prefix of the batch: which of removing the old token and storing the new one has happened, nothing else has, and success is reported exactly if the batch was delivered and did both |
| RedisStorage.RotateAnswers | services/auth/internal/storage/redis/redis.go:97-143 | which error a rotation reports, for every failure and every prefix of the batch |
| RedisStorage.RefusedSwap | services/auth/internal/storage/redis/redis.go:97-143 | a refused swap leaves the keyspace as it was if and only if no batch was sent or the executed part found neither the old token alive nor the new key free |
| RedisStorage.TornSwaps | services/auth/internal/storage/redis/redis.go:119-141 | a late Del stores the new token in spite of the error, a taken new key removes the old token in spite of the error, a cut after Del leaves neither |
| MockStore.MockRepository.SaveRefreshToken | services/auth/internal/storage/mock/mock.go:20-25 | stores the caller's own object under its token unless taken |
| MockStore.MockRepository.GetRefreshToken | services/auth/internal/storage/mock/mock.go:27-36 | hands out the stored object itself |
| MockStore.MockRepository.RevokeRefreshToken | services/auth/internal/storage/mock/mock.go:38-55 | sets one object's flag in place and leaves every other object and the map as they are |
| MockStore.MockRepository.RotateRefreshToken | services/auth/internal/storage/mock/mock.go:57-79 | revokes, then saves; keeps every entry under its own token |
| MockStore.RunIsMonotone | services/auth/internal/storage/mock/mock.go:20-79 | over every run no key vanishes, no revocation is undone, nothing else of a record changes |
| MockStore.RefusedRotation | services/auth/internal/storage/mock/mock.go:57-70 | a refused rotation changes the table exactly if the old token was there unrevoked, and then only revokes it |
| SqliteStore.Storage.ExecUpdate | services/auth/internal/storage/sqlite3/sqlite.go:122-137 | the update sets the flag of every row of the token and tells whether there was one |
| SqliteStore.Storage.ExecInsert | services/auth/internal/storage/sqlite3/sqlite.go:104-119 | one new row, or the table as it was with the unique-constraint or transport error |
| SqliteStore.Storage.RotateRefreshToken | services/auth/internal/storage/sqlite3/sqlite.go:83-101 | working in place with rollback, the transaction is all or nothing, whichever statement fails |
| SqliteStore.RotationIsAtomic | services/auth/internal/storage/sqlite3/sqlite.go:83-137 | on any error, old equal to new included, the table is unchanged; success exactly if nothing fails, the old token has a row and the new one none; tokens stay unique |
| SqliteStore.RotationAnswers | services/auth/internal/storage/sqlite3/sqlite.go:83-137 | which error a rotation reports, for every failing statement |
| SqliteStore.RotationReplaces | services/auth/internal/storage/sqlite3/sqlite.go:83-137 | on success a reader finds the old row revoked, the new record, and every other row as before |
| SqliteStore.RunStaysUnique | services/auth/internal/storage/sqlite3/sqlite.go:83-137 | no run stores a token twice |
| JwtService.JWTService.Generate | services/auth/internal/service/jwt.go:46-57 | mints and saves; the store's new contents and the answer, over each store |
| JwtService.JWTService.Validate | services/auth/internal/service/jwt.go:86-117 | signature and kind before the store, then presence and revocation |
| JwtService.JWTService.Refresh | services/auth/internal/service/jwt.go:125-143 | validates, mints, swaps; the store's new contents and the answer, over each store |
| JwtService.JWTService.RevokeRefreshToken | services/auth/internal/service/jwt.go:120-122 | the store's revocation |
| JwtService.ValidateAnswers | services/auth/internal/service/jwt.go:86-117 | which answer ValidateRefreshToken gives on every store: signature, life and kind first, then failure, absence and revocation |
| JwtService.RevokeAnswers | services/auth/internal/service/jwt.go:120-122 | a logout is acknowledged exactly if the store can be reached and has a record of the token, alive on Redis; "not found" if it has none |
| JwtService.RevokeEnds | services/auth/internal/service/jwt.go:86-122 | after an acknowledged logout the token is refused whenever it is tried, and other tokens are untouched |
| JwtService.GenerateStores | services/auth/internal/service/jwt.go:46-57 | a pair is handed out exactly if the store takes the record, and then the store has it for the user while it lasts, and all else as before |
| JwtService.RefreshReplaces | services/auth/internal/service/jwt.go:125-143 | a token that does not validate is refused with that error and nothing is changed; after a success the old token is refused for ever and the new one is in the store for the same user |
| StoreAgreement.StoresAgreeIff | services/auth/internal/service/jwt.go:46-143 | on every history of whole calls the three stores answer alike, logouts of live tokens included, and as a plain set of live tokens does, if and only if the refresh TTL is positive |
| StoreAgreement.ServeSimulates | services/auth/internal/service/jwt.go:46-143 | each call on each store simulates the call on the set of live tokens |
| StoreAgreement.SecondLogout | services/auth/internal/service/jwt.go:120-122 | a repeated logout is refused by Redis and acknowledged by the other stores |
| StoreAgreement.SecondSwap | services/auth/internal/storage/mock/mock.go:45-55 | a second swap of a validated token fails on Redis and succeeds on the other stores |
| RotationSteps.Reachable | services/auth/internal/storage/redis/redis.go:30-144 | the invariant holds in every state of every interleaved run |
| RotationTheorems.SingleUse | services/auth/internal/storage/redis/redis.go:91-144 | over every interleaving at most one RefreshTokens or RevokeRefreshToken call naming a token succeeds |
| RotationTheorems.SpentForGood | services/auth/internal/storage/redis/redis.go:77-144 | a token used up is in no later state stored again |
| RotationTheorems.SomeoneWins | services/auth/internal/storage/redis/redis.go:119-143 | without failed commands, a stored token that is gone at quiescence was used up by a call that succeeded |
| RotationRaces.RaceOutcome | services/auth/internal/storage/redis/redis.go:119-143 | two refreshes past their Exists, over every continuation and every failure: each ends having swapped the token its own Del removed, or told not found with the token gone, or expired, or, only if its own command failed, unreachable; never do both succeed, and undisturbed exactly one does |
| RotationRaces.AnyTokenCanRace | services/auth/internal/storage/redis/redis.go:97-143 | from every reachable state any acceptable token can be raced for, and the race can end with one success and one orphan, both new tokens stored |
| RotationRaces.FirstTokenIsGood | services/auth/internal/service/jwt.go:46-57 | with a positive lifetime there is a run after which an issued token is acceptable |
| RotationTheorems.LinksAreUnique | services/auth/internal/service/jwt.go:125-143 | a token has at most one successor and at most one predecessor |
| RotationTheorems.ChainsAgree | services/auth/internal/service/jwt.go:125-143 | two chains from one token are prefixes of each other |
| RotationTheorems.OneLivePerChain | services/auth/internal/service/jwt.go:125-143 | at most one token of a session is in the store, the last of its chain |
| RotationTheorems.ChainKeepsUser | services/auth/internal/service/jwt.go:46-57 | all tokens of a chain are for the user of the GenerateTokens call that began it |
| RotationTheorems.UsersAreGenuine | services/auth/internal/service/jwt.go:86-117 | a validated user, and the user of any stored token, is one GenerateTokens was called for |
| RotationTheorems.KindsNeverMix | services/auth/internal/service/jwt.go:60-117 | every stored key is a refresh token for its record's user and passes as access token at no time |
| RotationTheorems.OtherKindsAreInert | services/auth/internal/service/jwt.go:86-122 | an access token, or anything else that is no refresh token, is refused by every lookup and found by no revocation |
| RotationTheorems.PairsAreForOneUser | services/auth/internal/service/jwt.go:146-200 | both halves of every returned pair are this service's, of their kinds, for one user, the one of the token refreshed |
| RotationTheorems.AcceptedWhileLive | services/auth/internal/service/jwt.go:86-117 | a token is accepted exactly if issued, not used up, within its signed life and alive in the store, the last of which is implied up to the signed expiry |
| RotationTheorems.KeyAccounting | services/auth/internal/storage/redis/redis.go:97-143 | at quiescence without failures, keys written, removed and left are counted by the calls that succeeded or lost their race |
| RotationRaces.OrphanIsNobodys | services/auth/internal/storage/redis/redis.go:127-133 | in every reachable state the new token of a refresh that lost its race was stored by it and is stored still unless used up, and no call has returned it |
| RotationAlone.RefreshAlone | services/auth/internal/service/jwt.go:125-143 | an uninterrupted RefreshTokens does command by command what the service does in one go, for all instants in program order and all failures |
| RotationAlone.GenerateAlone | services/auth/internal/service/jwt.go:46-57 | the step of a GenerateTokens call does what the service does, for every failure |
| RotationAlone.ValidateAlone | services/auth/internal/service/jwt.go:86-117 | the step of a ValidateRefreshToken call answers as the service does, for every failure |
| RotationAlone.RevokeAlone | services/auth/internal/service/jwt.go:120-122 | the step of a RevokeRefreshToken call does what the service does, for every failure |
| RateLimiter.Limiter.Check | services/gateway/internal/delivery/rest/middleware/ratelimiter.go:44-73 | counters and result of one check, for every combination of failing commands |
| RateLimiter.Limiter.Middleware | services/gateway/internal/delivery/rest/middleware/ratelimiter.go:75-141 | counters of one request; it is handed on exactly if every check it needs succeeds and finds fewer than the limit in the table, answered 429 exactly if one finds the limit reached, 500 without headers exactly if one fails; each header is the limit or what is left of it |
| RateLimiter.HandleAnswers | services/gateway/internal/delivery/rest/middleware/ratelimiter.go:75-141 | the same of the function behind the method, in terms of the INCR replies and the two tables |
| RateLimiter.KeysNeverCollide | services/gateway/internal/delivery/rest/middleware/ratelimiter.go:93-107 | keys are equal exactly if path and address are, for all paths and all peer addresses or the word for all |
| LimiterSteps.Reachable | services/gateway/internal/delivery/rest/middleware/ratelimiter.go:44-141 | the limiter's invariant holds in every state of every interleaved run |
| LimiterTheorems.CounterOwnership | services/gateway/internal/delivery/rest/middleware/ratelimiter.go:55-67 | a counter without a deadline belongs to exactly one call in flight, the one whose Incr opened its window, unless stranded by a failed Del or a lost reply |
| LimiterTheorems.AtRestAllExpire | services/gateway/internal/delivery/rest/middleware/ratelimiter.go:55-67 | if no Del fails and no Incr loses its reply, every counter has a deadline once all requests are answered |
| LimiterTheorems.OwnerArmsItsCounter | services/gateway/internal/delivery/rest/middleware/ratelimiter.go:55-67 | Expire finds its caller's own counter, without a deadline, and gives it exactly one expiry |
| LimiterTheorems.DeadlineIsFinal | services/gateway/internal/delivery/rest/middleware/ratelimiter.go:55-67 | a deadline once set is never moved until it has passed and a new window begins |
| LimiterTheorems.WindowExact | services/gateway/internal/delivery/rest/middleware/ratelimiter.go:45-72 | Incr replies 1, 2, 3, ... to the requests of a window, each result is what is then left of the limit and whether it is nothing, and of n checks exactly min(n, limit-1) do not exceed |
| LimiterTheorems.WindowAdmits | services/gateway/internal/delivery/rest/middleware/ratelimiter.go:75-141 | a window hands on at most limit-1 requests, by the limit in the table, and exactly min(n, limit-1) when all n are answered without errors and the route has no other limit |
| LimiterTheorems.AtMostTwoWindows | services/gateway/internal/delivery/rest/middleware/ratelimiter.go:44-73 | in no interval of one expiry do more than 2*(limit-1) checks of a counter that was always given its deadline let their request pass, so no more requests are let through |
| LimiterTheorems.RouteBound | services/gateway/internal/delivery/rest/middleware/ratelimiter.go:75-141 | at most 2*(limit-1) requests for a path with a limit in the table, from one peer if the limit is per address, counted within one expiry are handed on |
| LimiterSharpness.BoundIsReached | services/gateway/internal/delivery/rest/middleware/ratelimiter.go:75-141 | for every limit with an expiry there is a run in which 2*(limit-1) requests are handed on within one expiry |
| LimiterSharpness.ServedIsARun | services/gateway/internal/delivery/rest/middleware/ratelimiter.go:75-141 | requests one after the other are a run of the interleaved limiter with the responses of the limiter that serves them one by one |
| LimiterTheorems.UnspoiledRun | services/gateway/internal/delivery/rest/middleware/ratelimiter.go:55-67 | with positive expiries no failed Expire and no lost Incr reply no key is excluded from the bound |
| LimiterTheorems.ResponsesAreJust | services/gateway/internal/delivery/rest/middleware/ratelimiter.go:75-141 | over every interleaving: 500 exactly if a check of the request failed, otherwise handed on exactly if all replies are below the limits of its path in the tables and 429 if not, with exactly the headers of those limits |
| LimiterTheorems.VerdictsAreJust | services/gateway/internal/delivery/rest/middleware/ratelimiter.go:88-139 | a request passes exactly if counted under every limit of its route, and the figures reported are what is left |
| LimiterTheorems.TwoCounterConservation | services/gateway/internal/delivery/rest/middleware/ratelimiter.go:92-118 | global increments are the sum of the per-address ones and the requests between or stopped between the two |
| LimiterMishaps.LostReplyStrands | services/gateway/internal/delivery/rest/middleware/ratelimiter.go:45-67 | an Incr whose reply is lost answers with an error, and leaves a counter without a deadline that no call owns exactly if it created it |
| LimiterMishaps.StrandedLocks | services/gateway/internal/delivery/rest/middleware/ratelimiter.go:55-72 | a stranded counter never expires nor starts anew over every continuation, and lets through at most what it had left |
| LimiterMishaps.SecondCheck | services/gateway/internal/delivery/rest/middleware/ratelimiter.go:45-72 | a second check counts on from the first exactly if it comes within the expiry |
| LimiterMishaps.NoExpiryNoLimit | services/gateway/internal/delivery/rest/middleware/ratelimiter.go:55-118 | with limits above one and an expiry that is missing or not positive, no request of any sequence is turned away |
| LimiterAlone.HandleAlone | services/gateway/internal/delivery/rest/middleware/ratelimiter.go:75-141 | an uninterrupted request is handled step by step as by the middleware in one go |
| Metrics.Collector.Middleware | services/gateway/internal/delivery/metrics/middleware/metrics.go:65-102 | the client gets what the handler wrote under one header, and the status counted is the one in it; effect on all four metrics, panics included |
| Metrics.MetricsConservation | services/gateway/internal/delivery/metrics/middleware/metrics.go:65-102 | over every interleaving gauge, request counters, histogram and error counter balance, up to requests between two updates, by the status in the header each client got |
| Metrics.BalancedAtRest | services/gateway/internal/delivery/metrics/middleware/metrics.go:65-102 | with no request in flight the gauge is zero and all sums agree |
| Metrics.RequestAlone | services/gateway/internal/delivery/metrics/middleware/metrics.go:65-102 | an uninterrupted request updates the registry, and answers its client, step by step as the middleware does |
| ResponseWriter.ResponseWriter.DoWriteHeader | services/gateway/pkg/httputil/response.go:28-35 | only the first header is passed on and remembered |
| ResponseWriter.ResponseWriter.DoWrite | services/gateway/pkg/httputil/response.go:37-42 | a body is passed on after a header, 200 if there was none |
| ResponseWriter.NewSafeResponseWriter | services/gateway/pkg/httputil/response.go:20-26 | a wrapper is handed back as it is, anything else is wrapped |
| ResponseWriter.OneHeaderFirst | services/gateway/pkg/httputil/response.go:28-42 | whatever is written, one header, the first, goes before all bodies in order, and the wrapper reports it |
| ResponseWriter.HeaderIsFirst | services/gateway/pkg/httputil/response.go:28-42 | the header sent carries the first code asked for, or 200 if a body came first, and so does the wrapper |
| ResponseWriter.ServeThrough | services/gateway/pkg/httputil/response.go:13-42 | the same through any number of nested safe wrappings |
| Users.MockStorage.Create | services/user/internal/storage/mock/mock.go:20-30 | a user is stored if the name is free |
| Users.UserService.Register | services/user/internal/service/user.go:31-57 | new table and answer of a registration |
| Users.UserService.Login | services/user/internal/service/user.go:59-78 | the answer of a login |
| Users.FirstComeForGood | services/user/internal/service/user.go:31-57 | over every run a stored user never changes and has a name of 3 to 20 bytes |
| Users.RegistersIff | services/user/internal/service/user.go:31-57 | a registration succeeds exactly if it is acceptable and the first of its name |
| Users.LoginIff | services/user/internal/service/user.go:59-78 | on every input: names and passwords of the wrong length are refused as such; otherwise login yields the identifier of the name's one registration exactly if the hasher accepts the password for its hash |
| Users.MockLoginIff | services/user/pkg/hasher/mock.go:10-16 | with the mock hasher, exactly the registered password logs in |

## Left out

- gRPC, HTTP and TLS plumbing, configuration, logging, migrations, the circuit breaker and the bearer-header
  middleware: wiring without state of its own.
- The mapping of errors to status codes in handlers and clients: finite tables.
- Cryptography, UUIDs and JSON: replaced by the assumptions above. bcrypt is a parameter: a hash that is
  given and a comparison function.
- Single use on the mock and SQLite stores under concurrency: it does not hold there, see
  `StoreAgreement.SecondSwap`.
- Users are values: nothing in the repository writes to a stored user, so sharing a pointer to one cannot
  be observed.
- The PostgreSQL and SQLite user stores: the same name-keyed table as the mock one.
- A limiter EXPIRE that takes effect although its reply is lost: a later DEL by the same call could then
  remove a newer counter.
- The overflow of Redis's 64-bit counters, floating-point metric values, and the buckets of the histogram.
