# Laptop service over gRPC — a Dafny model

This project models the core of a small Go gRPC service that stores laptops,
accepts image uploads for them, collects ratings, and authenticates users with
access tokens. It covers:

- The laptop handlers (`LaptopService`):
  - `CreateLaptop` validates or generates the laptop ID and maps save errors to status codes.
  - `SearchLaptop` maps the store's search error to a status.
  - `UploadImage` is a client stream. It reads the image info, collects chunks under the 1 MiB cap and hands the image to the image store once.
  - `RateLaptop` is a bidirectional stream. Each request adds a score to the rating store and answers with the running count and average.
- The in-memory stores:
  - `UserRepository`: users are unique by name and handed out as copies.
  - `RatingRepository`: one `*Rating` per laptop, updated in place.
  - `LaptopRepository`: the laptop and image stores the handlers call, whose implementations are not part of this model.
- The user entity (`Entity`): building a user hashes the password, and a password is checked against the stored hash.
- The login decision (`AuthService`).
- The client's token interceptor (`ClientAuth`). It attaches the cached token to guarded calls, refreshes the token, and chooses how long to wait before the next refresh.
- The server's start-up data (`ServerMain`): the method-to-roles table and the seeding of two accounts. The client's list of guarded methods (`ClientMain`) is checked against that table.

Collaborators outside the model become arguments:

| collaborator | modelled as |
|---|---|
| context cancellation | the error of the context at each check |
| `uuid.Parse` | a predicate |
| `uuid.NewRandom` | its outcome |
| failures of the store implementations | an optional fault |
| the image store's answer | a given reply |
| failed sends on the stream | an optional fault per send |
| bcrypt | a hash function and a compare function |
| the JWT manager | a token function |
| the login RPC | one outcome per refresh |

A stream is a finite sequence of turns. Each turn is the context check followed by one `Recv`. Past its end the stream reports `io.EOF`.

## Model

| member | source | states |
|---|---|---|
| `Base.Uint32` | internal/service/laptop_server.go:152 | `uint32(x)` is below 2^32 and is `x` itself whenever `x` fits |
| `Entity.User.Clone` | internal/entity/user.go:33-39 | the copy has the same username, hash and role (and, as a value, equals the original) |
| `Entity.User.IsCorrectPassword` | internal/entity/user.go:28-31 | a password is accepted exactly when bcrypt's comparison of the stored hash with it reports no error; the username and role play no part |
| `Entity.NewUser` | internal/entity/user.go:15-26 | succeeds exactly when hashing succeeds; the user then carries the given username, role and the hash; a hashing failure is returned wrapped with "cannot hash password" so that `errors.Is` still finds the cause |
| `UserRepository.InMemoryUserStore.constructor` | internal/repository/user_store.go:19-23 | a new store holds no users |
| `UserRepository.InMemoryUserStore.Save` | internal/repository/user_store.go:25-35 | fails exactly when the username is taken, with `ErrAlreadyExists` and no change; otherwise stores a clone under the username and leaves every other entry as it was |
| `UserRepository.InMemoryUserStore.Find` | internal/repository/user_store.go:37-47 | never fails; finds nothing exactly when the username is absent; a found user has the stored user's username, hash and role |
| `UserRepository.SaveThenFind` | internal/repository/user_store.go:25-47 | round trip: after a successful Save, Find by the same username yields that user; a refused Save leaves the store and what Find reports unchanged |
| `RatingRepository.Rating.constructor` | internal/repository/rating_store.go:31 | `&Rating{}` has count 0 and sum 0 |
| `RatingRepository.AddScore` | internal/repository/rating_store.go:29-36 | the aggregate update of one Add: the key set gains the laptop, its count rises by one and its sum by the score (from zero when absent), and every other laptop's aggregate is unchanged |
| `RatingRepository.InMemoryRatingStore.constructor` | internal/repository/rating_store.go:19-23 | a new store holds no ratings and no two laptops share a Rating |
| `RatingRepository.InMemoryRatingStore.Entry` | internal/repository/rating_store.go:29-33 | the lookup half of Add: the laptop's existing Rating, or a fresh zero Rating stored under it; aggregates and other entries unchanged |
| `RatingRepository.InMemoryRatingStore.Increment` | internal/repository/rating_store.go:35-36 | incrementing one laptop's live Rating in place changes that laptop's aggregate as `AddScore` says and no other, because no two laptops share a Rating |
| `RatingRepository.InMemoryRatingStore.Add` | internal/repository/rating_store.go:25-39 | never fails; the stored aggregates become `AddScore` of the old ones; the Rating returned is the live entry, the same object as before for a known laptop and a fresh one otherwise; existing entries keep their objects; no two laptops come to share a Rating |
| `LaptopRepository.LaptopStore.Save` | internal/service/laptop_server.go:51-58 | the store as CreateLaptop relies on it: a fault of the implementation is returned as is; a taken ID fails with `ErrAlreadyExists`; otherwise a copy is stored under the ID; a failed save changes nothing |
| `LaptopRepository.LaptopStore.Find` | internal/service/laptop_server.go:100-107 | a fault of the implementation is an error; otherwise the laptop with that ID, or nothing when absent |
| `LaptopRepository.ImageStore.Save` | internal/service/laptop_server.go:145-148 | each call is recorded once, in order, with the laptop ID, image type and bytes, and the store's reply is returned |
| `LaptopService.LaptopServer.constructor` | internal/service/laptop_server.go:26-28 | the server holds the three stores it is given |
| `LaptopService.ChooseId` | internal/service/laptop_server.go:34-45 | a non-empty ID is kept when it is a UUID and refused with InvalidArgument otherwise; an empty ID is replaced by a generated one, or refused with Internal when generation fails |
| `LaptopService.SaveErrorCode` | internal/service/laptop_server.go:52-57 | AlreadyExists exactly when the save error is or wraps `ErrAlreadyExists`, Internal for every other error |
| `LaptopService.CreateOutcome` | internal/service/laptop_server.go:30-65 | for a request carrying a laptop, CreateLaptop succeeds exactly when the ID is accepted, the context is live, the store has no fault and the ID is free, and the reply is then that ID; a failed ID generation is Internal, a cancelled context is reported as it is, and a store fault gets its save error code |
| `LaptopService.CreateAsWritten` | internal/service/laptop_server.go:30-45 | a request with a laptop is answered as `CreateOutcome`; a request without one is Internal when ID generation fails and panics exactly when it succeeds |
| `LaptopService.MissingLaptopPanics` | internal/service/laptop_server.go:31-44 | a request without a laptop and a successful ID generation panic, whatever the context and the store |
| `LaptopService.CreateChecked` | internal/service/laptop_server.go:30-65 | the corrected handler: a request without a laptop is refused with InvalidArgument; a request with one is answered exactly as written; no request panics |
| `LaptopService.CheckedPreservesWellFormed` | internal/service/laptop_server.go:30-65 | the corrected handler refuses a request without a laptop and keeps every stored laptop under its own ID, which is a UUID |
| `LaptopService.MalformedIdRefused` | internal/service/laptop_server.go:34-38 | a malformed non-empty ID is refused with InvalidArgument, whatever the context and the store |
| `LaptopService.CreateConflictsAndCancellation` | internal/service/laptop_server.go:47-58 | with an accepted ID, a cancelled context is reported as it is, and a taken ID is refused with AlreadyExists |
| `LaptopService.CreatePreservesWellFormed` | internal/service/laptop_server.go:30-65 | if generated IDs parse as UUIDs, every stored laptop still sits under its own ID and that ID is a UUID |
| `LaptopService.LaptopServer.CreateLaptop` | internal/service/laptop_server.go:30-65 | ends as `CreateAsWritten` says, for a present or a missing (null) laptop, so it panics on a request without a laptop once an ID is generated; writes the chosen ID into a present laptop in place; the store gains the laptop under the reply's ID exactly when the reply is a success, and is unchanged otherwise (a panic included) |
| `LaptopService.SearchLaptop` | internal/service/laptop_server.go:67-88 | the call fails exactly when the store's search fails, and then always with Internal |
| `LaptopService.ImageInfo` | internal/service/laptop_server.go:91-107 | a failed first receive, io.EOF included, is Unknown; a store fault is Internal; an unknown laptop is NotFound; otherwise, exactly when the first message names a laptop in the store, the upload is accepted for that laptop with the message's image type |
| `LaptopService.ConcatLength` | internal/service/laptop_server.go:129-142 | the bytes collected are exactly as many as the chunk lengths add up to, so `imageSize` tracks `imageData` |
| `LaptopService.SizeOfPrefix` | internal/service/laptop_server.go:134-137 | the running size never decreases, so once a prefix of the chunks is over the cap, the whole stream is too |
| `LaptopService.ReceiveImage` | internal/service/laptop_server.go:112-143 | the image completes exactly when the chunks stay within the cap and the loop stops at io.EOF with a live context; within the cap, a cancelled context is reported as it is and a broken receive is Unknown |
| `LaptopService.ReceiveChunks` | internal/service/laptop_server.go:112-143 | the receive loop, tracking the running size and aborting at the chunk that passes the cap, ends as `ReceiveImage` says |
| `LaptopService.ReceivedImageBounded` | internal/service/laptop_server.go:112-143 | a completed image is the delivered chunks in order, its length is their total size and it is at most `MAX_IMAGE_SIZE`; a larger total is always refused with InvalidArgument |
| `LaptopService.UploadReply` | internal/service/laptop_server.go:145-160 | succeeds exactly when the image store and the final send both succeed, and the reply carries the image store's ID and the image size; an image store failure is Internal, and a failed final send is Unknown |
| `LaptopService.LaptopServer.UploadImage` | internal/service/laptop_server.go:90-161 | a failure of the info step is returned with the image store untouched; an aborted receive loop (cancellation, broken receive, image over the cap) is returned with the image store untouched; otherwise the image store gets exactly one call, with the laptop, the type and the whole image, and the reply is `UploadReply` |
| `LaptopService.RatedAggregate` | internal/service/laptop_server.go:193-202 | after a run of Adds, a laptop's count is its count before plus the number of requests for it, and its sum is its sum before plus their scores |
| `LaptopService.Respond` | internal/service/laptop_server.go:198-202 | the response names the laptop and carries its count, and the average times the count is the sum of its scores |
| `LaptopService.ResponseAt` | internal/service/laptop_server.go:198-204 | the j-th response names the j-th request's laptop; its count is that laptop's count before the stream plus its requests among the first j + 1, and its average is the running average over them |
| `LaptopService.RatingExample` | internal/service/laptop_server.go:193-204 | scores 10, 8 and 6 for one laptop in an empty store are answered with counts 1, 2, 3 and averages 10, 9, 8 |
| `LaptopService.RateEnding` | internal/service/laptop_server.go:165-207 | the stream ends without error exactly at io.EOF with a live context; a cancelled context is reported as it is; a broken receive is Unknown; for a request, a store fault is Internal, NotFound comes exactly when the store has no fault and does not know the laptop, and a request for a known laptop ends the stream only through a failed send, which is Internal |
| `LaptopService.RateStep` | internal/service/laptop_server.go:165-207 | one loop turn: it answers exactly when the turn completes, and the answer is the laptop's new count and average; otherwise it yields the ending error, after adding the score only when the send alone failed |
| `LaptopService.LaptopServer.RateLaptop` | internal/service/laptop_server.go:163-211 | the client receives one response per completed request, in order, as `Responses` gives them; the call ends with the error of the first turn that does not complete (cancellation as it is, a broken receive Unknown, a store fault Internal, an unknown laptop NotFound, a failed send Internal) or with none at io.EOF; the store ends with exactly the scores that were added, including the one whose response could not be sent |
| `AuthService.LoginDecision` | internal/service/auth_server.go:24-43 | a lookup error is returned unchanged; an unknown user and a wrong password are both NotFound; a token failure is Internal; otherwise the reply carries the token generated for that user |
| `AuthService.GeneratorOnlyAfterChecks` | internal/service/auth_server.go:30-34 | no token is generated unless the user exists and the password is right: before that, the generator cannot affect the reply |
| `AuthService.WrongPasswordLooksLikeUnknownUser` | internal/service/auth_server.go:30-32 | a wrong password gets the same reply as an unknown username |
| `AuthService.AuthServer.constructor` | internal/service/auth_server.go:17-22 | the server holds the user store it is given |
| `AuthService.AuthServer.Login` | internal/service/auth_server.go:24-43 | against the in-memory store: an unknown username is NotFound, and a token is issued exactly to a stored user whose password checks and for whom generation succeeds, and it is that user's token |
| `ClientAuth.NextWait` | cmd/client/auth/auth_interceptor.go:87-93 | the wait after a failed refresh is 10 seconds, after a successful one the refresh duration |
| `ClientAuth.Waits` | cmd/client/auth/auth_interceptor.go:84-94 | one wait per round: the first is the refresh duration, and each later one is 10 seconds after a failed login and the refresh duration after a successful one |
| `ClientAuth.LatestTokenIsLastSuccess` | cmd/client/auth/auth_interceptor.go:100-109 | after a run of refreshes, the cached token is the last successful login's token, or the old token when none succeeded |
| `ClientAuth.AuthInterceptor.constructor` | cmd/client/auth/auth_interceptor.go:23-26 | a new interceptor keeps the guarded-method list and starts with an empty token |
| `ClientAuth.AuthInterceptor.AttachToken` | cmd/client/auth/auth_interceptor.go:73-75 | the outgoing metadata keeps its pairs and gains exactly one more at the end, `authorization` with the cached token |
| `ClientAuth.AuthInterceptor.Unary` | cmd/client/auth/auth_interceptor.go:36-53 | for a guarded method, the outgoing metadata gains exactly one pair, `authorization` with the cached token, appended after the existing pairs; any other method's context passes unchanged |
| `ClientAuth.AuthInterceptor.Stream` | cmd/client/auth/auth_interceptor.go:55-71 | the same attach-or-not rule for streaming calls |
| `ClientAuth.StreamDecidesAsUnary` | cmd/client/auth/auth_interceptor.go:65-69 | Stream and Unary hand on the same context for every method |
| `ClientAuth.AuthInterceptor.RefreshToken` | cmd/client/auth/auth_interceptor.go:100-110 | a failed login returns its error and keeps the cached token; a successful one caches the new token |
| `ClientAuth.AuthInterceptor.ScheduleRefreshToken` | cmd/client/auth/auth_interceptor.go:77-82 | the first refresh is synchronous: its error is returned, and the token is set only when it succeeds |
| `ClientAuth.AuthInterceptor.RefreshLoop` | cmd/client/auth/auth_interceptor.go:83-95 | over a run of rounds, the waits slept are `Waits` and the cached token ends as the last successful login left it |
| `ClientAuth.NewAuthInterceptor` | cmd/client/auth/auth_interceptor.go:18-34 | fails, with the login's error, exactly when the first refresh fails; otherwise returns a new interceptor with the given guarded methods, holding the first token |
| `ServerMain.AccessibleRoles` | cmd/server/main.go:50-56 | exactly creating a laptop, uploading an image and rating are guarded; admins may call each, and no role other than admin and user appears |
| `ServerMain.AccessPolicy` | cmd/server/main.go:50-56 | only admins may create laptops and upload images; admins and users may rate; search and login have no entry and so are public; the table has exactly three entries |
| `ServerMain.CreateUser` | cmd/server/main.go:32-39 | a hashing failure ends in `log.Fatal` with the wrapped error and saves nothing; otherwise the user is saved: refused with `ErrAlreadyExists` and no change when the name is taken, stored with the given name, role and hash otherwise |
| `ServerMain.SeedUsers` | cmd/server/main.go:41-48 | creates `admin1` (admin) and then `user1` (user), both with password "secret"; if `admin1` fails, that failure is returned and `user1` is not attempted; if `user1` is taken, `admin1` stays saved |
| `ServerMain.SeedNewStore` | cmd/server/main.go:41-48 | seeding an empty store with a working hash gives exactly `admin1` with role admin and `user1` with role user |
| `ClientMain.AuthMethods` | cmd/client/main.go:81-88 | the client lists exactly the methods the server's table guards, each marked as needing the token |
| `ClientMain.TokenExactlyForGuardedMethods` | cmd/client/main.go:81-88 | with the client's list, the token is attached exactly to the methods the server's table guards, and never to search or login |

## Findings

| source | as written | input that shows it | evidently intended | confidence | as-written member | corrected member |
|---|---|---|---|---|---|---|
| internal/service/laptop_server.go:31-44 | `req.GetLaptop()` may be nil; `GetId()` of nil is empty, so an ID is generated and then assigned with `laptop.Id = ...`, which dereferences nil and panics; when served over gRPC (the default `-type grpc`), the server installs no recovery interceptor, so the process ends; over REST, `net/http` recovers the panic and only that request fails | a `CreateLaptopRequest` without a laptop, when `uuid.NewRandom` succeeds | the request is refused with an error status (InvalidArgument) and the gRPC server keeps running | high, not executed | `LaptopService.MissingLaptopPanics` | `LaptopService.CreateChecked` |

## Left out

- Locking and concurrency:
  - The stores' `sync.RWMutex` is not modelled; each store operation is one atomic step.
  - The refresh goroutine runs concurrently with calls that read `accessToken` unsynchronised. That race is not modelled.
  - `time.Sleep` is not modelled; the waits are recorded instead.
- `ClientAuth.AuthInterceptor.RefreshLoop`: the goroutine loops forever. The model runs a finite number of rounds, one per login outcome given.
- `RatingRepository.InMemoryRatingStore.Add`: does not model the uint32 wrap-around of `Count`. Add requires the laptop's count to be below 2^32 - 1. In Go the count would wrap to 0, and the average would then divide by zero.
- `LaptopService.LaptopServer.RateLaptop`: for the same reason, it requires every laptop's count plus the number of turns to stay within uint32.
- Scores, sums and averages are exact reals. float64 rounding is not modelled.
- The store implementations are not part of this model:
  - The laptop store's implementation, including the search filter and how search streams its matches, is not modelled. The laptop store is an abstract map with an optional fault per call. For `SearchLaptop` only the mapping of the search error is modelled.
  - The disk image store is a sink that records each call and answers with a given reply.
  - `RateLaptop` is modelled against the in-memory rating store, not the `RatingStore` interface.
- Services and packages that are not part of this model:
  - The JWT manager, the server-side auth interceptor (which consumes the roles table) and `utils.ContextError` are not modelled. The context's error is an argument at each check.
  - The generated `pb` package is not modelled. Its full method names are taken to be the strings the client spells out (`/playingwithgolang.grpc.LaptopService/<Method>`), with `/playingwithgolang.grpc.AuthService/Login` for login.
- Two error branches that can never be taken are left out:
  - `ratingStore.Add` always returns a nil error, so its error branch in `RateLaptop` is unreachable.
  - `bytes.Buffer.Write` always returns a nil error, so its error branch in `UploadImage` is unreachable.
- bcrypt, uuid and the login RPC are functions or outcomes given as arguments:
  - A hash function gives equal hashes for equal passwords, whereas bcrypt salts every call. In `SeedUsers`, both accounts therefore get the same hash.
  - The login RPC's timeout is not modelled.
- `Entity.User.Clone`: users are values, so the pointer identity of `*User` is not modelled. The slice Clone shares with the original (`HashedPassword`) is not modelled either.
- `log.Fatal` is the `Fatal` outcome, and a panic in `CreateLaptop` is the `Panicked` outcome. Ending the process is not modelled.
- The fields of a laptop other than its ID are one opaque value (`Pb.Specs`), since no handler reads them.
- Logging (`log.Printf`, `utils.LogError`) and the text of status messages are not modelled. Errors are compared by code, by sentinel and by wrapping.
- The outgoing gRPC context is reduced to its list of metadata pairs.
- Not modelled: transport, TLS credentials, listeners, the REST gateway, flag parsing, and the client's test flows in its `main`.
