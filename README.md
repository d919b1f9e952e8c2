# gRPC Playground: a verified model of its call gates, stores and handlers

This project models the core of the gRPC Playground repository in Dafny and
proves properties of the model. The repository holds a laptop service with
JWT-based role authorization and two small demo services. The modelled core:

- **Server call gate** (`service/auth_interceptor.go`). A static table maps
  RPC method names to the roles allowed to call them. `authorize` passes every
  method outside the table. A listed method needs incoming metadata and a
  non-empty `authorization` value list. Its first value must verify, and the
  verified role must be listed. The unary and stream interceptors run the
  handler only when `authorize` passes.
- **Client call gate** (`client/auth_interceptor_client.go`). The client
  caches the latest access token. It refreshes it by logging in again: after
  the full period when the last login succeeded, after one second when it
  failed. The token is appended as an `authorization` pair only for methods
  whose `authMethods` entry is true.
- **Login and users** (`service/auth_server.go`, `service/user.go`,
  `service/user_store.go`). These cover the login decision chain, the
  password-hashing constructor, the credential store that refuses duplicate
  usernames, and the seeding of two users.
- **Laptop store** (`service/laptop_store.go`). It saves, finds and searches
  laptops. Search uses the inclusive `isQualified` filter and the `toBit`
  unit conversion on uint64 shifts. The store also keeps the rating
  accumulator.
- **Laptop handlers** (`service/laptop_server.go`):
  - `CreateLaptop`: id rules and the context check;
  - `SearchLaptop` and `GetLaptopByID`;
  - `UploadImage`: the chunk loop with its strict 1 MiB bound;
  - `RateLaptop`: the one-response-per-request loop;
  - `contextError`.
- **Order management demo** (`grpc-service/order-management-server/order-management-server.go`):
  - order lookup;
  - substring search that sends each matching order once;
  - last-write-wins updates with the reply string;
  - the pass-through unary interceptor;
  - the sample data.
- **Product info demo** (`grpc-service/productInfo-server/productInfo-server.go`):
  add with a generated id, creating the map lazily, and get.
- **Both gates together** (`end_to_end.dfy`):
  - the client command's `authMethods` table (`cmd/client/main.go`) gates
    exactly the methods the server's table protects;
  - a gated call reaches the server with the cached token as its first
    `authorization` value.

Outside calls are inputs, not code:

- JWT signing and verification are a function from token to claims or error
  text, and from user to token or error text.
- bcrypt is a hash function and a comparison predicate. bcrypt salts every
  call, so where two calls hash the same password (`SeedUsers`) each call is
  its own hash function.
- uuid parsing and generation are an error oracle and a generated id or
  error.
- The image store's save is a function from the saved image to an image id
  or error.
- Each stream `Send` is the error returned by the j-th send.
- The request context is its state at each step: live, canceled or past its
  deadline.
- Received streams are sequences of events: a message, EOF or a receive
  error. A position past the end reads as EOF.
- Go's map iteration order is an input. It is a list of the stored keys,
  each listed exactly once.

Stateful Go objects are Dafny classes whose methods are proved against
specification functions. These are:

- `InMemoryUserStore`, `InMemoryLaptopStore` and `InMemoryRatingStore`;
- the client `AuthInterceptor`;
- `LaptopServer`;
- the order and product servers.

The server-side `AuthInterceptor` is never written after construction, so it
is a value.

## Model

| member | source | states |
|---|---|---|
| ServerAuth.RoleListed | service/auth_interceptor.go:138-145 | The scan over the method's roles succeeds exactly when the role is in the list |
| ServerAuth.Authorize | service/auth_interceptor.go:99-151 | Passes a method outside the table. For a listed method: missing metadata gives Unauthenticated "metadata not provided". An empty `authorization` list gives Unauthenticated "Authorization token not provided". A failed verify of the first value gives Unauthenticated with the verifier's reason. A listed role passes; any other role gives PermissionDenied. A rejection is always one of those two codes |
| ServerAuth.AuthorizeAllowsExactly | service/auth_interceptor.go:99-151 | A call passes if and only if its method is public, or metadata is present and the first token verifies to a role the method lists |
| ServerAuth.PublicMethodIgnoresCredentials | service/auth_interceptor.go:101-107 | For a method outside the table the verdict is "pass", whatever the metadata and whatever the verifier |
| ServerAuth.OnlyFirstTokenMatters | service/auth_interceptor.go:119-128 | Two metadata maps whose first `authorization` values agree get the same verdict |
| ServerAuth.VerifierSeenOnlyOnFirstToken | service/auth_interceptor.go:127-134 | Two verifiers that agree on the first token give the same verdict |
| ServerAuth.LaptopServicePolicy | service/auth_interceptor.go:78-95 | With a verified token: SearchLaptop is public; CreateLaptop and UploadImage pass exactly for "admin"; RateLaptop passes exactly for "admin" or "user" |
| ServerAuth.Unary | service/auth_interceptor.go:29-48 | When `authorize` passes, the result is the handler's reply unchanged; otherwise it is the rejection |
| ServerAuth.Stream | service/auth_interceptor.go:52-71 | When `authorize` passes, the result is the handler's error unchanged; otherwise it is the rejection |
| ServerAuth.RejectedCallSkipsHandler | service/auth_interceptor.go:39-45 | A rejected call's reply does not depend on the handler, and the unary reply is a failure |
| ClientAuth.WaitBefore | client/auth_interceptor_client.go:77-95 | The first wait is the refresh period. After a successful attempt the wait is the period; after a failed one it is one second |
| ClientAuth.LatestTokenWithoutSuccess | client/auth_interceptor_client.go:50-95 | When no login attempt succeeded, the cached token is still the starting token |
| ClientAuth.LatestTokenIsLastSuccess | client/auth_interceptor_client.go:50-95 | When attempt j succeeded and every later attempt failed, the cached token is the token attempt j returned |
| ClientAuth.AuthInterceptor.constructor | client/auth_interceptor_client.go:27-38 | Keeps the `authMethods` table; the token cache starts empty |
| ClientAuth.AuthInterceptor.RefreshToken | client/auth_interceptor_client.go:50-62 | A successful login stores exactly the returned token. A failed login returns the error and leaves the token unchanged |
| ClientAuth.AuthInterceptor.RefreshLoop | client/auth_interceptor_client.go:67-100 | Over a run of outcomes, the final token is `LatestToken` of the run. The wait before attempt i is `WaitBefore(i)` |
| ClientAuth.AuthInterceptor.AttachToken | client/auth_interceptor_client.go:153-156 | Keeps every existing pair and appends exactly one `("authorization", token)` pair |
| ClientAuth.AuthInterceptor.CallMetadata | client/auth_interceptor_client.go:115-155 | A method whose `authMethods` entry is true gets the token appended. A method that is absent or mapped to false goes out with its metadata unchanged |
| ClientAuth.AuthInterceptor.Unary | client/auth_interceptor_client.go:104-128 | The invoker is called with the token appended exactly when the method needs auth, and with the original metadata otherwise |
| ClientAuth.AuthInterceptor.Stream | client/auth_interceptor_client.go:132-149 | The streamer is opened with the token appended exactly when the method needs auth, and with the original metadata otherwise |
| ClientAuth.NewAuthInterceptor | client/auth_interceptor_client.go:27-75 | A failed first login gives no interceptor and returns its error. On success the fresh interceptor holds the table and the first token |
| ClientAuth.StartAndRefresh | client/auth_interceptor_client.go:27-100 | No interceptor exactly when the first login fails. Otherwise, after the refresh loop, the cache holds the latest successful token, and the first wait is the period |
| ClientAuth.FailedRefreshRetriesAfterOneSecond | client/auth_interceptor_client.go:79-95 | With a 30-second period whose first refresh fails, the loop waits 30 seconds and then retries after one second |
| AuthService.Login | service/auth_server.go:26-58 | Returns Internal "cannot find user: …" on a lookup error. Returns NotFound "incorrect username/password" for an unknown user or a wrong password. Returns Internal "cannot generate access token" on a signing error. Otherwise the token is exactly the signer's token for the found user |
| AuthService.UnknownUserLooksLikeWrongPassword | service/auth_server.go:36-41 | An unknown user and a known user with a wrong password get identical replies |
| AuthService.GenerateOnlyForGoodCredentials | service/auth_server.go:29-45 | Unless the user exists and the password is right, the reply does not depend on the signer |
| AuthService.LoginWithStoredUser | service/auth_server.go:39-56 | A stored user with the right password, and a signer that succeeds, logs in with the signer's token |
| Users.NewUser | service/user.go:14-27 | A hashing failure gives "cannot hash password: …" and no user. Otherwise the user has the given username and role, and its stored password is the hash |
| Users.NewUserAcceptsItsPassword | service/user.go:14-38 | A user built by `NewUser` accepts its own password whenever bcrypt accepts that hash/password pair |
| Users.Clone | service/user.go:42-48 | The copy has the same username, hashed password and role |
| Users.InMemoryUserStore.constructor | service/user_store.go:15-19 | The store starts empty |
| Users.InMemoryUserStore.Save | service/user_store.go:21-35 | A taken username gives ErrAlreadyExists and no change. Otherwise the clone is added under its username and nothing else changes. One record per username holds throughout |
| Users.InMemoryUserStore.Find | service/user_store.go:37-47 | A miss gives no user and no error. A hit gives the stored user, whose username is the one asked for |
| Users.CreateUser | service/user.go:52-58 | A hashing error leaves the store unchanged. A taken username gives ErrAlreadyExists with no change. Otherwise exactly the new user is added |
| Users.SeedUsers | service/user.go:60-66 | Each bcrypt call is its own input, so the two users get separately salted hashes. A failed admin1 hashing, or an admin1 already stored, returns that error and changes nothing. Otherwise admin1/"admin" is added. Then a failed user1 hashing or a stored user1 returns that error and keeps admin1; else user1/"user" is added too. This holds for any starting store |
| LaptopStore.ShiftLeftIsMulPow2 | service/laptop_store.go:235-254 | A uint64 left shift by n equals multiplication by 2^n modulo 2^64 |
| LaptopStore.ToBitScales | service/laptop_store.go:235-254 | `toBit` multiplies by 2^0, 2^3, 2^13, 2^23, 2^33 or 2^43, modulo 2^64. An unknown unit or a nil memory gives 0 |
| LaptopStore.ToBitWrapsAround | service/laptop_store.go:241-242 | 2^61 bytes convert to 0 bits |
| LaptopStore.IsQualified | service/laptop_store.go:215-233 | True if and only if price ≤ max price, cores ≥ min cores, GHz ≥ min GHz and `toBit(ram)` ≥ `toBit(minRam)` |
| LaptopStore.QualifiedInSound | service/laptop_store.go:163-178 | Every laptop the search reports is listed, stored, qualified, and filed under its own id |
| LaptopStore.QualifiedInComplete | service/laptop_store.go:163-178 | Every listed laptop that passes the filter is reported |
| LaptopStore.QualifiedInDistinct | service/laptop_store.go:163-178 | When every id is listed once, no laptop is reported twice |
| LaptopStore.SearchOutcome | service/laptop_store.go:151-180 | The laptops handed to the callback are a prefix of the qualified ones. An error is the failing callback's own error, on the last laptop handed over. A context already stopped at the start hands over nothing |
| LaptopStore.SearchOutcomeStopped | service/laptop_store.go:154-159 | If the context is first found stopped at step i, the search ends with nil after the qualified laptops before i |
| LaptopStore.SearchOutcomeFailed | service/laptop_store.go:170-176 | If the callback for step i is the first to fail, the search ends with that error right after that callback |
| LaptopStore.SearchReportsEachQualifiedOnce | service/laptop_store.go:143-181 | With a live context and a callback that never fails, the search returns nil. It reports every qualified laptop, only qualified ones, and none twice |
| LaptopStore.InMemoryLaptopStore.constructor | service/laptop_store.go:71-75 | The store starts empty |
| LaptopStore.InMemoryLaptopStore.Save | service/laptop_store.go:86-111 | Never fails. It files the laptop under its id, replacing any laptop already there, and changes nothing else |
| LaptopStore.InMemoryLaptopStore.Find | service/laptop_store.go:114-129 | A hit returns the stored laptop. A miss returns NotFound "Laptop with id:  … not Found." |
| LaptopStore.InMemoryLaptopStore.Search | service/laptop_store.go:143-181 | Calls the callback and returns exactly as `SearchOutcome` describes, for the given context steps and callback errors |
| LaptopStore.AddScore | service/laptop_store.go:190-206 | The first score gives count 1 and sum = score. A later one adds the score to the sum and adds 1 to the count modulo 2^32, so a count of 2^32-1 wraps to 0 |
| LaptopStore.InMemoryRatingStore.constructor | service/laptop_store.go:78-82 | The rating map starts empty |
| LaptopStore.InMemoryRatingStore.Add | service/laptop_store.go:184-211 | Never fails. The laptop's rating becomes `AddScore` of its previous rating, every other laptop's rating is unchanged, and the new rating is returned |
| LaptopService.ContextError | service/laptop_server.go:375-389 | No error exactly for a live context. A canceled context gives Canceled "request is canceled"; a context past its deadline gives DeadlineExceeded "deadline is exceeded" |
| LaptopService.AssignId | service/laptop_server.go:49-67 | A supplied id that does not parse gives InvalidArgument. A supplied valid id is kept. No id means a generated one, or Internal when generation fails |
| LaptopService.SuppliedIdIsKept | service/laptop_server.go:49-67 | With a supplied id the generator is never consulted, and on success the id is kept unchanged |
| LaptopService.SaveErrorStatus | service/laptop_server.go:84-97 | AlreadyExists exactly for `ErrAlreadyExists`, Internal for any other store error, with the message "cannot save laptop to the store: …" |
| LaptopService.CollectChunks | service/laptop_server.go:208-261 | A completed loop holds at most 2^20 bytes, and they extend the bytes already collected |
| LaptopService.CollectChunksPayload | service/laptop_server.go:208-261 | Take a stream that stays live and clean to its end. If its payload fits in 2^20 bytes, the loop completes with exactly the chunks concatenated in order. Otherwise it is rejected as too large. A completed loop always holds the payload |
| LaptopService.UploadImageOutcome | service/laptop_server.go:169-290 | An image is saved only for a stored laptop and holds at most 2^20 bytes. A response needs a successful save and carries the laptop id and the byte count. No error exactly when there is a response and its send succeeds. A failed first receive gives Unknown "cannot receive image info", and an unknown laptop gives Internal "cannot find laptop: …", with nothing saved |
| LaptopService.UploadImageSavesPayload | service/laptop_server.go:208-282 | A clean, live upload for a stored laptop saves exactly the concatenated chunks when they fit. Otherwise it fails with InvalidArgument and saves nothing |
| LaptopService.RatingsAfter | service/laptop_server.go:318-343 | After a request is handled, its laptop has a rating |
| LaptopService.RatingsAfterCounts | service/laptop_server.go:318-343 | Starting from no ratings, a laptop's rating after n receives is absent if none rated it. Otherwise its count is the number of requests that rated it (mod 2^32), and its sum is the total of their scores |
| LaptopService.ResponseCountsRatings | service/laptop_server.go:348-352 | The response to the k-th request names its laptop. Its rated count is the number of requests for that laptop up to and including k (mod 2^32) |
| LaptopService.RateStop | service/laptop_server.go:295-315 | The loop ends without error exactly when the context is live and the stream is at EOF. A stopped context gives `contextError` |
| LaptopService.LaptopServer.constructor | service/laptop_server.go:28-34 | Keeps the given stores |
| LaptopService.LaptopServer.CreateLaptop | service/laptop_server.go:41-109 | An id error returns its status and leaves the store alone. A stopped context after id handling gives Canceled or DeadlineExceeded, also leaving the store alone. Otherwise the laptop is saved under the settled id and the response id equals it |
| LaptopService.LaptopServer.SearchLaptop | service/laptop_server.go:112-145 | Sends the laptops `SearchOutcome` hands over. A send error ends the search with Internal "unexpected error: …" |
| LaptopService.LaptopServer.GetLaptopById | service/laptop_server.go:147-167 | A hit returns the stored laptop. A miss returns NotFound "Laptop with ID: … not Ffound." |
| LaptopService.LaptopServer.ReceiveChunks | service/laptop_server.go:208-261 | The loop ends exactly as `CollectChunks` says |
| LaptopService.LaptopServer.UploadImage | service/laptop_server.go:169-290 | Saves, responds and fails exactly as `UploadImageOutcome` says for the stored laptops |
| LaptopService.LaptopServer.RateReceived | service/laptop_server.go:325-352 | An unknown laptop gives Internal "cannot find laptop: …" and no rating change. A known laptop gets the score added, and the response carries the new count |
| LaptopService.RateFromStep | service/laptop_server.go:298-359 | A round that goes through and whose send succeeds answers with `ResponseTo` that receive, and leaves the ratings at `RatingsAfter` one more receive |
| LaptopService.RateFromRatesHandledRequests | service/laptop_server.go:293-365 | At most one request is handled per receive. The ratings end as `RatingsAfter` the handled requests |
| LaptopService.RateFromAnswers | service/laptop_server.go:293-365 | Response k of the run answers a live, delivered request k for a stored laptop, and equals `ResponseTo` k |
| LaptopService.RateFromAnswersEachRequest | service/laptop_server.go:293-365 | The same for every response of a run from receive 0: the responses answer the first requests once each, in receive order |
| LaptopService.RateFromSendsBeforeLast | service/laptop_server.go:354-359 | Every send of a run but its last went through |
| LaptopService.RateFromEndsOnFailedSend | service/laptop_server.go:354-359 | A failed last send ends the call with Unknown "cannot send stream response: …" |
| LaptopService.RateFromEndsAtStop | service/laptop_server.go:293-365 | When every send went through, the call ends as `RateStop` says at the first round that did not go through |
| LaptopService.LaptopServer.RateRound | service/laptop_server.go:298-352 | One round: the response for the received request with its score added to the ratings, or the reason the loop stops (`RateStop`) with the ratings unchanged |
| LaptopService.LaptopServer.RateAndSend | service/laptop_server.go:298-359 | One round and its send take exactly `RateFrom`'s first step: stop with the returned error, or continue from the next receive |
| LaptopService.LaptopServer.RateLaptop | service/laptop_server.go:293-365 | The responses sent, the returned error and the final ratings are exactly the run `RateFrom` from receive 0 and the old ratings |
| OrderManagement.ContainsIffOccurs | grpc-service/order-management-server/order-management-server.go:89 | `strings.Contains` holds exactly when the query occurs at some position of the item |
| OrderManagement.MatchingKeysExact | grpc-service/order-management-server/order-management-server.go:82-104 | A key is reported exactly when it is listed and some item of its order contains the query |
| OrderManagement.MatchingKeysDistinct | grpc-service/order-management-server/order-management-server.go:82-104 | When each key is listed once, no key is reported twice: each order is sent at most once |
| OrderManagement.SearchStopsAtFirstFailedSend | grpc-service/order-management-server/order-management-server.go:91-95 | If every send succeeds, all matching orders are sent. A failed send is the last one, every earlier send succeeded, and its error is wrapped as "error sending message through the stream: …" |
| OrderManagement.MatchesQuery | grpc-service/order-management-server/order-management-server.go:85-101 | The item scan stops with a match exactly when some item contains the query |
| OrderManagement.ScanOrders | grpc-service/order-management-server/order-management-server.go:80-108 | Sends exactly what `SearchResult` says: the matching orders in key order, up to and including the first failed send |
| OrderManagement.OrdersAtLooksUp | grpc-service/order-management-server/order-management-server.go:80-108 | The i-th order sent is the stored order of the i-th reported key |
| OrderManagement.IdsReplyLists | grpc-service/order-management-server/order-management-server.go:119-142 | The built list is "Updated Orders IDs: " followed by each received id and ", ", in receive order |
| OrderManagement.LastUpdateWins | grpc-service/order-management-server/order-management-server.go:139 | An id named by an update holds the last update that names it |
| OrderManagement.UnnamedIdKept | grpc-service/order-management-server/order-management-server.go:139 | An id no update names keeps its old order, or stays absent |
| OrderManagement.UnaryInterceptor | grpc-service/order-management-server/order-management-server.go:226-253 | Returns the handler's response and error unchanged |
| OrderManagement.OrderManagementServer.constructor | grpc-service/order-management-server/order-management-server.go:24 | The order map starts empty |
| OrderManagement.SampleOrdersKeyedById | grpc-service/order-management-server/order-management-server.go:257-261 | The sample orders are exactly ids 102 to 106, each filed under its own id |
| OrderManagement.OrderManagementServer.InitSampleData | grpc-service/order-management-server/order-management-server.go:255-263 | The new map is the old one overridden by the five sample orders, with all their items, destinations and prices. Other keys keep their orders |
| OrderManagement.OrderManagementServer.GetOrder | grpc-service/order-management-server/order-management-server.go:61-72 | A hit returns the stored order, whose id is the one asked for. A miss returns NotFound "Order with … not found." |
| OrderManagement.OrderManagementServer.UpdateOrders | grpc-service/order-management-server/order-management-server.go:117-145 | The map becomes the received orders applied in order, filed under their ids. The reply is "Orders Processed: " + the id list + "\n". The result is `SendAndClose`'s error |
| OrderManagement.OrderManagementServer.SearchOrders | grpc-service/order-management-server/order-management-server.go:80-108 | Sends the matching orders in iteration order, up to and including the first failed send, as `SearchResult` describes |
| ProductInfo.IdGenerationFailed | grpc-service/productInfo-server/productInfo-server.go:53-55 | Internal, with a message that starts "Error while generating product id" |
| ProductInfo.ProductNotFound | grpc-service/productInfo-server/productInfo-server.go:82 | NotFound, with a message that starts "Product not found." and ends with the id and ")" |
| ProductInfo.ProductInfoServer.constructor | grpc-service/productInfo-server/productInfo-server.go:44-47 | The product map starts nil |
| ProductInfo.ProductInfoServer.AddProduct | grpc-service/productInfo-server/productInfo-server.go:49-71 | An id-generation error changes nothing and gives Internal. Otherwise the map exists afterwards, and the product is filed with the new id under that id (only that entry changes). The new id is returned |
| ProductInfo.ProductInfoServer.GetProduct | grpc-service/productInfo-server/productInfo-server.go:73-83 | A hit returns the stored product, whose id is the one asked for. A miss, or a nil map, returns NotFound |
| ProductInfo.AddThenGet | grpc-service/productInfo-server/productInfo-server.go:67-79 | Getting the id an add returned yields the added product's name, description and price under that id. Every other id looks up as before |
| ProductInfo.GetFromFreshServer | grpc-service/productInfo-server/productInfo-server.go:63-82 | A server with no products answers every lookup with NotFound |
| EndToEnd.ClientGatesExactlyProtectedMethods | cmd/client/main.go:196-204 | The client attaches a token for a method exactly when the server's policy table lists it |
| EndToEnd.ProtectedCallCarriesCachedToken | client/auth_interceptor_client.go:118-120 | A protected call with no `authorization` pair of its own arrives carrying exactly the cached token. The server passes it exactly when that token verifies to a listed role |
| EndToEnd.PublicCallPassesUntouched | service/auth_interceptor.go:101-107 | A public call goes out unchanged, and the server passes it |

## Left out

- JWT signing and verification (`service/jwt_manager.go`) are inputs: a verifier from token to claims or error, and a signer from user to token or error. HS256 signatures and expiry are not modelled.
- bcrypt hashing and comparison are inputs. So is uuid parsing and generation, and the error text `%v` prints for a uuid error.
- The refresh goroutine, `time.Sleep` and every `sync.RWMutex` are not modelled. The refresh loop runs sequentially over a finite list of login outcomes and returns the waits it would sleep.
- `Rating.Sum`, prices, GHz and scores are exact `real`s, not float64. `AverageScore = Sum / Count` is not modelled, so `RateLaptopResponse` carries no average.
- `deepCopy` failures (`copier.Copy`) cannot happen on values and are not modelled. Laptops, users, orders and products are values, so the copies are equal values and no aliasing is modelled. `AddProduct` writes the new id into the request's product and stores that same pointer; the model stores the product with its new id, since the handler keeps no other reference to the pointer once it returns.
- `service/image_store.go` is not part of this model: file writes are I/O. The save is an input that returns an image id or an error.
- The `laptop == nil` branches of UploadImage and RateLaptop are unreachable with the in-memory store, whose `Find` returns NotFound for a missing laptop. So a missing laptop gives Internal "cannot find laptop: …".
- The error return of the rating store's `Add` is unreachable: it is always nil.
- The error return of the image buffer write is unreachable: writes to an in-memory buffer do not fail.
- LaptopService.SaveErrorStatus: modelled but never reached. The in-memory `Save` never fails, so `CreateLaptop` always succeeds after the context check.
- The code is followed where its tests disagree. `service/laptop_server_test.go:55-60` expects AlreadyExists for a duplicate id, but `Save` overwrites. `service/laptop_client_test.go:299` expects the image id in the upload response, but the handler returns the laptop id.
- OrderManagement.OrderManagementServer.UpdateOrders: takes the received orders followed by EOF. A receive error other than EOF dereferences a nil order in the source, which has no behaviour to model.
- LaptopService.LaptopServer.CreateLaptop: a request without a laptop dereferences nil in the source (`laptop.Id` in `service/laptop_server.go:45-49`), and no recovery interceptor is installed, so the handler panics. The model takes the laptop as a value and does not model that request.
- `ProcessOrders` (order-management-server.go:155-216) is not modelled. It dereferences a nil shipment for a new destination and re-sends the whole shipment map on every iteration.
- Log output, `log.Fatal` paths, listeners, TLS, dialing and flag parsing are not modelled, and neither is the client code beyond the `authMethods` table.
- Protobuf and JSON serialization (`serializer/`) and random sample data are not modelled.
- EndToEnd.Deliver: gRPC's metadata transport is modelled only as grouping the appended pairs by key in order. Key case folding and reserved headers are not modelled.
- ClientAuth.StartAndRefresh: the first wait is stated only as the refresh period. Later waits are stated by `RefreshLoop`.
