# FetchTakeHome core, modelled in Dafny

FetchTakeHome is an iOS app that lists recipes from a remote catalogue and shows
each recipe's photo. Photos are kept in a persisted cache whose entries expire.
This project models the logic under its SwiftUI shell:

- the **network session** (`AsyncSession`): URL composition, request
  construction, response validation, the typed GET and the byte-streaming
  download with progress callbacks;
- the **request builder** (`URLRequest` initialiser, `urlQueryItems`);
- the **image repository**: a store mapping a recipe id to image bytes and an
  expiry date;
- the **recipe service**: it fetches the catalogue and serves a photo from the
  cache or from the network, writing the photo back to the cache.

Everything is a pure function over immutable datatypes. The collaborators the
core calls but does not define are passed in as function-valued parameters:

- `Urls.UrlKit` stands for the Foundation URL routines: `URL(string:)`,
  `URLComponents`, percent encoding and `appendingPathComponent`.
- `AsyncSessions.Platform` adds two more:
  - the registry of codes `HTTPStatusCode` knows, as a predicate;
  - the transport, as a function from request to exchange.
- JSON decoding is a parameter `decode`.
- `UIImage(data:)` is a parameter `decodesImage`.
- The two clock readings, and whether storage fails, are fields of
  `RecipeService.ImageCall`.

The success class of HTTP statuses is 200–299 (section 15.3 of RFC 9110).
401 and 403 are sections 15.5.2 and 15.5.4.

Modules follow the source files:

| module | file | source |
|---|---|---|
| `Wrappers`, `Foundation`, `Dictionaries` | wrappers.dfy, foundation.dfy, dictionaries.dfy | Swift optionals, throws, `Data`/`Date`, `Dictionary` |
| `RequestTypes` | request_types.dfy | Network/RequestResponseTypes.swift |
| `Urls` | urls.dfy | the Foundation URL routines that Network/AsyncSession.swift and Network/URLRequest+Extension.swift call |
| `QueryItems` | query_items.dfy | Network/NSDictionary+Extension.swift |
| `UrlRequests` | url_requests.dfy | Network/URLRequest+Extension.swift |
| `AsyncSessions` | async_session.dfy | Network/AsyncSession.swift |
| `ApiService`, `FetchService` | api_service.dfy, fetch_service.dfy | Base/APIService.swift, Base/FetchService.swift |
| `ImageRepository` | image_repository.dfy | DataAccess/ImageRepository.swift, DataAccess/Model/ImageData.swift |
| `Recipes`, `RecipeService` | recipe.dfy, recipe_service.dfy | Recipe/Model/Recipe.swift, Recipe/Services/RecipeService.swift |

A Swift `Dictionary` is modelled as its entries in iteration order, with
distinct keys. Swift does not specify that order, so every statement about
query items and headers is proved for every order.

Behaviour of the code that a reader might not expect, modelled as written:

- A recipe's small photo URL is a non-optional string. So there is no
  "missing asset URL" branch.
- A URL that does not parse, or has no host, is thrown as `invalidURL`.
  Undecodable bytes are thrown as `invalidImageData`. Both are then wrapped
  as `networkError` by the same catch that wraps transport failures.
- A cache hit needs the entry to be unexpired *and* its bytes to decode as an
  image. Bytes that do not decode fall through to a fresh download.
- A response that is not an HTTP response is rejected with `unauthorized`.
  `SessionError.invalidResponseType` is declared but never thrown.
- An unregistered status code is a session error (`unknownHTTPStatusCode`),
  raised before the body is looked at.
- A failed download leaves the progress handler installed. The code clears it
  only after the whole stream has arrived.

## Model

| member | source | states |
|---|---|---|
| RequestTypes.FromRawValue | FetchTakeHome/FetchTakeHome/Network/RequestResponseTypes.swift:10-16 | the raw-value initialiser accepts exactly the five verbs and returns the case whose raw value it was given |
| RequestTypes.RawValuesDistinct | FetchTakeHome/FetchTakeHome/Network/RequestResponseTypes.swift:10-16 | two cases share a raw value only if they are the same case; every case is in `allCases` |
| QueryItems.UrlQueryItems | FetchTakeHome/FetchTakeHome/Network/NSDictionary+Extension.swift:12-16 | one item per dictionary entry, in iteration order; each item's name is the key and its value is the value's string form |
| QueryItems.QueryItemCount | FetchTakeHome/FetchTakeHome/Network/NSDictionary+Extension.swift:12-16 | an empty dictionary gives an empty list, and the item count equals the number of keys |
| QueryItems.QueryItemsAsMultiset | FetchTakeHome/FetchTakeHome/Network/NSDictionary+Extension.swift:13-14 | as a multiset, the items are exactly the (key, string of value) pairs, each once, and nothing else |
| QueryItems.EachKeyOnce | FetchTakeHome/FetchTakeHome/Network/NSDictionary+Extension.swift:13-14 | every key names an item carrying its value, and no two items share a name |
| QueryItems.QueryItemsOrderIndependent | FetchTakeHome/FetchTakeHome/Network/NSDictionary+Extension.swift:13-14 | dictionaries with equal contents give the same items up to order, whatever their iteration order |
| UrlRequests.SetHeaderFields | FetchTakeHome/FetchTakeHome/Network/URLRequest+Extension.swift:29-33 | `nil` headers set no field; otherwise the request carries exactly the dictionary's pairs, whatever the iteration order |
| UrlRequests.MakeRequest | FetchTakeHome/FetchTakeHome/Network/URLRequest+Extension.swift:16-50 | the cache policy is always the protocol policy; the timeout is passed through; the method is the verb's raw value; every header is set; with nil or empty parameters the URL is the input URL; otherwise a components parse failure throws `invalidURL`, a rebuild failure throws `failedToCreateURL`, and success carries the rebuilt URL with its query replaced by the parameters' items |
| AsyncSessions.ValidateResponse | FetchTakeHome/FetchTakeHome/Network/AsyncSession.swift:180-198 | a passing response is returned unchanged as the HTTP response it is |
| AsyncSessions.ValidationOutcomes | FetchTakeHome/FetchTakeHome/Network/AsyncSession.swift:180-198 | gives each outcome with exactly the responses that produce it. Non-HTTP gives `unauthorized`. An unregistered code gives `unknownHTTPStatusCode`, checked first. A registered non-2xx code gives `unauthorized` if listed, otherwise the code itself. A registered 2xx code passes |
| AsyncSessions.DefaultUnauthorizedCodes | FetchTakeHome/FetchTakeHome/Network/AsyncSession.swift:189-194 | with the default list, a registered non-success 401 or 403 is `unauthorized`; any other is thrown as its code |
| AsyncSessions.ValidationIdempotent | FetchTakeHome/FetchTakeHome/Network/AsyncSession.swift:200-211 | validating an accepted response again accepts it with the same result, so the second check in `handleResponse` never fails |
| AsyncSessions.BaseUrl | FetchTakeHome/FetchTakeHome/Network/AsyncSession.swift:141-149 | the base URL exists exactly when scheme and host both percent-encode and their `scheme://host` parses, and it is then the URL parsed from the encoded scheme, `://` and the encoded host |
| AsyncSessions.ComposedUrl | FetchTakeHome/FetchTakeHome/Network/AsyncSession.swift:134-156 | a path that parses with scheme and host is returned verbatim. Otherwise the result is the base URL with the encoded path appended. It is nil exactly when the path is relative and the base or the path encoding fails |
| AsyncSessions.AbsolutePathIgnoresConfiguration | FetchTakeHome/FetchTakeHome/Network/AsyncSession.swift:134-139 | for an absolute path, the composed URL is the same under every configuration |
| AsyncSessions.ComposedUrlReadsSchemeAndHost | FetchTakeHome/FetchTakeHome/Network/AsyncSession.swift:141-156 | configurations that agree on scheme and host compose the same URL for every path |
| AsyncSessions.SetupRequest | FetchTakeHome/FetchTakeHome/Network/AsyncSession.swift:158-177 | a URL that does not compose gives `badURL` for that path, and only then. A built request has the given verb, the protocol cache policy, `timeout ?? 60` and exactly the configured headers. Without parameters its URL is the composed URL. Once the URL composes, setup succeeds exactly when the request builder does, with the builder's request (so with parameters its URL carries their query items), and otherwise fails with `RequestFailed` wrapping the builder's error, which needs non-empty parameters |
| AsyncSessions.SetupRequestVerbOnly | FetchTakeHome/FetchTakeHome/Network/AsyncSession.swift:158-177 | the request type changes only the verb: setup fails alike for every verb, and built requests differ only in their HTTP method |
| AsyncSessions.DataFor | FetchTakeHome/FetchTakeHome/Network/AsyncSession.swift:82 | the data call succeeds exactly when the transport delivered a complete body, and then returns that body and response; its only failure is the transport's own error: the cause of an unreachable host, or that of a cut-off body |
| AsyncSessions.HandleResponse | FetchTakeHome/FetchTakeHome/Network/AsyncSession.swift:200-211 | a rejected response fails with the validation error. For an accepted one, success means the body decoded under the session's key strategy, and the value is what the decoder returned |
| AsyncSessions.GetStages | FetchTakeHome/FetchTakeHome/Network/AsyncSession.swift:75-89 | the request is a GET. A failure comes from exactly one stage, in order: setup, transport, validation, decoding. A body that does not decode is a decoding error, and success is the decoded body of a validated, complete response |
| AsyncSessions.Drain | FetchTakeHome/FetchTakeHome/Network/AsyncSession.swift:112-126 | the gathered data is the stream in arrival order. With a handler, byte k yields exactly one callback with (k, k, expected length). Without one, no callback |
| AsyncSessions.DownloadRequest | FetchTakeHome/FetchTakeHome/Network/AsyncSession.swift:103-106 | the download request is a GET with the protocol cache policy, `timeout ?? 60` and exactly the configured headers. It exists exactly when the URL composes, has the composed URL, and otherwise fails with `badURL(path)` |
| AsyncSessions.Download | FetchTakeHome/FetchTakeHome/Network/AsyncSession.swift:99-130 | success returns exactly the body of a complete, validated exchange for the download request and clears the handler. Failure leaves the handler as installed. Each stage's failure is stated: a request that cannot be built gives its builder error, an unreachable host or a cut stream gives a transport error, and a rejected response gives the validation error. A complete, validated exchange gives exactly its body. Callbacks count 1, 2, … up to the byte count, each reports the response's expected length, and there are none without a handler. Configuration and unauthorized list are unchanged |
| AsyncSessions.DownloadIgnoresParameters | FetchTakeHome/FetchTakeHome/Network/AsyncSession.swift:99-106 | the outcome is the same whatever parameters are passed |
| AsyncSessions.ProgressCountsUp | FetchTakeHome/FetchTakeHome/Network/AsyncSession.swift:116-126 | on success there is one callback per byte, `bytesWritten` strictly increases, and the last callback reports the full length |
| ApiService.CreateSession | FetchTakeHome/FetchTakeHome/Base/APIService.swift:16-24 | the session uses scheme https, the given host, no headers, a 60 s timeout, snake-case decoding, 401/403 as unauthorized, and no handler |
| ApiService.HostSwitch | FetchTakeHome/FetchTakeHome/Base/APIService.swift:16-24 | sessions for two hosts differ only in the host |
| ApiService.CreatedSessionTargetsHost | FetchTakeHome/FetchTakeHome/Base/APIService.swift:18-19 | a relative path through a session for a host is composed on `https://host`, when percent-encoding leaves "https" and the host unchanged |
| FetchService.CreateSessionConfiguration | FetchTakeHome/FetchTakeHome/Base/FetchService.swift:23-31 | the configuration is https to d3jbb8n5wk0qxi.cloudfront.net with no headers, a 60 s timeout and snake-case decoding |
| FetchService.Session | FetchTakeHome/FetchTakeHome/Base/FetchService.swift:19-21 | each access is a fresh session on the default configuration, with no handler and the default unauthorized list |
| FetchService.SessionMatchesHostFactory | FetchTakeHome/FetchTakeHome/Base/FetchService.swift:17-31 | the accessor's session is the one `createSession(host:)` builds for the default host |
| ImageRepository.GetImageData | FetchTakeHome/FetchTakeHome/DataAccess/ImageRepository.swift:29-52 | the lookup returns an entry exactly when the fetch works and a complete record exists for the key; it returns the stored id, data and expiry as they are, with no expiry check |
| ImageRepository.AddImageData | FetchTakeHome/FetchTakeHome/DataAccess/ImageRepository.swift:54-81 | `true` exactly when storage works, and `false` leaves the store as it was. On success the key holds the new data and expiry, and no other key is added. Other keys' records are unchanged |
| ImageRepository.PutThenGet | FetchTakeHome/FetchTakeHome/DataAccess/ImageRepository.swift:55-73 | a lookup right after a successful add returns exactly the written entry |
| ImageRepository.AddKeepsOtherKeys | FetchTakeHome/FetchTakeHome/DataAccess/ImageRepository.swift:60-71 | an add for one key changes no other key's lookup, whether it succeeds or not |
| ImageRepository.UpsertCount | FetchTakeHome/FetchTakeHome/DataAccess/ImageRepository.swift:62-71 | overwriting an existing key keeps the entry count; inserting a new key adds one |
| ImageRepository.AddPreservesWellFormed | FetchTakeHome/FetchTakeHome/DataAccess/ImageRepository.swift:66-71 | adds keep every record complete, and in such a store a healthy lookup finds exactly the stored keys |
| ImageRepository.LastWriteWins | FetchTakeHome/FetchTakeHome/DataAccess/ImageRepository.swift:62-65 | after two adds for one key, the lookup returns the second entry whole |
| RecipeService.DefaultConfiguration | FetchTakeHome/FetchTakeHome/Recipe/Services/RecipeService.swift:23-37 | the default route is recipes-malformed.json, the lifetime is 60 and the host is d3jbb8n5wk0qxi.cloudfront.net |
| RecipeService.GetRecipes | FetchTakeHome/FetchTakeHome/Recipe/Services/RecipeService.swift:46-57 | succeeds exactly when the catalogue GET succeeds, returning the list's recipes; every failure is `networkError` wrapping the session's error |
| RecipeService.CatalogueOutcomes | FetchTakeHome/FetchTakeHome/Recipe/Services/RecipeService.swift:46-57 | the catalogue request is a GET decoded with snake-case keys. For a complete 2xx answer the result is the decoded recipes, and a malformed body fails as a wrapped decoding error |
| RecipeService.EmptyCatalogue | FetchTakeHome/FetchTakeHomeTests/RecipeServiceTests.swift:48-53 | a well-formed empty catalogue yields an empty list, not an error |
| RecipeService.ImageDataFromRepo | FetchTakeHome/FetchTakeHome/Recipe/Services/RecipeService.swift:95-101 | returns bytes exactly when the repository returns an entry with `expire > now`, and then returns that entry's data |
| RecipeService.StrictExpiry | FetchTakeHome/FetchTakeHome/Recipe/Services/RecipeService.swift:96-97 | an entry expiring at or before `now` is a miss; one expiring later is a hit with its bytes |
| RecipeService.ExpiryFor | FetchTakeHome/FetchTakeHome/Recipe/Services/RecipeService.swift:78-80 | the expiry is the write time plus 60 s per minute of lifetime, so a positive lifetime expires after the write, and the default 60-minute lifetime gives write time + 3600 s |
| RecipeService.GetRecipeImage | FetchTakeHome/FetchTakeHome/Recipe/Services/RecipeService.swift:59-89 | on a fresh, decodable cache hit: the cached bytes, no session, no download, no write. Otherwise the miss path runs. Every error is `networkError`, returned bytes always decode, and the cache changes only through a write |
| RecipeService.DownloadAndCache | FetchTakeHome/FetchTakeHome/Recipe/Services/RecipeService.swift:65-88 | a URL that does not parse, or has no host, gives `networkError(invalidURL(url))` with no download. A download uses a session for the URL's host and only the URL's path. When the URL has a host, the download is for a session made for that host and the URL's path. Bytes that download and decode are returned and make exactly one write: id, bytes, `writeTime + 60*ttl`. The bytes come back whatever the write's result. A failed download or undecodable bytes give the matching wrapped error, and neither writes the cache |
| RecipeService.CacheWriteFailureIsInvisible | FetchTakeHome/FetchTakeHome/Recipe/Services/RecipeService.swift:82-83 | the caller's result is the same whether the cache write succeeds or fails |
| RecipeService.MissDownloadsAndCaches | FetchTakeHome/FetchTakeHome/Recipe/Services/RecipeService.swift:59-88 | on a miss whose URL has a host and whose download brings decodable bytes, the fetch returns those bytes, downloads the URL's path from a session for its host, and leaves a fresh entry for the recipe's id in the cache |
| RecipeService.SecondFetchHitsCache | FetchTakeHome/FetchTakeHome/Recipe/Services/RecipeService.swift:59-101 | after a miss that downloaded and saved, a later fetch before expiry returns the same bytes with no download and no write |
| RecipeService.FreshEntryAfterMiss | FetchTakeHome/FetchTakeHome/Recipe/Services/RecipeService.swift:78-82 | with default settings, a saved miss leaves an entry with the downloaded bytes expiring one hour after the write, fresh at the write time |

## Left out

- Presentation and app wiring are not modelled: views, view models, the app
  entry point and `ContentView`.
- The URLSession transport is one function from request to exchange. That
  covers connections, timeouts and cancellation. A timeout is a transport error.
- The session delegate extensions are not modelled. The
  `URLSessionDownloadDelegate` callback is never reached by the async byte
  loop.
- `DispatchQueue.main` delivery of callbacks is not modelled. The model
  records the callbacks in issue order.
- Concurrency is out of scope: `async`/`await` suspension, CoreData
  background contexts, and the serialisation of concurrent writes. Each call
  is modelled as one atomic step.
- Floating point is out of scope: `percentComplete` is not computed, and
  `Date`, `TimeInterval` and `imageTimeToLive` are whole numbers.
- Drain: `bytesWritten` is an unbounded integer. The Int64 counter would
  overflow, and trap, only after 2^63 − 1 bytes.
- The `reserveCapacity` call is not modelled; it has no visible effect.
- JSON decoding, including snake-case key conversion and `dateFormatters`,
  is the `decode` parameter. The model checks which key strategy is passed.
- URL parsing, percent encoding and path appending are parameters.
  `URLComponents` is represented by the same record as a parsed URL.
- `UIImage` creation is the `decodesImage` predicate. The service returns
  the bytes the image was decoded from.
- `HTTPStatusCode` and `Response` are not part of this model. The registry
  is a predicate, and "success" is the 2xx class.
- UrlRequests.SetHeaderFields: header names are kept exactly as given.
  Foundation matches header names case-insensitively; that lookup is not
  modelled.
- The shared repository singleton is an explicit store value, passed in and
  returned.
- The model keeps one record per key in a map. It does not model several
  stored records with the same id; the real fetch would take the first.
- Logging (`print`) is not modelled.
- Object identity is not modelled: a "new session" is a fresh value.
