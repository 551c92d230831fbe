/** The recipe service: fetching the catalogue, and fetching a recipe's
    photo through the image cache (read through on a lookup, written through
    after a download). The platform, the clock readings, the storage faults
    and the image decoder enter as parameters. */
module RecipeService {
  import opened Wrappers
  import opened Urls
  import opened Foundation
  import UrlRequests
  import opened AsyncSessions
  import RequestTypes
  import opened ImageRepository
  import opened Recipes
  import ApiService

  /** What the service throws. `NetworkError` wraps whatever escaped the
      work it guards, including the service's own errors. */
  datatype RecipeServiceError =
    | InvalidImageData
    | InvalidURL(url: string)
    | NetworkError(cause: Thrown)

  /** A thrown error of either origin. */
  datatype Thrown = FromSession(netError: NetError) | FromService(serviceError: RecipeServiceError)

  /** The photo lifetime, in minutes. */
  const DefaultImageTimeToLive: int := 60
  const DefaultHost: string := "d3jbb8n5wk0qxi.cloudfront.net"
  const DefaultRecipeListRoute: string := "recipes-malformed.json"

  /** The catalogue route, the photo lifetime in minutes and the catalogue
      host, with the lifetime and host defaulted. */
  datatype RecipeServiceConfiguration = RecipeServiceConfiguration(
    recipeListRoute: string,
    imageTimeToLive: int := DefaultImageTimeToLive,
    host: string := DefaultHost)

  /** The configuration a service gets when none is given. */
  function DefaultConfiguration(): (c: RecipeServiceConfiguration)
    ensures c.recipeListRoute == "recipes-malformed.json"
    ensures c.imageTimeToLive == 60 && c.host == "d3jbb8n5wk0qxi.cloudfront.net"
  {
    RecipeServiceConfiguration(DefaultRecipeListRoute)
  }

  // ---------------------------------------------------------------------
  // Catalogue

  /** The catalogue GET: the route on the configured host, no parameters. */
  function CatalogueGet(config: RecipeServiceConfiguration, p: Platform,
                        decode: (Data, KeyDecodingStrategy) -> Result<RecipeList, string>)
    : Result<RecipeList, NetError>
  {
    Get<string, RecipeList>(ApiService.CreateSession(config.host), p, config.recipeListRoute,
                            None, Verbatim, decode)
  }

  /** The recipes of the decoded list, or any failure at all wrapped once as
      a network error. */
  function GetRecipes(config: RecipeServiceConfiguration, p: Platform,
                      decode: (Data, KeyDecodingStrategy) -> Result<RecipeList, string>)
    : (r: Result<seq<Recipe>, RecipeServiceError>)
    ensures r.Success? <==> CatalogueGet(config, p, decode).Success?
    ensures r.Success? ==> r.value == CatalogueGet(config, p, decode).value.recipes
    ensures r.Failure? ==> r.error == NetworkError(FromSession(CatalogueGet(config, p, decode).error))
  {
    match CatalogueGet(config, p, decode)
    case Success(list) => Success(list.recipes)
    case Failure(e) => Failure(NetworkError(FromSession(e)))
  }

  /** The catalogue request goes to the configured host over HTTPS as a GET,
      with snake_case keys read as camelCase: when the host answers with a
      complete success response, the result is the decoded list's recipes,
      and a body that does not decode fails as a network error wrapping a
      decoding error, never as an empty list. */
  lemma CatalogueOutcomes(config: RecipeServiceConfiguration, p: Platform,
                          decode: (Data, KeyDecodingStrategy) -> Result<RecipeList, string>,
                          request: UrlRequests.UrlRequest, body: Data, http: HttpUrlResponse)
    requires SetupRequest<string>(ApiService.CreateSession(config.host).configuration, p.urls,
                                  config.recipeListRoute, RequestTypes.Get, None, Verbatim) == Success(request)
    requires p.transport(request) == Exchange(Http(http), body, None)
    requires p.isRegisteredStatus(http.statusCode) && IsSuccessClass(http.statusCode)
    ensures request.httpMethod == "GET"
    ensures decode(body, ConvertFromSnakeCase).Success? ==>
      GetRecipes(config, p, decode) == Success(decode(body, ConvertFromSnakeCase).value.recipes)
    ensures decode(body, ConvertFromSnakeCase).Failure? ==>
      GetRecipes(config, p, decode) ==
        Failure(NetworkError(FromSession(Decoding(decode(body, ConvertFromSnakeCase).error))))
  {
  }

  /** A well-formed empty catalogue is an empty list, not an error. */
  lemma EmptyCatalogue(config: RecipeServiceConfiguration, p: Platform,
                       decode: (Data, KeyDecodingStrategy) -> Result<RecipeList, string>,
                       request: UrlRequests.UrlRequest, body: Data, http: HttpUrlResponse)
    requires SetupRequest<string>(ApiService.CreateSession(config.host).configuration, p.urls,
                                  config.recipeListRoute, RequestTypes.Get, None, Verbatim) == Success(request)
    requires p.transport(request) == Exchange(Http(http), body, None)
    requires p.isRegisteredStatus(http.statusCode) && IsSuccessClass(http.statusCode)
    requires decode(body, ConvertFromSnakeCase) == Success(RecipeList([]))
    ensures GetRecipes(config, p, decode) == Success([])
  {
  }

  // ---------------------------------------------------------------------
  // Photo through the cache

  /** The cached bytes for a recipe, trusted only while strictly before
      their expiry; a missing, incomplete, expired or unreadable entry is a
      miss. */
  function ImageDataFromRepo(store: Store, receiptID: string, now: Date, fetchFails: bool)
    : (r: Option<Data>)
    ensures r.Some? <==> && GetImageData(store, receiptID, fetchFails).Some?
                         && GetImageData(store, receiptID, fetchFails).value.expire > now
    ensures r.Some? ==> r.value == GetImageData(store, receiptID, fetchFails).value.data
  {
    match GetImageData(store, receiptID, fetchFails)
    case None => None
    case Some(imageData) => if imageData.expire > now then Some(imageData.data) else None
  }

  /** Freshness is strict: an entry expiring at `now` or earlier is a miss,
      one expiring later is a hit with its own bytes. */
  lemma StrictExpiry(store: Store, id: string, data: Data, expire: Date, now: Date)
    requires id in store && store[id] == StoredImage(Some(data), Some(expire))
    ensures ImageDataFromRepo(store, id, now, false) == if expire > now then Some(data) else None
  {
  }

  /** The clock readings and storage behaviour during one photo fetch: the
      time of the cache lookup, the time the new expiry is computed from,
      whether the lookup's fetch fails, how the add fares, and which byte
      strings decode as images. */
  datatype ImageCall = ImageCall(
    lookupTime: Date,
    writeTime: Date,
    repoFetchFails: bool,
    repoWriteFault: StorageFault,
    decodesImage: Data -> bool)

  /** The session a download used and the path it asked for. */
  datatype DownloadCall = DownloadCall(session: AsyncSession, path: string)

  /** The outcome of a photo fetch, the cache afterwards, the download made
      (if any) and the entry handed to the cache (if any). */
  datatype ImageFetch = ImageFetch(
    result: Result<Data, RecipeServiceError>,
    store: Store,
    download: Option<DownloadCall>,
    cacheWrite: Option<ImageData>)

  /** The expiry of a photo fetched at `writeTime`: the lifetime counts
      minutes. */
  function ExpiryFor(config: RecipeServiceConfiguration, writeTime: Date): (e: Date)
    ensures config.imageTimeToLive > 0 ==> e > writeTime
    ensures config.imageTimeToLive == DefaultImageTimeToLive ==> e == writeTime + 3600
    ensures e - writeTime == 60 * config.imageTimeToLive
  {
    writeTime + 60 * config.imageTimeToLive
  }

  /** Is there a fresh cached entry whose bytes decode? */
  predicate IsCacheHit(recipe: Recipe, store: Store, call: ImageCall) {
    var cached := ImageDataFromRepo(store, recipe.uuid, call.lookupTime, call.repoFetchFails);
    cached.Some? && call.decodesImage(cached.value)
  }

  /** The photo of a recipe, with the cache consulted first. */
  function GetRecipeImage(config: RecipeServiceConfiguration, p: Platform, recipe: Recipe,
                          store: Store, call: ImageCall)
    : (r: ImageFetch)
    ensures IsCacheHit(recipe, store, call) ==>
      && r.result == Success(ImageDataFromRepo(store, recipe.uuid, call.lookupTime, call.repoFetchFails).value)
      && r.download.None? && r.cacheWrite.None? && r.store == store
    ensures !IsCacheHit(recipe, store, call) ==> r == DownloadAndCache(config, p, recipe, store, call)
    ensures r.result.Failure? ==> r.result.error.NetworkError?
    ensures r.result.Success? ==> call.decodesImage(r.result.value)
    ensures r.cacheWrite.None? ==> r.store == store
  {
    if IsCacheHit(recipe, store, call) then
      ImageFetch(Success(ImageDataFromRepo(store, recipe.uuid, call.lookupTime, call.repoFetchFails).value),
                 store, None, None)
    else
      DownloadAndCache(config, p, recipe, store, call)
  }

  /** The miss path. The small photo URL must parse with a host; a session
      is made for that host and only the URL's path is downloaded. Bytes that
      decode are written to the cache under the recipe's id with a fresh
      expiry and returned whether or not the write succeeded. Every failure
      is wrapped as a network error and leaves the cache alone. */
  function DownloadAndCache(config: RecipeServiceConfiguration, p: Platform, recipe: Recipe,
                            store: Store, call: ImageCall)
    : (r: ImageFetch)
    ensures r.result.Failure? ==> r.result.error.NetworkError? && r.cacheWrite.None? && r.store == store
    ensures var components := p.urls.components(recipe.photoUrlSmall);
            components.None? || components.value.host.None? <==>
              r.result == Failure(NetworkError(FromService(InvalidURL(recipe.photoUrlSmall))))
              && r.download.None?
    ensures r.download.Some? ==>
      && p.urls.components(recipe.photoUrlSmall).Some?
      && p.urls.components(recipe.photoUrlSmall).value.host.Some?
      && r.download.value.session == ApiService.CreateSession(p.urls.components(recipe.photoUrlSmall).value.host.value)
      && r.download.value.path == p.urls.components(recipe.photoUrlSmall).value.path
    ensures r.result.Success? ==>
      && r.download.Some?
      && Download<string>(r.download.value.session, p, r.download.value.path, None, false).result == Success(r.result.value)
      && call.decodesImage(r.result.value)
      && r.cacheWrite == Some(ImageData(recipe.uuid, r.result.value, ExpiryFor(config, call.writeTime)))
      && r.store == AddImageData(store, r.cacheWrite.value, call.repoWriteFault).store
    ensures r.download.Some? && r.result.Failure? ==>
      var downloaded := Download<string>(r.download.value.session, p, r.download.value.path, None, false);
      if downloaded.result.Failure? then r.result.error.cause == FromSession(downloaded.result.error)
      else !call.decodesImage(downloaded.result.value) && r.result.error.cause == FromService(InvalidImageData)
    ensures var components := p.urls.components(recipe.photoUrlSmall);
      components.Some? && components.value.host.Some? ==>
        && r.download == Some(DownloadCall(ApiService.CreateSession(components.value.host.value),
                                           components.value.path))
        && var downloaded := Download<string>(r.download.value.session, p, r.download.value.path, None, false).result;
           (downloaded.Success? && call.decodesImage(downloaded.value) ==>
              && r.result == Success(downloaded.value)
              && r.cacheWrite == Some(ImageData(recipe.uuid, downloaded.value, ExpiryFor(config, call.writeTime)))
              && r.store == AddImageData(store, r.cacheWrite.value, call.repoWriteFault).store)
  {
    match p.urls.components(recipe.photoUrlSmall)
    case None => ImageFetch(Failure(NetworkError(FromService(InvalidURL(recipe.photoUrlSmall)))), store, None, None)
    case Some(components) =>
      if components.host.None? then
        ImageFetch(Failure(NetworkError(FromService(InvalidURL(recipe.photoUrlSmall)))), store, None, None)
      else
        var session := ApiService.CreateSession(components.host.value);
        var attempt := Some(DownloadCall(session, components.path));
        match Download<string>(session, p, components.path, None, false).result
        case Failure(e) => ImageFetch(Failure(NetworkError(FromSession(e))), store, attempt, None)
        case Success(bytes) =>
          if !call.decodesImage(bytes) then
            ImageFetch(Failure(NetworkError(FromService(InvalidImageData))), store, attempt, None)
          else
            var entry := ImageData(recipe.uuid, bytes, ExpiryFor(config, call.writeTime));
            ImageFetch(Success(bytes), AddImageData(store, entry, call.repoWriteFault).store, attempt, Some(entry))
  }

  /** A miss whose URL has a host and whose download brings bytes that
      decode returns those bytes and leaves them cached under the recipe's
      id, fresh at the write time and until the lifetime has passed. */
  lemma MissDownloadsAndCaches(config: RecipeServiceConfiguration, p: Platform, recipe: Recipe,
                               store: Store, call: ImageCall, components: Url, bytes: Data)
    requires !IsCacheHit(recipe, store, call)
    requires p.urls.components(recipe.photoUrlSmall) == Some(components) && components.host.Some?
    requires Download<string>(ApiService.CreateSession(components.host.value), p, components.path,
                              None, false).result == Success(bytes)
    requires call.decodesImage(bytes) && call.repoWriteFault == NoFault
    requires config.imageTimeToLive > 0
    ensures var r := GetRecipeImage(config, p, recipe, store, call);
            && r.result == Success(bytes)
            && r.download == Some(DownloadCall(ApiService.CreateSession(components.host.value), components.path))
            && GetImageData(r.store, recipe.uuid, false) ==
                 Some(ImageData(recipe.uuid, bytes, ExpiryFor(config, call.writeTime)))
            && ImageDataFromRepo(r.store, recipe.uuid, call.writeTime, false) == Some(bytes)
  {
  }

  /** Whether the cache write succeeds changes only the cache, never what the
      caller gets back. */
  lemma CacheWriteFailureIsInvisible(config: RecipeServiceConfiguration, p: Platform, recipe: Recipe,
                                     store: Store, call: ImageCall, fault: StorageFault)
    ensures GetRecipeImage(config, p, recipe, store, call).result ==
            GetRecipeImage(config, p, recipe, store, call.(repoWriteFault := fault)).result
  {
  }

  /** Read-through after write-through: once a miss has downloaded a photo
      and saved it, a later fetch before the entry expires is a hit that
      returns the same bytes without any download or write. */
  lemma SecondFetchHitsCache(config: RecipeServiceConfiguration, p: Platform, recipe: Recipe,
                             store: Store, first: ImageCall, second: ImageCall)
    requires first.repoWriteFault == NoFault
    requires GetRecipeImage(config, p, recipe, store, first).download.Some?
    requires GetRecipeImage(config, p, recipe, store, first).result.Success?
    requires second.lookupTime < ExpiryFor(config, first.writeTime)
    requires !second.repoFetchFails && second.decodesImage == first.decodesImage
    ensures var firstFetch := GetRecipeImage(config, p, recipe, store, first);
            var secondFetch := GetRecipeImage(config, p, recipe, firstFetch.store, second);
            && secondFetch.result == firstFetch.result
            && secondFetch.download.None? && secondFetch.cacheWrite.None?
            && secondFetch.store == firstFetch.store
  {
  }

  /** With the default lifetime a freshly cached photo stays fresh for an
      hour after it was written, and a lookup at the write time itself hits. */
  lemma FreshEntryAfterMiss(p: Platform, recipe: Recipe, store: Store, call: ImageCall)
    requires call.repoWriteFault == NoFault
    requires GetRecipeImage(DefaultConfiguration(), p, recipe, store, call).download.Some?
    requires GetRecipeImage(DefaultConfiguration(), p, recipe, store, call).result.Success?
    ensures var fetched := GetRecipeImage(DefaultConfiguration(), p, recipe, store, call);
            && GetImageData(fetched.store, recipe.uuid, false) ==
                 Some(ImageData(recipe.uuid, fetched.result.value, call.writeTime + 3600))
            && ImageDataFromRepo(fetched.store, recipe.uuid, call.writeTime, false) == Some(fetched.result.value)
  {
  }
}
