/** Building a `URLRequest` from a URL, a verb, headers and query parameters. */
module UrlRequests {
  import opened Wrappers
  import opened Dictionaries
  import opened Urls
  import opened QueryItems
  import opened RequestTypes
  import opened Foundation

  /** The cache policies a request may carry. */
  datatype CachePolicy =
    | UseProtocolCachePolicy
    | ReloadIgnoringLocalCacheData
    | ReturnCacheDataElseLoad
    | ReturnCacheDataDontLoad

  datatype UrlRequestError = InvalidURL | FailedToCreateURL

  /** The parts of a `URLRequest` the core sets. Header names are kept as
      given. */
  datatype UrlRequest = UrlRequest(url: Url, cachePolicy: CachePolicy, timeoutInterval: TimeInterval,
                                   httpMethod: string, headerFields: map<string, string>)

  /** `fields` holds exactly the header dictionary's pairs. */
  predicate CarriesHeaders(fields: map<string, string>, headers: Dictionary<string>) {
    && fields.Keys == (set i | 0 <= i < |headers.entries| :: headers.entries[i].0)
    && forall i :: 0 <= i < |headers.entries| ==>
         headers.entries[i].0 in fields && fields[headers.entries[i].0] == headers.entries[i].1
  }

  /** The header fields after setting each header of an optional dictionary,
      in its iteration order, on a fresh request: none for `nil`, otherwise
      exactly the dictionary's pairs. */
  function SetHeaderFields(headers: Option<Dictionary<string>>): (fields: map<string, string>)
    ensures headers.None? ==> fields == map[]
    ensures headers.Some? ==> CarriesHeaders(fields, headers.value)
  {
    match headers
    case None => map[]
    case Some(d) =>
      ToMapEntries(d);
      StoreAll(map[], d.entries)
  }

  /** The throwing `URLRequest` initialiser. The cache policy argument is
      ignored: the request always uses the protocol's policy. The verb is the
      request type's raw value and every header is set. Only a non-empty
      parameter dictionary touches the URL: its components are re-parsed from
      the absolute string (failing with `InvalidURL`), their query items are
      replaced by the parameters' items, and the URL is rebuilt (failing with
      `FailedToCreateURL`). */
  function MakeRequest<V>(kit: UrlKit, url: Url, cachePolicy: CachePolicy, timeoutInterval: TimeInterval,
                          headers: Option<Dictionary<string>>, requestType: RequestType,
                          parameters: Option<Dictionary<V>>, describe: V -> string)
    : (r: Result<UrlRequest, UrlRequestError>)
    ensures r.Success? ==> && r.value.cachePolicy == UseProtocolCachePolicy
                           && r.value.timeoutInterval == timeoutInterval
                           && r.value.httpMethod == RawValue(requestType)
    ensures r.Success? && headers.None? ==> r.value.headerFields == map[]
    ensures r.Success? && headers.Some? ==> CarriesHeaders(r.value.headerFields, headers.value)
    ensures parameters.None? || IsEmpty(parameters.value) ==> r.Success? && r.value.url == url
    ensures r == Failure(InvalidURL) <==>
      && parameters.Some? && !IsEmpty(parameters.value)
      && kit.components(kit.absoluteString(url)).None?
    ensures r == Failure(FailedToCreateURL) <==>
      && parameters.Some? && !IsEmpty(parameters.value)
      && kit.components(kit.absoluteString(url)).Some?
      && kit.componentsUrl(WithQuery(kit.components(kit.absoluteString(url)).value,
                                     UrlQueryItems(parameters.value, describe))).None?
    ensures r.Success? && parameters.Some? && !IsEmpty(parameters.value) ==>
      && kit.components(kit.absoluteString(url)).Some?
      && kit.componentsUrl(WithQuery(kit.components(kit.absoluteString(url)).value,
                                     UrlQueryItems(parameters.value, describe))) == Some(r.value.url)
  {
    var request := UrlRequest(url, UseProtocolCachePolicy, timeoutInterval,
                              RawValue(requestType), SetHeaderFields(headers));
    if parameters.Some? && !IsEmpty(parameters.value) then
      match kit.components(kit.absoluteString(url))
      case None => Failure(InvalidURL)
      case Some(components) =>
        match kit.componentsUrl(WithQuery(components, UrlQueryItems(parameters.value, describe)))
        case None => Failure(FailedToCreateURL)
        case Some(finalUrl) => Success(request.(url := finalUrl))
    else
      Success(request)
  }

  /** URL components with their query items replaced. */
  function WithQuery(components: Url, items: seq<QueryItem>): Url {
    components.(queryItems := Some(items))
  }
}
