/** The network session: composing URLs, building requests, classifying
    responses, the typed GET and the byte-streaming download. The transport,
    the URL routines and the registry of known HTTP status codes belong to the
    platform and are given as a `Platform`. */
module AsyncSessions {
  import opened Wrappers
  import opened Dictionaries
  import opened Urls
  import RequestTypes
  import opened UrlRequests
  import opened Foundation

  datatype KeyDecodingStrategy = UseDefaultKeys | ConvertFromSnakeCase

  /** Scheme, host, optional headers, optional timeout in seconds, and the
      JSON key strategy, which defaults to the keys as written. */
  datatype SessionConfiguration = SessionConfiguration(
    scheme: string,
    host: string,
    headers: Option<Dictionary<string>>,
    timeout: Option<TimeInterval>,
    decodingStrategy: KeyDecodingStrategy := UseDefaultKeys)

  datatype SessionError = InvalidResponseType | UnknownHTTPStatusCode | Unauthorized

  /** Everything the session can throw. */
  datatype NetError =
    | BadURL(failingUrl: string)               // URLError(.badURL) from setting up a request
    | RequestFailed(requestError: UrlRequestError)
    | Session(sessionError: SessionError)
    | HttpStatus(code: int)                    // a registered non-success status, thrown as itself
    | Transport(cause: string)                 // the transport or the byte stream failed
    | Decoding(reason: string)                 // the body did not decode

  datatype HttpUrlResponse = HttpUrlResponse(statusCode: int, expectedContentLength: int)

  /** A response is an HTTP response or some other kind of URL response. */
  datatype UrlResponse = Http(http: HttpUrlResponse) | NonHttp

  /** What the transport makes of a request: nothing at all, or a response
      with the body bytes that arrived, and the error that cut the stream
      short if one did. */
  datatype Exchange =
    | Exchange(response: UrlResponse, body: Data, interruption: Option<string>)
    | Unreachable(cause: string)

  /** The collaborators outside the core: URL routines, the set of status
      codes `HTTPStatusCode` knows, and the transport. */
  datatype Platform = Platform(
    urls: UrlKit,
    isRegisteredStatus: int -> bool,
    transport: UrlRequest -> Exchange)

  /** The integer arguments of one progress callback. */
  datatype Progress = Progress(bytesWritten: int, totalBytesWritten: int, totalBytesExpectedToWrite: int)

  /** A session: its fixed configuration, the status codes read as
      "unauthorized", and whether a progress handler is installed. */
  datatype AsyncSession = AsyncSession(
    configuration: SessionConfiguration,
    unauthorizedStatusCodes: seq<int>,
    hasProgressHandler: bool)

  const UnauthorizedStatus: int := 401
  const ForbiddenStatus: int := 403
  const DefaultTimeout: int := 60

  /** A fresh session: 401 and 403 read as unauthorized, no handler. */
  function NewSession(configuration: SessionConfiguration): AsyncSession {
    AsyncSession(configuration, [UnauthorizedStatus, ForbiddenStatus], false)
  }

  /** The success class of HTTP statuses, section 15.3 of RFC 9110. */
  predicate IsSuccessClass(code: int) {
    200 <= code < 300
  }

  // ---------------------------------------------------------------------
  // Response validation

  /** Checks a response, in this order: a non-HTTP response is unauthorized;
      a status the registry does not know is unknown; a non-success status is
      unauthorized if listed as such and is otherwise thrown as itself; a
      success status passes the HTTP response through. */
  function ValidateResponse(s: AsyncSession, p: Platform, response: UrlResponse)
    : (r: Result<HttpUrlResponse, NetError>)
    ensures r.Success? ==> response == Http(r.value)
  {
    match response
    case NonHttp => Failure(Session(Unauthorized))
    case Http(http) =>
      if !p.isRegisteredStatus(http.statusCode) then Failure(Session(UnknownHTTPStatusCode))
      else if !IsSuccessClass(http.statusCode) then
        if http.statusCode in s.unauthorizedStatusCodes then Failure(Session(Unauthorized))
        else Failure(HttpStatus(http.statusCode))
      else Success(http)
  }

  /** Each outcome of validation, with exactly the responses that lead to it. */
  lemma ValidationOutcomes(s: AsyncSession, p: Platform, response: UrlResponse)
    ensures ValidateResponse(s, p, response).Success? <==>
      response.Http? && p.isRegisteredStatus(response.http.statusCode)
      && IsSuccessClass(response.http.statusCode)
    ensures ValidateResponse(s, p, response) == Failure(Session(UnknownHTTPStatusCode)) <==>
      response.Http? && !p.isRegisteredStatus(response.http.statusCode)
    ensures ValidateResponse(s, p, response) == Failure(Session(Unauthorized)) <==>
      response.NonHttp? ||
      (p.isRegisteredStatus(response.http.statusCode) && !IsSuccessClass(response.http.statusCode)
       && response.http.statusCode in s.unauthorizedStatusCodes)
    ensures forall code :: ValidateResponse(s, p, response) == Failure(HttpStatus(code)) <==>
      response.Http? && response.http.statusCode == code
      && p.isRegisteredStatus(code) && !IsSuccessClass(code) && code !in s.unauthorizedStatusCodes
  {
  }

  /** With the default list, 401 and 403 (sections 15.5.2 and 15.5.4 of
      RFC 9110) are unauthorized when the registry knows them, and any other
      registered client or server error is thrown as its code. */
  lemma DefaultUnauthorizedCodes(c: SessionConfiguration, p: Platform, http: HttpUrlResponse)
    requires p.isRegisteredStatus(http.statusCode) && !IsSuccessClass(http.statusCode)
    ensures ValidateResponse(NewSession(c), p, Http(http)) ==
      if http.statusCode == 401 || http.statusCode == 403 then Failure(Session(Unauthorized))
      else Failure(HttpStatus(http.statusCode))
  {
  }

  /** Validation is idempotent: revalidating what passed passes it again
      unchanged, which is why the second check in `HandleResponse` never
      fails. */
  lemma ValidationIdempotent(s: AsyncSession, p: Platform, response: UrlResponse)
    requires ValidateResponse(s, p, response).Success?
    ensures ValidateResponse(s, p, Http(ValidateResponse(s, p, response).value)) ==
            ValidateResponse(s, p, response)
  {
  }

  // ---------------------------------------------------------------------
  // Request construction

  /** The `scheme://host` base URL, both parts percent-encoded with the host
      character set. */
  function BaseUrl(c: SessionConfiguration, kit: UrlKit): (r: Option<Url>)
    ensures r.Some? <==> && kit.hostEncoded(c.scheme).Some? && kit.hostEncoded(c.host).Some?
                         && kit.url(kit.hostEncoded(c.scheme).value + "://" + kit.hostEncoded(c.host).value).Some?
    ensures r.Some? ==> r == kit.url(kit.hostEncoded(c.scheme).value + "://" + kit.hostEncoded(c.host).value)
  {
    var scheme :- kit.hostEncoded(c.scheme);
    var host :- kit.hostEncoded(c.host);
    kit.url(scheme + "://" + host)
  }

  /** The URL a path denotes: an absolute URL (scheme and host present) as it
      stands, otherwise the base URL with the percent-encoded path appended;
      `None` when any encoding or parse fails. */
  function ComposedUrl(c: SessionConfiguration, kit: UrlKit, path: string): (r: Option<Url>)
    ensures IsAbsolute(kit, path) ==> r == kit.url(path)
    ensures !IsAbsolute(kit, path) && r.Some? ==>
      && BaseUrl(c, kit).Some? && kit.pathEncoded(path).Some?
      && r.value == kit.appendingPathComponent(BaseUrl(c, kit).value, kit.pathEncoded(path).value)
    ensures r.None? <==> !IsAbsolute(kit, path) && (BaseUrl(c, kit).None? || kit.pathEncoded(path).None?)
  {
    if IsAbsolute(kit, path) then kit.url(path)
    else
      var base :- BaseUrl(c, kit);
      var encodedPath :- kit.pathEncoded(path);
      Some(kit.appendingPathComponent(base, encodedPath))
  }

  /** An absolute path ignores the configured scheme and host altogether. */
  lemma AbsolutePathIgnoresConfiguration(c: SessionConfiguration, d: SessionConfiguration,
                                         kit: UrlKit, path: string)
    requires IsAbsolute(kit, path)
    ensures ComposedUrl(c, kit, path) == ComposedUrl(d, kit, path) == kit.url(path)
  {
  }

  /** Only the scheme and host of the configuration shape a relative URL:
      switching hosts is the same as building a session for the new host. */
  lemma ComposedUrlReadsSchemeAndHost(c: SessionConfiguration, d: SessionConfiguration,
                                      kit: UrlKit, path: string)
    requires c.scheme == d.scheme && c.host == d.host
    ensures ComposedUrl(c, kit, path) == ComposedUrl(d, kit, path)
  {
  }

  /** The configured timeout, or 60 seconds when there is none. */
  function TimeoutOrDefault(timeout: Option<TimeInterval>): TimeInterval {
    if timeout.Some? then timeout.value else DefaultTimeout
  }

  /** The identity: the string form of a string. */
  function Verbatim(s: string): string {
    s
  }

  /** A request for `path`: a URL that does not compose is `BadURL(path)`;
      otherwise the request has the verb, the configured headers, the
      protocol cache policy and the configured timeout (60 s by default), and
      its URL is the composed URL unless parameters rewrite the query. */
  function SetupRequest<V>(c: SessionConfiguration, kit: UrlKit, path: string,
                           requestType: RequestTypes.RequestType,
                           parameters: Option<Dictionary<V>>, describe: V -> string)
    : (r: Result<UrlRequest, NetError>)
    ensures r == Failure(BadURL(path)) <==> ComposedUrl(c, kit, path).None?
    ensures r.Success? ==> && r.value.httpMethod == RequestTypes.RawValue(requestType)
                           && r.value.cachePolicy == UseProtocolCachePolicy
                           && r.value.timeoutInterval == TimeoutOrDefault(c.timeout)
                           && (c.headers.None? ==> r.value.headerFields == map[])
                           && (c.headers.Some? ==> CarriesHeaders(r.value.headerFields, c.headers.value))
    ensures ComposedUrl(c, kit, path).Some? && (parameters.None? || IsEmpty(parameters.value)) ==>
      r.Success? && r.value.url == ComposedUrl(c, kit, path).value
    ensures r.Failure? && !r.error.BadURL? ==>
      r.error.RequestFailed? && parameters.Some? && !IsEmpty(parameters.value)
    ensures ComposedUrl(c, kit, path).Some? ==>
      var built := MakeRequest(kit, ComposedUrl(c, kit, path).value, UseProtocolCachePolicy,
                               TimeoutOrDefault(c.timeout), c.headers, requestType, parameters, describe);
      && (built.Success? <==> r.Success?)
      && (built.Success? ==> r.value == built.value)
      && (built.Failure? ==> r == Failure(RequestFailed(built.error)))
  {
    match ComposedUrl(c, kit, path)
    case None => Failure(BadURL(path))
    case Some(url) =>
      match MakeRequest(kit, url, UseProtocolCachePolicy, TimeoutOrDefault(c.timeout), c.headers,
                        requestType, parameters, describe)
      case Failure(e) => Failure(RequestFailed(e))
      case Success(request) => Success(request)
  }

  /** The verb is the only thing a request's type changes: setup fails or
      succeeds alike for every verb, and the requests differ in the method. */
  lemma SetupRequestVerbOnly<V>(c: SessionConfiguration, kit: UrlKit, path: string,
                                t: RequestTypes.RequestType, u: RequestTypes.RequestType,
                                parameters: Option<Dictionary<V>>, describe: V -> string)
    ensures var a := SetupRequest(c, kit, path, t, parameters, describe);
            var b := SetupRequest(c, kit, path, u, parameters, describe);
            && (a.Failure? <==> b.Failure?)
            && (a.Failure? ==> a == b)
            && (a.Success? ==> b.value == a.value.(httpMethod := RequestTypes.RawValue(u)))
  {
  }

  // ---------------------------------------------------------------------
  // Typed GET

  /** `URLSession.data(for:)`: the whole body and the response, or the
      transport's failure; a stream cut short fails the whole call. */
  function DataFor(p: Platform, request: UrlRequest): (r: Result<(Data, UrlResponse), NetError>)
    ensures r.Failure? ==> r.error.Transport?
    ensures r.Success? <==> p.transport(request).Exchange? && p.transport(request).interruption.None?
    ensures r.Success? ==> r.value == (p.transport(request).body, p.transport(request).response)
    ensures r.Failure? ==> r.error == Transport(if p.transport(request).Unreachable?
                                                then p.transport(request).cause
                                                else p.transport(request).interruption.value)
  {
    match p.transport(request)
    case Unreachable(cause) => Failure(Transport(cause))
    case Exchange(response, body, interruption) =>
      if interruption.Some? then Failure(Transport(interruption.value))
      else Success((body, response))
  }

  /** Validates the response again and decodes the body with the session's
      key strategy; a body that does not decode is a `Decoding` error. */
  function HandleResponse<T>(s: AsyncSession, p: Platform, data: Data, response: UrlResponse,
                             decode: (Data, KeyDecodingStrategy) -> Result<T, string>)
    : (r: Result<T, NetError>)
    ensures ValidateResponse(s, p, response).Failure? ==> r == Failure(ValidateResponse(s, p, response).error)
    ensures ValidateResponse(s, p, response).Success? ==>
      (r.Success? <==> decode(data, s.configuration.decodingStrategy).Success?)
    ensures r.Success? ==> decode(data, s.configuration.decodingStrategy) == Success(r.value)
  {
    var validated :- ValidateResponse(s, p, response);
    match decode(data, s.configuration.decodingStrategy)
    case Success(value) => Success(value)
    case Failure(reason) => Failure(Decoding(reason))
  }

  /** GET `path` and decode the body: set up a GET request, send it, validate
      the response, then handle it. */
  function Get<V, T>(s: AsyncSession, p: Platform, path: string, parameters: Option<Dictionary<V>>,
                     describe: V -> string, decode: (Data, KeyDecodingStrategy) -> Result<T, string>)
    : (r: Result<T, NetError>)
  {
    var request :- SetupRequest(s.configuration, p.urls, path, RequestTypes.Get, parameters, describe);
    var received :- DataFor(p, request);
    var validated :- ValidateResponse(s, p, received.1);
    HandleResponse(s, p, received.0, received.1, decode)
  }

  /** A successful GET sent a GET request, got the whole body with a
      validated response, and decoded that body with the session's key
      strategy. A failure comes from exactly one stage, and a body that does
      not decode is a decoding error, never a status or transport error. */
  lemma GetStages<V, T>(s: AsyncSession, p: Platform, path: string, parameters: Option<Dictionary<V>>,
                        describe: V -> string, decode: (Data, KeyDecodingStrategy) -> Result<T, string>)
    ensures var r := Get(s, p, path, parameters, describe, decode);
            var request := SetupRequest(s.configuration, p.urls, path, RequestTypes.Get, parameters, describe);
            && (request.Failure? ==> r == Failure(request.error))
            && (request.Success? ==>
                 && request.value.httpMethod == "GET"
                 && (DataFor(p, request.value).Failure? ==> r == Failure(DataFor(p, request.value).error))
                 && (DataFor(p, request.value).Success? ==>
                      var (body, response) := DataFor(p, request.value).value;
                      && (ValidateResponse(s, p, response).Failure? ==>
                            r == Failure(ValidateResponse(s, p, response).error))
                      && (ValidateResponse(s, p, response).Success? ==>
                            && (r.Success? <==> decode(body, s.configuration.decodingStrategy).Success?)
                            && (r.Success? ==> decode(body, s.configuration.decodingStrategy) == Success(r.value))
                            && (r.Failure? ==> r.error.Decoding?))))
  {
  }

  // ---------------------------------------------------------------------
  // Download

  /** The data gathered so far and the progress callbacks issued so far. */
  datatype Drained = Drained(data: Data, events: seq<Progress>)

  /** The byte loop of `download`: each byte is appended to the data; with a
      handler, the running count goes up by one and a callback reports it. */
  function Drain(stream: Data, acc: Drained, hasHandler: bool, expected: int, written: int)
    : (r: Drained)
    ensures r.data == acc.data + stream
    ensures !hasHandler ==> r.events == acc.events
    ensures hasHandler ==> |r.events| == |acc.events| + |stream|
    ensures hasHandler ==> forall k :: 0 <= k < |r.events| ==>
      r.events[k] == if k < |acc.events| then acc.events[k]
                     else Progress(written + (k - |acc.events|) + 1, written + (k - |acc.events|) + 1, expected)
  {
    if |stream| == 0 then acc
    else
      var step := if hasHandler then [Progress(written + 1, written + 1, expected)] else [];
      var next := if hasHandler then written + 1 else written;
      Drain(stream[1..], Drained(acc.data + [stream[0]], acc.events + step), hasHandler, expected, next)
  }

  /** What `download` returns, the session afterwards, and the progress
      callbacks it issued. */
  datatype DownloadOutcome = DownloadOutcome(
    result: Result<Data, NetError>,
    session: AsyncSession,
    events: seq<Progress>)

  /** The request `download` sends: always a GET and never any parameters. */
  function DownloadRequest(c: SessionConfiguration, kit: UrlKit, path: string): (r: Result<UrlRequest, NetError>)
    ensures r.Success? ==> r.value.httpMethod == "GET"
    ensures r.Success? <==> ComposedUrl(c, kit, path).Some?
    ensures r.Success? ==> r.value.url == ComposedUrl(c, kit, path).value
    ensures r.Failure? ==> r == Failure(BadURL(path))
    ensures r.Success? ==> && r.value.cachePolicy == UseProtocolCachePolicy
                           && r.value.timeoutInterval == TimeoutOrDefault(c.timeout)
                           && (c.headers.None? ==> r.value.headerFields == map[])
                           && (c.headers.Some? ==> CarriesHeaders(r.value.headerFields, c.headers.value))
  {
    SetupRequest<string>(c, kit, path, RequestTypes.Get, None, Verbatim)
  }

  /** Download the bytes at `path`: install the handler, set up a GET
      request without parameters, open the byte stream, validate the
      response, and gather the stream. The handler is removed only when the
      whole stream arrived; a failure leaves it installed. */
  function Download<V>(s: AsyncSession, p: Platform, path: string,
                       parameters: Option<Dictionary<V>>, progress: bool)
    : (r: DownloadOutcome)
    ensures r.session.configuration == s.configuration
    ensures r.session.unauthorizedStatusCodes == s.unauthorizedStatusCodes
    ensures r.result.Success? ==> !r.session.hasProgressHandler
    ensures r.result.Failure? ==> r.session.hasProgressHandler == progress
    ensures r.result.Success? ==>
      && DownloadRequest(s.configuration, p.urls, path).Success?
      && var exchange := p.transport(DownloadRequest(s.configuration, p.urls, path).value);
         && exchange.Exchange? && exchange.interruption.None?
         && ValidateResponse(s, p, exchange.response).Success?
         && r.result.value == exchange.body
    ensures progress && r.result.Success? ==> |r.events| == |r.result.value|
    ensures progress ==> forall i :: 0 <= i < |r.events| ==>
      r.events[i].bytesWritten == r.events[i].totalBytesWritten == i + 1
    ensures !progress ==> r.events == []
    ensures var request := DownloadRequest(s.configuration, p.urls, path);
      && (request.Failure? ==> r.result == Failure(request.error) && r.events == [])
      && (request.Success? ==>
           var exchange := p.transport(request.value);
           && (exchange.Unreachable? ==> r.result == Failure(Transport(exchange.cause)) && r.events == [])
           && (exchange.Exchange? ==>
                var validated := ValidateResponse(s, p, exchange.response);
                && (validated.Failure? ==> r.result == Failure(validated.error) && r.events == [])
                && (validated.Success? ==>
                     && (exchange.interruption.Some? ==> r.result == Failure(Transport(exchange.interruption.value)))
                     && (exchange.interruption.None? ==> r.result == Success(exchange.body))
                     && (progress ==> |r.events| == |exchange.body|)
                     && forall i :: 0 <= i < |r.events| ==>
                          r.events[i].totalBytesExpectedToWrite == validated.value.expectedContentLength)))
  {
    var installed := s.(hasProgressHandler := progress);
    match DownloadRequest(installed.configuration, p.urls, path)
    case Failure(e) => DownloadOutcome(Failure(e), installed, [])
    case Success(request) =>
      match p.transport(request)
      case Unreachable(cause) => DownloadOutcome(Failure(Transport(cause)), installed, [])
      case Exchange(response, body, interruption) =>
        match ValidateResponse(installed, p, response)
        case Failure(e) => DownloadOutcome(Failure(e), installed, [])
        case Success(http) =>
          var drained := Drain(body, Drained([], []), installed.hasProgressHandler,
                               http.expectedContentLength, 0);
          if interruption.Some? then
            DownloadOutcome(Failure(Transport(interruption.value)), installed, drained.events)
          else
            DownloadOutcome(Success(drained.data), installed.(hasProgressHandler := false), drained.events)
  }

  /** The parameters handed to `download` never reach the request. */
  lemma DownloadIgnoresParameters<V>(s: AsyncSession, p: Platform, path: string,
                                     parameters: Option<Dictionary<V>>, progress: bool)
    ensures Download(s, p, path, parameters, progress) == Download<V>(s, p, path, None, progress)
  {
  }

  /** Progress is reported once per byte, in arrival order, counting up
      from 1 to the number of bytes, each with the advertised length. */
  lemma ProgressCountsUp<V>(s: AsyncSession, p: Platform, path: string, parameters: Option<Dictionary<V>>)
    requires Download(s, p, path, parameters, true).result.Success?
    ensures var r := Download(s, p, path, parameters, true);
            && |r.events| == |r.result.value|
            && (forall i, j :: 0 <= i < j < |r.events| ==> r.events[i].bytesWritten < r.events[j].bytesWritten)
            && (|r.events| > 0 ==> r.events[|r.events| - 1].bytesWritten == |r.result.value|)
  {
  }
}
