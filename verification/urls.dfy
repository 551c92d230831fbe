/** URLs, query items, and the Foundation URL routines the session relies on.
    Parsing, percent encoding and path appending are library code outside this
    model, so they enter as the fields of a `UrlKit`. */
module Urls {
  import opened Wrappers

  /** A `URLQueryItem`: a name and a value. */
  datatype QueryItem = QueryItem(name: string, value: string)

  /** A parsed URL, or equally its `URLComponents`: the parts the core reads
      and writes. */
  datatype Url = Url(scheme: Option<string>, host: Option<string>, path: string,
                     queryItems: Option<seq<QueryItem>>)

  /** The Foundation routines, as given functions:
      `url` is `URL(string:)`, `components` is `URLComponents(string:)`,
      `componentsUrl` is `URLComponents.url`, `absoluteString` is
      `URL.absoluteString`, `hostEncoded` and `pathEncoded` are
      `addingPercentEncoding(withAllowedCharacters:)` with the host and path
      allowed sets, and `appendingPathComponent` is the URL method of that name. */
  datatype UrlKit = UrlKit(
    url: string -> Option<Url>,
    components: string -> Option<Url>,
    componentsUrl: Url -> Option<Url>,
    absoluteString: Url -> string,
    hostEncoded: string -> Option<string>,
    pathEncoded: string -> Option<string>,
    appendingPathComponent: (Url, string) -> Url)

  /** A string that parses as a URL with both a scheme and a host. */
  predicate IsAbsolute(kit: UrlKit, s: string) {
    var u := kit.url(s);
    u.Some? && u.value.scheme.Some? && u.value.host.Some?
  }
}
