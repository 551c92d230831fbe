/** The default session configuration of services bound to the recipe host. */
module FetchService {
  import opened Wrappers
  import opened AsyncSessions
  import ApiService

  /** The host that serves the recipe list. */
  const DefaultHost: string := "d3jbb8n5wk0qxi.cloudfront.net"

  /** HTTPS to the recipe host, no extra headers, a 60 second timeout and
      snake_case JSON keys read as camelCase. */
  function CreateSessionConfiguration(): (c: SessionConfiguration)
    ensures c.scheme == "https" && c.host == "d3jbb8n5wk0qxi.cloudfront.net"
    ensures c.headers.None? && c.timeout == Some(60) && c.decodingStrategy == ConvertFromSnakeCase
  {
    SessionConfiguration("https", DefaultHost, None, Some(60), ConvertFromSnakeCase)
  }

  /** The `session` accessor: every read builds a fresh session from the
      default configuration, with nothing carried over from an earlier one. */
  function Session(): (s: AsyncSession)
    ensures s.configuration == CreateSessionConfiguration()
    ensures !s.hasProgressHandler && s.unauthorizedStatusCodes == [401, 403]
  {
    NewSession(CreateSessionConfiguration())
  }

  /** The two default factories agree: the accessor's session is the one
      the host-taking factory builds for the recipe host. */
  lemma SessionMatchesHostFactory()
    ensures Session() == ApiService.CreateSession(DefaultHost)
  {
  }
}
