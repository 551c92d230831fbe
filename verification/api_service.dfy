/** The default session factory of services that talk to a given host. */
module ApiService {
  import opened Wrappers
  import opened Urls
  import opened AsyncSessions

  /** A new session for `host`: HTTPS, no extra headers, a 60 second timeout
      and snake_case JSON keys read as camelCase. */
  function CreateSession(host: string): (s: AsyncSession)
    ensures s.configuration.scheme == "https" && s.configuration.host == host
    ensures s.configuration.headers.None? && s.configuration.timeout == Some(60)
    ensures s.configuration.decodingStrategy == ConvertFromSnakeCase
    ensures s.unauthorizedStatusCodes == [401, 403] && !s.hasProgressHandler
  {
    NewSession(SessionConfiguration("https", host, None, Some(60), ConvertFromSnakeCase))
  }

  /** Asking for another host gives a session that differs only in its host,
      so a switch never leaves a stale host behind. */
  lemma HostSwitch(h: string, k: string)
    ensures CreateSession(k) == CreateSession(h).(configuration := CreateSession(h).configuration.(host := k))
    ensures h != k ==> CreateSession(h) != CreateSession(k)
  {
  }

  /** A relative path requested through a session made for `host` is
      composed on "https://" and that host, when percent-encoding leaves
      both unchanged. */
  lemma CreatedSessionTargetsHost(host: string, kit: UrlKit, path: string)
    requires !IsAbsolute(kit, path)
    requires kit.hostEncoded("https") == Some("https") && kit.hostEncoded(host) == Some(host)
    ensures var base := kit.url("https://" + host);
            ComposedUrl(CreateSession(host).configuration, kit, path) ==
              if base.Some? && kit.pathEncoded(path).Some?
              then Some(kit.appendingPathComponent(base.value, kit.pathEncoded(path).value))
              else None
  {
    assert "https" + "://" + host == "https://" + host;
  }
}
