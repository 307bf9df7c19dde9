/**
 * The one piece of the incoming-call webhook that the relay depends on: the media-stream
 * URL written into the TwiML answer, `wss://{host}/media-stream/{session_id}`, and the
 * websocket route `/media-stream/{session_id}` that Twilio's connection must hit for the
 * session id to reach the relay.
 */
module IncomingCall {
  import opened Wrappers

  const SCHEME := "wss://"
  const ROUTE_PREFIX := "/media-stream/"

  /** The stream URL built for a call; `host` is the request's host name. */
  function StreamUrl(host: string, sessionId: string): string {
    SCHEME + host + ROUTE_PREFIX + sessionId
  }

  /** Splits what follows the scheme into the authority and the path (from the first `/`). */
  function SplitAuthority(s: string): (r: (string, string))
    ensures r.0 + r.1 == s
    ensures '/' !in r.0
    ensures r.1 == [] || r.1[0] == '/'
    decreases |s|
  {
    if s == [] then ("", "")
    else if s[0] == '/' then ("", s)
    else
      var rest := SplitAuthority(s[1..]);
      ([s[0]] + rest.0, rest.1)
  }

  /** The host and the path of a `wss://` URL. */
  function ParseUrl(url: string): Option<(string, string)> {
    if |url| >= |SCHEME| && url[..|SCHEME|] == SCHEME then Some(SplitAuthority(url[|SCHEME|..]))
    else None
  }

  /**
   * The websocket route: the path parameter `{session_id}` matches one non-empty path
   * segment, i.e. a run of characters other than `/`.
   */
  function MatchRoute(path: string): (r: Option<string>)
    ensures r.Some? ==> path == ROUTE_PREFIX + r.value && r.value != [] && '/' !in r.value
  {
    if |path| > |ROUTE_PREFIX| && path[..|ROUTE_PREFIX|] == ROUTE_PREFIX && '/' !in path[|ROUTE_PREFIX|..]
    then Some(path[|ROUTE_PREFIX|..])
    else None
  }

  /** The session id that the route hands to the relay for a URL, if it routes at all. */
  function RoutedSessionId(url: string): Option<string> {
    match ParseUrl(url)
    case None => None
    case Some(hp) => MatchRoute(hp.1)
  }

  /** An authority without `/`, followed by a path, is split exactly there. */
  lemma {:induction false} SplitAuthorityOf(host: string, path: string)
    requires '/' !in host
    requires path == [] || path[0] == '/'
    ensures SplitAuthority(host + path) == (host, path)
    decreases |host|
  {
    if host == [] {
      assert host + path == path;
    } else {
      assert (host + path)[0] == host[0];
      assert (host + path)[1..] == host[1..] + path;
      SplitAuthorityOf(host[1..], path);
      assert [host[0]] + host[1..] == host;
    }
  }

  /**
   * A stream URL is read back as its host and the route path, and the route gives back the
   * session id, whenever the host has no `/` and the id is one non-empty path segment.
   */
  lemma StreamUrlRoundTrip(host: string, sessionId: string)
    requires '/' !in host
    requires sessionId != [] && '/' !in sessionId
    ensures ParseUrl(StreamUrl(host, sessionId)) == Some((host, ROUTE_PREFIX + sessionId))
    ensures RoutedSessionId(StreamUrl(host, sessionId)) == Some(sessionId)
  {
    var url := StreamUrl(host, sessionId);
    assert url == SCHEME + (host + (ROUTE_PREFIX + sessionId));
    assert url[..|SCHEME|] == SCHEME;
    assert url[|SCHEME|..] == host + (ROUTE_PREFIX + sessionId);
    SplitAuthorityOf(host, ROUTE_PREFIX + sessionId);
    var path := ROUTE_PREFIX + sessionId;
    assert path[..|ROUTE_PREFIX|] == ROUTE_PREFIX;
    assert path[|ROUTE_PREFIX|..] == sessionId;
  }

  predicate IsLowerHex(c: char) {
    '0' <= c <= '9' || 'a' <= c <= 'f'
  }

  /**
   * The text of a version-4 UUID as `str(uuid.uuid4())` writes it: 36 characters, hyphens
   * at positions 8, 13, 18 and 23, lower-case hexadecimal elsewhere, version digit `4`
   * and a variant digit among `8`, `9`, `a`, `b`.
   */
  predicate IsUuid4Text(s: string) {
    && |s| == 36
    && (forall i :: 0 <= i < 36 ==> (s[i] == '-' <==> i in {8, 13, 18, 23}))
    && (forall i :: 0 <= i < 36 && i !in {8, 13, 18, 23} ==> IsLowerHex(s[i]))
    && s[14] == '4'
    && s[19] in "89ab"
  }

  /** The session id generated for a call always comes back to the relay through the route. */
  lemma GeneratedIdIsRouted(host: string, sessionId: string)
    requires '/' !in host
    requires IsUuid4Text(sessionId)
    ensures RoutedSessionId(StreamUrl(host, sessionId)) == Some(sessionId)
  {
    assert '/' !in sessionId by {
      forall i | 0 <= i < |sessionId| ensures sessionId[i] != '/' {
        if i !in {8, 13, 18, 23} {
          assert IsLowerHex(sessionId[i]);
        }
      }
    }
    StreamUrlRoundTrip(host, sessionId);
  }
}
