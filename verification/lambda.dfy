/** The pure parts of the serverless adapter: the HTTP method mapping, the
    routing path derived from the incoming URI, and the choice between a
    text and a binary response body. */
module Lambda {
  import opened Wrappers
  import opened Text
  import opened Http

  datatype Method = GET | POST | PUT | DELETE | HEAD | OPTIONS | PATCH

  function MethodName(m: Method): string {
    match m
    case GET => "GET"
    case POST => "POST"
    case PUT => "PUT"
    case DELETE => "DELETE"
    case HEAD => "HEAD"
    case OPTIONS => "OPTIONS"
    case PATCH => "PATCH"
  }

  /** The method mapping: the seven known names map to their method and
      every other name falls back to GET. */
  function MapMethod(s: string): (m: Method)
    ensures MethodName(m) == s || (m == GET && forall k: Method :: MethodName(k) != s)
  {
    if s == "GET" then GET
    else if s == "POST" then POST
    else if s == "PUT" then PUT
    else if s == "DELETE" then DELETE
    else if s == "HEAD" then HEAD
    else if s == "OPTIONS" then OPTIONS
    else if s == "PATCH" then PATCH
    else GET
  }

  /** Every method survives the mapping of its own name. */
  lemma MapMethodRoundTrip(m: Method)
    ensures MapMethod(MethodName(m)) == m
  {
  }

  /** The API stage prefix the adapter strips. */
  const STAGE: string := "/prod"

  /** An empty path is routed as "/". */
  function NonEmpty(path: string): (p: string)
    ensures p != []
    ensures path != [] ==> p == path
  {
    if path == [] then "/" else path
  }

  /** `p` is what remains of `uri` after dropping some of its characters
      from the front. */
  predicate TailOf(p: string, uri: string) {
    exists i :: 0 <= i < |uri| && p == uri[i..]
  }

  /** The routing path exactly as the adapter derives it. A full URI (one
      starting with "http") is cut after the first "/prod" anywhere in it,
      or else at its last '/'; a bare path loses a leading "/prod". */
  function RoutePathAsWritten(uri: string): (p: string)
    ensures p != []
    ensures p == "/" || TailOf(p, uri)
  {
    var path :=
      if StartsWith(uri, "http") then
        match FindSub(uri, STAGE)
        case Some(i) => uri[i + |STAGE|..]
        case None =>
          match LastIndexOf(uri, '/')
          case Some(i) => uri[i..]
          case None => "/"
      else if StartsWith(uri, STAGE) then uri[|STAGE|..]
      else uri;
    assert path == "/" || path == [] || TailOf(path, uri) by {
      if path != [] && path != "/" {
        var j := |uri| - |path|;
        assert 0 <= j < |uri| && path == uri[j..];
      }
    }
    NonEmpty(path)
  }

  /** A bare path starting with the five characters "/prod" loses exactly
      those, whatever follows them ("/prod" alone becomes "/"); any other
      bare path passes through unchanged. */
  lemma BarePathAsWritten(path: string)
    ensures RoutePathAsWritten(STAGE + path) == NonEmpty(path)
    ensures path != [] && !StartsWith(path, "http") && !StartsWith(path, STAGE) ==> RoutePathAsWritten(path) == path
  {
    assert (STAGE + path)[..|STAGE|] == STAGE;
    assert (STAGE + path)[|STAGE|..] == path;
    assert !StartsWith(STAGE + path, "http") by {
      assert (STAGE + path)[0] == '/';
    }
  }

  /** The bare-path strip is a string prefix test, not a segment test: a
      path whose first segment merely begins with "prod", such as
      "/products", is cut inside that segment ("ucts") and is no longer an
      absolute path. */
  lemma StageInsideSegmentAsWritten(rest: string)
    requires rest != [] && rest[0] != '/'
    ensures RoutePathAsWritten(STAGE + rest) == rest
    ensures RoutePathAsWritten(STAGE + rest)[0] != '/'
  {
    BarePathAsWritten(rest);
  }

  /** A full URI holding "/prod" yields the text after its first
      occurrence ("/" if nothing follows). */
  lemma FullUriWithStageAsWritten(uri: string, i: nat)
    requires StartsWith(uri, "http")
    requires OccursAt(uri, STAGE, i) && forall j :: 0 <= j < i ==> !OccursAt(uri, STAGE, j)
    ensures RoutePathAsWritten(uri) == NonEmpty(uri[i + |STAGE|..])
  {
  }

  /** A full URI without "/prod" yields its suffix from the last '/', or
      "/" when it has no '/'. */
  lemma FullUriWithoutStageAsWritten(uri: string)
    requires StartsWith(uri, "http")
    requires forall j :: !OccursAt(uri, STAGE, j)
    ensures '/' !in uri ==> RoutePathAsWritten(uri) == "/"
    ensures '/' in uri ==>
              exists i :: 0 <= i < |uri| && uri[i] == '/' && '/' !in uri[i + 1..] && RoutePathAsWritten(uri) == uri[i..]
  {
    if '/' in uri {
      var i := LastIndexOf(uri, '/').value;
      assert uri[i..] != [];
      assert RoutePathAsWritten(uri) == uri[i..];
    }
  }

  /** Where no "/p" starts below `n`, no stage prefix does either. */
  lemma NoStageBefore(uri: string, n: int)
    requires forall j :: 0 <= j < n && j + 1 < |uri| ==> uri[j] != '/' || uri[j + 1] != 'p'
    ensures forall j :: 0 <= j < n ==> !OccursAt(uri, STAGE, j)
  {
    forall j | 0 <= j < n
      ensures !OccursAt(uri, STAGE, j)
    {
      if j + |STAGE| <= |uri| {
        assert uri[j..j + |STAGE|][0] == uri[j];
        assert uri[j..j + |STAGE|][1] == uri[j + 1];
      }
    }
  }

  /** A host whose name begins with "prod" holds "/prod" right after the
      scheme's "//", so the stage prefix is found inside the host and the
      rest of the host name is taken for the path: for
      "https://prod.example.com/prod/mcp" the route is ".example.com/prod/mcp". */
  lemma HostStartingWithProdAsWritten(rest: string)
    ensures RoutePathAsWritten("https://prod" + rest) == NonEmpty(rest)
  {
    var uri := "https:/" + STAGE + rest;
    assert uri == "https://prod" + rest;
    assert uri[..4] == "http";
    assert uri[7..12] == STAGE;
    assert uri[..7] == "https:/" && uri[7] == '/';
    NoStageBefore(uri, 7);
    FullUriWithStageAsWritten(uri, 7);
    assert uri[12..] == rest;
  }

  /** No '/' in `s` is directly followed by 'p'. */
  predicate NoSlashP(s: string) {
    forall j :: 0 <= j && j + 1 < |s| ==> s[j] != '/' || s[j + 1] != 'p'
  }

  /** The character at `i` is found by `LastIndexOf` when it does not occur
      after `i`. */
  lemma {:induction false} LastAt(s: string, i: nat, c: char)
    requires i < |s| && s[i] == c && c !in s[i + 1..]
    ensures LastIndexOf(s, c) == Some(i)
    decreases |s|
  {
    if i < |s| - 1 {
      var t := s[..|s| - 1];
      assert s[i + 1..][|s| - i - 2] == s[|s| - 1];
      assert t[i + 1..] == s[i + 1..][..|s| - i - 2];
      LastAt(t, i, c);
    }
  }

  /** A full URI without the stage prefix keeps only its last segment, so
      a nested route is lost: "https://api.example.com/mcp/sessions/abc",
      asking for /mcp/sessions/abc, is routed to "/abc". */
  lemma NestedPathAsWritten(rest: string, last: string)
    requires NoSlashP(rest) && (rest != [] ==> rest[0] != 'p')
    requires '/' !in last && (last != [] ==> last[0] != 'p')
    ensures RoutePathAsWritten("https://" + rest + "/" + last) == "/" + last
  {
    var head := "https://" + rest;
    var uri := head + "/" + last;
    var n := |head|;
    NestedHasNoStage(rest, last);
    HttpScheme(uri, "https");
    assert uri[n] == '/';
    assert uri[n + 1..] == last;
    RouteAtLastSlash(uri, n);
    assert uri[n..] == [uri[n]] + uri[n + 1..];
  }

  /** A full URI without "/prod" routes to its suffix from the '/' at `n`
      when no '/' follows that one. */
  lemma RouteAtLastSlash(uri: string, n: nat)
    requires StartsWith(uri, "http") && forall j :: !OccursAt(uri, STAGE, j)
    requires n < |uri| && uri[n] == '/' && '/' !in uri[n + 1..]
    ensures RoutePathAsWritten(uri) == uri[n..]
  {
    LastAt(uri, n, '/');
  }

  /** The URI of `NestedPathAsWritten` holds no "/prod" anywhere. */
  lemma NestedHasNoStage(rest: string, last: string)
    requires NoSlashP(rest) && (rest != [] ==> rest[0] != 'p')
    requires '/' !in last && (last != [] ==> last[0] != 'p')
    ensures forall j :: !OccursAt("https://" + rest + "/" + last, STAGE, j)
  {
    var head := "https://" + rest;
    var uri := head + "/" + last;
    var n := |head|;
    forall j | 0 <= j && j + 1 < |uri|
      ensures uri[j] != '/' || uri[j + 1] != 'p'
    {
      if j < 7 {
        assert uri[j] == "https://"[j] && uri[j + 1] == "https://"[j + 1];
      } else if j == 7 {
        assert uri[j + 1] == (if rest != [] then rest[0] else '/');
      } else if j + 1 < n {
        assert uri[j] == rest[j - 8] && uri[j + 1] == rest[j - 7];
      } else if j + 1 == n {
        assert uri[j + 1] == '/';
      } else if j == n {
        assert uri[j + 1] == last[0];
      } else {
        assert uri[j] == last[j - n - 1];
      }
    }
    NoStageBefore(uri, |uri|);
    forall j ensures !OccursAt(uri, STAGE, j) {
      if j < 0 || j >= |uri| {
        assert !OccursAt(uri, STAGE, j);
      }
    }
  }


  /** The path component of a full URI: from the first '/' after the
      scheme's "://", or "/" when the authority has no path. */
  function PathComponent(uri: string): string {
    match FindSub(uri, "://")
    case None => uri
    case Some(i) =>
      var rest := uri[i + 3..];
      match IndexOf(rest, '/')
      case Some(k) => rest[k..]
      case None => "/"
  }

  /** The path lies under the stage: it is "/prod" or starts with "/prod/". */
  predicate UnderStage(path: string) {
    path == STAGE || StartsWith(path, STAGE + "/")
  }

  /** Drops a leading stage segment; a segment that merely begins with
      "prod" is kept. */
  function StripStage(path: string): (r: string)
    ensures UnderStage(path) ==> path == STAGE + r
    ensures !UnderStage(path) ==> r == path
  {
    if UnderStage(path) then path[|STAGE|..] else path
  }

  /** The routing path with the stage segment taken from the start of the
      URI's path component only. */
  function RoutePath(uri: string): (p: string)
    ensures p != []
    ensures !StartsWith(uri, "http") && (UnderStage(uri) || !StartsWith(uri, STAGE)) ==> p == RoutePathAsWritten(uri)
    ensures !StartsWith(uri, "http") && StartsWith(uri, STAGE) && !UnderStage(uri) ==> p == uri
  {
    if StartsWith(uri, "http") then NonEmpty(StripStage(PathComponent(uri)))
    else NonEmpty(StripStage(uri))
  }

  /** A path with the stage segment in front of it is under the stage, and
      stripping gives the path back. */
  lemma StripStagedPath(path: string)
    requires path != [] && path[0] == '/'
    ensures UnderStage(STAGE + path) && StripStage(STAGE + path) == path
  {
    var staged := STAGE + path;
    assert staged[..|STAGE + "/"|] == STAGE + "/";
    assert staged[|STAGE|..] == path;
  }

  /** A full URI routes as its path component alone would. */
  lemma RouteOfTail(scheme: string, host: string, tail: string)
    requires scheme == "http" || scheme == "https"
    requires '/' !in host
    requires tail != [] && tail[0] == '/'
    ensures RoutePath(scheme + "://" + host + tail) == NonEmpty(StripStage(tail))
  {
    RecoverWithTail(scheme, host, tail);
  }

  /** For any host, a full URI routes to the path the caller asked for: with
      the stage segment in front of it always, without it whenever the path
      does not itself lie under the stage (a URI cannot tell those apart).
      The stage alone routes to "/". */
  lemma RoutePathRecoversPath(scheme: string, host: string, path: string)
    requires scheme == "http" || scheme == "https"
    requires '/' !in host
    requires path != [] && path[0] == '/'
    ensures RoutePath(scheme + "://" + host + STAGE + path) == path
    ensures !UnderStage(path) ==> RoutePath(scheme + "://" + host + path) == path
    ensures RoutePath(scheme + "://" + host + STAGE) == "/"
  {
    var staged := STAGE + path;
    assert staged[0] == '/';
    assert scheme + "://" + host + STAGE + path == scheme + "://" + host + staged;
    RouteOfTail(scheme, host, staged);
    StripStagedPath(path);
    RouteOfTail(scheme, host, path);
    RouteOfTail(scheme, host, STAGE);
    assert StripStage(STAGE) == [];
  }

  /** A bare path routes to the path the caller asked for: with the stage
      segment in front of it always, without it whenever it does not itself
      lie under the stage. "/products" stays "/products". */
  lemma BarePathRecovered(path: string)
    requires path != [] && path[0] == '/'
    ensures RoutePath(STAGE + path) == path
    ensures !UnderStage(path) ==> RoutePath(path) == path
  {
    StripStagedPath(path);
    SlashIsNotHttp(STAGE + path);
    SlashIsNotHttp(path);
  }

  /** The first "://" of a URI with an "http" or "https" scheme ends the
      scheme. */
  lemma SchemeSeparator(scheme: string, rest: string)
    requires scheme == "http" || scheme == "https"
    ensures FindSub(scheme + "://" + rest, "://") == Some(|scheme|)
    ensures (scheme + "://" + rest)[|scheme| + 3..] == rest
  {
    var uri := scheme + "://" + rest;
    var n := |scheme|;
    assert uri[n..n + 3] == "://";
    forall j | 0 <= j < n
      ensures !OccursAt(uri, "://", j)
    {
      assert uri[j] == scheme[j];
      assert scheme[j] != ':';
      if j + 3 <= |uri| {
        assert uri[j..j + 3][0] == uri[j];
      }
    }
    assert OccursAt(uri, "://", n);
    var r := FindSub(uri, "://");
    assert r.Some?;
    assert r.value == n;
  }

  /** The first '/' after a host without one starts the path. */
  lemma HostThenPath(host: string, tail: string)
    requires '/' !in host
    requires tail != [] && tail[0] == '/'
    ensures IndexOf(host + tail, '/') == Some(|host|)
    ensures (host + tail)[|host|..] == tail
  {
    var rest := host + tail;
    assert rest[|host|] == '/';
    assert rest[..|host|] == host;
  }

  /** A URI that begins with an "http" or "https" scheme starts with "http". */
  lemma HttpScheme(uri: string, scheme: string)
    requires scheme == "http" || scheme == "https"
    requires StartsWith(uri, scheme)
    ensures StartsWith(uri, "http")
  {
    assert uri[..4] == scheme[..4];
  }

  /** Text starting with '/' is no full URI. */
  lemma SlashIsNotHttp(s: string)
    requires s != [] && s[0] == '/'
    ensures !StartsWith(s, "http")
  {
    if |s| >= 4 {
      assert s[..4][0] == s[0];
    }
  }

  /** The path component of `scheme://rest` is the part of `rest` from the
      end of a host without '/'. */
  lemma PathAfterHost(scheme: string, rest: string, host: string, tail: string)
    requires scheme == "http" || scheme == "https"
    requires '/' !in host
    requires tail != [] && tail[0] == '/'
    requires rest == host + tail
    ensures PathComponent(scheme + "://" + rest) == tail
  {
    SchemeSeparator(scheme, rest);
    HostThenPath(host, tail);
  }

  lemma RecoverWithTail(scheme: string, host: string, tail: string)
    requires scheme == "http" || scheme == "https"
    requires '/' !in host
    requires tail != [] && tail[0] == '/'
    ensures PathComponent(scheme + "://" + host + tail) == tail
    ensures StartsWith(scheme + "://" + host + tail, "http")
  {
    var rest := host + tail;
    var uri := scheme + "://" + host + tail;
    assert uri == scheme + "://" + rest;
    PathAfterHost(scheme, rest, host, tail);
    assert uri[..|scheme|] == scheme;
    HttpScheme(uri, scheme);
  }

  /** The request the router sees: the mapped method and the routing path. */
  datatype RouterRequest = RouterRequest(verb: Method, path: string)

  function AdaptRequest(verb: string, uri: string): (r: RouterRequest)
    ensures r.path != []
  {
    RouterRequest(MapMethod(verb), RoutePath(uri))
  }

  /** Whether a response body is passed on as text: false only when a
      content type is present, readable, and starts with none of "text/",
      "application/json" and "application/javascript". */
  function IsTextContent(h: Headers): (b: bool)
    ensures !b <==>
              && HeaderGet(h, "content-type").Some?
              && ToStr(HeaderGet(h, "content-type").value).Some?
              && var t := ToStr(HeaderGet(h, "content-type").value).value;
                 !StartsWith(t, "text/") && !StartsWith(t, "application/json") && !StartsWith(t, "application/javascript")
  {
    match HeaderGet(h, "content-type")
    case None => true
    case Some(v) =>
      match ToStr(v)
      case None => true
      case Some(t) => StartsWith(t, "text/") || StartsWith(t, "application/json") || StartsWith(t, "application/javascript")
  }

  /** Only the first content type counts, under any spelling of its name:
      headers after it cannot turn a reply into binary or back, and an
      unreadable value counts as text. */
  lemma FirstContentTypeDecides(name: string, v: seq<byte>, rest: Headers)
    requires Lower(name) == "content-type"
    ensures IsTextContent([(name, v)] + rest) == IsTextContent([(name, v)])
    ensures ToStr(v).None? ==> IsTextContent([(name, v)] + rest)
  {
  }
}
