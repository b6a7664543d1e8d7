/** One WebFinger round trip of the PayID discovery protocol: build the
    request, turn the HTTP outcome into a JRD string or a typed failure, decode
    it, and select the one link the resolver goes on with
    (`InteractiveModePayIDResolver.getWebFingerPayIDLink` and
    `executeForJrdString`). */
module Discovery {
  import opened Base
  import opened Text
  import opened Urls

  /** Relation of a link that delegates discovery to another WebFinger server. */
  const DiscoveryRel: string := "http://payid.org/rel/discovery/1.0"
  /** Relation of the link that leads to the PayID server itself. */
  const PayIdRel: string := "http://payid.org/rel/payid/1.0"
  /** The segments of the well-known path `.well-known/webfinger`. */
  const WebFingerSegments: seq<string> := [".well-known", "webfinger"]
  /** Discovery gives up once this many WebFinger documents were fetched. */
  const DiscoveryRetries: nat := 5
  /** The placeholder a PayID URL template holds for the account. */
  const AcctPart: string := "{acctpart}"

  const RequestFailedMessage: string := "Failed to execute WebFinger request."
  const NoJrdMessage: string := "WebFinger server didn't return a JRD."
  const ErrorCodePrefix: string := "WebFinger server returned Error code "
  const UndecodableMessage: string := "Unable to deserialize WebFinger JRD!"
  const NoAcceptableRelMessage: string := "No acceptable link rel found."

  /** A PayID `account$host`, already split by its parser. */
  datatype PayId = PayId(account: string, host: string)
  {
    /** The form sent as the `resource` of the first WebFinger query. */
    function ToString(): string
    {
      account + "$" + host
    }
  }

  /** A link of a WebFinger JRD. */
  datatype Link = Link(rel: string, href: Option<string>, template: Option<string>)

  /** The kinds of `PayIDDiscoveryException`. */
  datatype ErrorKind = RequestFailed | ErrorResponse | InvalidResponse | Unknown

  /** Why a resolution stopped: a `PayIDDiscoveryException` of some kind, or the
      NullPointerException the resolver runs into when `HttpUrl.parse` finds
      no URL in a string it goes on to use. */
  datatype Failure =
    | DiscoveryFailure(kind: ErrorKind, message: string)
    | NullPointer

  datatype Result<+T> = Ok(value: T) | Err(failure: Failure)

  datatype Request = Request(verb: string, url: Url, headers: seq<(string, string)>)

  /** The body of an HTTP response: absent, failing while it is read, or read. */
  datatype Body = NoBody | Unreadable | Content(text: string)

  /** What the HTTP client reports: an I/O failure, or a status and a body. */
  datatype Exchange = IoFailure | Response(code: int, body: Body)

  /** The resolver's collaborators, whose internals are not modelled:
      - `execute`: the HTTP client running one request;
      - `readJrd`: the JSON mapper reading a JRD (None: it threw);
      - `parse`: `HttpUrl.parse` (None: it returned null);
      - `encode`: `URLEncoder.encode(_, "UTF-8")` (None: it threw). */
  datatype Collaborators = Collaborators(
    execute: Request -> Exchange,
    readJrd: string -> Option<seq<Link>>,
    parse: string -> Option<Url>,
    encode: string -> Option<string>)

  /** The GET request sent to a WebFinger endpoint. */
  function WebFingerRequest(url: Url): (r: Request)
    ensures r.verb == "GET" && r.url == url
    ensures ("Content-Type", "application/json") in r.headers && ("Accept", "application/json") in r.headers
    ensures |r.headers| == 2
  {
    Request("GET", url, [("Content-Type", "application/json"), ("Accept", "application/json")])
  }

  /** The message of an error response: the prefix, then the status code. */
  function ErrorCodeMessage(code: int): string
  {
    ErrorCodePrefix + Decimal(code)
  }

  /** The body of a successful WebFinger response, or the failure the HTTP
      outcome maps to. */
  function ExecuteForJrdString(env: Collaborators, url: Url): (r: Result<string>)
    ensures var x := env.execute(WebFingerRequest(url));
      && (r.Ok? <==> x.Response? && x.code == 200 && x.body.Content?)
      && (r.Ok? ==> r.value == x.body.text)
      && (x.IoFailure? ==> r == Err(DiscoveryFailure(RequestFailed, RequestFailedMessage)))
      && (x.Response? && x.code == 200 && x.body.NoBody? ==>
            r == Err(DiscoveryFailure(InvalidResponse, NoJrdMessage)))
      && (x.Response? && x.code == 200 && x.body.Unreadable? ==>
            r == Err(DiscoveryFailure(RequestFailed, RequestFailedMessage)))
      && (x.Response? && x.code != 200 ==>
            r.Err? && r.failure.DiscoveryFailure? && r.failure.kind == ErrorResponse
            && |ErrorCodePrefix| <= |r.failure.message|
            && r.failure.message[..|ErrorCodePrefix|] == ErrorCodePrefix
            && ParseInt(r.failure.message[|ErrorCodePrefix|..]) == x.code)
  {
    match env.execute(WebFingerRequest(url))
    case IoFailure => Err(DiscoveryFailure(RequestFailed, RequestFailedMessage))
    case Response(code, body) =>
      if code == 200 then
        match body
        case NoBody => Err(DiscoveryFailure(InvalidResponse, NoJrdMessage))
        case Unreadable => Err(DiscoveryFailure(RequestFailed, RequestFailedMessage))
        case Content(text) => Ok(text)
      else
        DecimalRoundTrip(code);
        assert ErrorCodeMessage(code)[|ErrorCodePrefix|..] == Decimal(code);
        Err(DiscoveryFailure(ErrorResponse, ErrorCodeMessage(code)))
  }

  /** True when `links[i]` is the first link with relation `rel`. */
  ghost predicate FirstWithRel(links: seq<Link>, rel: string, i: int)
  {
    0 <= i < |links| && links[i].rel == rel
    && forall j :: 0 <= j < i ==> links[j].rel != rel
  }

  /** The index of the first link with relation `rel`, if any. */
  function FirstIndexWithRel(links: seq<Link>, rel: string): (r: Option<nat>)
    ensures r.Some? ==> FirstWithRel(links, rel, r.value)
    ensures r.None? ==> forall j :: 0 <= j < |links| ==> links[j].rel != rel
    decreases |links|
  {
    if links == [] then None
    else if links[0].rel == rel then Some(0)
    else
      match FirstIndexWithRel(links[1..], rel)
      case None => None
      case Some(i) => Some(i + 1)
  }

  /** Link selection: the first payid link, else the first discovery link,
      else an invalid response. */
  function SelectLink(links: seq<Link>): (r: Result<Link>)
    ensures r.Ok? ==> r.value.rel == PayIdRel || r.value.rel == DiscoveryRel
    ensures r.Ok? ==> exists i :: FirstWithRel(links, r.value.rel, i) && links[i] == r.value
    ensures r.Ok? && r.value.rel == DiscoveryRel ==>
      forall j :: 0 <= j < |links| ==> links[j].rel != PayIdRel
    ensures r.Err? <==>
      forall j :: 0 <= j < |links| ==> links[j].rel != PayIdRel && links[j].rel != DiscoveryRel
    ensures r.Err? ==> r == Err(DiscoveryFailure(InvalidResponse, NoAcceptableRelMessage))
  {
    match FirstIndexWithRel(links, PayIdRel)
    case Some(i) => Ok(links[i])
    case None =>
      match FirstIndexWithRel(links, DiscoveryRel)
      case Some(i) => Ok(links[i])
      case None => Err(DiscoveryFailure(InvalidResponse, NoAcceptableRelMessage))
  }

  /** One WebFinger query at `url`: fetch, decode, select. */
  function GetLinkFromUrl(env: Collaborators, url: Url): (r: Result<Link>)
    ensures ExecuteForJrdString(env, url).Err? ==> r == Err(ExecuteForJrdString(env, url).failure)
    ensures ExecuteForJrdString(env, url).Ok? ==>
      match env.readJrd(ExecuteForJrdString(env, url).value)
      case None => r == Err(DiscoveryFailure(InvalidResponse, UndecodableMessage))
      case Some(links) => r == SelectLink(links)
    ensures r.Ok? ==> r.value.rel == PayIdRel || r.value.rel == DiscoveryRel
  {
    match ExecuteForJrdString(env, url)
    case Err(f) => Err(f)
    case Ok(jrd) =>
      match env.readJrd(jrd)
      case None => Err(DiscoveryFailure(InvalidResponse, UndecodableMessage))
      case Some(links) => SelectLink(links)
  }

  /** The first discovery URL, `https://{host}/.well-known/webfinger?resource={payID}`. */
  function WebFingerUrl(p: PayId): (u: Url)
    ensures u.scheme == "https" && u.host == p.host && u.port == 443
    ensures u.username == "" && u.password == ""
    ensures u.pathSegments == [".well-known", "webfinger"]
    ensures u.query == [QueryParam("resource", Some(p.account + "$" + p.host))]
    ensures u.fragment == None
  {
    CopyCanonicalSegments(WebFingerSegments);
    Url("https", "", "", p.host, DefaultPort("https"), PushAll([""], WebFingerSegments),
        [QueryParam("resource", Some(p.ToString()))], None)
  }
}
