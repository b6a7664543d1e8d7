/** Template expansion: put the PayID's account in place of every
    `{acctpart}` of the terminal link's template (or href), raw when the
    placeholder is a whole path segment and URL-encoded otherwise, then copy
    the parsed result into a fresh URL builder whose scheme is https
    (`InteractiveModePayIDResolver.expandUrlTemplate` and `inQuery`). */
module Expansion {
  import opened Base
  import opened Text
  import opened Urls
  import opened Discovery

  /** `inQuery`: true unless `{acctpart}` is one whole path segment of the
      parsed template. The template is dereferenced, so a string `parse` finds
      no URL in stops the resolution. */
  function InQuery(env: Collaborators, urlTemplate: string): (r: Result<bool>)
    ensures env.parse(urlTemplate).None? <==> r == Err(NullPointer)
    ensures env.parse(urlTemplate).Some? ==>
      r.Ok? && (r.value <==> AcctPart !in env.parse(urlTemplate).value.pathSegments)
  {
    match env.parse(urlTemplate)
    case None => Err(NullPointer)
    case Some(t) => Ok(AcctPart !in t.pathSegments)
  }

  /** The account as put into a query: the encoder's output with every space
      replaced by `%20`, or the raw account when the encoder throws. */
  function QueryValue(env: Collaborators, account: string): (r: string)
    ensures env.encode(account).None? ==> r == account
    ensures env.encode(account).Some? ==> ' ' !in r
    ensures env.encode(account).Some? ==> r == Join(Split(env.encode(account).value, " "), "%20")
  {
    match env.encode(account)
    case Some(encoded) =>
      ReplaceRemovesChar(encoded, ' ', "%20");
      ReplaceIsJoinOfSplit(encoded, " ", "%20");
      Replace(encoded, " ", "%20")
    case None => account
  }

  /** The value that takes the place of `{acctpart}`. */
  function SubstitutionValue(env: Collaborators, inQuery: bool, account: string): string
  {
    if inQuery then QueryValue(env, account) else account
  }

  /** The URL the expander's builder produces from a parsed URL. */
  function Rebuilt(u: Url): Url
  {
    Url("https", "", "", u.host, DefaultPort("https"), PushAll([""], u.pathSegments),
        FirstOccurrences(u.query), u.fragment)
  }

  /** Parse `s` and rebuild it; a string `parse` finds no URL in is
      dereferenced and stops the resolution. */
  function ParseAndRebuild(env: Collaborators, s: string): Result<Url>
  {
    match env.parse(s)
    case None => Err(NullPointer)
    case Some(u) => Ok(Rebuilt(u))
  }

  /** The URL `expandUrlTemplate` returns for a template and a PayID. */
  function Expanded(env: Collaborators, urlTemplate: string, p: PayId): Result<Url>
  {
    match InQuery(env, urlTemplate)
    case Err(f) => Err(f)
    case Ok(inQuery) =>
      ParseAndRebuild(env, Replace(urlTemplate, AcctPart, SubstitutionValue(env, inQuery, p.account)))
  }

  /** `expandUrlTemplate`: substitute, parse, then rebuild. */
  method ExpandUrlTemplate(env: Collaborators, urlTemplate: string, p: PayId) returns (r: Result<Url>)
    ensures r == Expanded(env, urlTemplate, p)
  {
    var inQuery := InQuery(env, urlTemplate);
    if inQuery.Err? {
      return Err(inQuery.failure);
    }
    var accountToUse := if inQuery.value then QueryValue(env, p.account) else p.account;
    var expandedTemplate := Replace(urlTemplate, AcctPart, accountToUse);
    var parsed := env.parse(expandedTemplate);
    if parsed.None? {
      return Err(NullPointer);
    }
    var built := Rebuild(parsed.value);
    r := Ok(built);
  }

  /** The second half of `expandUrlTemplate`: fill a fresh builder with
      https, the host, the fragment, the first value of each query name and
      every path segment, in that order. */
  method Rebuild(parsedUrl: Url) returns (built: Url)
    ensures built == Rebuilt(parsedUrl)
  {
    var returnable := new UrlBuilder();
    returnable.SetScheme("https");
    returnable.SetHost(parsedUrl.host);
    returnable.SetFragment(parsedUrl.fragment);

    CopyQuery(returnable, parsedUrl.query);
    CopySegments(returnable, parsedUrl.pathSegments);
    built := returnable.Build();
  }

  /** `queryParameterNames().forEach(...)`: add each name once, with its
      first value, to a builder that has no query yet. */
  method CopyQuery(b: UrlBuilder, q: seq<QueryParam>)
    requires b.query == []
    modifies b`query
    ensures b.query == FirstOccurrences(q)
  {
    var names := DistinctNames(q);
    var i := 0;
    while i < |names|
      invariant 0 <= i <= |names|
      invariant b.query == FirstValuePairs(q, names[..i])
    {
      b.AddQueryParameter(names[i], FirstValue(q, names[i]));
      assert names[..i + 1][..i] == names[..i];
      i := i + 1;
    }
    assert names[..i] == names;
    CopyQueryKeepsFirstOccurrences(q);
  }

  /** `pathSegments().forEach(returnable::addPathSegment)`: push every
      segment, in order. */
  method CopySegments(b: UrlBuilder, segments: seq<string>)
    requires b.Valid()
    modifies b`pathSegments
    ensures b.Valid() && b.pathSegments == PushAll(old(b.pathSegments), segments)
  {
    ghost var start := b.pathSegments;
    var k := 0;
    while k < |segments|
      invariant 0 <= k <= |segments|
      invariant b.Valid() && b.pathSegments == PushAll(start, segments[..k])
    {
      b.AddPathSegment(segments[k]);
      assert segments[..k + 1][..k] == segments[..k];
      k := k + 1;
    }
    assert segments[..k] == segments;
  }

  /** The rebuilt URL is https on the default port, without credentials, with
      the parsed URL's host and fragment; its query is the parsed query with
      later repeats of a name dropped, and its path keeps the non-empty
      segments in order, ending in '/' when the parsed path did. */
  lemma RebuiltUrl(u: Url)
    ensures Rebuilt(u).scheme == "https" && Rebuilt(u).port == 443
    ensures Rebuilt(u).username == "" && Rebuilt(u).password == ""
    ensures Rebuilt(u).host == u.host && Rebuilt(u).fragment == u.fragment
    ensures Rebuilt(u).query == FirstOccurrences(u.query)
    ensures NoDotSegments(u.pathSegments) ==>
      Rebuilt(u).pathSegments == NonEmptySegments(u.pathSegments) + TrailingSlash(u.pathSegments)
  {
    if NoDotSegments(u.pathSegments) {
      CopySegmentsClosedForm(u.pathSegments);
    }
  }

  /** True of a URL that rebuilding does not change: https on the default
      port, no credentials, a path without repeated '/' or dot segments, and
      no query name twice. */
  predicate CanonicalHttps(u: Url)
  {
    u.scheme == "https" && u.port == 443 && u.username == "" && u.password == ""
    && u.pathSegments != [] && NoDotSegments(u.pathSegments) && OnlyLastMayBeEmpty(u.pathSegments)
    && DistinctQueryNames(u.query)
  }

  lemma RebuildCanonical(u: Url)
    requires CanonicalHttps(u)
    ensures Rebuilt(u) == u
  {
    CopyCanonicalSegments(u.pathSegments);
    CopyDistinctQuery(u.query);
  }

  /** A placeholder that is a whole path segment gets the raw account at every
      occurrence; the text between occurrences is kept. */
  lemma PathPlaceholderTakesRawAccount(env: Collaborators, urlTemplate: string, p: PayId)
    requires env.parse(urlTemplate).Some?
    requires AcctPart in env.parse(urlTemplate).value.pathSegments
    ensures Expanded(env, urlTemplate, p)
         == ParseAndRebuild(env, Join(Split(urlTemplate, AcctPart), p.account))
  {
    ReplaceIsJoinOfSplit(urlTemplate, AcctPart, p.account);
  }

  /** Anywhere else (in the query, or nowhere at all) every occurrence gets
      the query form of the account. */
  lemma OtherPlaceholderTakesQueryValue(env: Collaborators, urlTemplate: string, p: PayId)
    requires env.parse(urlTemplate).Some?
    requires AcctPart !in env.parse(urlTemplate).value.pathSegments
    ensures Expanded(env, urlTemplate, p)
         == ParseAndRebuild(env, Join(Split(urlTemplate, AcctPart), QueryValue(env, p.account)))
  {
    ReplaceIsJoinOfSplit(urlTemplate, AcctPart, QueryValue(env, p.account));
  }

  /** `replaceAll(" ", "%20")` changes nothing on an encoding without spaces
      (`URLEncoder` writes a space as '+'). */
  lemma QueryValueIsEncoderOutput(env: Collaborators, account: string)
    ensures env.encode(account).Some? && ' ' !in env.encode(account).value ==>
      QueryValue(env, account) == env.encode(account).value
  {
    if env.encode(account).Some? && ' ' !in env.encode(account).value {
      ReplaceAbsentChar(env.encode(account).value, ' ', "%20");
    }
  }

  /** A URL without the placeholder is taken as it is, then rebuilt. */
  lemma LiteralUrlIsOnlyRebuilt(env: Collaborators, href: string, p: PayId)
    requires !Occurs(href, AcctPart) && env.parse(href).Some?
    ensures Expanded(env, href, p) == Ok(Rebuilt(env.parse(href).value))
  {
    var value := SubstitutionValue(env, AcctPart !in env.parse(href).value.pathSegments, p.account);
    ReplaceWithoutTarget(href, AcctPart, value);
  }

  /** A literal https href in canonical form comes back exactly as parsed. */
  lemma CanonicalHrefRoundTrip(env: Collaborators, href: string, p: PayId)
    requires !Occurs(href, AcctPart) && env.parse(href).Some?
    requires CanonicalHttps(env.parse(href).value)
    ensures Expanded(env, href, p) == Ok(env.parse(href).value)
  {
    LiteralUrlIsOnlyRebuilt(env, href, p);
    RebuildCanonical(env.parse(href).value);
  }
}
