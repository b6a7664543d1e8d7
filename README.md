# PayID discovery resolver, modelled in Dafny

This project models the automated-mode PayID resolver of the xpring4j SDK
(`InteractiveModePayIDResolver`). The resolver turns a PayID `account$host` into
the HTTPS URL of its PayID server in three steps:

1. It sends a WebFinger query to `https://{host}/.well-known/webfinger?resource={account}${host}`.
   It maps the HTTP outcome onto the four `PayIDDiscoveryException` kinds,
   decodes the JRD and selects one link: the first with the payid relation,
   otherwise the first with the discovery relation.
2. While the selected link has the discovery relation, it follows that link's
   `href`. At most five WebFinger documents are fetched in all.
3. It expands the terminal link's `template` (or, without one, its `href`).
   Every `{acctpart}` becomes the account: raw when the placeholder is a whole
   path segment, URL-encoded otherwise. The parsed result is copied into a fresh
   URL builder with scheme `https`.

Files and modules:

- `base.dfy` (`Base`): `Option`, standing for a Java reference that may be null.
- `text.dfy` (`Text`): Java's `String.replace`, with a split/join view of it;
  the decimal form of an `int`.
- `urls.dfy` (`Urls`): okhttp3's `HttpUrl` by its decoded components, and its
  `Builder` as the class `UrlBuilder`. The class keeps the builder's path-segment
  and query-parameter behaviour.
- `discovery.dfy` (`Discovery`): constants, the data of a JRD, the failure
  taxonomy, one WebFinger round trip (`ExecuteForJrdString`, `GetLinkFromUrl`)
  and link selection (`SelectLink`).
- `expansion.dfy` (`Expansion`): `InQuery`, the substitution value and the
  method `ExpandUrlTemplate`, specified by the function `Expanded`. Its second
  half, the method `Rebuild`, drives a `UrlBuilder` and is specified by the
  function `Rebuilt`. Its two `forEach` loops are the methods `CopyQuery` and
  `CopySegments`.
- `resolver.dfy` (`Resolver`): the delegation loop `ResolvePayIdUrl`. Two
  descriptions specify it. The recursive function `Resolved` follows
  discovery links one at a time. The predicate `Resolution` states declaratively
  which documents are fetched, in which order, and how discovery ends. A lemma
  proves that the two agree, and the other lemmas derive the hop bounds from
  `Resolution`.

The collaborators whose internals lie outside the core are a `Collaborators`
value passed to every operation. They are:

- `execute`: the HTTP client running one request. It yields an I/O failure, or
  a status code and a body that is absent, unreadable or read.
- `readJrd`: the JSON mapper. It yields the links, or nothing when it throws.
- `parse`: `HttpUrl.parse`. It yields nothing where Java returns null.
- `encode`: `URLEncoder.encode(_, "UTF-8")`. It yields nothing where Java throws.

`HttpUrl.parse` returns null for a string it cannot read. In `expandUrlTemplate`
and `inQuery` the source then calls a method on that null. In the delegation
loop the null URL goes to `getWebFingerPayIDLink`, where okhttp's
`Request.Builder.url` rejects it. Either way the resolution ends with a
`NullPointerException`. The model shows this as the failure `NullPointer`, so
no operation needs a precondition on the collaborators.

Where the protocol's prose description and the code differ, the model follows
the code:

- A discovery link without `href` fails with kind `UNKNOWN`, not with an invalid
  response (`InteractiveModePayIDResolver.java:99-101`).
- `URLEncoder` writes a space as `+`. The `replaceAll(" ", "%20")` that follows
  it therefore changes nothing: the account substituted into a query position
  carries `+` for a space, never `%20` (`Expansion.QueryValueIsEncoderOutput`).
  How `HttpUrl.parse` and the builder then decode and re-encode that `+` is
  not modelled.
- The retry counter starts at 1 and is checked before each follow-up fetch. So
  "five retries" means at most five documents in all: the first query and at
  most four delegations.
- The rebuilt URL keeps the host, the fragment, the non-empty path segments in
  order, a trailing '/' when the parsed path ended in one, and the first value of each query name. An empty
  segment inside the path is dropped: `https://h/a//b` comes back with the path
  `/a/b`. The URL has the default https port 443 and no credentials, because
  the builder is given neither.

## Model

| member | source | states |
|---|---|---|
| `Discovery.ExecuteForJrdString` | src/main/java/io/xpring/payid/InteractiveModePayIDResolver.java:216-244 | 200 with a readable body yields that body, and nothing else succeeds. An I/O failure (or a body that fails while read) is REQUEST_FAILED. A 200 without body is INVALID_RESPONSE. Any other status is ERROR_RESPONSE, and the status code can be read back from the message. |
| `Discovery.WebFingerRequest` | src/main/java/io/xpring/payid/InteractiveModePayIDResolver.java:217-222 | the request is a GET of the given URL whose headers are exactly `Content-Type` and `Accept`, both `application/json` |
| `Text.DecimalRoundTrip` | src/main/java/io/xpring/payid/InteractiveModePayIDResolver.java:237 | the decimal form of the status code in the error message reads back to the same code |
| `Discovery.FirstIndexWithRel` | src/main/java/io/xpring/payid/InteractiveModePayIDResolver.java:189-191 | finds the first link with the given relation, or reports that none has it |
| `Discovery.SelectLink` | src/main/java/io/xpring/payid/InteractiveModePayIDResolver.java:189-198 | a selected link has the payid or the discovery relation and is the first link of its relation. A discovery link is selected only when no payid link exists. Selection fails exactly when neither relation occurs, and then with INVALID_RESPONSE "No acceptable link rel found." |
| `Discovery.GetLinkFromUrl` | src/main/java/io/xpring/payid/InteractiveModePayIDResolver.java:184-203 | a transport failure propagates unchanged. A body the mapper cannot read is INVALID_RESPONSE. Otherwise the result is the link selection, so any link returned has one of the two relations. |
| `Discovery.WebFingerUrl` | src/main/java/io/xpring/payid/InteractiveModePayIDResolver.java:166-174 | the first query goes to https on the PayID's host, path `.well-known/webfinger`, with the single query parameter `resource=account$host` |
| `Resolver.ResolvePayIdUrl` | src/main/java/io/xpring/payid/InteractiveModePayIDResolver.java:85-115 | the outcome is `Resolved`, the recursive description of following discovery links. The run also satisfies `Resolution`: it fetches one to five documents, starting with the PayID's WebFinger URL, and each delegates to the next. The run ends on a failure, on a non-discovery link (then expanded), at the limit (UNKNOWN), on a missing href (UNKNOWN), or on an href that does not parse. |
| `Resolver.Follow` | src/main/java/io/xpring/payid/InteractiveModePayIDResolver.java:91-114 | the recursive reading of the loop: once the last document's link is a payid or discovery link, any successful outcome is the expansion of a payid link that is either that link or the selection of some fetched document |
| `Resolver.Resolved` | src/main/java/io/xpring/payid/InteractiveModePayIDResolver.java:85-115 | resolution from the PayID's WebFinger URL; a successful outcome is the expansion of a payid link that some fetched document selected |
| `Resolver.FollowDelegation` | src/main/java/io/xpring/payid/InteractiveModePayIDResolver.java:99-104 | proof step: one unfolding of `Follow`, the case where the loop fetches once more |
| `Resolver.StopsAgreesWithFollow` | src/main/java/io/xpring/payid/InteractiveModePayIDResolver.java:91-114 | proof step: where `Stops` says discovery ends, `Follow` gives the same outcome |
| `Resolver.Concludes` | src/main/java/io/xpring/payid/InteractiveModePayIDResolver.java:91-114 | proof step used at each exit of `ResolvePayIdUrl`: a delegation chain whose last document stops discovery is a resolution, with the outcome `Follow` gives from that document |
| `Resolver.FollowFromFetched` | src/main/java/io/xpring/payid/InteractiveModePayIDResolver.java:91-114 | proof step: from any document a resolution fetched, the recursive description reaches that resolution's outcome |
| `Resolver.ResolutionIsResolved` | src/main/java/io/xpring/payid/InteractiveModePayIDResolver.java:85-115 | every outcome the declarative description admits is the one the recursive description computes |
| `Resolver.ChainGrows` | src/main/java/io/xpring/payid/InteractiveModePayIDResolver.java:99-102 | proof step: a delegation chain extended by the document its last one delegates to is still a delegation chain |
| `Resolver.ResolutionIsUnique` | src/main/java/io/xpring/payid/InteractiveModePayIDResolver.java:88-105 | the documents fetched and the outcome are determined by the collaborators and the PayID alone |
| `Resolver.LastDoesNotDelegate` | src/main/java/io/xpring/payid/InteractiveModePayIDResolver.java:91-105 | the loop leaves before the limit only when the last document does not delegate further |
| `Resolver.ChainEndingInPayIdLink` | src/main/java/io/xpring/payid/InteractiveModePayIDResolver.java:88-105 | k ≤ 4 delegating documents followed by one giving a payid link: exactly k+1 fetches, and that payid link is expanded |
| `Resolver.FifthDiscoveryLinkFails` | src/main/java/io/xpring/payid/InteractiveModePayIDResolver.java:91-97 | if the fifth document in a row still gives a discovery link, resolution fails with UNKNOWN after exactly five fetches |
| `Resolver.MissingHrefStopsDiscovery` | src/main/java/io/xpring/payid/InteractiveModePayIDResolver.java:99-101 | a discovery link without href before the limit fails with UNKNOWN, and nothing more is fetched |
| `Resolver.ResolvedFromPayIdLink` | src/main/java/io/xpring/payid/InteractiveModePayIDResolver.java:91-114 | every resolved URL comes from expanding a link with the payid relation, the one the last fetched document selected |
| `Resolver.FirstErrorResponse` | src/main/java/io/xpring/payid/InteractiveModePayIDResolver.java:232-238 | a non-200 answer to the first query ends resolution after that one fetch with ERROR_RESPONSE and the code in the message |
| `Resolver.TerminalTemplate` | src/main/java/io/xpring/payid/InteractiveModePayIDResolver.java:109-113 | the template wins over the href. If both are absent, the result is INVALID_RESPONSE "no href or template found." and nothing is expanded. |
| `Expansion.InQuery` | src/main/java/io/xpring/payid/InteractiveModePayIDResolver.java:153-157 | true exactly when `{acctpart}` is not one whole path segment of the parsed template; a template that does not parse is a null dereference |
| `Expansion.ExpandUrlTemplate` | src/main/java/io/xpring/payid/InteractiveModePayIDResolver.java:125-152 | the result is exactly `Expanded`: the template with every `{acctpart}` substituted, parsed and rebuilt; a template or expansion that does not parse is a null dereference |
| `Expansion.Rebuild` | src/main/java/io/xpring/payid/InteractiveModePayIDResolver.java:142-151 | the builder calls produce exactly `Rebuilt` of the parsed URL, whose content `RebuiltUrl` states |
| `Expansion.CopyQuery` | src/main/java/io/xpring/payid/InteractiveModePayIDResolver.java:147-148 | adding `queryParameter(n)` for each name of `queryParameterNames()` to a builder without a query leaves it holding the first pair of each name, in first-appearance order |
| `Expansion.CopySegments` | src/main/java/io/xpring/payid/InteractiveModePayIDResolver.java:150 | adding every path segment in order leaves the builder's path as those segments pushed one after the other |
| `Expansion.PathPlaceholderTakesRawAccount` | src/main/java/io/xpring/payid/InteractiveModePayIDResolver.java:136-141 | when `{acctpart}` is a whole path segment, every occurrence becomes the raw account and the text between occurrences is kept |
| `Expansion.OtherPlaceholderTakesQueryValue` | src/main/java/io/xpring/payid/InteractiveModePayIDResolver.java:129-141 | otherwise (in the query, or nowhere), every occurrence becomes the query form of the account |
| `Expansion.QueryValue` | src/main/java/io/xpring/payid/InteractiveModePayIDResolver.java:129-135 | when the encoder succeeds, the query form is its output split at every space and joined with `%20`, so no space is left; when the encoder throws, it is the raw account |
| `Expansion.QueryValueIsEncoderOutput` | src/main/java/io/xpring/payid/InteractiveModePayIDResolver.java:130-132 | the query form is the encoder's output unchanged whenever that has no space, as `URLEncoder` output never has |
| `Expansion.RebuiltUrl` | src/main/java/io/xpring/payid/InteractiveModePayIDResolver.java:141-151 | the expanded URL is https on port 443 without credentials. It keeps the parsed host and fragment, the first pair of each query name in order, and the non-empty path segments in order, with a trailing '/' kept. |
| `Expansion.RebuildCanonical` | src/main/java/io/xpring/payid/InteractiveModePayIDResolver.java:141-151 | a canonical https URL (port 443, no credentials, no repeated '/', no repeated query name) is rebuilt unchanged |
| `Expansion.LiteralUrlIsOnlyRebuilt` | src/main/java/io/xpring/payid/InteractiveModePayIDResolver.java:140-141 | an href without the placeholder is parsed as it is, with no substitution |
| `Expansion.CanonicalHrefRoundTrip` | src/main/java/io/xpring/payid/InteractiveModePayIDResolver.java:125-152 | a canonical https href without the placeholder expands to exactly the URL it parses to |
| `Text.Replace` | src/main/java/io/xpring/payid/InteractiveModePayIDResolver.java:140 | `String.replace`: replacing the target by itself changes nothing, a replacement of the target's length keeps the length, and with an empty target the result is longer than the input by one replacement per character plus one |
| `Text.ReplaceIsJoinOfSplit` | src/main/java/io/xpring/payid/InteractiveModePayIDResolver.java:140 | `replace` is split-at-occurrences then join-with-replacement: every occurrence gets the same value |
| `Text.JoinSplit` | src/main/java/io/xpring/payid/InteractiveModePayIDResolver.java:140 | splitting at the placeholder loses nothing: joining with the placeholder gives back the template |
| `Text.SplitPiecesHoldNoTarget` | src/main/java/io/xpring/payid/InteractiveModePayIDResolver.java:140 | no text between the replaced occurrences still holds the placeholder, so every occurrence was replaced |
| `Text.ReplaceWithoutTarget` | src/main/java/io/xpring/payid/InteractiveModePayIDResolver.java:140 | a template without the placeholder is left unchanged |
| `Text.ReplaceAbsentChar` | src/main/java/io/xpring/payid/InteractiveModePayIDResolver.java:132 | `replaceAll(" ", "%20")` leaves a string without spaces unchanged |
| `Urls.CopySegmentsClosedForm` | src/main/java/io/xpring/payid/InteractiveModePayIDResolver.java:150 | adding the parsed path segments to a fresh builder yields the non-empty segments in order, plus a trailing empty one exactly when the path ended in '/' |
| `Urls.CopyCanonicalSegments` | src/main/java/io/xpring/payid/InteractiveModePayIDResolver.java:150 | a path without repeated '/' and without dot segments is copied unchanged |
| `Urls.DistinctNames` | src/main/java/io/xpring/payid/InteractiveModePayIDResolver.java:147 | `queryParameterNames()`: no name occurs twice (with `DistinctNamesAreNames`: exactly the names of the query) |
| `Urls.FirstValue` | src/main/java/io/xpring/payid/InteractiveModePayIDResolver.java:148 | `queryParameter(n)`: the value of the first pair named `n`, or none when no pair has that name |
| `Urls.CopyQueryKeepsFirstOccurrences` | src/main/java/io/xpring/payid/InteractiveModePayIDResolver.java:147-149 | adding `queryParameter(n)` for each `n` of `queryParameterNames()` yields the first pair of each name, in first-appearance order |
| `Urls.CopyDistinctQuery` | src/main/java/io/xpring/payid/InteractiveModePayIDResolver.java:147-149 | a query with no repeated name is copied unchanged |
| `Urls.UrlBuilder.constructor` | src/main/java/io/xpring/payid/InteractiveModePayIDResolver.java:142 | a fresh builder has path "/" (one empty segment), no query, no scheme or host |
| `Urls.UrlBuilder.SetScheme` | src/main/java/io/xpring/payid/InteractiveModePayIDResolver.java:143 | sets the scheme, accepting only `http` and `https`; no other field changes |
| `Urls.UrlBuilder.SetHost` | src/main/java/io/xpring/payid/InteractiveModePayIDResolver.java:144 | sets the host; no other field changes |
| `Urls.UrlBuilder.SetFragment` | src/main/java/io/xpring/payid/InteractiveModePayIDResolver.java:145 | sets the fragment, possibly to none; no other field changes |
| `Urls.UrlBuilder.AddQueryParameter` | src/main/java/io/xpring/payid/InteractiveModePayIDResolver.java:148 | appends one name/value pair |
| `Urls.UrlBuilder.AddPathSegment` | src/main/java/io/xpring/payid/InteractiveModePayIDResolver.java:150 | the segment list becomes `PushSegment` of the old one: "." skipped, ".." pops, an empty last segment replaced |
| `Urls.UrlBuilder.Build` | src/main/java/io/xpring/payid/InteractiveModePayIDResolver.java:151 | the built URL carries the builder's fields, the scheme's default port and empty credentials |

## Left out

- OkHttp client construction (`newOkHttpClient`: TLS connection specs, cookie jar) and the resolver's constructors, which only store their collaborators. The `Collaborators` value takes their place.
- The HTTP exchange itself (`newCall(...).execute()`) and closing the response. It is the `execute` collaborator.
- Jackson's `readValue`. It is the `readJrd` collaborator; a JRD whose links or relations are null is not modelled.
- The internals of `HttpUrl.parse`, `URLEncoder.encode` and the builder's percent-encoding. URLs are described by their decoded components. So how the `+` of an encoded account is decoded by `parse` and re-encoded by `addQueryParameter` in the final URL is not modelled.
- The builder's host handling in `Builder.host`: it lowercases the host, converts an internationalised host to ASCII, and throws `IllegalArgumentException` for an invalid host. `Discovery.WebFingerUrl` and `Expansion.Rebuilt` keep the host as given.
- `execute` is a function of the request. It answers the same URL with the same outcome every time, so a delegation chain that comes back to a URL it already fetched gets the same document again. Servers whose answers change between requests are not modelled, and `Resolver.ResolutionIsUnique` depends on this.
- Logging calls, which have no behavioural content.
- `PayID.java` is not part of this model. A PayID is its two parts, and its string form is taken as `account$host`.
- `RawTransactionStatus.java` is not part of this model: it only projects fields out of protocol messages.
- Expansion.RebuiltUrl: the closed form of the copied path is stated only for paths without "." or ".." segments. `HttpUrl.parse` never yields such segments. For other paths the result is still exactly `PushAll`, the builder's own rule.
