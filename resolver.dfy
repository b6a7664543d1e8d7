/** The bounded delegation loop of `InteractiveModePayIDResolver.resolvePayIDUrl`:
    query the PayID's host, follow discovery links while they come, at most
    `DiscoveryRetries` documents in all, then expand the terminal link. */
module Resolver {
  import opened Base
  import opened Urls
  import opened Discovery
  import opened Expansion

  const MaxRetriesMessage: string :=
    "Reached maximum number of WebFinger retries. Continuing will likely result in an infinite loop."
  const MissingHrefMessage: string :=
    "PayID Discovery delegation was improperly configured. Discovery URL missing href."
  const NoHrefOrTemplateMessage: string := "no href or template found."

  /** The string a terminal link is expanded from: its template, else its href. */
  function TerminalTemplate(l: Link): (r: Result<string>)
    ensures r.Ok? <==> l.template.Some? || l.href.Some?
    ensures l.template.Some? ==> r == Ok(l.template.value)
    ensures l.template.None? && l.href.Some? ==> r == Ok(l.href.value)
    ensures r.Err? ==> r == Err(DiscoveryFailure(InvalidResponse, NoHrefOrTemplateMessage))
  {
    match l.template
    case Some(t) => Ok(t)
    case None =>
      match l.href
      case Some(h) => Ok(h)
      case None => Err(DiscoveryFailure(InvalidResponse, NoHrefOrTemplateMessage))
  }

  /** The outcome once the loop has left with the terminal link `l`. */
  function Finish(env: Collaborators, l: Link, p: PayId): Result<Url>
  {
    match TerminalTemplate(l)
    case Err(f) => Err(f)
    case Ok(t) => Expanded(env, t, p)
  }

  /** The WebFinger document at `u` delegates to the one at `v`. */
  ghost predicate Delegates(env: Collaborators, u: Url, v: Url)
  {
    var link := GetLinkFromUrl(env, u);
    link.Ok? && link.value.rel == DiscoveryRel && link.value.href.Some?
    && env.parse(link.value.href.value) == Some(v)
  }

  /** Discovery stops after `fetches` documents, the last one giving `link`,
      with outcome `r`; false when it would fetch once more instead. */
  ghost predicate Stops(env: Collaborators, p: PayId, link: Result<Link>, fetches: nat, r: Result<Url>)
  {
    match link
    case Err(f) => r == Err(f)
    case Ok(l) =>
      if l.rel != DiscoveryRel then r == Finish(env, l, p)
      else if fetches >= DiscoveryRetries then r == Err(DiscoveryFailure(Unknown, MaxRetriesMessage))
      else if l.href.None? then r == Err(DiscoveryFailure(Unknown, MissingHrefMessage))
      else if env.parse(l.href.value).None? then r == Err(NullPointer)
      else false
  }

  /** True when `chain` starts at the PayID's WebFinger URL and each of its
      documents delegates to the next. */
  ghost predicate DelegationChain(env: Collaborators, p: PayId, chain: seq<Url>)
  {
    |chain| >= 1 && chain[0] == WebFingerUrl(p)
    && forall i :: 0 <= i < |chain| - 1 ==> Delegates(env, chain[i], chain[i + 1])
  }

  /** Resolving `p` fetches the documents at `fetched`, in order, and ends
      with `r`: the first is the PayID's WebFinger URL, each one delegates to
      the next, there are at most `DiscoveryRetries` of them, and the last one
      stops discovery. */
  ghost predicate Resolution(env: Collaborators, p: PayId, r: Result<Url>, fetched: seq<Url>)
  {
    DelegationChain(env, p, fetched) && |fetched| <= DiscoveryRetries
    && Stops(env, p, GetLinkFromUrl(env, fetched[|fetched| - 1]), |fetched|, r)
  }

  /** A chain grows by one document its last one delegates to. */
  lemma ChainGrows(env: Collaborators, p: PayId, chain: seq<Url>, v: Url)
    requires DelegationChain(env, p, chain) && Delegates(env, chain[|chain| - 1], v)
    ensures DelegationChain(env, p, chain + [v])
  {
    var longer := chain + [v];
    forall i | 0 <= i < |longer| - 1
      ensures Delegates(env, longer[i], longer[i + 1])
    {
      if i < |chain| - 1 {
        assert longer[i] == chain[i] && longer[i + 1] == chain[i + 1];
      }
    }
  }

  /** The outcome of discovery once `fetches` documents were fetched and the
      last one gave `link`: stop, or follow the discovery link one more
      time. */
  function Follow(env: Collaborators, p: PayId, link: Result<Link>, fetches: nat): (r: Result<Url>)
    ensures (link.Ok? ==> link.value.rel == PayIdRel || link.value.rel == DiscoveryRel) && r.Ok? ==>
      exists l: Link :: l.rel == PayIdRel && r == Finish(env, l, p)
        && (link == Ok(l) || exists u: Url :: GetLinkFromUrl(env, u) == Ok(l))
    decreases DiscoveryRetries - fetches
  {
    match link
    case Err(f) => Err(f)
    case Ok(l) =>
      if l.rel != DiscoveryRel then Finish(env, l, p)
      else if fetches >= DiscoveryRetries then Err(DiscoveryFailure(Unknown, MaxRetriesMessage))
      else if l.href.None? then Err(DiscoveryFailure(Unknown, MissingHrefMessage))
      else match env.parse(l.href.value)
        case None => Err(NullPointer)
        case Some(v) => Follow(env, p, GetLinkFromUrl(env, v), fetches + 1)
  }

  /** The outcome of resolving `p`, starting from its WebFinger URL. */
  function Resolved(env: Collaborators, p: PayId): (r: Result<Url>)
    ensures r.Ok? ==> exists u: Url, l: Link ::
      GetLinkFromUrl(env, u) == Ok(l) && l.rel == PayIdRel && r == Finish(env, l, p)
  {
    Follow(env, p, GetLinkFromUrl(env, WebFingerUrl(p)), 1)
  }

  /** Before the limit, a discovery link whose href parses hands the outcome
      on to the document it points at. */
  lemma FollowDelegation(env: Collaborators, p: PayId, l: Link, fetches: nat, v: Url)
    requires l.rel == DiscoveryRel && fetches < DiscoveryRetries
    requires l.href.Some? && env.parse(l.href.value) == Some(v)
    ensures Follow(env, p, Ok(l), fetches) == Follow(env, p, GetLinkFromUrl(env, v), fetches + 1)
  {
  }

  /** Below the limit, the outcome from a document that delegates is the
      outcome from the document it delegates to, one fetch later. */
  lemma FollowAlong(env: Collaborators, p: PayId, u: Url, v: Url, fetches: nat)
    requires Delegates(env, u, v) && fetches < DiscoveryRetries
    ensures Follow(env, p, GetLinkFromUrl(env, u), fetches) == Follow(env, p, GetLinkFromUrl(env, v), fetches + 1)
  {
    FollowDelegation(env, p, GetLinkFromUrl(env, u).value, fetches, v);
  }

  /** `resolvePayIDUrl`; `fetched` records the URLs whose documents were
      requested. */
  method ResolvePayIdUrl(env: Collaborators, p: PayId) returns (r: Result<Url>, ghost fetched: seq<Url>)
    ensures r == Resolved(env, p)
    ensures Resolution(env, p, r, fetched)
  {
    ghost var outcome := Resolved(env, p);
    var webfingerUrl := WebFingerUrl(p);
    fetched := [webfingerUrl];
    var first := GetLinkFromUrl(env, webfingerUrl);
    if first.Err? {
      r := Err(first.failure);
      Concludes(env, p, fetched, first, r, outcome);
      return;
    }
    var webFingerLink := first.value;
    var retries := 1;
    while webFingerLink.rel == DiscoveryRel
      invariant 1 <= retries <= DiscoveryRetries && |fetched| == retries
      invariant DelegationChain(env, p, fetched)
      invariant GetLinkFromUrl(env, fetched[|fetched| - 1]) == Ok(webFingerLink)
      invariant Follow(env, p, Ok(webFingerLink), retries) == outcome
      decreases DiscoveryRetries - retries
    {
      if retries >= DiscoveryRetries {
        r := Err(DiscoveryFailure(Unknown, MaxRetriesMessage));
        Concludes(env, p, fetched, Ok(webFingerLink), r, outcome);
        return;
      }
      if webFingerLink.href.None? {
        r := Err(DiscoveryFailure(Unknown, MissingHrefMessage));
        Concludes(env, p, fetched, Ok(webFingerLink), r, outcome);
        return;
      }
      var discoveryUrl := env.parse(webFingerLink.href.value);
      if discoveryUrl.None? {
        r := Err(NullPointer);
        Concludes(env, p, fetched, Ok(webFingerLink), r, outcome);
        return;
      }
      var next := GetLinkFromUrl(env, discoveryUrl.value);
      ChainGrows(env, p, fetched, discoveryUrl.value);
      FollowDelegation(env, p, webFingerLink, retries, discoveryUrl.value);
      fetched := fetched + [discoveryUrl.value];
      if next.Err? {
        r := Err(next.failure);
        Concludes(env, p, fetched, next, r, outcome);
        return;
      }
      webFingerLink := next.value;
      retries := retries + 1;
    }
    var payIdUriTemplate := TerminalTemplate(webFingerLink);
    if payIdUriTemplate.Err? {
      r := Err(payIdUriTemplate.failure);
    } else {
      r := ExpandUrlTemplate(env, payIdUriTemplate.value, p);
    }
    Concludes(env, p, fetched, Ok(webFingerLink), r, outcome);
  }

  /** Where discovery stops, the declarative and the recursive descriptions
      agree on the outcome. */
  lemma StopsAgreesWithFollow(env: Collaborators, p: PayId, link: Result<Link>, fetches: nat, r: Result<Url>)
    requires Stops(env, p, link, fetches, r)
    ensures Follow(env, p, link, fetches) == r
  {
  }

  /** A delegation chain whose last document stops discovery with `r` is a
      resolution, and `r` is the outcome of `Resolved`. */
  lemma Concludes(env: Collaborators, p: PayId, fetched: seq<Url>, link: Result<Link>, r: Result<Url>,
                  outcome: Result<Url>)
    requires DelegationChain(env, p, fetched) && |fetched| <= DiscoveryRetries
    requires GetLinkFromUrl(env, fetched[|fetched| - 1]) == link
    requires Follow(env, p, link, |fetched|) == outcome
    requires Stops(env, p, link, |fetched|, r)
    ensures Resolution(env, p, r, fetched) && r == outcome
  {
    StopsAgreesWithFollow(env, p, link, |fetched|, r);
  }

  /** From the `i`-th fetched document of a resolution on, the recursive
      description reaches the resolution's outcome. */
  lemma {:induction false} FollowFromFetched(env: Collaborators, p: PayId, r: Result<Url>, fetched: seq<Url>, i: nat)
    requires Resolution(env, p, r, fetched) && i < |fetched|
    ensures Follow(env, p, GetLinkFromUrl(env, fetched[i]), i + 1) == r
    decreases |fetched| - i
  {
    if i == |fetched| - 1 {
      StopsAgreesWithFollow(env, p, GetLinkFromUrl(env, fetched[i]), i + 1, r);
    } else {
      assert Delegates(env, fetched[i], fetched[i + 1]);
      FollowAlong(env, p, fetched[i], fetched[i + 1], i + 1);
      FollowFromFetched(env, p, r, fetched, i + 1);
    }
  }

  /** Every outcome `Resolution` admits is the outcome of `Resolved`. */
  lemma ResolutionIsResolved(env: Collaborators, p: PayId, r: Result<Url>, fetched: seq<Url>)
    requires Resolution(env, p, r, fetched)
    ensures r == Resolved(env, p)
  {
    FollowFromFetched(env, p, r, fetched, 0);
  }

  /** Two runs against the same collaborators fetch the same documents and
      end alike: `Resolution` pins down one outcome. */
  lemma ResolutionIsUnique(env: Collaborators, p: PayId, r1: Result<Url>, f1: seq<Url>, r2: Result<Url>, f2: seq<Url>)
    requires Resolution(env, p, r1, f1) && Resolution(env, p, r2, f2)
    ensures f1 == f2 && r1 == r2
  {
    SameFetches(env, p, r1, f1, r2, f2);
    StopsIsDeterministic(env, p, GetLinkFromUrl(env, f1[|f1| - 1]), |f1|, r1, r2);
  }

  lemma StopsIsDeterministic(env: Collaborators, p: PayId, link: Result<Link>, fetches: nat,
                             r1: Result<Url>, r2: Result<Url>)
    requires Stops(env, p, link, fetches, r1) && Stops(env, p, link, fetches, r2)
    ensures r1 == r2
  {
  }

  lemma SameFetches(env: Collaborators, p: PayId, r1: Result<Url>, f1: seq<Url>, r2: Result<Url>, f2: seq<Url>)
    requires Resolution(env, p, r1, f1) && Resolution(env, p, r2, f2)
    ensures f1 == f2
  {
    SamePrefix(env, p, r1, f1, r2, f2);
    if |f1| < |f2| {
      LastDoesNotDelegate(env, p, r1, f1, f2[|f1|]);
      assert false;
    } else if |f2| < |f1| {
      LastDoesNotDelegate(env, p, r2, f2, f1[|f2|]);
      assert false;
    }
  }

  /** Before the limit, the last fetched document delegates nowhere. */
  lemma LastDoesNotDelegate(env: Collaborators, p: PayId, r: Result<Url>, fetched: seq<Url>, v: Url)
    requires Resolution(env, p, r, fetched) && |fetched| < DiscoveryRetries
    ensures !Delegates(env, fetched[|fetched| - 1], v)
  {
  }

  lemma SamePrefix(env: Collaborators, p: PayId, r1: Result<Url>, f1: seq<Url>, r2: Result<Url>, f2: seq<Url>)
    requires Resolution(env, p, r1, f1) && Resolution(env, p, r2, f2)
    ensures forall i :: 0 <= i < |f1| && i < |f2| ==> f1[i] == f2[i]
  {
    var n := if |f1| < |f2| then |f1| else |f2|;
    var k := 1;
    while k < n
      invariant 1 <= k <= n
      invariant forall i :: 0 <= i < k ==> f1[i] == f2[i]
    {
      assert Delegates(env, f1[k - 1], f1[k]) && Delegates(env, f2[k - 1], f2[k]);
      k := k + 1;
    }
  }

  /** k discovery links (k <= 4) followed by a payid link: exactly k + 1
      documents are fetched, and the payid link is expanded. */
  lemma ChainEndingInPayIdLink(env: Collaborators, p: PayId, chain: seq<Url>, l: Link,
                               r: Result<Url>, fetched: seq<Url>)
    requires DelegationChain(env, p, chain) && |chain| <= DiscoveryRetries
    requires GetLinkFromUrl(env, chain[|chain| - 1]) == Ok(l) && l.rel == PayIdRel
    requires Resolution(env, p, r, fetched)
    ensures fetched == chain && |fetched| == |chain|
    ensures r == Finish(env, l, p)
  {
    assert Resolution(env, p, Finish(env, l, p), chain);
    ResolutionIsUnique(env, p, r, fetched, Finish(env, l, p), chain);
  }

  /** A fifth document in a row that again gives a discovery link ends
      discovery with `Unknown`, after exactly five fetches. */
  lemma FifthDiscoveryLinkFails(env: Collaborators, p: PayId, chain: seq<Url>, l: Link,
                                r: Result<Url>, fetched: seq<Url>)
    requires DelegationChain(env, p, chain) && |chain| == DiscoveryRetries
    requires GetLinkFromUrl(env, chain[|chain| - 1]) == Ok(l) && l.rel == DiscoveryRel
    requires Resolution(env, p, r, fetched)
    ensures fetched == chain && |fetched| == 5
    ensures r == Err(DiscoveryFailure(Unknown, MaxRetriesMessage))
  {
    var failed := Err(DiscoveryFailure(Unknown, MaxRetriesMessage));
    assert Resolution(env, p, failed, chain);
    ResolutionIsUnique(env, p, r, fetched, failed, chain);
  }

  /** A discovery link without href, before the limit, ends discovery with
      `Unknown` and nothing more is fetched. */
  lemma MissingHrefStopsDiscovery(env: Collaborators, p: PayId, chain: seq<Url>, l: Link,
                                  r: Result<Url>, fetched: seq<Url>)
    requires DelegationChain(env, p, chain) && |chain| < DiscoveryRetries
    requires GetLinkFromUrl(env, chain[|chain| - 1]) == Ok(l)
    requires l.rel == DiscoveryRel && l.href.None?
    requires Resolution(env, p, r, fetched)
    ensures fetched == chain
    ensures r == Err(DiscoveryFailure(Unknown, MissingHrefMessage))
  {
    var failed := Err(DiscoveryFailure(Unknown, MissingHrefMessage));
    assert Resolution(env, p, failed, chain);
    ResolutionIsUnique(env, p, r, fetched, failed, chain);
  }

  /** A resolved URL always comes from a payid link: discovery links are
      never terminal, and selection yields no other relation. */
  lemma ResolvedFromPayIdLink(env: Collaborators, p: PayId, r: Result<Url>, fetched: seq<Url>)
    requires Resolution(env, p, r, fetched) && r.Ok?
    ensures GetLinkFromUrl(env, fetched[|fetched| - 1]).Ok?
    ensures GetLinkFromUrl(env, fetched[|fetched| - 1]).value.rel == PayIdRel
    ensures r == Finish(env, GetLinkFromUrl(env, fetched[|fetched| - 1]).value, p)
  {
  }

  /** A non-200 answer to the first query ends resolution at once with an
      error response that carries the status code. */
  lemma FirstErrorResponse(env: Collaborators, p: PayId, code: int, body: Body,
                           r: Result<Url>, fetched: seq<Url>)
    requires env.execute(WebFingerRequest(WebFingerUrl(p))) == Response(code, body) && code != 200
    requires Resolution(env, p, r, fetched)
    ensures fetched == [WebFingerUrl(p)]
    ensures r == Err(DiscoveryFailure(ErrorResponse, ErrorCodeMessage(code)))
  {
    var failed := Err(DiscoveryFailure(ErrorResponse, ErrorCodeMessage(code)));
    assert Resolution(env, p, failed, [WebFingerUrl(p)]);
    ResolutionIsUnique(env, p, r, fetched, failed, [WebFingerUrl(p)]);
  }
}
