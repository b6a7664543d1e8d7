/** The parts of okhttp3's `HttpUrl` and `HttpUrl.Builder` that the resolver
    depends on. A URL is described by its decoded components, the values that
    `host()`, `pathSegments()`, `queryParameterNames()`, `queryParameter(name)`
    and `fragment()` return; percent-encoding in the serialized form is not
    modelled. */
module Urls {
  import opened Base

  /** One `name[=value]` pair of a query; a name without `=` has no value. */
  datatype QueryParam = QueryParam(name: string, value: Option<string>)

  datatype Url = Url(
    scheme: string,
    username: string,
    password: string,
    host: string,
    port: int,
    pathSegments: seq<string>,
    query: seq<QueryParam>,
    fragment: Option<string>)

  /** The port a URL gets when its builder was given none. */
  function DefaultPort(scheme: string): int
  {
    if scheme == "http" then 80 else if scheme == "https" then 443 else -1
  }

  // ---------------------------------------------------------------------
  // Path segments as the builder keeps them

  /** The builder drops the last segment and leaves the path ending in '/'. */
  function PopSegment(segments: seq<string>): (r: seq<string>)
    requires |segments| > 0
    ensures |r| > 0
  {
    var removed := segments[|segments| - 1];
    var rest := segments[..|segments| - 1];
    if removed == "" && rest != [] then rest[..|rest| - 1] + [""] else rest + [""]
  }

  /** What adding one decoded segment does to the builder's segment list: "."
      is skipped, ".." removes the previous segment, and any other segment
      takes the place of an empty last segment (the trailing '/') or is
      appended after a non-empty one. */
  function PushSegment(segments: seq<string>, s: string): (r: seq<string>)
    requires |segments| > 0
    ensures |r| > 0
  {
    if s == "." then segments
    else if s == ".." then PopSegment(segments)
    else if segments[|segments| - 1] == "" then segments[..|segments| - 1] + [s]
    else segments + [s]
  }

  /** The segments `ss` pushed one after the other, in order. */
  function PushAll(segments: seq<string>, ss: seq<string>): (r: seq<string>)
    requires |segments| > 0
    ensures |r| > 0
    decreases |ss|
  {
    if ss == [] then segments
    else PushSegment(PushAll(segments, ss[..|ss| - 1]), ss[|ss| - 1])
  }

  /** The non-empty segments of `ss`, in order. */
  function NonEmptySegments(ss: seq<string>): seq<string>
    decreases |ss|
  {
    if ss == [] then []
    else NonEmptySegments(ss[..|ss| - 1]) + (if ss[|ss| - 1] == "" then [] else [ss[|ss| - 1]])
  }

  /** True when no segment is a dot segment, as for every parsed URL. */
  predicate NoDotSegments(ss: seq<string>)
  {
    forall k :: 0 <= k < |ss| ==> ss[k] != "." && ss[k] != ".."
  }

  /** True when only the last segment may be empty, the shape of a path that
      never repeats '/'. */
  predicate OnlyLastMayBeEmpty(ss: seq<string>)
  {
    forall k :: 0 <= k < |ss| - 1 ==> ss[k] != ""
  }

  /** True when no segment is empty. */
  predicate AllNonEmpty(ss: seq<string>)
  {
    forall k :: 0 <= k < |ss| ==> ss[k] != ""
  }

  /** The '/' that ends a copied path: present when the path is empty or
      ends in an empty segment. */
  function TrailingSlash(ss: seq<string>): seq<string>
  {
    if ss == [] || ss[|ss| - 1] == "" then [""] else []
  }

  lemma UnfoldSnoc(init: seq<string>, x: string)
    ensures NonEmptySegments(init + [x]) == NonEmptySegments(init) + (if x == "" then [] else [x])
    ensures TrailingSlash(init + [x]) == (if x == "" then [""] else [])
  {
    assert (init + [x])[..|init|] == init;
  }

  lemma TrailingSlashOrNonEmpty(init: seq<string>)
    ensures TrailingSlash(init) == [] ==> NonEmptySegments(init) != []
  {
  }

  /** A proper segment pushed onto a path ending in '/' takes the place of
      the empty last segment. */
  lemma PushOntoSlash(prefix: seq<string>, x: string)
    requires x != "." && x != ".."
    ensures PushSegment(prefix + [""], x) == prefix + [x]
  {
    var segments := prefix + [""];
    assert segments[|segments| - 1] == "";
    assert segments[..|segments| - 1] == prefix;
  }

  /** A proper segment pushed after a non-empty last segment is appended. */
  lemma PushOntoProper(segments: seq<string>, x: string)
    requires x != "." && x != ".."
    requires segments != [] && segments[|segments| - 1] != ""
    ensures PushSegment(segments, x) == segments + [x]
  {
  }

  /** The last kept segment, if any, is non-empty. */
  lemma {:induction false} LastKeptIsNonEmpty(ss: seq<string>)
    ensures NonEmptySegments(ss) != [] ==> NonEmptySegments(ss)[|NonEmptySegments(ss)| - 1] != ""
    decreases |ss|
  {
    if ss != [] {
      LastKeptIsNonEmpty(ss[..|ss| - 1]);
    }
  }

  /** One step of the closed form: from a prefix of the path to one more segment. */
  lemma CopySegmentsStep(before: seq<string>, init: seq<string>, x: string)
    requires x != "." && x != ".."
    requires before == NonEmptySegments(init) + TrailingSlash(init)
    ensures |before| > 0
    ensures PushSegment(before, x) == NonEmptySegments(init + [x]) + TrailingSlash(init + [x])
  {
    var prefix := NonEmptySegments(init);
    UnfoldSnoc(init, x);
    if TrailingSlash(init) == [""] {
      PushOntoSlash(prefix, x);
    } else {
      assert before == prefix;
      TrailingSlashOrNonEmpty(init);
      LastKeptIsNonEmpty(init);
      PushOntoProper(prefix, x);
    }
    if x == "" {
      assert prefix + [x] == (prefix + []) + [""];
    } else {
      assert prefix + [x] == (prefix + [x]) + [];
    }
  }

  /** Copying dot-free segments into a fresh builder (whose list is [""])
      keeps every non-empty segment in order, drops empty ones, and ends the
      path with '/' exactly when the copied path did. */
  lemma {:induction false} CopySegmentsClosedForm(ss: seq<string>)
    requires NoDotSegments(ss)
    ensures PushAll([""], ss) == NonEmptySegments(ss) + TrailingSlash(ss)
    decreases |ss|
  {
    if ss != [] {
      var init, x := ss[..|ss| - 1], ss[|ss| - 1];
      assert NoDotSegments(init) by {
        forall k | 0 <= k < |init| ensures init[k] != "." && init[k] != ".." {
          assert init[k] == ss[k];
        }
      }
      CopySegmentsClosedForm(init);
      assert PushAll([""], ss) == PushSegment(PushAll([""], init), x);
      CopySegmentsStep(PushAll([""], init), init, x);
      assert ss == init + [x];
    }
  }

  lemma {:induction false} NonEmptySegmentsOfNonEmpty(ss: seq<string>)
    requires AllNonEmpty(ss)
    ensures NonEmptySegments(ss) == ss
    decreases |ss|
  {
    if ss != [] {
      var init := ss[..|ss| - 1];
      assert AllNonEmpty(init) by {
        forall k | 0 <= k < |init| ensures init[k] != "" {
          assert init[k] == ss[k];
        }
      }
      NonEmptySegmentsOfNonEmpty(init);
      assert ss == ss[..|ss| - 1] + [ss[|ss| - 1]];
    }
  }

  /** A parsed path without repeated or dot segments is copied unchanged. */
  lemma CopyCanonicalSegments(ss: seq<string>)
    requires ss != [] && NoDotSegments(ss) && OnlyLastMayBeEmpty(ss)
    ensures PushAll([""], ss) == ss
  {
    CopySegmentsClosedForm(ss);
    var init, x := ss[..|ss| - 1], ss[|ss| - 1];
    assert ss == init + [x];
    assert AllNonEmpty(init) by {
      forall k | 0 <= k < |init| ensures init[k] != "" {
        assert init[k] == ss[k];
      }
    }
    NonEmptySegmentsOfNonEmpty(init);
    assert NonEmptySegments(ss) == init + (if x == "" then [] else [x]);
    assert ss == init + [x];
  }

  // ---------------------------------------------------------------------
  // Query parameters

  /** The names of the query, in order, repeats included. */
  function NamesOf(q: seq<QueryParam>): (names: seq<string>)
    ensures |names| == |q| && forall k :: 0 <= k < |q| ==> names[k] == q[k].name
    decreases |q|
  {
    if q == [] then [] else NamesOf(q[..|q| - 1]) + [q[|q| - 1].name]
  }

  /** `queryParameterNames()`: each name once, in order of first appearance
      (okhttp returns a LinkedHashSet). */
  function DistinctNames(q: seq<QueryParam>): (names: seq<string>)
    ensures forall i, j :: 0 <= i < j < |names| ==> names[i] != names[j]
    decreases |q|
  {
    if q == [] then []
    else
      var names := DistinctNames(q[..|q| - 1]);
      if q[|q| - 1].name in names then names else names + [q[|q| - 1].name]
  }

  /** True when `q[i]` is the first pair named `name`. */
  ghost predicate FirstNamed(q: seq<QueryParam>, name: string, i: int)
  {
    0 <= i < |q| && q[i].name == name && forall j :: 0 <= j < i ==> q[j].name != name
  }

  /** `queryParameter(name)`: the value of the first pair with that name;
      None when there is no such pair or the first one has no value. */
  function FirstValue(q: seq<QueryParam>, name: string): (r: Option<string>)
    ensures (forall i :: 0 <= i < |q| ==> q[i].name != name) ==> r == None
    ensures forall i :: FirstNamed(q, name, i) ==> r == q[i].value
    decreases |q|
  {
    if q == [] then None
    else if q[0].name == name then q[0].value
    else
      FirstNamedInTail(q, name);
      FirstValue(q[1..], name)
  }

  /** Past a pair with another name, the first pair named `name` is the
      first one of the rest. */
  lemma FirstNamedInTail(q: seq<QueryParam>, name: string)
    requires q != [] && q[0].name != name
    ensures forall i :: FirstNamed(q, name, i) ==> FirstNamed(q[1..], name, i - 1)
  {
    forall i | FirstNamed(q, name, i) ensures FirstNamed(q[1..], name, i - 1) {
      forall j | 0 <= j < i - 1 ensures q[1..][j].name != name {
        assert q[1..][j] == q[j + 1];
      }
    }
  }

  /** One pair per name of `names`, holding that name's first value in `q`:
      what the expander adds to its builder. */
  function FirstValuePairs(q: seq<QueryParam>, names: seq<string>): (r: seq<QueryParam>)
    ensures |r| == |names|
    decreases |names|
  {
    if names == [] then []
    else
      var last := names[|names| - 1];
      FirstValuePairs(q, names[..|names| - 1]) + [QueryParam(last, FirstValue(q, last))]
  }

  /** The query with every pair dropped whose name already appeared earlier. */
  function FirstOccurrences(q: seq<QueryParam>): seq<QueryParam>
    decreases |q|
  {
    if q == [] then []
    else
      var init := q[..|q| - 1];
      FirstOccurrences(init) + (if q[|q| - 1].name in NamesOf(init) then [] else [q[|q| - 1]])
  }

  lemma {:induction false} DistinctNamesAreNames(q: seq<QueryParam>)
    ensures forall n :: n in DistinctNames(q) <==> n in NamesOf(q)
    decreases |q|
  {
    if q != [] {
      var init := q[..|q| - 1];
      DistinctNamesAreNames(init);
      assert NamesOf(q) == NamesOf(init) + [q[|q| - 1].name];
    }
  }

  lemma {:induction false} FirstValueAppend(q: seq<QueryParam>, x: QueryParam, n: string)
    ensures FirstValue(q + [x], n)
         == if n in NamesOf(q) then FirstValue(q, n) else if x.name == n then x.value else None
    decreases |q|
  {
    if q != [] {
      assert (q + [x])[1..] == q[1..] + [x];
      FirstValueAppend(q[1..], x, n);
      assert NamesOf(q) == [q[0].name] + NamesOf(q[1..]);
    }
  }

  lemma {:induction false} FirstValuePairsAppend(q: seq<QueryParam>, x: QueryParam, names: seq<string>)
    requires forall n :: n in names ==> n in NamesOf(q)
    ensures FirstValuePairs(q + [x], names) == FirstValuePairs(q, names)
    decreases |names|
  {
    if names != [] {
      FirstValuePairsAppend(q, x, names[..|names| - 1]);
      FirstValueAppend(q, x, names[|names| - 1]);
    }
  }

  /** Copying `queryParameter(n)` for every `n` of `queryParameterNames()`
      yields exactly the first pair of each name, in the original order. */
  lemma {:induction false} CopyQueryKeepsFirstOccurrences(q: seq<QueryParam>)
    ensures FirstValuePairs(q, DistinctNames(q)) == FirstOccurrences(q)
    decreases |q|
  {
    if q != [] {
      var init, x := q[..|q| - 1], q[|q| - 1];
      assert q == init + [x];
      CopyQueryKeepsFirstOccurrences(init);
      DistinctNamesAreNames(init);
      FirstValuePairsAppend(init, x, DistinctNames(init));
      if x.name !in NamesOf(init) {
        FirstValueAppend(init, x, x.name);
        var names := DistinctNames(init) + [x.name];
        assert names[..|names| - 1] == DistinctNames(init);
      }
    }
  }

  /** True when no name occurs twice in the query. */
  predicate DistinctQueryNames(q: seq<QueryParam>)
  {
    forall i, j :: 0 <= i < j < |q| ==> q[i].name != q[j].name
  }

  /** A query without repeated names is copied unchanged. */
  lemma {:induction false} CopyDistinctQuery(q: seq<QueryParam>)
    requires DistinctQueryNames(q)
    ensures FirstOccurrences(q) == q
    decreases |q|
  {
    if q != [] {
      var init := q[..|q| - 1];
      assert DistinctQueryNames(init) by {
        forall i, j | 0 <= i < j < |init| ensures init[i].name != init[j].name {
          assert init[i] == q[i] && init[j] == q[j];
        }
      }
      CopyDistinctQuery(init);
      assert q[|q| - 1].name !in NamesOf(init) by {
        forall k | 0 <= k < |init| ensures NamesOf(init)[k] != q[|q| - 1].name {
          assert init[k] == q[k];
        }
      }
      assert q == init + [q[|q| - 1]];
    }
  }

  // ---------------------------------------------------------------------
  // The builder

  /** `HttpUrl.Builder`: fields set one at a time, then `build()`. */
  class UrlBuilder {
    var scheme: Option<string>
    var host: Option<string>
    var fragment: Option<string>
    var pathSegments: seq<string>
    var query: seq<QueryParam>

    /** A builder always holds at least one (possibly empty) segment. */
    ghost predicate Valid()
      reads this
    {
      |pathSegments| > 0
    }

    /** A fresh builder: no scheme or host yet, path "/", no query. */
    constructor ()
      ensures Valid()
      ensures scheme == None && host == None && fragment == None
      ensures pathSegments == [""] && query == []
    {
      scheme, host, fragment := None, None, None;
      pathSegments, query := [""], [];
    }

    /** The builder accepts only the two web schemes. */
    method SetScheme(s: string)
      requires s == "http" || s == "https"
      modifies this`scheme
      ensures scheme == Some(s)
    {
      scheme := Some(s);
    }

    method SetHost(h: string)
      modifies this`host
      ensures host == Some(h)
    {
      host := Some(h);
    }

    method SetFragment(f: Option<string>)
      modifies this`fragment
      ensures fragment == f
    {
      fragment := f;
    }

    method AddQueryParameter(name: string, value: Option<string>)
      modifies this`query
      ensures query == old(query) + [QueryParam(name, value)]
    {
      query := query + [QueryParam(name, value)];
    }

    method AddPathSegment(s: string)
      requires Valid()
      modifies this`pathSegments
      ensures Valid()
      ensures pathSegments == PushSegment(old(pathSegments), s)
    {
      if s == "." {
      } else if s == ".." {
        pathSegments := PopSegment(pathSegments);
      } else if pathSegments[|pathSegments| - 1] == "" {
        pathSegments := pathSegments[..|pathSegments| - 1] + [s];
      } else {
        pathSegments := pathSegments + [s];
      }
    }

    /** `build()`: a builder that was never given a port yields the scheme's
        default port, and one never given credentials yields empty ones. */
    method Build() returns (u: Url)
      requires scheme.Some? && host.Some?
      ensures u.scheme == scheme.value && u.host == host.value
      ensures u.port == DefaultPort(scheme.value) && u.username == "" && u.password == ""
      ensures u.pathSegments == pathSegments && u.query == query && u.fragment == fragment
    {
      u := Url(scheme.value, "", "", host.value, DefaultPort(scheme.value),
               pathSegments, query, fragment);
    }
  }
}
