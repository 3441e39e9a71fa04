/** The request paths and URLs of the Thingiverse API client
    (`ThingiverseApiClient`): the query builders for each listing, the
    paginated list URL, the detail, files, collections and download URLs,
    and the value of the Authorization header. The client is stateless: the
    configured user id, the page size and the API token are parameters. */
module ThingiverseApiClient {
  import opened Wrappers
  import opened Strings

  /** The API root, without a trailing slash. */
  const RootUrl: string := "https://api.thingiverse.com"

  /** Every URL the client builds starts with this. The URLs below are
      written `Base + (path)`, grouped so that proofs can strip the common
      prefix in one step; the format lemmas regroup them into the
      `RootUrl + "/" + ...` shape of the source. */
  const Base: string := RootUrl + "/"

  /** The views the client offers, in menu order. */
  function AvailableViews(): (views: seq<string>)
    ensures |views| == 7
    ensures forall i, j :: 0 <= i < j < |views| ==> views[i] != views[j]
    ensures views[0] == "My Likes" && views[6] == "Newest"
  {
    ["My Likes", "My Collections", "My Things", "My Makes", "Popular", "Featured", "Newest"]
  }

  // -----------------------------------------------------------------------
  // Query builders: the path part of a list URL

  const PopularQuery: string := "popular"
  const FeaturedQuery: string := "featured"
  const NewestQuery: string := "newest"

  /** The things of one collection. */
  function CollectionQuery(collectionId: string): (q: string)
    ensures StartsWith(q, "collections/") && EndsWith(q, "/things")
  {
    "collections/" + collectionId + "/things"
  }

  /** A search, sorted by relevance (the parameter value is spelled
      "relevent", as the API client sends it). */
  function SearchQuery(terms: string): (q: string)
    ensures StartsWith(q, "search/") && EndsWith(q, "/?sort=relevent")
  {
    "search/" + terms + "/?sort=relevent"
  }

  /** The things the user liked. */
  function LikedQuery(userId: string): (q: string)
    ensures StartsWith(q, "users/") && EndsWith(q, "/likes")
  {
    "users/" + userId + "/likes"
  }

  /** The things the user published. */
  function ByUserQuery(userId: string): (q: string)
    ensures StartsWith(q, "users/") && EndsWith(q, "/things")
  {
    "users/" + userId + "/things"
  }

  /** The things the user made. */
  function MadeQuery(userId: string): (q: string)
    ensures StartsWith(q, "users/") && EndsWith(q, "/copies")
  {
    "users/" + userId + "/copies"
  }

  // -----------------------------------------------------------------------
  // URLs

  /** `getThings`: one page of a listing. */
  function ThingsUrl(query: string, perPage: nat, page: int): (url: string)
    ensures StartsWith(url, Base)
  {
    Base + (query + "?" + PageParams(perPage, page))
  }

  /** `getCollections`: the user's collections. */
  function CollectionsUrl(userId: string): (url: string)
    ensures StartsWith(url, Base)
  {
    Base + ("users/" + userId + "/collections")
  }

  /** `getThing`: one thing's details. */
  function ThingUrl(thingId: int): (url: string)
    ensures StartsWith(url, Base)
  {
    Base + ("things/" + IntToString(thingId))
  }

  /** `getThingFiles`: one thing's files. */
  function ThingFilesUrl(thingId: int): (url: string)
    ensures StartsWith(url, Base)
    ensures url == ThingUrl(thingId) + "/files"
  {
    Base + ("things/" + IntToString(thingId) + "/files")
  }

  /** `downloadThingFile`: the contents of one file. */
  function DownloadUrl(fileId: int): (url: string)
    ensures StartsWith(url, Base)
  {
    Base + ("files/" + IntToString(fileId) + "/download")
  }

  /** Regrouping a concatenation of two joined parts. */
  lemma {:induction false} Regroup(a: string, b: string, c: string, x: string)
    ensures (a + b) + (c + x) == a + (b + c) + x
  {
  }

  /** Regrouping the pieces of a list URL. */
  lemma {:induction false} ListUrlRegroup(r: string, slash: string, q: string, s1: string, k1: string,
                                          n: string, s2: string, k2: string, p: string)
    ensures (r + slash) + (q + s1 + (k1 + (n + s2 + k2 + p)))
            == r + slash + q + (s1 + k1) + n + (s2 + k2) + p
  {
  }

  lemma ListUrlSeparators()
    ensures "?" + PerPageKey == "?per_page="
    ensures "&" + PageKey == "&page="
  {
  }

  lemma PathSeparators()
    ensures "/" + "users/" == "/users/"
    ensures "/" + "things/" == "/things/"
    ensures "/" + "files/" == "/files/"
  {
  }

  /** The list URL as the client's format string writes it: the root, '/',
      the query, then the page size and the page. */
  lemma {:induction false} ThingsUrlFormat(query: string, perPage: nat, page: int)
    ensures ThingsUrl(query, perPage, page)
            == RootUrl + "/" + query + "?per_page=" + NatToString(perPage) + "&page=" + IntToString(page)
  {
    ListUrlSeparators();
    ListUrlRegroup(RootUrl, "/", query, "?", PerPageKey, NatToString(perPage), "&", PageKey, IntToString(page));
  }

  /** The collections, detail, files and download URLs as the client's
      format strings write them. */
  lemma {:induction false} IdUrlFormats(userId: string, id: int)
    ensures CollectionsUrl(userId) == RootUrl + "/users/" + userId + "/collections"
    ensures ThingUrl(id) == RootUrl + "/things/" + IntToString(id)
    ensures ThingFilesUrl(id) == RootUrl + "/things/" + IntToString(id) + "/files"
    ensures DownloadUrl(id) == RootUrl + "/files/" + IntToString(id) + "/download"
  {
    var i := IntToString(id);
    PathSeparators();
    Regroup(RootUrl, "/", "users/", userId + "/collections");
    Regroup(RootUrl, "/", "things/", i);
    Regroup(RootUrl, "/", "things/", i + "/files");
    Regroup(RootUrl, "/", "files/", i + "/download");
  }

  const AuthorizationHeaderName: string := "Authorization"
  const BearerPrefix: string := "Bearer "

  /** `_setAuth`: the Authorization header carries the token with the
      bearer scheme. */
  function AuthorizationValue(token: string): (value: string)
    ensures StartsWith(value, BearerPrefix) && |value| == |BearerPrefix| + |token|
  {
    BearerPrefix + token
  }

  /** The token of a bearer Authorization value. */
  function BearerToken(value: string): Option<string> {
    if StartsWith(value, BearerPrefix) then Some(value[|BearerPrefix|..]) else None
  }

  lemma {:induction false} AuthorizationRoundTrip(token: string)
    ensures BearerToken(AuthorizationValue(token)) == Some(token)
  {
    assert (BearerPrefix + token)[|BearerPrefix|..] == token;
  }

  /** A raw request header: its name and its value. */
  datatype Header = Header(name: string, value: string)

  /** `_setAuth`: the header set on every request, whose token can be read
      back from its value. */
  function AuthorizationHeader(token: string): (h: Header)
    ensures h.name == AuthorizationHeaderName
    ensures BearerToken(h.value) == Some(token)
  {
    AuthorizationRoundTrip(token);
    Header(AuthorizationHeaderName, AuthorizationValue(token))
  }

  // -----------------------------------------------------------------------
  // Reading a list URL back

  datatype ListUrlParts = ListUrlParts(query: string, perPage: nat, page: int)

  const PerPageKey: string := "per_page="
  const PageKey: string := "page="

  /** The page parameters of a list URL, after its '?':
      `per_page={perPage}&page={page}`. */
  function PageParams(perPage: nat, page: int): string {
    PerPageKey + (NatToString(perPage) + "&" + PageKey + IntToString(page))
  }

  /** Read the page back from `page={page}`. */
  function ParsePageValue(tail: string): Option<int> {
    if !StartsWith(tail, PageKey) then None else ParseInt(tail[|PageKey|..])
  }

  /** Read the page size and page back from what follows `per_page=`. */
  function ParsePageSizeAndValue(afterKey: string): Option<(nat, int)> {
    match IndexOf(afterKey, '&')
    case None => None
    case Some(a) =>
      var perPage := afterKey[..a];
      if perPage == [] || !AllDigits(perPage) then None
      else match ParsePageValue(afterKey[a + 1..])
        case None => None
        case Some(p) => Some((ParseDigits(perPage), p))
  }

  /** Read the page size and page back from the page parameters. */
  function ParsePageParams(params: string): Option<(nat, int)> {
    if !StartsWith(params, PerPageKey) then None else ParsePageSizeAndValue(params[|PerPageKey|..])
  }

  /** Split the path of a list URL into its query, page size and page: the
      query runs up to the last '?', which the page parameters never contain. */
  function ParseListPath(path: string): Option<ListUrlParts> {
    match LastIndexOf(path, '?')
    case None => None
    case Some(q) =>
      match ParsePageParams(path[q + 1..])
      case None => None
      case Some(numbers) => Some(ListUrlParts(path[..q], numbers.0, numbers.1))
  }

  /** Split a list URL into its query, page size and page. */
  function ParseThingsUrl(url: string): Option<ListUrlParts> {
    if !StartsWith(url, Base) then None else ParseListPath(url[|Base|..])
  }

  /** What follows a prefix is recovered by dropping the prefix. */
  lemma {:induction false} DropPrefix(prefix: string, rest: string)
    ensures StartsWith(prefix + rest, prefix)
    ensures (prefix + rest)[|prefix|..] == rest
  {
    assert (prefix + rest)[..|prefix|] == prefix;
  }

  predicate Lacks(s: string, c: char) {
    forall j :: 0 <= j < |s| ==> s[j] != c
  }

  lemma {:induction false} IntToStringLacks(i: int, c: char)
    requires !IsDigit(c) && c != '-'
    ensures Lacks(IntToString(i), c)
  {
    var s := IntToString(i);
    forall j | 0 <= j < |s|
      ensures s[j] != c
    {
      if j > 0 || i >= 0 {
        if i < 0 { assert s[j] == s[1..][j - 1]; }
      }
    }
  }

  lemma {:induction false} LacksAppend(a: string, b: string, c: char)
    requires Lacks(a, c) && Lacks(b, c)
    ensures Lacks(a + b, c)
  {
    forall j | 0 <= j < |a + b|
      ensures (a + b)[j] != c
    {
      if j >= |a| { assert (a + b)[j] == b[j - |a|]; }
    }
  }

  /** The page parameters contain no '?' and no '/'. */
  lemma {:induction false} PageParamsLack(perPage: nat, page: int, c: char)
    requires c == '?' || c == '/'
    ensures Lacks(PageParams(perPage, page), c)
  {
    var n := NatToString(perPage);
    var p := IntToString(page);
    IntToStringLacks(page, c);
    IntToStringLacks(perPage, c);
    assert IntToString(perPage) == n;
    LacksAppend(n, "&", c);
    LacksAppend(n + "&", PageKey, c);
    LacksAppend(n + "&" + PageKey, p, c);
    LacksAppend(PerPageKey, n + "&" + PageKey + p, c);
  }

  lemma {:induction false} PageValueRoundTrip(page: int)
    ensures ParsePageValue(PageKey + IntToString(page)) == Some(page)
  {
    DropPrefix(PageKey, IntToString(page));
    ParseIntToString(page);
  }

  lemma {:induction false} PageSizeAndValueRoundTrip(perPage: nat, page: int)
    ensures ParsePageSizeAndValue(NatToString(perPage) + "&" + PageKey + IntToString(page))
            == Some((perPage, page))
  {
    var n := NatToString(perPage);
    var tail := PageKey + IntToString(page);
    var afterKey := n + "&" + tail;
    assert afterKey == n + "&" + PageKey + IntToString(page);
    assert afterKey[|n|] == '&';
    IndexOfAt(afterKey, '&', |n|);
    assert afterKey[..|n|] == n;
    assert afterKey[|n| + 1..] == tail;
    PageValueRoundTrip(page);
    ParseNatToString(perPage);
  }

  lemma {:induction false} PageParamsRoundTrip(perPage: nat, page: int)
    ensures ParsePageParams(PageParams(perPage, page)) == Some((perPage, page))
  {
    DropPrefix(PerPageKey, NatToString(perPage) + "&" + PageKey + IntToString(page));
    PageSizeAndValueRoundTrip(perPage, page);
  }

  /** The last '?' of `query + "?" + params` is the separator when `params` has none. */
  lemma {:induction false} SeparatorIsLastQuestionMark(query: string, params: string)
    requires Lacks(params, '?')
    ensures LastIndexOf(query + "?" + params, '?') == Some(|query|)
  {
    var rest := query + "?" + params;
    forall j | |query| < j < |rest|
      ensures rest[j] != '?'
    {
      assert rest[j] == params[j - |query| - 1];
    }
    LastIndexOfAt(rest, '?', |query|);
  }

  /** The path of a list URL reads back into its parts. */
  lemma {:induction false} ListPathRoundTrip(query: string, perPage: nat, page: int)
    ensures ParseListPath(query + "?" + PageParams(perPage, page)) == Some(ListUrlParts(query, perPage, page))
  {
    var params := PageParams(perPage, page);
    var path := query + "?" + params;
    PageParamsLack(perPage, page, '?');
    SeparatorIsLastQuestionMark(query, params);
    assert path[|query| + 1..] == params;
    assert path[..|query|] == query;
    PageParamsRoundTrip(perPage, page);
  }

  /** Reading a list URL back gives the query, page size and page it was
      built from, whatever the query contains. */
  lemma {:induction false} ThingsUrlRoundTrip(query: string, perPage: nat, page: int)
    ensures ParseThingsUrl(ThingsUrl(query, perPage, page)) == Some(ListUrlParts(query, perPage, page))
  {
    DropPrefix(Base, query + "?" + PageParams(perPage, page));
    ListPathRoundTrip(query, perPage, page);
  }

  /** Distinct listings or pages never share a list URL. */
  lemma {:induction false} ThingsUrlInjective(q1: string, n1: nat, p1: int, q2: string, n2: nat, p2: int)
    requires ThingsUrl(q1, n1, p1) == ThingsUrl(q2, n2, p2)
    ensures q1 == q2 && n1 == n2 && p1 == p2
  {
    ThingsUrlRoundTrip(q1, n1, p1);
    ThingsUrlRoundTrip(q2, n2, p2);
  }

  /** A list URL holds one '?' more than its query. */
  lemma {:induction false} ThingsUrlQuestionMarks(query: string, perPage: nat, page: int)
    ensures Count(ThingsUrl(query, perPage, page), '?') == Count(query, '?') + 1
  {
    var params := PageParams(perPage, page);
    PageParamsLack(perPage, page, '?');
    CountAbsent(params, '?');
    CountAbsent(Base, '?');
    assert Count("?", '?') == 1;
    CountAppend(query, "?", '?');
    CountAppend(query + "?", params, '?');
    CountAppend(Base, query + "?" + params, '?');
  }

  /** The search query holds one '?' besides any in the search terms. */
  lemma {:induction false} SearchQueryQuestionMarks(terms: string)
    ensures Count(SearchQuery(terms), '?') == Count(terms, '?') + 1
  {
    SortParameterQuestionMarks();
    SearchPrefixQuestionMarks(terms);
    var head := "search/" + terms;
    var sort := "/?sort=relevent";
    CountAppend(head, sort, '?');
    assert SearchQuery(terms) == head + sort;
  }

  lemma {:induction false} SortParameterQuestionMarks()
    ensures Count("/?sort=relevent", '?') == 1
  {
    var a := "/";
    var b := "sort=relevent";
    assert "/?sort=relevent" == a + ['?'] + b;
    SingleOccurrence(a, b, '?');
  }

  lemma {:induction false} SingleOccurrence(a: string, b: string, c: char)
    requires Lacks(a, c) && Lacks(b, c)
    ensures Count(a + [c] + b, c) == 1
  {
    CountAbsent(a, c);
    CountAbsent(b, c);
    CountAppend(a, [c], c);
    CountAppend(a + [c], b, c);
    assert Count([c], c) == 1;
  }

  lemma {:induction false} SearchPrefixQuestionMarks(terms: string)
    ensures Count("search/" + terms, '?') == Count(terms, '?')
  {
    CountAbsent("search/", '?');
    CountAppend("search/", terms, '?');
  }

  /** A search URL holds two '?' besides any in the search terms: the one in
      the search query and the one before the page parameters. */
  lemma {:induction false} SearchUrlQuestionMarks(terms: string, perPage: nat, page: int)
    ensures Count(ThingsUrl(SearchQuery(terms), perPage, page), '?') == Count(terms, '?') + 2
  {
    ThingsUrlQuestionMarks(SearchQuery(terms), perPage, page);
    SearchQueryQuestionMarks(terms);
  }

  // -----------------------------------------------------------------------
  // Distinctness of queries and URLs

  /** `a + x + b == a + y + b` only when `x == y`. */
  lemma {:induction false} FramedEqual(a: string, x: string, y: string, b: string)
    requires a + x + b == a + y + b
    ensures x == y
  {
    assert |x| == |y|;
    assert x == (a + x + b)[|a|..|a| + |x|];
    assert y == (a + y + b)[|a|..|a| + |y|];
  }

  /** The user-scoped queries and the collections URL depend on the user id
      alone and tell different users apart. */
  lemma {:induction false} UserQueriesInjective(u: string, v: string)
    ensures LikedQuery(u) == LikedQuery(v) <==> u == v
    ensures ByUserQuery(u) == ByUserQuery(v) <==> u == v
    ensures MadeQuery(u) == MadeQuery(v) <==> u == v
    ensures CollectionsUrl(u) == CollectionsUrl(v) <==> u == v
  {
    if LikedQuery(u) == LikedQuery(v) { FramedEqual("users/", u, v, "/likes"); }
    if ByUserQuery(u) == ByUserQuery(v) { FramedEqual("users/", u, v, "/things"); }
    if MadeQuery(u) == MadeQuery(v) { FramedEqual("users/", u, v, "/copies"); }
    if CollectionsUrl(u) == CollectionsUrl(v) {
      PrefixCancel(Base, "users/" + u + "/collections", "users/" + v + "/collections");
      FramedEqual("users/", u, v, "/collections");
    }
  }

  /** The search and collection queries tell their parameters apart. */
  lemma {:induction false} ParameterQueriesInjective(x: string, y: string)
    ensures SearchQuery(x) == SearchQuery(y) <==> x == y
    ensures CollectionQuery(x) == CollectionQuery(y) <==> x == y
  {
    if SearchQuery(x) == SearchQuery(y) { FramedEqual("search/", x, y, "/?sort=relevent"); }
    if CollectionQuery(x) == CollectionQuery(y) { FramedEqual("collections/", x, y, "/things"); }
  }

  /** Equal strings with a common prefix agree after it. */
  lemma {:induction false} PrefixCancel(prefix: string, x: string, y: string)
    ensures prefix + x == prefix + y ==> x == y
  {
    if prefix + x == prefix + y {
      assert x == (prefix + x)[|prefix|..];
      assert y == (prefix + y)[|prefix|..];
    }
  }

  /** Two strings that end differently within their common length differ. */
  lemma {:induction false} DifferentEndings(s: string, t: string, k: nat)
    requires k <= |s| && k <= |t| && s[|s| - k..] != t[|t| - k..]
    ensures s != t
  {
  }

  /** No two user-scoped queries coincide, whatever the user ids. */
  lemma {:induction false} UserQueriesDistinct(u: string, v: string)
    ensures LikedQuery(u) != ByUserQuery(v)
    ensures LikedQuery(u) != MadeQuery(v)
    ensures ByUserQuery(u) != MadeQuery(v)
  {
    var l := LikedQuery(u);
    var t := ByUserQuery(v);
    var m := MadeQuery(v);
    assert l[|l| - 6..] == "/likes";
    assert t[|t| - 6..] == "things";
    assert m[|m| - 6..] == "copies";
    DifferentEndings(l, t, 6);
    DifferentEndings(l, m, 6);
    var t' := ByUserQuery(u);
    assert t'[|t'| - 6..] == "things";
    DifferentEndings(t', m, 6);
  }

  /** The detail, files and download URLs each tell ids apart. */
  lemma {:induction false} IdUrlsInjective(a: int, b: int)
    ensures ThingUrl(a) == ThingUrl(b) ==> a == b
    ensures ThingFilesUrl(a) == ThingFilesUrl(b) ==> a == b
    ensures DownloadUrl(a) == DownloadUrl(b) ==> a == b
  {
    var ia := IntToString(a);
    var ib := IntToString(b);
    if ThingUrl(a) == ThingUrl(b) {
      PrefixCancel(Base, "things/" + ia, "things/" + ib);
      PrefixCancel("things/", ia, ib);
      IntToStringInjective(a, b);
    }
    if ThingFilesUrl(a) == ThingFilesUrl(b) {
      PrefixCancel(Base, "things/" + ia + "/files", "things/" + ib + "/files");
      FramedEqual("things/", ia, ib, "/files");
      IntToStringInjective(a, b);
    }
    if DownloadUrl(a) == DownloadUrl(b) {
      PrefixCancel(Base, "files/" + ia + "/download", "files/" + ib + "/download");
      FramedEqual("files/", ia, ib, "/download");
      IntToStringInjective(a, b);
    }
  }

  /** A detail, a files and a download URL never coincide, whatever the ids. */
  lemma {:induction false} IdUrlKindsDistinct(a: int, b: int)
    ensures ThingUrl(a) != ThingFilesUrl(b)
    ensures ThingUrl(a) != DownloadUrl(b)
    ensures ThingFilesUrl(a) != DownloadUrl(b)
  {
    var ia := IntToString(a);
    var ib := IntToString(b);
    var tail := ib + "/files";
    IntToStringLacks(a, '/');
    assert tail[|ib|] == '/';
    assert "things/" + tail == "things/" + ib + "/files";
    PrefixCancel("things/", ia, tail);
    PrefixCancel(Base, "things/" + ia, "things/" + tail);
    var thing := "things/" + ia;
    var files := "things/" + ia + "/files";
    var download := "files/" + ib + "/download";
    assert thing[0] == 't' && files[0] == 't' && download[0] == 'f';
    PrefixCancel(Base, thing, download);
    PrefixCancel(Base, files, download);
  }

  /** The curated listings hold no '/', while every parameterised query
      does: no two kinds of listing ever ask for the same path. */
  lemma {:induction false} CuratedQueriesDistinct(userId: string, terms: string, collectionId: string)
    ensures PopularQuery != FeaturedQuery && PopularQuery != NewestQuery && FeaturedQuery != NewestQuery
    ensures forall q :: q in [PopularQuery, FeaturedQuery, NewestQuery] ==>
              && q != LikedQuery(userId) && q != ByUserQuery(userId) && q != MadeQuery(userId)
              && q != SearchQuery(terms) && q != CollectionQuery(collectionId)
  {
    assert Lacks(PopularQuery, '/') && Lacks(FeaturedQuery, '/') && Lacks(NewestQuery, '/');
    assert LikedQuery(userId)[5] == '/' && ByUserQuery(userId)[5] == '/' && MadeQuery(userId)[5] == '/';
    assert SearchQuery(terms)[6] == '/';
    assert CollectionQuery(collectionId)[11] == '/';
  }
}
