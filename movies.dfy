/** Movie routes: the `Movies` handler with its URL builders, single-object
    fetches and cursor-producing routes, and the `MovieSearch` builder whose
    `Exec` serialises the filters and drives a fresh cursor to its first
    fetch. */
module MovieHandlers {
  import opened Wire
  import opened Helpers
  import opened Cursors

  /** The filter fields of a movie search, as a value. */
  datatype MovieFilters = MovieFilters(
    page: u64,
    query: string,
    region: Option<string>,
    year: Option<string>,
    primaryYear: Option<string>,
    language: Option<string>,
    adult: bool)

  /** What `Movies::search` starts from: page 1, no filters, no adult
      results. */
  function InitialFilters(query: string): (f: MovieFilters)
    ensures f.page == 1 && f.query == query
    ensures MovieParams(f) == [("query", query), ("adult", "false")]
  {
    MovieFilters(1, query, None, None, None, None, false)
  }

  /** The chainable setters of a movie search. */
  datatype MovieSetter =
    | SetPage(n: u64)
    | SetRegion(region: string)
    | SetYear(year: u64)
    | SetPrimaryYear(primaryYear: u64)
    | SetLanguage(lang: string)
    | SetAdult

  datatype MovieField = PageField | RegionField | YearField | PrimaryYearField | LanguageField | AdultField

  function FieldOf(s: MovieSetter): MovieField {
    match s
    case SetPage(_) => PageField
    case SetRegion(_) => RegionField
    case SetYear(_) => YearField
    case SetPrimaryYear(_) => PrimaryYearField
    case SetLanguage(_) => LanguageField
    case SetAdult => AdultField
  }

  /** `f` and `g` agree on the query and on every field other than `x`. */
  predicate AgreeExcept(f: MovieFilters, g: MovieFilters, x: MovieField) {
    && f.query == g.query
    && (x != PageField ==> f.page == g.page)
    && (x != RegionField ==> f.region == g.region)
    && (x != YearField ==> f.year == g.year)
    && (x != PrimaryYearField ==> f.primaryYear == g.primaryYear)
    && (x != LanguageField ==> f.language == g.language)
    && (x != AdultField ==> f.adult == g.adult)
  }

  /** The effect of one setter: it writes its own field and no other; the
      years are kept as their decimal text. */
  function Apply(f: MovieFilters, s: MovieSetter): (g: MovieFilters)
    ensures AgreeExcept(f, g, FieldOf(s))
    ensures s.SetPage? ==> g.page == s.n
    ensures s.SetRegion? ==> g.region == Some(s.region)
    ensures s.SetYear? ==> g.year == Some(NatToString(s.year))
    ensures s.SetPrimaryYear? ==> g.primaryYear == Some(NatToString(s.primaryYear))
    ensures s.SetLanguage? ==> g.language == Some(s.lang)
    ensures s.SetAdult? ==> g.adult
  {
    match s
    case SetPage(n) => f.(page := n)
    case SetRegion(r) => f.(region := Some(r))
    case SetYear(y) => f.(year := Some(NatToString(y)))
    case SetPrimaryYear(y) => f.(primaryYear := Some(NatToString(y)))
    case SetLanguage(l) => f.(language := Some(l))
    case SetAdult => f.(adult := true)
  }

  /** Setters that write different fields can be chained in either
      order. */
  lemma SettersCommute(f: MovieFilters, s1: MovieSetter, s2: MovieSetter)
    requires FieldOf(s1) != FieldOf(s2)
    ensures Apply(Apply(f, s1), s2) == Apply(Apply(f, s2), s1)
  {
  }

  /** Repeating a setter changes nothing; in particular `adult()` twice is
      `adult()` once. */
  lemma SetterIdempotent(f: MovieFilters, s: MovieSetter)
    ensures Apply(Apply(f, s), s) == Apply(f, s)
  {
  }

  /** The position of each key in the fixed order `exec` pushes them in;
      unknown keys come last. */
  function MovieRank(key: string): nat {
    if key == "query" then 0
    else if key == "adult" then 1
    else if key == "region" then 2
    else if key == "year" then 3
    else if key == "primary_year" then 4
    else if key == "language" then 5
    else 6
  }

  /** The query list `MovieSearch::exec` assembles: `query` and `adult`
      first, then each set optional filter, keys strictly in the fixed
      order (so no key twice) and no key other than these six. */
  function MovieParams(f: MovieFilters): (r: seq<Param>)
    ensures |r| >= 2 && r[0] == ("query", f.query) && r[1] == ("adult", BoolToString(f.adult))
    ensures forall i :: 0 <= i < |r| ==> MovieRank(r[i].0) < 6
    ensures forall i, j :: 0 <= i < j < |r| ==> MovieRank(r[i].0) < MovieRank(r[j].0)
  {
    var base := [("query", f.query), ("adult", BoolToString(f.adult))];
    OptParam(OptParam(OptParam(OptParam(base, "region", f.region), "year", f.year),
                      "primary_year", f.primaryYear), "language", f.language)
  }

  /** The value a query key stands for in the filters `f`. */
  function MovieValue(f: MovieFilters, key: string): Option<string> {
    if key == "query" then Some(f.query)
    else if key == "adult" then Some(BoolToString(f.adult))
    else if key == "region" then f.region
    else if key == "year" then f.year
    else if key == "primary_year" then f.primaryYear
    else if key == "language" then f.language
    else None
  }

  /** Reading the query list back by key gives the filters again: each
      optional filter is there exactly when it is set, with the value it
      holds, and `query` and `adult` are always there. */
  lemma MovieParamsLookup(f: MovieFilters, key: string)
    ensures Lookup(MovieParams(f), key) == MovieValue(f, key)
  {
    var base := [("query", f.query), ("adult", BoolToString(f.adult))];
    var p1 := OptParam(base, "region", f.region);
    var p2 := OptParam(p1, "year", f.year);
    var p3 := OptParam(p2, "primary_year", f.primaryYear);
    assert Lookup(base, key)
        == if key == "query" then Some(f.query)
           else if key == "adult" then Some(BoolToString(f.adult)) else None by {
      assert base[1..] == [("adult", BoolToString(f.adult))];
      assert base[1..][1..] == [];
    }
    LookupOptParam(base, "region", f.region, key);
    LookupOptParam(p1, "year", f.year, key);
    LookupOptParam(p2, "primary_year", f.primaryYear, key);
    LookupOptParam(p3, "language", f.language, key);
  }

  /** The request `exec` sends for filters `f`: the cursor's token and
      page `f.page + 1`, then the filters' query list. */
  function SearchRequest(url: string, token: string, f: MovieFilters): (req: Request)
    requires f.page < U64_MAX
    ensures req.url == url && |req.query| == 2 + |MovieParams(f)|
    ensures req.query[0] == ("api_key", token)
    ensures req.query[1].0 == "page" && ParseNat(req.query[1].1) == Some(f.page + 1)
    ensures req.query[2..] == MovieParams(f)
  {
    NatRoundTrip(f.page + 1);
    Request(url, [("api_key", token), ("page", NatToString(f.page + 1))] + MovieParams(f))
  }

  /** The cursor `exec` advances: a new cursor moved to the search's page
      and given the filters' query list. */
  function SearchStart<T>(url: string, token: string, f: MovieFilters): (s: CursorState<T>)
    requires f.page < U64_MAX
    ensures s.page == f.page
    ensures NextRequest(s) == SearchRequest(url, token, f)
  {
    Initial(url, token).(page := f.page, params := MovieParams(f))
  }

  /** Chaining two setters of different fields in either order sends the
      same request. */
  lemma ExecOrderIndependent(url: string, token: string, f: MovieFilters, s1: MovieSetter, s2: MovieSetter)
    requires FieldOf(s1) != FieldOf(s2)
    requires Apply(Apply(f, s1), s2).page < U64_MAX
    ensures Apply(Apply(f, s2), s1).page < U64_MAX
    ensures SearchRequest(url, token, Apply(Apply(f, s1), s2)) == SearchRequest(url, token, Apply(Apply(f, s2), s1))
  {
    SettersCommute(f, s1, s2);
  }

  /** A search executed without changing its page asks for page 2. */
  lemma FreshSearchRequestsPageTwo(url: string, token: string, query: string)
    ensures SearchRequest(url, token, InitialFilters(query))
         == Request(url, [("api_key", token), ("page", "2"), ("query", query), ("adult", "false")])
  {
  }

  /** `search("13 Hours").year(2016).exec()`: the exact request sent. */
  lemma YearSearchRequest(host: string, token: string)
    ensures SearchRequest(host + "/3/search/movie", token, Apply(InitialFilters("13 Hours"), SetYear(2016)))
         == Request(host + "/3/search/movie",
                    [("api_key", token), ("page", "2"), ("query", "13 Hours"),
                     ("adult", "false"), ("year", "2016")])
  {
    assert NatToString(2016) == "2016";
  }

  /** The movie route handler. */
  class Movies {
    const host: string
    const token: string

    constructor (host: string, token: string)
      ensures this.host == host && this.token == token
    {
      this.host := host;
      this.token := token;
    }

    /** A search builder for `query`, on the search route, with the
        initial filters. */
    method Search(query: string) returns (s: MovieSearch)
      ensures fresh(s)
      ensures s.url == host + "/3/search/movie" && s.handler == this
      ensures s.Filters() == InitialFilters(query)
    {
      s := new MovieSearch(host + "/3/search/movie", this, query);
    }

    /** The route of one movie: the host, `/3/movie/`, then the id in
        decimal. */
    function DetailsUrl(id: i64): (u: string)
      ensures |u| > |host| + 9
      ensures u[..|host|] == host && u[|host|..|host| + 9] == "/3/movie/"
      ensures u[|host| + 9..] == IntToString(id)
    {
      host + "/3/movie/" + IntToString(id)
    }

    function CreditsUrl(id: i64): (u: string)
      ensures u == DetailsUrl(id) + "/credits"
    {
      host + "/3/movie/" + IntToString(id) + "/credits"
    }

    function ReviewsUrl(id: i64): (u: string)
      ensures u == DetailsUrl(id) + "/reviews"
    {
      host + "/3/movie/" + IntToString(id) + "/reviews"
    }

    function RecommendationsUrl(id: i64): (u: string)
      ensures u == DetailsUrl(id) + "/recommendations"
    {
      host + "/3/movie/" + IntToString(id) + "/recommendations"
    }

    function SimilarUrl(id: i64): (u: string)
      ensures u == DetailsUrl(id) + "/similar"
    {
      host + "/3/movie/" + IntToString(id) + "/similar"
    }

    /** The popular route: under `/3/movie/`, with a last segment that
        is not an id. */
    function PopularUrl(): (u: string)
      ensures |u| > |host| + 9
      ensures u[..|host|] == host && u[|host|..|host| + 9] == "/3/movie/"
      ensures u[|host| + 9..] == "popular" && ParseInt(u[|host| + 9..]) == None
    {
      host + "/3/movie/popular"
    }

    /** The id can be read back from the route it built. */
    lemma DetailsUrlNamesId(id: i64)
      ensures ParseInt(DetailsUrl(id)[|host| + 9..]) == Some(id)
    {
      IntRoundTrip(id);
    }

    /** Different ids give different routes. */
    lemma DetailsUrlInjective(a: i64, b: i64)
      requires DetailsUrl(a) == DetailsUrl(b)
      ensures a == b
    {
      DetailsUrlNamesId(a);
      DetailsUrlNamesId(b);
    }

    /** The popular route sits under `/3/movie/` but is no movie's route. */
    lemma PopularIsNoMovie(id: i64)
      ensures PopularUrl()[..|host| + 9] == host + "/3/movie/"
      ensures PopularUrl() != DetailsUrl(id)
    {
    }

    /** One fetch of a movie's details: only the token is sent. */
    method Details<D>(id: i64, fetch: Request -> Result<D>) returns (req: Request, res: Result<D>)
      ensures req.url == DetailsUrl(id) && req.query == [("api_key", token)]
      ensures res == fetch(req)
    {
      var url := host + "/3/movie/" + IntToString(id);
      req := Request(url, [("api_key", token)]);
      res := fetch(req);
    }

    /** One fetch of a movie's credits: only the token is sent. */
    method Credits<D>(id: i64, fetch: Request -> Result<D>) returns (req: Request, res: Result<D>)
      ensures req.url == CreditsUrl(id) && req.query == [("api_key", token)]
      ensures res == fetch(req)
    {
      var url := host + "/3/movie/" + IntToString(id) + "/credits";
      req := Request(url, [("api_key", token)]);
      res := fetch(req);
    }

    method Reviews<T>(id: i64) returns (c: Cursor<T>)
      ensures fresh(c) && c.State() == Initial(ReviewsUrl(id), token)
    {
      c := new Cursor(host + "/3/movie/" + IntToString(id) + "/reviews", token);
    }

    method Recommendations<T>(id: i64) returns (c: Cursor<T>)
      ensures fresh(c) && c.State() == Initial(RecommendationsUrl(id), token)
    {
      c := new Cursor(host + "/3/movie/" + IntToString(id) + "/recommendations", token);
    }

    method Similar<T>(id: i64) returns (c: Cursor<T>)
      ensures fresh(c) && c.State() == Initial(SimilarUrl(id), token)
    {
      c := new Cursor(host + "/3/movie/" + IntToString(id) + "/similar", token);
    }

    method Popular<T>() returns (c: Cursor<T>)
      ensures fresh(c) && c.State() == Initial(PopularUrl(), token)
    {
      c := new Cursor(host + "/3/movie/popular", token);
    }
  }

  /** A movie search being built. The URL and the handler are fixed; the
      setters each write one filter field. */
  class MovieSearch {
    const url: string
    const handler: Movies
    var page: u64
    var query: string
    var region: Option<string>
    var year: Option<string>
    var primaryYear: Option<string>
    var language: Option<string>
    var adult: bool

    function Filters(): MovieFilters
      reads this
    {
      MovieFilters(page, query, region, year, primaryYear, language, adult)
    }

    constructor (url: string, handler: Movies, query: string)
      ensures this.url == url && this.handler == handler
      ensures Filters() == InitialFilters(query)
    {
      this.url := url;
      this.handler := handler;
      page := 1;
      this.query := query;
      region := None;
      year := None;
      primaryYear := None;
      language := None;
      adult := false;
    }

    method Page(n: u64)
      modifies this
      ensures Filters() == Apply(old(Filters()), SetPage(n))
    {
      page := n;
    }

    method Region(r: string)
      modifies this
      ensures Filters() == Apply(old(Filters()), SetRegion(r))
    {
      region := Some(r);
    }

    method Year(y: u64)
      modifies this
      ensures Filters() == Apply(old(Filters()), SetYear(y))
    {
      year := Some(NatToString(y));
    }

    method PrimaryYear(y: u64)
      modifies this
      ensures Filters() == Apply(old(Filters()), SetPrimaryYear(y))
    {
      primaryYear := Some(NatToString(y));
    }

    method Language(lang: string)
      modifies this
      ensures Filters() == Apply(old(Filters()), SetLanguage(lang))
    {
      language := Some(lang);
    }

    method Adult()
      modifies this
      ensures Filters() == Apply(old(Filters()), SetAdult)
    {
      adult := true;
    }

    /** Serialises the filters, builds a cursor on the search URL at the
        search's page with that query list, and advances it once. */
    method Exec<T>(fetch: Request -> Result<CursorPage<T>>) returns (req: Request, res: Result<Cursor<T>>)
      requires page < U64_MAX
      ensures req == SearchRequest(url, handler.token, Filters())
      ensures res.Ok? <==> fetch(req).Ok?
      ensures res.Err? ==> res.error == fetch(req).error
      ensures res.Ok? ==> fresh(res.value)
      ensures res.Ok? ==> res.value.State() == Advance(SearchStart(url, handler.token, Filters()), fetch).value
    {
      var adultText := BoolToString(adult);
      var params: seq<Param> := [];
      params := params + [("query", query)];
      params := params + [("adult", adultText)];
      params := OptParam(params, "region", region);
      params := OptParam(params, "year", year);
      params := OptParam(params, "primary_year", primaryYear);
      params := OptParam(params, "language", language);
      assert params == MovieParams(Filters());
      ghost var start := SearchStart<T>(url, handler.token, Filters());
      var c := new Cursor<T>(url, handler.token);
      c.Page(page);
      c.Params(params);
      assert c.State() == start;
      req, res := c.NextPage(fetch);
    }
  }
}
