/** TV show routes: the `Tv` handler with its URL builders, single-object
    fetches and cursor-producing routes, and the `ShowSearch` builder whose
    `Exec` serialises the filters and drives a fresh cursor to its first
    fetch. */
module TvHandlers {
  import opened Wire
  import opened Helpers
  import opened Cursors

  /** The filter fields of a show search, as a value. */
  datatype ShowFilters = ShowFilters(
    page: u64,
    query: string,
    language: Option<string>,
    year: Option<string>,
    adult: bool)

  /** What `Tv::search` starts from: page 1, no filters, no adult results. */
  function InitialFilters(query: string): (f: ShowFilters)
    ensures f.page == 1 && f.query == query
    ensures ShowParams(f) == [("query", query), ("include_adult", "false")]
  {
    ShowFilters(1, query, None, None, false)
  }

  /** The chainable setters of a show search. */
  datatype ShowSetter =
    | SetPage(n: u64)
    | SetYear(year: u64)
    | SetLanguage(lang: string)
    | SetAdult

  datatype ShowField = PageField | YearField | LanguageField | AdultField

  function FieldOf(s: ShowSetter): ShowField {
    match s
    case SetPage(_) => PageField
    case SetYear(_) => YearField
    case SetLanguage(_) => LanguageField
    case SetAdult => AdultField
  }

  /** `f` and `g` agree on the query and on every field other than `x`. */
  predicate AgreeExcept(f: ShowFilters, g: ShowFilters, x: ShowField) {
    && f.query == g.query
    && (x != PageField ==> f.page == g.page)
    && (x != YearField ==> f.year == g.year)
    && (x != LanguageField ==> f.language == g.language)
    && (x != AdultField ==> f.adult == g.adult)
  }

  /** The effect of one setter: it writes its own field and no other; the
      year is kept as its decimal text. */
  function Apply(f: ShowFilters, s: ShowSetter): (g: ShowFilters)
    ensures AgreeExcept(f, g, FieldOf(s))
    ensures s.SetPage? ==> g.page == s.n
    ensures s.SetYear? ==> g.year == Some(NatToString(s.year))
    ensures s.SetLanguage? ==> g.language == Some(s.lang)
    ensures s.SetAdult? ==> g.adult
  {
    match s
    case SetPage(n) => f.(page := n)
    case SetYear(y) => f.(year := Some(NatToString(y)))
    case SetLanguage(l) => f.(language := Some(l))
    case SetAdult => f.(adult := true)
  }

  /** Setters that write different fields can be chained in either
      order. */
  lemma SettersCommute(f: ShowFilters, s1: ShowSetter, s2: ShowSetter)
    requires FieldOf(s1) != FieldOf(s2)
    ensures Apply(Apply(f, s1), s2) == Apply(Apply(f, s2), s1)
  {
  }

  /** Repeating a setter changes nothing; in particular `adult()` twice is
      `adult()` once. */
  lemma SetterIdempotent(f: ShowFilters, s: ShowSetter)
    ensures Apply(Apply(f, s), s) == Apply(f, s)
  {
  }

  /** The position of each key in the fixed order `exec` pushes them in;
      unknown keys come last. */
  function ShowRank(key: string): nat {
    if key == "query" then 0
    else if key == "include_adult" then 1
    else if key == "language" then 2
    else if key == "first_air_date_year" then 3
    else 4
  }

  /** The query list `ShowSearch::exec` assembles: `query` and
      `include_adult` first, then the language and the first-air year when
      set, keys strictly in that order and no other key. */
  function ShowParams(f: ShowFilters): (r: seq<Param>)
    ensures |r| >= 2 && r[0] == ("query", f.query) && r[1] == ("include_adult", BoolToString(f.adult))
    ensures forall i :: 0 <= i < |r| ==> ShowRank(r[i].0) < 4
    ensures forall i, j :: 0 <= i < j < |r| ==> ShowRank(r[i].0) < ShowRank(r[j].0)
  {
    var base := [("query", f.query), ("include_adult", BoolToString(f.adult))];
    OptParam(OptParam(base, "language", f.language), "first_air_date_year", f.year)
  }

  /** The value a query key stands for in the filters `f`. */
  function ShowValue(f: ShowFilters, key: string): Option<string> {
    if key == "query" then Some(f.query)
    else if key == "include_adult" then Some(BoolToString(f.adult))
    else if key == "language" then f.language
    else if key == "first_air_date_year" then f.year
    else None
  }

  /** Reading the query list back by key gives the filters again: the
      language and the year are there exactly when set, the year under
      `first_air_date_year`. */
  lemma ShowParamsLookup(f: ShowFilters, key: string)
    ensures Lookup(ShowParams(f), key) == ShowValue(f, key)
  {
  }

  /** The request `exec` sends for filters `f`: the cursor's token and
      page `f.page + 1`, then the filters' query list. */
  function SearchRequest(url: string, token: string, f: ShowFilters): (req: Request)
    requires f.page < U64_MAX
    ensures req.url == url && |req.query| == 2 + |ShowParams(f)|
    ensures req.query[0] == ("api_key", token)
    ensures req.query[1].0 == "page" && ParseNat(req.query[1].1) == Some(f.page + 1)
    ensures req.query[2..] == ShowParams(f)
  {
    NatRoundTrip(f.page + 1);
    Request(url, [("api_key", token), ("page", NatToString(f.page + 1))] + ShowParams(f))
  }

  /** The cursor `exec` advances: a new cursor moved to the search's page
      and given the filters' query list. */
  function SearchStart<T>(url: string, token: string, f: ShowFilters): (s: CursorState<T>)
    requires f.page < U64_MAX
    ensures s.page == f.page
    ensures NextRequest(s) == SearchRequest(url, token, f)
  {
    Initial(url, token).(page := f.page, params := ShowParams(f))
  }

  /** Chaining two setters of different fields in either order sends the
      same request. */
  lemma ExecOrderIndependent(url: string, token: string, f: ShowFilters, s1: ShowSetter, s2: ShowSetter)
    requires FieldOf(s1) != FieldOf(s2)
    requires Apply(Apply(f, s1), s2).page < U64_MAX
    ensures Apply(Apply(f, s2), s1).page < U64_MAX
    ensures SearchRequest(url, token, Apply(Apply(f, s1), s2)) == SearchRequest(url, token, Apply(Apply(f, s2), s1))
  {
    SettersCommute(f, s1, s2);
  }

  /** A search executed without changing its page asks for page 2. */
  lemma FreshSearchRequestsPageTwo(url: string, token: string, query: string)
    ensures SearchRequest(url, token, InitialFilters(query))
         == Request(url, [("api_key", token), ("page", "2"), ("query", query), ("include_adult", "false")])
  {
  }

  /** `search("Red Vs. Blue").language("en-us").year(2003).exec()`: the
      exact request sent. */
  lemma LanguageYearSearchRequest(host: string, token: string)
    ensures SearchRequest(host + "/3/search/tv", token,
                          Apply(Apply(InitialFilters("Red Vs. Blue"), SetLanguage("en-us")), SetYear(2003)))
         == Request(host + "/3/search/tv",
                    [("api_key", token), ("page", "2"), ("query", "Red Vs. Blue"),
                     ("include_adult", "false"), ("language", "en-us"),
                     ("first_air_date_year", "2003")])
  {
    assert NatToString(2003) == "2003";
  }

  /** The TV show route handler. */
  class Tv {
    const host: string
    const token: string

    constructor (host: string, token: string)
      ensures this.host == host && this.token == token
    {
      this.host := host;
      this.token := token;
    }

    /** A search builder for `query`, on the search route, with the
        initial filters. */
    method Search(query: string) returns (s: ShowSearch)
      ensures fresh(s)
      ensures s.url == host + "/3/search/tv" && s.handler == this
      ensures s.Filters() == InitialFilters(query)
    {
      s := new ShowSearch(host + "/3/search/tv", this, query);
    }

    /** The route of one show: the host, `/3/tv/`, then the id in decimal. */
    function DetailsUrl(id: i64): (u: string)
      ensures |u| > |host| + 6
      ensures u[..|host|] == host && u[|host|..|host| + 6] == "/3/tv/"
      ensures u[|host| + 6..] == IntToString(id)
    {
      host + "/3/tv/" + IntToString(id)
    }

    function CreditsUrl(id: i64): (u: string)
      ensures u == DetailsUrl(id) + "/credits"
    {
      host + "/3/tv/" + IntToString(id) + "/credits"
    }

    function ReviewsUrl(id: i64): (u: string)
      ensures u == DetailsUrl(id) + "/reviews"
    {
      host + "/3/tv/" + IntToString(id) + "/reviews"
    }

    function RecommendationsUrl(id: i64): (u: string)
      ensures u == DetailsUrl(id) + "/recommendations"
    {
      host + "/3/tv/" + IntToString(id) + "/recommendations"
    }

    function SimilarUrl(id: i64): (u: string)
      ensures u == DetailsUrl(id) + "/similar"
    {
      host + "/3/tv/" + IntToString(id) + "/similar"
    }

    /** The popular route: under `/3/tv/`, with a last segment that is
        not an id. */
    function PopularUrl(): (u: string)
      ensures |u| > |host| + 6
      ensures u[..|host|] == host && u[|host|..|host| + 6] == "/3/tv/"
      ensures u[|host| + 6..] == "popular" && ParseInt(u[|host| + 6..]) == None
    {
      host + "/3/tv/popular"
    }

    /** The id can be read back from the route it built. */
    lemma DetailsUrlNamesId(id: i64)
      ensures ParseInt(DetailsUrl(id)[|host| + 6..]) == Some(id)
    {
      IntRoundTrip(id);
    }

    /** Different ids give different routes. */
    lemma DetailsUrlInjective(a: i64, b: i64)
      requires DetailsUrl(a) == DetailsUrl(b)
      ensures a == b
    {
      DetailsUrlNamesId(a);
      DetailsUrlNamesId(b);
    }

    /** The popular route sits under `/3/tv/` but is no show's route. */
    lemma PopularIsNoShow(id: i64)
      ensures PopularUrl()[..|host| + 6] == host + "/3/tv/"
      ensures PopularUrl() != DetailsUrl(id)
    {
    }

    /** One fetch of a show's details: only the token is sent. */
    method Details<D>(id: i64, fetch: Request -> Result<D>) returns (req: Request, res: Result<D>)
      ensures req.url == DetailsUrl(id) && req.query == [("api_key", token)]
      ensures res == fetch(req)
    {
      var url := host + "/3/tv/" + IntToString(id);
      req := Request(url, [("api_key", token)]);
      res := fetch(req);
    }

    /** One fetch of a show's credits: only the token is sent. */
    method Credits<D>(id: i64, fetch: Request -> Result<D>) returns (req: Request, res: Result<D>)
      ensures req.url == CreditsUrl(id) && req.query == [("api_key", token)]
      ensures res == fetch(req)
    {
      var url := host + "/3/tv/" + IntToString(id) + "/credits";
      req := Request(url, [("api_key", token)]);
      res := fetch(req);
    }

    method Reviews<T>(id: i64) returns (c: Cursor<T>)
      ensures fresh(c) && c.State() == Initial(ReviewsUrl(id), token)
    {
      c := new Cursor(host + "/3/tv/" + IntToString(id) + "/reviews", token);
    }

    method Recommendations<T>(id: i64) returns (c: Cursor<T>)
      ensures fresh(c) && c.State() == Initial(RecommendationsUrl(id), token)
    {
      c := new Cursor(host + "/3/tv/" + IntToString(id) + "/recommendations", token);
    }

    method Similar<T>(id: i64) returns (c: Cursor<T>)
      ensures fresh(c) && c.State() == Initial(SimilarUrl(id), token)
    {
      c := new Cursor(host + "/3/tv/" + IntToString(id) + "/similar", token);
    }

    method Popular<T>() returns (c: Cursor<T>)
      ensures fresh(c) && c.State() == Initial(PopularUrl(), token)
    {
      c := new Cursor(host + "/3/tv/popular", token);
    }
  }

  /** A show search being built. The URL and the handler are fixed; the
      setters each write one filter field. */
  class ShowSearch {
    const url: string
    const handler: Tv
    var page: u64
    var query: string
    var language: Option<string>
    var year: Option<string>
    var adult: bool

    function Filters(): ShowFilters
      reads this
    {
      ShowFilters(page, query, language, year, adult)
    }

    constructor (url: string, handler: Tv, query: string)
      ensures this.url == url && this.handler == handler
      ensures Filters() == InitialFilters(query)
    {
      this.url := url;
      this.handler := handler;
      page := 1;
      this.query := query;
      year := None;
      language := None;
      adult := false;
    }

    method Page(n: u64)
      modifies this
      ensures Filters() == Apply(old(Filters()), SetPage(n))
    {
      page := n;
    }

    method Year(y: u64)
      modifies this
      ensures Filters() == Apply(old(Filters()), SetYear(y))
    {
      year := Some(NatToString(y));
    }

    method Language(lang: string)
      modifies this
      ensures Filters() == Apply(old(Filters()), SetLanguage(lang))
    {
      language := Some(lang);
    }

    method Adult()
      modifies this
      ensures Filters() == Apply(old(Filters()), SetAdult)
    {
      adult := true;
    }

    /** Serialises the filters, builds a cursor on the search URL at the
        search's page with that query list, and advances it once. */
    method Exec<T>(fetch: Request -> Result<CursorPage<T>>) returns (req: Request, res: Result<Cursor<T>>)
      requires page < U64_MAX
      ensures req == SearchRequest(url, handler.token, Filters())
      ensures res.Ok? <==> fetch(req).Ok?
      ensures res.Err? ==> res.error == fetch(req).error
      ensures res.Ok? ==> fresh(res.value)
      ensures res.Ok? ==> res.value.State() == Advance(SearchStart(url, handler.token, Filters()), fetch).value
    {
      var adultText := BoolToString(adult);
      var params: seq<Param> := [];
      params := params + [("query", query)];
      params := params + [("include_adult", adultText)];
      params := OptParam(params, "language", language);
      params := OptParam(params, "first_air_date_year", year);
      assert params == ShowParams(Filters());
      ghost var start := SearchStart<T>(url, handler.token, Filters());
      var c := new Cursor<T>(url, handler.token);
      c.Page(page);
      c.Params(params);
      assert c.State() == start;
      req, res := c.NextPage(fetch);
    }
  }
}
