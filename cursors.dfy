/** The pagination cursor: the page envelope the API answers with, the
    cursor's state as a value together with the functions that say what one
    advance does to it, and the `Cursor` object whose builder methods and
    `NextPage` update that state in place. */
module Cursors {
  import opened Wire

  /** The decoded list-endpoint envelope. */
  datatype CursorPage<T> = CursorPage(page: u64, results: seq<T>, totalPages: i64, totalResults: i64)

  /** Everything a cursor holds, as a value. */
  datatype CursorState<T> = CursorState(
    url: string,
    token: string,
    page: u64,
    params: seq<Param>,
    results: seq<T>,
    totalPages: i64,
    totalResults: i64)

  /** The state `Cursor::new` builds: page 0, nothing fetched, no extra
      parameters. */
  function Initial<T>(url: string, token: string): (s: CursorState<T>)
    ensures s.url == url && s.token == token && s.page == 0
    ensures s.params == [] && s.results == [] && s.totalPages == 0 && s.totalResults == 0
    ensures NextRequest(s) == Request(url, [("api_key", token), ("page", "1")])
  {
    CursorState(url, token, 0, [], [], 0, 0)
  }

  /** The request that advancing from `s` sends: the token, then the
      incremented page, then the cursor's parameters, against its URL. */
  function NextRequest<T>(s: CursorState<T>): (req: Request)
    requires s.page < U64_MAX
    ensures req.url == s.url && |req.query| == 2 + |s.params|
    ensures req.query[0] == ("api_key", s.token)
    ensures req.query[1].0 == "page" && ParseNat(req.query[1].1) == Some(s.page + 1)
    ensures req.query[2..] == s.params
  {
    NatRoundTrip(s.page + 1);
    Request(s.url, [("api_key", s.token), ("page", NatToString(s.page + 1))] + s.params)
  }

  /** One advance, given how the transport answers: the page counter moves
      on by one, the envelope's results and totals replace the held ones,
      and a failure yields the error and no cursor. */
  function Advance<T>(s: CursorState<T>, fetch: Request -> Result<CursorPage<T>>): (r: Result<CursorState<T>>)
    requires s.page < U64_MAX
    ensures r.Err? <==> fetch(NextRequest(s)).Err?
    ensures r.Err? ==> r.error == fetch(NextRequest(s)).error
    ensures r.Ok? ==> var env := fetch(NextRequest(s)).value;
      && r.value.url == s.url && r.value.token == s.token && r.value.params == s.params
      && r.value.page == s.page + 1
      && r.value.results == env.results
      && r.value.totalPages == env.totalPages
      && r.value.totalResults == env.totalResults
  {
    match fetch(NextRequest(s))
    case Err(e) => Err(e)
    case Ok(env) =>
      Ok(s.(page := s.page + 1, results := env.results,
            totalPages := env.totalPages, totalResults := env.totalResults))
  }

  /** `k` advances in a row, stopping at the first failure. */
  function Run<T>(s: CursorState<T>, fetch: Request -> Result<CursorPage<T>>, k: nat): (r: Result<CursorState<T>>)
    requires s.page + k <= U64_MAX
    ensures k == 0 ==> r == Ok(s)
    ensures r.Ok? ==> r.value.page == s.page + k
    decreases k
  {
    if k == 0 then Ok(s)
    else
      match Advance(s, fetch)
      case Err(e) => Err(e)
      case Ok(s') => Run(s', fetch, k - 1)
  }

  /** The page number the envelope reports plays no part in the new state:
      two answers that differ only there lead to the same cursor. */
  lemma EnvelopePageIgnored<T>(s: CursorState<T>, env: CursorPage<T>, p: u64)
    requires s.page < U64_MAX
    ensures Advance(s, _ => Ok(env)) == Advance(s, _ => Ok(env.(page := p)))
    ensures Advance(s, _ => Ok(env)).value.page == s.page + 1
  {
  }

  /** A run of `k` successful advances moves the page counter on by
      exactly `k` and leaves URL, token and parameters as they were. */
  lemma {:induction false} RunAdvancesPage<T>(s: CursorState<T>, fetch: Request -> Result<CursorPage<T>>, k: nat)
    requires s.page + k <= U64_MAX
    ensures Run(s, fetch, k).Ok? ==>
      && Run(s, fetch, k).value.page == s.page + k
      && Run(s, fetch, k).value.url == s.url
      && Run(s, fetch, k).value.token == s.token
      && Run(s, fetch, k).value.params == s.params
    decreases k
  {
    if k > 0 {
      var a := Advance(s, fetch);
      if a.Ok? {
        RunAdvancesPage(a.value, fetch, k - 1);
      }
    }
  }

  /** `k` successful advances of a fresh cursor leave it on page `k`. */
  lemma FreshRunPage<T>(url: string, token: string, fetch: Request -> Result<CursorPage<T>>, k: nat)
    requires k <= U64_MAX
    ensures Run(Initial<T>(url, token), fetch, k).Ok? ==>
      && Run(Initial<T>(url, token), fetch, k).value.page == k
      && Run(Initial<T>(url, token), fetch, k).value.params == []
  {
    RunAdvancesPage(Initial<T>(url, token), fetch, k);
  }

  /** A fresh cursor's first advance asks for page 1 and its second for
      page 2, after which the cursor is on page 2. */
  lemma FreshCursorFirstPages<T>(url: string, token: string, fetch: Request -> Result<CursorPage<T>>)
    ensures NextRequest(Initial<T>(url, token)) == Request(url, [("api_key", token), ("page", "1")])
    ensures Advance(Initial<T>(url, token), fetch).Ok? ==>
      && var s1 := Advance(Initial<T>(url, token), fetch).value;
      && NextRequest(s1) == Request(url, [("api_key", token), ("page", "2")])
      && (Advance(s1, fetch).Ok? ==> Advance(s1, fetch).value.page == 2)
  {
  }

  /** The cursor object. `Page` and `Params` are the builder setters and
      `NextPage` performs one advance through `fetch`. */
  class Cursor<T> {
    var url: string
    var token: string
    var page: u64
    var params: seq<Param>
    var results: seq<T>
    var totalPages: i64
    var totalResults: i64

    function State(): CursorState<T>
      reads this
    {
      CursorState(url, token, page, params, results, totalPages, totalResults)
    }

    constructor (url: string, token: string)
      ensures this.url == url && this.token == token
      ensures page == 0 && params == [] && results == []
      ensures totalPages == 0 && totalResults == 0
      ensures State() == Initial(url, token)
    {
      this.url := url;
      this.token := token;
      page := 0;
      params := [];
      results := [];
      totalPages := 0;
      totalResults := 0;
    }

    /** Sets the page counter to exactly `n`. */
    method Page(n: u64)
      modifies this
      ensures State() == old(State()).(page := n)
    {
      page := n;
    }

    /** Replaces the extra parameters: the previous list is discarded. */
    method Params(ps: seq<Param>)
      modifies this
      ensures State() == old(State()).(params := ps)
    {
      params := ps;
    }

    /** Increments the page, sends `req` and, when `fetch` answers with an
        envelope, takes over its results and totals. On failure the error
        is returned and no cursor. */
    method NextPage(fetch: Request -> Result<CursorPage<T>>) returns (req: Request, res: Result<Cursor<T>>)
      requires page < U64_MAX
      modifies this
      ensures req == NextRequest(old(State()))
      ensures res.Ok? <==> fetch(req).Ok?
      ensures res.Err? ==> res.error == fetch(req).error
      ensures res.Err? ==> State() == old(State()).(page := old(page) + 1)
      ensures res.Ok? ==> res.value == this && State() == Advance(old(State()), fetch).value
    {
      page := page + 1;
      req := Request(url, [("api_key", token)] + [("page", NatToString(page))] + params);
      var data := fetch(req);
      match data {
        case Err(e) =>
          res := Err(e);
        case Ok(env) =>
          results := env.results;
          totalPages := env.totalPages;
          totalResults := env.totalResults;
          res := Ok(this);
      }
    }
  }
}
