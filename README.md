# tmdb-cli request shaping and pagination, in Dafny

This project models the request-building and pagination core of `tmdb-cli`, a
Rust client for The Movie Database (TMDB) web API. It covers four parts:

- the pagination `Cursor<T>` and the `CursorPage<T>` envelope it is filled
  from (`src/libs/handlers/cursors.rs`);
- the `opt_param!` macro (`src/libs/handlers/helpers.rs`);
- the `Movies` handler and the `MovieSearch` builder (`src/libs/handlers/movies.rs`);
- the `Tv` handler and the `ShowSearch` builder (`src/libs/handlers/tv.rs`).

The network is a parameter. Every operation that sends a GET takes a total
function `fetch: Request -> Result<X>`. It stands for sending the request,
checking the status and decoding the body. The operation returns the
`Request` it sends: the URL and the ordered query list.

Files and modules:

- `wire.dfy` (`Wire`): `u64`/`i64` as bounded integers, `Option`, `Result`
  and the error kinds. It also holds the request descriptor and the decimal
  and boolean rendering that `to_string` performs, with parsers that read the
  text back.
- `helpers.dfy` (`Helpers`): `opt_param!` as `OptParam`, and `Lookup`, which
  reads a query list back by key.
- `cursors.dfy` (`Cursors`): the cursor state as a value (`CursorState`), one
  advance (`NextRequest`, `Advance`), `k` advances (`Run`), and the class
  `Cursor`. Its builder methods and `NextPage` update the fields in place and
  are proved against those functions.
- `movies.dfy` (`MovieHandlers`) and `tv.dfy` (`TvHandlers`): the handler
  classes with their URL builders, single fetches and cursor routes. They also
  hold the search builder classes, whose setters are proved against `Apply`
  and whose `Exec` is proved against `MovieParams`/`ShowParams` and `Advance`.

Rust's builder methods take `mut self` and return `Self`. Here they are
methods that change the object in place (`modifies this`).

## Behaviour worth knowing

The model does what the code does, including where the code's own comments
and doc examples say otherwise:

- `Cursor::new` starts at page 0 (`cursors.rs:52`), so the first
  `next_page` asks for page 1.
- `Cursor::params` replaces the parameter list; it does not append to it
  (`cursors.rs:65-68`).
- `Cursor` has no `exec` method and no `param` method. The doc examples of
  `reviews` and `popular` call them all the same (`movies.rs:269`,
  `movies.rs:352-353`, `tv.rs:242`, `tv.rs:325-326`).
- `search` sets the page to 1, and its comment says this is to start at
  page 1 (`movies.rs:182`, `tv.rs:157`). But `exec` calls `next_page`,
  which increments before sending, so a search run without `page(..)` asks
  for page 2 (`FreshSearchRequestsPageTwo`, `YearSearchRequest`).
- A fresh cursor from `popular()` asks for page 1 on its first `next_page`
  and page 2 on its second (`FreshCursorFirstPages`).
- `next_page` consumes the cursor. On failure the caller gets the error and
  no cursor back.
- The movie search sends the adult flag under the key `adult`. The TV search
  sends it under `include_adult`, and sends its year under
  `first_air_date_year` (`tv.rs:52-55`).
- `tv.rs` is not declared in `handlers/mod.rs`, so the TV handler is not part
  of the compiled crate. It is modelled all the same.

## Model

| member | source | states |
|---|---|---|
| `Wire.NatToString` | src/libs/handlers/movies.rs:95 | the decimal text of a `u64` is non-empty, all digits and has no leading zero |
| `Wire.IntToString` | src/libs/handlers/movies.rs:216 | the decimal text of an `i64` id is non-empty and starts with `-` exactly when the id is negative |
| `Wire.BoolToString` | src/libs/handlers/movies.rs:51 | `bool::to_string` text reads back as the same flag (`"true"`/`"false"`) |
| `Wire.NatRoundTrip` | src/libs/handlers/movies.rs:95 | parsing the decimal text of `n` gives back `n` |
| `Wire.IntRoundTrip` | src/libs/handlers/movies.rs:216 | parsing the decimal text of a signed id gives back the id |
| `Wire.IntToStringInjective` | src/libs/handlers/movies.rs:216 | two ids with the same decimal text are equal |
| `Helpers.OptParam` | src/libs/handlers/helpers.rs:12-18 | earlier entries are kept in order; `Some(v)` adds exactly one pair `(name, v)` at the end; `None` adds nothing; the length grows by one exactly when the option is present |
| `Helpers.LookupOptParam` | src/libs/handlers/helpers.rs:14-15 | after `opt_param!`, an earlier entry still wins a lookup by key; otherwise the pushed value is found under its name, and nothing is found when the option was `None` |
| `Cursors.NextRequest` | src/libs/handlers/cursors.rs:72-77 | the request goes to the cursor's URL with the query list `api_key=token`, then `page` reading back as old page + 1, then exactly the cursor's params, in that order |
| `Cursors.Initial` | src/libs/handlers/cursors.rs:48-57 | a new cursor keeps the URL and token it is given, is on page 0 with no params, no results and zero totals, and its first advance sends exactly `api_key=token`, `page=1` |
| `Cursors.Run` | src/libs/handlers/cursors.rs:70-85 | zero advances leave the state as it is; `k` advances that all succeed leave the page at old page + `k` |
| `Cursors.Advance` | src/libs/handlers/cursors.rs:70-85 | on success the results and both totals are the envelope's, verbatim and in order; the page becomes old page + 1; URL, token and params are unchanged. On failure the same error comes back and no state |
| `Cursors.EnvelopePageIgnored` | src/libs/handlers/cursors.rs:79-83 | two envelopes that differ only in their own `page` field give the same new cursor, whose page is the old page + 1 |
| `Cursors.RunAdvancesPage` | src/libs/handlers/cursors.rs:72-84 | `k` successful advances in a row move the page by exactly `k` and keep URL, token and params |
| `Cursors.FreshRunPage` | src/libs/handlers/cursors.rs:48-72 | `k` successful advances of a cursor fresh from `new` leave it on page `k`, with no params |
| `Cursors.FreshCursorFirstPages` | src/libs/handlers/cursors.rs:52-77 | a fresh cursor's first request carries `page=1`, its second `page=2`, and after two successes the cursor is on page 2 |
| `Cursors.Cursor.constructor` | src/libs/handlers/cursors.rs:41-57 | URL and token are stored unchanged; page 0, no params, no results, both totals 0 |
| `Cursors.Cursor.Page` | src/libs/handlers/cursors.rs:60-63 | the page becomes exactly `n`; every other field is unchanged |
| `Cursors.Cursor.Params` | src/libs/handlers/cursors.rs:65-68 | the params become exactly the given list, and the previous ones are discarded; every other field is unchanged |
| `Cursors.Cursor.NextPage` | src/libs/handlers/cursors.rs:70-85 | sends `NextRequest` of the old state; succeeds exactly when the transport does. On success the new state is `Advance` of the old state and the cursor returned is the same object. On failure it returns the transport's error, with only the page moved on |
| `MovieHandlers.Apply` | src/libs/handlers/movies.rs:74-123 | each setter writes its own field and leaves every other field and the query alone; `year`/`primary_year` store the decimal text of the argument; `adult` sets the flag |
| `MovieHandlers.SettersCommute` | src/libs/handlers/movies.rs:84-117 | two setters of different fields give the same search in either order |
| `MovieHandlers.SetterIdempotent` | src/libs/handlers/movies.rs:120-123 | applying a setter twice is the same as once (so `adult()` is idempotent) |
| `MovieHandlers.MovieParams` | src/libs/handlers/movies.rs:51-60 | the list starts with `("query", q)` and `("adult", "true"/"false")`; its keys are strictly in the order query, adult, region, year, primary_year, language, so none repeats and nothing else appears |
| `MovieHandlers.MovieParamsLookup` | src/libs/handlers/movies.rs:51-60 | reading the list back by key gives the search's fields: region, year, primary_year and language are present exactly when set, with their values |
| `MovieHandlers.InitialFilters` | src/libs/handlers/movies.rs:179-190 | a new search is on page 1 with the given query, and its query list is just `query` and `adult=false` |
| `MovieHandlers.SearchRequest` | src/libs/handlers/movies.rs:62-65 | the search request goes to the search URL with `api_key=token` first, then `page` reading back as the search page + 1, then exactly the filters' query list |
| `MovieHandlers.SearchStart` | src/libs/handlers/movies.rs:62-65 | `Cursor::new(url, token).page(p).params(list)` is on page `p`, and its next request is the search request: token, page `p + 1`, then the filter list |
| `MovieHandlers.ExecOrderIndependent` | src/libs/handlers/movies.rs:57-65 | two setters of different fields, chained in either order, make `exec` send the same request |
| `MovieHandlers.FreshSearchRequestsPageTwo` | src/libs/handlers/movies.rs:62-65 | a search that was never given a page sends `page=2`, then `query` and `adult=false`, and nothing else besides the token |
| `MovieHandlers.YearSearchRequest` | src/libs/handlers/movies.rs:41-44 | `search("13 Hours").year(2016).exec()` sends exactly token, `page=2`, `query=13 Hours`, `adult=false`, `year=2016` to `host/3/search/movie` |
| `MovieHandlers.Movies.constructor` | src/libs/handlers/movies.rs:144-153 | host and token are stored unchanged |
| `MovieHandlers.Movies.Search` | src/libs/handlers/movies.rs:178-191 | a new builder on `host/3/search/movie`, bound to this handler, on page 1 with the query and no filters, adult off |
| `MovieHandlers.Movies.DetailsUrl` | src/libs/handlers/movies.rs:216 | the route is the host, then `/3/movie/`, then the decimal id |
| `MovieHandlers.Movies.CreditsUrl` | src/libs/handlers/movies.rs:246 | the credits route is the movie's route followed by `/credits` |
| `MovieHandlers.Movies.ReviewsUrl` | src/libs/handlers/movies.rs:275 | the reviews route is the movie's route followed by `/reviews` |
| `MovieHandlers.Movies.RecommendationsUrl` | src/libs/handlers/movies.rs:302 | the recommendations route is the movie's route followed by `/recommendations` |
| `MovieHandlers.Movies.SimilarUrl` | src/libs/handlers/movies.rs:331 | the similar route is the movie's route followed by `/similar` |
| `MovieHandlers.Movies.DetailsUrlNamesId` | src/libs/handlers/movies.rs:216 | the id can be parsed back from the last segment of the movie's route |
| `MovieHandlers.Movies.DetailsUrlInjective` | src/libs/handlers/movies.rs:216 | different ids give different movie routes |
| `MovieHandlers.Movies.PopularIsNoMovie` | src/libs/handlers/movies.rs:360 | the popular route lies under `host/3/movie/` and differs from every movie's route |
| `MovieHandlers.Movies.PopularUrl` | src/libs/handlers/movies.rs:360 | the popular route is the host, then `/3/movie/`, then `popular`, a segment that does not parse as an id |
| `MovieHandlers.Movies.Details` | src/libs/handlers/movies.rs:214-221 | one GET on the movie's route with `api_key` as its only query pair; its result is what the transport answers |
| `MovieHandlers.Movies.Credits` | src/libs/handlers/movies.rs:244-251 | one GET on the credits route with `api_key` as its only query pair; its result is what the transport answers |
| `MovieHandlers.Movies.Reviews` | src/libs/handlers/movies.rs:273-278 | a fresh cursor (page 0, nothing fetched) on the reviews route with the handler's token |
| `MovieHandlers.Movies.Recommendations` | src/libs/handlers/movies.rs:300-305 | a fresh cursor on the recommendations route |
| `MovieHandlers.Movies.Similar` | src/libs/handlers/movies.rs:329-334 | a fresh cursor on the similar route |
| `MovieHandlers.Movies.Popular` | src/libs/handlers/movies.rs:358-362 | a fresh cursor on `host/3/movie/popular` |
| `MovieHandlers.MovieSearch.constructor` | src/libs/handlers/movies.rs:179-190 | URL and handler are stored; page 1, the query, no filters, adult off |
| `MovieHandlers.MovieSearch.Page` | src/libs/handlers/movies.rs:74-77 | the new filters are `Apply` of the old ones with the page setter |
| `MovieHandlers.MovieSearch.Region` | src/libs/handlers/movies.rs:84-87 | the new filters are `Apply` of the old ones with the region setter |
| `MovieHandlers.MovieSearch.Year` | src/libs/handlers/movies.rs:94-97 | the new filters are `Apply` of the old ones with the year setter |
| `MovieHandlers.MovieSearch.PrimaryYear` | src/libs/handlers/movies.rs:104-107 | the new filters are `Apply` of the old ones with the primary-year setter |
| `MovieHandlers.MovieSearch.Language` | src/libs/handlers/movies.rs:114-117 | the new filters are `Apply` of the old ones with the language setter |
| `MovieHandlers.MovieSearch.Adult` | src/libs/handlers/movies.rs:120-123 | the new filters are `Apply` of the old ones with the adult setter |
| `MovieHandlers.MovieSearch.Exec` | src/libs/handlers/movies.rs:49-67 | sends the search request for the current filters (page + 1). It succeeds exactly when the transport does, and then returns a new cursor whose state is one `Advance` from `SearchStart`. Otherwise it returns the transport's error |
| `TvHandlers.Apply` | src/libs/handlers/tv.rs:69-98 | each setter writes its own field and leaves every other field and the query alone; `year` stores the decimal text; `adult` sets the flag |
| `TvHandlers.SettersCommute` | src/libs/handlers/tv.rs:69-92 | two setters of different fields give the same search in either order |
| `TvHandlers.SetterIdempotent` | src/libs/handlers/tv.rs:95-98 | applying a setter twice is the same as once (so `adult()` is idempotent) |
| `TvHandlers.ShowParams` | src/libs/handlers/tv.rs:48-55 | the list starts with `("query", q)` and `("include_adult", "true"/"false")`; its keys are strictly in the order query, include_adult, language, first_air_date_year |
| `TvHandlers.ShowParamsLookup` | src/libs/handlers/tv.rs:48-55 | reading the list back by key gives the search's fields: language is present exactly when set, and the year exactly when set, under `first_air_date_year` |
| `TvHandlers.InitialFilters` | src/libs/handlers/tv.rs:154-163 | a new search is on page 1 with the given query, and its query list is just `query` and `include_adult=false` |
| `TvHandlers.SearchRequest` | src/libs/handlers/tv.rs:57-61 | the search request goes to the search URL with `api_key=token` first, then `page` reading back as the search page + 1, then exactly the filters' query list |
| `TvHandlers.SearchStart` | src/libs/handlers/tv.rs:57-61 | `Cursor::new(url, token).page(p).params(list)` is on page `p`, and its next request is token, page `p + 1`, then the filter list |
| `TvHandlers.ExecOrderIndependent` | src/libs/handlers/tv.rs:54-61 | two setters of different fields, chained in either order, make `exec` send the same request |
| `TvHandlers.FreshSearchRequestsPageTwo` | src/libs/handlers/tv.rs:57-61 | a search that was never given a page sends `page=2`, then `query` and `include_adult=false`, and nothing else besides the token |
| `TvHandlers.LanguageYearSearchRequest` | src/libs/handlers/tv.rs:37-41 | `search("Red Vs. Blue").language("en-us").year(2003).exec()` sends exactly token, `page=2`, query, `include_adult=false`, `language=en-us`, `first_air_date_year=2003` |
| `TvHandlers.Tv.constructor` | src/libs/handlers/tv.rs:119-128 | host and token are stored unchanged |
| `TvHandlers.Tv.Search` | src/libs/handlers/tv.rs:153-164 | a new builder on `host/3/search/tv`, bound to this handler, on page 1 with the query, no year, no language, adult off |
| `TvHandlers.Tv.DetailsUrl` | src/libs/handlers/tv.rs:189 | the route is the host, then `/3/tv/`, then the decimal id |
| `TvHandlers.Tv.CreditsUrl` | src/libs/handlers/tv.rs:219 | the credits route is the show's route followed by `/credits` |
| `TvHandlers.Tv.ReviewsUrl` | src/libs/handlers/tv.rs:248 | the reviews route is the show's route followed by `/reviews` |
| `TvHandlers.Tv.RecommendationsUrl` | src/libs/handlers/tv.rs:275 | the recommendations route is the show's route followed by `/recommendations` |
| `TvHandlers.Tv.SimilarUrl` | src/libs/handlers/tv.rs:304 | the similar route is the show's route followed by `/similar` |
| `TvHandlers.Tv.DetailsUrlNamesId` | src/libs/handlers/tv.rs:189 | the id can be parsed back from the last segment of the show's route |
| `TvHandlers.Tv.DetailsUrlInjective` | src/libs/handlers/tv.rs:189 | different ids give different show routes |
| `TvHandlers.Tv.PopularIsNoShow` | src/libs/handlers/tv.rs:333 | the popular route lies under `host/3/tv/` and differs from every show's route |
| `TvHandlers.Tv.PopularUrl` | src/libs/handlers/tv.rs:333 | the popular route is the host, then `/3/tv/`, then `popular`, a segment that does not parse as an id |
| `TvHandlers.Tv.Details` | src/libs/handlers/tv.rs:187-194 | one GET on the show's route with `api_key` as its only query pair; its result is what the transport answers |
| `TvHandlers.Tv.Credits` | src/libs/handlers/tv.rs:217-224 | one GET on the credits route with `api_key` as its only query pair; its result is what the transport answers |
| `TvHandlers.Tv.Reviews` | src/libs/handlers/tv.rs:246-251 | a fresh cursor (page 0, nothing fetched) on the reviews route with the handler's token |
| `TvHandlers.Tv.Recommendations` | src/libs/handlers/tv.rs:273-278 | a fresh cursor on the recommendations route |
| `TvHandlers.Tv.Similar` | src/libs/handlers/tv.rs:302-307 | a fresh cursor on the similar route |
| `TvHandlers.Tv.Popular` | src/libs/handlers/tv.rs:331-335 | a fresh cursor on `host/3/tv/popular` |
| `TvHandlers.ShowSearch.constructor` | src/libs/handlers/tv.rs:154-163 | URL and handler are stored; page 1, the query, no year, no language, adult off |
| `TvHandlers.ShowSearch.Page` | src/libs/handlers/tv.rs:69-72 | the new filters are `Apply` of the old ones with the page setter |
| `TvHandlers.ShowSearch.Year` | src/libs/handlers/tv.rs:79-82 | the new filters are `Apply` of the old ones with the year setter |
| `TvHandlers.ShowSearch.Language` | src/libs/handlers/tv.rs:89-92 | the new filters are `Apply` of the old ones with the language setter |
| `TvHandlers.ShowSearch.Adult` | src/libs/handlers/tv.rs:95-98 | the new filters are `Apply` of the old ones with the adult setter |
| `TvHandlers.ShowSearch.Exec` | src/libs/handlers/tv.rs:46-62 | sends the search request for the current filters (page + 1). It succeeds exactly when the transport does, and then returns a new cursor whose state is one `Advance` from `SearchStart`. Otherwise it returns the transport's error |

## Left out

- HTTP transport (`reqwest` `get`/`query`/`execute`, the `get!` macro and
  `error_for_status`, `src/libs/handlers/core.rs`): foreign library calls.
  They are replaced by the `fetch` parameter. Build, transport, status and
  decode failures are the error kinds it may answer with.
- URL encoding of the query: the model keeps the query as an ordered list of
  key/value pairs and does not escape them.
- The `client!` builder and its 30-second timeout, and the `client` fields of
  `Cursor`, `Movies` and `Tv`: library construction and timing.
- JSON decoding with serde and the record types in `src/libs/models/`: data
  shapes without behaviour. Item and record types are type parameters (`T`,
  `D`).
- `async`/`await` and `#[syncwrap::wrap]`: runtime plumbing. Operations are
  sequential.
- `Client::new` and `Client::from_env` (`src/libs/handlers/client.rs`): wiring,
  the default host and reading an environment variable.
- Cursors.Cursor.NextPage: requires `page < U64_MAX`. `self.page += 1`
  panics on overflow in debug builds and wraps to 0 in release builds; the
  wrap is not modelled.
- Cursors.Cursor.NextPage: after a failure the model's object still exists,
  with only its page moved on. In the source the cursor was moved into
  `next_page` and is dropped, so no caller can observe that state.
- MovieHandlers.MovieSearch.Exec: requires `page < U64_MAX`, for the same
  overflow in the cursor's increment.
- TvHandlers.ShowSearch.Exec: requires `page < U64_MAX`, for the same
  overflow in the cursor's increment.
- Helpers.OptParam: pushes an owned `(String, String)` pair. The macro as
  written pushes borrowed `&str`/`&String` pairs, which is a type-level
  detail with no effect on the values sent.
- Borrowing: `MovieSearch` and `ShowSearch` hold a reference to their
  handler. Here it is an object reference to the handler, whose host and
  token never change.
