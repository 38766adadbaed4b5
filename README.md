# Flask TMDb gateway — a Dafny model

This project models the core of a small HTTP gateway in front of The Movie Database
(TMDb) API. The gateway has four read-only endpoints:

- `GET /actors/search`
- `GET /actors/<id>/filmography`
- `GET /media/search`
- `GET /media/<id>/cast`

Each endpoint checks its `page` and `per_page` arguments; the two search endpoints also
require a query and validate the query and filters against a JSON schema. Each endpoint
then sends a single GET to TMDb with the API key attached. Finally it reshapes the answer: a
birth-year post-filter on actor searches, a truncation to `per_page` on media searches, or
a local pagination of cast and crew lists. Errors are funnelled through the
`handle_tmdb_errors` decorator and the blueprint's `APIError` handler.

Modules, one per source file:

| module | file | source | flavour |
|---|---|---|---|
| `Common` | `common.dfy` | Python built-ins the code relies on | |
| `Errors` | `errors.dfy` | `utils/errors.py` | |
| `Schemas` | `schemas.dfy` | `api/schemas.py` | |
| `TMDb` | `tmdb.dfy` | `services/tmdb.py` | mixed |
| `Decorators` | `decorators.dfy` | `utils/decorators.py` | pure |
| `Routes` | `routes.dfy` | `api/routes.py` | pure |

`Common` covers Python slicing with negative and clamped bounds, `//`, `str(int)` and
`str.split(sep)[0]`.

How the pieces are modelled:

- **Upstream.** TMDb is a total function parameter `fetch: Request -> Response`. A
  `Request` is a URL and a parameter map; a `Response` is a status and a decoded body.
- **Service methods.** They are imperative, like the source:
  - `_make_request` adds the API key to the caller's own dictionary. This is the class
    `Params` and the method `MakeRequest`, which `modifies` it.
  - The birth-year post-filter is a `for` loop with `continue`, as in the source. It is
    proved equal to the recursive specification `PostFilter`.
  - Each service method is proved to return a specification function (`SearchActorsSpec`,
    `SearchMediaSpec`, `CreditsSpec`) applied to `fetch` of the exact request it sends.
- **Routes and the decorator.** They are pure functions over the converted query
  arguments (`Args`). The guard checks (`ParseX`), the handler outcome (`XHandler`) and
  the HTTP answer (`XRoute`) compose. The answer applies `handle_tmdb_errors`, then the
  blueprint's `APIError` handler, then the application's 500 handler.
- **Python semantics.** Exceptions are values of `Errors.Exception` inside an `Outcome`.
  The model keeps the following behaviours of the code:
  - a `per_page` of 0 given to a credits operation (`get_actor_filmography`,
    `get_media_cast`) raises `ZeroDivisionError`; the two searches only slice and return
    a list;
  - a birth-year bound that is a string makes the comparison raise `TypeError`;
  - a birthday whose text before the first `-` is not decimal raises `ValueError`;
  - JSON-schema `integer` accepts integral floats and `enum` compares numbers by value;
  - the language pattern, applied with `re.search`, also accepts two letters followed by
    one newline.

Two consequences of the error handling, which the route functions state exactly:

- **Guard failures answer 500, not 400.** The handlers raise `APIError(..., 400)` for a
  missing query, a bad `page` or `per_page`, or a schema violation (api/routes.py:28, 35,
  37, 56 and 92, 99, 101, 120). The blueprint handler at api/routes.py:13-20 would send
  that status, but `handle_tmdb_errors` catches every exception that is not a
  `TMDbError` first, so the client gets 500 "Internal server error" (see Findings).
- **A 400 can still appear.** A route answers 400 when TMDb itself answers 400, because
  that is a `TMDbError` and its status is kept: status 400 only if the upstream
  answered 400.

## Model

| member | source | states |
|---|---|---|
| `Common.PySliceNonNegative` | services/tmdb.py:76-77 | `xs[lo:hi]` with non-negative bounds is the ordinary slice clipped to the list, at most `hi - lo` long, and a prefix when `lo` is 0 |
| `Common.FloorDiv` | services/tmdb.py:80 | `a // b` is the quotient rounded toward negative infinity: `q*b <= a < q*b + b` for a positive divisor |
| `Common.PySlice` | services/tmdb.py:55 | `s[lo:hi]` never fails: the result is the run of `s` from the normalised `lo` up to the normalised `hi`, and empty when that end does not lie after the start |
| `Common.PySliceNegative` | services/tmdb.py:55 | negative bounds inside the list count from its end: `s[lo:hi]` is `s[len+lo:len+hi]`, empty when `hi <= lo` |
| `Common.IntString` | services/tmdb.py:26 | `str(n)`: decimal digits denoting `n` for a non-negative number, a `-` followed by decimal digits denoting `-n` for a negative one |
| `Common.DecimalString` | services/tmdb.py:66 | `str(n)` for a natural number is a non-empty run of decimal digits with no leading zero unless `n` is 0 |
| `Common.DecimalRoundTrip` | services/tmdb.py:49 | `int(str(n)) == n`: reading back the digits of a natural number gives the number |
| `Common.TextBefore` | services/tmdb.py:49 | `s.split(sep)[0]` is a prefix of `s` without `sep`, and is either all of `s` or stops right at the first `sep` |
| `Common.TextBeforeSeparator` | services/tmdb.py:49 | whatever follows the first separator does not change `split(sep)[0]` |
| `Errors.ErrorFields` | utils/errors.py:1-10 | both exception classes keep their message as `str(e)` and their status; `APIError.code` equals its `status_code`; neither class is the other |
| `Schemas.SearchSchema` | api/schemas.py:1-11 | SEARCH_SCHEMA; every accepted instance has a string `query` |
| `Schemas.ActorFilterSchema` | api/schemas.py:13-39 | ACTOR_FILTER_SCHEMA; every accepted instance has a string `query`, and an accepted `gender` is one of 0 to 3, as an int or an integral float |
| `Schemas.MediaFilterSchema` | api/schemas.py:41-68 | MEDIA_FILTER_SCHEMA; every accepted instance has a string `query`, and an accepted `language` is a string of two letters, optionally with a newline |
| `Schemas.Validate` | api/routes.py:50-56 | `validate` returns exactly when the instance conforms to the schema and raises a `ValidationError` otherwise |
| `Schemas.FilterSchemasRefineSearch` | api/schemas.py:1-68 | every instance valid for either filter schema is valid for SEARCH_SCHEMA |
| `Schemas.OnlyQueryRequired` | api/schemas.py:13-68 | with no filters, both filter schemas accept exactly the queries of 1 to 100 characters |
| `Schemas.UnknownPropertiesIgnored` | api/schemas.py:13-68 | a property no schema lists never changes the verdict |
| `Schemas.LanguagePatternExamples` | api/schemas.py:62-65 | `ab` and `Zq` match the language pattern, `ab` plus a newline matches too, and `abc`, `1a`, `a` do not |
| `Schemas.BirthYearBoundsUnrelated` | api/schemas.py:29-36 | the two birth-year bounds are checked separately, so a lower bound above the upper bound is valid |
| `TMDb.NewService` | services/tmdb.py:7-11 | construction succeeds exactly when the key is set and non-empty, and otherwise raises TMDbError with status 500 |
| `TMDb.StatusOutcome` | services/tmdb.py:21-26 | the body is returned exactly on 200; any other status raises a TMDbError carrying that status; 429 raises "Rate limit exceeded" |
| `TMDb.WithApiKey` | services/tmdb.py:17 | the parameters hold the service's key under `api_key`, and every other parameter is unchanged |
| `TMDb.Params.constructor` | services/tmdb.py:30-33 | a new parameter dictionary holds the given entries |
| `TMDb.Params.Put` | services/tmdb.py:36-39 | `params[key] = value` replaces one entry and leaves the rest |
| `TMDb.MakeRequest` | services/tmdb.py:13-26 | the caller's dictionary gains the API key in place; the outcome is the status mapping of the one GET sent to base URL + endpoint with those parameters |
| `TMDb.ActorSearchParams` | services/tmdb.py:30-39 | the actor-search parameters always hold the query and the page, and never the API key |
| `TMDb.BirthYear` | services/tmdb.py:49 | `int(birthday.split('-')[0])` returns exactly when the text before the first dash is decimal digits, and then a non-negative year; otherwise it raises ValueError |
| `TMDb.KeepActor` | services/tmdb.py:48-54 | a record is appended exactly when it is undated or its year is within every bound; only a dated record can raise, and only ValueError or TypeError; with numeric bounds it raises exactly when its year does not parse |
| `TMDb.PostFilter` | services/tmdb.py:46-54 | the post-filter loop can raise only ValueError or TypeError |
| `TMDb.Selected` | services/tmdb.py:46-54 | reference selection of the post-filter: no longer than the input, and every selected record comes from it |
| `TMDb.PostFilterStep` | services/tmdb.py:47-54 | one loop iteration either raises, skips the record, or appends it, matching the recursive specification |
| `TMDb.FilterByBirthYear` | services/tmdb.py:46-54 | the loop with its `continue`s computes the post-filter specification |
| `TMDb.SearchActorsSpec` | services/tmdb.py:41-63 | the actor search once TMDb has answered: a non-200 answer raises its TMDbError; without a birth-year filter a 200 always returns; after a 200 only ValueError or TypeError can be raised; results are never more than the upstream's and `per_page` is echoed |
| `TMDb.NewActorParams` | services/tmdb.py:30-39 | the actor-search parameters, filled in place, are the specified map |
| `TMDb.SearchActors` | services/tmdb.py:28-63 | `search_actors` returns the specification applied to the upstream's answer to the exact request it sends |
| `TMDb.MediaSearchParams` | services/tmdb.py:93-106 | the media-search parameters always hold the query and the page, and never the API key |
| `TMDb.SearchMediaSpec` | services/tmdb.py:108-117 | the media search once TMDb has answered: it returns exactly on 200, otherwise raises the status check's TMDbError; results are never more than the upstream's and `per_page` is echoed |
| `TMDb.NewMediaParams` | services/tmdb.py:93-106 | the media-search parameters, filled in place, are the specified map |
| `TMDb.SearchMedia` | services/tmdb.py:91-117 | `search_media` returns the specification applied to the upstream's answer to the exact request it sends |
| `TMDb.CreditsWindow` | services/tmdb.py:73-77 | the page of one credits list, never longer than the list |
| `TMDb.Paginate` | services/tmdb.py:73-89 | local pagination raises ZeroDivisionError exactly when `per_page` is 0, and otherwise counts both lists before slicing and echoes page and `per_page` |
| `TMDb.CreditsSpec` | services/tmdb.py:67-89 | either credits operation once TMDb has answered: it returns exactly on a 200 with a non-zero `per_page`, and a non-200 raises the status check's TMDbError |
| `TMDb.GetActorFilmography` | services/tmdb.py:65-89 | the filmography is the credits specification applied to the answer for `/person/<id>/combined_credits` |
| `TMDb.GetMediaCast` | services/tmdb.py:119-143 | the cast is the credits specification applied to the answer for `/<type>/<id>/credits` |
| `TMDb.ActorSearchParamsRenaming` | services/tmdb.py:30-39 | outgoing actor parameters: query and page always, `min_popularity` as `vote_average.gte`, `gender` as `with_gender`, nothing else |
| `TMDb.MediaSearchParamsRenaming` | services/tmdb.py:93-106 | outgoing media parameters: query and page always, `year` and `language` as is, `genre_id` as `with_genres`, `min_rating` as `vote_average.gte`, nothing else |
| `TMDb.RequestsCarryApiKey` | services/tmdb.py:13-19 | every request carries the API key; the searches also keep their query and page; credits requests carry the key alone |
| `TMDb.BirthYearOfDate` | services/tmdb.py:49 | a birthday `YYYY-...` yields year YYYY whatever follows the dash |
| `TMDb.PostFilterSucceeds` | services/tmdb.py:45-55 | with numeric bounds, the post-filter succeeds exactly when every dated record's year parses |
| `TMDb.PostFilterIsSelection` | services/tmdb.py:46-54 | a successful post-filter returns the reference selection |
| `TMDb.SelectedSound` | services/tmdb.py:48-53 | every selected record is undated or within every bound |
| `TMDb.SelectedComplete` | services/tmdb.py:48-54 | every record that passes, undated ones included, is selected |
| `TMDb.SelectedIsSubsequence` | services/tmdb.py:46-54 | the selection keeps the records' order |
| `TMDb.ActorSearchWithoutBirthYear` | services/tmdb.py:42-63 | without a birth-year filter the results are the upstream's, neither filtered nor truncated, with totals defaulting to the list length and one page |
| `TMDb.ActorSearchWithBirthYear` | services/tmdb.py:45-63 | given a 200 answer, a birth-year filter whose bounds are numbers, every dated birthday parsing as a year and `per_page >= 0`, the results are the first `per_page` records of the selection, in order, each passing the bounds, with the source's defaults for page and totals |
| `TMDb.UpstreamFailurePropagates` | services/tmdb.py:21-26 | a non-200 answer makes every operation raise the TMDbError carrying the upstream status |
| `TMDb.MediaSearchTruncates` | services/tmdb.py:108-117 | media results are the upstream's first `per_page` records; totals default to 0 results and one page |
| `TMDb.CreditsWindowIsSlice` | services/tmdb.py:73-77 | a credits page is the window `[(page-1)*per_page, page*per_page)` clipped to the list, empty past the end, at most `per_page` long |
| `TMDb.CreditsTotals` | services/tmdb.py:79-89 | totals count both lists before slicing; the page count is the ceiling of total over `per_page`, and 0 when there are no credits |
| `TMDb.PageBeyondData` | services/tmdb.py:76-80 | a page past the end is not an error: empty lists, same totals |
| `TMDb.ZeroPerPageFails` | services/tmdb.py:80 | a zero `per_page` raises ZeroDivisionError |
| `TMDb.PagesTile` | services/tmdb.py:73-77 | the first `n` pages concatenated are exactly the first `n * per_page` records |
| `TMDb.AllPagesCoverCredits` | services/tmdb.py:73-80 | pages 1 to `total_pages` return every cast and crew record once, in order |
| `TMDb.CreditsExample` | services/tmdb.py:70-89 | 25 cast and 10 crew at 10 per page make 35 results on 4 pages; page 3 holds the last five cast and no crew |
| `Decorators.HandleTmdbErrors` | utils/decorators.py:4-13 | a return passes through, a TMDbError becomes an APIError with the same message and status, and any other exception becomes APIError 500 "Internal server error" |
| `Decorators.OnlyApiErrorsEscape` | utils/decorators.py:7-12 | the wrapped call returns or raises an APIError whose status is 500 or the TMDbError's |
| `Decorators.ApiErrorsBecomeInternal` | utils/decorators.py:11-12 | an APIError raised inside the route loses its message and status and becomes a 500 |
| `Decorators.HandleTmdbErrorsIntended` | utils/decorators.py:9-12 | corrected wrapper: an APIError raised by the route is re-raised unchanged, and everything else is handled as before |
| `Routes.ParsePaging` | api/routes.py:31-37 | `page` defaults to 1 and `per_page` to 20; the paging is accepted exactly when `page >= 1` and `1 <= per_page <= 100`; `page` is checked first |
| `Routes.PagingBoundaries` | api/routes.py:31-37 | defaults give (1, 20); `per_page` 100 is accepted, 101 and 0 are rejected; `page` 0 is rejected |
| `Routes.DropNone` | api/routes.py:48 | the comprehension keeps exactly the non-None entries, with their values |
| `Routes.ActorFiltersSupplied` | api/routes.py:40-48 | the actor filter map holds exactly the supplied filters with their converted values, and no other key |
| `Routes.MediaFiltersSupplied` | api/routes.py:104-112 | the media filter map holds exactly the supplied filters with their converted values, and no other key |
| `Routes.ActorSchemaFieldwise` | api/schemas.py:13-39 | ACTOR_FILTER_SCHEMA over `{query, **filters}` holds exactly when the query has 1 to 100 characters, popularity >= 0, gender in 0..3 and both birth years >= 1800 |
| `Routes.MediaSchemaFieldwise` | api/schemas.py:41-68 | MEDIA_FILTER_SCHEMA over `{query, **filters}` holds exactly when the query has 1 to 100 characters, year >= 1900, genre >= 1, rating in [0, 10] and the language matches the pattern |
| `Routes.ParseActorSearch` | api/routes.py:26-56 | a missing or empty query fails first, then paging, then the schema; every failure is an APIError 400; success holds exactly when all checks hold, and carries the query, the filters and the paging |
| `Routes.ParseMediaSearch` | api/routes.py:88-120 | as for actors, with MEDIA_FILTER_SCHEMA; the media type defaults to `movie` and is never checked |
| `Routes.SearchActorsHandler` | api/routes.py:25-63 | the undecorated `search_actors` body: a failed check raises that check's APIError, and a return means the checks passed and TMDb answered 200 |
| `Routes.FilmographyHandler` | api/routes.py:68-82 | the undecorated `get_actor_filmography` body: a failed paging check raises its APIError, and it returns exactly when the paging is valid and TMDb answered 200 |
| `Routes.SearchMediaHandler` | api/routes.py:87-127 | the undecorated `search_media` body: a failed check raises its APIError, and it returns exactly when the checks pass and TMDb answered 200 |
| `Routes.MediaCastHandler` | api/routes.py:132-147 | the undecorated `get_media_cast` body: a failed paging check raises its APIError, and it returns exactly when the paging is valid and TMDb answered 200 |
| `Routes.HandleApiError` | api/routes.py:13-20 | the error body is `{error: true, message: str(e), code}` and the HTTP status equals the code |
| `Routes.InternalError` | app.py:39-45 | the application's 500 answer: status 500 with the body `{error: true, message: "Internal server error", code: 500}` |
| `Routes.Respond` | api/routes.py:13-20 | Flask's answer for a view outcome: 200 with the returned value; an error body exactly when the view raised, always with `error` true and `code` equal to the status; anything but an APIError gets the application's 500 |
| `Routes.Serve` | api/routes.py:24 | a decorated route answers 200 on success, keeps a TMDbError's status and message, and answers 500 "Internal server error" for everything else |
| `Routes.ServeIntended` | utils/decorators.py:9-12 | with the corrected wrapper a route's APIError is answered with its own status and message; every other answer is unchanged |
| `Routes.ServiceTmdbErrorsAreUpstream` | services/tmdb.py:21-26 | a TMDbError out of any operation is the upstream status check's, and no operation raises an APIError |
| `Routes.HandlerErrorsAreUpstream` | api/routes.py:58-62 | a TMDbError out of a handler means the checks passed and the upstream answered that error to the request sent |
| `Routes.SearchActorsRoute` | api/routes.py:22-63 | a failed check answers 500; the answer is 200 exactly when the handler returns; 400 only if the upstream answered 400; an upstream 429 answers 429 "Rate limit exceeded" |
| `Routes.FilmographyRoute` | api/routes.py:65-82 | the same four facts for the filmography route |
| `Routes.SearchMediaRoute` | api/routes.py:84-127 | the same four facts for the media search route |
| `Routes.MediaCastRoute` | api/routes.py:129-147 | the same four facts for the cast route |
| `Routes.ValidationPrecedesUpstream` | api/routes.py:50-62 | when a check fails, the answer does not depend on the upstream at all |
| `Routes.CreditsRoutesNeverDivideByZero` | api/routes.py:72-75 | after the paging checks the credits handlers can never raise ZeroDivisionError |
| `Routes.MediaTypeUnchecked` | api/routes.py:89 | whatever `type` holds is used in the upstream URL of both media routes |
| `Routes.EmptyQueryAnswers500` | api/routes.py:24-28 | an empty query raises APIError 400 in the handler, but both search routes answer 500 "Internal server error" |
| `Routes.PerPageTooLargeAnswers500` | api/routes.py:67-75 | `per_page=101` raises APIError 400 in the handler, but the filmography route answers 500 |
| `Routes.IntendedSearchActorsAnswers400` | api/routes.py:24-56 | with the corrected wrapper each failed actor-search check answers 400 with its own message, and every other answer is unchanged |
| `Routes.IntendedSearchMediaAnswers400` | api/routes.py:86-120 | the same for media search |
| `Routes.IntendedCreditsAnswers400` | api/routes.py:67-75 | the same for the two credits routes |

## Left out

- **HTTP and JSON transport.** The `requests.get` call and decoding of the response
  body are not modelled. The upstream is the `fetch` parameter, and its body is already
  decoded into `Body`. Because `fetch` is total, the model has no path where
  `requests.get` raises (connection error, timeout) or `response.json()` fails on a 200
  (services/tmdb.py:19, 22). In the code those exceptions are not `TMDbError`s, so the
  decorator answers 500; the route clause "200 exactly when the handler returns" is
  stated only for answers that arrive and decode.
- **Body field types.** Only the fields the code reads are kept in `Body` and `Record`.
  A field of the wrong JSON type (a `results` that is not a list, a `birthday` or bound
  of another type) is not represented.
- **Environment variable.** `TMDB_API_KEY` is read from the environment; the model
  takes its value as the argument of `NewService`.
- **Import-time service construction.** The service object is built at import time in
  api/routes.py:11. The routes take a constructed `Service`, so a constructor failure
  at import time is outside the route functions.
- **Framework wiring.** `app.py` (app factory, blueprint registration, 404 handler,
  health route) and `config.py` are left out. The only part used is the application's
  500 body, as `Routes.InternalError`.
- **Caching and rate limiting.** `cache.memoize` is time-based shared state; the model
  treats each cached call as a direct call to the service. `limiter.limit` is time-based
  and keyed by client address, so it is left out.
- **Query-argument conversion.** `request.args.get(..., type=int/float)` is left out
  because it is Flask's parsing: `Args` holds its results, with None for an argument
  that is absent or does not convert. Unknown query arguments are not represented,
  because the routes never read them.
- **Full `int()` semantics.** Python's `int()` also accepts surrounding whitespace, a
  sign, underscores and non-ASCII digits. The model accepts ASCII digits only and
  raises ValueError for anything else.
- **`float` arguments.** Floats are modelled as reals. NaN, infinities and rounding are
  not represented.
- **Let-through error messages.** The text of a jsonschema `ValidationError`, and of
  Python's ValueError and TypeError, is a placeholder. Those messages never reach the
  client, because the decorator replaces them with "Internal server error".
- **`filters=None`.** The service's default argument is not modelled; the routes
  always pass a dictionary. An empty dictionary behaves like None in every branch.
- **`jsonify`.** Serialisation of the answer's JSON is not modelled. `Payload.Result`
  carries the dictionary the handler returns.

## Findings

| source | as written | input that shows it | evidently intended | confidence | as-written member | corrected member |
|---|---|---|---|---|---|---|
| utils/decorators.py:11-12 | `except Exception` also catches the `APIError(..., 400)` that each route raises for a bad argument, since `APIError` is not a `TMDbError`; the client gets 500 "Internal server error" | `GET /api/v1/actors/search` with `query` empty (`Routes.EmptyQueryAnswers500`), or `GET /api/v1/actors/1/filmography?per_page=101` (`Routes.PerPageTooLargeAnswers500`) | the client gets 400 with the route's own message, as the error body and handler at api/routes.py:13-20 are built for | high, not executed | `Routes.EmptyQueryAnswers500` | `Decorators.HandleTmdbErrorsIntended` |

The corrected wrapper `Decorators.HandleTmdbErrorsIntended` re-raises an `APIError`
unchanged. Answers under it are defined by `Routes.ServeIntended`. The lemmas
`Routes.IntendedSearchActorsAnswers400`, `Routes.IntendedSearchMediaAnswers400` and
`Routes.IntendedCreditsAnswers400` prove two things for every route:

- every failed check answers 400 with its own message;
- every other answer is unchanged.

The route functions `Routes.XRoute` model the deployed behaviour, so they keep the
wrapper as written.
