/** services/tmdb.py: the upstream client `TMDbService`. The HTTP call itself is the
    parameter `fetch`, a function from the request the service sends (URL and query
    parameters) to the upstream answer (status code and decoded body). */
module TMDb {
  import opened Common
  import opened Errors

  const BaseUrl := "https://api.themoviedb.org/3"
  const MissingKeyMessage := "TMDB API key not found in environment variables"
  const RateLimitMessage := "Rate limit exceeded"
  const DivisionByZeroMessage := "integer division or modulo by zero"

  /** A constructed `TMDbService`: its base URL and its API key. */
  datatype Service = Service(baseUrl: string, apiKey: string)

  /** One GET request: the full URL and its query parameters. */
  datatype Request = Request(url: string, params: map<string, Json>)

  /** An upstream person, movie or credit record. Only `birthday` is ever inspected;
      everything else passes through untouched. */
  datatype Record = Record(birthday: Option<string>, attributes: map<string, Json>)

  /** The decoded upstream body; a None field is a key the body does not have. */
  datatype Body = Body(
    results: Option<seq<Record>>,
    cast: Option<seq<Record>>,
    crew: Option<seq<Record>>,
    totalResults: Option<int>,
    page: Option<int>,
    totalPages: Option<int>)

  datatype Response = Response(status: int, body: Body)

  /** The dictionary `search_actors` and `search_media` return. */
  datatype SearchPage = SearchPage(
    results: seq<Record>, totalResults: int, page: int, totalPages: int, perPage: int)

  /** The dictionary `get_actor_filmography` and `get_media_cast` return. */
  datatype CreditsPage = CreditsPage(
    cast: seq<Record>, crew: seq<Record>, page: int, perPage: int,
    totalPages: int, totalResults: int)

  // ---------------------------------------------------------------------------
  // Construction and `_make_request`

  /** `TMDbService()` given the value of `TMDB_API_KEY` (None when unset). */
  function NewService(apiKey: Option<string>): (r: Outcome<Service>)
    ensures r.Return? <==> apiKey.Some? && apiKey.value != ""
    ensures r.Return? ==> r.value == Service(BaseUrl, apiKey.value)
    ensures r.Raise? ==> r.exc == TMDbError(MissingKeyMessage, 500)
  {
    if apiKey.None? || apiKey.value == "" then Raise(TMDbError(MissingKeyMessage, 500))
    else Return(Service(BaseUrl, apiKey.value))
  }

  /** How `_make_request` turns the upstream answer into a return or an exception. */
  function StatusOutcome(resp: Response): (r: Outcome<Body>)
    ensures r.Return? <==> resp.status == 200
    ensures r.Return? ==> r.value == resp.body
    ensures r.Raise? ==> r.exc.TMDbError? && r.exc.statusCode == resp.status
    ensures resp.status == 429 ==> r == Raise(TMDbError(RateLimitMessage, 429))
  {
    if resp.status == 200 then Return(resp.body)
    else if resp.status == 429 then Raise(TMDbError(RateLimitMessage, 429))
    else Raise(TMDbError("TMDb API error: " + IntString(resp.status), resp.status))
  }

  /** The parameters after `params['api_key'] = self.api_key`. */
  function WithApiKey(svc: Service, params: map<string, Json>): (p: map<string, Json>)
    ensures "api_key" in p && p["api_key"] == JStr(svc.apiKey)
    ensures forall k :: k in params && k != "api_key" ==> k in p && p[k] == params[k]
    ensures p.Keys == params.Keys + {"api_key"}
  {
    params["api_key" := JStr(svc.apiKey)]
  }

  /** A parameter dictionary that the service fills in place. */
  class Params {
    var items: map<string, Json>

    constructor (initial: map<string, Json>)
      ensures items == initial
    {
      items := initial;
    }

    /** `params[key] = value`. */
    method Put(key: string, value: Json)
      modifies this
      ensures items == old(items)[key := value]
    {
      items := items[key := value];
    }
  }

  /** `_make_request(endpoint, params)`: adds the API key to the caller's dictionary (a
      fresh one when `params` is None), sends one GET and maps the status. */
  method MakeRequest(svc: Service, endpoint: string, params: Params?, fetch: Request -> Response)
    returns (r: Outcome<Body>)
    modifies params
    ensures params != null ==> params.items == WithApiKey(svc, old(params.items))
    ensures r == StatusOutcome(fetch(Request(svc.baseUrl + endpoint,
                  WithApiKey(svc, if params == null then map[] else old(params.items)))))
  {
    var p := params;
    if p == null {
      p := new Params(map[]);
    }
    p.Put("api_key", JStr(svc.apiKey));
    var response := fetch(Request(svc.baseUrl + endpoint, p.items));
    r := StatusOutcome(response);
  }

  // ---------------------------------------------------------------------------
  // search_actors

  /** `if source in filters: params[target] = filters[source]`. */
  function Renamed(params: map<string, Json>, filters: map<string, Json>, source: string,
                   target: string): map<string, Json> {
    if source in filters then params[target := filters[source]] else params
  }

  /** The parameters `search_actors` builds before the API key is added. */
  function ActorSearchParams(query: string, filters: map<string, Json>, page: int): (p: map<string, Json>)
    ensures "query" in p && p["query"] == JStr(query) && "page" in p && p["page"] == JInt(page)
    ensures "api_key" !in p
  {
    var base := map["query" := JStr(query), "page" := JInt(page)];
    Renamed(Renamed(base, filters, "min_popularity", "vote_average.gte"), filters, "gender", "with_gender")
  }

  function ActorSearchRequest(svc: Service, query: string, filters: map<string, Json>, page: int): Request {
    Request(svc.baseUrl + "/search/person", WithApiKey(svc, ActorSearchParams(query, filters, page)))
  }

  predicate HasBirthYearFilter(filters: map<string, Json>) {
    "birth_year_from" in filters || "birth_year_to" in filters
  }

  /** A record without a usable birthday: the key is missing, null or the empty string. */
  predicate Undated(actor: Record) {
    actor.birthday.None? || actor.birthday.value == ""
  }

  /** `int(birthday.split('-')[0])`, for a year written as ASCII decimal digits. */
  function BirthYear(birthday: string): (r: Outcome<int>)
    ensures r.Return? <==> IsDecimal(TextBefore(birthday, '-'))
    ensures r.Return? ==> r.value >= 0
    ensures r.Raise? ==> r.exc.ValueError?
  {
    var head := TextBefore(birthday, '-');
    if IsDecimal(head) then Return(DecimalValue(head))
    else Raise(ValueError("invalid literal for int() with base 10: '" + head + "'"))
  }

  /** `year < bound`; comparing an int with a str raises TypeError. */
  function LessThan(year: int, bound: Json): Outcome<bool> {
    match bound
    case JInt(b) => Return(year < b)
    case JReal(b) => Return((year as real) < b)
    case JStr(_) => Raise(TypeError("'<' not supported between instances of 'int' and 'str'"))
  }

  /** `year > bound`. */
  function GreaterThan(year: int, bound: Json): Outcome<bool> {
    match bound
    case JInt(b) => Return(year > b)
    case JReal(b) => Return((year as real) > b)
    case JStr(_) => Raise(TypeError("'>' not supported between instances of 'int' and 'str'"))
  }

  /** The year lies within every bound that is present; a bound that is not a number
      admits nothing. */
  predicate WithinBounds(year: int, filters: map<string, Json>) {
    && ("birth_year_from" in filters ==>
          AsNumber(filters["birth_year_from"]).Some? &&
          year as real >= AsNumber(filters["birth_year_from"]).value)
    && ("birth_year_to" in filters ==>
          AsNumber(filters["birth_year_to"]).Some? &&
          year as real <= AsNumber(filters["birth_year_to"]).value)
  }

  /** Every bound that is present is a number, as the schema guarantees. */
  predicate NumericBounds(filters: map<string, Json>) {
    && ("birth_year_from" in filters ==> AsNumber(filters["birth_year_from"]).Some?)
    && ("birth_year_to" in filters ==> AsNumber(filters["birth_year_to"]).Some?)
  }

  /** The records the birth-year filter is meant to keep. */
  predicate Passes(actor: Record, filters: map<string, Json>) {
    Undated(actor) ||
    (BirthYear(actor.birthday.value).Return? &&
     WithinBounds(BirthYear(actor.birthday.value).value, filters))
  }

  /** The upper-bound test of the loop body, once the year is known. */
  function UpperBoundKeeps(year: int, filters: map<string, Json>): Outcome<bool> {
    if "birth_year_to" in filters then
      match GreaterThan(year, filters["birth_year_to"])
      case Raise(e) => Raise(e)
      case Return(above) => Return(!above)
    else Return(true)
  }

  /** One pass of the post-filter loop body: whether record `actor` is appended. */
  function KeepActor(actor: Record, filters: map<string, Json>): (r: Outcome<bool>)
    ensures r == Return(true) <==> Passes(actor, filters)
    ensures r.Raise? ==> !Undated(actor)
    ensures r.Raise? ==> r.exc.ValueError? || r.exc.TypeError?
    ensures NumericBounds(filters) ==>
              (r.Raise? <==> !Undated(actor) && BirthYear(actor.birthday.value).Raise?)
  {
    if Undated(actor) then Return(true)
    else
      match BirthYear(actor.birthday.value)
      case Raise(e) => Raise(e)
      case Return(year) =>
        if "birth_year_from" in filters then
          match LessThan(year, filters["birth_year_from"])
          case Raise(e) => Raise(e)
          case Return(below) => if below then Return(false) else UpperBoundKeeps(year, filters)
        else UpperBoundKeeps(year, filters)
  }

  /** The loop of lines 46-54 over the whole list: the first exception aborts it, and
      only a birthday that does not parse or a bound that is not a number raises one. */
  function PostFilter(actors: seq<Record>, filters: map<string, Json>): (r: Outcome<seq<Record>>)
    ensures r.Raise? ==> r.exc.ValueError? || r.exc.TypeError?
    ensures r.Return? ==> |r.value| <= |actors|
  {
    if actors == [] then Return([])
    else
      match KeepActor(actors[0], filters)
      case Raise(e) => Raise(e)
      case Return(keep) =>
        match PostFilter(actors[1..], filters)
        case Raise(e) => Raise(e)
        case Return(rest) => Return(if keep then [actors[0]] + rest else rest)
  }

  /** Reference definition: the records that pass, in their original order. */
  function Selected(actors: seq<Record>, filters: map<string, Json>): (r: seq<Record>)
    ensures |r| <= |actors|
    ensures forall a :: a in r ==> a in actors
  {
    if actors == [] then []
    else (if Passes(actors[0], filters) then [actors[0]] else []) + Selected(actors[1..], filters)
  }

  /** `acc` followed by what the rest of the loop appends. */
  function AppendOutcome(acc: seq<Record>, o: Outcome<seq<Record>>): Outcome<seq<Record>> {
    match o
    case Raise(e) => Raise(e)
    case Return(rest) => Return(acc + rest)
  }

  /** One iteration of the post-filter loop, in terms of PostFilter. */
  lemma PostFilterStep(actors: seq<Record>, filters: map<string, Json>, i: nat, acc: seq<Record>)
    requires i < |actors|
    ensures var keep := KeepActor(actors[i], filters);
            var now := AppendOutcome(acc, PostFilter(actors[i..], filters));
            && (keep.Raise? ==> now == Raise(keep.exc))
            && (keep == Return(false) ==> now == AppendOutcome(acc, PostFilter(actors[i + 1..], filters)))
            && (keep == Return(true) ==>
                  now == AppendOutcome(acc + [actors[i]], PostFilter(actors[i + 1..], filters)))
  {
    assert actors[i..][1..] == actors[i + 1..];
    var tail := PostFilter(actors[i + 1..], filters);
    if tail.Return? {
      assert acc + ([actors[i]] + tail.value) == (acc + [actors[i]]) + tail.value;
    }
  }

  /** The post-filter loop of `search_actors`. */
  method FilterByBirthYear(actors: seq<Record>, filters: map<string, Json>)
    returns (r: Outcome<seq<Record>>)
    ensures r == PostFilter(actors, filters)
  {
    var filtered: seq<Record> := [];
    assert actors[0..] == actors;
    if PostFilter(actors, filters).Return? {
      assert [] + PostFilter(actors, filters).value == PostFilter(actors, filters).value;
    }
    for i := 0 to |actors|
      invariant AppendOutcome(filtered, PostFilter(actors[i..], filters)) == PostFilter(actors, filters)
    {
      var actor := actors[i];
      PostFilterStep(actors, filters, i, filtered);
      if !Undated(actor) {
        var year := BirthYear(actor.birthday.value);
        if year.Raise? {
          assert KeepActor(actor, filters) == Raise(year.exc);
          return Raise(year.exc);
        }
        if "birth_year_from" in filters {
          var below := LessThan(year.value, filters["birth_year_from"]);
          if below.Raise? {
            assert KeepActor(actor, filters) == Raise(below.exc);
            return Raise(below.exc);
          }
          if below.value {
            assert KeepActor(actor, filters) == Return(false);
            continue;
          }
        }
        if "birth_year_to" in filters {
          var above := GreaterThan(year.value, filters["birth_year_to"]);
          if above.Raise? {
            assert KeepActor(actor, filters) == Raise(above.exc);
            return Raise(above.exc);
          }
          if above.value {
            assert KeepActor(actor, filters) == Return(false);
            continue;
          }
        }
      }
      assert KeepActor(actor, filters) == Return(true);
      filtered := filtered + [actor];
    }
    assert actors[|actors|..] == [];
    assert filtered + [] == filtered;
    r := Return(filtered);
  }

  /** The dictionary `search_actors` returns for the (possibly filtered) results. */
  function ActorsPage(body: Body, results: seq<Record>, page: int, perPage: int): SearchPage {
    SearchPage(results, body.totalResults.GetOr(|results|), body.page.GetOr(page),
               body.totalPages.GetOr(1), perPage)
  }

  /** `search_actors` once the upstream has answered `resp`. */
  function SearchActorsSpec(filters: map<string, Json>, page: int, perPage: int, resp: Response)
    : (r: Outcome<SearchPage>)
    ensures resp.status != 200 ==> r == Raise(StatusOutcome(resp).exc)
    ensures resp.status == 200 && !HasBirthYearFilter(filters) ==> r.Return?
    ensures r.Raise? ==> r.exc.TMDbError? || r.exc.ValueError? || r.exc.TypeError?
    ensures r.Raise? && r.exc.TMDbError? ==> resp.status != 200
    ensures r.Return? ==> r.value.perPage == perPage && |r.value.results| <= |resp.body.results.GetOr([])|
  {
    match StatusOutcome(resp)
    case Raise(e) => Raise(e)
    case Return(body) =>
      var results := body.results.GetOr([]);
      if HasBirthYearFilter(filters) then
        match PostFilter(results, filters)
        case Raise(e) => Raise(e)
        case Return(kept) => Return(ActorsPage(body, PySlice(kept, 0, perPage), page, perPage))
      else Return(ActorsPage(body, results, page, perPage))
  }

  /** Lines 30-39 of `search_actors`: the parameter dictionary, filled in place. */
  method NewActorParams(query: string, filters: map<string, Json>, page: int) returns (params: Params)
    ensures fresh(params)
    ensures params.items == ActorSearchParams(query, filters, page)
  {
    params := new Params(map["query" := JStr(query), "page" := JInt(page)]);
    if |filters| > 0 {
      if "min_popularity" in filters {
        params.Put("vote_average.gte", filters["min_popularity"]);
      }
      if "gender" in filters {
        params.Put("with_gender", filters["gender"]);
      }
    } else {
      assert filters.Keys == {};
    }
  }

  /** `search_actors(query, filters, page, per_page)`. */
  method SearchActors(svc: Service, query: string, filters: map<string, Json>, page: int,
                      perPage: int, fetch: Request -> Response)
    returns (r: Outcome<SearchPage>)
    ensures r == SearchActorsSpec(filters, page, perPage,
                                  fetch(ActorSearchRequest(svc, query, filters, page)))
  {
    var params := NewActorParams(query, filters, page);
    var response := MakeRequest(svc, "/search/person", params, fetch);
    if response.Raise? {
      return Raise(response.exc);
    }
    var results := response.value.results.GetOr([]);
    if |filters| == 0 {
      assert filters.Keys == {};
    }
    if |filters| > 0 && ("birth_year_from" in filters || "birth_year_to" in filters) {
      var filtered := FilterByBirthYear(results, filters);
      if filtered.Raise? {
        return Raise(filtered.exc);
      }
      results := PySlice(filtered.value, 0, perPage);
    }
    r := Return(ActorsPage(response.value, results, page, perPage));
  }

  // ---------------------------------------------------------------------------
  // search_media

  /** The parameters `search_media` builds before the API key is added. */
  function MediaSearchParams(query: string, filters: map<string, Json>, page: int): (p: map<string, Json>)
    ensures "query" in p && p["query"] == JStr(query) && "page" in p && p["page"] == JInt(page)
    ensures "api_key" !in p
  {
    var base := map["query" := JStr(query), "page" := JInt(page)];
    var withYear := Renamed(base, filters, "year", "year");
    var withGenre := Renamed(withYear, filters, "genre_id", "with_genres");
    var withRating := Renamed(withGenre, filters, "min_rating", "vote_average.gte");
    Renamed(withRating, filters, "language", "language")
  }

  function MediaSearchEndpoint(mediaType: string): string {
    "/search/" + mediaType
  }

  function MediaSearchRequest(svc: Service, query: string, mediaType: string,
                              filters: map<string, Json>, page: int): Request {
    Request(svc.baseUrl + MediaSearchEndpoint(mediaType),
            WithApiKey(svc, MediaSearchParams(query, filters, page)))
  }

  /** `search_media` once the upstream has answered `resp`. */
  function SearchMediaSpec(page: int, perPage: int, resp: Response): (r: Outcome<SearchPage>)
    ensures r.Return? <==> resp.status == 200
    ensures r.Raise? ==> r == Raise(StatusOutcome(resp).exc)
    ensures r.Return? ==> r.value.perPage == perPage && |r.value.results| <= |resp.body.results.GetOr([])|
  {
    match StatusOutcome(resp)
    case Raise(e) => Raise(e)
    case Return(body) =>
      Return(SearchPage(PySlice(body.results.GetOr([]), 0, perPage), body.totalResults.GetOr(0),
                        body.page.GetOr(page), body.totalPages.GetOr(1), perPage))
  }

  /** Lines 93-106 of `search_media`: the parameter dictionary, filled in place. */
  method NewMediaParams(query: string, filters: map<string, Json>, page: int) returns (params: Params)
    ensures fresh(params)
    ensures params.items == MediaSearchParams(query, filters, page)
  {
    var base := map["query" := JStr(query), "page" := JInt(page)];
    params := new Params(base);
    if |filters| > 0 {
      if "year" in filters {
        params.Put("year", filters["year"]);
      }
      ghost var withYear := params.items;
      assert withYear == Renamed(base, filters, "year", "year");
      if "genre_id" in filters {
        params.Put("with_genres", filters["genre_id"]);
      }
      ghost var withGenre := params.items;
      assert withGenre == Renamed(withYear, filters, "genre_id", "with_genres");
      if "min_rating" in filters {
        params.Put("vote_average.gte", filters["min_rating"]);
      }
      assert params.items == Renamed(withGenre, filters, "min_rating", "vote_average.gte");
      if "language" in filters {
        params.Put("language", filters["language"]);
      }
    } else {
      assert filters.Keys == {};
    }
    assert params.items == MediaSearchParams(query, filters, page);
  }

  /** `search_media(query, media_type, filters, page, per_page)`. */
  method SearchMedia(svc: Service, query: string, mediaType: string, filters: map<string, Json>,
                     page: int, perPage: int, fetch: Request -> Response)
    returns (r: Outcome<SearchPage>)
    ensures r == SearchMediaSpec(page, perPage,
                                 fetch(MediaSearchRequest(svc, query, mediaType, filters, page)))
  {
    var params := NewMediaParams(query, filters, page);
    var response := MakeRequest(svc, MediaSearchEndpoint(mediaType), params, fetch);
    if response.Raise? {
      return Raise(response.exc);
    }
    var results := PySlice(response.value.results.GetOr([]), 0, perPage);
    r := Return(SearchPage(results, response.value.totalResults.GetOr(0),
                           response.value.page.GetOr(page), response.value.totalPages.GetOr(1),
                           perPage));
  }

  // ---------------------------------------------------------------------------
  // get_actor_filmography and get_media_cast

  /** `xs[start_idx:end_idx] if start_idx < len(xs) else []` for the given page. */
  function CreditsWindow(xs: seq<Record>, page: int, perPage: int): (w: seq<Record>)
    ensures |w| <= |xs|
  {
    var start := (page - 1) * perPage;
    if start < |xs| then PySlice(xs, start, start + perPage) else []
  }

  /** The local pagination of an unpaginated cast and crew. */
  function Paginate(cast: seq<Record>, crew: seq<Record>, page: int, perPage: int)
    : (r: Outcome<CreditsPage>)
    ensures r.Raise? <==> perPage == 0
    ensures r.Raise? ==> r.exc.ZeroDivisionError?
    ensures r.Return? ==> r.value.totalResults == |cast| + |crew| && r.value.page == page &&
                          r.value.perPage == perPage
  {
    var total := |cast| + |crew|;
    if perPage == 0 then Raise(ZeroDivisionError(DivisionByZeroMessage))
    else Return(CreditsPage(CreditsWindow(cast, page, perPage), CreditsWindow(crew, page, perPage),
                            page, perPage, FloorDiv(total + perPage - 1, perPage), total))
  }

  /** Either credits operation once the upstream has answered `resp`. */
  function CreditsSpec(page: int, perPage: int, resp: Response): (r: Outcome<CreditsPage>)
    ensures r.Return? <==> resp.status == 200 && perPage != 0
    ensures resp.status != 200 ==> r == Raise(StatusOutcome(resp).exc)
  {
    match StatusOutcome(resp)
    case Raise(e) => Raise(e)
    case Return(body) => Paginate(body.cast.GetOr([]), body.crew.GetOr([]), page, perPage)
  }

  function FilmographyEndpoint(actorId: nat): string {
    "/person/" + DecimalString(actorId) + "/combined_credits"
  }

  function MediaCreditsEndpoint(mediaType: string, mediaId: nat): string {
    "/" + mediaType + "/" + DecimalString(mediaId) + "/credits"
  }

  /** The request of a credits operation: no parameters besides the API key. */
  function CreditsRequest(svc: Service, endpoint: string): Request {
    Request(svc.baseUrl + endpoint, WithApiKey(svc, map[]))
  }

  /** `get_actor_filmography(actor_id, page, per_page)`. */
  method GetActorFilmography(svc: Service, actorId: nat, page: int, perPage: int,
                             fetch: Request -> Response)
    returns (r: Outcome<CreditsPage>)
    ensures r == CreditsSpec(page, perPage, fetch(CreditsRequest(svc, FilmographyEndpoint(actorId))))
  {
    var response := MakeRequest(svc, FilmographyEndpoint(actorId), null, fetch);
    if response.Raise? {
      return Raise(response.exc);
    }
    r := Paginate(response.value.cast.GetOr([]), response.value.crew.GetOr([]), page, perPage);
  }

  /** `get_media_cast(media_id, media_type, page, per_page)`. */
  method GetMediaCast(svc: Service, mediaId: nat, mediaType: string, page: int, perPage: int,
                      fetch: Request -> Response)
    returns (r: Outcome<CreditsPage>)
    ensures r == CreditsSpec(page, perPage,
                             fetch(CreditsRequest(svc, MediaCreditsEndpoint(mediaType, mediaId))))
  {
    var response := MakeRequest(svc, MediaCreditsEndpoint(mediaType, mediaId), null, fetch);
    if response.Raise? {
      return Raise(response.exc);
    }
    r := Paginate(response.value.cast.GetOr([]), response.value.crew.GetOr([]), page, perPage);
  }

  // ---------------------------------------------------------------------------
  // Properties

  /** The outgoing actor-search parameters: `query` and `page` always, `min_popularity`
      renamed to `vote_average.gte`, `gender` to `with_gender`, and nothing else; the
      birth-year bounds are never sent upstream. */
  lemma ActorSearchParamsRenaming(query: string, filters: map<string, Json>, page: int)
    ensures var p := ActorSearchParams(query, filters, page);
      && "query" in p && p["query"] == JStr(query)
      && "page" in p && p["page"] == JInt(page)
      && ("vote_average.gte" in p <==> "min_popularity" in filters)
      && ("min_popularity" in filters ==> p["vote_average.gte"] == filters["min_popularity"])
      && ("with_gender" in p <==> "gender" in filters)
      && ("gender" in filters ==> p["with_gender"] == filters["gender"])
      && (forall k :: k in p ==> k in {"query", "page", "vote_average.gte", "with_gender"})
  {
  }

  /** The outgoing media-search parameters: `query` and `page` always, `year` and
      `language` under their own names, `genre_id` as `with_genres`, `min_rating` as
      `vote_average.gte`, and nothing else. */
  lemma MediaSearchParamsRenaming(query: string, filters: map<string, Json>, page: int)
    ensures var p := MediaSearchParams(query, filters, page);
      && "query" in p && p["query"] == JStr(query)
      && "page" in p && p["page"] == JInt(page)
      && ("year" in p <==> "year" in filters)
      && ("year" in filters ==> p["year"] == filters["year"])
      && ("with_genres" in p <==> "genre_id" in filters)
      && ("genre_id" in filters ==> p["with_genres"] == filters["genre_id"])
      && ("vote_average.gte" in p <==> "min_rating" in filters)
      && ("min_rating" in filters ==> p["vote_average.gte"] == filters["min_rating"])
      && ("language" in p <==> "language" in filters)
      && ("language" in filters ==> p["language"] == filters["language"])
      && (forall k :: k in p ==>
            k in {"query", "page", "year", "with_genres", "vote_average.gte", "language"})
  {
  }

  /** Every request the service sends carries the API key; the two searches also carry
      the query and the page, which the key cannot overwrite. */
  lemma RequestsCarryApiKey(svc: Service, query: string, mediaType: string,
                            filters: map<string, Json>, page: int, endpoint: string)
    ensures var a := ActorSearchRequest(svc, query, filters, page).params;
      && "api_key" in a && a["api_key"] == JStr(svc.apiKey)
      && "query" in a && a["query"] == JStr(query) && "page" in a && a["page"] == JInt(page)
    ensures var m := MediaSearchRequest(svc, query, mediaType, filters, page).params;
      && "api_key" in m && m["api_key"] == JStr(svc.apiKey)
      && "query" in m && m["query"] == JStr(query) && "page" in m && m["page"] == JInt(page)
    ensures CreditsRequest(svc, endpoint).params == map["api_key" := JStr(svc.apiKey)]
  {
    ActorSearchParamsRenaming(query, filters, page);
    MediaSearchParamsRenaming(query, filters, page);
  }

  /** A birthday written `YYYY-...` yields the year YYYY, whatever follows the dash. */
  lemma BirthYearOfDate(year: nat, rest: string)
    ensures BirthYear(DecimalString(year) + "-" + rest) == Return(year)
  {
    var digits := DecimalString(year);
    TextBeforeSeparator(digits, '-', rest);
    DecimalRoundTrip(year);
  }

  /** When the bounds are numbers, the post-filter fails exactly when some record has a
      birthday whose text before the first dash is not a decimal number. */
  lemma {:induction false} PostFilterSucceeds(actors: seq<Record>, filters: map<string, Json>)
    requires NumericBounds(filters)
    ensures PostFilter(actors, filters).Return? <==>
            forall k :: 0 <= k < |actors| && !Undated(actors[k]) ==>
                          BirthYear(actors[k].birthday.value).Return?
  {
    if actors != [] {
      PostFilterSucceeds(actors[1..], filters);
      var ok := forall k :: 0 <= k < |actors| && !Undated(actors[k]) ==>
                              BirthYear(actors[k].birthday.value).Return?;
      if ok {
        forall k | 0 <= k < |actors[1..]| && !Undated(actors[1..][k])
          ensures BirthYear(actors[1..][k].birthday.value).Return?
        {
          assert actors[1..][k] == actors[k + 1];
        }
      } else {
        var k :| 0 <= k < |actors| && !Undated(actors[k]) &&
                 BirthYear(actors[k].birthday.value).Raise?;
        if k > 0 {
          assert actors[1..][k - 1] == actors[k];
        }
      }
    }
  }

  /** When the post-filter succeeds it returns the reference selection. */
  lemma {:induction false} PostFilterIsSelection(actors: seq<Record>, filters: map<string, Json>)
    requires PostFilter(actors, filters).Return?
    ensures PostFilter(actors, filters).value == Selected(actors, filters)
  {
    if actors != [] {
      PostFilterIsSelection(actors[1..], filters);
    }
  }

  /** Every selected record is undated or has a year within every present bound. */
  lemma {:induction false} SelectedSound(actors: seq<Record>, filters: map<string, Json>)
    ensures forall a :: a in Selected(actors, filters) ==> Passes(a, filters)
  {
    if actors != [] {
      SelectedSound(actors[1..], filters);
    }
  }

  /** Every record that passes, in particular every undated one, is selected. */
  lemma {:induction false} SelectedComplete(actors: seq<Record>, filters: map<string, Json>)
    ensures forall k :: 0 <= k < |actors| && Passes(actors[k], filters) ==>
                          actors[k] in Selected(actors, filters)
  {
    if actors != [] {
      SelectedComplete(actors[1..], filters);
      forall k | 0 < k < |actors| && Passes(actors[k], filters)
        ensures actors[k] in Selected(actors, filters)
      {
        assert actors[1..][k - 1] == actors[k];
      }
    }
  }

  /** The selection keeps the records' relative order. */
  lemma {:induction false} SelectedIsSubsequence(actors: seq<Record>, filters: map<string, Json>)
    ensures IsSubsequence(Selected(actors, filters), actors)
  {
    if actors != [] {
      var rest := Selected(actors[1..], filters);
      SelectedIsSubsequence(actors[1..], filters);
      if Passes(actors[0], filters) {
        var chosen := [actors[0]] + rest;
        assert Selected(actors, filters) == chosen;
        assert chosen[1..] == rest;
        assert chosen != [] && chosen[0] == actors[0] && IsSubsequence(chosen[1..], actors[1..]);
      } else {
        assert Selected(actors, filters) == [] + rest;
        assert [] + rest == rest;
      }
    }
  }

  /** Without a birth-year filter the actor results are the upstream's, untruncated and
      unfiltered; the totals fall back to the list's length and one page. */
  lemma ActorSearchWithoutBirthYear(filters: map<string, Json>, page: int, perPage: int,
                                    resp: Response)
    requires resp.status == 200 && !HasBirthYearFilter(filters)
    ensures var r := SearchActorsSpec(filters, page, perPage, resp);
      var results := resp.body.results.GetOr([]);
      && r.Return?
      && r.value.results == results
      && r.value.totalResults == resp.body.totalResults.GetOr(|results|)
      && r.value.page == resp.body.page.GetOr(page)
      && r.value.totalPages == resp.body.totalPages.GetOr(1)
      && r.value.perPage == perPage
  {
  }

  /** With a birth-year filter whose bounds are numbers, and every birthday readable, the
      actor results are the first `per_page` records of the selection: in order, each one
      undated or within the bounds, and none that passes left out before the cut. */
  lemma ActorSearchWithBirthYear(filters: map<string, Json>, page: int, perPage: int,
                                 resp: Response)
    requires resp.status == 200 && HasBirthYearFilter(filters) && NumericBounds(filters)
    requires perPage >= 0
    requires var actors := resp.body.results.GetOr([]);
      forall k :: 0 <= k < |actors| && !Undated(actors[k]) ==>
                    BirthYear(actors[k].birthday.value).Return?
    ensures var r := SearchActorsSpec(filters, page, perPage, resp);
      var chosen := Selected(resp.body.results.GetOr([]), filters);
      && r.Return?
      && r.value.results <= chosen
      && |r.value.results| == Min(perPage, |chosen|)
      && IsSubsequence(chosen, resp.body.results.GetOr([]))
      && (forall a :: a in r.value.results ==> Passes(a, filters))
      && r.value.totalResults == resp.body.totalResults.GetOr(|r.value.results|)
      && r.value.page == resp.body.page.GetOr(page)
      && r.value.totalPages == resp.body.totalPages.GetOr(1)
      && r.value.perPage == perPage
  {
    var actors := resp.body.results.GetOr([]);
    PostFilterSucceeds(actors, filters);
    PostFilterIsSelection(actors, filters);
    SelectedSound(actors, filters);
    SelectedIsSubsequence(actors, filters);
    var chosen := Selected(actors, filters);
    PySliceNonNegative(chosen, 0, perPage);
    forall a | a in PySlice(chosen, 0, perPage) ensures a in chosen {
      var k :| 0 <= k < |PySlice(chosen, 0, perPage)| && PySlice(chosen, 0, perPage)[k] == a;
      assert chosen[k] == a;
    }
  }

  /** A non-200 answer becomes a TMDbError carrying the upstream status, in every
      operation. */
  lemma UpstreamFailurePropagates(filters: map<string, Json>, page: int, perPage: int,
                                  resp: Response)
    requires resp.status != 200
    ensures SearchActorsSpec(filters, page, perPage, resp) == Raise(StatusOutcome(resp).exc)
    ensures SearchMediaSpec(page, perPage, resp) == Raise(StatusOutcome(resp).exc)
    ensures CreditsSpec(page, perPage, resp) == Raise(StatusOutcome(resp).exc)
    ensures StatusOutcome(resp).exc.TMDbError? && StatusOutcome(resp).exc.statusCode == resp.status
  {
  }

  /** Media results are always cut to their first `per_page` records; the totals fall
      back to 0 results and one page. */
  lemma MediaSearchTruncates(page: int, perPage: int, resp: Response)
    requires resp.status == 200 && perPage >= 0
    ensures var r := SearchMediaSpec(page, perPage, resp);
      var results := resp.body.results.GetOr([]);
      && r.Return?
      && r.value.results <= results
      && |r.value.results| == Min(perPage, |results|)
      && r.value.totalResults == resp.body.totalResults.GetOr(0)
      && r.value.page == resp.body.page.GetOr(page)
      && r.value.totalPages == resp.body.totalPages.GetOr(1)
      && r.value.perPage == perPage
  {
    PySliceNonNegative(resp.body.results.GetOr([]), 0, perPage);
  }

  /** The non-linear step Dafny needs for `(page - 1) * per_page >= 0`. */
  lemma ProductNonNegative(a: int, b: int)
    requires a >= 0 && b >= 0
    ensures a * b >= 0
  {
  }

  /** A credits page is the window `[(page-1)*per_page, page*per_page)` clipped to the
      list, empty once the start is past the end, and never longer than `per_page`. */
  lemma CreditsWindowIsSlice(xs: seq<Record>, page: int, perPage: int)
    requires page >= 1 && perPage >= 1
    ensures var start := (page - 1) * perPage;
      && start >= 0
      && CreditsWindow(xs, page, perPage) ==
           (if start < |xs| then xs[start..Min(|xs|, start + perPage)] else [])
      && |CreditsWindow(xs, page, perPage)| <= perPage
  {
    var start := (page - 1) * perPage;
    ProductNonNegative(page - 1, perPage);
    PySliceNonNegative(xs, start, start + perPage);
  }

  /** The credits totals: both lists counted before slicing, the page count rounded up
      (zero for no credits), page and per_page echoed, and each list cut independently. */
  lemma CreditsTotals(cast: seq<Record>, crew: seq<Record>, page: int, perPage: int)
    requires perPage >= 1
    ensures var r := Paginate(cast, crew, page, perPage);
      && r.Return?
      && r.value.page == page && r.value.perPage == perPage
      && r.value.totalResults == |cast| + |crew|
      && r.value.cast == CreditsWindow(cast, page, perPage)
      && r.value.crew == CreditsWindow(crew, page, perPage)
      && (r.value.totalResults == 0 ==> r.value.totalPages == 0)
      && (r.value.totalResults > 0 ==>
            (r.value.totalPages - 1) * perPage < r.value.totalResults <= r.value.totalPages * perPage)
  {
    var total := |cast| + |crew|;
    var q := FloorDiv(total + perPage - 1, perPage);
    assert q * perPage <= total + perPage - 1 < q * perPage + perPage;
    assert (q - 1) * perPage == q * perPage - perPage;
  }

  /** A page past the end of both lists is not an error: empty cast and crew, with the
      same totals as the first page. */
  lemma PageBeyondData(cast: seq<Record>, crew: seq<Record>, page: int, perPage: int)
    requires page >= 1 && perPage >= 1
    requires (page - 1) * perPage >= |cast| && (page - 1) * perPage >= |crew|
    ensures var r := Paginate(cast, crew, page, perPage);
      var first := Paginate(cast, crew, 1, perPage);
      && r.Return? && r.value.cast == [] && r.value.crew == []
      && r.value.totalResults == first.value.totalResults
      && r.value.totalPages == first.value.totalPages
  {
  }

  /** A zero `per_page` makes the page count divide by zero. */
  lemma ZeroPerPageFails(cast: seq<Record>, crew: seq<Record>, page: int)
    ensures Paginate(cast, crew, page, 0) == Raise(ZeroDivisionError(DivisionByZeroMessage))
  {
  }

  /** The first `n` pages of a list, one after another. */
  function PagesUpTo(xs: seq<Record>, perPage: int, n: nat): seq<Record> {
    if n == 0 then [] else PagesUpTo(xs, perPage, n - 1) + CreditsWindow(xs, n, perPage)
  }

  /** The pages tile the list: the first `n` pages are exactly its first `n * per_page`
      records. */
  lemma {:induction false} PagesTile(xs: seq<Record>, perPage: int, n: nat)
    requires perPage >= 1
    ensures Min(|xs|, n * perPage) >= 0
    ensures PagesUpTo(xs, perPage, n) == xs[..Min(|xs|, n * perPage)]
  {
    if n > 0 {
      var start := (n - 1) * perPage;
      PagesTile(xs, perPage, n - 1);
      CreditsWindowIsSlice(xs, n, perPage);
      TileStep(xs, PagesUpTo(xs, perPage, n - 1), CreditsWindow(xs, n, perPage), start, perPage);
      assert n * perPage == start + perPage;
    }
  }

  /** One more window appended to a prefix gives the longer prefix. */
  lemma TileStep(xs: seq<Record>, prev: seq<Record>, window: seq<Record>, start: nat, perPage: int)
    requires perPage >= 1
    requires prev == xs[..Min(|xs|, start)]
    requires window == (if start < |xs| then xs[start..Min(|xs|, start + perPage)] else [])
    ensures prev + window == xs[..Min(|xs|, start + perPage)]
  {
    if start < |xs| {
      assert xs[..start] + xs[start..Min(|xs|, start + perPage)] == xs[..Min(|xs|, start + perPage)];
    } else {
      assert prev + [] == prev;
    }
  }

  /** Reading pages 1 to `total_pages` returns every cast and crew record once, in order. */
  lemma AllPagesCoverCredits(cast: seq<Record>, crew: seq<Record>, perPage: int)
    requires perPage >= 1
    ensures Paginate(cast, crew, 1, perPage).Return?
    ensures var pages := Paginate(cast, crew, 1, perPage).value.totalPages;
      pages >= 0 && PagesUpTo(cast, perPage, pages) == cast && PagesUpTo(crew, perPage, pages) == crew
  {
    CreditsTotals(cast, crew, 1, perPage);
    var pages := Paginate(cast, crew, 1, perPage).value.totalPages;
    PagesTile(cast, perPage, pages);
    PagesTile(crew, perPage, pages);
    assert |cast| <= pages * perPage && |crew| <= pages * perPage;
    assert cast[..|cast|] == cast && crew[..|crew|] == crew;
  }

  /** The worked example: 25 cast and 10 crew credits, 10 per page. Page 1 has the first
      ten of the cast and the whole crew; page 3 has the last five of the cast and no crew;
      either way there are 35 results over 4 pages. */
  lemma CreditsExample(cast: seq<Record>, crew: seq<Record>)
    requires |cast| == 25 && |crew| == 10
    ensures var p1 := Paginate(cast, crew, 1, 10).value;
      p1.cast == cast[..10] && p1.crew == crew && p1.totalResults == 35 && p1.totalPages == 4
    ensures var p3 := Paginate(cast, crew, 3, 10).value;
      p3.cast == cast[20..] && p3.crew == [] && p3.totalResults == 35 && p3.totalPages == 4
  {
    assert crew[0..10] == crew;
  }
}
