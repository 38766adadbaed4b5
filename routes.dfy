/** api/routes.py: the four endpoints of the `api` blueprint. Each handler is modelled in
    three layers that compose: the guard checks on the query arguments (`ParseX`), the
    handler's outcome once the service has asked the upstream (`XHandler`, built on the
    service's specification functions, which the service methods are proved to compute),
    and the HTTP answer once `handle_tmdb_errors` and the error handlers have seen that
    outcome (`XRoute`). The service object of line 11 is the parameter `svc` and the
    upstream is the parameter `fetch`. */
module Routes {
  import opened Common
  import opened Errors
  import opened Schemas
  import opened TMDb
  import opened Decorators

  const QueryRequiredMessage := "Query parameter is required"
  const PageMessage := "Page number must be greater than 0"
  const PerPageMessage := "Per page must be between 1 and 100"
  const DefaultPage := 1
  const DefaultPerPage := 20
  const MaxPerPage := 100
  const DefaultMediaType := "movie"

  /** `request.args` as the handlers read it. Each field is what `request.args.get` gives:
      None when the argument is absent or, for a typed argument, when its text does not
      convert to the type. */
  datatype Args = Args(
    query: Option<string>, mediaType: Option<string>, page: Option<int>, perPage: Option<int>,
    minPopularity: Option<real>, gender: Option<int>, birthYearFrom: Option<int>,
    birthYearTo: Option<int>, year: Option<int>, genreId: Option<int>, minRating: Option<real>,
    language: Option<string>)

  // ---------------------------------------------------------------------------
  // Guard checks

  /** `if not query`: the query is missing or empty. */
  predicate HasQuery(args: Args) {
    args.query.Some? && args.query.value != ""
  }

  datatype Paging = Paging(page: int, perPage: int)

  /** The `page` and `per_page` arguments with their defaults and range checks; `page` is
      checked first. */
  function ParsePaging(args: Args): (r: Outcome<Paging>)
    ensures r.Return? <==>
      args.page.GetOr(DefaultPage) >= 1 && 1 <= args.perPage.GetOr(DefaultPerPage) <= MaxPerPage
    ensures r.Return? ==> r.value == Paging(args.page.GetOr(DefaultPage), args.perPage.GetOr(DefaultPerPage))
    ensures args.page.GetOr(DefaultPage) < 1 ==> r == Raise(APIError(PageMessage, 400))
    ensures r.Raise? && args.page.GetOr(DefaultPage) >= 1 ==> r == Raise(APIError(PerPageMessage, 400))
  {
    var page := args.page.GetOr(DefaultPage);
    var perPage := args.perPage.GetOr(DefaultPerPage);
    if page < 1 then Raise(APIError(PageMessage, 400))
    else if perPage < 1 || perPage > MaxPerPage then Raise(APIError(PerPageMessage, 400))
    else Return(Paging(page, perPage))
  }

  function IntArg(v: Option<int>): Option<Json> {
    match v
    case None => None
    case Some(i) => Some(JInt(i))
  }

  function RealArg(v: Option<real>): Option<Json> {
    match v
    case None => None
    case Some(x) => Some(JReal(x))
  }

  function StrArg(v: Option<string>): Option<Json> {
    match v
    case None => None
    case Some(s) => Some(JStr(s))
  }

  /** `{k: v for k, v in filters.items() if v is not None}`. */
  function DropNone(m: map<string, Option<Json>>): (r: map<string, Json>)
    ensures forall k :: k in r <==> k in m && m[k].Some?
    ensures forall k :: k in r ==> m[k] == Some(r[k])
  {
    map k | k in m && m[k].Some? :: m[k].value
  }

  /** The filters of `search_actors`, absent ones removed. */
  function ActorFilters(args: Args): map<string, Json> {
    DropNone(map["min_popularity" := RealArg(args.minPopularity), "gender" := IntArg(args.gender),
                 "birth_year_from" := IntArg(args.birthYearFrom),
                 "birth_year_to" := IntArg(args.birthYearTo)])
  }

  /** The filters of `search_media`, absent ones removed. */
  function MediaFilters(args: Args): map<string, Json> {
    DropNone(map["year" := IntArg(args.year), "genre_id" := IntArg(args.genreId),
                 "min_rating" := RealArg(args.minRating), "language" := StrArg(args.language)])
  }

  /** `{"query": query, **filters}`. */
  function SearchInstance(query: string, filters: map<string, Json>): Instance {
    map["query" := JStr(query)] + filters
  }

  /** The actor-search arguments ACTOR_FILTER_SCHEMA accepts, field by field. */
  predicate ActorArgsValid(query: string, args: Args) {
    && 1 <= |query| <= 100
    && (args.minPopularity.Some? ==> args.minPopularity.value >= 0.0)
    && (args.gender.Some? ==> 0 <= args.gender.value <= 3)
    && (args.birthYearFrom.Some? ==> args.birthYearFrom.value >= 1800)
    && (args.birthYearTo.Some? ==> args.birthYearTo.value >= 1800)
  }

  /** The media-search arguments MEDIA_FILTER_SCHEMA accepts, field by field. */
  predicate MediaArgsValid(query: string, args: Args) {
    && 1 <= |query| <= 100
    && (args.year.Some? ==> args.year.value >= 1900)
    && (args.genreId.Some? ==> args.genreId.value >= 1)
    && (args.minRating.Some? ==> 0.0 <= args.minRating.value <= 10.0)
    && (args.language.Some? ==> IsTwoLetterCode(args.language.value))
  }

  /** The filter map holds exactly the supplied filters, each with its converted value. */
  lemma ActorFiltersSupplied(args: Args)
    ensures ActorFilters(args).Keys <= {"min_popularity", "gender", "birth_year_from", "birth_year_to"}
    ensures "min_popularity" in ActorFilters(args) <==> args.minPopularity.Some?
    ensures "gender" in ActorFilters(args) <==> args.gender.Some?
    ensures "birth_year_from" in ActorFilters(args) <==> args.birthYearFrom.Some?
    ensures "birth_year_to" in ActorFilters(args) <==> args.birthYearTo.Some?
    ensures args.minPopularity.Some? ==> ActorFilters(args)["min_popularity"] == JReal(args.minPopularity.value)
    ensures args.gender.Some? ==> ActorFilters(args)["gender"] == JInt(args.gender.value)
    ensures args.birthYearFrom.Some? ==> ActorFilters(args)["birth_year_from"] == JInt(args.birthYearFrom.value)
    ensures args.birthYearTo.Some? ==> ActorFilters(args)["birth_year_to"] == JInt(args.birthYearTo.value)
  {
  }

  /** The filter map holds exactly the supplied filters, each with its converted value. */
  lemma MediaFiltersSupplied(args: Args)
    ensures MediaFilters(args).Keys <= {"year", "genre_id", "min_rating", "language"}
    ensures "year" in MediaFilters(args) <==> args.year.Some?
    ensures "genre_id" in MediaFilters(args) <==> args.genreId.Some?
    ensures "min_rating" in MediaFilters(args) <==> args.minRating.Some?
    ensures "language" in MediaFilters(args) <==> args.language.Some?
    ensures args.year.Some? ==> MediaFilters(args)["year"] == JInt(args.year.value)
    ensures args.genreId.Some? ==> MediaFilters(args)["genre_id"] == JInt(args.genreId.value)
    ensures args.minRating.Some? ==> MediaFilters(args)["min_rating"] == JReal(args.minRating.value)
    ensures args.language.Some? ==> MediaFilters(args)["language"] == JStr(args.language.value)
  {
  }

  /** ACTOR_FILTER_SCHEMA over the route's instance is the field-by-field check. */
  lemma ActorSchemaFieldwise(query: string, args: Args)
    ensures ActorFilterSchema(SearchInstance(query, ActorFilters(args))) <==> ActorArgsValid(query, args)
  {
    ActorFiltersSupplied(args);
    var inst := SearchInstance(query, ActorFilters(args));
    assert QueryOk(inst) <==> 1 <= |query| <= 100 by {
      assert inst["query"] == JStr(query);
    }
    assert IntegerIn(inst, "gender", {0, 1, 2, 3}) <==>
           (args.gender.Some? ==> 0 <= args.gender.value <= 3);
    assert NumberAtLeast(inst, "min_popularity", 0.0) <==>
           (args.minPopularity.Some? ==> args.minPopularity.value >= 0.0);
    assert IntegerAtLeast(inst, "birth_year_from", 1800) <==>
           (args.birthYearFrom.Some? ==> args.birthYearFrom.value >= 1800);
  }

  /** MEDIA_FILTER_SCHEMA over the route's instance is the field-by-field check. */
  lemma MediaSchemaFieldwise(query: string, args: Args)
    ensures MediaFilterSchema(SearchInstance(query, MediaFilters(args))) <==> MediaArgsValid(query, args)
  {
    MediaFiltersSupplied(args);
    var inst := SearchInstance(query, MediaFilters(args));
    assert inst["query"] == JStr(query);
  }

  datatype ActorQuery = ActorQuery(query: string, filters: map<string, Json>, paging: Paging)

  datatype MediaQuery = MediaQuery(query: string, mediaType: string, filters: map<string, Json>,
                                   paging: Paging)

  /** Lines 26-56 of `search_actors`: query, then paging, then the schema. */
  function ParseActorSearch(args: Args): (r: Outcome<ActorQuery>)
    ensures !HasQuery(args) ==> r == Raise(APIError(QueryRequiredMessage, 400))
    ensures HasQuery(args) && ParsePaging(args).Raise? ==> r == Raise(ParsePaging(args).exc)
    ensures r.Raise? ==> r.exc.APIError? && r.exc.statusCode == 400
    ensures r.Return? <==>
      HasQuery(args) && ParsePaging(args).Return? && ActorArgsValid(args.query.value, args)
    ensures r.Return? ==>
      r.value == ActorQuery(args.query.value, ActorFilters(args), ParsePaging(args).value)
  {
    if !HasQuery(args) then Raise(APIError(QueryRequiredMessage, 400))
    else
      match ParsePaging(args)
      case Raise(e) => Raise(e)
      case Return(paging) =>
        var query := args.query.value;
        var filters := ActorFilters(args);
        ActorSchemaFieldwise(query, args);
        match Validate(SearchInstance(query, filters), ACTOR_FILTER_SCHEMA)
        case Raise(e) => Raise(APIError(e.Str(), 400))
        case Return(_) => Return(ActorQuery(query, filters, paging))
  }

  /** Lines 88-120 of `search_media`: the media type (any string, `movie` by default),
      then query, paging and the schema. */
  function ParseMediaSearch(args: Args): (r: Outcome<MediaQuery>)
    ensures !HasQuery(args) ==> r == Raise(APIError(QueryRequiredMessage, 400))
    ensures HasQuery(args) && ParsePaging(args).Raise? ==> r == Raise(ParsePaging(args).exc)
    ensures r.Raise? ==> r.exc.APIError? && r.exc.statusCode == 400
    ensures r.Return? <==>
      HasQuery(args) && ParsePaging(args).Return? && MediaArgsValid(args.query.value, args)
    ensures r.Return? ==>
      r.value == MediaQuery(args.query.value, args.mediaType.GetOr(DefaultMediaType),
                            MediaFilters(args), ParsePaging(args).value)
  {
    var mediaType := args.mediaType.GetOr(DefaultMediaType);
    if !HasQuery(args) then Raise(APIError(QueryRequiredMessage, 400))
    else
      match ParsePaging(args)
      case Raise(e) => Raise(e)
      case Return(paging) =>
        var query := args.query.value;
        var filters := MediaFilters(args);
        MediaSchemaFieldwise(query, args);
        match Validate(SearchInstance(query, filters), MEDIA_FILTER_SCHEMA)
        case Raise(e) => Raise(APIError(e.Str(), 400))
        case Return(_) => Return(MediaQuery(query, mediaType, filters, paging))
  }

  /** The defaults, and the boundaries of the `per_page` range. */
  lemma PagingBoundaries(args: Args)
    ensures args.page.None? && args.perPage.None? ==> ParsePaging(args) == Return(Paging(1, 20))
    ensures args.page.GetOr(1) >= 1 && args.perPage == Some(100) ==> ParsePaging(args).Return?
    ensures args.page.GetOr(1) >= 1 && args.perPage == Some(101) ==>
      ParsePaging(args) == Raise(APIError(PerPageMessage, 400))
    ensures args.page.GetOr(1) >= 1 && args.perPage == Some(0) ==>
      ParsePaging(args) == Raise(APIError(PerPageMessage, 400))
    ensures args.page == Some(0) ==> ParsePaging(args) == Raise(APIError(PageMessage, 400))
  {
  }

  // ---------------------------------------------------------------------------
  // Handlers: the undecorated view functions

  function ActorUpstream(svc: Service, q: ActorQuery): Request {
    ActorSearchRequest(svc, q.query, q.filters, q.paging.page)
  }

  function MediaUpstream(svc: Service, q: MediaQuery): Request {
    MediaSearchRequest(svc, q.query, q.mediaType, q.filters, q.paging.page)
  }

  function FilmographyUpstream(svc: Service, actorId: nat): Request {
    CreditsRequest(svc, FilmographyEndpoint(actorId))
  }

  function CastUpstream(svc: Service, mediaId: nat, args: Args): Request {
    CreditsRequest(svc, MediaCreditsEndpoint(args.mediaType.GetOr(DefaultMediaType), mediaId))
  }

  /** The body of `search_actors`, the cached call being a direct call to the service. */
  function SearchActorsHandler(svc: Service, args: Args, fetch: Request -> Response)
    : (r: Outcome<SearchPage>)
    ensures ParseActorSearch(args).Raise? ==> r == Raise(ParseActorSearch(args).exc)
    ensures r.Return? ==>
      ParseActorSearch(args).Return? && fetch(ActorUpstream(svc, ParseActorSearch(args).value)).status == 200
  {
    match ParseActorSearch(args)
    case Raise(e) => Raise(e)
    case Return(q) =>
      SearchActorsSpec(q.filters, q.paging.page, q.paging.perPage, fetch(ActorUpstream(svc, q)))
  }

  /** The body of `get_actor_filmography`. */
  function FilmographyHandler(svc: Service, actorId: nat, args: Args, fetch: Request -> Response)
    : (r: Outcome<CreditsPage>)
    ensures ParsePaging(args).Raise? ==> r == Raise(ParsePaging(args).exc)
    ensures r.Return? <==> ParsePaging(args).Return? && fetch(FilmographyUpstream(svc, actorId)).status == 200
  {
    match ParsePaging(args)
    case Raise(e) => Raise(e)
    case Return(p) => CreditsSpec(p.page, p.perPage, fetch(FilmographyUpstream(svc, actorId)))
  }

  /** The body of `search_media`. */
  function SearchMediaHandler(svc: Service, args: Args, fetch: Request -> Response)
    : (r: Outcome<SearchPage>)
    ensures ParseMediaSearch(args).Raise? ==> r == Raise(ParseMediaSearch(args).exc)
    ensures r.Return? <==>
      ParseMediaSearch(args).Return? && fetch(MediaUpstream(svc, ParseMediaSearch(args).value)).status == 200
  {
    match ParseMediaSearch(args)
    case Raise(e) => Raise(e)
    case Return(q) => SearchMediaSpec(q.paging.page, q.paging.perPage, fetch(MediaUpstream(svc, q)))
  }

  /** The body of `get_media_cast`. */
  function MediaCastHandler(svc: Service, mediaId: nat, args: Args, fetch: Request -> Response)
    : (r: Outcome<CreditsPage>)
    ensures ParsePaging(args).Raise? ==> r == Raise(ParsePaging(args).exc)
    ensures r.Return? <==> ParsePaging(args).Return? && fetch(CastUpstream(svc, mediaId, args)).status == 200
  {
    match ParsePaging(args)
    case Raise(e) => Raise(e)
    case Return(p) => CreditsSpec(p.page, p.perPage, fetch(CastUpstream(svc, mediaId, args)))
  }

  // ---------------------------------------------------------------------------
  // HTTP answers

  /** The JSON body of an answer: the handler's result, or the error object. */
  datatype Payload<T> = Result(value: T) | ErrorBody(error: bool, message: string, code: int)

  datatype HttpResponse<T> = HttpResponse(status: int, payload: Payload<T>)

  /** `handle_api_error`: the error object, sent with the error's status. */
  function HandleApiError<T>(e: Exception): (r: HttpResponse<T>)
    requires e.APIError?
    ensures r.status == e.statusCode && r.payload.ErrorBody?
    ensures r.payload.error && r.payload.message == e.Str() && r.payload.code == r.status
  {
    HttpResponse(e.statusCode, ErrorBody(true, e.Str(), e.Code()))
  }

  /** The application's handler for an unhandled exception (app.py). */
  function InternalError<T>(): (r: HttpResponse<T>)
    ensures r.status == 500 && r.payload.ErrorBody? && r.payload.error
    ensures r.payload.code == r.status && r.payload.message == InternalErrorMessage
  {
    HttpResponse(500, ErrorBody(true, InternalErrorMessage, 500))
  }

  /** What Flask sends for the outcome of a view function: 200 with the JSON of a returned
      value, `handle_api_error` for an APIError and the application's 500 for the rest. */
  function Respond<T>(o: Outcome<T>): (r: HttpResponse<T>)
    ensures o.Return? ==> r == HttpResponse(200, Result(o.value))
    ensures r.payload.ErrorBody? <==> o.Raise?
    ensures r.payload.ErrorBody? ==> r.payload.error && r.payload.code == r.status
    ensures o.Raise? && !o.exc.APIError? ==> r == InternalError()
  {
    match o
    case Return(v) => HttpResponse(200, Result(v))
    case Raise(e) => if e.APIError? then HandleApiError(e) else InternalError()
  }

  /** The answer of a route decorated with `handle_tmdb_errors`, from the outcome of its
      undecorated body: success is 200, a TMDbError keeps its status and message, and
      everything else, the route's own APIErrors included, is a 500. */
  function Serve<T>(o: Outcome<T>): (r: HttpResponse<T>)
    ensures o.Return? ==> r == HttpResponse(200, Result(o.value))
    ensures o.Raise? && o.exc.TMDbError? ==>
      r == HttpResponse(o.exc.statusCode, ErrorBody(true, o.exc.message, o.exc.statusCode))
    ensures o.Raise? && !o.exc.TMDbError? ==> r == InternalError()
  {
    Respond(HandleTmdbErrors(o))
  }

  /** The answer with the wrapper as evidently intended. */
  function ServeIntended<T>(o: Outcome<T>): (r: HttpResponse<T>)
    ensures o.Raise? && o.exc.APIError? ==>
      r == HttpResponse(o.exc.statusCode, ErrorBody(true, o.exc.message, o.exc.statusCode))
    ensures !(o.Raise? && o.exc.APIError?) ==> r == Serve(o)
  {
    Respond(HandleTmdbErrorsIntended(o))
  }

  /** A TMDbError leaving the service always comes from the upstream status check, whatever
      the search or credits operation did with the body. */
  lemma ServiceTmdbErrorsAreUpstream(filters: map<string, Json>, page: int, perPage: int, resp: Response)
    ensures SearchActorsSpec(filters, page, perPage, resp).Raise? &&
            SearchActorsSpec(filters, page, perPage, resp).exc.TMDbError? ==>
            StatusOutcome(resp) == Raise(SearchActorsSpec(filters, page, perPage, resp).exc)
    ensures SearchMediaSpec(page, perPage, resp).Raise? ==>
            StatusOutcome(resp) == Raise(SearchMediaSpec(page, perPage, resp).exc)
    ensures CreditsSpec(page, perPage, resp).Raise? &&
            CreditsSpec(page, perPage, resp).exc.TMDbError? ==>
            StatusOutcome(resp) == Raise(CreditsSpec(page, perPage, resp).exc)
    ensures SearchActorsSpec(filters, page, perPage, resp).Raise? ==>
            !SearchActorsSpec(filters, page, perPage, resp).exc.APIError?
    ensures CreditsSpec(page, perPage, resp).Raise? ==> !CreditsSpec(page, perPage, resp).exc.APIError?
  {
  }

  /** A TMDbError leaving a handler is the upstream status check's, raised for the request
      the handler sent. */
  lemma HandlerErrorsAreUpstream(svc: Service, actorId: nat, mediaId: nat, args: Args,
                                 fetch: Request -> Response)
    ensures var o := SearchActorsHandler(svc, args, fetch);
      o.Raise? && o.exc.TMDbError? ==>
      ParseActorSearch(args).Return? &&
      StatusOutcome(fetch(ActorUpstream(svc, ParseActorSearch(args).value))) == Raise(o.exc)
    ensures var o := SearchMediaHandler(svc, args, fetch);
      o.Raise? && o.exc.TMDbError? ==>
      ParseMediaSearch(args).Return? &&
      StatusOutcome(fetch(MediaUpstream(svc, ParseMediaSearch(args).value))) == Raise(o.exc)
    ensures var o := FilmographyHandler(svc, actorId, args, fetch);
      o.Raise? && o.exc.TMDbError? ==>
      ParsePaging(args).Return? && StatusOutcome(fetch(FilmographyUpstream(svc, actorId))) == Raise(o.exc)
    ensures var o := MediaCastHandler(svc, mediaId, args, fetch);
      o.Raise? && o.exc.TMDbError? ==>
      ParsePaging(args).Return? && StatusOutcome(fetch(CastUpstream(svc, mediaId, args))) == Raise(o.exc)
  {
    if ParseActorSearch(args).Return? {
      var q := ParseActorSearch(args).value;
      ServiceTmdbErrorsAreUpstream(q.filters, q.paging.page, q.paging.perPage, fetch(ActorUpstream(svc, q)));
    }
    if ParseMediaSearch(args).Return? {
      var q := ParseMediaSearch(args).value;
      ServiceTmdbErrorsAreUpstream(map[], q.paging.page, q.paging.perPage, fetch(MediaUpstream(svc, q)));
    }
    if ParsePaging(args).Return? {
      var p := ParsePaging(args).value;
      ServiceTmdbErrorsAreUpstream(map[], p.page, p.perPage, fetch(FilmographyUpstream(svc, actorId)));
      ServiceTmdbErrorsAreUpstream(map[], p.page, p.perPage, fetch(CastUpstream(svc, mediaId, args)));
    }
  }

  /** `GET /actors/search`. A failed guard check answers 500, a 400 can only be the
      upstream's, and an upstream rate limit is passed on as 429. */
  function SearchActorsRoute(svc: Service, args: Args, fetch: Request -> Response)
    : (r: HttpResponse<SearchPage>)
    ensures ParseActorSearch(args).Raise? ==> r == InternalError()
    ensures r.status == 200 <==> SearchActorsHandler(svc, args, fetch).Return?
    ensures r.status == 400 ==>
      ParseActorSearch(args).Return? && fetch(ActorUpstream(svc, ParseActorSearch(args).value)).status == 400
    ensures ParseActorSearch(args).Return? &&
            fetch(ActorUpstream(svc, ParseActorSearch(args).value)).status == 429 ==>
            r == HttpResponse(429, ErrorBody(true, RateLimitMessage, 429))
  {
    HandlerErrorsAreUpstream(svc, 0, 0, args, fetch);
    Serve(SearchActorsHandler(svc, args, fetch))
  }

  /** `GET /actors/<actor_id>/filmography`. */
  function FilmographyRoute(svc: Service, actorId: nat, args: Args, fetch: Request -> Response)
    : (r: HttpResponse<CreditsPage>)
    ensures ParsePaging(args).Raise? ==> r == InternalError()
    ensures r.status == 200 <==> FilmographyHandler(svc, actorId, args, fetch).Return?
    ensures r.status == 400 ==>
      ParsePaging(args).Return? && fetch(FilmographyUpstream(svc, actorId)).status == 400
    ensures ParsePaging(args).Return? && fetch(FilmographyUpstream(svc, actorId)).status == 429 ==>
      r == HttpResponse(429, ErrorBody(true, RateLimitMessage, 429))
  {
    HandlerErrorsAreUpstream(svc, actorId, 0, args, fetch);
    Serve(FilmographyHandler(svc, actorId, args, fetch))
  }

  /** `GET /media/search`. */
  function SearchMediaRoute(svc: Service, args: Args, fetch: Request -> Response)
    : (r: HttpResponse<SearchPage>)
    ensures ParseMediaSearch(args).Raise? ==> r == InternalError()
    ensures r.status == 200 <==> SearchMediaHandler(svc, args, fetch).Return?
    ensures r.status == 400 ==>
      ParseMediaSearch(args).Return? && fetch(MediaUpstream(svc, ParseMediaSearch(args).value)).status == 400
    ensures ParseMediaSearch(args).Return? &&
            fetch(MediaUpstream(svc, ParseMediaSearch(args).value)).status == 429 ==>
            r == HttpResponse(429, ErrorBody(true, RateLimitMessage, 429))
  {
    HandlerErrorsAreUpstream(svc, 0, 0, args, fetch);
    Serve(SearchMediaHandler(svc, args, fetch))
  }

  /** `GET /media/<media_id>/cast`. */
  function MediaCastRoute(svc: Service, mediaId: nat, args: Args, fetch: Request -> Response)
    : (r: HttpResponse<CreditsPage>)
    ensures ParsePaging(args).Raise? ==> r == InternalError()
    ensures r.status == 200 <==> MediaCastHandler(svc, mediaId, args, fetch).Return?
    ensures r.status == 400 ==>
      ParsePaging(args).Return? && fetch(CastUpstream(svc, mediaId, args)).status == 400
    ensures ParsePaging(args).Return? && fetch(CastUpstream(svc, mediaId, args)).status == 429 ==>
      r == HttpResponse(429, ErrorBody(true, RateLimitMessage, 429))
  {
    HandlerErrorsAreUpstream(svc, 0, mediaId, args, fetch);
    Serve(MediaCastHandler(svc, mediaId, args, fetch))
  }

  // ---------------------------------------------------------------------------
  // Properties of the routes

  /** All validation precedes the upstream call: when a guard check fails, the answer does
      not depend on the upstream at all. */
  lemma ValidationPrecedesUpstream(svc: Service, actorId: nat, mediaId: nat, args: Args,
                                   f: Request -> Response, g: Request -> Response)
    ensures ParseActorSearch(args).Raise? ==>
      SearchActorsRoute(svc, args, f) == SearchActorsRoute(svc, args, g)
    ensures ParseMediaSearch(args).Raise? ==>
      SearchMediaRoute(svc, args, f) == SearchMediaRoute(svc, args, g)
    ensures ParsePaging(args).Raise? ==>
      FilmographyRoute(svc, actorId, args, f) == FilmographyRoute(svc, actorId, args, g)
    ensures ParsePaging(args).Raise? ==>
      MediaCastRoute(svc, mediaId, args, f) == MediaCastRoute(svc, mediaId, args, g)
  {
  }

  /** The paging checks leave a positive `per_page`, so the credits routes never reach the
      division by zero of the service's page count. */
  lemma CreditsRoutesNeverDivideByZero(svc: Service, actorId: nat, mediaId: nat, args: Args,
                                       fetch: Request -> Response)
    ensures !(FilmographyHandler(svc, actorId, args, fetch).Raise? &&
              FilmographyHandler(svc, actorId, args, fetch).exc.ZeroDivisionError?)
    ensures !(MediaCastHandler(svc, mediaId, args, fetch).Raise? &&
              MediaCastHandler(svc, mediaId, args, fetch).exc.ZeroDivisionError?)
  {
  }

  /** The media type is not checked: whatever `type` says is used in the upstream path. */
  lemma MediaTypeUnchecked(svc: Service, mediaId: nat, args: Args, t: string)
    requires args.mediaType == Some(t)
    ensures HasQuery(args) && ParsePaging(args).Return? && MediaArgsValid(args.query.value, args) ==>
      MediaUpstream(svc, ParseMediaSearch(args).value).url == svc.baseUrl + "/search/" + t
    ensures CastUpstream(svc, mediaId, args).url ==
      svc.baseUrl + "/" + t + "/" + DecimalString(mediaId) + "/credits"
  {
  }

  /** An empty query does not produce the 400 the handlers raise: both search routes
      answer 500 "Internal server error". */
  lemma EmptyQueryAnswers500(svc: Service, args: Args, fetch: Request -> Response)
    requires args.query == Some("")
    ensures ParseActorSearch(args) == Raise(APIError(QueryRequiredMessage, 400))
    ensures SearchActorsRoute(svc, args, fetch) == HttpResponse(500, ErrorBody(true, "Internal server error", 500))
    ensures SearchMediaRoute(svc, args, fetch) == HttpResponse(500, ErrorBody(true, "Internal server error", 500))
  {
  }

  /** A `per_page` of 101 is rejected with a 400 by the handlers, which every route answers
      as a 500. */
  lemma PerPageTooLargeAnswers500(svc: Service, actorId: nat, args: Args, fetch: Request -> Response)
    requires args.page.None? && args.perPage == Some(101)
    ensures ParsePaging(args) == Raise(APIError(PerPageMessage, 400))
    ensures FilmographyRoute(svc, actorId, args, fetch) ==
            HttpResponse(500, ErrorBody(true, "Internal server error", 500))
  {
  }

  /** With the wrapper as intended, a failed guard check of `search_actors` answers 400
      with its own message, and every other answer is the deployed one. */
  lemma IntendedSearchActorsAnswers400(svc: Service, args: Args, fetch: Request -> Response)
    ensures ParseActorSearch(args).Raise? ==>
      ServeIntended(SearchActorsHandler(svc, args, fetch)) ==
      HttpResponse(400, ErrorBody(true, ParseActorSearch(args).exc.message, 400))
    ensures ParseActorSearch(args).Return? ==>
      ServeIntended(SearchActorsHandler(svc, args, fetch)) == SearchActorsRoute(svc, args, fetch)
  {
    if ParseActorSearch(args).Return? {
      var q := ParseActorSearch(args).value;
      ServiceTmdbErrorsAreUpstream(q.filters, q.paging.page, q.paging.perPage, fetch(ActorUpstream(svc, q)));
    }
  }

  /** The same for `search_media`. */
  lemma IntendedSearchMediaAnswers400(svc: Service, args: Args, fetch: Request -> Response)
    ensures ParseMediaSearch(args).Raise? ==>
      ServeIntended(SearchMediaHandler(svc, args, fetch)) ==
      HttpResponse(400, ErrorBody(true, ParseMediaSearch(args).exc.message, 400))
    ensures ParseMediaSearch(args).Return? ==>
      ServeIntended(SearchMediaHandler(svc, args, fetch)) == SearchMediaRoute(svc, args, fetch)
  {
    if ParseMediaSearch(args).Return? {
      var q := ParseMediaSearch(args).value;
      ServiceTmdbErrorsAreUpstream(map[], q.paging.page, q.paging.perPage, fetch(MediaUpstream(svc, q)));
    }
  }

  /** The same for the two credits routes, whose only guard checks are the paging ones. */
  lemma IntendedCreditsAnswers400(svc: Service, actorId: nat, mediaId: nat, args: Args,
                                  fetch: Request -> Response)
    ensures ParsePaging(args).Raise? ==>
      ServeIntended(FilmographyHandler(svc, actorId, args, fetch)) ==
      HttpResponse(400, ErrorBody(true, ParsePaging(args).exc.message, 400))
    ensures ParsePaging(args).Raise? ==>
      ServeIntended(MediaCastHandler(svc, mediaId, args, fetch)) ==
      HttpResponse(400, ErrorBody(true, ParsePaging(args).exc.message, 400))
    ensures ParsePaging(args).Return? ==>
      ServeIntended(FilmographyHandler(svc, actorId, args, fetch)) ==
      FilmographyRoute(svc, actorId, args, fetch)
    ensures ParsePaging(args).Return? ==>
      ServeIntended(MediaCastHandler(svc, mediaId, args, fetch)) ==
      MediaCastRoute(svc, mediaId, args, fetch)
  {
    if ParsePaging(args).Return? {
      var p := ParsePaging(args).value;
      ServiceTmdbErrorsAreUpstream(map[], p.page, p.perPage, fetch(FilmographyUpstream(svc, actorId)));
      ServiceTmdbErrorsAreUpstream(map[], p.page, p.perPage, fetch(CastUpstream(svc, mediaId, args)));
    }
  }
}
