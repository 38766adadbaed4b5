/** utils/decorators.py: the `handle_tmdb_errors` wrapper, as a map from the outcome of
    the wrapped call to the outcome of the wrapper. */
module Decorators {
  import opened Errors

  const InternalErrorMessage := "Internal server error"

  /** `handle_tmdb_errors(f)(...)`, given what `f(...)` did. A return passes through; a
      TMDbError becomes an APIError with its message and status; any other exception,
      an APIError included, becomes a generic 500. */
  function HandleTmdbErrors<T>(o: Outcome<T>): (r: Outcome<T>)
    ensures o.Return? ==> r == o
    ensures o.Raise? && o.exc.TMDbError? ==> r == Raise(APIError(o.exc.Str(), o.exc.statusCode))
    ensures o.Raise? && !o.exc.TMDbError? ==> r == Raise(APIError(InternalErrorMessage, 500))
  {
    match o
    case Return(_) => o
    case Raise(e) =>
      if e.TMDbError? then Raise(APIError(e.Str(), e.statusCode))
      else Raise(APIError(InternalErrorMessage, 500))
  }

  /** Nothing but an APIError escapes the wrapper, and its status is either the
      TMDbError's or 500. */
  lemma OnlyApiErrorsEscape<T>(o: Outcome<T>)
    ensures var r := HandleTmdbErrors(o);
      r.Return? ||
      (r.exc.APIError? &&
       (r.exc.statusCode == 500 || (o.Raise? && o.exc.TMDbError? && r.exc.statusCode == o.exc.statusCode)))
  {
  }

  /** An APIError raised inside the wrapped function is not a TMDbError, so it is caught
      by the generic branch: its message and status are lost. */
  lemma ApiErrorsBecomeInternal<T>(message: string, status: int)
    ensures HandleTmdbErrors<T>(Raise(APIError(message, status))) ==
            Raise(APIError(InternalErrorMessage, 500))
  {
  }

  /** The wrapper as evidently intended: an APIError raised by the route is re-raised
      unchanged, the other two branches are as before. */
  function HandleTmdbErrorsIntended<T>(o: Outcome<T>): (r: Outcome<T>)
    ensures o.Return? ==> r == o
    ensures o.Raise? && o.exc.APIError? ==> r == o
    ensures o.Raise? && !o.exc.APIError? ==> r == HandleTmdbErrors(o)
  {
    if o.Raise? && o.exc.APIError? then o else HandleTmdbErrors(o)
  }
}
