/** The exception classes of utils/errors.py, and the outcome of a call that may raise. */
module Errors {

  /** The exceptions the modelled code raises or lets through. `APIError` and `TMDbError`
      are the application's two classes; each derives directly from Python's `Exception`,
      so neither is a subclass of the other. The other alternatives are the library and
      built-in exceptions that can reach `handle_tmdb_errors`. */
  datatype Exception =
    | APIError(message: string, statusCode: int)
    | TMDbError(message: string, statusCode: int)
    | ValidationError(message: string)
    | ValueError(message: string)
    | TypeError(message: string)
    | ZeroDivisionError(message: string)
  {
    /** `str(e)`: every one of these is built with its message as its single argument. */
    function Str(): string {
      message
    }

    /** `APIError.code`, which the constructor sets to the same value as `status_code`. */
    function Code(): int
      requires APIError?
    {
      statusCode
    }
  }

  /** The outcome of a Python call: it returns a value or raises an exception. */
  datatype Outcome<+T> = Return(value: T) | Raise(exc: Exception)

  /** The fields each constructor sets, and the two classes being disjoint. */
  lemma ErrorFields(message: string, status: int)
    ensures APIError(message, status).Str() == message
    ensures APIError(message, status).Code() == status == APIError(message, status).statusCode
    ensures TMDbError(message, status).Str() == message
    ensures TMDbError(message, status).statusCode == status
    ensures !APIError(message, status).TMDbError? && !TMDbError(message, status).APIError?
  {
  }
}
