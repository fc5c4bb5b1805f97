/** The service's error values (rest/error.go): a message, an HTTP status code
    and an optional cause. Constructors fix the status code; a non-nil cause is
    annotated with the place the error was created. */
module RestErrors {
  import opened Wrappers

  const StatusBadRequest := 400
  const StatusUnauthorized := 401
  const StatusNotFound := 404
  const StatusUnprocessableEntity := 422
  const StatusInternalServerError := 500

  /** A Go `error` value that is not nil. The text of library errors is not
      modelled beyond what identifies them. */
  datatype GoError =
    | Message(text: string)                  // an error built from a message (fmt.Errorf, a driver error)
    | NumError(func: string, num: string) // strconv's *NumError for the input `num`
    | Annotated(inner: GoError)              // annotateError's wrapper around a cause

  /** `errorData`, the concrete type behind the `RestError` interface. */
  datatype ErrorData = ErrorData(message: string, code: int, cause: Option<GoError>) {

    /** `Error()`: the message, verbatim. */
    function Error(): (r: string)
      ensures r == message
    {
      message
    }

    /** `Code()`: the HTTP status the error maps to. */
    function Code(): (r: int)
      ensures r == code
    {
      code
    }

    /** `Cause()`: the annotated cause, nil when the error was built without one. */
    function Cause(): (r: Option<GoError>)
      ensures r == cause
    {
      cause
    }
  }

  /** `annotateError`: nil stays nil; any other cause is wrapped, keeping the
      original inside. The call-site text added by runtime.Caller is not
      modelled. */
  function AnnotateError(cause: Option<GoError>): (r: Option<GoError>)
    ensures r.None? <==> cause.None?
    ensures cause.Some? ==> r == Some(Annotated(cause.value))
  {
    match cause
    case None => None
    case Some(e) => Some(Annotated(e))
  }

  function BadRequestError(message: string, cause: Option<GoError>): (e: ErrorData)
    ensures e.Error() == message && e.Code() == 400
    ensures e.Cause().None? <==> cause.None?
  {
    ErrorData(message, StatusBadRequest, AnnotateError(cause))
  }

  function AuthorizationError(message: string, cause: Option<GoError>): (e: ErrorData)
    ensures e.Error() == message && e.Code() == 401
    ensures e.Cause().None? <==> cause.None?
  {
    ErrorData(message, StatusUnauthorized, AnnotateError(cause))
  }

  function NotFoundError(message: string, cause: Option<GoError>): (e: ErrorData)
    ensures e.Error() == message && e.Code() == 404
    ensures e.Cause().None? <==> cause.None?
  {
    ErrorData(message, StatusNotFound, AnnotateError(cause))
  }

  function UnprocessableEntityError(message: string, cause: Option<GoError>): (e: ErrorData)
    ensures e.Error() == message && e.Code() == 422
    ensures e.Cause().None? <==> cause.None?
  {
    ErrorData(message, StatusUnprocessableEntity, AnnotateError(cause))
  }

  function ServerError(message: string, cause: Option<GoError>): (e: ErrorData)
    ensures e.Error() == message && e.Code() == 500
    ensures e.Cause().None? <==> cause.None?
  {
    ErrorData(message, StatusInternalServerError, AnnotateError(cause))
  }
}
