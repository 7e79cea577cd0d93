// The status-carrying error record of backend/model/error.go, returned by the
// legacy service of backend/service/service.go.

module ModelError {
  import opened Basics
  import Errors

  /** model.Error: an HTTP status, an optional underlying error and optional
    * parameter messages. */
  datatype StatusError = StatusError(
    statusCode: int,
    error: Option<Errors.Error>,
    parameterErrors: Option<seq<Errors.ParameterMessages>>)

  /** Validation failure: status 400, no underlying error, the messages. */
  function ParametersError(parameterErrors: seq<Errors.ParameterMessages>): (r: StatusError)
    ensures r.statusCode == 400 && r.error.None? && r.parameterErrors == Some(parameterErrors)
  {
    StatusError(400, None, Some(parameterErrors))
  }

  /** A rejection the caller caused: status 400 and the error, no messages. */
  function ServiceError(error: Errors.Error): (r: StatusError)
    ensures r.statusCode == 400 && r.error == Some(error) && r.parameterErrors.None?
  {
    StatusError(400, Some(error), None)
  }

  /** A failure of a collaborator: status 500 and the error, no messages. */
  function UnknownError(error: Errors.Error): (r: StatusError)
    ensures r.statusCode == 500 && r.error == Some(error) && r.parameterErrors.None?
  {
    StatusError(500, Some(error), None)
  }

  /** Only ParametersError carries parameter messages, and only UnknownError
    * reports a server-side status. */
  lemma OnlyParametersErrorCarriesMessages(e: Errors.Error, p: seq<Errors.ParameterMessages>)
    ensures ParametersError(p).parameterErrors.Some?
    ensures ServiceError(e).parameterErrors.None? && UnknownError(e).parameterErrors.None?
    ensures ParametersError(p).statusCode < 500 && ServiceError(e).statusCode < 500
    ensures UnknownError(e).statusCode == 500
  {
  }
}
