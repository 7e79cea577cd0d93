// The legacy service exceptions (redirect/servicesexceptions.py): a message,
// a status code that is assigned only when one is given, and, for parameter
// errors, the list of parameter messages.

module PyServiceErrors {
  import opened Basics

  /** A ServiceException or ParametersException. `statusCode` is None when
    * the attribute was never assigned; `parametersErrors` is Some exactly for
    * a ParametersException. */
  datatype ServiceException = ServiceException(
    message: string,
    statusCode: Option<int>,
    parametersErrors: Option<seq<string>>)

  /** The status a constructor assigns when the caller passes none. */
  const DefaultStatus := 400

  const ParametersMessage := "There's a error in parameters"

  /** ServiceException(message, status_code): an explicit None leaves the
    * status unassigned. */
  function NewServiceException(message: string, statusCode: Option<int>): (r: ServiceException)
    ensures r.message == message && r.parametersErrors.None?
    ensures r.statusCode.Some? <==> statusCode.Some?
    ensures statusCode.Some? ==> r.statusCode.value == statusCode.value
  {
    ServiceException(message, statusCode, None)
  }

  /** ParametersException(message, parameters_errors, status_code): a
    * ServiceException that also carries the parameter messages. */
  function NewParametersException(message: string, parametersErrors: seq<string>, statusCode: Option<int>): (r: ServiceException)
    ensures r.parametersErrors == Some(parametersErrors)
    ensures r.(parametersErrors := None) == NewServiceException(message, statusCode)
  {
    NewServiceException(message, statusCode).(parametersErrors := Some(parametersErrors))
  }

  /** bad_request: the default status. */
  function BadRequest(message: string): (r: ServiceException)
    ensures r == NewServiceException(message, Some(DefaultStatus)) && r.statusCode == Some(400)
  {
    NewServiceException(message, Some(DefaultStatus))
  }

  function Conflict(message: string): (r: ServiceException)
    ensures r.message == message && r.statusCode == Some(409) && r.parametersErrors.None?
  {
    NewServiceException(message, Some(409))
  }

  function Forbidden(message: string): (r: ServiceException)
    ensures r.message == message && r.statusCode == Some(403) && r.parametersErrors.None?
  {
    NewServiceException(message, Some(403))
  }

  function NotFound(message: string): (r: ServiceException)
    ensures r.message == message && r.statusCode == Some(404) && r.parametersErrors.None?
  {
    NewServiceException(message, Some(404))
  }

  /** parameters_error: the fixed message and the default status. */
  function ParametersError(parametersErrors: seq<string>): (r: ServiceException)
    ensures r.message == ParametersMessage && r.statusCode == Some(400) && r.parametersErrors == Some(parametersErrors)
  {
    NewParametersException(ParametersMessage, parametersErrors, Some(DefaultStatus))
  }

  /** The status constructors give four distinct client-error codes. */
  lemma ConstructorsAreDistinctClientErrors(m: string)
    ensures forall e :: e in [BadRequest(m), Conflict(m), Forbidden(m), NotFound(m)] ==>
      e.statusCode.Some? && 400 <= e.statusCode.value < 500 && e.parametersErrors.None?
    ensures |{BadRequest(m).statusCode, Conflict(m).statusCode, Forbidden(m).statusCode, NotFound(m).statusCode}| == 4
  {
    var s := {BadRequest(m).statusCode, Conflict(m).statusCode, Forbidden(m).statusCode, NotFound(m).statusCode};
    assert s == {Some(400), Some(409), Some(403), Some(404)};
  }

  /** Only a ParametersException carries parameter messages. */
  lemma OnlyParametersErrorsCarryMessages(message: string, statusCode: Option<int>, errors: seq<string>)
    ensures NewServiceException(message, statusCode).parametersErrors.None?
    ensures NewParametersException(message, errors, statusCode).parametersErrors == Some(errors)
    ensures ParametersError(errors).statusCode == BadRequest(ParametersMessage).statusCode
  {
  }

  /** Passing None leaves a ServiceException without a status. */
  lemma NoneLeavesStatusUnassigned(message: string)
    ensures NewServiceException(message, None).statusCode.None?
    ensures NewParametersException(message, [], None).statusCode.None?
  {
  }
}
