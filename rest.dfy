// The response side of the REST API (backend/rest/common.go): how a
// handler's outcome becomes a status line and a JSON response.

module Rest {
  import opened Basics
  import opened Errors
  import Actions

  /** rest.Response; `data` is the handler's value on success. */
  datatype Response<D> = Response(
    success: bool,
    message: string,
    data: Option<D>,
    parametersMessages: Option<seq<ParameterMessages>>)

  /** The status codes net/http accepts in WriteHeader (it panics on any other). */
  predicate ValidStatus(code: int) {
    100 <= code <= 999
  }

  /** ErrorToResponse: a failure response carrying err.Error(); a parameter
    * error adds its messages and gives 400, a service error gives its own
    * status, anything else 500. */
  function ErrorToResponse<D>(err: Error): (r: (Response<D>, int))
    ensures !r.0.success && r.0.message == Message(err) && r.0.data.None?
    ensures err.ParameterError? ==> r.1 == 400 && r.0.parametersMessages == Some(err.parameterErrors)
    ensures err.ServiceError? ==> r.1 == err.statusCode && r.0.parametersMessages.None?
    ensures !err.ParameterError? && !err.ServiceError? ==> r.1 == 500 && r.0.parametersMessages.None?
  {
    var response: Response<D> := Response(false, "Unknown Error", None, None);
    var (typed, statusCode) :=
      match err
      case ParameterError(messages) => (response.(parametersMessages := Some(messages)), 400)
      case ServiceError(_, code) => (response, code)
      case _ => (response, 500);
    (typed.(message := Message(err)), statusCode)
  }

  /** The response a successful handler sends. */
  function SuccessResponse<D>(data: D): (r: Response<D>)
    ensures r.success && r.data == Some(data) && r.parametersMessages.None?
  {
    Response(true, "", Some(data), None)
  }

  /** An http.ResponseWriter: the status line once written, the responses
    * written to the body, and whether a panic ended the handler. */
  class ResponseWriter<D> {
    var status: Option<int>
    var body: seq<Response<D>>
    var aborted: bool

    constructor ()
      ensures status.None? && body == [] && !aborted
    {
      status, body, aborted := None, [], false;
    }

    /** WriteHeader: a code outside 100..999 panics; otherwise only the first
      * status written counts. */
    method WriteHeader(code: int)
      modifies this
      ensures body == old(body)
      ensures !ValidStatus(code) ==> aborted && status == old(status)
      ensures ValidStatus(code) ==>
        aborted == old(aborted) && status == if old(status).None? then Some(code) else old(status)
    {
      if !ValidStatus(code) {
        aborted := true;
        return;
      }
      if status.None? {
        status := Some(code);
      }
    }

    /** Writing the body sends status 200 first when none was written. */
    method Write(response: Response<D>)
      modifies this
      ensures body == old(body) + [response] && aborted == old(aborted)
      ensures status == if old(status).None? then Some(200) else old(status)
    {
      if status.None? {
        status := Some(200);
      }
      body := body + [response];
    }

    /** fail: the status from ErrorToResponse, then the failure response. A
      * panic in WriteHeader ends the handler before anything is written. */
    method Fail(err: Error)
      modifies this
      ensures var (response, code) := ErrorToResponse<D>(err);
        (ValidStatus(code) ==>
           aborted == old(aborted) && body == old(body) + [response] &&
           status == if old(status).None? then Some(code) else old(status)) &&
        (!ValidStatus(code) ==> aborted && body == old(body) && status == old(status))
    {
      var (response, code) := ErrorToResponse<D>(err);
      WriteHeader(code);
      if !ValidStatus(code) {
        return;
      }
      Write(response);
    }

    /** success: the data in a success response, with the default status. */
    method Success(data: D)
      modifies this
      ensures body == old(body) + [SuccessResponse(data)] && aborted == old(aborted)
      ensures status == if old(status).None? then Some(200) else old(status)
    {
      var response := Response(true, "", Some(data), None);
      Write(response);
    }

    /** Handle: the handler's outcome is sent as a failure or a success. */
    method Handle(outcome: Result<D, Error>)
      modifies this
      ensures outcome.Ok? ==>
        body == old(body) + [SuccessResponse(outcome.value)] && aborted == old(aborted) &&
        status == if old(status).None? then Some(200) else old(status)
      ensures outcome.Err? && ValidStatus(ErrorToResponse<D>(outcome.error).1) ==>
        body == old(body) + [ErrorToResponse<D>(outcome.error).0] && aborted == old(aborted) &&
        status == if old(status).None? then Some(ErrorToResponse<D>(outcome.error).1) else old(status)
      ensures outcome.Err? && !ValidStatus(ErrorToResponse<D>(outcome.error).1) ==>
        aborted && body == old(body) && status == old(status)
    {
      if outcome.Err? {
        Fail(outcome.error);
      } else {
        Success(outcome.value);
      }
    }
  }

  // ------------------------------------------------------------------ lemmas

  /** A service error's status is the HTTP status, and its message the response's. */
  lemma ServiceErrorStatusIsHttpStatus<D>(message: string, code: int)
    ensures ErrorToResponse<D>(NewServiceErrorWithCode(message, code)) == (Response(false, message, None, None), code)
    ensures ErrorToResponse<D>(NewServiceError(message)).1 == 400
  {
  }

  /** Only a service error can carry a status net/http refuses: parameter
    * errors give 400 and every other error 500. */
  lemma OnlyServiceErrorsBreakTheStatus<D>(err: Error)
    requires !ValidStatus(ErrorToResponse<D>(err).1)
    ensures err.ServiceError? && !ValidStatus(err.statusCode)
  {
  }

  /** Only a parameter error carries parameter messages. */
  lemma MessagesOnlyForParameterErrors<D>(err: Error)
    ensures ErrorToResponse<D>(err).0.parametersMessages.Some? <==> err.ParameterError?
  {
  }

  /** The unknown-token error as written reaches WriteHeader with status 0,
    * which net/http refuses: the request gets no response. */
  lemma UnknownTokenAsWrittenGetsNoResponse<D>()
    ensures ErrorToResponse<D>(Actions.UnknownTokenAsWritten("invalid activation token")).1 == 0
    ensures !ValidStatus(ErrorToResponse<D>(Actions.UnknownTokenAsWritten("invalid activation token")).1)
    ensures !ValidStatus(ErrorToResponse<D>(Actions.UnknownTokenAsWritten("invalid password token")).1)
  {
  }

  /** With the status evidently intended, an unknown token is a 400 answer
    * that carries the service's message. */
  lemma UnknownTokenIsBadRequest<D>(message: string)
    ensures ErrorToResponse<D>(Actions.UnknownToken(message)) == (Response(false, message, None, None), 400)
    ensures ValidStatus(ErrorToResponse<D>(Actions.UnknownToken(message)).1)
  {
  }
}
