// The Go `error` values the core produces and inspects
// (backend/model/service_error.go and backend/model/parameters_error.go).

module Errors {

  /** One field's validation messages, in the order they were added. */
  datatype ParameterMessages = ParameterMessages(parameter: string, messages: seq<string>)

  /** The dynamic types behind Go's `error` interface that the core tells
    * apart: *model.ParameterError, *model.ServiceError, an AWS SDK error
    * (awserr.Error, inspected by its code), and every other error (database,
    * SMTP, PayPal, files), which only has a message. */
  datatype Error =
    | ParameterError(parameterErrors: seq<ParameterMessages>)
    | ServiceError(internalError: string, statusCode: int)
    | AwsError(code: string, awsMessage: string)
    | Failure(message: string)

  /** err.Error(). */
  function Message(e: Error): (m: string)
    ensures e.ParameterError? ==> m == "There's an error in parameters"
    ensures e.ServiceError? ==> m == e.internalError
    ensures e.AwsError? ==> m == e.code + ": " + e.awsMessage
    ensures e.Failure? ==> m == e.message
  {
    match e
    case ParameterError(_) => "There's an error in parameters"
    case ServiceError(internal, _) => internal
    case AwsError(code, message) => code + ": " + message
    case Failure(message) => message
  }

  /** model.NewServiceError: a service error carrying `message` with status 400. */
  function NewServiceError(message: string): (e: Error)
    ensures e.ServiceError? && e.statusCode == 400 && Message(e) == message
  {
    ServiceError(message, 400)
  }

  /** model.NewServiceErrorWithCode: a service error with the caller's status. */
  function NewServiceErrorWithCode(message: string, code: int): (e: Error)
    ensures e.ServiceError? && e.statusCode == code && Message(e) == message
  {
    ServiceError(message, code)
  }

  /** A parameter error for one field with one message (the helper that
    * users.go calls to report an already-registered email). */
  function SingleParameterError(parameter: string, message: string): (e: Error)
    ensures e.ParameterError? && e.parameterErrors == [ParameterMessages(parameter, [message])]
  {
    ParameterError([ParameterMessages(parameter, [message])])
  }

  /** The two constructors differ only in the status they record. */
  lemma ServiceErrorConstructorsAgree(message: string)
    ensures NewServiceError(message) == NewServiceErrorWithCode(message, 400)
  {
  }
}
