// The legacy REST exception (redirect/restexceptions.py): a message and a
// status code that falls back to the class default 400.

module PyRestErrors {
  import opened Basics

  datatype RestException = RestException(message: string, statusCode: int)

  /** The class attribute status_code. */
  const ClassStatus := 400

  /** RestException(message, status_code): the instance status overrides the
    * class attribute only when one is given. */
  function NewRestException(message: string, statusCode: Option<int>): (r: RestException)
    ensures r.message == message
    ensures statusCode.None? ==> r.statusCode == ClassStatus
    ensures statusCode.Some? ==> r.statusCode == statusCode.value
  {
    match statusCode
    case None => RestException(message, ClassStatus)
    case Some(code) => RestException(message, code)
  }

  function BadRequest(message: string): (r: RestException)
    ensures r == RestException(message, 400)
  {
    NewRestException(message, None)
  }

  function Conflict(message: string): (r: RestException)
    ensures r == RestException(message, 409)
  {
    NewRestException(message, Some(409))
  }

  /** A RestException always has a status: the given one or 400; an
    * explicit 400 and no status at all build the same exception. */
  lemma StatusAlwaysSet(message: string, statusCode: Option<int>)
    ensures NewRestException(message, statusCode).statusCode == if statusCode.Some? then statusCode.value else 400
    ensures NewRestException(message, Some(400)) == NewRestException(message, None)
    ensures BadRequest(message) != Conflict(message)
  {
  }
}
