/**
 * The catch-all `AllExceptionsFilter`
 * (backend/src/common/filters/all-exceptions.filter.ts): it builds a
 * response body with a default message of "Internal server error" and
 * overwrites its fields for HTTP exceptions and for the TypeORM
 * unique-violation code "23505".
 */
module AllExceptionsFilter {
  import opened Wrappers
  import opened JsValue
  import opened Exceptions
  import HttpStatus

  const INTERNAL_MESSAGE := "Internal server error"
  const DUPLICATE_MESSAGE := "Duplicate entry"
  const UNIQUE_VIOLATION := "23505"

  /** The reply body; `timestamp` and `path` are what the clock and the HTTP adapter supplied. */
  datatype ResponseBody = ResponseBody(statusCode: int, timestamp: string, path: string, message: Message, error: Option<string>)

  /** What the filter sends: the body, with the status it is sent with. */
  datatype Reply = Reply(status: int, body: ResponseBody)

  /** Reading a property of `null` or `undefined`. */
  datatype TypeError = PropertyOfNullish

  /** `(exception as any).code` as written: a TypeError for a thrown `null` or `undefined`. */
  function CodeAsWritten(e: Exception): (r: Result<Json, TypeError>)
    ensures r.Failure? <==> e.Thrown? && (e.value.Null? || e.value.Undefined?)
  {
    match e
    case HttpException(_, _, _) => Success(Undefined)
    case JsError(_, code) => Success(code)
    case Thrown(v) =>
      if v.Null? || v.Undefined? then Failure(PropertyOfNullish)
      else if v.Obj? && "code" in v.fields then Success(v.fields["code"])
      else Success(Undefined)
  }

  /** `exception?.code`: the same lookup, but `undefined` for a nullish exception. */
  function CodeOf(e: Exception): (r: Json)
    ensures CodeAsWritten(e).Success? ==> r == CodeAsWritten(e).value
    ensures CodeAsWritten(e).Failure? ==> r == Undefined
  {
    match CodeAsWritten(e)
    case Success(code) => code
    case Failure(_) => Undefined
  }

  /** The HTTP branch: a string body is the message, an object body its truthy `message` or else the exception's. */
  function HttpMessage(response: Body, message: string): Message {
    match response
    case StrBody(text) => Text(text)
    case ObjBody(m, _) => if MessageTruthy(m) then m.value else Text(message)
  }

  /** A truthy `error` of an object body is copied into the reply. */
  function CopiedError(response: Body): Option<string> {
    if response.ObjBody? && response.error.Some? && response.error.value != "" then response.error else None
  }

  /** The reply for `e`, with a nullish exception treated as one without a code. */
  function Respond(e: Exception, path: string, now: string): (r: Reply)
    ensures r.status == r.body.statusCode
    ensures r.body.path == path && r.body.timestamp == now
    ensures e.HttpException? ==> r.status == e.status
    ensures e.HttpException? ==> r.body.message == HttpMessage(e.response, e.message)
    ensures e.HttpException? ==> r.body.error == CopiedError(e.response)
    ensures !e.HttpException? ==> r.body.error.None?
    ensures !e.HttpException? ==> (r.status == HttpStatus.CONFLICT <==> CodeOf(e) == Str(UNIQUE_VIOLATION))
    ensures !e.HttpException? && CodeOf(e) != Str(UNIQUE_VIOLATION) ==> r.status == HttpStatus.INTERNAL_SERVER_ERROR
    ensures !e.HttpException? ==> r.body.message == Text(if CodeOf(e) == Str(UNIQUE_VIOLATION) then DUPLICATE_MESSAGE else INTERNAL_MESSAGE)
  {
    if e.HttpException? then
      Reply(e.status, ResponseBody(e.status, now, path, HttpMessage(e.response, e.message), CopiedError(e.response)))
    else if CodeOf(e) == Str(UNIQUE_VIOLATION) then
      Reply(HttpStatus.CONFLICT, ResponseBody(HttpStatus.CONFLICT, now, path, Text(DUPLICATE_MESSAGE), None))
    else
      Reply(HttpStatus.INTERNAL_SERVER_ERROR, ResponseBody(HttpStatus.INTERNAL_SERVER_ERROR, now, path, Text(INTERNAL_MESSAGE), None))
  }

  /**
   * `catch`: the body starts with the exception's status and the default
   * message, and the branches overwrite its fields.
   */
  method Catch(e: Exception, path: string, now: string) returns (r: Reply)
    ensures r == Respond(e, path, now)
  {
    var httpStatus := if e.HttpException? then e.status else HttpStatus.INTERNAL_SERVER_ERROR;
    var body := ResponseBody(httpStatus, now, path, Text(INTERNAL_MESSAGE), None);
    if e.HttpException? {
      body := body.(message := HttpMessage(e.response, e.message));
      if e.response.ObjBody? && e.response.error.Some? && e.response.error.value != "" {
        body := body.(error := e.response.error);
      }
    } else {
      var code := CodeOf(e);
      if code == Str(UNIQUE_VIOLATION) {
        body := body.(statusCode := HttpStatus.CONFLICT);
        body := body.(message := Text(DUPLICATE_MESSAGE));
      }
    }
    r := Reply(body.statusCode, body);
  }

  /** The filter as written: the `code` lookup can itself throw. */
  function CatchAsWritten(e: Exception, path: string, now: string): (r: Result<Reply, TypeError>)
    ensures r.Success? ==> r.value == Respond(e, path, now)
    ensures r.Failure? <==> CodeAsWritten(e).Failure?
  {
    if e.HttpException? then Success(Respond(e, path, now))
    else
      match CodeAsWritten(e)
      case Failure(err) => Failure(err)
      case Success(_) => Success(Respond(e, path, now))
  }

  /**
   * `throw null` makes the filter itself throw instead of replying, while
   * the guarded lookup replies 500 "Internal server error".
   */
  lemma ThrownNullEscapesFilter(path: string, now: string)
    ensures CatchAsWritten(Thrown(Null), path, now).Failure?
    ensures Respond(Thrown(Null), path, now).status == HttpStatus.INTERNAL_SERVER_ERROR
    ensures Respond(Thrown(Null), path, now).body.message == Text(INTERNAL_MESSAGE)
  {
  }
}
