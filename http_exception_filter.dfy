/**
 * The global `HttpExceptionFilter`
 * (backend/src/common/filters/http-exception.filter.ts): it turns anything a
 * handler throws into a status code, a message and the error envelope, and
 * picks the log level from the status.
 */
module HttpExceptionFilter {
  import opened Wrappers
  import opened JsValue
  import opened Exceptions
  import opened ResponseEnvelope
  import HttpStatus

  const INTERNAL_MESSAGE := "Internal server error"

  /** Status and message before an array message is joined. */
  datatype Classified = Classified(statusCode: int, message: Message)

  /** The three-way branch over the kind of exception. */
  function Classify(e: Exception): (c: Classified)
    ensures e.HttpException? ==> c.statusCode == e.status
    ensures !e.HttpException? ==> c.statusCode == HttpStatus.INTERNAL_SERVER_ERROR
    ensures e.HttpException? && e.response.StrBody? ==> c.message == Text(e.response.text)
    ensures e.HttpException? && e.response.ObjBody? ==>
      c.message == (if MessageTruthy(e.response.message) then e.response.message.value else Text(e.message))
    ensures e.JsError? ==> c.message == Text(if e.message != "" then e.message else INTERNAL_MESSAGE)
    ensures e.Thrown? ==> c.message == Text(INTERNAL_MESSAGE)
  {
    match e
    case HttpException(status, response, message) =>
      (match response
       case StrBody(text) => Classified(status, Text(text))
       case ObjBody(m, _) => Classified(status, if MessageTruthy(m) then m.value else Text(message)))
    case JsError(message, _) =>
      Classified(HttpStatus.INTERNAL_SERVER_ERROR, Text(if message != "" then message else INTERNAL_MESSAGE))
    case Thrown(_) =>
      Classified(HttpStatus.INTERNAL_SERVER_ERROR, Text(INTERNAL_MESSAGE))
  }

  /** `formattedMessage`: a list of messages is joined with ", ". */
  function Format(m: Message): string {
    match m
    case Text(t) => t
    case Lines(ls) => Join(ls, ", ")
  }

  datatype LogChoice = ErrorLog | WarnLog | NoLog

  /** Server errors are logged as errors, client errors as warnings, anything below 400 not at all. */
  function LogChoiceFor(statusCode: int): (l: LogChoice)
    ensures l == ErrorLog <==> statusCode >= 500
    ensures l == WarnLog <==> 400 <= statusCode < 500
    ensures l == NoLog <==> statusCode < 400
  {
    if statusCode >= 500 then ErrorLog
    else if statusCode >= 400 then WarnLog
    else NoLog
  }

  /** What `catch` does: the status it sends, the JSON body, and the log level used. */
  datatype Reply = Reply(status: int, body: StandardResponse, log: LogChoice)

  function Catch(e: Exception): (r: Reply)
    ensures r.status == r.body.statusCode == Classify(e).statusCode
    ensures !r.body.success && r.body.data == Null
    ensures r.body.message == Format(Classify(e).message)
    ensures r.log == LogChoiceFor(r.status)
    ensures !e.HttpException? ==> r.status == HttpStatus.INTERNAL_SERVER_ERROR && r.log == ErrorLog && r.body.message != ""
  {
    var c := Classify(e);
    var formatted := Format(c.message);
    Reply(c.statusCode, StandardResponse(false, formatted, Null, c.statusCode), LogChoiceFor(c.statusCode))
  }

  /** A successful envelope and an error envelope can never be confused. */
  lemma ErrorEnvelopeIsNotSuccess(e: Exception, data: Json, statusCode: int)
    ensures Catch(e).body != Wrap(data, statusCode)
  {
  }

  /**
   * A validation error whose body lists several messages is reported as the
   * first ones and the last one separated by ", ".
   */
  lemma {:induction false} ValidationMessagesJoined(status: int, first: seq<string>, last: string, message: string, error: Option<string>)
    requires first != []
    ensures Catch(HttpException(status, ObjBody(Some(Lines(first + [last])), error), message)).body.message
      == Join(first, ", ") + ", " + last
  {
    JoinAppend(first, [last], ", ");
  }

  /** The rejections of the bearer-token and rate-limit guards reach the client as 401 and 429 warnings with their own text. */
  lemma GuardRejectionsRendered(msg: string)
    ensures Catch(Unauthorized(msg)).status == HttpStatus.UNAUTHORIZED
    ensures msg != "" ==> Catch(Unauthorized(msg)).body.message == msg
    ensures Catch(Unauthorized(msg)).log == WarnLog
    ensures Catch(WithStatus(msg, HttpStatus.TOO_MANY_REQUESTS)).status == HttpStatus.TOO_MANY_REQUESTS
    ensures Catch(WithStatus(msg, HttpStatus.TOO_MANY_REQUESTS)).body.message == msg
    ensures Catch(WithStatus(msg, HttpStatus.TOO_MANY_REQUESTS)).log == WarnLog
  {
  }
}
