/**
 * JavaScript values as the backend's request and response rules see them,
 * JavaScript truthiness, `Array.prototype.join`, and the exceptions the
 * NestJS filters classify.
 */
module JsValue {
  import opened Wrappers

  /** A JavaScript value; numbers are modelled as integers. */
  datatype Json =
    | Undefined
    | Null
    | Bool(b: bool)
    | Num(n: int)
    | Str(s: string)
    | Arr(items: seq<Json>)
    | Obj(fields: map<string, Json>)

  /** Truthiness: `undefined`, `null`, `false`, `0` and `""` are falsy; every array and object is truthy. */
  predicate Truthy(v: Json) {
    match v
    case Undefined => false
    case Null => false
    case Bool(b) => b
    case Num(n) => n != 0
    case Str(s) => s != ""
    case _ => true
  }

  /** `a || b` where `a` is an optional string: the empty string is falsy. */
  function OrElse(a: Option<string>, b: string): string {
    if a.Some? && a.value != "" then a.value else b
  }

  /** `parts.join(sep)`. */
  function Join(parts: seq<string>, sep: string): string
    decreases |parts|
  {
    if |parts| == 0 then ""
    else if |parts| == 1 then parts[0]
    else Join(parts[..|parts| - 1], sep) + sep + parts[|parts| - 1]
  }

  /** Joining two non-empty lists is joining their joins with one more separator. */
  lemma {:induction false} JoinAppend(a: seq<string>, b: seq<string>, sep: string)
    requires a != [] && b != []
    ensures Join(a + b, sep) == Join(a, sep) + sep + Join(b, sep)
    decreases |b|
  {
    var ab := a + b;
    var last := b[|b| - 1];
    var b' := b[..|b| - 1];
    assert ab[..|ab| - 1] == a + b';
    assert ab[|ab| - 1] == last;
    assert Join(ab, sep) == Join(a + b', sep) + sep + last;
    if |b| == 1 {
      assert a + b' == a;
    } else {
      JoinAppend(a, b', sep);
      assert Join(b, sep) == Join(b', sep) + sep + last;
    }
  }
}

/** The status codes of `HttpStatus` that the modelled rules use. */
module HttpStatus {
  const OK := 200
  const BAD_REQUEST := 400
  const UNAUTHORIZED := 401
  const CONFLICT := 409
  const TOO_MANY_REQUESTS := 429
  const INTERNAL_SERVER_ERROR := 500
}

/** What a request handler, guard or service can throw. */
module Exceptions {
  import opened Wrappers
  import opened JsValue
  import HttpStatus

  /** The `message` of an exception response: a string, or a list of validation messages. */
  datatype Message = Text(text: string) | Lines(lines: seq<string>)

  /** A `message` field is truthy when it is a non-empty string or any array. */
  predicate MessageTruthy(m: Option<Message>) {
    m.Some? && (m.value.Lines? || m.value.text != "")
  }

  /** What `getResponse()` of an `HttpException` holds: a string, or an object with optional `message` and `error`. */
  datatype Body = StrBody(text: string) | ObjBody(message: Option<Message>, error: Option<string>)

  datatype Exception =
    | HttpException(status: int, response: Body, message: string)  // Nest's HttpException and its subclasses
    | JsError(message: string, code: Json)                          // any other `Error`, with its `code` property
    | Thrown(value: Json)                                           // a thrown value that is not an `Error`

  /** `new UnauthorizedException(msg)`: status 401, an object body with the message and the error name. */
  function Unauthorized(msg: string): (e: Exception)
    ensures e.HttpException? && e.status == HttpStatus.UNAUTHORIZED && e.message == msg
  {
    HttpException(HttpStatus.UNAUTHORIZED, ObjBody(Some(Text(msg)), Some("Unauthorized")), msg)
  }

  /** `new HttpException(msg, status)` with a string response. */
  function WithStatus(msg: string, status: int): (e: Exception)
    ensures e.HttpException? && e.status == status && e.response == StrBody(msg)
  {
    HttpException(status, StrBody(msg), msg)
  }
}
