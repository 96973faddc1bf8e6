/**
 * The standard response envelope of the backend
 * (backend/src/common/interceptors/response.interceptor.ts): every value a
 * handler returns is wrapped as `{success, message, data, statusCode}`.
 */
module ResponseEnvelope {
  import opened JsValue

  const SUCCESS_MESSAGE := "Operation successful"

  datatype StandardResponse = StandardResponse(success: bool, message: string, data: Json, statusCode: int)

  /**
   * The `map` applied to the handler's value `data`, with the `statusCode`
   * read from the response object when the interceptor ran.
   */
  function Wrap(data: Json, statusCode: int): (r: StandardResponse)
    ensures r.success && r.message == SUCCESS_MESSAGE && r.statusCode == statusCode
    ensures data.Undefined? ==> r.data == Null
    ensures !data.Undefined? ==> r.data == data
    ensures !r.data.Undefined?
  {
    if data == Undefined then
      StandardResponse(true, SUCCESS_MESSAGE, Null, statusCode)
    else
      StandardResponse(true, SUCCESS_MESSAGE, if data.Undefined? || data.Null? then Null else data, statusCode)
  }

  /**
   * Wrapping loses nothing but the difference between `undefined` and
   * `null`: two values give the same envelope if and only if they are equal
   * or are `undefined` and `null`.
   */
  lemma WrapCollisions(a: Json, b: Json, statusCode: int)
    ensures Wrap(a, statusCode) == Wrap(b, statusCode) <==>
      a == b || (a.Undefined? && b.Null?) || (a.Null? && b.Undefined?)
  {
  }
}
