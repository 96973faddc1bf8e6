/**
 * The bearer-token `AuthGuard` (backend/src/common/guards/auth.guard.ts):
 * a request passes only with the fixed header "Bearer secret-token".
 */
module AuthGuard {
  import opened Wrappers
  import opened Exceptions
  import HttpStatus
  import HttpExceptionFilter

  const ACCEPTED_HEADER := "Bearer secret-token"
  const MISSING_MESSAGE := "No authorization header found"
  const INVALID_MESSAGE := "Invalid token"

  /**
   * `canActivate` for the request's `authorization` header: it returns
   * true or throws an `UnauthorizedException`, and never returns false.
   */
  function CanActivate(authorization: Option<string>): (r: Result<bool, Exception>)
    ensures r.Success? <==> authorization == Some(ACCEPTED_HEADER)
    ensures r.Success? ==> r.value
    ensures authorization.None? || authorization.value == "" ==> r == Failure(Unauthorized(MISSING_MESSAGE))
    ensures authorization.Some? && authorization.value != "" && authorization.value != ACCEPTED_HEADER ==>
      r == Failure(Unauthorized(INVALID_MESSAGE))
    ensures r.Failure? ==> r.error.HttpException? && r.error.status == HttpStatus.UNAUTHORIZED
  {
    if authorization.None? || authorization.value == "" then Failure(Unauthorized(MISSING_MESSAGE))
    else if authorization.value == ACCEPTED_HEADER then Success(true)
    else Failure(Unauthorized(INVALID_MESSAGE))
  }

  /** Both rejections reach the client through the exception filter as a 401 carrying the guard's message, logged as a warning. */
  lemma RejectionsReachClient(authorization: Option<string>)
    requires CanActivate(authorization).Failure?
    ensures var reply := HttpExceptionFilter.Catch(CanActivate(authorization).error);
      && reply.status == HttpStatus.UNAUTHORIZED
      && reply.body.message == (if authorization.None? || authorization.value == "" then MISSING_MESSAGE else INVALID_MESSAGE)
      && reply.log == HttpExceptionFilter.WarnLog
  {
    var msg := if authorization.None? || authorization.value == "" then MISSING_MESSAGE else INVALID_MESSAGE;
    HttpExceptionFilter.GuardRejectionsRendered(msg);
  }
}
