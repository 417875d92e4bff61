/**
 * The interceptor that turns every failed request into one error toast,
 * logs the session out on 401, and hands the original error on.
 */
module ErrorInterceptor {
  import opened Common
  import opened Http
  import opened AuthService
  import opened Notifications
  import RoleGuard

  const DefaultMessage := "An error occurred"
  const UnauthorizedMessage := "Unauthorized. Please login again."
  const ForbiddenMessage := "Access forbidden."
  const NotFoundMessage := "Resource not found."
  const ServerErrorMessage := "Internal server error."

  /** The message for a status with a fixed one. */
  function FixedMessage(status: int): (m: Option<string>)
    ensures m.Some? <==> status in {401, 403, 404, 500}
  {
    if status == 401 then Some(UnauthorizedMessage)
    else if status == 403 then Some(ForbiddenMessage)
    else if status == 404 then Some(NotFoundMessage)
    else if status == 500 then Some(ServerErrorMessage)
    else None
  }

  /**
   * The toast text: a client-side event's own message; else the fixed text
   * of 401, 403, 404 and 500; else the body's message when truthy; else the
   * default.
   */
  function ErrorMessage(e: ErrorResponse): (msg: string)
    ensures e.body.ClientEvent? ==> msg == e.body.eventMessage
    ensures !e.body.ClientEvent? && FixedMessage(e.status).Some? ==> msg == FixedMessage(e.status).value
    ensures !e.body.ClientEvent? && FixedMessage(e.status).None? ==>
      msg == OrText(BodyMessage(e.body), DefaultMessage)
  {
    if e.body.ClientEvent? then e.body.eventMessage
    else if FixedMessage(e.status).Some? then FixedMessage(e.status).value
    else if PresentText(BodyMessage(e.body)) then BodyMessage(e.body).value
    else DefaultMessage
  }

  /** The fixed texts win over anything a server body says. */
  lemma FixedMessageIgnoresBody(status: int, b1: ErrorBody, b2: ErrorBody)
    requires status in {401, 403, 404, 500}
    requires !b1.ClientEvent? && !b2.ClientEvent?
    ensures ErrorMessage(ErrorResponse(status, b1)) == ErrorMessage(ErrorResponse(status, b2))
  {
  }

  /** A server error with no other rule ends with a non-empty message. */
  lemma ServerMessageNonEmpty(e: ErrorResponse)
    requires !e.body.ClientEvent?
    ensures ErrorMessage(e) != ""
  {
  }

  /** Only a server-side 401 logs out. */
  predicate LogsOut(e: ErrorResponse)
  {
    !e.body.ClientEvent? && e.status == 401
  }

  /**
   * `errorInterceptor` on one failure: exactly one error toast titled
   * `Error`, a logout and a move to the login page on 401 only, and the
   * same error rethrown.
   */
  method Intercept(e: ErrorResponse, auth: AuthServiceState, notes: NotificationService)
    returns (toast: Toast, navigate: Option<string>, rethrown: ErrorResponse)
    modifies auth
    ensures rethrown == e
    ensures toast == Toast("Error", ErrorMessage(e), Error)
    ensures LogsOut(e) ==>
      auth.storage == old(auth.storage) - SessionKeys && auth.currentUser.None? && !auth.isAuthenticated &&
      navigate == Some(RoleGuard.LoginPage)
    ensures !LogsOut(e) ==>
      auth.storage == old(auth.storage) && auth.currentUser == old(auth.currentUser) &&
      auth.isAuthenticated == old(auth.isAuthenticated) && navigate.None?
  {
    var message := DefaultMessage;
    navigate := None;
    if e.body.ClientEvent? {
      message := e.body.eventMessage;
    } else if e.status == 401 {
      auth.Logout();
      navigate := Some(RoleGuard.LoginPage);
      message := UnauthorizedMessage;
    } else if e.status == 403 {
      message := ForbiddenMessage;
    } else if e.status == 404 {
      message := NotFoundMessage;
    } else if e.status == 500 {
      message := ServerErrorMessage;
    } else if PresentText(BodyMessage(e.body)) {
      message := BodyMessage(e.body).value;
    }
    toast := notes.ShowError("Error", message);
    rethrown := e;
  }
}
