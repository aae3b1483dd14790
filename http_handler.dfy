/** AuthenticatedHttpClientHandler: the delegating handler every domain HTTP client
    goes through. It writes the bearer header onto the request object in place and
    turns whatever the next handler throws into one HttpRequestException whose
    message says what went wrong. */
module AuthenticatedHttp {
  import opened Wrappers
  import AuthTokens
  import SessionSpec

  datatype AuthenticationHeaderValue = AuthenticationHeaderValue(scheme: string, parameter: string)

  /** A request as the next handler receives it; `verb` is its HTTP method. */
  datatype RequestView = RequestView(
    verb: string,
    uri: string,
    authorization: Option<AuthenticationHeaderValue>,
    headers: map<string, string>,
    content: Option<string>)

  datatype HttpResponseMessage = HttpResponseMessage(statusCode: int, content: string)

  /** The exception classes the handler tells apart: HttpRequestException (and its
      subclasses), TaskCanceledException, and every other class, by name. */
  datatype ExceptionKind = HttpRequestException | TaskCanceledException | OtherException(typeName: string)

  datatype Exception = Exception(kind: ExceptionKind, message: string, inner: Option<Exception>)

  /** How a handler completes: with a response, or by throwing. */
  type Outcome = Result<HttpResponseMessage, Exception>

  const BearerScheme := "Bearer"
  const CannotConnectMessage :=
    "No se ha podido establecer conexión con el servidor. Por favor, compruebe su conexión a Internet."
  const TookTooLongMessage :=
    "La solicitud ha tardado demasiado. Por favor, inténtelo de nuevo más tarde."
  const UnexpectedErrorMessage :=
    "Ha ocurrido un error inesperado. Por favor, inténtelo de nuevo más tarde."

  /** The request as forwarded: with `Bearer <token>` as its Authorization header
      when the session's token is not null (an empty token included), and untouched
      otherwise. */
  function WithBearer(request: RequestView, token: Option<string>): (r: RequestView)
    ensures token.Some? ==> r.authorization == Some(AuthenticationHeaderValue(BearerScheme, token.value))
    ensures token.None? ==> r == request
    ensures r == request.(authorization := r.authorization)
  {
    if token.Some? then request.(authorization := Some(AuthenticationHeaderValue(BearerScheme, token.value)))
    else request
  }

  /** The catch clauses of `SendAsync`: a response passes through unchanged; every
      exception becomes an HttpRequestException whose message names its class, with
      the original kept as inner exception except for a timeout. */
  function Normalize(outcome: Outcome): (r: Outcome)
    ensures outcome.Success? ==> r == outcome
    ensures outcome.Failure? ==> r.Failure? && r.error.kind == HttpRequestException
    ensures outcome.Failure? ==>
      (r.error.message == CannotConnectMessage <==> outcome.error.kind == HttpRequestException)
    ensures outcome.Failure? ==>
      (r.error.message == TookTooLongMessage <==> outcome.error.kind == TaskCanceledException)
    ensures outcome.Failure? ==>
      (r.error.message == UnexpectedErrorMessage <==> outcome.error.kind.OtherException?)
    ensures outcome.Failure? ==>
      r.error.inner == if outcome.error.kind == TaskCanceledException then None else Some(outcome.error)
  {
    match outcome
    case Success(_) => outcome
    case Failure(e) =>
      match e.kind
      case HttpRequestException => Failure(Exception(HttpRequestException, CannotConnectMessage, Some(e)))
      case TaskCanceledException => Failure(Exception(HttpRequestException, TookTooLongMessage, None))
      case OtherException(_) => Failure(Exception(HttpRequestException, UnexpectedErrorMessage, Some(e)))
  }

  /** `HttpRequestMessage`: the request object the handler decorates in place. */
  class HttpRequestMessage {
    const verb: string
    const uri: string
    var authorization: Option<AuthenticationHeaderValue>
    var headers: map<string, string>
    const content: Option<string>

    function View(): RequestView
      reads this
    {
      RequestView(verb, uri, authorization, headers, content)
    }

    constructor (view: RequestView)
      ensures View() == view
    {
      verb := view.verb;
      uri := view.uri;
      authorization := view.authorization;
      headers := view.headers;
      content := view.content;
    }
  }

  class AuthenticatedHttpClientHandler {
    const authTokenService: AuthTokens.AuthTokenService

    constructor (authTokenService: AuthTokens.AuthTokenService)
      ensures this.authTokenService == authTokenService
    {
      this.authTokenService := authTokenService;
    }

    /** `SendAsync`; `next` is the inner handler (`base.SendAsync`). Only the
        request's Authorization header may change, and the session is only read. */
    method SendAsync(request: HttpRequestMessage, next: RequestView -> Outcome) returns (r: Outcome)
      modifies request`authorization
      ensures request.View() == WithBearer(old(request.View()), authTokenService.token)
      ensures r == Normalize(next(request.View()))
    {
      if authTokenService.token.Some? {
        request.authorization := Some(AuthenticationHeaderValue(BearerScheme, authTokenService.token.value));
      }
      var outcome := next(request.View());
      r := Normalize(outcome);
    }
  }

  /** The header follows the token, not the session's validity: an empty or expired
      token is still sent. */
  lemma HeaderIgnoresValidity(request: RequestView, s: SessionSpec.SessionState, now: int)
    requires s.token == Some("")
    ensures !SessionSpec.IsAuthenticated(s, now)
    ensures WithBearer(request, s.token).authorization == Some(AuthenticationHeaderValue(BearerScheme, ""))
  {
  }
}
