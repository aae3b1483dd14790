/** AuthService: login and registration against the backend. Each call posts one JSON
    body and classifies what comes back (status, body, or the exception thrown on the
    way) into a LoginResult or RegisterResult; neither call ever throws. */
module Authentication {
  import opened Wrappers
  import opened Text

  /** A flat JSON object whose values are strings or `null`; this is what
      `Dictionary<string, string>` serialises from and deserialises to. */
  type Json = map<string, Option<string>>

  datatype PostRequest = PostRequest(path: string, body: Json)

  /** An HTTP response: its status code, the text string interpolation prints for
      that `HttpStatusCode`, and its body. */
  datatype HttpResponse = HttpResponse(statusCode: int, statusText: string, content: string)

  /** The backend as the service sees it. `post` is `HttpClient.PostAsync`: the
      response, or the message of the exception it throws. `readJson` is
      `ReadFromJsonAsync<Dictionary<string, string>>` on a body: the object, null for
      a JSON `null`, or the message of the exception it throws. */
  datatype HttpClient = HttpClient(
    post: PostRequest -> Result<HttpResponse, string>,
    readJson: string -> Result<Option<Json>, string>)

  datatype AuthService = AuthService(httpClient: HttpClient)

  datatype ArgumentNullException = ArgumentNullException(paramName: string)

  /** `LoginResult`, with the defaults its property initialisers give. */
  datatype LoginResult = LoginResult(
    success: bool,
    id: Option<string>,
    token: Option<string>,
    expiration: Option<string>,
    errorMessage: Option<string>)

  const DefaultLoginResult := LoginResult(false, Some(""), Some(""), Some(""), Some(""))

  /** `RegisterResult`: the outcome flag and, on failure, the message. */
  datatype RegisterResult = RegisterResult(success: bool, errorMessage: Option<string>)

  const LoginPath := "/usuarios/login"
  const RegisterPath := "/usuarios/crear"
  const InvalidFormatMessage := "Formato de respuesta inválido"
  const InvalidCredentialsMessage := "Credenciales inválidas"
  const ConnectionErrorPrefix := "Error de conexión: "
  const Unauthorized := 401

  /** `HttpResponseMessage.IsSuccessStatusCode`. */
  predicate IsSuccessStatusCode(statusCode: int) {
    200 <= statusCode <= 299
  }

  /** "Error: {StatusCode} - {body}". */
  function StatusError(response: HttpResponse): string {
    "Error: " + response.statusText + " - " + response.content
  }

  /** The constructor: a null client is refused. */
  function NewAuthService(httpClient: Option<HttpClient>): (r: Result<AuthService, ArgumentNullException>)
    ensures r.Success? <==> httpClient.Some?
    ensures r.Success? ==> r.value.httpClient == httpClient.value
    ensures r.Failure? ==> r.error == ArgumentNullException("httpClient")
  {
    if httpClient.Some? then Success(AuthService(httpClient.value))
    else Failure(ArgumentNullException("httpClient"))
  }

  /** The body of the login request. */
  function LoginPayload(email: string, password: string): (body: Json)
    ensures body.Keys == {"email", "pass"}
    ensures body["email"] == Some(email) && body["pass"] == Some(password)
  {
    map["email" := Some(email), "pass" := Some(password)]
  }

  /** The body of the registration request. Description and icon are sent as they
      are, null included. */
  function RegisterPayload(nombre: string, email: string, password: string,
                           descripcion: Option<string>, icono: Option<string>): (body: Json)
    ensures body.Keys == {"nombre", "email", "pass", "descripcion", "icono"}
    ensures body["nombre"] == Some(nombre) && body["email"] == Some(email) && body["pass"] == Some(password)
    ensures body["descripcion"] == descripcion && body["icono"] == icono
  {
    map["nombre" := Some(nombre), "email" := Some(email), "pass" := Some(password),
        "descripcion" := descripcion, "icono" := icono]
  }

  predicate HasLoginFields(body: Json) {
    "token" in body && "expiration" in body && "id" in body
  }

  function LoginFailure(message: string): LoginResult {
    DefaultLoginResult.(errorMessage := Some(message))
  }

  /** What `LoginAsync` makes of the response to its POST. */
  function ClassifyLoginResponse(response: HttpResponse, readJson: string -> Result<Option<Json>, string>): (r: LoginResult)
    ensures r.success <==>
      && IsSuccessStatusCode(response.statusCode)
      && readJson(response.content).Success?
      && readJson(response.content).value.Some?
      && HasLoginFields(readJson(response.content).value.value)
    ensures r.success ==>
      var body := readJson(response.content).value.value;
      r == LoginResult(true, body["id"], body["token"], body["expiration"], Some(""))
    ensures IsSuccessStatusCode(response.statusCode) && readJson(response.content).Failure? ==>
      r == LoginFailure(ConnectionErrorPrefix + readJson(response.content).error)
    ensures IsSuccessStatusCode(response.statusCode) && readJson(response.content).Success? && !r.success ==>
      r == LoginFailure(InvalidFormatMessage)
    ensures response.statusCode == Unauthorized ==> r == LoginFailure(InvalidCredentialsMessage)
    ensures !IsSuccessStatusCode(response.statusCode) && response.statusCode != Unauthorized ==>
      r == LoginFailure(StatusError(response))
  {
    if IsSuccessStatusCode(response.statusCode) then
      match readJson(response.content)
      case Failure(message) => LoginFailure(ConnectionErrorPrefix + message)
      case Success(body) =>
        if body.Some? && HasLoginFields(body.value) then
          LoginResult(true, body.value["id"], body.value["token"], body.value["expiration"], Some(""))
        else
          LoginFailure(InvalidFormatMessage)
    else if response.statusCode == Unauthorized then
      LoginFailure(InvalidCredentialsMessage)
    else
      LoginFailure(StatusError(response))
  }

  /** `LoginAsync`: posts exactly the two credentials to the login path; an exception
      anywhere becomes a failed result, never a throw. */
  function LoginAsync(service: AuthService, email: string, password: string): (r: LoginResult)
    ensures var sent := service.httpClient.post(PostRequest(LoginPath, LoginPayload(email, password)));
      && (sent.Failure? ==> r == LoginFailure(ConnectionErrorPrefix + sent.error))
      && (sent.Success? ==> r == ClassifyLoginResponse(sent.value, service.httpClient.readJson))
    ensures !r.success ==> r.errorMessage.Some? && r.token == Some("") && r.id == Some("") && r.expiration == Some("")
  {
    match service.httpClient.post(PostRequest(LoginPath, LoginPayload(email, password)))
    case Failure(message) => LoginFailure(ConnectionErrorPrefix + message)
    case Success(response) => ClassifyLoginResponse(response, service.httpClient.readJson)
  }

  /** `RegisterAsync`: success exactly when the POST answers 2xx. */
  function RegisterAsync(service: AuthService, nombre: string, email: string, password: string,
                         descripcion: Option<string>, icono: Option<string>): (r: RegisterResult)
    ensures var sent := service.httpClient.post(PostRequest(RegisterPath, RegisterPayload(nombre, email, password, descripcion, icono)));
      && (r.success <==> sent.Success? && IsSuccessStatusCode(sent.value.statusCode))
      && (sent.Failure? ==> r.errorMessage == Some(ConnectionErrorPrefix + sent.error))
      && (sent.Success? && !r.success ==> r.errorMessage == Some(StatusError(sent.value)))
  {
    match service.httpClient.post(PostRequest(RegisterPath, RegisterPayload(nombre, email, password, descripcion, icono)))
    case Failure(message) => RegisterResult(false, Some(ConnectionErrorPrefix + message))
    case Success(response) =>
      if IsSuccessStatusCode(response.statusCode) then RegisterResult(true, None)
      else RegisterResult(false, Some(StatusError(response)))
  }

  /** `LoginResult.GetExpirationAsDateTime`. `parseExact` is `DateTime.TryParseExact`
      with the API's four formats and `parseAny` the general `DateTime.TryParse` tried
      after it. Null or empty text gives null, and so does text neither accepts. */
  function GetExpirationAsDateTime(r: LoginResult, parseExact: string -> Option<int>,
                                   parseAny: string -> Option<int>): (t: Option<int>)
    ensures IsNullOrEmpty(r.expiration) ==> t.None?
    ensures !IsNullOrEmpty(r.expiration) && parseExact(r.expiration.value).Some? ==>
      t == parseExact(r.expiration.value)
    ensures !IsNullOrEmpty(r.expiration) && parseExact(r.expiration.value).None? ==>
      t == parseAny(r.expiration.value)
    ensures t.Some? ==> !IsNullOrEmpty(r.expiration)
  {
    if IsNullOrEmpty(r.expiration) then None
    else if parseExact(r.expiration.value).Some? then parseExact(r.expiration.value)
    else parseAny(r.expiration.value)
  }
}
