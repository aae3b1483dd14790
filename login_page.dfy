/** LoginPage: the form behind the login screen. Its bound properties are fields the
    page updates in place; `LoginAsync` validates the two fields in a fixed order,
    calls AuthService, and on success writes the credentials into AuthTokenService
    and raises its flag. `Login` states one run of `LoginAsync` as a function of the
    form and the session before it, and the class is proved to follow it. */
module LoginPages {
  import opened Wrappers
  import opened Text
  import opened SessionSpec
  import opened EmailValidation
  import Authentication
  import AuthTokens

  const FillAllMessage := "Por favor, complete todos los campos"
  const InvalidEmailMessage := "Por favor, ingrese un correo electrónico válido"
  const LoginFailedMessage := "Error al iniciar sesión"
  const ServerUnreachableMessage := "Error al conectar con el servidor"
  const RegisterRoute := "register"

  /** The page's bound properties. */
  datatype LoginForm = LoginForm(
    email: string,
    password: string,
    isBusy: bool,
    isErrorVisible: bool,
    errorMessage: string)

  const InitialForm := LoginForm("", "", false, false, "")

  /** The error label is shown exactly when there is a message to show. */
  predicate ErrorShownIffSet(f: LoginForm) {
    f.isErrorVisible <==> f.errorMessage != ""
  }

  /** The `ErrorMessage` setter: only a change of text touches `IsErrorVisible`. */
  function AssignErrorMessage(f: LoginForm, value: string): (g: LoginForm)
    ensures g.errorMessage == value
    ensures g.email == f.email && g.password == f.password && g.isBusy == f.isBusy
    ensures f.errorMessage != value ==> (g.isErrorVisible <==> value != "")
    ensures f.errorMessage == value ==> g == f
    ensures ErrorShownIffSet(f) ==> ErrorShownIffSet(g)
  {
    if f.errorMessage != value then f.(errorMessage := value, isErrorVisible := value != "") else f
  }

  /** `OnAppearing` and the first half of `NavigateToRegisterAsync`: both fields and the
      message emptied. */
  function ClearFields(f: LoginForm): (g: LoginForm)
    ensures g.email == "" && g.password == "" && g.errorMessage == "" && g.isBusy == f.isBusy
    ensures ErrorShownIffSet(f) ==> ErrorShownIffSet(g) && !g.isErrorVisible
  {
    AssignErrorMessage(f.(email := "", password := ""), "")
  }

  /** What the page hands to `AuthService.LoginAsync`. */
  datatype Credentials = Credentials(email: string, password: string)

  /** How `LoginResult.GetExpirationAsDateTime` reads the API's expiration text:
      `TryParseExact` with the API's formats, then the general `TryParse`. */
  datatype ExpiryParsers = ExpiryParsers(exact: string -> Option<Timestamp>, general: string -> Option<Timestamp>)

  /** The success branch of `LoginAsync`: token, expiration and user id written through
      the service's setters in that order, then `SetAuthentication(true)`. */
  function StoreLogin(s: SessionState, r: Authentication.LoginResult, format: Timestamp -> string,
                      parsers: ExpiryParsers): (t: SessionState)
    ensures t.token == r.token && t.userId == r.id
    ensures t.expiration == Authentication.GetExpirationAsDateTime(r, parsers.exact, parsers.general)
    ensures Lookup(t.store, AuthTokenKey) == r.token && Lookup(t.store, UserIdKey) == r.id
    ensures Lookup(t.store, TokenExpirationKey) ==
      if t.expiration.Some? then Some(format(t.expiration.value)) else None
    ensures forall k :: k != AuthTokenKey && k != TokenExpirationKey && k != UserIdKey ==>
      Lookup(t.store, k) == Lookup(s.store, k)
    ensures t.isAuthenticated
    ensures t.events == s.events + if s.isAuthenticated then [] else [true]
  {
    var expiration := Authentication.GetExpirationAsDateTime(r, parsers.exact, parsers.general);
    SetAuthentication(SetUserId(SetExpiration(SetToken(s, r.token), expiration, format), r.id), true)
  }

  /** The form and the session after one `LoginAsync`, and the credentials it sent to
      the service, if it got that far. */
  datatype LoginStep = LoginStep(form: LoginForm, session: SessionState, sent: Option<Credentials>)

  predicate FieldsFilled(f: LoginForm) {
    !IsNullOrWhiteSpace(Some(f.email)) && !IsNullOrWhiteSpace(Some(f.password))
  }

  /** One run of `LoginAsync`. `login` is the awaited service call: the result it
      returns, or the message of an exception thrown out of it. */
  function Login(f: LoginForm, s: SessionState, login: Credentials -> Result<Authentication.LoginResult, string>,
                 format: Timestamp -> string, parsers: ExpiryParsers): (step: LoginStep)
    // the service is called exactly when both fields are filled and the e-mail is valid
    ensures step.sent.Some? <==> FieldsFilled(f) && IsValidEmail(Some(f.email))
    ensures step.sent.Some? ==> step.sent.value == Credentials(f.email, f.password)
    // validation failures, in order, leave everything but the message alone
    ensures !FieldsFilled(f) ==> step.form == AssignErrorMessage(f, FillAllMessage) && step.session == s
    ensures FieldsFilled(f) && !IsValidEmail(Some(f.email)) ==>
      step.form == AssignErrorMessage(f, InvalidEmailMessage) && step.session == s
    // once the call is made, the page is never left busy
    ensures step.sent.Some? ==> !step.form.isBusy
    ensures step.sent.Some? && login(step.sent.value).Failure? ==>
      && step.form.errorMessage == ServerUnreachableMessage
      && step.form.email == f.email && step.form.password == f.password
      && step.session == s
    ensures step.sent.Some? && login(step.sent.value).Success? && !login(step.sent.value).value.success ==>
      && step.form.errorMessage == login(step.sent.value).value.errorMessage.GetOr(LoginFailedMessage)
      && step.form.email == f.email && step.form.password == f.password
      && step.session == s
    ensures step.sent.Some? && login(step.sent.value).Success? && login(step.sent.value).value.success ==>
      && step.form.email == "" && step.form.password == "" && step.form.errorMessage == ""
      && step.session == StoreLogin(s, login(step.sent.value).value, format, parsers)
    ensures ErrorShownIffSet(f) ==> ErrorShownIffSet(step.form)
  {
    if !FieldsFilled(f) then
      LoginStep(AssignErrorMessage(f, FillAllMessage), s, None)
    else if !IsValidEmail(Some(f.email)) then
      LoginStep(AssignErrorMessage(f, InvalidEmailMessage), s, None)
    else
      Submit(f, s, login, format, parsers)
  }

  /** The `try` block of `LoginAsync`, entered once the form passes validation. */
  function Submit(f: LoginForm, s: SessionState, login: Credentials -> Result<Authentication.LoginResult, string>,
                  format: Timestamp -> string, parsers: ExpiryParsers): LoginStep
  {
    var busy := AssignErrorMessage(f.(isBusy := true), "");
    var credentials := Credentials(f.email, f.password);
    match login(credentials)
    case Failure(_) =>
      LoginStep(AssignErrorMessage(busy, ServerUnreachableMessage).(isBusy := false), s, Some(credentials))
    case Success(r) =>
      if r.success then
        LoginStep(busy.(email := "", password := "", isBusy := false),
                  StoreLogin(s, r, format, parsers), Some(credentials))
      else
        LoginStep(AssignErrorMessage(busy, r.errorMessage.GetOr(LoginFailedMessage)).(isBusy := false),
                  s, Some(credentials))
  }

  /** The page's call, `AuthService.LoginAsync`: it never throws, and a failed result
      always carries a message, so neither of the page's fallback texts is shown for it. */
  function CallService(service: Authentication.AuthService): (login: Credentials -> Result<Authentication.LoginResult, string>)
    ensures forall c :: login(c) == Success(Authentication.LoginAsync(service, c.email, c.password))
    ensures forall c :: login(c).Success? && (!login(c).value.success ==> login(c).value.errorMessage.Some?)
  {
    (c: Credentials) => Success(Authentication.LoginAsync(service, c.email, c.password))
  }

  /** With the real service the page's own fallbacks are dead code: the service never
      throws, so "Error al conectar con el servidor" is never shown for a sent request,
      and every failed result carries a message, so "Error al iniciar sesión" is never
      shown either. What the page shows is the service's own message. */
  lemma RealServiceMessagesReachThePage(f: LoginForm, s: SessionState, service: Authentication.AuthService,
                                        format: Timestamp -> string, parsers: ExpiryParsers)
    requires FieldsFilled(f) && IsValidEmail(Some(f.email))
    ensures var step := Login(f, s, CallService(service), format, parsers);
      var r := Authentication.LoginAsync(service, f.email, f.password);
      !r.success ==> step.form.errorMessage == r.errorMessage.value
  {
  }

  /** A successful login with a non-empty token and an expiration that parses to a
      time after `now` leaves the session authenticated for `now`, with the user id the
      API returned, and the shell hears `true` unless the flag was already up. */
  lemma SuccessfulLoginAuthenticates(f: LoginForm, s: SessionState,
                                     login: Credentials -> Result<Authentication.LoginResult, string>,
                                     format: Timestamp -> string, parsers: ExpiryParsers, now: Timestamp)
    requires FieldsFilled(f) && IsValidEmail(Some(f.email))
    requires var r := login(Credentials(f.email, f.password));
      && r.Success? && r.value.success && !IsNullOrEmpty(r.value.token)
      && var e := Authentication.GetExpirationAsDateTime(r.value, parsers.exact, parsers.general);
         e.Some? && now < e.value
    ensures var step := Login(f, s, login, format, parsers);
      && IsAuthenticated(step.session, now)
      && GetUserId(step.session) == login(Credentials(f.email, f.password)).value.id.GetOr("")
      && step.session.isAuthenticated
      && (!s.isAuthenticated ==> step.session.events == s.events + [true])
  {
  }

  /** The flag and the getter disagree after a login whose expiration the page cannot
      read: the flag goes up and the shell hears `true`, but `IsAuthenticated` is
      false and no expiration is stored. */
  lemma UnreadableExpiryStillRaisesFlag(f: LoginForm, s: SessionState,
                                        login: Credentials -> Result<Authentication.LoginResult, string>,
                                        format: Timestamp -> string, parsers: ExpiryParsers, now: Timestamp)
    requires FieldsFilled(f) && IsValidEmail(Some(f.email)) && !s.isAuthenticated
    requires var r := login(Credentials(f.email, f.password));
      && r.Success? && r.value.success
      && Authentication.GetExpirationAsDateTime(r.value, parsers.exact, parsers.general).None?
    ensures var step := Login(f, s, login, format, parsers);
      && step.session.isAuthenticated
      && step.session.events == s.events + [true]
      && !IsAuthenticated(step.session, now)
      && TokenExpirationKey !in step.session.store
  {
    var step := Login(f, s, login, format, parsers);
    assert Lookup(step.session.store, TokenExpirationKey).None?;
  }

  /** Clearing twice is clearing once. */
  lemma ClearFieldsIdempotent(f: LoginForm)
    ensures ClearFields(ClearFields(f)) == ClearFields(f)
  {
  }

  class LoginPage {
    var email: string
    var password: string
    var isBusy: bool
    var isErrorVisible: bool
    var errorMessage: string
    const authService: Authentication.AuthService
    const authTokenService: AuthTokens.AuthTokenService
    /** The expiration readers `LoginResult.GetExpirationAsDateTime` uses. */
    const parsers: ExpiryParsers

    function Form(): LoginForm
      reads this
    {
      LoginForm(email, password, isBusy, isErrorVisible, errorMessage)
    }

    constructor (authService: Authentication.AuthService, authTokenService: AuthTokens.AuthTokenService,
                 parsers: ExpiryParsers)
      ensures Form() == InitialForm
      ensures this.authService == authService && this.authTokenService == authTokenService
      ensures this.parsers == parsers
    {
      email := "";
      password := "";
      isBusy := false;
      isErrorVisible := false;
      errorMessage := "";
      this.authService := authService;
      this.authTokenService := authTokenService;
      this.parsers := parsers;
    }

    /** The `Email` setter, as the entry's binding calls it. */
    method SetEmail(value: string)
      modifies this
      ensures Form() == old(Form()).(email := value)
    {
      email := value;
    }

    /** The `Password` setter, as the entry's binding calls it. */
    method SetPassword(value: string)
      modifies this
      ensures Form() == old(Form()).(password := value)
    {
      password := value;
    }

    method SetErrorMessage(value: string)
      modifies this
      ensures Form() == AssignErrorMessage(old(Form()), value)
    {
      if errorMessage != value {
        errorMessage := value;
        isErrorVisible := value != "";
      }
    }

    /** `LoginAsync`, run to completion. */
    method LoginAsync()
      modifies this, authTokenService
      ensures var step := Login(old(Form()), old(authTokenService.State()), CallService(authService),
                                authTokenService.format, parsers);
        Form() == step.form && authTokenService.State() == step.session
    {
      if IsNullOrWhiteSpace(Some(email)) || IsNullOrWhiteSpace(Some(password)) {
        SetErrorMessage(FillAllMessage);
        return;
      }
      if !IsValidEmail(Some(email)) {
        SetErrorMessage(InvalidEmailMessage);
        return;
      }
      SubmitAsync();
    }

    /** The `try` block of `LoginAsync`. */
    method SubmitAsync()
      modifies this, authTokenService
      ensures var step := Submit(old(Form()), old(authTokenService.State()), CallService(authService),
                                 authTokenService.format, parsers);
        Form() == step.form && authTokenService.State() == step.session
    {
      isBusy := true;
      SetErrorMessage("");
      var loginResult := Authentication.LoginAsync(authService, email, password);
      assert CallService(authService)(Credentials(email, password)) == Success(loginResult);
      if loginResult.success {
        StoreLoginInPlace(loginResult);
        email := "";
        password := "";
      } else {
        SetErrorMessage(loginResult.errorMessage.GetOr(LoginFailedMessage));
      }
      isBusy := false;
    }

    /** The success branch's calls into the session service, in source order. */
    method StoreLoginInPlace(r: Authentication.LoginResult)
      modifies authTokenService
      ensures authTokenService.State() ==
        StoreLogin(old(authTokenService.State()), r, authTokenService.format, parsers)
    {
      authTokenService.SetToken(r.token);
      authTokenService.SetExpiration(Authentication.GetExpirationAsDateTime(r, parsers.exact, parsers.general));
      authTokenService.SetUserId(r.id);
      authTokenService.SetAuthentication(true);
    }

    /** `NavigateToRegisterAsync`: clears the form and returns the route it navigates to. */
    method NavigateToRegisterAsync() returns (route: string)
      modifies this
      ensures Form() == ClearFields(old(Form()))
      ensures route == RegisterRoute
    {
      email := "";
      password := "";
      SetErrorMessage("");
      route := RegisterRoute;
    }

    method OnAppearing()
      modifies this
      ensures Form() == ClearFields(old(Form()))
    {
      email := "";
      password := "";
      SetErrorMessage("");
    }
  }
}
