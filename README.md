# TuCurso: authentication and session core, modelled in Dafny

TuCurso is a .NET MAUI client for tracking courses, notes and friendships against a
remote HTTP API. This project models the part of it with real state and rules:

- **AuthTokenService**, the process-wide session. It holds the token, the expiry and
  the user id in memory and writes each through to SecureStorage. It keeps an
  edge-triggered flag behind the `AuthenticationChanged` event, can restore itself
  from the store through `InitializeAsync`, and wipes everything on logout
  (`session_spec.dfy`, `auth_token_service.dfy`).
- **AuthenticatedHttpClientHandler**, which puts `Bearer <token>` on an outgoing
  request when the session holds a token (even an empty or expired one) and turns any failure below it into one `HttpRequestException` with a
  Spanish message (`http_handler.dfy`).
- **AuthService**, whose login and registration calls classify the HTTP outcome into
  a `LoginResult` or `RegisterResult` and never throw (`auth_service.dfy`).
- **LoginPage** and **RegisterPage**: ordered form validation, the e-mail pattern,
  the message-to-label cascades and what a successful call writes and clears
  (`email.dfy`, `login_page.dfy`, `register_page.dfy`).
- **Curso** / **CursoDTO** conversions and **SolicitudAmistad** equality and hashing
  (`curso.dfy`, `solicitud_amistad.dfy`, `numerics.dfy`).

The session is specified twice. `SessionSpec` gives one function per operation on a
`SessionState` value. The `AuthTokenService` class has the source's private fields, and
each of its methods is proved to move `State()` exactly as the matching function
does. The pages follow the same pattern: `Login` and `Register` are one run of the
command as a function of the form (and the session) before it. The `LoginPage` and
`RegisterPage` classes make the same assignments as the source, in the same order,
and are proved to end in the state those functions give.

The main results:

- `AuthenticationChanged` never repeats a value. Whatever sequence of operations
  runs, the first broadcast is `true`, the broadcasts alternate, and the flag equals
  the last one.
- If `InitializeAsync` is called at start-up, as its doc comment asks
  (Services/AuthTokenService.cs:101-102), and `parse(format(t)) == t`, a restart
  restores exactly the credentials that were still valid, or finds a wiped store.
  Nothing in these sources makes that call (see below).
- The e-mail check is proved equal to the regular expression's meaning, including the
  one trailing `'\n'` that .NET's `$` accepts.
- `SolicitudAmistad.Equals` is an equivalence, it is consistent with `GetHashCode`,
  and an unsaved request (id 0) equals only itself.

Where the code does not do what its own doc comments or a reader would expect, the
model follows the code:

- The `IsAuthenticated` doc comment (Services/AuthTokenService.cs:84-85) counts the
  session as authenticated only while a valid token has not expired. The flag behind
  `AuthenticationChanged` is a separate field, however, and it stays up after the
  expiry passes. A login whose expiry text cannot be parsed also raises the flag
  while `IsAuthenticated` stays false (`SessionSpec.FlagCanDisagreeWithGetter`,
  `LoginPages.UnreadableExpiryStillRaisesFlag`).
- One might expect the token, the expiry and the user id to be set together. In the
  code the three setters are independent, so a token without an expiry is a reachable
  state. Only clearing is done as a unit: `SetAuthentication(false)`, as its doc
  comment (Services/AuthTokenService.cs:120-122) says.
- The doc comment of `InitializeAsync` (Services/AuthTokenService.cs:101-102) says it
  must be called at start-up, but no code in these sources calls it.
  `App.CreateWindow` (App.xaml.cs:15-21) only hands the service to `AppShell`, which
  reads the `IsAuthenticated` getter (AppShell.xaml.cs:43). On a new service that
  getter is false. So, as written, a restart neither restores nor wipes the stored
  credentials. The restore lemmas describe what happens once the call is made.
- When `InitializeAsync` does run, a malformed stored expiry keeps whatever expiry is
  already in memory. On a new service that is null, so start-up stays logged out,
  but a later call keeps the old value (`SessionSpec.Restore`).
- To count as authenticated, a token must be non-empty. Yet the handler sends any
  non-null token (Services/AuthenticatedHttpClientHandler.cs:36), even an empty or
  expired one, as a bearer header (`AuthenticatedHttp.HeaderIgnoresValidity`).

## Model

| member | source | states |
|---|---|---|
| SessionSpec.WriteThrough | Services/AuthTokenService.cs:24-81 | a setter given a value stores it under its key; given null it removes the key; every other key is untouched |
| SessionSpec.Initial | Services/AuthTokenService.cs:7-18 | a new service holds no credentials, has its flag down and no broadcasts, over whatever the store already holds |
| SessionSpec.SetToken | Services/AuthTokenService.cs:24-39 | the token becomes the value and the `auth_token` key reads back the same value, or is removed for null; nothing else changes and no event fires |
| SessionSpec.SetExpiration | Services/AuthTokenService.cs:45-60 | the expiry becomes the value and `token_expiration` holds its round-trip text, or is removed for null; nothing else changes |
| SessionSpec.SetUserId | Services/AuthTokenService.cs:66-81 | the user id becomes the value and `user_id` reads back the same value, or is removed for null; nothing else changes |
| SessionSpec.SetAuthentication | Services/AuthTokenService.cs:124-144 | lowering the flag always clears the three fields and the three keys and leaves other keys alone; raising it changes no credential; an event carrying the new value is appended exactly when the flag changes |
| SessionSpec.Clear | Services/AuthTokenService.cs:150-153 | logging out is `SetAuthentication(false)` |
| SessionSpec.GetUserId | Services/AuthTokenService.cs:159-162 | the user id, or "" when it is null |
| SessionSpec.Restore | Services/AuthTokenService.cs:105-113 | token and user id are read from the store; the expiry is replaced only when the stored text parses, and otherwise keeps its value in memory |
| SessionSpec.InitializeAsync | Services/AuthTokenService.cs:105-117 | after restoring, the flag equals the getter on the restored state; if down, all three credentials and keys are gone and every other key keeps its value; if up, the restored credentials and the whole store are kept; an event fires only on a change |
| SessionSpec.SetAuthenticationIdempotent | Services/AuthTokenService.cs:124-144 | a second `SetAuthentication` with the same flag changes nothing and fires nothing |
| SessionSpec.ClearIdempotent | Services/AuthTokenService.cs:150-153 | logging out twice is the same as logging out once |
| SessionSpec.InitializeWithStaleExpiryWipes | Services/AuthTokenService.cs:105-144 | starting up with a stored expiry that is past, missing or unreadable removes the three keys and fires nothing |
| SessionSpec.InitializeWithLiveSessionAuthenticates | Services/AuthTokenService.cs:105-144 | starting up with a non-empty stored token and a future expiry raises the flag, fires `true` once, keeps the store and returns the stored user id |
| SessionSpec.FlagCanDisagreeWithGetter | Services/AuthTokenService.cs:87-98 | the flag can be up while the `IsAuthenticated` getter is false |
| SessionSpec.StepKeepsEventsAlternating | Services/AuthTokenService.cs:124-144 | every operation keeps the broadcasts alternating, with the flag equal to the last one |
| SessionSpec.RunKeepsEventsAlternating | Services/AuthTokenService.cs:24-153 | any sequence of operations keeps that invariant |
| SessionSpec.EventsAlwaysAlternate | Services/AuthTokenService.cs:13-18 | from a new service, the first broadcast is `true`, no two consecutive broadcasts are equal, and the flag is the last one sent (down when none was sent) |
| SessionSpec.StepKeepsMirror | Services/AuthTokenService.cs:24-117 | when stored expiry text reads back as itself, every operation keeps the in-memory credentials equal to what the store would restore |
| SessionSpec.RunKeepsMirror | Services/AuthTokenService.cs:24-153 | any sequence of operations keeps that invariant |
| SessionSpec.RestartRestoresSession | Services/AuthTokenService.cs:105-144 | after start-up and any operations, a restart that calls `InitializeAsync` gets back exactly the same credentials if they are still valid, and otherwise wipes the store and stays logged out (nothing in these sources makes that call) |
| AuthTokens.AuthTokenService.constructor | Services/AuthTokenService.cs:7-18 | the object's state is `SessionSpec.Initial` of the store |
| AuthTokens.AuthTokenService.SetToken | Services/AuthTokenService.cs:24-39 | the object moves exactly as `SessionSpec.SetToken` |
| AuthTokens.AuthTokenService.SetExpiration | Services/AuthTokenService.cs:45-60 | the object moves exactly as `SessionSpec.SetExpiration` |
| AuthTokens.AuthTokenService.SetUserId | Services/AuthTokenService.cs:66-81 | the object moves exactly as `SessionSpec.SetUserId` |
| AuthTokens.AuthTokenService.IsAuthenticated | Services/AuthTokenService.cs:87-89 | true iff the token is non-null and non-empty and the expiry is non-null and later than now |
| AuthTokens.AuthTokenService.InitializeAsync | Services/AuthTokenService.cs:105-117 | the object moves exactly as `SessionSpec.InitializeAsync` |
| AuthTokens.AuthTokenService.SetAuthentication | Services/AuthTokenService.cs:124-144 | the object moves exactly as `SessionSpec.SetAuthentication` |
| AuthTokens.AuthTokenService.Clear | Services/AuthTokenService.cs:150-153 | the object moves exactly as `SessionSpec.Clear` |
| AuthTokens.AuthTokenService.GetUserId | Services/AuthTokenService.cs:159-162 | the user id, or "" when it is null |
| AuthTokens.LoginThenLogout | Services/AuthTokenService.cs:24-153 | a login followed by a logout leaves none of the three keys, broadcasts exactly `true` then `false`, and ends unauthenticated with user id "" |
| AuthenticatedHttp.WithBearer | Services/AuthenticatedHttpClientHandler.cs:36-39 | a non-null token becomes the `Bearer` Authorization header; a null token leaves the request as it was; nothing but that header changes |
| AuthenticatedHttp.Normalize | Services/AuthenticatedHttpClientHandler.cs:41-57 | a response passes through; every exception becomes an HttpRequestException; it gets the connection message iff it was an HttpRequestException, the timeout message iff a TaskCanceledException, and the generic message iff anything else; the original is kept as inner exception except for a timeout |
| AuthenticatedHttp.AuthenticatedHttpClientHandler.constructor | Services/AuthenticatedHttpClientHandler.cs:15-18 | the handler keeps the given session service |
| AuthenticatedHttp.AuthenticatedHttpClientHandler.SendAsync | Services/AuthenticatedHttpClientHandler.cs:32-58 | only the request's Authorization header changes, as `WithBearer` says; the result is the next handler's outcome on the decorated request, after `Normalize` |
| AuthenticatedHttp.HeaderIgnoresValidity | Services/AuthenticatedHttpClientHandler.cs:36-38 | an empty token does not count as authenticated but is still sent as `Bearer ` |
| Authentication.NewAuthService | Services/AuthService.cs:21-24 | the constructor succeeds iff the client is not null; otherwise it throws ArgumentNullException for `httpClient` |
| Authentication.LoginPayload | Services/AuthService.cs:47-51 | the login body has exactly the keys `email` and `pass`, with the given values |
| Authentication.RegisterPayload | Services/AuthService.cs:154-161 | the registration body has exactly the five keys `nombre`, `email`, `pass`, `descripcion` and `icono`; description and icon are sent as given, null included |
| Authentication.ClassifyLoginResponse | Services/AuthService.cs:64-119 | success iff the status is 2xx and the body is a non-null object with `token`, `expiration` and `id`, whose values it returns; otherwise the failure message that matches the case: an unreadable body, an invalid format, 401, or `Error: {status} - {body}` |
| Authentication.LoginAsync | Services/AuthService.cs:43-130 | a failed POST gives `Error de conexión: {message}`; any other outcome is classified as above; every failure carries a message and the default empty token, id and expiry |
| Authentication.RegisterAsync | Services/AuthService.cs:149-190 | success iff the POST answers 2xx; a failed POST gives `Error de conexión: {message}` and a non-2xx answer gives `Error: {status} - {body}` |
| Authentication.GetExpirationAsDateTime | Models/LoginResult.cs:15-50 | null or empty text gives null; otherwise the exact-format parse if it succeeds, else the general parse; a result is only produced from non-empty text |
| EmailValidation.SplitIsUnique | Views/LoginPage.xaml.cs:107-108 | any split the pattern accepts is at the first '@' and the last '.' |
| EmailValidation.ScanMatchesIffSplit | Views/LoginPage.xaml.cs:107-108 | the deterministic scan accepts a string iff the pattern between its anchors matches all of it |
| EmailValidation.IsValidEmail | Views/LoginPage.xaml.cs:101-109 | valid iff the input is not null or blank and `Regex.IsMatch` with the pattern holds, including the final '\n' that `$` allows (the same check as Views/RegisterPage.xaml.cs:169-177) |
| EmailValidation.BlankCheckOnlyRejectsNull | Views/LoginPage.xaml.cs:101-108 | for a non-null string the blank check adds nothing: valid iff the pattern matches |
| EmailValidation.ValidEmailHasOneAt | Views/LoginPage.xaml.cs:107 | an accepted address contains exactly one '@', not at its start |
| EmailValidation.AcceptedExamples | Views/LoginPage.xaml.cs:107 | `ana@uni.es` is accepted, and so is `ana@uni.es` followed by one '\n' |
| EmailValidation.RejectedExamples | Views/LoginPage.xaml.cs:101-108 | a one-letter top-level label, an empty local part, an empty domain, blank text and null are rejected |
| Numerics.Int64HashCode | Models/SolicitudAmistad.cs:63 | `long.GetHashCode` of 0 is 0 |
| Numerics.HashCodeZeroForPositiveValue | Models/SolicitudAmistad.cs:63 | 2^32 + 1 also hashes to 0 |
| Numerics.HashCodeZeroForMinusOne | Models/SolicitudAmistad.cs:63 | -1 also hashes to 0 |
| LoginPages.AssignErrorMessage | Views/LoginPage.xaml.cs:72-84 | the message becomes the value; the label changes only when the text changes, and then shows iff the text is non-empty; nothing else changes; "label shown iff message set" is preserved |
| LoginPages.ClearFields | Views/LoginPage.xaml.cs:172-179 | e-mail, password and message become empty and the busy flag is kept; when the error label matched the message before, it still matches and ends hidden |
| LoginPages.StoreLogin | Views/LoginPage.xaml.cs:134-139 | the session takes the result's token, parsed expiry and id, mirrored in the store; other keys are unchanged; the flag ends up and `true` fires only if it was down |
| LoginPages.Login | Views/LoginPage.xaml.cs:111-162 | the service is called iff both fields are non-blank and the e-mail is valid; the first failed check sets its message and changes nothing else; after a call the page is never busy; an exception shows the fixed text `Error al conectar con el servidor`; a failed result shows its own message or the default; success clears the fields and the message and stores the session; the label invariant is kept |
| LoginPages.CallService | Views/LoginPage.xaml.cs:130 | the page's call to `AuthService.LoginAsync` on the two fields never throws, and a failed result always carries a message, so neither of the page's fallback texts (lines 150, 156) is ever shown for it |
| LoginPages.RealServiceMessagesReachThePage | Views/LoginPage.xaml.cs:148-157 | with the real service, a failed login shows exactly the service's message; the page's two fallback messages are never reached |
| LoginPages.SuccessfulLoginAuthenticates | Views/LoginPage.xaml.cs:132-147 | a successful login with a non-empty token and an expiry later than now is authenticated, has the returned user id, and fires `true` if it was logged out |
| LoginPages.UnreadableExpiryStillRaisesFlag | Views/LoginPage.xaml.cs:134-139 | a successful login whose expiry cannot be parsed raises the flag and fires `true`, yet is not authenticated and stores no expiry |
| LoginPages.ClearFieldsIdempotent | Views/LoginPage.xaml.cs:172-179 | clearing twice is clearing once |
| LoginPages.LoginPage.constructor | Views/LoginPage.xaml.cs:89-99 | the page keeps the two services it is given, and starts with the field initialisers of lines 11-15: empty fields, not busy, no error shown |
| LoginPages.LoginPage.SetEmail | Views/LoginPage.xaml.cs:20-31 | only the e-mail changes |
| LoginPages.LoginPage.SetPassword | Views/LoginPage.xaml.cs:33-44 | only the password changes |
| LoginPages.LoginPage.SetErrorMessage | Views/LoginPage.xaml.cs:72-84 | the page moves exactly as `AssignErrorMessage` |
| LoginPages.LoginPage.LoginAsync | Views/LoginPage.xaml.cs:111-162 | the page and the session service move exactly as `Login` with the real service |
| LoginPages.LoginPage.SubmitAsync | Views/LoginPage.xaml.cs:125-161 | the try block moves the page and the session as `Submit` |
| LoginPages.LoginPage.StoreLoginInPlace | Views/LoginPage.xaml.cs:134-139 | the session service moves exactly as `StoreLogin` |
| LoginPages.LoginPage.NavigateToRegisterAsync | Views/LoginPage.xaml.cs:164-170 | clears the form as `ClearFields` and navigates to `register` |
| LoginPages.LoginPage.OnAppearing | Views/LoginPage.xaml.cs:172-179 | clears the form as `ClearFields` |
| RegisterPages.AssignErrorMessage | Views/RegisterPage.xaml.cs:114-126 | the message becomes the value; the label changes only when the text changes, and then shows iff it is non-empty; both labels stay in step with their messages |
| RegisterPages.AssignSuccessMessage | Views/RegisterPage.xaml.cs:141-153 | the same, for the success message and its label |
| RegisterPages.ValidationError | Views/RegisterPage.xaml.cs:181-204 | none iff all four checks pass; otherwise the message of the first failing check in the order name, e-mail, e-mail format, password |
| RegisterPages.ClearFields | Views/RegisterPage.xaml.cs:218-223 | the five fields become empty and nothing else changes |
| RegisterPages.Register | Views/RegisterPage.xaml.cs:179-242 | the service is called iff validation passes; otherwise only the first problem is shown; after a call the page is never busy; an exception shows `Error: {message}`; a failed result shows its own message or the default; on both failure paths all five fields keep what the user typed; success shows the success text, empties the five fields, and navigates back iff navigation completes, otherwise showing its error as well; the label invariant is kept |
| RegisterPages.CallService | Views/RegisterPage.xaml.cs:212 | the page's call to `AuthService.RegisterAsync` on the five fields never throws, and a failed result always carries a message, so the fallback text (line 231) is never shown for it |
| RegisterPages.RealServiceMessagesReachThePage | Views/RegisterPage.xaml.cs:229-232 | with the real service, a failed registration shows exactly the service's message, never the default |
| RegisterPages.NavigationFailureShowsBothLabels | Views/RegisterPage.xaml.cs:214-237 | if navigating back fails after a successful registration, the success and error labels are both shown |
| RegisterPages.OnlyFirstProblemReported | Views/RegisterPage.xaml.cs:182-192 | an empty form is reported as missing its name; with a name, a blank e-mail is reported |
| RegisterPages.FormatCheckedBeforePassword | Views/RegisterPage.xaml.cs:194-204 | a malformed e-mail is reported before a missing password |
| RegisterPages.ValidEmailHasOneAtContrapositive | Views/RegisterPage.xaml.cs:169-177 | a string without '@' is never a valid e-mail |
| RegisterPages.RegisterPage.constructor | Views/RegisterPage.xaml.cs:158-167 | a new page has every string null, is not busy and shows neither label |
| RegisterPages.RegisterPage.SetNombre | Views/RegisterPage.xaml.cs:23-34 | only the name changes |
| RegisterPages.RegisterPage.SetEmail | Views/RegisterPage.xaml.cs:36-47 | only the e-mail changes |
| RegisterPages.RegisterPage.SetPassword | Views/RegisterPage.xaml.cs:49-60 | only the password changes |
| RegisterPages.RegisterPage.SetDescripcion | Views/RegisterPage.xaml.cs:62-73 | only the description changes |
| RegisterPages.RegisterPage.SetIcono | Views/RegisterPage.xaml.cs:75-86 | only the icon changes |
| RegisterPages.RegisterPage.SetErrorMessage | Views/RegisterPage.xaml.cs:114-126 | the page moves exactly as `AssignErrorMessage` |
| RegisterPages.RegisterPage.SetSuccessMessage | Views/RegisterPage.xaml.cs:141-153 | the page moves exactly as `AssignSuccessMessage` |
| RegisterPages.RegisterPage.RegisterAsync | Views/RegisterPage.xaml.cs:179-242 | the page moves exactly as `Register` with the real service (called through `CallService` at line 212), and reports whether it navigated back; on success the page goes back through `NavigateToLoginAsync` (line 226), whose route is the constant `..` (lines 244-247) |
| RegisterPages.RegisterPage.SubmitAsync | Views/RegisterPage.xaml.cs:206-241 | the try block moves the page as `Submit` |
| RegisterPages.RegisterPage.ClearFieldsInPlace | Views/RegisterPage.xaml.cs:218-223 | the page moves exactly as `ClearFields` |
| Cursos.NewCurso | Models/Curso.cs:13-49 | the default course has id 0, empty name, link and notes, price 0.0 and is not finished |
| Cursos.NewCursoDTO | Models/CursoDTO.cs:3-12 | the default DTO has id 0, owner 0, empty strings, price 0.0 and is not finished |
| Cursos.NewCursoWith | Models/Curso.cs:59-66 | the five-argument constructor differs from a default course in exactly those five fields; the id stays 0 |
| Cursos.FromDTO | Models/Curso.cs:73-84 | the course agrees with the DTO on all six shared fields |
| Cursos.ToDTO | Models/Curso.cs:90-101 | the DTO agrees with the course on all six shared fields, and its owner is the default 0 |
| Cursos.CourseRoundTrip | Models/Curso.cs:73-101 | `FromDTO(ToDTO(c)) == c` |
| Cursos.DtoRoundTrip | Models/Curso.cs:73-101 | `ToDTO(FromDTO(d))` is `d` with owner 0, so it equals `d` iff `d`'s owner is 0 |
| Cursos.FromDTOIgnoresUsuarioId | Models/Curso.cs:73-84 | DTOs that differ only in `UsuarioId` give the same course |
| Cursos.SameCourseIsFromDTO | Models/Curso.cs:73-84 | the courses that agree with a DTO on the shared fields are exactly its conversion |
| Amistad.UsuarioDTO.constructor | Models/UsuarioDTO.cs:14-37 | a default user has id 0 and empty strings |
| Amistad.SolicitudAmistad.constructor | Models/SolicitudAmistad.cs:14-31 | a default request has id 0 and two new, distinct users |
| Amistad.SolicitudAmistad.WithUsers | Models/SolicitudAmistad.cs:38-42 | the request holds the given users and has id 0 |
| Amistad.SolicitudAmistad.Equals | Models/SolicitudAmistad.cs:49-55 | true for the same object; false for null or a non-request; for another request, true iff the ids are equal and non-zero |
| Amistad.SolicitudAmistad.GetHashCode | Models/SolicitudAmistad.cs:61-64 | 0 for id 0, otherwise `long.GetHashCode` of the id |
| Amistad.UnsavedEqualsOnlyItself | Models/SolicitudAmistad.cs:54 | a request with id 0 equals no other request, in either direction |
| Amistad.EqualsSymmetric | Models/SolicitudAmistad.cs:49-55 | `a.Equals(b)` iff `b.Equals(a)` |
| Amistad.EqualsTransitive | Models/SolicitudAmistad.cs:49-55 | `a.Equals(b)` and `b.Equals(c)` give `a.Equals(c)` |
| Amistad.EqualsImpliesSameHash | Models/SolicitudAmistad.cs:49-64 | equal requests have equal hash codes |
| Amistad.NewRequestsAreDistinct | Models/SolicitudAmistad.cs:14-55 | two requests made with the default constructor are not equal, though each equals itself |

## Left out

- SecureStorage is a map from key to string. Its writes are fire-and-forget in the code (`SetAsync` is not awaited), so failed or late writes are not modelled.
- Time is an integer `Timestamp`. `DateTime.UtcNow` is the parameter `now`. `ToString("O")`, `DateTime.TryParse` and the API's `TryParseExact` formats are function parameters. `DateTimeKind` (UTC against local) is not modelled, so a comparison is only an order between two timestamps.
- The subscribers of `AuthenticationChanged` (the shell's navigation) are outside the model. Broadcasts are recorded in the order they happen, as the `events` log.
- Concurrency is not modelled: async interleavings, and a token change between the check and the read in `SendAsync` (it reads `Token` twice).
- The `IsAuthenticated` private setter (Services/AuthTokenService.cs:90-97) is not modelled, because nothing calls it. `SetAuthentication` writes the field directly.
- The HTTP transport and JSON serialisation are outside the model. A request body is a map. `PostAsync` and `ReadFromJsonAsync` are function parameters that return a value or an exception message. The text an `HttpStatusCode` prints is a field of the response.
- `RegisterResult` is not part of this model's sources. It is taken to hold a success flag and an optional message, with no message on success.
- `CancellationToken`, `Debug.WriteLine` logging, `PropertyChanged` notifications, commands, `InitializeComponent` and `BindingContext` are left out. Apart from the label cascades, which are modelled, the change checks in the property setters only decide whether a notification is raised.
- The `IsBusy`, `IsErrorVisible` and `IsSuccessVisible` public setters are not separate operations. The pages' own writes to them are modelled.
- LoginPages.LoginPage.LoginAsync: the class calls the real `AuthService`, which never throws. An exception thrown out of the service call is covered only by `LoginPages.Login`, whose `login` parameter may return one.
- RegisterPages.RegisterPage.RegisterAsync: the two-second `Task.Delay` is not modelled. How `GoToAsync("..")` ends is the parameter `navigation`.
- LoginPage's `Email` and `Password` are non-null strings, as their initialisers make them. A binding that writes null is not modelled. The same holds for the string properties of `Curso`, `CursoDTO` and `UsuarioDTO`.
- `double` prices are bit patterns. They are only copied, so no floating-point arithmetic is needed.
- Curso: conversions build new values. Object identity and aliasing of `Curso` and `CursoDTO` instances are not modelled. Their property setters are plain record updates.
- Amistad.SolicitudAmistad.Equals: the source compares `GetType()`. Dafny classes cannot be subclassed, so "another runtime type" means "not a SolicitudAmistad"; a subclass of SolicitudAmistad is not modelled.
- Numerics.Int64HashCode: states only that 0 hashes to 0, not that small non-negative values hash to themselves, because that needs an integer to bit-vector round trip the solver cannot do within the resource limit.
- The `UsuarioDTO` constructors from values and from `Usuario` are not modelled. A request's users only need the default constructor.
- The domain HTTP services (`CursoService`, `AmigosService`, `PomodoroService`), the other pages, the Pomodoro timer and the note repository are not part of this model.
