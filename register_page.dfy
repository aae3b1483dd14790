/** RegisterPage: the form behind the registration screen. Its properties start out
    null; `RegisterAsync` checks name, e-mail, e-mail format and password in that
    order and reports only the first problem, calls AuthService, and on success shows
    the success message, empties the five fields and navigates back. `Register`
    states one run of `RegisterAsync` as a function of the form before it, and the
    class is proved to follow it. */
module RegisterPages {
  import opened Wrappers
  import opened Text
  import opened EmailValidation
  import Authentication

  const NameRequiredMessage := "Por favor, ingresa tu nombre"
  const EmailRequiredMessage := "Por favor, ingresa tu correo electrónico"
  const InvalidEmailMessage := "Por favor, ingresa un correo electrónico válido"
  const PasswordRequiredMessage := "Por favor, ingresa una contrase\U{144}a"
  const SuccessText := "\U{2C7}Registro exitoso! Ya puedes iniciar sesión."
  const RegisterFailedMessage := "Error al registrar usuario"
  const ExceptionPrefix := "Error: "
  /** The route `NavigateToLoginAsync` goes to: back to the previous page. */
  const BackRoute := ".."

  /** The page's bound properties; the strings are null until first set. */
  datatype RegisterForm = RegisterForm(
    nombre: Option<string>,
    email: Option<string>,
    password: Option<string>,
    descripcion: Option<string>,
    icono: Option<string>,
    isBusy: bool,
    isErrorVisible: bool,
    errorMessage: Option<string>,
    isSuccessVisible: bool,
    successMessage: Option<string>)

  const InitialForm := RegisterForm(None, None, None, None, None, false, false, None, false, None)

  /** Each label is shown exactly when its message is neither null nor empty. */
  predicate LabelsMatchMessages(f: RegisterForm) {
    && (f.isErrorVisible <==> !IsNullOrEmpty(f.errorMessage))
    && (f.isSuccessVisible <==> !IsNullOrEmpty(f.successMessage))
  }

  /** The `ErrorMessage` setter: only a change of text touches `IsErrorVisible`. */
  function AssignErrorMessage(f: RegisterForm, value: string): (g: RegisterForm)
    ensures g.errorMessage == Some(value)
    ensures f.errorMessage != Some(value) ==> (g.isErrorVisible <==> value != "")
    ensures f.errorMessage == Some(value) ==> g == f
    ensures g == f.(errorMessage := g.errorMessage, isErrorVisible := g.isErrorVisible)
    ensures LabelsMatchMessages(f) ==> LabelsMatchMessages(g)
  {
    if f.errorMessage != Some(value) then f.(errorMessage := Some(value), isErrorVisible := value != "") else f
  }

  /** The `SuccessMessage` setter: only a change of text touches `IsSuccessVisible`. */
  function AssignSuccessMessage(f: RegisterForm, value: string): (g: RegisterForm)
    ensures g.successMessage == Some(value)
    ensures f.successMessage != Some(value) ==> (g.isSuccessVisible <==> value != "")
    ensures f.successMessage == Some(value) ==> g == f
    ensures g == f.(successMessage := g.successMessage, isSuccessVisible := g.isSuccessVisible)
    ensures LabelsMatchMessages(f) ==> LabelsMatchMessages(g)
  {
    if f.successMessage != Some(value) then f.(successMessage := Some(value), isSuccessVisible := value != "") else f
  }

  predicate PassesValidation(f: RegisterForm) {
    && !IsNullOrWhiteSpace(f.nombre)
    && !IsNullOrWhiteSpace(f.email)
    && IsValidEmail(f.email)
    && !IsNullOrWhiteSpace(f.password)
  }

  /** The message of the first check the form fails, or None when it passes all four. */
  function ValidationError(f: RegisterForm): (m: Option<string>)
    ensures m.None? <==> PassesValidation(f)
    ensures IsNullOrWhiteSpace(f.nombre) ==> m == Some(NameRequiredMessage)
    ensures !IsNullOrWhiteSpace(f.nombre) && IsNullOrWhiteSpace(f.email) ==> m == Some(EmailRequiredMessage)
    ensures !IsNullOrWhiteSpace(f.nombre) && !IsNullOrWhiteSpace(f.email) && !IsValidEmail(f.email) ==>
      m == Some(InvalidEmailMessage)
    ensures !IsNullOrWhiteSpace(f.nombre) && IsValidEmail(f.email) && IsNullOrWhiteSpace(f.password) ==>
      m == Some(PasswordRequiredMessage)
  {
    if IsNullOrWhiteSpace(f.nombre) then Some(NameRequiredMessage)
    else if IsNullOrWhiteSpace(f.email) then Some(EmailRequiredMessage)
    else if !IsValidEmail(f.email) then Some(InvalidEmailMessage)
    else if IsNullOrWhiteSpace(f.password) then Some(PasswordRequiredMessage)
    else None
  }

  /** The arguments of `AuthService.RegisterAsync`. */
  datatype Registration = Registration(
    nombre: string, email: string, password: string, descripcion: Option<string>, icono: Option<string>)

  /** The form after one `RegisterAsync`, what it sent to the service if it got that
      far, and whether it navigated back. */
  datatype RegisterStep = RegisterStep(form: RegisterForm, sent: Option<Registration>, navigatedBack: bool)

  /** The five fields emptied after a successful registration. */
  function ClearFields(f: RegisterForm): (g: RegisterForm)
    ensures g.nombre == g.email == g.password == g.descripcion == g.icono == Some("")
    ensures g == f.(nombre := g.nombre, email := g.email, password := g.password,
                    descripcion := g.descripcion, icono := g.icono)
  {
    f.(nombre := Some(""), email := Some(""), password := Some(""), descripcion := Some(""), icono := Some(""))
  }

  /** One run of `RegisterAsync`. `register` is the awaited service call: the result it
      returns, or the message of an exception thrown out of it. `navigation` is how
      the final `GoToAsync("..")` ends: None when it completes, or the message of the
      exception it throws, which the same catch clause reports. */
  function Register(f: RegisterForm, register: Registration -> Result<Authentication.RegisterResult, string>,
                    navigation: Option<string>): (step: RegisterStep)
    ensures step.sent.Some? <==> PassesValidation(f)
    ensures !PassesValidation(f) ==>
      step.form == AssignErrorMessage(f, ValidationError(f).value) && !step.navigatedBack
    ensures step.sent.Some? ==>
      && step.sent.value == Registration(f.nombre.value, f.email.value, f.password.value, f.descripcion, f.icono)
      && !step.form.isBusy
    ensures step.sent.Some? && register(step.sent.value).Failure? ==>
      && step.form.errorMessage == Some(ExceptionPrefix + register(step.sent.value).error)
      && step.form.successMessage == Some("")
      && step.form.nombre == f.nombre && step.form.email == f.email && step.form.password == f.password
      && step.form.descripcion == f.descripcion && step.form.icono == f.icono
      && !step.navigatedBack
    ensures step.sent.Some? && register(step.sent.value).Success? && !register(step.sent.value).value.success ==>
      && step.form.errorMessage == Some(register(step.sent.value).value.errorMessage.GetOr(RegisterFailedMessage))
      && step.form.successMessage == Some("")
      && step.form.nombre == f.nombre && step.form.email == f.email && step.form.password == f.password
      && step.form.descripcion == f.descripcion && step.form.icono == f.icono
      && !step.navigatedBack
    ensures step.sent.Some? && register(step.sent.value).Success? && register(step.sent.value).value.success ==>
      && step.form.successMessage == Some(SuccessText)
      && step.form.nombre == step.form.email == step.form.password == Some("")
      && step.form.descripcion == step.form.icono == Some("")
      && (step.navigatedBack <==> navigation.None?)
      && step.form.errorMessage == Some(if navigation.None? then "" else ExceptionPrefix + navigation.value)
    ensures LabelsMatchMessages(f) ==> LabelsMatchMessages(step.form)
  {
    match ValidationError(f)
    case Some(message) => RegisterStep(AssignErrorMessage(f, message), None, false)
    case None => Submit(f, register, navigation)
  }

  /** The `try` block of `RegisterAsync`, entered once the form passes validation. */
  function Submit(f: RegisterForm, register: Registration -> Result<Authentication.RegisterResult, string>,
                  navigation: Option<string>): RegisterStep
    requires f.nombre.Some? && f.email.Some? && f.password.Some?
  {
    var busy := AssignSuccessMessage(AssignErrorMessage(f.(isBusy := true), ""), "");
    var request := Registration(f.nombre.value, f.email.value, f.password.value, f.descripcion, f.icono);
    match register(request)
    case Failure(message) =>
      RegisterStep(AssignErrorMessage(busy, ExceptionPrefix + message).(isBusy := false), Some(request), false)
    case Success(r) =>
      if r.success then
        var done := ClearFields(AssignSuccessMessage(busy, SuccessText));
        match navigation
        case None => RegisterStep(done.(isBusy := false), Some(request), true)
        case Some(message) =>
          RegisterStep(AssignErrorMessage(done, ExceptionPrefix + message).(isBusy := false), Some(request), false)
      else
        RegisterStep(AssignErrorMessage(busy, r.errorMessage.GetOr(RegisterFailedMessage)).(isBusy := false),
                     Some(request), false)
  }

  /** The page's call, `AuthService.RegisterAsync`: it never throws, and a failed
      result always carries a message, so the page's catch clause is never reached
      for the call and its fallback text is never shown. */
  function CallService(service: Authentication.AuthService): (register: Registration -> Result<Authentication.RegisterResult, string>)
    ensures forall q :: register(q) == Success(Authentication.RegisterAsync(service, q.nombre, q.email, q.password, q.descripcion, q.icono))
    ensures forall q :: register(q).Success? && (!register(q).value.success ==> register(q).value.errorMessage.Some?)
  {
    (q: Registration) => Success(Authentication.RegisterAsync(service, q.nombre, q.email, q.password, q.descripcion, q.icono))
  }

  /** With the real service every failed registration carries the service's own
      message, so "Error al registrar usuario" is never shown for it. */
  lemma RealServiceMessagesReachThePage(f: RegisterForm, service: Authentication.AuthService, navigation: Option<string>)
    requires PassesValidation(f)
    ensures var step := Register(f, CallService(service), navigation);
      var r := Authentication.RegisterAsync(service, f.nombre.value, f.email.value, f.password.value, f.descripcion, f.icono);
      !r.success ==> r.errorMessage.Some? && step.form.errorMessage == r.errorMessage
  {
  }

  /** When navigating back fails after a successful registration, the page shows the
      success label and the error label at once. */
  lemma NavigationFailureShowsBothLabels(f: RegisterForm,
                                         register: Registration -> Result<Authentication.RegisterResult, string>,
                                         message: string)
    requires LabelsMatchMessages(f) && PassesValidation(f)
    requires var r := register(Registration(f.nombre.value, f.email.value, f.password.value, f.descripcion, f.icono));
      r.Success? && r.value.success
    ensures var step := Register(f, register, Some(message));
      step.form.isSuccessVisible && step.form.isErrorVisible && !step.navigatedBack
  {
    var step := Register(f, register, Some(message));
    assert step.form.errorMessage == Some(ExceptionPrefix + message);
    assert (ExceptionPrefix + message)[0] == 'E';
  }

  /** The first check wins: a form with no name is reported as such whatever else is
      wrong with it, and a blank e-mail is reported before its format. */
  lemma OnlyFirstProblemReported()
    ensures ValidationError(InitialForm) == Some(NameRequiredMessage)
    ensures ValidationError(InitialForm.(nombre := Some("Ana"), email := Some(" "))) == Some(EmailRequiredMessage)
  {
    assert !IsWhiteSpace("Ana"[0]);
  }

  /** A malformed address is reported before a missing password. */
  lemma FormatCheckedBeforePassword()
    ensures ValidationError(InitialForm.(nombre := Some("Ana"), email := Some("ana"))) == Some(InvalidEmailMessage)
  {
    assert !IsWhiteSpace("Ana"[0]) && !IsWhiteSpace("ana"[0]);
    ValidEmailHasOneAtContrapositive("ana");
  }

  /** A string with no '@' is never a valid address. */
  lemma ValidEmailHasOneAtContrapositive(s: string)
    requires forall k :: 0 <= k < |s| ==> s[k] != '@'
    ensures !IsValidEmail(Some(s))
  {
    if IsValidEmail(Some(s)) {
      ValidEmailHasOneAt(s);
    }
  }

  class RegisterPage {
    var nombre: Option<string>
    var email: Option<string>
    var password: Option<string>
    var descripcion: Option<string>
    var icono: Option<string>
    var isBusy: bool
    var isErrorVisible: bool
    var errorMessage: Option<string>
    var isSuccessVisible: bool
    var successMessage: Option<string>
    const authService: Authentication.AuthService

    function Form(): RegisterForm
      reads this
    {
      RegisterForm(nombre, email, password, descripcion, icono, isBusy, isErrorVisible, errorMessage,
                   isSuccessVisible, successMessage)
    }

    constructor (authService: Authentication.AuthService)
      ensures Form() == InitialForm && this.authService == authService
    {
      nombre := None;
      email := None;
      password := None;
      descripcion := None;
      icono := None;
      isBusy := false;
      isErrorVisible := false;
      errorMessage := None;
      isSuccessVisible := false;
      successMessage := None;
      this.authService := authService;
    }

    /** The `Nombre` setter, as the entry's binding calls it. */
    method SetNombre(value: Option<string>)
      modifies this
      ensures Form() == old(Form()).(nombre := value)
    {
      nombre := value;
    }

    /** The `Email` setter, as the entry's binding calls it. */
    method SetEmail(value: Option<string>)
      modifies this
      ensures Form() == old(Form()).(email := value)
    {
      email := value;
    }

    /** The `Password` setter, as the entry's binding calls it. */
    method SetPassword(value: Option<string>)
      modifies this
      ensures Form() == old(Form()).(password := value)
    {
      password := value;
    }

    /** The `Descripcion` setter, as the editor's binding calls it. */
    method SetDescripcion(value: Option<string>)
      modifies this
      ensures Form() == old(Form()).(descripcion := value)
    {
      descripcion := value;
    }

    /** The `Icono` setter, as the entry's binding calls it. */
    method SetIcono(value: Option<string>)
      modifies this
      ensures Form() == old(Form()).(icono := value)
    {
      icono := value;
    }

    method SetErrorMessage(value: string)
      modifies this
      ensures Form() == AssignErrorMessage(old(Form()), value)
    {
      if errorMessage != Some(value) {
        errorMessage := Some(value);
        isErrorVisible := value != "";
      }
    }

    method SetSuccessMessage(value: string)
      modifies this
      ensures Form() == AssignSuccessMessage(old(Form()), value)
    {
      if successMessage != Some(value) {
        successMessage := Some(value);
        isSuccessVisible := value != "";
      }
    }

    /** The five setters called with the empty string after a successful registration. */
    method ClearFieldsInPlace()
      modifies this
      ensures Form() == ClearFields(old(Form()))
    {
      nombre := Some("");
      email := Some("");
      password := Some("");
      descripcion := Some("");
      icono := Some("");
    }

    /** `NavigateToLoginAsync`: the route it navigates to. */
    method NavigateToLoginAsync() returns (route: string)
      ensures route == BackRoute
    {
      route := BackRoute;
    }

    /** `RegisterAsync`, run to completion; `navigation` is how navigating back ends. */
    method RegisterAsync(navigation: Option<string>) returns (navigatedBack: bool)
      modifies this
      ensures var step := Register(old(Form()), CallService(authService), navigation);
        Form() == step.form && navigatedBack == step.navigatedBack
    {
      navigatedBack := false;
      if IsNullOrWhiteSpace(nombre) {
        SetErrorMessage(NameRequiredMessage);
        return;
      }
      if IsNullOrWhiteSpace(email) {
        SetErrorMessage(EmailRequiredMessage);
        return;
      }
      if !IsValidEmail(email) {
        SetErrorMessage(InvalidEmailMessage);
        return;
      }
      if IsNullOrWhiteSpace(password) {
        SetErrorMessage(PasswordRequiredMessage);
        return;
      }
      navigatedBack := SubmitAsync(navigation);
    }

    /** The `try` block of `RegisterAsync`. */
    method SubmitAsync(navigation: Option<string>) returns (navigatedBack: bool)
      requires nombre.Some? && email.Some? && password.Some?
      modifies this
      ensures var step := Submit(old(Form()), CallService(authService), navigation);
        Form() == step.form && navigatedBack == step.navigatedBack
    {
      navigatedBack := false;
      ghost var f := Form();
      isBusy := true;
      SetErrorMessage("");
      SetSuccessMessage("");
      ghost var busy := Form();
      assert busy == AssignSuccessMessage(AssignErrorMessage(f.(isBusy := true), ""), "");
      var registerResult := Authentication.RegisterAsync(authService, nombre.value, email.value, password.value,
                                                         descripcion, icono);
      ghost var request := Registration(nombre.value, email.value, password.value, descripcion, icono);
      assert CallService(authService)(request) == Success(registerResult);
      if registerResult.success {
        SetSuccessMessage(SuccessText);
        ClearFieldsInPlace();
        ghost var done := Form();
        if navigation.None? {
          var route := NavigateToLoginAsync();
          navigatedBack := true;
          assert Submit(f, CallService(authService), navigation) == RegisterStep(done.(isBusy := false), Some(request), true);
        } else {
          SetErrorMessage(ExceptionPrefix + navigation.value);
          assert Submit(f, CallService(authService), navigation) ==
            RegisterStep(AssignErrorMessage(done, ExceptionPrefix + navigation.value).(isBusy := false), Some(request), false);
        }
      } else {
        SetErrorMessage(registerResult.errorMessage.GetOr(RegisterFailedMessage));
        assert Submit(f, CallService(authService), navigation) ==
          RegisterStep(AssignErrorMessage(busy, registerResult.errorMessage.GetOr(RegisterFailedMessage)).(isBusy := false),
                       Some(request), false);
      }
      isBusy := false;
    }
  }
}
