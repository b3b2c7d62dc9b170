/**
 * The login / registration form. Submitting validates the fields, builds
 * the request body, and interprets the server's `{status, token?, message?}`
 * reply (or a transport failure), both taken here as inputs. A successful
 * login stores the token and navigates by the role picked in the form; it
 * never creates a session in the store.
 */
module LoginForm {
  import opened Wrappers
  import opened AuthContext

  /** The interface languages. */
  datatype Language = Uz | Ru | En

  /** The form's state. `isLogin` selects login mode, otherwise registration. */
  datatype Form = Form(
    isLogin: bool,
    email: string,
    password: string,
    fullName: string,
    phone: string,
    address: string,
    companyName: string,
    role: Role,
    error: string,
    language: Language)

  /** The form as the page opens it. */
  const InitialForm := Form(true, "", "", "", "", "", "", EndUser, "", Uz)

  /** The validation message, in the form's language. */
  function RequiredFieldsMessage(language: Language): string
  {
    match language
    case Uz => "Iltimos, barcha majburiy maydonlarni to'ldiring"
    case Ru => "Пожалуйста, заполните все поля"
    case En => "Please fill in all required fields"
  }

  /** The notice shown after a successful registration, in the form's language. */
  function RegisteredMessage(language: Language): string
  {
    match language
    case Uz => "Ro'yxatdan o'tish muvaffaqiyatli!"
    case Ru => "Регистрация прошла успешно!"
    case En => "Registration successful!"
  }

  /** The fixed error texts of the two modes. */
  const LoginRefused: string := "Login yoki parol noto\U{2018}g\U{2018}ri"
  const LoginUnreachable: string := "Xatolik yuz berdi (API ulanmagan)"
  const RegisterRefused: string := "Ro\U{2018}yxatdan o\U{2018}tishda xatolik"
  const RegisterUnreachable: string := "Ro\U{2018}yxatdan o\U{2018}tishda xatolik (API ulanmagan)"

  /** A request body, posted to the login or the registration endpoint. */
  datatype Request =
    | LoginRequest(login: string, password: string)
    | RegisterRequest(login: string, password: string, fullname: string, phone: string, location: string)

  /**
   * How a request ends. `Response` is a reply with a 2xx status and its
   * envelope. `TransportFailure` is every other ending: the server was not
   * reached, or it answered with a non-2xx status, whose body is then never
   * read because the HTTP client rejects such replies.
   */
  datatype Reply =
    | Response(status: string, token: Option<string>, message: Option<string>)
    | TransportFailure

  /** A string field the source tests for truthiness: present and non-empty. */
  predicate Truthy(field: Option<string>)
  {
    field.Some? && field.value != ""
  }

  /** The route of the dashboard a role navigates to. */
  function RouteFor(role: Role): (path: string)
    ensures path == "/" + role.Tag()
  {
    match role
    case EndUser => "/user"
    case CollectionPoint => "/collection-point"
    case Factory => "/factory"
  }

  /** The fields the current mode requires; the company name is never one of them. */
  predicate Complete(form: Form)
  {
    if form.isLogin then form.email != "" && form.password != ""
    else form.email != "" && form.password != "" && form.fullName != "" && form.phone != "" && form.address != ""
  }

  datatype Submission = Submission(form: Form, request: Option<Request>)

  /**
   * The synchronous part of submitting: the error is cleared, a form missing
   * a required field gets the validation message and sends nothing, and a
   * complete form sends the body of its mode.
   */
  function Submit(form: Form): (r: Submission)
    ensures r.request.Some? <==> Complete(form)
    ensures r.request.None? ==> r.form == form.(error := RequiredFieldsMessage(form.language))
    ensures r.request.Some? ==> r.form == form.(error := "")
    ensures r.request.Some? ==> (r.request.value.LoginRequest? <==> form.isLogin)
    ensures r.request.Some? ==> r.request.value.login == form.email && r.request.value.password == form.password
    ensures r.request.Some? && !form.isLogin ==>
      r.request.value.fullname == form.fullName && r.request.value.phone == form.phone
      && r.request.value.location == form.address
  {
    var cleared := form.(error := "");
    if form.isLogin then
      if form.email == "" || form.password == "" then
        Submission(cleared.(error := RequiredFieldsMessage(form.language)), None)
      else
        Submission(cleared, Some(LoginRequest(form.email, form.password)))
    else
      if form.email == "" || form.password == "" || form.fullName == "" || form.phone == "" || form.address == "" then
        Submission(cleared.(error := RequiredFieldsMessage(form.language)), None)
      else
        Submission(cleared, Some(RegisterRequest(form.email, form.password, form.fullName, form.phone, form.address)))
  }

  /** The company name is neither required nor sent. */
  lemma CompanyNameIgnored(form: Form, companyName: string)
    ensures Submit(form.(companyName := companyName)).request == Submit(form).request
  {
  }

  /** What a submission leads to besides the form's own state. */
  datatype Outcome =
    | Stay
    | SignedIn(token: string, username: string, path: string)
    | Registered(notice: string)

  datatype Interpretation = Interpretation(form: Form, outcome: Outcome)

  /**
   * The asynchronous part: how the reply to the request of the form's mode
   * is read. In login mode, "ok" with a non-empty token stores the token and
   * the email and navigates by the selected role. In registration mode "ok"
   * shows the notice, clears the six text fields, resets the role and
   * switches to login mode without signing in. Anything else sets the
   * error: the server's message if it gave one, else the mode's default; a
   * transport failure sets the mode's fixed text.
   */
  function Interpret(form: Form, reply: Reply): (r: Interpretation)
    ensures form.isLogin ==>
      (r.outcome.SignedIn? <==> reply.Response? && reply.status == "ok" && Truthy(reply.token))
    ensures !form.isLogin ==> (r.outcome.Registered? <==> reply.Response? && reply.status == "ok")
    ensures form.isLogin ==> !r.outcome.Registered?
    ensures !form.isLogin ==> !r.outcome.SignedIn?
    ensures r.outcome.SignedIn? ==>
      r.form == form && r.outcome.token == reply.token.value
      && r.outcome.username == form.email && r.outcome.path == "/" + form.role.Tag()
    ensures r.outcome.Registered? ==>
      r.form == InitialForm.(error := form.error, language := form.language)
      && r.outcome.notice == RegisteredMessage(form.language)
    ensures r.outcome.Stay? && reply.Response? && Truthy(reply.message) ==>
      r.form == form.(error := reply.message.value)
    ensures r.outcome.Stay? && reply.Response? && !Truthy(reply.message) ==>
      r.form == form.(error := if form.isLogin then LoginRefused else RegisterRefused)
    ensures r.outcome.Stay? && reply.TransportFailure? ==>
      r.form == form.(error := if form.isLogin then LoginUnreachable else RegisterUnreachable)
  {
    match reply
    case TransportFailure =>
      Interpretation(form.(error := if form.isLogin then LoginUnreachable else RegisterUnreachable), Stay)
    case Response(status, token, message) =>
      if form.isLogin && status == "ok" && Truthy(token) then
        Interpretation(form, SignedIn(token.value, form.email, RouteFor(form.role)))
      else if !form.isLogin && status == "ok" then
        var cleared := form.(email := "", password := "", fullName := "", phone := "", address := "",
                             companyName := "", role := EndUser, isLogin := true);
        Interpretation(cleared, Registered(RegisteredMessage(form.language)))
      else
        var fallback := if form.isLogin then LoginRefused else RegisterRefused;
        Interpretation(form.(error := if Truthy(message) then message.value else fallback), Stay)
  }

  datatype Handled = Handled(form: Form, request: Option<Request>, outcome: Outcome)

  /** The whole handler: submit, then read the reply if a request was sent. */
  function HandleSubmit(form: Form, reply: Reply): (r: Handled)
    ensures r.request.None? ==> r.outcome.Stay? && r.form == form.(error := RequiredFieldsMessage(form.language))
    ensures r.request.Some? <==> Complete(form)
    ensures r.outcome.SignedIn? ==> r.request == Some(LoginRequest(form.email, form.password))
    ensures r.outcome.Registered? ==> r.form.isLogin && r.form.error == ""
  {
    var s := Submit(form);
    if s.request.None? then
      Handled(s.form, None, Stay)
    else
      var i := Interpret(s.form, reply);
      Handled(i.form, s.request, i.outcome)
  }

  /** Where a successful login goes depends on the selected role, not on the reply. */
  lemma NavigationIgnoresReply(form: Form, a: Reply, b: Reply)
    requires HandleSubmit(form, a).outcome.SignedIn? && HandleSubmit(form, b).outcome.SignedIn?
    ensures HandleSubmit(form, a).outcome.path == HandleSubmit(form, b).outcome.path == RouteFor(form.role)
  {
  }

  /** Switching between login and registration keeps every field and the error. */
  function SelectMode(form: Form, isLogin: bool): (r: Form)
    ensures r.isLogin == isLogin && r.(isLogin := form.isLogin) == form
  {
    form.(isLogin := isLogin)
  }
}
