/**
 * The two registration forms: `handleSubmit` of client/src/pages/Register.jsx and
 * `handleRegister` of mobile/src/screens/RegisterScreen.js. Each runs its guards in a fixed
 * order and then calls `register(email, password, name)` once; what that call does on the
 * server is `AuthRoutes.Register`, and here its outcome is a parameter.
 */
module RegisterForms {
  import opened Wrappers

  const PASSWORDS_DIFFER: string := "Şifreler eşleşmiyor"
  const PASSWORD_TOO_SHORT: string := "Şifre en az 6 karakter olmalıdır"
  const FIELDS_MISSING: string := "Lütfen tüm alanları doldurun"
  const REGISTER_FAILED: string := "Kayıt başarısız"
  const MIN_PASSWORD: nat := 6

  /** The fields of either form, as typed. */
  datatype RegisterForm = RegisterForm(name: string, email: string, password: string, confirmPassword: string)

  /** The one call to the auth context's `register`. */
  datatype RegisterCall = RegisterCall(email: string, password: string, name: string)

  /** How the call ended: success, or a failure carrying the server's `error` field ("" when it has none). */
  datatype CallResult = Registered | Rejected(serverError: string)

  // ----- web -----

  /** The web form's guards, in order: the passwords must match, then be at least 6 characters long. */
  function WebCheck(form: RegisterForm): (r: Option<string>)
    ensures form.password != form.confirmPassword ==> r == Some(PASSWORDS_DIFFER)
    ensures form.password == form.confirmPassword && |form.password| < MIN_PASSWORD ==> r == Some(PASSWORD_TOO_SHORT)
    ensures r.None? <==> form.password == form.confirmPassword && |form.password| >= MIN_PASSWORD
  {
    if form.password != form.confirmPassword then Some(PASSWORDS_DIFFER)
    else if |form.password| < MIN_PASSWORD then Some(PASSWORD_TOO_SHORT)
    else None
  }

  /** The web form after a submit: the error shown, the calls made and the route navigated to. */
  datatype WebState = WebState(error: string, calls: seq<RegisterCall>, navigatedTo: Option<string>)

  /**
   * `handleSubmit`. The error of the previous submit is cleared first, so it never shows again; a
   * failed guard shows its message and calls nothing; otherwise `register` is called exactly once,
   * and success goes to '/', failure shows the server's error or 'Kayıt başarısız'.
   */
  function WebSubmit(previousError: string, form: RegisterForm, result: CallResult): (s: WebState)
    ensures WebCheck(form).Some? ==> s == WebState(WebCheck(form).value, [], None)
    ensures WebCheck(form).None? ==> s.calls == [RegisterCall(form.email, form.password, form.name)]
    ensures WebCheck(form).None? && result.Registered? ==> s.error == "" && s.navigatedTo == Some("/")
    ensures WebCheck(form).None? && result.Rejected? ==>
      && s.navigatedTo.None?
      && s.error == (if result.serverError != "" then result.serverError else REGISTER_FAILED)
    ensures s.navigatedTo.Some? <==> s.error == ""
  {
    var cleared := "";
    match WebCheck(form)
    case Some(message) => WebState(message, [], None)
    case None =>
      match result
      case Registered => WebState(cleared, [RegisterCall(form.email, form.password, form.name)], Some("/"))
      case Rejected(e) => WebState(if e != "" then e else REGISTER_FAILED, [RegisterCall(form.email, form.password, form.name)], None)
  }

  /** Nothing of the previous submit's error survives a new submit. */
  lemma PreviousErrorForgotten(e1: string, e2: string, form: RegisterForm, result: CallResult)
    ensures WebSubmit(e1, form, result) == WebSubmit(e2, form, result)
  {
  }

  /** The mismatch is reported even when the password is also too short: that guard comes first. */
  lemma MismatchBeforeLength(form: RegisterForm)
    requires form.password != form.confirmPassword && |form.password| < MIN_PASSWORD
    ensures WebCheck(form) == Some(PASSWORDS_DIFFER)
    ensures MobileCheck(form) != Some(PASSWORD_TOO_SHORT)
  {
  }

  // ----- mobile -----

  /** The mobile screen's guards, in order: no empty field, matching passwords, at least 6 characters. */
  function MobileCheck(form: RegisterForm): (r: Option<string>)
    ensures form.name == "" || form.email == "" || form.password == "" || form.confirmPassword == "" ==>
      r == Some(FIELDS_MISSING)
    ensures r == Some(PASSWORDS_DIFFER) <==>
      form.name != "" && form.email != "" && form.password != "" && form.confirmPassword != ""
      && form.password != form.confirmPassword
    ensures r.None? <==>
      form.name != "" && form.email != "" && form.password == form.confirmPassword && |form.password| >= MIN_PASSWORD
  {
    if form.name == "" || form.email == "" || form.password == "" || form.confirmPassword == "" then Some(FIELDS_MISSING)
    else if form.password != form.confirmPassword then Some(PASSWORDS_DIFFER)
    else if |form.password| < MIN_PASSWORD then Some(PASSWORD_TOO_SHORT)
    else None
  }

  /** The mobile screen after a submit: the alert shown, the calls made and the screen it is replaced by. */
  datatype MobileState = MobileState(alert: Option<string>, calls: seq<RegisterCall>, replacedBy: Option<string>)

  /**
   * `handleRegister`: a failed guard alerts and does nothing else; otherwise one `register` call,
   * then the screen is replaced by 'Consent' on success, or an alert with the server's error
   * (or 'Kayıt başarısız').
   */
  function MobileSubmit(form: RegisterForm, result: CallResult): (s: MobileState)
    ensures MobileCheck(form).Some? ==> s == MobileState(MobileCheck(form), [], None)
    ensures MobileCheck(form).None? ==> s.calls == [RegisterCall(form.email, form.password, form.name)]
    ensures MobileCheck(form).None? && result.Registered? ==> s.alert.None? && s.replacedBy == Some("Consent")
    ensures MobileCheck(form).None? && result.Rejected? ==>
      s.replacedBy.None? && s.alert == Some(if result.serverError != "" then result.serverError else REGISTER_FAILED)
    ensures s.replacedBy.Some? <==> s.alert.None?
  {
    match MobileCheck(form)
    case Some(message) => MobileState(Some(message), [], None)
    case None =>
      match result
      case Registered => MobileState(None, [RegisterCall(form.email, form.password, form.name)], Some("Consent"))
      case Rejected(e) => MobileState(Some(if e != "" then e else REGISTER_FAILED), [RegisterCall(form.email, form.password, form.name)], None)
  }

  /**
   * A form the mobile screen accepts also passes the web form, and its call always carries an
   * email and a password, so the server's "Email ve şifre gereklidir" answer cannot come back.
   */
  lemma MobileStricterThanWeb(form: RegisterForm)
    requires MobileCheck(form).None?
    ensures WebCheck(form).None?
    ensures form.email != "" && form.password != "" && form.name != ""
  {
  }

  /**
   * The web form's own guards do not look at the name or the email: a form with both empty passes
   * them, and only the inputs' `required` attribute, which the browser enforces, stops it.
   */
  lemma WebGuardIgnoresEmptyFields()
    ensures WebCheck(RegisterForm("", "", "secret", "secret")).None?
    ensures MobileCheck(RegisterForm("", "", "secret", "secret")) == Some(FIELDS_MISSING)
  {
  }
}
