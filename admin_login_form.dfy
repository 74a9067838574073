/**
 * The admin login form: field validation, the submit gate, what a submit
 * does with the reply of POST `/api/admin/login`, and field editing.
 *
 * The form takes `login` from the session context, which provides none, so
 * the success path calls an undefined function and lands in the `catch`.
 * `loginProvided` records which context the form was built against.
 */
module AdminLoginForm {
  import opened Wrappers
  import opened Http
  import AdminLoginRoute
  import AuthContext

  const DefaultRedirect: string := "/admin/dashboard"
  /**
   * The message of the TypeError an undefined `login(...)` call raises, as V8
   * words it for unminified code; other engines and minified bundles word it
   * differently.
   */
  const LoginMissing: string := "login is not a function"

  /** The characters JavaScript's `\s` matches. */
  predicate IsSpace(c: char) {
    c == ' ' || c == '\t' || c == '\n' || c == '\U{000B}' || c == '\U{000C}' || c == '\r' ||
    c == '\U{00A0}' || c == '\U{1680}' || ('\U{2000}' <= c <= '\U{200A}') ||
    c == '\U{2028}' || c == '\U{2029}' || c == '\U{202F}' || c == '\U{205F}' ||
    c == '\U{3000}' || c == '\U{FEFF}'
  }

  /**
   * `/\S+@\S+\.\S+/.test(s)`, unanchored: somewhere in `s` a non-space, an
   * `@`, a non-empty run of non-spaces, a `.`, and a non-space.
   */
  predicate EmailShaped(s: string) {
    exists at, dot :: 1 <= at && at + 2 <= dot && dot + 1 < |s| &&
      s[at] == '@' && s[dot] == '.' && !IsSpace(s[at - 1]) && !IsSpace(s[dot + 1]) &&
      NoSpaceBetween(s, at + 1, dot)
  }

  /** `s[from..to]` holds no whitespace. */
  predicate NoSpaceBetween(s: string, from: int, to: int)
    requires 0 <= from <= to <= |s|
  {
    forall k :: from <= k < to ==> !IsSpace(s[k])
  }

  datatype FormData = FormData(email: string, password: string)

  /** The object `validateForm` fills: a message per invalid field. */
  datatype Errors = Errors(email: Option<string>, password: Option<string>) {
    predicate IsEmpty() {
      email.None? && password.None?
    }
  }

  function ValidateForm(f: FormData): (e: Errors)
    ensures e.email == Some("Email is required") <==> f.email == ""
    ensures e.email == None <==> f.email != "" && EmailShaped(f.email)
    ensures e.password == Some("Password is required") <==> f.password == ""
    ensures e.password == None <==> Utf16Length(f.password) >= 6
    ensures f.email != "" && !EmailShaped(f.email) ==> e.email == Some("Please enter a valid email address")
    ensures f.password != "" && Utf16Length(f.password) < 6 ==> e.password == Some("Password must be at least 6 characters")
    ensures e.IsEmpty() <==> f.email != "" && EmailShaped(f.email) && Utf16Length(f.password) >= 6
  {
    var email :=
      if f.email == "" then Some("Email is required")
      else if !EmailShaped(f.email) then Some("Please enter a valid email address")
      else None;
    var password :=
      if f.password == "" then Some("Password is required")
      else if Utf16Length(f.password) < 6 then Some("Password must be at least 6 characters")
      else None;
    Errors(email, password)
  }

  /**
   * The length rule counts UTF-16 code units: three characters beyond the
   * Basic Multilingual Plane (three emoji, say) already make a long enough password.
   */
  lemma AstralPasswordLongEnough(email: string, password: string)
    requires |password| == 3
    requires forall k :: 0 <= k < |password| ==> password[k] as int > 0xFFFF
    ensures ValidateForm(FormData(email, password)).password == None
  {
    Utf16LengthOfAstral(password);
  }

  /** `Object.values(errors)[0]`: the email error is inserted first. */
  function FirstError(e: Errors): (m: Option<string>)
    ensures m.None? <==> e.IsEmpty()
    ensures e.email.Some? ==> m == e.email
    ensures e.email.None? ==> m == e.password
  {
    if e.email.Some? then e.email else e.password
  }

  /** What a submit ends in: stopped by validation (with the toast shown), a redirect, or an error message. */
  datatype Submission = Blocked(toast: string) | Redirected(url: string) | Failed(message: string)

  /** `callbackUrl || '/admin/dashboard'`. */
  function RedirectTarget(callbackUrl: Option<string>): (url: string)
    ensures Truthy(callbackUrl) ==> url == callbackUrl.value
    ensures !Truthy(callbackUrl) ==> url == DefaultRedirect
  {
    Or(callbackUrl, DefaultRedirect)
  }

  /** The outcome of `handleSubmit` for the current fields, the page's `callbackUrl` and the reply. */
  function SubmitOutcome(f: FormData, callbackUrl: Option<string>, loginProvided: bool,
                         reply: Call<Response<AdminLoginRoute.Data>>): (s: Submission)
    ensures s.Blocked? <==> !ValidateForm(f).IsEmpty()
    ensures s.Blocked? ==> s.toast == FirstError(ValidateForm(f)).value
    ensures s.Redirected? <==> ValidateForm(f).IsEmpty() && reply.Replied? && reply.reply.success && loginProvided
    ensures s.Redirected? ==> s.url == RedirectTarget(callbackUrl)
    ensures ValidateForm(f).IsEmpty() && reply.Replied? && !reply.reply.success ==>
              s == Failed(Or(reply.reply.message, "Login failed. Please try again."))
    // a thrown fetch or parse shows the Error's message, or the fallback for a non-Error
    ensures ValidateForm(f).IsEmpty() && reply.Threw? ==>
              s == Failed(reply.error.GetOr("Something went wrong. Please try again."))
    // an accepted login without `login` in the context ends in the TypeError's message
    ensures ValidateForm(f).IsEmpty() && reply.Replied? && reply.reply.success && !loginProvided ==>
              s == Failed(LoginMissing)
  {
    var errors := ValidateForm(f);
    if !errors.IsEmpty() then Blocked(FirstError(errors).value)
    else
      match reply
      case Threw(m) => Failed(m.GetOr("Something went wrong. Please try again."))
      case Replied(r) =>
        if r.success then
          // `login(data.user, 'admin')` runs before the redirect
          if loginProvided then Redirected(RedirectTarget(callbackUrl)) else Failed(LoginMissing)
        else Failed(Or(r.message, "Login failed. Please try again."))
  }

  /** As written: the context has no `login`, so an accepted login ends in an error instead of a redirect. */
  lemma AcceptedLoginFailsAsWritten(f: FormData, callbackUrl: Option<string>,
                                    backend: AdminLoginRoute.Credentials -> Call<AdminLoginRoute.LoginReply>)
    requires ValidateForm(f).IsEmpty()
    requires var r := backend(AdminLoginRoute.Credentials(f.email, f.password));
             r.Replied? && r.reply.success && Truthy(r.reply.jwtToken)
    ensures var response := AdminLoginRoute.Post(Some(AdminLoginRoute.Credentials(f.email, f.password)), backend).response;
            response.cookie.Some? &&
            SubmitOutcome(f, callbackUrl, AuthContext.ExposesLogin, Replied(response)) == Failed(LoginMissing)
  {
  }

  /** As intended: with a `login` in the context, an accepted login redirects to the callback or the dashboard. */
  lemma AcceptedLoginRedirects(f: FormData, callbackUrl: Option<string>,
                               backend: AdminLoginRoute.Credentials -> Call<AdminLoginRoute.LoginReply>)
    requires ValidateForm(f).IsEmpty()
    requires var r := backend(AdminLoginRoute.Credentials(f.email, f.password));
             r.Replied? && r.reply.success && Truthy(r.reply.jwtToken)
    ensures var response := AdminLoginRoute.Post(Some(AdminLoginRoute.Credentials(f.email, f.password)), backend).response;
            SubmitOutcome(f, callbackUrl, true, Replied(response)) == Redirected(RedirectTarget(callbackUrl))
  {
  }

  /** The regular expression is unanchored: the shape may sit anywhere in the text. */
  lemma EmailShapeFound()
    ensures EmailShaped("a@b.c")
    ensures EmailShaped("<a@b.c>")
  {
    var s1, s2 := "a@b.c", "<a@b.c>";
    assert s1[1] == '@' && s1[3] == '.' && !IsSpace(s1[0]) && !IsSpace(s1[4]) && NoSpaceBetween(s1, 2, 3);
    assert s2[2] == '@' && s2[4] == '.' && !IsSpace(s2[1]) && !IsSpace(s2[5]) && NoSpaceBetween(s2, 3, 4);
  }

  /** A character is needed between `@` and `.`, and after the `.`. */
  lemma EmailShapeMissing()
    ensures !EmailShaped("a@b")
    ensures !EmailShaped("a@.c")
  {
  }

  datatype InputName = EmailInput | PasswordInput

  class Form {
    var formData: FormData
    var loading: bool
    var error: Option<string>
    var emailTouched: bool
    var passwordTouched: bool
    /** Whether `useAuth()` handed the form a `login` function. */
    const loginProvided: bool

    constructor (loginProvided: bool)
      ensures formData == FormData("", "") && !loading && error == None
      ensures !emailTouched && !passwordTouched && this.loginProvided == loginProvided
    {
      formData := FormData("", "");
      loading := false;
      error := None;
      emailTouched := false;
      passwordTouched := false;
      this.loginProvided := loginProvided;
    }

    /** The submit button is disabled while loading or while any field is invalid. */
    function SubmitDisabled(): (b: bool)
      reads this
      ensures !b <==> !loading && formData.email != "" && EmailShaped(formData.email) && Utf16Length(formData.password) >= 6
    {
      loading || !ValidateForm(formData).IsEmpty()
    }

    /** `handleChange`: update one field and clear the displayed error. */
    method HandleChange(name: InputName, value: string)
      modifies this`formData, this`error
      ensures error == None
      ensures name == EmailInput ==> formData == old(formData).(email := value)
      ensures name == PasswordInput ==> formData == old(formData).(password := value)
    {
      formData := if name == EmailInput then formData.(email := value) else formData.(password := value);
      error := None;
    }

    /** `handleBlur`: the field is marked touched, so its hint may show. */
    method HandleBlur(name: InputName)
      modifies this`emailTouched, this`passwordTouched
      ensures emailTouched == (old(emailTouched) || name == EmailInput)
      ensures passwordTouched == (old(passwordTouched) || name == PasswordInput)
    {
      if name == EmailInput { emailTouched := true; } else { passwordTouched := true; }
    }

    /**
     * `handleSubmit`: a form with errors makes no request and changes no state;
     * otherwise the credentials are posted and `loading` ends false on every outcome.
     */
    method HandleSubmit(callbackUrl: Option<string>, reply: Call<Response<AdminLoginRoute.Data>>)
      returns (outcome: Submission, request: Option<AdminLoginRoute.Credentials>)
      modifies this`loading, this`error
      ensures outcome == SubmitOutcome(formData, callbackUrl, loginProvided, reply)
      ensures request.None? <==> outcome.Blocked?
      ensures request.Some? ==> request.value == AdminLoginRoute.Credentials(formData.email, formData.password)
      ensures outcome.Blocked? ==> loading == old(loading) && error == old(error)
      ensures !outcome.Blocked? ==> !loading
      ensures outcome.Failed? ==> error == Some(outcome.message)
      ensures outcome.Redirected? ==> error == None
    {
      outcome := SubmitOutcome(formData, callbackUrl, loginProvided, reply);
      if outcome.Blocked? {
        request := None;
        return;
      }
      request := Some(AdminLoginRoute.Credentials(formData.email, formData.password));
      loading := true;
      error := None;
      if outcome.Failed? {
        error := Some(outcome.message);
      }
      loading := false;
    }
  }
}
