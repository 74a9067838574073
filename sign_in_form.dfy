/**
 * The customer sign-in form: phone number, then OTP, against POST
 * `/api/login`; a 60-second resend countdown; and "Change Mobile Number".
 *
 * Like the admin form it calls `login` from the session context, which
 * provides none; `loginProvided` records which context it was built against.
 */
module SignInForm {
  import opened Wrappers
  import opened Http
  import LoginRoute
  import AuthContext

  const InitialMobileNumber: string := "8538945025"
  const ResendSeconds: int := 60
  const InvalidNumber: string := "Please enter a valid 10-digit mobile number"
  const InvalidOtp: string := "Please enter a valid 4-digit OTP"
  const SendFailed: string := "Failed to send OTP. Please try again."
  /** The TypeError's message for the undefined `login(...)` call, as V8 words it for unminified code. */
  const LoginMissing: string := "login is not a function"

  /** `data.token || ''` of a `/api/login` response. */
  function TokenOf(r: Response<LoginRoute.Data>): (t: string)
    ensures r.data.Some? && r.data.value.Session? ==> t == r.data.value.token
    ensures !(r.data.Some? && r.data.value.Session?) ==> t == ""
  {
    if r.data.Some? && r.data.value.Session? then r.data.value.token else ""
  }

  /** The error a failed send shows: the route's message, the thrown message, or the fallback. */
  function SendError(reply: Call<Response<LoginRoute.Data>>): (m: string)
    ensures reply.Replied? ==> m != "" && (Truthy(reply.reply.message) ==> m == reply.reply.message.value)
    ensures reply.Threw? ==> m == if reply.error.Some? then reply.error.value else SendFailed
  {
    match reply
    case Threw(m) => m.GetOr(SendFailed)
    case Replied(r) => Or(r.message, SendFailed)
  }

  /** How a verify attempt that reached the network ends. */
  datatype Verification = SignedIn(token: string) | Rejected(message: string)

  /** `handleVerifyOtp` after its length check: a non-ok status is thrown first, then `success` decides. */
  function VerifyResult(reply: Call<Response<LoginRoute.Data>>, loginProvided: bool): (v: Verification)
    ensures v.SignedIn? <==> reply.Replied? && reply.reply.Ok() && reply.reply.success && loginProvided
    ensures v.SignedIn? ==> v.token == TokenOf(reply.reply)
    ensures reply.Replied? && !reply.reply.Ok() ==> v == Rejected(Or(reply.reply.message, "Failed to verify OTP"))
    ensures reply.Replied? && reply.reply.Ok() && !reply.reply.success ==>
              v == Rejected(Or(reply.reply.message, "Invalid OTP. Please try again."))
    ensures reply.Replied? && reply.reply.Ok() && reply.reply.success && !loginProvided ==> v == Rejected(LoginMissing)
    // a thrown fetch or parse shows the Error's message, or the fallback for a non-Error
    ensures reply.Threw? ==> v == Rejected(reply.error.GetOr("Invalid OTP. Please try again."))
  {
    match reply
    case Threw(m) => Rejected(m.GetOr("Invalid OTP. Please try again."))
    case Replied(r) =>
      if !r.Ok() then Rejected(Or(r.message, "Failed to verify OTP"))
      else if r.success then
        // `login(data.user, 'user')` runs before the token is stored
        if loginProvided then SignedIn(TokenOf(r)) else Rejected(LoginMissing)
      else Rejected(Or(r.message, "Invalid OTP. Please try again."))
  }

  /** A wrong OTP (the route's 401) surfaces the backend's message, or the route's fallback. */
  lemma WrongOtpShowsMessage(phone: string, otp: string, be: LoginRoute.Backend, loginProvided: bool)
    requires otp != ""
    requires var v := be.validateOtp(phone, otp);
             v.Replied? && (!v.reply.success || !Truthy(v.reply.jwtToken))
    ensures VerifyResult(Replied(LoginRoute.Post(Some(LoginRoute.LoginBody(phone, Some(otp))), be).response), loginProvided)
            == Rejected(Or(be.validateOtp(phone, otp).reply.message, "OTP validation failed"))
  {
  }

  /** As written: the context has no `login`, so a verified OTP ends in an error and no token is stored. */
  lemma VerifiedOtpFailsAsWritten(phone: string, otp: string, be: LoginRoute.Backend)
    requires otp != "" && LoginRoute.SessionIssued(Some(LoginRoute.LoginBody(phone, Some(otp))), be)
    ensures var x := LoginRoute.Post(Some(LoginRoute.LoginBody(phone, Some(otp))), be);
            x.response.cookie.Some? &&
            VerifyResult(Replied(x.response), AuthContext.ExposesLogin) == Rejected(LoginMissing)
  {
  }

  /** As intended: with a `login` in the context, a verified OTP stores the very token the cookie holds. */
  lemma VerifiedOtpSignsIn(phone: string, otp: string, be: LoginRoute.Backend)
    requires otp != "" && LoginRoute.SessionIssued(Some(LoginRoute.LoginBody(phone, Some(otp))), be)
    ensures var x := LoginRoute.Post(Some(LoginRoute.LoginBody(phone, Some(otp))), be);
            VerifyResult(Replied(x.response), true) == SignedIn(x.response.cookie.value.value)
  {
  }

  class Form {
    var mobileNumber: string
    var otp: string
    var isOtpSent: bool
    var loading: bool
    var error: Option<string>
    var timer: int
    /** The `userToken` entry of local storage. */
    var storedToken: Option<string>
    /** Whether `useAuth()` handed the form a `login` function. */
    const loginProvided: bool

    /** The countdown never goes below zero. */
    ghost predicate Valid()
      reads this
    {
      timer >= 0
    }

    constructor (loginProvided: bool)
      ensures Valid()
      ensures mobileNumber == InitialMobileNumber && otp == "" && !isOtpSent && !loading
      ensures error == None && timer == 0 && storedToken == None && this.loginProvided == loginProvided
    {
      mobileNumber := InitialMobileNumber;
      otp := "";
      isOtpSent := false;
      loading := false;
      error := None;
      timer := 0;
      storedToken := None;
      this.loginProvided := loginProvided;
    }

    method SetMobileNumber(value: string)
      modifies this`mobileNumber
      ensures mobileNumber == value
    {
      mobileNumber := value;
    }

    method SetOtp(value: string)
      modifies this`otp
      ensures otp == value
    {
      otp := value;
    }

    /** The resend button is disabled while the countdown runs. */
    function ResendDisabled(): (b: bool)
      reads this
      ensures b <==> timer > 0
    {
      timer > 0
    }

    /**
     * `handleSendOtp`: only a number of 10 UTF-16 units is sent; the handler
     * itself does not check its characters. The number input is given a
     * `pattern` of ten digits, which a browser checks before a form submit
     * only if the input component passes it on to the page (that component is
     * not part of this model); a resend click is not a form submit either way.
     * A successful send switches to the OTP step and starts the countdown;
     * `loading` ends false either way.
     */
    method SendOtp(reply: Call<Response<LoginRoute.Data>>) returns (request: Option<LoginRoute.LoginBody>)
      requires Valid()
      modifies this`isOtpSent, this`loading, this`error, this`timer
      ensures Valid()
      ensures request.None? <==> Utf16Length(mobileNumber) != 10
      ensures request.None? ==>
                error == Some(InvalidNumber) && isOtpSent == old(isOtpSent) &&
                timer == old(timer) && loading == old(loading)
      ensures request.Some? ==> request.value == LoginRoute.LoginBody(mobileNumber, None) && !loading
      ensures request.Some? && reply.Replied? && reply.reply.success ==>
                isOtpSent && error == None && timer == ResendSeconds
      ensures request.Some? && !(reply.Replied? && reply.reply.success) ==>
                isOtpSent == old(isOtpSent) && timer == old(timer) && error == Some(SendError(reply))
    {
      if mobileNumber == "" || Utf16Length(mobileNumber) != 10 {
        error := Some(InvalidNumber);
        return None;
      }
      request := Some(LoginRoute.LoginBody(mobileNumber, None));
      loading := true;
      error := None;
      if reply.Replied? && reply.reply.success {
        isOtpSent := true;
        error := None;
        timer := ResendSeconds;
      } else {
        error := Some(SendError(reply));
      }
      loading := false;
    }

    /**
     * `handleVerifyOtp`: only an OTP of 4 UTF-16 units is sent; a verified OTP stores
     * `data.token`, anything else shows an error; `loading` ends false either way.
     */
    method VerifyOtp(reply: Call<Response<LoginRoute.Data>>) returns (request: Option<LoginRoute.LoginBody>)
      modifies this`loading, this`error, this`storedToken
      ensures request.None? <==> Utf16Length(otp) != 4
      ensures request.None? ==> error == Some(InvalidOtp) && storedToken == old(storedToken) && loading == old(loading)
      ensures request.Some? ==> request.value == LoginRoute.LoginBody(mobileNumber, Some(otp)) && !loading
      ensures request.Some? ==>
                match VerifyResult(reply, loginProvided)
                case SignedIn(token) => storedToken == Some(token) && error == None
                case Rejected(message) => storedToken == old(storedToken) && error == Some(message)
    {
      if otp == "" || Utf16Length(otp) != 4 {
        error := Some(InvalidOtp);
        return None;
      }
      request := Some(LoginRoute.LoginBody(mobileNumber, Some(otp)));
      loading := true;
      error := None;
      match VerifyResult(reply, loginProvided) {
        case SignedIn(token) => storedToken := Some(token);
        case Rejected(message) => error := Some(message);
      }
      loading := false;
    }

    /**
     * The form's submit goes to verify once the OTP was sent, else to send;
     * each step keeps the other step's state.
     */
    method Submit(reply: Call<Response<LoginRoute.Data>>) returns (request: Option<LoginRoute.LoginBody>)
      requires Valid()
      modifies this`isOtpSent, this`loading, this`error, this`timer, this`storedToken
      ensures Valid()
      ensures !loading || loading == old(loading)
      ensures old(isOtpSent) ==> (request.None? <==> Utf16Length(otp) != 4)
      ensures old(isOtpSent) ==> isOtpSent && timer == old(timer)
      ensures old(isOtpSent) && request.Some? ==>
                request.value == LoginRoute.LoginBody(mobileNumber, Some(otp)) &&
                match VerifyResult(reply, loginProvided)
                case SignedIn(token) => storedToken == Some(token) && error == None
                case Rejected(message) => storedToken == old(storedToken) && error == Some(message)
      ensures !old(isOtpSent) ==> (request.None? <==> Utf16Length(mobileNumber) != 10)
      ensures !old(isOtpSent) ==> storedToken == old(storedToken)
      ensures !old(isOtpSent) && request.Some? ==> request.value == LoginRoute.LoginBody(mobileNumber, None)
      ensures !old(isOtpSent) && request.Some? && reply.Replied? && reply.reply.success ==>
                isOtpSent && error == None && timer == ResendSeconds
      ensures !old(isOtpSent) && request.Some? && !(reply.Replied? && reply.reply.success) ==>
                !isOtpSent && timer == old(timer) && error == Some(SendError(reply))
    {
      if isOtpSent {
        request := VerifyOtp(reply);
      } else {
        request := SendOtp(reply);
      }
    }

    /** A resend click does nothing while the button is disabled; otherwise it sends again. */
    method Resend(reply: Call<Response<LoginRoute.Data>>) returns (request: Option<LoginRoute.LoginBody>)
      requires Valid()
      modifies this`isOtpSent, this`loading, this`error, this`timer
      ensures Valid()
      ensures old(ResendDisabled()) ==>
                request == None && error == old(error) && timer == old(timer) && isOtpSent == old(isOtpSent)
      ensures !old(ResendDisabled()) ==> (request.None? <==> Utf16Length(mobileNumber) != 10)
      ensures !old(ResendDisabled()) && request.Some? ==> request.value == LoginRoute.LoginBody(mobileNumber, None)
      ensures !old(ResendDisabled()) && request.Some? && reply.Replied? && reply.reply.success ==>
                isOtpSent && timer == ResendSeconds && ResendDisabled()
    {
      if timer > 0 {
        return None;
      }
      request := SendOtp(reply);
    }

    /** One second of the countdown interval, which runs only while `timer > 0`. */
    method Tick()
      requires Valid()
      modifies this`timer
      ensures Valid()
      ensures old(timer) > 0 ==> timer == old(timer) - 1
      ensures old(timer) == 0 ==> timer == 0
    {
      if timer > 0 {
        timer := timer - 1;
      }
    }

    /** "Change Mobile Number": back to the number step with the OTP and error cleared. */
    method ChangeNumber()
      modifies this`isOtpSent, this`otp, this`error
      ensures !isOtpSent && otp == "" && error == None
    {
      isOtpSent := false;
      otp := "";
      error := None;
    }
  }
}
