/**
 * `/api/login`: the customer's two-phase phone/OTP login (POST) and the
 * session introspection (GET). The external backend is a set of function
 * parameters; each handler returns its response together with the outbound
 * calls it made.
 */
module LoginRoute {
  import opened Wrappers
  import opened Http

  const GenericError: string := "Something went wrong. Please try again later."

  /** The POST body `{ phone, otp }`; a missing `otp` is None. */
  datatype LoginBody = LoginBody(phone: string, otp: Option<string>)

  /** `/clientAuth/login` reply: the HTTP `ok` flag and the decoded body. */
  datatype SendOtpReply = SendOtpReply(ok: bool, success: bool, message: Option<string>)

  /** `/clientAuth/validate-otp` reply; `ok` is carried but the handler never reads it. */
  datatype ValidateReply = ValidateReply(ok: bool, success: bool, message: Option<string>, jwtToken: Option<string>)

  /** `/clients/get-client` reply: the customer record is under `client`, when present. */
  datatype ClientReply = ClientReply(success: bool, client: Option<Object>)

  /** The body's `user.customer`: the client's `customer` field, or `false`. */
  datatype CustomerName = Customer(name: string) | NoCustomer

  /** The payloads of this route: a fresh session (POST) or the live profile (GET). */
  datatype Data =
    | Session(phone: string, customer: CustomerName, token: string)
    | Profile(user: Option<Object>)

  /** Outbound backend calls; `GetClient` carries the bearer token it presents. */
  datatype Outbound = SendOtp(phone: string) | ValidateOtp(phone: string, otp: string) | GetClient(bearer: string)

  /** The backend as the handlers see it: one function per endpoint. */
  datatype Backend = Backend(
    sendOtp: string -> Call<SendOtpReply>,
    validateOtp: (string, string) -> Call<ValidateReply>,
    getClient: string -> Call<ClientReply>)

  /** `const { customer } = userData.client || {}` then `customer || false`. */
  function CustomerOf(client: Option<Object>): (c: CustomerName)
    ensures c.Customer? <==> client.Some? && Truthy(Field(client.value, "customer"))
    ensures c.Customer? ==> c.name == client.value["customer"]
  {
    match client
    case None => NoCustomer
    case Some(o) => if Truthy(Field(o, "customer")) then Customer(o["customer"]) else NoCustomer
  }

  /**
   * The condition under which POST issues a session: the body carries a truthy
   * `otp`, validation reports `success` with a truthy `jwtToken`, and the
   * profile fetch made with that token reports `success`.
   */
  predicate SessionIssued(body: Option<LoginBody>, be: Backend) {
    body.Some? && Truthy(body.value.otp) &&
    var v := be.validateOtp(body.value.phone, body.value.otp.value);
    v.Replied? && v.reply.success && Truthy(v.reply.jwtToken) &&
    var u := be.getClient(v.reply.jwtToken.value);
    u.Replied? && u.reply.success
  }

  /**
   * Some backend call POST makes throws: the send-OTP call in phase 1, or in
   * phase 2 the validation call, or the profile fetch after a good validation.
   */
  predicate AnyCallThrew(body: Option<LoginBody>, be: Backend) {
    body.Some? &&
    if !Truthy(body.value.otp) then be.sendOtp(body.value.phone).Threw?
    else
      var v := be.validateOtp(body.value.phone, body.value.otp.value);
      v.Threw? || (v.reply.success && Truthy(v.reply.jwtToken) && be.getClient(v.reply.jwtToken.value).Threw?)
  }

  /** POST `/api/login`; `body` is None when the request body is not valid JSON. */
  function Post(body: Option<LoginBody>, be: Backend): (x: Exchange<Data, Outbound>)
    // no partial session: the cookie is set exactly when both validation and profile fetch succeed
    ensures x.response.cookie.Some? <==> SessionIssued(body, be)
    ensures SessionIssued(body, be) ==>
              var token := be.validateOtp(body.value.phone, body.value.otp.value).reply.jwtToken.value;
              x.response.cookie == Some(Cookie("token", token, SessionMaxAge)) &&
              x.response.status == 200 && x.response.success &&
              x.response.data == Some(Session(body.value.phone, CustomerOf(be.getClient(token).reply.client), token)) &&
              x.calls == [ValidateOtp(body.value.phone, body.value.otp.value), GetClient(token)]
    ensures x.response.success <==> x.response.status == 200
    // phase 1: a falsy otp makes only the send-OTP call
    ensures body.Some? && !Truthy(body.value.otp) ==> x.calls == [SendOtp(body.value.phone)]
    // phase 1 succeeds exactly on an ok, successful send, with the fixed confirmation
    ensures body.Some? && !Truthy(body.value.otp) ==>
              var s := be.sendOtp(body.value.phone);
              (x.response.success <==> s.Replied? && s.reply.ok && s.reply.success) &&
              (s.Replied? && s.reply.ok && s.reply.success ==>
                 x.response == Json(true, Some("OTP sent successfully"), None))
    ensures body.None? ==> x.calls == [] && x.response == Failure(500, GenericError)
    // an exception at any of the three backend calls is the generic 500
    ensures AnyCallThrew(body, be) ==> x.response == Failure(500, GenericError)
  {
    match body
    case None => Exchange(Failure(500, GenericError), [])
    case Some(b) =>
      if !Truthy(b.otp) then
        var calls := [SendOtp(b.phone)];
        match be.sendOtp(b.phone)
        case Threw(_) => Exchange(Failure(500, GenericError), calls)
        case Replied(s) =>
          if !s.ok || !s.success then Exchange(Failure(400, Or(s.message, "Failed to send OTP")), calls)
          else Exchange(Json(true, Some("OTP sent successfully"), None), calls)
      else
        var otp := b.otp.value;
        match be.validateOtp(b.phone, otp)
        case Threw(_) => Exchange(Failure(500, GenericError), [ValidateOtp(b.phone, otp)])
        case Replied(v) =>
          if !v.success || !Truthy(v.jwtToken) then
            Exchange(Failure(401, Or(v.message, "OTP validation failed")), [ValidateOtp(b.phone, otp)])
          else
            var token := v.jwtToken.value;
            var calls := [ValidateOtp(b.phone, otp), GetClient(token)];
            match be.getClient(token)
            case Threw(_) => Exchange(Failure(500, GenericError), calls)
            case Replied(u) =>
              if !u.success then Exchange(Failure(500, "Failed to fetch user details"), calls)
              else
                var session := Session(b.phone, CustomerOf(u.client), token);
                Exchange(Response(200, true, Some("Login successful"), Some(session), Some(Cookie("token", token, SessionMaxAge))), calls)
  }

  /** GET `/api/login`: the live profile for the session cookie. */
  function Get(token: Option<string>, getClient: string -> Call<ClientReply>): (x: Exchange<Data, Outbound>)
    ensures x.response.cookie == None
    ensures !Truthy(token) ==> x.calls == [] && x.response == Failure(401, "Unauthorized. No token found.")
    ensures Truthy(token) ==> x.calls == [GetClient(token.value)]
    ensures x.response.success <==>
              Truthy(token) && getClient(token.value).Replied? && getClient(token.value).reply.success
    ensures x.response.success ==> x.response.data == Some(Profile(getClient(token.value).reply.client))
    ensures !x.response.success ==> x.response.status in {401, 500} && x.response.data == None
    ensures Truthy(token) && getClient(token.value).Threw? ==> x.response == Failure(500, "Internal server error")
    ensures Truthy(token) && getClient(token.value).Replied? && !getClient(token.value).reply.success ==>
              x.response == Failure(401, "Failed to fetch user info")
  {
    if !Truthy(token) then
      Exchange(Failure(401, "Unauthorized. No token found."), [])
    else
      var calls := [GetClient(token.value)];
      match getClient(token.value)
      case Threw(_) => Exchange(Failure(500, "Internal server error"), calls)
      case Replied(u) =>
        if !u.success then Exchange(Failure(401, "Failed to fetch user info"), calls)
        else Exchange(Json(true, None, Some(Profile(u.client))), calls)
  }

  // ---------------------------------------------------------------------------
  // Properties of the two handlers.

  /** Phase 1 fails with 400 when the backend is not ok or reports no success, with the backend's message if any. */
  lemma SendOtpFailure(phone: string, be: Backend)
    requires be.sendOtp(phone).Replied?
    requires !be.sendOtp(phone).reply.ok || !be.sendOtp(phone).reply.success
    ensures var r := Post(Some(LoginBody(phone, None)), be).response;
            r == Failure(400, Or(be.sendOtp(phone).reply.message, "Failed to send OTP"))
  {
  }

  /** Phase 2 rejects a validation reply lacking `success` or `jwtToken` with 401, whatever its `ok` flag says. */
  lemma ValidationFailureIgnoresOk(phone: string, otp: string, be: Backend)
    requires otp != ""
    requires be.validateOtp(phone, otp).Replied?
    requires !be.validateOtp(phone, otp).reply.success || !Truthy(be.validateOtp(phone, otp).reply.jwtToken)
    ensures var x := Post(Some(LoginBody(phone, Some(otp))), be);
            x.response.status == 401 && x.response.cookie == None && x.calls == [ValidateOtp(phone, otp)]
  {
  }

  /** A failed profile fetch after a good validation yields 500 and no cookie: no partial session. */
  lemma ProfileFailureNoSession(phone: string, otp: string, be: Backend)
    requires otp != ""
    requires var v := be.validateOtp(phone, otp);
             v.Replied? && v.reply.success && Truthy(v.reply.jwtToken)
    requires var u := be.getClient(be.validateOtp(phone, otp).reply.jwtToken.value);
             u.Replied? && !u.reply.success
    ensures Post(Some(LoginBody(phone, Some(otp))), be).response == Failure(500, "Failed to fetch user details")
  {
  }

  /** Any exception at any step yields 500 with the generic message and no cookie. */
  lemma ThrownIsGeneric500(body: LoginBody, be: Backend)
    requires AnyCallThrew(Some(body), be)
    ensures Post(Some(body), be).response == Failure(500, GenericError)
    ensures Post(Some(body), be).response.cookie == None
  {
  }

  /**
   * A profile fetch that throws after a good validation is the generic 500,
   * not 'Failed to fetch user details': both calls were made, no session is issued.
   */
  lemma ProfileThrownIsGeneric500(phone: string, otp: string, be: Backend)
    requires otp != ""
    requires var v := be.validateOtp(phone, otp);
             v.Replied? && v.reply.success && Truthy(v.reply.jwtToken)
    requires be.getClient(be.validateOtp(phone, otp).reply.jwtToken.value).Threw?
    ensures var x := Post(Some(LoginBody(phone, Some(otp))), be);
            x.response == Failure(500, GenericError) &&
            x.calls == [ValidateOtp(phone, otp), GetClient(be.validateOtp(phone, otp).reply.jwtToken.value)]
  {
  }

  /** GET with no token never calls the backend; a rejected token gives 401. */
  lemma GetRejected(token: string, getClient: string -> Call<ClientReply>)
    requires token != ""
    requires getClient(token).Replied? && !getClient(token).reply.success
    ensures Get(Some(token), getClient).response == Failure(401, "Failed to fetch user info")
  {
  }
}
