/**
 * `/api/admin/login`: the admin's email/password login (POST), which sets the
 * `admin_token` cookie, and a presence-only admin check (GET).
 */
module AdminLoginRoute {
  import opened Wrappers
  import opened Http

  const GenericError: string := "Something went wrong. Please try again later."

  /** The POST body `{ email, password }`. */
  datatype Credentials = Credentials(email: string, password: string)

  /** `/auth/login` reply. */
  datatype LoginReply = LoginReply(success: bool, message: Option<string>, jwtToken: Option<string>,
                                   email: Option<string>, name: Option<string>)

  /** The payloads: the admin summary (POST) and the admin flag (GET). */
  datatype Data = Admin(email: Option<string>, name: Option<string>, adminToken: string) | AdminCheck(isAdmin: bool)

  /** The one outbound call: the credentials forwarded verbatim. */
  datatype Outbound = AuthLogin(credentials: Credentials)

  /** POST `/api/admin/login`; `body` is None when the request body is not valid JSON. */
  function Post(body: Option<Credentials>, login: Credentials -> Call<LoginReply>): (x: Exchange<Data, Outbound>)
    ensures x.response.cookie.Some? <==>
              body.Some? && login(body.value).Replied? &&
              login(body.value).reply.success && Truthy(login(body.value).reply.jwtToken)
    ensures x.response.cookie.Some? ==>
              var reply := login(body.value).reply;
              var token := reply.jwtToken.value;
              x.response.cookie == Some(Cookie("admin_token", token, SessionMaxAge)) &&
              x.response == Response(200, true, Some("Login successful"),
                                     Some(Admin(reply.email, reply.name, token)), x.response.cookie)
    ensures body.Some? ==> x.calls == [AuthLogin(body.value)]
    ensures body.None? ==> x.calls == []
  {
    match body
    case None => Exchange(Failure(500, GenericError), [])
    case Some(creds) =>
      var calls := [AuthLogin(creds)];
      match login(creds)
      case Threw(_) => Exchange(Failure(500, GenericError), calls)
      case Replied(r) =>
        if !r.success || !Truthy(r.jwtToken) then
          Exchange(Failure(401, Or(r.message, "Login failed")), calls)
        else
          var token := r.jwtToken.value;
          Exchange(Response(200, true, Some("Login successful"), Some(Admin(r.email, r.name, token)),
                            Some(Cookie("admin_token", token, SessionMaxAge))), calls)
  }

  /** GET `/api/admin/login`: only the presence of `admin_token` is checked, never with the backend. */
  function Get(adminToken: Option<string>): (r: Response<Data>)
    ensures r.status == 401 <==> !Truthy(adminToken)
    ensures Truthy(adminToken) ==> r == Json(true, None, Some(AdminCheck(true)))
    ensures !Truthy(adminToken) ==> r == Failure(401, "Unauthorized. No admin token found.")
  {
    if !Truthy(adminToken) then Failure(401, "Unauthorized. No admin token found.")
    else Json(true, None, Some(AdminCheck(true)))
  }

  /** A reply without success or token is a 401 carrying the backend's message, else 'Login failed', and no cookie. */
  lemma RejectedLogin(creds: Credentials, login: Credentials -> Call<LoginReply>)
    requires login(creds).Replied?
    requires !login(creds).reply.success || !Truthy(login(creds).reply.jwtToken)
    ensures Post(Some(creds), login).response == Failure(401, Or(login(creds).reply.message, "Login failed"))
  {
  }

  /** An exception anywhere in POST becomes a generic 500 without a cookie. */
  lemma ThrownIsGeneric500(creds: Credentials, login: Credentials -> Call<LoginReply>)
    requires login(creds).Threw?
    ensures Post(Some(creds), login).response == Failure(500, GenericError)
  {
  }
}
