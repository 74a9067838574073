/**
 * The client session context: one customer identity (`user`) and a `loading`
 * flag, driven by `checkAuth` (which asks GET `/api/login`), `logout`, the
 * partial user kept in local storage, and a focus handler guarded by an
 * in-flight flag. The context exposes `user`, `loading`, `checkAuth` and
 * `logout` only; it has no admin identity and no `login`.
 */
module AuthContext {
  import opened Wrappers
  import opened Http
  import LoginRoute

  /** The customer record as the backend returns it. */
  type User = Object

  const SignInPath: string := "/signin"
  const DashboardPath: string := "/user/dashboard"
  const HomePath: string := "/"

  /** Whether the context value carries a `login` function (it does not). */
  const ExposesLogin: bool := false

  /** `{ ...prevUser, customer, phone }`: a null previous user spreads to nothing. */
  function Merge(prev: Option<User>, customer: string, phone: string): (u: User)
    ensures "customer" in u && u["customer"] == customer
    ensures "phone" in u && u["phone"] == phone
    ensures forall k :: k != "customer" && k != "phone" ==>
              (k in u <==> prev.Some? && k in prev.value) && (k in u ==> u[k] == prev.value[k])
  {
    var base: User := if prev.Some? then prev.value else map[];
    base["customer" := customer]["phone" := phone]
  }

  /** The stored object is used only when both `customer` and `phone` are truthy. */
  predicate UsableStored(stored: Option<Object>)
    ensures UsableStored(stored) <==>
              stored.Some? && "customer" in stored.value && stored.value["customer"] != "" &&
              "phone" in stored.value && stored.value["phone"] != ""
  {
    stored.Some? && Truthy(Field(stored.value, "customer")) && Truthy(Field(stored.value, "phone"))
  }

  /** `data.user` of a `/api/login` response. */
  function UserOf(r: Response<LoginRoute.Data>): (u: Option<User>)
    ensures r.data.Some? && r.data.value.Profile? ==> u == r.data.value.user
    ensures r.data.None? ==> u == None
  {
    match r.data
    case None => None
    case Some(d) =>
      if d.Profile? then d.user
      else
        // the POST shape `{ phone, customer }`; `customer: false` has no string value
        Some(if d.customer.Customer? then map["phone" := d.phone, "customer" := d.customer.name] else map["phone" := d.phone])
  }

  /** The new `user` and the navigation `checkAuth` performs. */
  datatype AuthOutcome = AuthOutcome(user: Option<User>, navigate: Option<string>)

  /** What one `checkAuth` decides from the current path and the `/api/login` outcome. */
  function CheckAuthOutcome(pathname: string, reply: Call<Response<LoginRoute.Data>>): (o: AuthOutcome)
    ensures reply.Threw? ==> o == AuthOutcome(None, None)
    ensures reply.Replied? && reply.reply.success ==>
              o.user == UserOf(reply.reply) &&
              (o.navigate == Some(DashboardPath) <==> pathname == HomePath || pathname == SignInPath) &&
              (o.navigate == None <==> !(pathname == HomePath || pathname == SignInPath))
    ensures reply.Replied? && !reply.reply.success ==>
              o.user == None &&
              (o.navigate == Some(SignInPath) <==> StartsWith(pathname, "/user")) &&
              (o.navigate == None <==> !StartsWith(pathname, "/user"))
  {
    match reply
    case Threw(_) => AuthOutcome(None, None)
    case Replied(r) =>
      if r.success then
        AuthOutcome(UserOf(r), if pathname == HomePath || pathname == SignInPath then Some(DashboardPath) else None)
      else
        AuthOutcome(None, if StartsWith(pathname, "/user") then Some(SignInPath) else None)
  }

  class AuthProvider {
    var user: Option<User>
    var loading: bool
    /** `isCheckingAuth` of the focus effect: a focus-triggered check is in flight. */
    var focusCheckPending: bool

    constructor ()
      ensures user == None && loading && !focusCheckPending
    {
      user := None;
      loading := true;
      focusCheckPending := false;
    }

    /** `loadUserFromLocalStorage`; `stored` is None when the key is missing or its JSON does not parse. */
    method LoadUserFromLocalStorage(stored: Option<Object>)
      modifies this`user
      ensures UsableStored(stored) ==>
                user == Some(Merge(old(user), stored.value["customer"], stored.value["phone"]))
      ensures !UsableStored(stored) ==> user == old(user)
    {
      if UsableStored(stored) {
        user := Some(Merge(user, stored.value["customer"], stored.value["phone"]));
      }
    }

    /** The first half of `checkAuth`: the request is under way. */
    method BeginCheck()
      modifies this`loading
      ensures loading
    {
      loading := true;
    }

    /** The second half of `checkAuth`: the reply (or exception) arrives; `finally` clears `loading`. */
    method CompleteCheck(pathname: string, reply: Call<Response<LoginRoute.Data>>) returns (navigate: Option<string>)
      modifies this`user, this`loading
      ensures !loading
      ensures AuthOutcome(user, navigate) == CheckAuthOutcome(pathname, reply)
    {
      var o := CheckAuthOutcome(pathname, reply);
      user := o.user;
      navigate := o.navigate;
      loading := false;
    }

    /** `checkAuth` as one step. */
    method CheckAuth(pathname: string, reply: Call<Response<LoginRoute.Data>>) returns (navigate: Option<string>)
      modifies this`user, this`loading
      ensures !loading
      ensures AuthOutcome(user, navigate) == CheckAuthOutcome(pathname, reply)
    {
      BeginCheck();
      navigate := CompleteCheck(pathname, reply);
    }

    /**
     * `logout`: `reply` is the outcome of POST `/api/logout` (its `success`
     * flag). Only a successful reply clears `user` and navigates home.
     */
    method Logout(reply: Call<bool>) returns (navigate: Option<string>)
      modifies this`user
      ensures reply == Replied(true) ==> user == None && navigate == Some(HomePath)
      ensures reply != Replied(true) ==> user == old(user) && navigate == None
    {
      navigate := None;
      if reply == Replied(true) {
        user := None;
        navigate := Some(HomePath);
      }
    }

    /**
     * The mount effect: load the stored user, then run `checkAuth`. The
     * effect reads the `user` captured at mount, which is always null, so
     * the check always runs and its outcome replaces whatever was loaded.
     */
    method Mount(stored: Option<Object>, pathname: string, reply: Call<Response<LoginRoute.Data>>) returns (navigate: Option<string>)
      modifies this`user, this`loading
      ensures !loading
      ensures AuthOutcome(user, navigate) == CheckAuthOutcome(pathname, reply)
    {
      LoadUserFromLocalStorage(stored);
      navigate := CheckAuth(pathname, reply);
    }

    /** `handleFocus`: a re-check is scheduled only when none is in flight and there is no user. */
    method HandleFocus() returns (scheduled: bool)
      modifies this`focusCheckPending
      ensures scheduled <==> !old(focusCheckPending) && user == None
      ensures focusCheckPending == (old(focusCheckPending) || scheduled)
    {
      scheduled := !focusCheckPending && user == None;
      if scheduled {
        focusCheckPending := true;
      }
    }

    /** The scheduled re-check runs `checkAuth`, then clears the in-flight flag. */
    method RunFocusCheck(pathname: string, reply: Call<Response<LoginRoute.Data>>) returns (navigate: Option<string>)
      modifies this`user, this`loading, this`focusCheckPending
      ensures !loading && !focusCheckPending
      ensures AuthOutcome(user, navigate) == CheckAuthOutcome(pathname, reply)
    {
      navigate := CheckAuth(pathname, reply);
      focusCheckPending := false;
    }
  }

  /** Without a `token` cookie, `checkAuth` signs the user out and leaves `/user` pages for sign-in. */
  lemma {:induction false} NoCookieSignsOut(pathname: string, getClient: string -> Call<LoginRoute.ClientReply>)
    ensures CheckAuthOutcome(pathname, Replied(LoginRoute.Get(None, getClient).response))
            == AuthOutcome(None, if StartsWith(pathname, "/user") then Some(SignInPath) else None)
  {
  }

  /** With a token the backend accepts, `checkAuth` holds exactly the backend's client record. */
  lemma {:induction false} AcceptedCookieSignsIn(pathname: string, token: string, getClient: string -> Call<LoginRoute.ClientReply>)
    requires token != ""
    requires getClient(token).Replied? && getClient(token).reply.success
    ensures CheckAuthOutcome(pathname, Replied(LoginRoute.Get(Some(token), getClient).response)).user
            == getClient(token).reply.client
  {
  }

  /** The two navigations never loop: dashboard is not a sign-in trigger and vice versa. */
  lemma NavigationTargetsStable(reply: Call<Response<LoginRoute.Data>>)
    ensures CheckAuthOutcome(DashboardPath, reply).navigate != Some(DashboardPath)
    ensures CheckAuthOutcome(SignInPath, reply).navigate != Some(SignInPath)
  {
    assert !StartsWith(SignInPath, "/user") by { assert SignInPath[1] == 's'; }
  }
}
