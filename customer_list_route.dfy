/**
 * `/api/admin/customers/list` (GET): checks `admin_token`, fills in the
 * pagination defaults and forwards them to the backend, whose body it returns
 * unchanged.
 */
module CustomerListRoute {
  import opened Wrappers
  import opened Http

  /** The request's query parameters, as `searchParams.get` sees them. */
  type Query = map<string, string>

  /** The backend's page of customers, passed through untouched. */
  datatype ListBody = ListBody(success: bool, message: Option<string>, data: seq<Object>, totalRecords: int)

  /** `/customers/list` reply: the HTTP `ok` flag and the body, None when it is not valid JSON. */
  datatype ListReply = ListReply(ok: bool, body: Option<ListBody>)

  /** The one outbound call, with the three query values it forwards. */
  datatype Outbound = ListCustomers(bearer: string, page: string, perPage: string, filter: string)

  /** `searchParams.get(key) || fallback`. */
  function Param(query: Query, key: string, fallback: string): (v: string)
    ensures key in query && query[key] != "" ==> v == query[key]
    ensures !(key in query && query[key] != "") ==> v == fallback
  {
    Or(Field(query, key), fallback)
  }

  /** The outbound call the handler makes for this token and query. */
  function Forwarded(adminToken: string, query: Query): (c: Outbound)
    ensures c.bearer == adminToken
    ensures c.page == Param(query, "page", "1") && c.perPage == Param(query, "perPage", "10")
    ensures c.filter == Param(query, "filter", "-1")
  {
    ListCustomers(adminToken, Param(query, "page", "1"), Param(query, "perPage", "10"), Param(query, "filter", "-1"))
  }

  function Get(adminToken: Option<string>, query: Query, list: Outbound -> Call<ListReply>): (x: Exchange<ListBody, Outbound>)
    ensures !Truthy(adminToken) ==> x.calls == [] && x.response == Failure(401, "Unauthorized")
    ensures Truthy(adminToken) ==> x.calls == [Forwarded(adminToken.value, query)]
    ensures Truthy(adminToken) ==>
              var reply := list(Forwarded(adminToken.value, query));
              if reply.Replied? && reply.reply.ok && reply.reply.body.Some? then
                var body := reply.reply.body.value;
                x.response == Json(body.success, body.message, Some(body))
              else
                x.response == Failure(500, "Failed to fetch customers")
  {
    if !Truthy(adminToken) then
      Exchange(Failure(401, "Unauthorized"), [])
    else
      var call := Forwarded(adminToken.value, query);
      match list(call)
      case Threw(_) => Exchange(Failure(500, "Failed to fetch customers"), [call])
      case Replied(r) =>
        if !r.ok then
          // `throw new Error(...)`, caught just below in the source
          Exchange(Failure(500, "Failed to fetch customers"), [call])
        else
          match r.body
          case None => Exchange(Failure(500, "Failed to fetch customers"), [call])
          case Some(body) => Exchange(Json(body.success, body.message, Some(body)), [call])
  }

  /** With no query at all, the defaults '1', '10' and '-1' are forwarded. */
  lemma DefaultsForwarded(adminToken: string, list: Outbound -> Call<ListReply>)
    requires adminToken != ""
    ensures Get(Some(adminToken), map[], list).calls == [ListCustomers(adminToken, "1", "10", "-1")]
  {
  }

  /** Present, non-empty parameters are forwarded verbatim. */
  lemma ParamsVerbatim(adminToken: string, page: string, perPage: string, filter: string, list: Outbound -> Call<ListReply>)
    requires adminToken != "" && page != "" && perPage != "" && filter != ""
    ensures Get(Some(adminToken), map["page" := page, "perPage" := perPage, "filter" := filter], list).calls
            == [ListCustomers(adminToken, page, perPage, filter)]
  {
  }
}
