/**
 * `/api/scratch-cards` (GET): the session customer's coupons, fetched from the
 * backend with the `token` cookie and returned under `data`.
 */
module ScratchCardsRoute {
  import opened Wrappers
  import opened Http

  /** A coupon as the backend sends it; `amount` is the decimal text, never parsed here. */
  datatype Card = Card(id: string, couponCode: string, amount: string, validity: int, scratched: int, redeemed: int)

  /** `/clients/get-coupon` reply. */
  datatype CouponReply = CouponReply(success: bool, coupon: seq<Card>)

  datatype Outbound = GetCoupons(bearer: string)

  function Get(token: Option<string>, getCoupons: string -> Call<CouponReply>): (x: Exchange<seq<Card>, Outbound>)
    ensures !Truthy(token) ==> x.calls == [] && x.response == Failure(401, "Unauthorized. No token found.")
    ensures Truthy(token) ==> x.calls == [GetCoupons(token.value)]
    ensures x.response.success <==>
              Truthy(token) && getCoupons(token.value).Replied? && getCoupons(token.value).reply.success
    ensures x.response.success ==> x.response == Json(true, None, Some(getCoupons(token.value).reply.coupon))
    ensures x.response.cookie == None
  {
    if !Truthy(token) then
      Exchange(Failure(401, "Unauthorized. No token found."), [])
    else if !Truthy(token) then
      // the source repeats the token check; it can never fire
      Exchange(Failure(401, "Unauthorized"), [])
    else
      var calls := [GetCoupons(token.value)];
      match getCoupons(token.value)
      case Threw(_) => Exchange(Failure(500, "Internal server error"), calls)
      case Replied(r) =>
        if !r.success then Exchange(Failure(401, "Failed to fetch user Coupon"), calls)
        else Exchange(Json(true, None, Some(r.coupon)), calls)
        // the mock cards after this return in the source are unreachable
  }

  /** The second missing-token check is dead: its bare 'Unauthorized' message is never produced. */
  lemma SecondTokenCheckUnreachable(token: Option<string>, getCoupons: string -> Call<CouponReply>)
    ensures Get(token, getCoupons).response.message != Some("Unauthorized")
  {
  }

  /** A backend failure is reported as 401, an exception as 500. */
  lemma BackendFailures(token: string, getCoupons: string -> Call<CouponReply>)
    requires token != ""
    ensures getCoupons(token).Replied? && !getCoupons(token).reply.success ==>
              Get(Some(token), getCoupons).response == Failure(401, "Failed to fetch user Coupon")
    ensures getCoupons(token).Threw? ==>
              Get(Some(token), getCoupons).response == Failure(500, "Internal server error")
  {
  }
}
