/**
 * The customer's scratch-card grid: the list fetched from GET
 * `/api/scratch-cards`, the per-card updates a redeem or a finished scratch
 * makes, the copied-code marker, and what each card shows.
 */
module ScratchCards {
  import opened Wrappers
  import opened Http
  import ScratchCardsRoute

  type Card = ScratchCardsRoute.Card

  /** `cards.map(c => c._id === id ? change(c) : c)`. */
  function UpdateById(cards: seq<Card>, id: string, change: Card -> Card): (r: seq<Card>)
    ensures |r| == |cards|
    ensures forall k :: 0 <= k < |cards| ==> r[k] == if cards[k].id == id then change(cards[k]) else cards[k]
  {
    if cards == [] then []
    else [if cards[0].id == id then change(cards[0]) else cards[0]] + UpdateById(cards[1..], id, change)
  }

  /**
   * The update a successful redeem makes: `{ ...card, redeemed: 1 }` on the
   * matching cards; ids, `scratched`, order and length stay, other cards are untouched.
   */
  function MarkRedeemed(cards: seq<Card>, id: string): (r: seq<Card>)
    ensures |r| == |cards|
    ensures forall k :: 0 <= k < |cards| ==> r[k].id == cards[k].id && r[k].scratched == cards[k].scratched
    ensures forall k :: 0 <= k < |cards| && cards[k].id != id ==> r[k] == cards[k]
    ensures forall k :: 0 <= k < |cards| && cards[k].id == id ==> r[k].redeemed == 1
  {
    UpdateById(cards, id, (c: Card) => c.(redeemed := 1))
  }

  /**
   * The update a finished scratch makes: `{ ...c, scratched: 1 }` on the
   * matching cards; ids, `redeemed`, order and length stay, other cards are untouched.
   */
  function MarkScratched(cards: seq<Card>, id: string): (r: seq<Card>)
    ensures |r| == |cards|
    ensures forall k :: 0 <= k < |cards| ==> r[k].id == cards[k].id && r[k].redeemed == cards[k].redeemed
    ensures forall k :: 0 <= k < |cards| && cards[k].id != id ==> r[k] == cards[k]
    ensures forall k :: 0 <= k < |cards| && cards[k].id == id ==> r[k].scratched == 1
  {
    UpdateById(cards, id, (c: Card) => c.(scratched := 1))
  }

  /** A card still covered shows the scratch surface. */
  predicate ShowsScratchSurface(c: Card) {
    c.scratched == 0
  }

  /** The Redeem button shows on an uncovered card whose `redeemed` is exactly 0, never beside a 'Redeemed' badge. */
  predicate ShowsRedeemButton(c: Card)
    ensures ShowsRedeemButton(c) ==> !ShowsScratchSurface(c) && Badge(c) == Some("Ready to Redeem")
  {
    c.scratched != 0 && c.redeemed == 0
  }

  /** The status badge of an uncovered card; a covered card shows none. */
  function Badge(c: Card): (b: Option<string>)
    ensures b.None? <==> ShowsScratchSurface(c)
    ensures b == Some("Redeemed") <==> c.scratched != 0 && c.redeemed == 1
    ensures b == Some("Ready to Redeem") <==> c.scratched != 0 && c.redeemed != 1
  {
    if c.scratched == 0 then None
    else if c.redeemed == 1 then Some("Redeemed")
    else Some("Ready to Redeem")
  }

  /** After a redeem of an uncovered card, it reads 'Redeemed' and offers no Redeem button. */
  lemma RedeemedCardDisplay(cards: seq<Card>, id: string, k: int)
    requires 0 <= k < |cards| && cards[k].id == id && cards[k].scratched != 0
    ensures Badge(MarkRedeemed(cards, id)[k]) == Some("Redeemed")
    ensures !ShowsRedeemButton(MarkRedeemed(cards, id)[k])
  {
  }

  /** Finishing a scratch uncovers the card; it offers Redeem exactly when it was not redeemed yet. */
  lemma ScratchedCardDisplay(cards: seq<Card>, id: string, k: int)
    requires 0 <= k < |cards| && cards[k].id == id
    ensures !ShowsScratchSurface(MarkScratched(cards, id)[k])
    ensures ShowsRedeemButton(MarkScratched(cards, id)[k]) <==> cards[k].redeemed == 0
  {
  }

  /** Redeeming the same card twice is the same as once. */
  lemma RedeemIdempotent(cards: seq<Card>, id: string)
    ensures MarkRedeemed(MarkRedeemed(cards, id), id) == MarkRedeemed(cards, id)
  {
  }

  /** The grid's updates on different fields commute: scratch then redeem equals redeem then scratch. */
  lemma ScratchRedeemCommute(cards: seq<Card>, a: string, b: string)
    ensures MarkRedeemed(MarkScratched(cards, a), b) == MarkScratched(MarkRedeemed(cards, b), a)
  {
  }

  /** A successful reply of the route always carries the coupon list it got from the backend. */
  lemma RouteSuccessCarriesCards(token: Option<string>, getCoupons: string -> Call<ScratchCardsRoute.CouponReply>)
    requires ScratchCardsRoute.Get(token, getCoupons).response.success
    ensures Truthy(token)
    ensures var r := ScratchCardsRoute.Get(token, getCoupons).response;
            r.data == Some(getCoupons(token.value).reply.coupon)
  {
  }

  class CardGrid {
    var cards: seq<Card>
    var loading: bool
    /** The coupon code whose copy button shows the check mark. */
    var copiedCode: Option<string>

    constructor ()
      ensures cards == [] && loading && copiedCode == None
    {
      cards := [];
      loading := true;
      copiedCode := None;
    }

    /** `fetchCards`: a `success` reply replaces the list; `finally` clears `loading`. */
    method FetchCards(reply: Call<Response<seq<Card>>>)
      modifies this`cards, this`loading
      ensures !loading
      ensures reply.Replied? && reply.reply.success && reply.reply.data.Some? ==> cards == reply.reply.data.value
      ensures !(reply.Replied? && reply.reply.success) ==> cards == old(cards)
    {
      if reply.Replied? && reply.reply.success && reply.reply.data.Some? {
        cards := reply.reply.data.value;
      }
      loading := false;
    }

    /**
     * `handleRedeem`: `reply` is the `success` flag of POST
     * `/api/scratch-cards/{id}/redeem`. Only success marks the card and opens
     * the reward site.
     */
    method HandleRedeem(id: string, reply: Call<bool>) returns (opensRewardSite: bool)
      modifies this`cards
      ensures opensRewardSite <==> reply == Replied(true)
      ensures opensRewardSite ==> cards == MarkRedeemed(old(cards), id)
      ensures !opensRewardSite ==> cards == old(cards)
    {
      opensRewardSite := reply == Replied(true);
      if opensRewardSite {
        cards := MarkRedeemed(cards, id);
      }
    }

    /** The scratch surface's `onComplete`: the card is marked locally whatever the backend answers. */
    method CompleteScratch(id: string)
      modifies this`cards
      ensures cards == MarkScratched(old(cards), id)
    {
      cards := MarkScratched(cards, id);
    }

    /**
     * `handleCopyCode`: a successful copy marks the code, so exactly the cards
     * with that coupon code show the check mark; a failed one changes nothing.
     */
    method CopyCode(code: string, copied: bool)
      modifies this`copiedCode
      ensures copied ==> copiedCode == Some(code)
      ensures copied ==> forall c: Card :: ShowsCopied(c) <==> c.couponCode == code
      ensures !copied ==> copiedCode == old(copiedCode)
    {
      if copied {
        copiedCode := Some(code);
      }
    }

    /** The three-second timer after a copy clears the marker: no card shows the check mark. */
    method ClearCopied()
      modifies this`copiedCode
      ensures copiedCode == None
      ensures forall c: Card :: !ShowsCopied(c)
    {
      copiedCode := None;
    }

    /** The copy button of a card shows the check mark when its code is the copied one. */
    function ShowsCopied(c: Card): (b: bool)
      reads this
      ensures b <==> copiedCode == Some(c.couponCode)
    {
      copiedCode == Some(c.couponCode)
    }
  }
}
