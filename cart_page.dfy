/** The cart page of src/app/cart/page.tsx: the quantity buttons' guard, the checkout handler and the
    request it posts, the displayed line totals and the discount-tier list. The network request is a
    function parameter. */
module CartPage {
  import opened Common
  import opened Cart
  import opened Checkout
  import Users

  const EmptyCartError: string := "Ваша корзина пуста"
  const CheckoutFailedError: string := "An error occurred during checkout. Please try again."

  /** The cart after `handleQuantityChange(item, newQuantity)`: a quantity below 1 is ignored, so the
      buttons never remove a line. */
  function QuantityChanged(items: seq<CartItem>, courseId: string, newQuantity: int): (r: seq<CartItem>)
    ensures newQuantity < 1 ==> r == items
    ensures |r| == |items|
    ensures forall i :: 0 <= i < |items| ==>
              r[i].courseId == items[i].courseId &&
              r[i].quantity == (if items[i].courseId == courseId && newQuantity >= 1 then newQuantity
                                else items[i].quantity)
  {
    if newQuantity >= 1 then UpdatedItems(items, courseId, newQuantity) else items
  }

  /** `handleQuantityChange` */
  method HandleQuantityChange(cart: CartStore, item: CartItem, newQuantity: int)
    requires cart.Valid()
    modifies cart
    ensures cart.Valid()
    ensures cart.items == QuantityChanged(old(cart.items), item.courseId, newQuantity)
  {
    if newQuantity >= 1 {
      cart.UpdateQuantity(item.courseId, newQuantity);
    }
  }

  /** The body `handleCheckout` posts: the whole cart, its total quantity, the user's id or `'guest'`
      and the user's email (left out of the JSON when there is no user). */
  function CheckoutPayload(items: seq<CartItem>, totalItems: int, user: Option<Users.User>): (body: CheckoutBody)
    ensures body.items == Some(items) && body.totalQuantity == Some(totalItems)
    ensures body.courseId.None? && body.courseName.None? && body.price.None? && body.quantity.None?
    ensures user.Some? && user.value.id != "" ==> body.userId == Some(user.value.id)
    ensures user.None? || user.value.id == "" ==> body.userId == Some("guest")
    ensures user.Some? ==> body.userEmail == Some(user.value.email)
    ensures user.None? ==> body.userEmail.None?
  {
    var userId := if user.Some? then OrString(Some(user.value.id), "guest") else "guest";
    var userEmail := if user.Some? then Some(user.value.email) else None;
    CheckoutBody(None, None, None, None, Some(userId), userEmail, Some(items), Some(totalItems))
  }

  /** The page's checkout state. */
  class CheckoutView {
    var isLoading: bool
    var error: string
    /** Where the browser was sent, once a checkout url came back. */
    var redirect: Option<string>

    constructor ()
      ensures !isLoading && error == "" && redirect.None?
    {
      isLoading := false;
      error := "";
      redirect := None;
    }

    /** `handleCheckout`: an empty cart is an error and nothing is posted; otherwise the payload is
        posted and a response without a url is an error; `isLoading` is clear on every path.
        `respond` is the request and the read of `url` from the JSON answer (`None` when either throws). */
    method HandleCheckout(cart: CartStore, user: Option<Users.User>, respond: CheckoutBody -> Option<Option<string>>)
      returns (sent: Option<CheckoutBody>)
      requires cart.Valid()
      modifies this
      ensures !isLoading
      ensures cart.items == [] ==> sent.None? && error == EmptyCartError && redirect == old(redirect)
      ensures cart.items != [] ==> sent == Some(CheckoutPayload(cart.items, cart.GetTotalItems(), user))
      ensures sent.Some? && respond(sent.value).Some? && TruthyString(respond(sent.value).value) ==>
                redirect == respond(sent.value).value && error == ""
      ensures sent.Some? && !(respond(sent.value).Some? && TruthyString(respond(sent.value).value)) ==>
                error == CheckoutFailedError && redirect == old(redirect)
    {
      isLoading := true;
      error := "";
      if |cart.items| == 0 {
        error := EmptyCartError;
        isLoading := false;
        return None;
      }
      var body := CheckoutPayload(cart.items, cart.GetTotalItems(), user);
      sent := Some(body);
      var url := respond(body);
      if url.Some? && TruthyString(url.value) {
        redirect := url.value;
      } else {
        error := CheckoutFailedError;
      }
      isLoading := false;
    }
  }

  /** The line total shown under each cart line: the discounted unit price when it is set (and not 0),
      the list price otherwise, times the quantity. */
  function LineTotal(item: CartItem): (t: int)
    ensures TruthyNumber(item.discountedPrice) ==> t == item.discountedPrice.value * item.quantity
    ensures !TruthyNumber(item.discountedPrice) ==> t == item.price * item.quantity
  {
    if item.discountedPrice.Some? && item.discountedPrice.value != 0 then item.discountedPrice.value * item.quantity
    else item.price * item.quantity
  }

  /** What checkout charges for a line is exactly the line total the page shows, in minor units. */
  lemma ChargedLineIsShownLine(item: CartItem)
    ensures UnitAmount(item) * item.quantity == 100 * LineTotal(item)
  {
  }

  function SumLineTotals(items: seq<CartItem>): int {
    if items == [] then 0 else LineTotal(items[0]) + SumLineTotals(items[1..])
  }

  /** With no discounted price on any line the shown line totals add up to the subtotal. */
  lemma {:induction false} UndiscountedLinesSumToSubtotal(items: seq<CartItem>)
    requires forall i :: 0 <= i < |items| ==> items[i].discountedPrice.None?
    ensures SumLineTotals(items) == TotalPrice(items)
  {
    if items != [] {
      UndiscountedLinesSumToSubtotal(items[1..]);
    }
  }

  /** Below the first tier, the shown line totals and the shown final price agree. */
  lemma NoTierLinesSumToFinal(cart: CartStore)
    requires cart.Valid()
    requires cart.GetApplicableDiscount().None?
    ensures SumLineTotals(cart.items) == cart.GetFinalPrice()
  {
    UndiscountedLinesSumToSubtotal(cart.items);
  }

  /** `isActive` of a tier in the tier list: several tiers can be marked at once. */
  function TierActive(totalItems: int, tier: DiscountTier): (b: bool)
    ensures b <==> tier.threshold <= totalItems
  {
    totalItems >= tier.threshold
  }

  /** The discount row is shown iff some tier is marked active, and the applied tier is always marked,
      together with every tier of a lower threshold. */
  lemma ActiveTiersAgreeWithDiscount(totalItems: int)
    ensures ApplicableTier(totalItems).Some? <==>
              exists i :: 0 <= i < |DiscountTiers| && TierActive(totalItems, DiscountTiers[i])
    ensures ApplicableTier(totalItems).Some? ==>
              forall i :: 0 <= i < |DiscountTiers| &&
                          DiscountTiers[i].threshold <= ApplicableTier(totalItems).value.threshold ==>
                TierActive(totalItems, DiscountTiers[i])
    ensures totalItems >= 5 ==> forall i :: 0 <= i < |DiscountTiers| ==> TierActive(totalItems, DiscountTiers[i])
  {
    if ApplicableTier(totalItems).None? {
      assert !TierActive(totalItems, DiscountTiers[0]);
      assert !TierActive(totalItems, DiscountTiers[1]);
      assert !TierActive(totalItems, DiscountTiers[2]);
    } else {
      assert TierActive(totalItems, DiscountTiers[0]);
    }
  }
}
