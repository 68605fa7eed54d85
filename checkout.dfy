/** The checkout route of src/app/api/create-checkout-session/route.ts: from the posted body to the
    parameters of a hosted-checkout session, on the multi-item (cart) path or the single-course path.
    The payment provider's session creation is a function parameter. */
module Checkout {
  import opened Common
  import opened Cart

  /** The posted JSON body; a field the client left out is `None`. */
  datatype CheckoutBody = CheckoutBody(
    courseId: Option<string>,
    courseName: Option<string>,
    price: Option<int>,
    quantity: Option<int>,
    userId: Option<string>,
    userEmail: Option<string>,
    items: Option<seq<CartItem>>,
    totalQuantity: Option<int>)

  /** One provider line: `price_data { currency, product_data { name, metadata { courseId } }, unit_amount }`
      and `quantity`. */
  datatype LineItem = LineItem(currency: string, name: string, courseId: string, unitAmount: int, quantity: int)

  /** The session parameters handed to the provider. */
  datatype SessionParams = SessionParams(
    paymentMethodTypes: seq<string>,
    mode: string,
    successUrl: string,
    cancelUrl: string,
    metadata: map<string, string>,
    clientReferenceId: string,
    lineItems: seq<LineItem>,
    customerEmail: Option<string>)

  /** What the provider's session creation returns; `None` stands for a thrown error. */
  datatype ProviderSession = ProviderSession(id: string, url: Option<string>)

  /** The JSON response: `{ sessionId, url }` or `{ error }` with its status. */
  datatype Response = Created(sessionId: string, url: Option<string>) | Failed(status: int, error: string)

  const Currency: string := "rub"
  const MissingParametersError: string := "Missing required parameters"
  const SessionError: string := "Error creating checkout session"

  /** `items = []` */
  function CartOf(body: CheckoutBody): seq<CartItem> {
    body.items.GetOr([])
  }

  /** `totalQuantity = 0` */
  function TotalQuantityOf(body: CheckoutBody): int {
    body.totalQuantity.GetOr(0)
  }

  /** The rejection test: no cart items and an incomplete single-course descriptor (a price of 0 is
      missing too). */
  predicate MissingParameters(body: CheckoutBody) {
    (!TruthyString(body.courseId) || !TruthyString(body.courseName) || !TruthyNumber(body.price)) &&
    |CartOf(body)| == 0
  }

  /** The amount in minor units of one cart line: a discounted price of 0 counts as absent. */
  function UnitAmount(item: CartItem): (amount: int)
    ensures TruthyNumber(item.discountedPrice) ==> amount == 100 * item.discountedPrice.value
    ensures !TruthyNumber(item.discountedPrice) ==> amount == 100 * item.price
  {
    if item.discountedPrice.Some? && item.discountedPrice.value != 0
    then RoundHundredth(item.discountedPrice.value * 100 * 100)
    else RoundHundredth(item.price * 100 * 100)
  }

  /** The provider line of one cart line. */
  function CartLine(item: CartItem): LineItem {
    LineItem(Currency, item.title, item.courseId, UnitAmount(item), item.quantity)
  }

  /** `items.map(...)`: one provider line per cart line, in cart order. */
  function CartLineItems(items: seq<CartItem>): (lines: seq<LineItem>)
    ensures |lines| == |items|
    ensures forall i :: 0 <= i < |items| ==> lines[i] == CartLine(items[i])
  {
    if items == [] then [] else [CartLine(items[0])] + CartLineItems(items[1..])
  }

  /** `items.map(item => item.courseId)` */
  function CourseIds(items: seq<CartItem>): (ids: seq<string>)
    ensures |ids| == |items|
    ensures forall i :: 0 <= i < |items| ==> ids[i] == items[i].courseId
  {
    if items == [] then [] else [items[0].courseId] + CourseIds(items[1..])
  }

  /** The bundle label: it counts the lines, not the courses' total quantity. */
  function BundleLabel(lines: nat): string {
    "Пакет из " + DecimalString(lines) + " курсов"
  }

  /** The discount label `${percentage}%`. */
  function PercentLabel(percentage: nat): string {
    DecimalString(percentage) + "%"
  }

  /** What the multi-item path promises about the parameters it builds. */
  predicate MultiItemParams(body: CheckoutBody, p: SessionParams)
    requires |CartOf(body)| > 0
  {
    var items := CartOf(body);
    var tier := if TotalQuantityOf(body) != 0 then ApplicableTier(TotalQuantityOf(body)) else None;
    && |p.lineItems| == |items|
    && (forall i :: 0 <= i < |items| ==>
          && p.lineItems[i].name == items[i].title
          && p.lineItems[i].courseId == items[i].courseId
          && p.lineItems[i].currency == Currency
          && p.lineItems[i].unitAmount == UnitAmount(items[i])
          && p.lineItems[i].quantity == items[i].quantity)
    && "courseId" in p.metadata && p.metadata["courseId"] == JoinComma(CourseIds(items))
    && "courseBundle" in p.metadata && p.metadata["courseBundle"] == BundleLabel(|items|)
    && ("discount" in p.metadata <==> tier.Some?)
    && ("discount_description" in p.metadata <==> tier.Some?)
    && (tier.Some? ==> p.metadata["discount"] == PercentLabel(tier.value.percentage)
                       && p.metadata["discount_description"] == tier.value.description)
    && p.metadata.Keys <= {"courseId", "courseBundle", "discount", "discount_description"}
  }

  /** What the single-course path promises: one line at the literal price, the course id in metadata,
      no discount. */
  predicate SingleItemParams(body: CheckoutBody, p: SessionParams)
    requires TruthyString(body.courseId) && TruthyString(body.courseName) && TruthyNumber(body.price)
  {
    && |p.lineItems| == 1
    && p.lineItems[0] == LineItem(Currency, body.courseName.value, body.courseId.value,
                                  100 * body.price.value, body.quantity.GetOr(1))
    && p.metadata == map["courseId" := body.courseId.value]
  }

  /** Everything the route promises about the parameters it builds from `body`: the path the cart
      decides, the reference id, the email, the fixed payment settings and the two return urls. */
  predicate BuiltFrom(body: CheckoutBody, baseUrl: string, p: SessionParams) {
    && (|CartOf(body)| > 0 ==> MultiItemParams(body, p))
    && (|CartOf(body)| == 0 ==>
          TruthyString(body.courseId) && TruthyString(body.courseName) && TruthyNumber(body.price) &&
          SingleItemParams(body, p))
    && p.clientReferenceId == body.userId.GetOr("guest")
    && (p.customerEmail.Some? <==> TruthyString(body.userEmail))
    && (p.customerEmail.Some? ==> p.customerEmail == body.userEmail)
    && p.paymentMethodTypes == ["card"] && p.mode == "payment"
    && p.successUrl == baseUrl + "/payment/success?session_id={CHECKOUT_SESSION_ID}"
    && p.cancelUrl == baseUrl + "/payment/cancel"
  }

  /** The promise leaves nothing open: one body and base url admit exactly one parameter record. */
  lemma BuiltFromUnique(body: CheckoutBody, baseUrl: string, p: SessionParams, q: SessionParams)
    requires BuiltFrom(body, baseUrl, p) && BuiltFrom(body, baseUrl, q)
    ensures p == q
  {
    if |CartOf(body)| > 0 {
      assert p.lineItems == q.lineItems by {
        forall i | 0 <= i < |p.lineItems| ensures p.lineItems[i] == q.lineItems[i] {
        }
      }
      assert p.metadata.Keys == q.metadata.Keys;
      assert p.metadata == q.metadata by {
        forall k | k in p.metadata ensures p.metadata[k] == q.metadata[k] {
        }
      }
    }
  }

  /** The body of `POST` up to the provider call: validation, then the parameters built field by field.
      `None` is the 400 rejection. */
  method BuildSessionParams(body: CheckoutBody, baseUrl: string) returns (r: Option<SessionParams>)
    ensures r.None? <==> MissingParameters(body)
    ensures r.Some? ==> BuiltFrom(body, baseUrl, r.value)
  {
    var items := CartOf(body);
    if MissingParameters(body) {
      return None;
    }
    var params := SessionParams(
      ["card"], "payment",
      baseUrl + "/payment/success?session_id={CHECKOUT_SESSION_ID}",
      baseUrl + "/payment/cancel",
      map["courseId" := ""],
      body.userId.GetOr("guest"),
      [],
      None);
    if |items| > 0 {
      var totalQuantity := TotalQuantityOf(body);
      var discountPercentage := 0;
      if totalQuantity != 0 {
        var applicableDiscount := ApplicableTier(totalQuantity);
        if applicableDiscount.Some? {
          discountPercentage := applicableDiscount.value.percentage;
          params := params.(metadata := params.metadata["discount" := PercentLabel(discountPercentage)]
                                         ["discount_description" := applicableDiscount.value.description]);
        }
      }
      ghost var tier := if totalQuantity != 0 then ApplicableTier(totalQuantity) else None;
      assert "discount" in params.metadata <==> tier.Some?;
      assert "discount_description" in params.metadata <==> tier.Some?;
      assert params.metadata.Keys <= {"courseId", "discount", "discount_description"};
      params := params.(lineItems := CartLineItems(items));
      var courseIds := JoinComma(CourseIds(items));
      params := params.(metadata := params.metadata["courseId" := courseIds]["courseBundle" := BundleLabel(|items|)]);
      assert MultiItemParams(body, params);
    } else {
      var amount := RoundHundredth(body.price.value * 100 * 100);
      params := params.(lineItems := [LineItem(Currency, body.courseName.value, body.courseId.value,
                                               amount, body.quantity.GetOr(1))]);
      params := params.(metadata := params.metadata["courseId" := body.courseId.value]);
      assert SingleItemParams(body, params);
    }
    ghost var built := params;
    if TruthyString(body.userEmail) {
      params := params.(customerEmail := body.userEmail);
    }
    assert params == built.(customerEmail := params.customerEmail);
    return Some(params);
  }

  /** `POST`: an unreadable body or a provider failure is a 500, missing parameters a 400; otherwise the
      provider's session id and url are returned. `sent` is what reached the provider. */
  method Post(body: Option<CheckoutBody>, baseUrl: string, create: SessionParams -> Option<ProviderSession>)
    returns (resp: Response, sent: Option<SessionParams>)
    ensures sent.Some? <==> body.Some? && !MissingParameters(body.value)
    ensures sent.Some? ==> BuiltFrom(body.value, baseUrl, sent.value)
    ensures body.None? ==> resp == Failed(500, SessionError)
    ensures body.Some? && MissingParameters(body.value) ==> resp == Failed(400, MissingParametersError)
    ensures sent.Some? && create(sent.value).None? ==> resp == Failed(500, SessionError)
    ensures sent.Some? && create(sent.value).Some? ==>
              resp == Created(create(sent.value).value.id, create(sent.value).value.url)
  {
    sent := None;
    if body.None? {
      return Failed(500, SessionError), sent;
    }
    var params := BuildSessionParams(body.value, baseUrl);
    if params.None? {
      return Failed(400, MissingParametersError), sent;
    }
    sent := params;
    var session := create(params.value);
    if session.None? {
      return Failed(500, SessionError), sent;
    }
    return Created(session.value.id, session.value.url), sent;
  }

  /** A non-empty cart wins over any single-course fields posted beside it. */
  lemma CartTakesPrecedence(body: CheckoutBody)
    requires |CartOf(body)| > 0
    ensures !MissingParameters(body)
  {
  }

  /** A single-course checkout for price 3000 and quantity 1 is one line of 300000 minor units with
      no discount keys. */
  lemma SingleCourseExample(body: CheckoutBody, p: SessionParams)
    requires body.items.None? && body.price == Some(3000) && body.quantity == Some(1)
    requires TruthyString(body.courseId) && TruthyString(body.courseName)
    requires SingleItemParams(body, p)
    ensures |p.lineItems| == 1 && p.lineItems[0].unitAmount == 300000 && p.lineItems[0].quantity == 1
    ensures "discount" !in p.metadata && "discount_description" !in p.metadata
  {
  }
}
