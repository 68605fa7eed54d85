/** The payment provider's webhook of src/app/api/webhooks/stripe/route.ts: signature checks, dispatch
    on the event type, and the order confirmation `handleSuccessfulPayment` sends for a completed
    checkout. Signature verification, the clock and the mailer's failure are parameters. */
module Webhook {
  import opened Common

  /** The fields of a checkout session that order handling reads; `customerEmail` and `customerName`
      are `customer_details?.email` and `?.name`, `firstLineDescription` is
      `session.line_items?.data[0]?.description`. */
  datatype CheckoutSession = CheckoutSession(
    id: string,
    metadata: Option<map<string, string>>,
    clientReferenceId: Option<string>,
    customerEmail: Option<string>,
    customerName: Option<string>,
    amountTotal: Option<int>,
    currency: Option<string>,
    firstLineDescription: Option<string>)

  /** A verified event: its type and the checkout session it carries (only read for a completed checkout). */
  datatype Event = Event(kind: string, session: CheckoutSession)

  /** The data `sendOrderConfirmation` is called with. */
  datatype OrderConfirmation = OrderConfirmation(
    customerEmail: string, customerName: Option<string>, orderId: string, orderDate: string,
    totalAmount: int, currency: string, courseTitle: string, courseId: string)

  datatype ResponseBody = Received | ErrorMessage(message: string)

  /** The HTTP answer and the confirmation that was handed to the mailer, if any. */
  datatype Outcome = Outcome(status: int, body: ResponseBody, attempted: Option<OrderConfirmation>)

  const CheckoutCompleted: string := "checkout.session.completed"
  const DefaultCurrency: string := "rub"
  const BundleFallback: string := "Набор курсов"
  const UnknownCourse: string := "Unknown course"
  const UnknownCourseId: string := "unknown"

  /** `session.metadata?.[key]` */
  function MetadataValue(s: CheckoutSession, key: string): Option<string> {
    if s.metadata.Some? && key in s.metadata.value then Some(s.metadata.value[key]) else None
  }

  /** `session.amount_total || 0` */
  function AmountOrZero(amount: Option<int>): (r: int)
    ensures amount.Some? ==> r == amount.value
    ensures amount.None? ==> r == 0
  {
    if TruthyNumber(amount) then amount.value else 0
  }

  /** `customerName || undefined` */
  function NameOrAbsent(name: Option<string>): (r: Option<string>)
    ensures r.Some? <==> TruthyString(name)
    ensures r.Some? ==> r == name
  {
    if TruthyString(name) then name else None
  }

  /** The metadata names several courses iff its course id contains a comma. */
  predicate IsBundle(s: CheckoutSession) {
    var courseId := MetadataValue(s, "courseId");
    courseId.Some? && ',' in courseId.value
  }

  /** `handleSuccessfulPayment`: a bundle is always confirmed (to `''` when the email is missing), a
      single course only when the customer's email is known. */
  function Confirmation(s: CheckoutSession, today: string): (c: Option<OrderConfirmation>)
    ensures c.Some? <==> IsBundle(s) || TruthyString(s.customerEmail)
    ensures c.Some? ==> c.value.orderId == s.id && c.value.orderDate == today &&
                        c.value.totalAmount == AmountOrZero(s.amountTotal) &&
                        c.value.currency == OrString(s.currency, DefaultCurrency) &&
                        c.value.customerName == NameOrAbsent(s.customerName)
    ensures c.Some? ==> c.value.customerEmail == OrString(s.customerEmail, "")
    ensures IsBundle(s) ==> c.Some? && c.value.courseTitle == OrString(MetadataValue(s, "courseBundle"), BundleFallback) &&
                            c.value.courseId == MetadataValue(s, "courseId").value
    ensures !IsBundle(s) && c.Some? ==>
              c.value.courseTitle == OrString(s.firstLineDescription,
                                              OrString(MetadataValue(s, "courseName"), UnknownCourse)) &&
              c.value.courseId == OrString(MetadataValue(s, "courseId"), UnknownCourseId)
  {
    var courseId := MetadataValue(s, "courseId");
    if courseId.Some? && ',' in courseId.value then
      Some(OrderConfirmation(
        OrString(s.customerEmail, ""), NameOrAbsent(s.customerName), s.id, today,
        AmountOrZero(s.amountTotal), OrString(s.currency, DefaultCurrency),
        OrString(MetadataValue(s, "courseBundle"), BundleFallback), courseId.value))
    else
      var courseName := OrString(s.firstLineDescription, OrString(MetadataValue(s, "courseName"), UnknownCourse));
      if s.customerEmail.Some? && s.customerEmail.value != "" then
        Some(OrderConfirmation(
          s.customerEmail.value, NameOrAbsent(s.customerName), s.id, today,
          AmountOrZero(s.amountTotal), OrString(s.currency, DefaultCurrency),
          courseName, OrString(courseId, UnknownCourseId)))
      else None
  }

  /** `POST`: a missing signature or secret, or a failed verification, is a 400 before any event
      handling; only a completed checkout reaches order handling, whose failure is a 500; every other
      event type is acknowledged. `construct` is the provider library's verification (`None` when it
      throws), `sendFails` says whether the mailer throws on a confirmation, `today` is the date. */
  function HandleWebhook(payload: string, signature: Option<string>, secret: Option<string>,
                         construct: (string, string, string) -> Option<Event>,
                         sendFails: OrderConfirmation -> bool, today: string): (r: Outcome)
    ensures (!TruthyString(signature) || !TruthyString(secret)) ==>
              r == Outcome(400, ErrorMessage("Missing signature or webhook secret"), None)
    ensures TruthyString(signature) && TruthyString(secret) && construct(payload, signature.value, secret.value).None? ==>
              r == Outcome(400, ErrorMessage("Webhook signature verification failed"), None)
    ensures r.attempted.Some? ==>
              TruthyString(signature) && TruthyString(secret) &&
              var event := construct(payload, signature.value, secret.value);
              event.Some? && event.value.kind == CheckoutCompleted &&
              r.attempted == Confirmation(event.value.session, today)
    ensures TruthyString(signature) && TruthyString(secret) && construct(payload, signature.value, secret.value).Some? ==>
              var event := construct(payload, signature.value, secret.value).value;
              (r.status == 200 || r.status == 500) &&
              (event.kind == CheckoutCompleted ==> r.attempted == Confirmation(event.session, today)) &&
              (event.kind != CheckoutCompleted ==> r == Outcome(200, Received, None))
    ensures r.status == 500 <==> r.attempted.Some? && sendFails(r.attempted.value)
    ensures r.status == 500 ==> r.body == ErrorMessage("Error processing webhook")
    ensures r.status == 200 <==> r.body == Received
  {
    var signatureValue := OrString(signature, "");
    if signatureValue == "" || !TruthyString(secret) then
      Outcome(400, ErrorMessage("Missing signature or webhook secret"), None)
    else
      var event := construct(payload, signatureValue, secret.value);
      if event.None? then
        Outcome(400, ErrorMessage("Webhook signature verification failed"), None)
      else if event.value.kind == CheckoutCompleted then
        var confirmation := Confirmation(event.value.session, today);
        if confirmation.Some? && sendFails(confirmation.value) then
          Outcome(500, ErrorMessage("Error processing webhook"), confirmation)
        else
          Outcome(200, Received, confirmation)
      else
        Outcome(200, Received, None)
  }

  /** Without a signature or a secret the answer does not depend on verification at all: it is
      rejected before the verifier is consulted. */
  lemma NoVerificationWithoutSignature(payload: string, signature: Option<string>, secret: Option<string>,
                                       c1: (string, string, string) -> Option<Event>,
                                       c2: (string, string, string) -> Option<Event>,
                                       sendFails: OrderConfirmation -> bool, today: string)
    requires !TruthyString(signature) || !TruthyString(secret)
    ensures HandleWebhook(payload, signature, secret, c1, sendFails, today) ==
            HandleWebhook(payload, signature, secret, c2, sendFails, today)
  {
  }

  /** Payment-intent events and unknown types are acknowledged with nothing sent. */
  lemma OtherEventsAcknowledged(payload: string, signature: Option<string>, secret: Option<string>,
                                construct: (string, string, string) -> Option<Event>,
                                sendFails: OrderConfirmation -> bool, today: string)
    requires TruthyString(signature) && TruthyString(secret)
    requires var e := construct(payload, signature.value, secret.value); e.Some? && e.value.kind != CheckoutCompleted
    ensures HandleWebhook(payload, signature, secret, construct, sendFails, today) == Outcome(200, Received, None)
  {
  }
}
