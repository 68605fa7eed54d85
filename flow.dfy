/** Properties of the whole purchase path: the cart page's request as the checkout route reads it, and
    the checkout's session metadata as the webhook later reads it. */
module OrderFlow {
  import opened Common
  import opened Cart
  import opened Checkout
  import opened Webhook
  import opened CartPage
  import Users
  import Catalog

  /** The session the route builds from the cart page's request is referenced to the signed-in user's
      id, or to `guest` without a user or id, and carries the user's email exactly when it is
      non-empty. */
  lemma PayloadReferenceAndEmail(items: seq<CartItem>, totalItems: int, user: Option<Users.User>,
                                 baseUrl: string, p: SessionParams)
    requires BuiltFrom(CheckoutPayload(items, totalItems, user), baseUrl, p)
    ensures p.clientReferenceId == if user.Some? && user.value.id != "" then user.value.id else "guest"
    ensures p.customerEmail == if user.Some? && user.value.email != "" then Some(user.value.email) else None
  {
  }

  /** What the provider charges for a list of lines, in minor units. */
  function Charged(lines: seq<LineItem>): int {
    if lines == [] then 0 else lines[0].unitAmount * lines[0].quantity + Charged(lines[1..])
  }

  lemma {:induction false} ChargedIsShownLineTotals(items: seq<CartItem>)
    ensures Charged(CartLineItems(items)) == 100 * SumLineTotals(items)
  {
    if items != [] {
      ChargedIsShownLineTotals(items[1..]);
      ChargedLineIsShownLine(items[0]);
      assert CartLineItems(items)[1..] == CartLineItems(items[1..]);
    }
  }

  /** A non-empty, well-formed cart posted by the cart page always takes the route's multi-item path,
      the route picks the same tier the cart shows, and what it charges is the sum of the line totals
      the cart shows. */
  lemma CartRequestTakesMultiItemPath(items: seq<CartItem>, user: Option<Users.User>, p: SessionParams)
    requires WellFormedCart(items) && items != []
    requires MultiItemParams(CheckoutPayload(items, TotalQuantity(items), user), p)
    ensures !MissingParameters(CheckoutPayload(items, TotalQuantity(items), user))
    ensures "discount" in p.metadata <==> ApplicableTier(TotalQuantity(items)).Some?
    ensures ApplicableTier(TotalQuantity(items)).Some? ==>
              p.metadata["discount"] == PercentLabel(ApplicableTier(TotalQuantity(items)).value.percentage)
    ensures Charged(p.lineItems) == 100 * SumLineTotals(items)
  {
    TotalQuantityAtLeastLines(items);
    assert p.lineItems == CartLineItems(items);
    ChargedIsShownLineTotals(items);
  }

  /** The session the provider reports back for parameters `p` carries `p`'s metadata. */
  predicate ReportsMetadataOf(s: CheckoutSession, p: SessionParams) {
    s.metadata == Some(p.metadata)
  }

  /** A cart checkout of course ids without commas reaches the webhook's bundle branch iff the cart had
      at least two lines; the bundle's confirmation names the bundle label and the ids split back into
      the cart's ids. A single line takes the single-course branch, where the checkout never set a
      course name, so the title falls back from the line description straight to "Unknown course". */
  lemma CartCheckoutWebhookBranch(body: CheckoutBody, p: SessionParams, s: CheckoutSession, today: string)
    requires |CartOf(body)| > 0
    requires MultiItemParams(body, p)
    requires forall i :: 0 <= i < |CartOf(body)| ==> NoComma(CartOf(body)[i].courseId)
    requires ReportsMetadataOf(s, p)
    ensures IsBundle(s) <==> |CartOf(body)| >= 2
    ensures |CartOf(body)| >= 2 ==>
              var c := Confirmation(s, today);
              c.Some? && c.value.courseTitle == BundleLabel(|CartOf(body)|) &&
              SplitComma(c.value.courseId) == CourseIds(CartOf(body))
    ensures |CartOf(body)| == 1 ==>
              var c := Confirmation(s, today);
              (c.Some? <==> TruthyString(s.customerEmail)) &&
              (c.Some? ==> c.value.courseTitle == OrString(s.firstLineDescription, UnknownCourse) &&
                           c.value.courseId == OrString(Some(CartOf(body)[0].courseId), UnknownCourseId))
  {
    var items := CartOf(body);
    var ids := CourseIds(items);
    JoinHasCommaIffSeveral(ids);
    SplitJoinRoundTrip(ids);
    assert MetadataValue(s, "courseId") == Some(JoinComma(ids));
    assert MetadataValue(s, "courseName") == None;
    assert MetadataValue(s, "courseBundle") == Some(BundleLabel(|items|));
    if |items| == 1 {
      assert JoinComma(ids) == items[0].courseId;
    }
  }

  /** The single-course path makes the webhook's single-course branch for any comma-free course id, and
      there too the title cannot come from the metadata. */
  lemma SingleCheckoutWebhookBranch(body: CheckoutBody, p: SessionParams, s: CheckoutSession, today: string)
    requires TruthyString(body.courseId) && TruthyString(body.courseName) && TruthyNumber(body.price)
    requires SingleItemParams(body, p)
    requires NoComma(body.courseId.value)
    requires ReportsMetadataOf(s, p)
    ensures !IsBundle(s)
    ensures Confirmation(s, today).Some? ==>
              Confirmation(s, today).value.courseTitle == OrString(s.firstLineDescription, UnknownCourse) &&
              Confirmation(s, today).value.courseId == body.courseId.value
  {
    assert MetadataValue(s, "courseId") == Some(body.courseId.value);
    assert MetadataValue(s, "courseName") == None;
  }

  /** Every catalogue id is comma-free, so the branch lemmas above apply to every cart the catalogue
      can fill. */
  lemma CatalogIdsHaveNoComma()
    ensures forall i :: 0 <= i < |Catalog.CoursesData| ==> NoComma(Catalog.CoursesData[i].id)
  {
    forall i | 0 <= i < |Catalog.CoursesData| ensures NoComma(Catalog.CoursesData[i].id) {
      var id := Catalog.CoursesData[i].id;
      assert forall j :: 0 <= j < |id| ==> 'a' <= id[j] <= 'z' || id[j] == '-' || '0' <= id[j] <= '9';
    }
  }

  /** Two 10-rouble courses: the 5% tier rounds each unit price back to 10, so the page shows line
      totals of 20 and a final price of 19, and the provider is charged the line totals, not the final
      price. */
  lemma ChargeCanExceedShownFinalPrice(cart: CartStore)
    requires cart.items == [CartItem("a", "A", 10, "", 1, Some(10)), CartItem("b", "B", 10, "", 1, Some(10))]
    ensures cart.Valid()
    ensures SumLineTotals(cart.items) == 20 && cart.GetFinalPrice() == 19
    ensures Charged(CartLineItems(cart.items)) == 2000 != 100 * cart.GetFinalPrice()
  {
    var items := cart.items;
    var tail := items[1..];
    assert tail == [items[1]] && tail[1..] == [];
    assert LineTotal(items[0]) == 10 && LineTotal(items[1]) == 10;
    assert TotalQuantity(tail) == 1 by {
      assert TotalQuantity(tail) == tail[0].quantity + TotalQuantity(tail[1..]);
    }
    assert TotalPrice(tail) == 10 by {
      assert TotalPrice(tail) == tail[0].price * tail[0].quantity + TotalPrice(tail[1..]);
    }
    assert SumLineTotals(tail) == 10 by {
      assert SumLineTotals(tail) == LineTotal(tail[0]) + SumLineTotals(tail[1..]);
    }
    assert TotalQuantity(items) == 2 && TotalPrice(items) == 20;
    assert ApplicableTier(2) == Some(DiscountTiers[0]);
    ChargedIsShownLineTotals(items);
  }
}
