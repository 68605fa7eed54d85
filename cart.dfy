/** The cart store of src/context/CartContext.tsx: a list of line items keyed by course id, the
    quantity-based discount tiers, the recomputation of every line's discounted price after each
    change, and the read-only totals. */
module Cart {
  import opened Common

  /** One cart line. `discountedPrice` is derived: every change recomputes it from the current tier. */
  datatype CartItem = CartItem(courseId: string, title: string, price: int, image: string,
                               quantity: int, discountedPrice: Option<int>)

  /** What a page hands to `addItem`: the line's identity and display data, without a quantity. */
  datatype Product = Product(courseId: string, title: string, price: int, image: string)

  datatype DiscountTier = DiscountTier(threshold: int, percentage: nat, description: string)

  /** `DISCOUNT_TIERS`: the quantity thresholds and their percentages. */
  const DiscountTiers: seq<DiscountTier> := [
    DiscountTier(2, 5, "5% скидка при покупке 2 курсов"),
    DiscountTier(3, 10, "10% скидка при покупке 3 курсов"),
    DiscountTier(5, 15, "15% скидка при покупке 5 курсов")
  ]

  /** The tier that `tiers.filter(t => total >= t.threshold).sort((a, b) => b.threshold - a.threshold)[0]`
      yields: the sort is stable, so it is the earliest qualifying tier of largest threshold. */
  function BestTier(tiers: seq<DiscountTier>, total: int): (r: Option<DiscountTier>)
    ensures r.None? <==> forall i :: 0 <= i < |tiers| ==> total < tiers[i].threshold
    ensures r.Some? ==> exists k :: 0 <= k < |tiers| && tiers[k] == r.value
    ensures r.Some? ==> r.value.threshold <= total
    ensures r.Some? ==> forall i :: 0 <= i < |tiers| && tiers[i].threshold <= total ==>
                          tiers[i].threshold <= r.value.threshold
  {
    if |tiers| == 0 then None
    else
      var rest := BestTier(tiers[1..], total);
      if tiers[0].threshold <= total && (rest.None? || rest.value.threshold <= tiers[0].threshold)
      then Some(tiers[0])
      else rest
  }

  /** The tier a cart of `total` courses gets: at most one, never several stacked. */
  function ApplicableTier(total: int): (r: Option<DiscountTier>)
    ensures r == if total >= 5 then Some(DiscountTiers[2])
                 else if total >= 3 then Some(DiscountTiers[1])
                 else if total >= 2 then Some(DiscountTiers[0])
                 else None
  {
    BestTier(DiscountTiers, total)
  }

  /** The totals 1, 2, 4, 5 and 10 get no discount, 5%, 10%, 15% and 15%. */
  lemma TierExamples()
    ensures ApplicableTier(1).None?
    ensures ApplicableTier(2).value.percentage == 5
    ensures ApplicableTier(4).value.percentage == 10
    ensures ApplicableTier(5).value.percentage == 15
    ensures ApplicableTier(10).value.percentage == 15
  {
  }

  /** `Math.round(n / 100)` on an integer: the nearest integer, halves rounded up. */
  function RoundHundredth(n: int): (r: int)
    ensures 100 * r - 50 <= n < 100 * r + 50
  {
    (n + 50) / 100
  }

  /** A percentage of at most 100 of a non-negative amount, rounded, lies between 0 and the amount. */
  lemma RoundedShareWithin(amount: int, percentage: int)
    ensures amount >= 0 && 0 <= percentage <= 100 ==> 0 <= RoundHundredth(amount * percentage) <= amount
  {
    if amount >= 0 && 0 <= percentage <= 100 {
      assert 0 <= amount * percentage <= amount * 100;
    }
  }

  /** The unit price a line gets under a tier: `Math.round(price * (1 - percentage / 100))`, or none. */
  function TierPrice(price: int, tier: Option<DiscountTier>): (r: Option<int>)
    ensures r.None? <==> tier.None?
    ensures r.Some? ==> 100 * r.value - 50 <= price * (100 - tier.value.percentage) < 100 * r.value + 50
    ensures r.Some? && price >= 0 && tier.value.percentage <= 100 ==> 0 <= r.value <= price
  {
    if tier.None? then None else Some(RoundHundredth(price * (100 - tier.value.percentage)))
  }

  /** `items.reduce((total, item) => total + item.quantity, 0)` */
  function TotalQuantity(items: seq<CartItem>): int
  {
    if items == [] then 0 else items[0].quantity + TotalQuantity(items[1..])
  }

  /** `items.reduce((total, item) => total + item.price * item.quantity, 0)` */
  function TotalPrice(items: seq<CartItem>): int
  {
    if items == [] then 0 else items[0].price * items[0].quantity + TotalPrice(items[1..])
  }

  /** Two lines that agree on everything except, possibly, the derived discounted price. */
  predicate SameExceptPrice(a: CartItem, b: CartItem) {
    a.courseId == b.courseId && a.title == b.title && a.price == b.price &&
    a.image == b.image && a.quantity == b.quantity
  }

  predicate SameLines(a: seq<CartItem>, b: seq<CartItem>) {
    |a| == |b| && forall i :: 0 <= i < |a| ==> SameExceptPrice(a[i], b[i])
  }

  /** Neither total depends on the discounted prices. */
  lemma {:induction false} SameLinesSameTotals(a: seq<CartItem>, b: seq<CartItem>)
    requires SameLines(a, b)
    ensures TotalQuantity(a) == TotalQuantity(b)
    ensures TotalPrice(a) == TotalPrice(b)
  {
    if a != [] {
      SameLinesSameTotals(a[1..], b[1..]);
    }
  }

  lemma {:induction false} TotalQuantityAppend(a: seq<CartItem>, x: CartItem)
    ensures TotalQuantity(a + [x]) == TotalQuantity(a) + x.quantity
  {
    if a != [] {
      assert (a + [x])[1..] == a[1..] + [x];
      TotalQuantityAppend(a[1..], x);
    }
  }

  /** Every line's discounted price follows the tier chosen from the cart's current total quantity. */
  predicate PricedByTier(items: seq<CartItem>) {
    var tier := ApplicableTier(TotalQuantity(items));
    forall i :: 0 <= i < |items| ==> items[i].discountedPrice == TierPrice(items[i].price, tier)
  }

  /** No line has a negative list price or quantity. */
  predicate NonNegativeLines(items: seq<CartItem>) {
    forall i :: 0 <= i < |items| ==> items[i].price >= 0 && items[i].quantity >= 0
  }

  /** Lines of non-negative price and quantity add up to a non-negative subtotal. */
  lemma {:induction false} TotalPriceNonNegative(items: seq<CartItem>)
    ensures NonNegativeLines(items) ==> TotalPrice(items) >= 0
  {
    if items != [] && NonNegativeLines(items) {
      assert NonNegativeLines(items[1..]) by {
        forall i | 0 <= i < |items[1..]| ensures items[1..][i].price >= 0 && items[1..][i].quantity >= 0 {
          assert items[1..][i] == items[i + 1];
        }
      }
      TotalPriceNonNegative(items[1..]);
    }
  }

  predicate UniqueIds(items: seq<CartItem>) {
    forall i, j :: 0 <= i < j < |items| ==> items[i].courseId != items[j].courseId
  }

  predicate PositiveQuantities(items: seq<CartItem>) {
    forall i :: 0 <= i < |items| ==> items[i].quantity >= 1
  }

  /** The cart invariant: one line per course, every quantity at least 1, every price from the current tier. */
  predicate WellFormedCart(items: seq<CartItem>) {
    UniqueIds(items) && PositiveQuantities(items) && PricedByTier(items)
  }

  /** `recalculatePrices`: every line, not only a changed one, takes the price of the tier chosen from
      the total quantity; with no tier every discounted price is cleared. */
  function RecalculatePrices(items: seq<CartItem>): (r: seq<CartItem>)
    ensures SameLines(r, items)
    ensures TotalQuantity(r) == TotalQuantity(items) && TotalPrice(r) == TotalPrice(items)
    ensures PricedByTier(r)
    ensures ApplicableTier(TotalQuantity(items)).None? ==>
              forall i :: 0 <= i < |r| ==> r[i].discountedPrice.None?
  {
    var tier := ApplicableTier(TotalQuantity(items));
    var r := seq(|items|, i requires 0 <= i < |items| =>
                 items[i].(discountedPrice := TierPrice(items[i].price, tier)));
    SameLinesSameTotals(r, items);
    r
  }

  /** A cart whose prices already follow its tier is left as it is by a recomputation. */
  lemma RecalculateFixesPriced(items: seq<CartItem>)
    requires PricedByTier(items)
    ensures RecalculatePrices(items) == items
  {
    var r := RecalculatePrices(items);
    assert forall i :: 0 <= i < |items| ==> r[i] == items[i];
  }

  /** `items.some(item => item.courseId === courseId)` */
  function InCart(items: seq<CartItem>, courseId: string): (b: bool)
    ensures b <==> exists i :: 0 <= i < |items| && items[i].courseId == courseId
  {
    if items == [] then false
    else items[0].courseId == courseId || InCart(items[1..], courseId)
  }

  /** The `map` of `addItem` on an existing id: that line's quantity goes up by one. */
  function Incremented(items: seq<CartItem>, courseId: string): seq<CartItem>
  {
    seq(|items|, i requires 0 <= i < |items| =>
        if items[i].courseId == courseId then items[i].(quantity := items[i].quantity + 1) else items[i])
  }

  /** A fresh line for a product, with quantity 1. */
  function NewLine(p: Product): CartItem {
    CartItem(p.courseId, p.title, p.price, p.image, 1, None)
  }

  /** `addItem`: an id already in the cart has its quantity raised by one and nothing else changes but
      prices; a new id is appended at the end with quantity 1. */
  function AddedItems(items: seq<CartItem>, p: Product): (r: seq<CartItem>)
    ensures PricedByTier(r)
    ensures InCart(items, p.courseId) ==>
              |r| == |items| &&
              forall i :: 0 <= i < |items| ==>
                r[i].courseId == items[i].courseId && r[i].title == items[i].title &&
                r[i].price == items[i].price && r[i].image == items[i].image &&
                r[i].quantity == items[i].quantity + (if items[i].courseId == p.courseId then 1 else 0)
    ensures !InCart(items, p.courseId) ==>
              |r| == |items| + 1 && SameLines(r[..|items|], items) && SameExceptPrice(r[|items|], NewLine(p))
  {
    if InCart(items, p.courseId) then
      RecalculatePrices(Incremented(items, p.courseId))
    else
      var r := RecalculatePrices(items + [NewLine(p)]);
      assert forall i :: 0 <= i < |items| ==> r[..|items|][i] == r[i];
      r
  }

  /** `items.filter(item => item.courseId !== courseId)` */
  function Without(items: seq<CartItem>, courseId: string): (r: seq<CartItem>)
    ensures !InCart(r, courseId)
    ensures forall x :: x in r ==> x in items
    ensures |r| <= |items|
  {
    if items == [] then []
    else (if items[0].courseId == courseId then [] else [items[0]]) + Without(items[1..], courseId)
  }

  /** Filtering out an id that no line has keeps the list. */
  lemma {:induction false} WithoutAbsent(items: seq<CartItem>, courseId: string)
    requires !InCart(items, courseId)
    ensures Without(items, courseId) == items
  {
    if items != [] {
      WithoutAbsent(items[1..], courseId);
    }
  }

  lemma UniqueTail(items: seq<CartItem>)
    requires UniqueIds(items) && items != []
    ensures UniqueIds(items[1..])
    ensures !InCart(items[1..], items[0].courseId)
  {
    forall i, j | 0 <= i < j < |items[1..]| ensures items[1..][i].courseId != items[1..][j].courseId {
      assert items[1..][i] == items[i + 1] && items[1..][j] == items[j + 1];
    }
    forall i | 0 <= i < |items[1..]| ensures items[1..][i].courseId != items[0].courseId {
      assert items[1..][i] == items[i + 1];
    }
  }

  /** In a cart with unique ids, filtering out the id of line k removes exactly that line and keeps
      the others in their order. */
  lemma {:induction false} WithoutUnique(items: seq<CartItem>, courseId: string, k: nat)
    requires UniqueIds(items)
    requires k < |items| && items[k].courseId == courseId
    ensures Without(items, courseId) == items[..k] + items[k + 1..]
  {
    UniqueTail(items);
    if k == 0 {
      WithoutAbsent(items[1..], courseId);
    } else {
      assert items[0].courseId != courseId;
      WithoutUnique(items[1..], courseId, k - 1);
      assert Without(items, courseId) == [items[0]] + Without(items[1..], courseId);
      DropInTail(items, k);
    }
  }

  /** `removeItem`: drop the line with that id, then recompute every price. */
  function RemovedItems(items: seq<CartItem>, courseId: string): (r: seq<CartItem>)
    ensures !InCart(r, courseId)
    ensures PricedByTier(r)
  {
    var r := RecalculatePrices(Without(items, courseId));
    assert forall i :: 0 <= i < |r| ==> r[i].courseId == Without(items, courseId)[i].courseId;
    r
  }

  /** The `map` of `updateQuantity`: every line with that id takes the new quantity. */
  function WithQuantity(items: seq<CartItem>, courseId: string, quantity: int): seq<CartItem>
  {
    seq(|items|, i requires 0 <= i < |items| =>
        if items[i].courseId == courseId then items[i].(quantity := quantity) else items[i])
  }

  /** `updateQuantity`: a quantity of zero or less removes the line; otherwise the line's quantity is
      replaced and all prices recomputed. */
  function UpdatedItems(items: seq<CartItem>, courseId: string, quantity: int): (r: seq<CartItem>)
    ensures PricedByTier(r)
    ensures quantity > 0 ==>
              |r| == |items| &&
              forall i :: 0 <= i < |items| ==>
                r[i].courseId == items[i].courseId && r[i].title == items[i].title &&
                r[i].price == items[i].price && r[i].image == items[i].image &&
                r[i].quantity == (if items[i].courseId == courseId then quantity else items[i].quantity)
  {
    if quantity <= 0 then RemovedItems(items, courseId)
    else RecalculatePrices(WithQuantity(items, courseId, quantity))
  }

  /** Adding keeps the cart well formed and raises the total quantity by exactly one. */
  lemma AddKeepsWellFormed(items: seq<CartItem>, p: Product)
    requires WellFormedCart(items)
    ensures WellFormedCart(AddedItems(items, p))
    ensures TotalQuantity(AddedItems(items, p)) == TotalQuantity(items) + 1
  {
    if InCart(items, p.courseId) {
      AddExistingKeepsWellFormed(items, p);
    } else {
      AddNewKeepsWellFormed(items, p);
    }
  }

  lemma AddExistingKeepsWellFormed(items: seq<CartItem>, p: Product)
    requires WellFormedCart(items) && InCart(items, p.courseId)
    ensures WellFormedCart(AddedItems(items, p))
    ensures TotalQuantity(AddedItems(items, p)) == TotalQuantity(items) + 1
  {
    var r := AddedItems(items, p);
    var k :| 0 <= k < |items| && items[k].courseId == p.courseId;
    var inc := Incremented(items, p.courseId);
    IncrementedTotal(items, p.courseId, k);
    assert TotalQuantity(r) == TotalQuantity(inc);
  }

  lemma AddNewKeepsWellFormed(items: seq<CartItem>, p: Product)
    requires WellFormedCart(items) && !InCart(items, p.courseId)
    ensures WellFormedCart(AddedItems(items, p))
    ensures TotalQuantity(AddedItems(items, p)) == TotalQuantity(items) + 1
  {
    var r := AddedItems(items, p);
    TotalQuantityAppend(items, NewLine(p));
    assert TotalQuantity(r) == TotalQuantity(items + [NewLine(p)]);
    forall i, j | 0 <= i < j < |r| ensures r[i].courseId != r[j].courseId {
      if j == |items| {
        assert r[i].courseId == r[..|items|][i].courseId == items[i].courseId;
      } else {
        assert r[i].courseId == r[..|items|][i].courseId == items[i].courseId;
        assert r[j].courseId == r[..|items|][j].courseId == items[j].courseId;
      }
    }
  }

  /** In a cart with unique ids, incrementing the line at k raises the total by one. */
  lemma {:induction false} IncrementedTotal(items: seq<CartItem>, courseId: string, k: nat)
    requires UniqueIds(items)
    requires k < |items| && items[k].courseId == courseId
    ensures TotalQuantity(Incremented(items, courseId)) == TotalQuantity(items) + 1
  {
    var inc := Incremented(items, courseId);
    if k == 0 {
      assert SameLines(inc[1..], items[1..]) by {
        forall i | 0 <= i < |items| - 1 ensures SameExceptPrice(inc[1..][i], items[1..][i]) {
          assert items[i + 1].courseId != courseId;
        }
      }
      SameLinesSameTotals(inc[1..], items[1..]);
    } else {
      assert inc[1..] == Incremented(items[1..], courseId);
      IncrementedTotal(items[1..], courseId, k - 1);
    }
  }

  /** Lines that agree but for their prices have the same ids and quantities. */
  lemma SameLinesKeepShape(a: seq<CartItem>, b: seq<CartItem>)
    requires SameLines(a, b) && UniqueIds(b) && PositiveQuantities(b)
    ensures UniqueIds(a) && PositiveQuantities(a)
  {
    assert forall i :: 0 <= i < |a| ==> a[i].courseId == b[i].courseId && a[i].quantity == b[i].quantity;
  }

  /** Filtering an id out of a cart with unique ids and positive quantities keeps both. */
  lemma WithoutKeepsShape(items: seq<CartItem>, courseId: string)
    requires UniqueIds(items) && PositiveQuantities(items)
    ensures UniqueIds(Without(items, courseId)) && PositiveQuantities(Without(items, courseId))
  {
    if InCart(items, courseId) {
      var k :| 0 <= k < |items| && items[k].courseId == courseId;
      WithoutUnique(items, courseId, k);
      DropKeepsShape(items, k);
    } else {
      WithoutAbsent(items, courseId);
    }
  }

  lemma DropKeepsShape(items: seq<CartItem>, k: nat)
    requires UniqueIds(items) && PositiveQuantities(items)
    requires k < |items|
    ensures UniqueIds(items[..k] + items[k + 1..]) && PositiveQuantities(items[..k] + items[k + 1..])
  {
    var w := items[..k] + items[k + 1..];
    assert |w| == |items| - 1;
    forall i | 0 <= i < |w| ensures w[i] == items[if i < k then i else i + 1] {
      if i < k {
        assert w[i] == items[..k][i];
      } else {
        assert w[i] == items[k + 1..][i - k];
      }
    }
  }

  /** Removing keeps the cart well formed. */
  lemma RemoveKeepsWellFormed(items: seq<CartItem>, courseId: string)
    requires WellFormedCart(items)
    ensures WellFormedCart(RemovedItems(items, courseId))
  {
    WithoutKeepsShape(items, courseId);
    SameLinesKeepShape(RemovedItems(items, courseId), Without(items, courseId));
  }

  /** Changing a quantity keeps the cart well formed. */
  lemma UpdateKeepsWellFormed(items: seq<CartItem>, courseId: string, quantity: int)
    requires WellFormedCart(items)
    ensures WellFormedCart(UpdatedItems(items, courseId, quantity))
  {
    if quantity <= 0 {
      RemoveKeepsWellFormed(items, courseId);
    }
  }

  /** In a well-formed cart, removing the id of line k leaves the other lines in their order, each with
      the price of the new tier. */
  lemma RemoveKeepsOrder(items: seq<CartItem>, courseId: string, k: nat)
    requires WellFormedCart(items)
    requires k < |items| && items[k].courseId == courseId
    ensures SameLines(RemovedItems(items, courseId), items[..k] + items[k + 1..])
  {
    WithoutUnique(items, courseId, k);
  }

  /** Removing or updating an id that no line has changes nothing in a well-formed cart. */
  lemma AbsentIdChangesNothing(items: seq<CartItem>, courseId: string, quantity: int)
    requires WellFormedCart(items)
    requires !InCart(items, courseId)
    ensures RemovedItems(items, courseId) == items
    ensures UpdatedItems(items, courseId, quantity) == items
  {
    WithoutAbsent(items, courseId);
    RecalculateFixesPriced(items);
    var w := WithQuantity(items, courseId, quantity);
    assert w == items;
  }

  /** `updateQuantity(id, 0)` (or any quantity below 1) is `removeItem(id)`. */
  lemma UpdateToZeroIsRemove(items: seq<CartItem>, courseId: string, quantity: int)
    requires quantity <= 0
    ensures UpdatedItems(items, courseId, quantity) == RemovedItems(items, courseId)
  {
  }

  /** A total of at least the number of lines: every line holds at least one course. */
  lemma {:induction false} TotalQuantityAtLeastLines(items: seq<CartItem>)
    requires PositiveQuantities(items)
    ensures TotalQuantity(items) >= |items|
  {
    if items != [] {
      assert PositiveQuantities(items[1..]) by {
        forall i | 0 <= i < |items[1..]| ensures items[1..][i].quantity >= 1 {
          assert items[1..][i] == items[i + 1];
        }
      }
      TotalQuantityAtLeastLines(items[1..]);
    }
  }

  /** With two single courses in the cart at 5%, adding a third course moves every line, also the two
      earlier ones, to the 10% price. */
  lemma ThirdCourseRepricesEarlierLines(a: Product, b: Product, c: Product)
    requires a.courseId != b.courseId && c.courseId != a.courseId && c.courseId != b.courseId
    ensures var two := AddedItems(AddedItems([], a), b);
            var three := AddedItems(two, c);
            |two| == 2 && two[0].discountedPrice == Some(RoundHundredth(a.price * 95)) &&
            |three| == 3 && three[0].discountedPrice == Some(RoundHundredth(a.price * 90)) &&
            three[1].discountedPrice == Some(RoundHundredth(b.price * 90))
  {
    var one := AddedItems([], a);
    AddKeepsWellFormed([], a);
    assert |one| == 1 && one[0].courseId == a.courseId;
    var two := AddedItems(one, b);
    AddKeepsWellFormed(one, b);
    assert |two| == 2 && two[0].courseId == a.courseId && two[1].courseId == b.courseId;
    AddKeepsWellFormed(two, c);
  }

  /** The cart store: the list the `addItem`, `removeItem`, `updateQuantity` and `clearCart` callbacks
      replace, and the getters read. */
  class CartStore {
    var items: seq<CartItem>

    ghost predicate Valid()
      reads this
    {
      WellFormedCart(items)
    }

    constructor ()
      ensures Valid() && items == []
    {
      items := [];
    }

    method AddItem(p: Product)
      requires Valid()
      modifies this
      ensures Valid()
      ensures items == AddedItems(old(items), p)
      ensures TotalQuantity(items) == TotalQuantity(old(items)) + 1
    {
      AddKeepsWellFormed(items, p);
      items := AddedItems(items, p);
    }

    method RemoveItem(courseId: string)
      requires Valid()
      modifies this
      ensures Valid()
      ensures items == RemovedItems(old(items), courseId)
    {
      RemoveKeepsWellFormed(items, courseId);
      items := RemovedItems(items, courseId);
    }

    method UpdateQuantity(courseId: string, quantity: int)
      requires Valid()
      modifies this
      ensures Valid()
      ensures items == UpdatedItems(old(items), courseId, quantity)
    {
      if quantity <= 0 {
        RemoveItem(courseId);
        return;
      }
      UpdateKeepsWellFormed(items, courseId, quantity);
      items := UpdatedItems(items, courseId, quantity);
    }

    method ClearCart()
      modifies this
      ensures Valid() && items == []
    {
      items := [];
    }

    /** `getTotalItems`: the number of courses in the cart, at least one per line. */
    function GetTotalItems(): (n: int)
      reads this
      requires Valid()
      ensures n >= |items|
      ensures n == 0 <==> items == []
    {
      TotalQuantityAtLeastLines(items);
      TotalQuantity(items)
    }

    /** `getTotalPrice`: the undiscounted subtotal; it ignores the discounted prices. */
    function GetTotalPrice(): (r: int)
      reads this
      ensures items == [] ==> r == 0
      ensures NonNegativeLines(items) ==> r >= 0
    {
      TotalPriceNonNegative(items);
      TotalPrice(items)
    }

    /** `getApplicableDiscount`: the one listed tier of largest threshold the course count reaches. */
    function GetApplicableDiscount(): (r: Option<DiscountTier>)
      reads this
      ensures r.None? <==> TotalQuantity(items) < DiscountTiers[0].threshold
      ensures r.Some? ==> r.value in DiscountTiers && r.value.threshold <= TotalQuantity(items)
      ensures r.Some? ==> forall t :: t in DiscountTiers && t.threshold <= TotalQuantity(items) ==>
                                        t.threshold <= r.value.threshold
    {
      ApplicableTier(TotalQuantity(items))
    }

    /** `getDiscountAmount`: the tier's percentage of the subtotal, rounded; 0 when no tier applies. */
    function GetDiscountAmount(): (r: int)
      reads this
      ensures GetApplicableDiscount().None? ==> r == 0
      ensures GetApplicableDiscount().Some? ==>
                100 * r - 50 <= GetTotalPrice() * GetApplicableDiscount().value.percentage < 100 * r + 50
      ensures GetTotalPrice() >= 0 ==> 0 <= r <= GetTotalPrice()
    {
      var discount := ApplicableTier(TotalQuantity(items));
      assert discount == GetApplicableDiscount();
      if discount.None? then 0
      else
        RoundedShareWithin(GetTotalPrice(), discount.value.percentage);
        RoundHundredth(GetTotalPrice() * discount.value.percentage)
    }

    /** `getFinalPrice`: discount and final price add up to the subtotal. */
    function GetFinalPrice(): (r: int)
      reads this
      ensures r + GetDiscountAmount() == GetTotalPrice()
      ensures GetTotalPrice() >= 0 ==> 0 <= r <= GetTotalPrice()
      ensures GetApplicableDiscount().None? ==> r == GetTotalPrice()
    {
      GetTotalPrice() - GetDiscountAmount()
    }

    /** `isInCart`: some line of the cart has that course id. */
    function IsInCart(courseId: string): (b: bool)
      reads this
      ensures b <==> exists i :: 0 <= i < |items| && items[i].courseId == courseId
    {
      InCart(items, courseId)
    }
  }
}
