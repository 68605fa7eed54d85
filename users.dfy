/** The signed-in user's store of src/context/UserContext.tsx: mock login and registration, purchases
    de-duplicated by order id, a wishlist de-duplicated by course id, and the queries over them.
    Dates are integer timestamps (milliseconds); the random user id and the clock are parameters. */
module Users {
  import opened Common

  datatype PurchaseStatus = Completed | Pending | Failed

  datatype Purchase = Purchase(courseId: string, orderId: string, purchaseDate: int,
                               price: Option<int>, title: Option<string>,
                               status: Option<PurchaseStatus>, paymentMethod: Option<string>)

  datatype WishlistItem = WishlistItem(courseId: string, dateAdded: int, title: Option<string>,
                                       price: Option<int>, image: Option<string>)

  datatype User = User(id: string, email: string, name: Option<string>, purchases: seq<Purchase>,
                       wishlist: seq<WishlistItem>, isAuthenticated: bool)

  const DayMillis: int := 24 * 60 * 60 * 1000

  /** The demonstration purchases a login starts with, dated relative to the time the module loaded. */
  function DummyPurchases(loadedAt: int): seq<Purchase> {
    [ Purchase("zhiroszhiganie1", "ord_123456", loadedAt - 7 * DayMillis, Some(3000),
               Some("Жиросжигание I"), Some(Completed), Some("card")),
      Purchase("dlya-zala1", "ord_789012", loadedAt - 2 * DayMillis, Some(3000),
               Some("Для зала I"), Some(Completed), Some("card")) ]
  }

  /** The demonstration wishlist a login starts with. */
  function DummyWishlist(loadedAt: int): seq<WishlistItem> {
    [ WishlistItem("funkcionalnyj-trening", loadedAt - 10 * DayMillis, Some("Функциональный 3D II"),
                   Some(4500), Some("/course3.png")) ]
  }

  /** `purchases.some(p => p.courseId === courseId)` */
  function HasCourse(purchases: seq<Purchase>, courseId: string): (b: bool)
    ensures b <==> exists i :: 0 <= i < |purchases| && purchases[i].courseId == courseId
  {
    if purchases == [] then false
    else purchases[0].courseId == courseId || HasCourse(purchases[1..], courseId)
  }

  /** `purchases.some(p => p.orderId === orderId)` */
  function HasOrder(purchases: seq<Purchase>, orderId: string): (b: bool)
    ensures b <==> exists i :: 0 <= i < |purchases| && purchases[i].orderId == orderId
  {
    if purchases == [] then false
    else purchases[0].orderId == orderId || HasOrder(purchases[1..], orderId)
  }

  /** `purchases.find(p => p.orderId === orderId)`: the first purchase with that order id. */
  function FindOrder(purchases: seq<Purchase>, orderId: string): (r: Option<Purchase>)
    ensures r.None? <==> !HasOrder(purchases, orderId)
    ensures r.Some? ==> exists k :: 0 <= k < |purchases| && purchases[k] == r.value &&
                          r.value.orderId == orderId &&
                          forall j :: 0 <= j < k ==> purchases[j].orderId != orderId
  {
    if purchases == [] then None
    else if purchases[0].orderId == orderId then Some(purchases[0])
    else
      var r := FindOrder(purchases[1..], orderId);
      if r.Some? then
        FirstOrderShift(purchases, orderId, r.value);
        r
      else r
  }

  /** The first purchase with an order id after the head, when the head has another order id, is the
      first one in the whole list. */
  lemma FirstOrderShift(purchases: seq<Purchase>, orderId: string, p: Purchase)
    requires purchases != [] && purchases[0].orderId != orderId
    requires exists k :: 0 <= k < |purchases[1..]| && purchases[1..][k] == p && p.orderId == orderId &&
                         forall j :: 0 <= j < k ==> purchases[1..][j].orderId != orderId
    ensures exists k :: 0 <= k < |purchases| && purchases[k] == p && p.orderId == orderId &&
                        forall j :: 0 <= j < k ==> purchases[j].orderId != orderId
  {
    var k :| 0 <= k < |purchases[1..]| && purchases[1..][k] == p && p.orderId == orderId &&
             forall j :: 0 <= j < k ==> purchases[1..][j].orderId != orderId;
    assert purchases[k + 1] == p;
    forall j | 0 <= j < k + 1 ensures purchases[j].orderId != orderId {
      if j > 0 {
        assert purchases[j] == purchases[1..][j - 1];
      }
    }
  }

  predicate OrderIdsUnique(purchases: seq<Purchase>) {
    forall i, j :: 0 <= i < j < |purchases| ==> purchases[i].orderId != purchases[j].orderId
  }

  /** `wishlist.some(item => item.courseId === courseId)` */
  function WishlistHas(wishlist: seq<WishlistItem>, courseId: string): (b: bool)
    ensures b <==> exists i :: 0 <= i < |wishlist| && wishlist[i].courseId == courseId
  {
    if wishlist == [] then false
    else wishlist[0].courseId == courseId || WishlistHas(wishlist[1..], courseId)
  }

  predicate WishlistIdsUnique(wishlist: seq<WishlistItem>) {
    forall i, j :: 0 <= i < j < |wishlist| ==> wishlist[i].courseId != wishlist[j].courseId
  }

  /** `wishlist.filter(item => item.courseId !== courseId)`: every entry of that course goes, every other
      entry stays. */
  function WithoutWish(wishlist: seq<WishlistItem>, courseId: string): (r: seq<WishlistItem>)
    ensures !WishlistHas(r, courseId)
    ensures |r| <= |wishlist|
  {
    if wishlist == [] then []
    else (if wishlist[0].courseId == courseId then [] else [wishlist[0]]) + WithoutWish(wishlist[1..], courseId)
  }

  lemma {:induction false} WithoutWishMembers(wishlist: seq<WishlistItem>, courseId: string)
    ensures forall w :: w in WithoutWish(wishlist, courseId) <==> w in wishlist && w.courseId != courseId
  {
    if wishlist != [] {
      WithoutWishMembers(wishlist[1..], courseId);
      assert wishlist == [wishlist[0]] + wishlist[1..];
    }
  }

  /** The filter keeps the remaining entries in their order: it distributes over concatenation. */
  lemma {:induction false} WithoutWishAppend(a: seq<WishlistItem>, b: seq<WishlistItem>, courseId: string)
    ensures WithoutWish(a + b, courseId) == WithoutWish(a, courseId) + WithoutWish(b, courseId)
  {
    if a == [] {
      assert a + b == b;
    } else {
      assert (a + b)[0] == a[0];
      assert (a + b)[1..] == a[1..] + b;
      WithoutWishAppend(a[1..], b, courseId);
    }
  }

  /** Sorted by purchase date, newest first. */
  predicate NewestFirstOrder(purchases: seq<Purchase>) {
    forall i, j :: 0 <= i < j < |purchases| ==> purchases[i].purchaseDate >= purchases[j].purchaseDate
  }

  /** Putting a purchase that is not older than the head in front keeps the order. */
  lemma ConsNewestFirst(x: Purchase, s: seq<Purchase>)
    requires NewestFirstOrder(s)
    requires s == [] || x.purchaseDate >= s[0].purchaseDate
    ensures NewestFirstOrder([x] + s)
  {
    var r := [x] + s;
    forall i, j | 0 <= i < j < |r| ensures r[i].purchaseDate >= r[j].purchaseDate {
      if i == 0 {
        assert r[j] == s[j - 1];
        assert s[0].purchaseDate >= s[j - 1].purchaseDate || j - 1 == 0;
      } else {
        assert r[i] == s[i - 1] && r[j] == s[j - 1];
      }
    }
  }

  /** The tail of a list in newest-first order is in that order, and the head is not older than the
      tail's head. */
  lemma NewestFirstTail(sorted: seq<Purchase>)
    requires NewestFirstOrder(sorted) && sorted != []
    ensures NewestFirstOrder(sorted[1..])
    ensures |sorted| > 1 ==> sorted[0].purchaseDate >= sorted[1].purchaseDate
  {
    var t := sorted[1..];
    forall i, j | 0 <= i < j < |t| ensures t[i].purchaseDate >= t[j].purchaseDate {
      assert t[i] == sorted[i + 1] && t[j] == sorted[j + 1];
    }
  }

  /** Places `p` before the first purchase that is not newer, so equal dates keep their order. */
  function InsertByDate(p: Purchase, sorted: seq<Purchase>): (r: seq<Purchase>)
    requires NewestFirstOrder(sorted)
    ensures NewestFirstOrder(r)
    ensures multiset(r) == multiset(sorted) + multiset{p}
    ensures |r| == |sorted| + 1
    ensures r[0] == p || (sorted != [] && r[0] == sorted[0])
  {
    if sorted == [] || sorted[0].purchaseDate <= p.purchaseDate then
      ConsNewestFirst(p, sorted);
      [p] + sorted
    else
      var rest := InsertByDate(p, sorted[1..]);
      NewestFirstTail(sorted);
      ConsNewestFirst(sorted[0], rest);
      assert multiset(sorted) == multiset{sorted[0]} + multiset(sorted[1..]) by {
        assert sorted == [sorted[0]] + sorted[1..];
      }
      [sorted[0]] + rest
  }

  /** `[...purchases].sort((a, b) => date(b) - date(a))`: a stable sort on a copy, newest first. */
  function NewestFirst(purchases: seq<Purchase>): (r: seq<Purchase>)
    ensures NewestFirstOrder(r)
    ensures multiset(r) == multiset(purchases)
    ensures |r| == |purchases|
  {
    if purchases == [] then []
    else
      assert [purchases[0]] + purchases[1..] == purchases;
      InsertByDate(purchases[0], NewestFirst(purchases[1..]))
  }

  /** The user context: the one `user` value every callback replaces. */
  class UserStore {
    var user: Option<User>
    var isLoading: bool
    /** The demonstration data, computed once when the module is loaded. */
    const dummyPurchases: seq<Purchase>
    const dummyWishlist: seq<WishlistItem>

    constructor (loadedAt: int)
      ensures user == None && isLoading
      ensures dummyPurchases == DummyPurchases(loadedAt) && dummyWishlist == DummyWishlist(loadedAt)
    {
      user := None;
      isLoading := true;
      dummyPurchases := DummyPurchases(loadedAt);
      dummyWishlist := DummyWishlist(loadedAt);
    }

    /** The mount-time load: a readable saved session becomes the user; an absent or unreadable one
        (`None`) leaves it as it is. Loading ends either way. */
    method LoadSession(saved: Option<User>)
      modifies this
      ensures user == if saved.Some? then saved else old(user)
      ensures !isLoading
    {
      if saved.Some? {
        user := saved;
      }
      isLoading := false;
    }

    /** `login`: succeeds iff the email is not empty, with the demonstration purchases and wishlist. */
    method Login(email: string, password: string, newId: string) returns (ok: bool)
      modifies this
      ensures ok <==> email != ""
      ensures ok ==> user == Some(User(newId, email, None, dummyPurchases, dummyWishlist, true))
      ensures !ok ==> user == old(user)
      ensures !isLoading
    {
      isLoading := true;
      if email != "" {
        user := Some(User(newId, email, None, dummyPurchases, dummyWishlist, true));
        ok := true;
      } else {
        ok := false;
      }
      isLoading := false;
    }

    /** `register`: succeeds iff email and password are both non-empty; the new user owns nothing yet. */
    method Register(email: string, password: string, name: string, newId: string) returns (ok: bool)
      modifies this
      ensures ok <==> email != "" && password != ""
      ensures ok ==> user == Some(User(newId, email, Some(name), [], [], true))
      ensures !ok ==> user == old(user)
      ensures !isLoading
    {
      isLoading := true;
      if email != "" && password != "" {
        user := Some(User(newId, email, Some(name), [], [], true));
        ok := true;
      } else {
        ok := false;
      }
      isLoading := false;
    }

    /** `logout`: only the user goes. */
    method Logout()
      modifies this`user
      ensures user == None
    {
      user := None;
    }

    /** `addPurchase`: appends iff someone is signed in and no purchase has that order id. */
    method AddPurchase(p: Purchase)
      modifies this`user
      ensures user == if old(user).Some? && !HasOrder(old(user).value.purchases, p.orderId)
                      then Some(old(user).value.(purchases := old(user).value.purchases + [p]))
                      else old(user)
      ensures old(user).Some? && OrderIdsUnique(old(user).value.purchases) ==>
                user.Some? && OrderIdsUnique(user.value.purchases)
    {
      if user.None? {
        return;
      }
      var u := user.value;
      if HasOrder(u.purchases, p.orderId) {
        return;
      }
      user := Some(u.(purchases := u.purchases + [p]));
    }

    /** `addToWishlist`: appends iff someone is signed in and the course is not listed yet. */
    method AddToWishlist(item: WishlistItem)
      modifies this`user
      ensures user == if old(user).Some? && !WishlistHas(old(user).value.wishlist, item.courseId)
                      then Some(old(user).value.(wishlist := old(user).value.wishlist + [item]))
                      else old(user)
      ensures old(user).Some? && WishlistIdsUnique(old(user).value.wishlist) ==>
                user.Some? && WishlistIdsUnique(user.value.wishlist)
    {
      if user.None? {
        return;
      }
      var u := user.value;
      if WishlistHas(u.wishlist, item.courseId) {
        return;
      }
      user := Some(u.(wishlist := u.wishlist + [item]));
    }

    /** `removeFromWishlist`: drops every entry of that course and keeps the rest in order. */
    method RemoveFromWishlist(courseId: string)
      modifies this`user
      ensures user == if old(user).Some?
                      then Some(old(user).value.(wishlist := WithoutWish(old(user).value.wishlist, courseId)))
                      else old(user)
      ensures !IsInWishlist(courseId)
    {
      if user.None? {
        return;
      }
      var u := user.value;
      user := Some(u.(wishlist := WithoutWish(u.wishlist, courseId)));
    }

    /** `getPurchases`: what `hasPurchased` searches. */
    function GetPurchases(): (r: seq<Purchase>)
      reads this
      ensures user.None? ==> r == []
      ensures forall courseId :: HasPurchased(courseId) <==> HasCourse(r, courseId)
    {
      if user.None? then [] else user.value.purchases
    }

    /** `hasPurchased`: some purchase of the signed-in user is for that course. */
    function HasPurchased(courseId: string): (b: bool)
      reads this
      ensures b <==> user.Some? && exists i :: 0 <= i < |user.value.purchases| &&
                                               user.value.purchases[i].courseId == courseId
    {
      user.Some? && HasCourse(user.value.purchases, courseId)
    }

    /** `getOrderHistory`: the purchases, newest first, as a permutation of a copy. */
    function GetOrderHistory(): (r: seq<Purchase>)
      reads this
      ensures user.None? ==> r == []
      ensures user.Some? ==> multiset(r) == multiset(user.value.purchases)
      ensures NewestFirstOrder(r)
    {
      if user.None? then [] else NewestFirst(user.value.purchases)
    }

    /** `getOrderDetails`: the first purchase with that order id, if any. */
    function GetOrderDetails(orderId: string): (r: Option<Purchase>)
      reads this
      ensures user.None? ==> r.None?
      ensures user.Some? ==> (r.None? <==> !HasOrder(user.value.purchases, orderId))
      ensures r.Some? ==> r.value.orderId == orderId && r.value in user.value.purchases
    {
      if user.None? then None else FindOrder(user.value.purchases, orderId)
    }

    /** `getWishlist`: what `isInWishlist` searches. */
    function GetWishlist(): (r: seq<WishlistItem>)
      reads this
      ensures user.None? ==> r == []
      ensures forall courseId :: IsInWishlist(courseId) <==> WishlistHas(r, courseId)
    {
      if user.None? then [] else user.value.wishlist
    }

    /** `isInWishlist`: some wishlist entry of the signed-in user is for that course. */
    function IsInWishlist(courseId: string): (b: bool)
      reads this
      ensures b <==> user.Some? && exists i :: 0 <= i < |user.value.wishlist| &&
                                               user.value.wishlist[i].courseId == courseId
    {
      user.Some? && WishlistHas(user.value.wishlist, courseId)
    }
  }

  /** After a successful login the order history is the two demonstration purchases, newer first. */
  lemma LoginHistoryExample(loadedAt: int)
    ensures NewestFirst(DummyPurchases(loadedAt)) == [DummyPurchases(loadedAt)[1], DummyPurchases(loadedAt)[0]]
  {
    var d := DummyPurchases(loadedAt);
    assert d[1..] == [d[1]];
    assert NewestFirst(d[1..][1..]) == [];
    assert NewestFirst(d[1..]) == [d[1]];
  }

  /** The entries after the first of a wishlist with unique ids are unique too and none of them is of
      the first entry's course. */
  lemma WishUniqueTail(wishlist: seq<WishlistItem>)
    requires WishlistIdsUnique(wishlist) && wishlist != []
    ensures WishlistIdsUnique(wishlist[1..])
    ensures !WishlistHas(wishlist[1..], wishlist[0].courseId)
  {
    var t := wishlist[1..];
    forall i, j | 0 <= i < j < |t| ensures t[i].courseId != t[j].courseId {
      assert t[i] == wishlist[i + 1] && t[j] == wishlist[j + 1];
    }
    forall i | 0 <= i < |t| ensures t[i].courseId != wishlist[0].courseId {
      assert t[i] == wishlist[i + 1];
    }
  }

  /** In a wishlist with unique course ids, removing the course of entry k removes exactly that entry. */
  lemma {:induction false} RemoveWishUnique(wishlist: seq<WishlistItem>, courseId: string, k: nat)
    requires WishlistIdsUnique(wishlist)
    requires k < |wishlist| && wishlist[k].courseId == courseId
    ensures WithoutWish(wishlist, courseId) == wishlist[..k] + wishlist[k + 1..]
  {
    WishUniqueTail(wishlist);
    if k == 0 {
      WithoutWishAbsent(wishlist[1..], courseId);
    } else {
      assert wishlist[0].courseId != courseId;
      RemoveWishUnique(wishlist[1..], courseId, k - 1);
      assert WithoutWish(wishlist, courseId) == [wishlist[0]] + WithoutWish(wishlist[1..], courseId);
      DropInTail(wishlist, k);
    }
  }

  /** Filtering a course out of a wishlist that does not list it keeps the wishlist. */
  lemma {:induction false} WithoutWishAbsent(wishlist: seq<WishlistItem>, courseId: string)
    requires !WishlistHas(wishlist, courseId)
    ensures WithoutWish(wishlist, courseId) == wishlist
  {
    if wishlist != [] {
      WithoutWishAbsent(wishlist[1..], courseId);
    }
  }
}
