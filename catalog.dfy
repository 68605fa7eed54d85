/** The course catalogue of src/app/courses/page.tsx: the fixed course list, the search and the three
    equality filters, the four sort orders, and the "add to cart" button. */
module Catalog {
  import opened Cart

  /** A catalogue entry; the rating is a whole number of stars. */
  datatype Course = Course(
    id: string, title: string, image: string, price: int, rating: int, description: string,
    categories: seq<string>, level: string, location: string, duration: string, featured: bool)

  /** `coursesData`: the six courses, in page order. */
  const CoursesData: seq<Course> := [
    Course("zhiroszhiganie1", "Fat Burning I", "/course1.png", 3000, 5,
           "A specialized fat-burning workout program to kickstart weight loss and sculpt a toned physique.",
           ["fitness", "weight-loss"], "beginner", "home", "4 weeks", true),
    Course("dlya-zala1", "Gym Workout I", "/course2.png", 3000, 5,
           "A comprehensive gym training program focused on full-body muscle development.",
           ["fitness", "strength"], "beginner", "gym", "6 weeks", true),
    Course("funkcionalnyj-trening", "Functional 3D II", "/course3.png", 4500, 5,
           "An advanced functional training program designed to improve all-round physical performance and strengthen muscles across all planes of movement.",
           ["fitness", "functional"], "advanced", "home", "8 weeks", false),
    Course("dlya-zala2", "Gym Workout II", "/course2.png", 3500, 4,
           "An advanced gym training program featuring challenging exercises and intense workout routines.",
           ["fitness", "strength"], "intermediate", "gym", "8 weeks", false),
    Course("zhiroszhiganie2", "Fat Burning II", "/course1.png", 3500, 4,
           "An advanced fat-burning program with high-intensity interval training and complex workouts.",
           ["fitness", "weight-loss", "hiit"], "intermediate", "home", "6 weeks", false),
    Course("rastyazhka", "Stretching & Pilates", "/course3.png", 2500, 5,
           "A comprehensive program to improve flexibility, joint mobility, and strengthen deep core muscles with Pilates elements.",
           ["fitness", "flexibility", "pilates"], "beginner", "home", "4 weeks", true)
  ]

  /** The lower-case form of one character: Latin `A`-`Z`, Cyrillic `А`-`Я` and `Ё`. */
  function LowerChar(c: char): (d: char)
    ensures 'A' <= c <= 'Z' || 'А' <= c <= 'Я' ==> d as int == c as int + 32
    ensures c == 'Ё' ==> d == 'ё'
    ensures !('A' <= c <= 'Z') && !('А' <= c <= 'Я') && c != 'Ё' ==> d == c
  {
    if 'A' <= c <= 'Z' then (c as int + 32) as char
    else if 'А' <= c <= 'Я' then (c as int + 32) as char
    else if c == 'Ё' then 'ё'
    else c
  }

  /** `s.toLowerCase()`, character by character. */
  function ToLower(s: string): (r: string)
    ensures |r| == |s|
    ensures forall i :: 0 <= i < |s| ==> r[i] == LowerChar(s[i])
  {
    seq(|s|, i requires 0 <= i < |s| => LowerChar(s[i]))
  }

  /** Lower-casing twice is lower-casing once. */
  lemma ToLowerIdempotent(s: string)
    ensures ToLower(ToLower(s)) == ToLower(s)
  {
    forall i | 0 <= i < |s| ensures LowerChar(LowerChar(s[i])) == LowerChar(s[i]) {
    }
  }

  /** `s.includes(sub)`: `sub` occurs in `s` at some offset (the empty string occurs everywhere). */
  predicate Includes(s: string, sub: string)
    decreases |s|
  {
    (|sub| <= |s| && s[..|sub|] == sub) || (|s| > 0 && Includes(s[1..], sub))
  }

  /** The search filter: an empty query keeps everything, otherwise the lower-cased query must occur in
      the lower-cased title or description. */
  predicate MatchesSearch(c: Course, query: string) {
    query == "" || Includes(ToLower(c.title), ToLower(query)) || Includes(ToLower(c.description), ToLower(query))
  }

  /** The search ignores case: a query and its lower-cased form select the same courses. */
  lemma SearchIgnoresCase(c: Course, query: string)
    ensures MatchesSearch(c, ToLower(query)) == MatchesSearch(c, query)
  {
    ToLowerIdempotent(query);
  }

  predicate MatchesCategory(c: Course, category: string) {
    category == "all" || category in c.categories
  }

  predicate MatchesLevel(c: Course, level: string) {
    level == "all" || c.level == level
  }

  predicate MatchesLocation(c: Course, location: string) {
    location == "all" || c.location == location
  }

  /** The page's filter settings. */
  datatype Filters = Filters(query: string, category: string, level: string, location: string, sortOrder: string)

  /** A course is shown iff it passes every active filter. */
  predicate Passes(c: Course, f: Filters) {
    MatchesSearch(c, f.query) && MatchesCategory(c, f.category) && MatchesLevel(c, f.level) &&
    MatchesLocation(c, f.location)
  }

  /** `results.filter(keep)`: the kept elements, in order. */
  function FilterBy(s: seq<Course>, keep: Course -> bool): (r: seq<Course>)
    ensures forall c :: c in r <==> c in s && keep(c)
    ensures multiset(r) <= multiset(s)
  {
    if s == [] then []
    else
      var rest := FilterBy(s[1..], keep);
      assert s == [s[0]] + s[1..];
      if keep(s[0]) then [s[0]] + rest else rest
  }

  datatype SortOrder = PriceAsc | PriceDesc | ByRating | FeaturedFirst

  /** The `switch (sortOrder)`: an unrecognised id falls through to the featured order. */
  function ParseSortOrder(id: string): SortOrder {
    if id == "price-asc" then PriceAsc
    else if id == "price-desc" then PriceDesc
    else if id == "rating" then ByRating
    else FeaturedFirst
  }

  /** The number each comparator of the switch compares by: `compare(a, b) == Key(a) - Key(b)`, so
      sorting by the comparator is sorting by this key in non-decreasing order. */
  function Key(order: SortOrder, c: Course): int {
    match order
    case PriceAsc => c.price
    case PriceDesc => -c.price
    case ByRating => -c.rating
    case FeaturedFirst => if c.featured then 0 else 1
  }

  /** `s` is in non-decreasing order of `key`. */
  predicate SortedBy(s: seq<Course>, key: Course -> int) {
    forall p, q :: 0 <= p < q < |s| ==> key(s[p]) <= key(s[q])
  }

  /** What each sort order promises of the list shown. */
  predicate OrderedAs(s: seq<Course>, order: SortOrder) {
    match order
    case PriceAsc => forall p, q :: 0 <= p < q < |s| ==> s[p].price <= s[q].price
    case PriceDesc => forall p, q :: 0 <= p < q < |s| ==> s[p].price >= s[q].price
    case ByRating => forall p, q :: 0 <= p < q < |s| ==> s[p].rating >= s[q].rating
    case FeaturedFirst => forall p, q :: 0 <= p < q < |s| && s[q].featured ==> s[p].featured
  }

  lemma KeySortedIsOrdered(s: seq<Course>, order: SortOrder)
    requires SortedBy(s, c => Key(order, c))
    ensures OrderedAs(s, order)
  {
    if order == FeaturedFirst {
      forall p, q | 0 <= p < q < |s| && s[q].featured ensures s[p].featured {
        assert Key(order, s[p]) <= Key(order, s[q]);
      }
    }
  }

  /** `s[..n]` is in non-decreasing order of `key`. */
  predicate SortedUpTo(s: seq<Course>, n: int, key: Course -> int)
    requires n <= |s|
  {
    forall p, q :: 0 <= p < q < n ==> key(s[p]) <= key(s[q])
  }

  /** Halfway through inserting `s[i]` into the sorted `s[..i]`: it sits at `j`, the rest of `s[..i + 1]`
      is in order, and everything after `j` has a larger key. */
  ghost predicate Inserting(s: seq<Course>, i: int, j: int, key: Course -> int) {
    0 <= j <= i < |s| &&
    (forall p, q :: 0 <= p < q <= i && p != j && q != j ==> key(s[p]) <= key(s[q])) &&
    (forall q :: j < q <= i ==> key(s[j]) < key(s[q]))
  }

  /** One swap moves the inserted element one place down and keeps the insertion state. */
  lemma SwapDown(s: seq<Course>, i: int, j: int, key: Course -> int)
    requires Inserting(s, i, j, key) && j > 0 && key(s[j - 1]) > key(s[j])
    ensures Inserting(s[j - 1 := s[j]][j := s[j - 1]], i, j - 1, key)
  {
  }

  lemma SwapPermutes(s: seq<Course>, j: int)
    requires 0 < j < |s|
    ensures multiset(s[j - 1 := s[j]][j := s[j - 1]]) == multiset(s)
  {
  }

  /** One step of the insertion sort: `a[i]` is swapped down into the sorted prefix `a[..i]`. */
  method InsertInto(a: array<Course>, i: int, key: Course -> int)
    requires 0 <= i < a.Length
    requires SortedUpTo(a[..], i, key)
    modifies a
    ensures SortedUpTo(a[..], i + 1, key)
    ensures multiset(a[..]) == multiset(old(a[..]))
  {
    var j := i;
    while j > 0 && key(a[j - 1]) > key(a[j])
      invariant Inserting(a[..], i, j, key)
      invariant multiset(a[..]) == multiset(old(a[..]))
    {
      ghost var s := a[..];
      SwapDown(s, i, j, key);
      SwapPermutes(s, j);
      a[j - 1], a[j] := a[j], a[j - 1];
      assert a[..] == s[j - 1 := s[j]][j := s[j - 1]];
      j := j - 1;
    }
  }

  /** `results.sort(compare)`: an insertion sort by the order's key, in place. */
  method SortInPlace(a: array<Course>, key: Course -> int)
    modifies a
    ensures SortedBy(a[..], key)
    ensures multiset(a[..]) == multiset(old(a[..]))
  {
    var i := 0;
    while i < a.Length
      invariant 0 <= i <= a.Length
      invariant SortedUpTo(a[..], i, key)
      invariant multiset(a[..]) == multiset(old(a[..]))
    {
      InsertInto(a, i, key);
      i := i + 1;
    }
  }

  /** No course value occurs twice. */
  ghost predicate NoRepeats(s: seq<Course>) {
    forall c :: multiset(s)[c] <= 1
  }

  lemma {:induction false} DistinctNoRepeats(s: seq<Course>)
    requires forall p, q :: 0 <= p < q < |s| ==> s[p] != s[q]
    ensures NoRepeats(s)
  {
    if s != [] {
      DistinctNoRepeats(s[1..]);
      assert s == [s[0]] + s[1..];
      assert s[0] !in s[1..];
    }
  }

  lemma CoursesDataNoRepeats()
    ensures NoRepeats(CoursesData)
  {
    var s := CoursesData;
    forall p, q | 0 <= p < q < |s| ensures s[p] != s[q] {
      // The ids differ in length or in their last character.
      var a, b := s[p].id, s[q].id;
      assert |a| != |b| || a[|a| - 1] != b[|b| - 1];
    }
    DistinctNoRepeats(s);
  }

  /** The four filters of the page's `useEffect`, applied in turn to `results`: the search is skipped
      when the query is empty, each of the other three when its setting is `'all'`. */
  method Narrow(data: seq<Course>, f: Filters) returns (results: seq<Course>)
    ensures forall c :: c in results <==> c in data && Passes(c, f)
    ensures multiset(results) <= multiset(data)
  {
    results := data;
    if f.query != "" {
      results := FilterBy(results, c => MatchesSearch(c, f.query));
    }
    assert forall c :: c in results <==> c in data && MatchesSearch(c, f.query);
    ghost var searched := results;
    if f.category != "all" {
      results := FilterBy(results, c => MatchesCategory(c, f.category));
    }
    assert forall c :: c in results <==> c in searched && MatchesCategory(c, f.category);
    ghost var categorised := results;
    if f.level != "all" {
      results := FilterBy(results, c => MatchesLevel(c, f.level));
    }
    assert forall c :: c in results <==> c in categorised && MatchesLevel(c, f.level);
    ghost var levelled := results;
    if f.location != "all" {
      results := FilterBy(results, c => MatchesLocation(c, f.location));
    }
    assert forall c :: c in results <==> c in levelled && MatchesLocation(c, f.location);
  }

  /** A sub-multiset of a list without repeats has none either. */
  lemma SubNoRepeats(s: seq<Course>, t: seq<Course>)
    requires multiset(s) <= multiset(t) && NoRepeats(t)
    ensures NoRepeats(s)
  {
    forall c ensures multiset(s)[c] <= 1 {
      assert multiset(s)[c] <= multiset(t)[c];
    }
  }

  /** The list narrowed by the filters and sorted in place by the chosen order. */
  method FilterAndSort(data: seq<Course>, f: Filters) returns (shown: seq<Course>)
    ensures forall c :: c in shown <==> c in data && Passes(c, f)
    ensures multiset(shown) <= multiset(data)
    ensures OrderedAs(shown, ParseSortOrder(f.sortOrder))
  {
    var results := Narrow(data, f);
    var a := new Course[|results|](i requires 0 <= i < |results| => results[i]);
    assert a[..] == results;
    var order := ParseSortOrder(f.sortOrder);
    SortInPlace(a, c => Key(order, c));
    shown := a[..];
    assert forall c :: c in shown <==> c in results by {
      forall c ensures c in shown <==> c in results {
        assert c in shown <==> c in multiset(shown);
      }
    }
    KeySortedIsOrdered(shown, order);
  }

  /** The effect of the page's `useEffect`: a copy of the course list narrowed by the filters, then
      sorted in place by the chosen order; no course is shown twice. */
  method ApplyFilters(f: Filters) returns (shown: seq<Course>)
    ensures forall c :: c in shown <==> c in CoursesData && Passes(c, f)
    ensures multiset(shown) <= multiset(CoursesData)
    ensures NoRepeats(shown)
    ensures OrderedAs(shown, ParseSortOrder(f.sortOrder))
  {
    shown := FilterAndSort(CoursesData, f);
    CoursesDataNoRepeats();
    SubNoRepeats(shown, CoursesData);
  }

  /** The product `handleAddToCart` hands to the cart: the course's id, title, price and image. */
  function ProductOf(c: Course): (p: Product)
    ensures p.courseId == c.id && p.title == c.title && p.price == c.price && p.image == c.image
  {
    Product(c.id, c.title, c.price, c.image)
  }

  /** `handleAddToCart`: the cart's `addItem` with the course's own fields. */
  method HandleAddToCart(cart: CartStore, c: Course)
    requires cart.Valid()
    modifies cart
    ensures cart.Valid()
    ensures cart.items == AddedItems(old(cart.items), ProductOf(c))
    ensures cart.IsInCart(c.id)
  {
    cart.AddItem(ProductOf(c));
  }
}
