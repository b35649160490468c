/**
 * The listing of the catalogue page (src/pages/Products.tsx): the store's
 * products filtered by the route's category, then by the search term, then
 * sorted by the chosen option. The source sorts a fresh copy, so the listing
 * is a function of the product list, the category, the term and the option.
 */
module Products {
  import opened Wrappers
  import opened ProductService
  import opened Search

  datatype SortOrder = Newest | PriceLowHigh | PriceHighLow

  /** The `switch (sortOption)`: any other value leaves the order as it is. */
  function ParseSortOption(option: string): Option<SortOrder>
  {
    if option == "newest" then Some(Newest)
    else if option == "price-low-high" then Some(PriceLowHigh)
    else if option == "price-high-low" then Some(PriceHighLow)
    else None
  }

  /** Each comparator as an ascending integer key: `b - a` sorts by the negated key. */
  function SortKey(p: Product, o: SortOrder): int
  {
    match o
    case Newest => -p.createdAt
    case PriceLowHigh => EffectivePrice(p)
    case PriceHighLow => -EffectivePrice(p)
  }

  ghost predicate SortedBy(s: seq<Product>, o: SortOrder)
  {
    forall i, j :: 0 <= i < j < |s| ==> SortKey(s[i], o) <= SortKey(s[j], o)
  }

  /**
   * Insert `x` before the first element whose key is not smaller; `x` goes
   * in front of the elements with an equal key, which keeps the sort stable,
   * as Array.prototype.sort is.
   */
  function Insert(x: Product, s: seq<Product>, o: SortOrder): (r: seq<Product>)
    ensures multiset(r) == multiset(s) + multiset{x}
  {
    if s == [] then [x]
    else if SortKey(x, o) <= SortKey(s[0], o) then [x] + s
    else
      assert s == [s[0]] + s[1..];
      [s[0]] + Insert(x, s[1..], o)
  }

  function SortProducts(s: seq<Product>, o: SortOrder): (r: seq<Product>)
    ensures multiset(r) == multiset(s)
  {
    if s == [] then []
    else
      assert s == [s[0]] + s[1..];
      Insert(s[0], SortProducts(s[1..], o), o)
  }

  /** Every element of Insert(x, s, o) is x or an element of s, so a lower bound of both bounds it. */
  lemma InsertBound(x: Product, s: seq<Product>, o: SortOrder, b: int)
    requires b <= SortKey(x, o)
    requires forall j :: 0 <= j < |s| ==> b <= SortKey(s[j], o)
    ensures forall j :: 0 <= j < |Insert(x, s, o)| ==> b <= SortKey(Insert(x, s, o)[j], o)
  {
    var r := Insert(x, s, o);
    forall j | 0 <= j < |r| ensures b <= SortKey(r[j], o) {
      assert r[j] in multiset(r);
      if r[j] != x {
        assert r[j] in multiset(s);
        var m :| 0 <= m < |s| && s[m] == r[j];
      }
    }
  }

  lemma {:induction false} InsertSorted(x: Product, s: seq<Product>, o: SortOrder)
    requires SortedBy(s, o)
    ensures SortedBy(Insert(x, s, o), o)
  {
    if s != [] && SortKey(x, o) > SortKey(s[0], o) {
      var tail := s[1..];
      var rest := Insert(x, tail, o);
      assert SortedBy(tail, o);
      InsertSorted(x, tail, o);
      assert forall j :: 0 <= j < |tail| ==> SortKey(s[0], o) <= SortKey(tail[j], o) by {
        forall j | 0 <= j < |tail| ensures SortKey(s[0], o) <= SortKey(tail[j], o) {
          assert tail[j] == s[j + 1];
        }
      }
      InsertBound(x, tail, o, SortKey(s[0], o));
      var r := [s[0]] + rest;
      forall i, j | 0 <= i < j < |r| ensures SortKey(r[i], o) <= SortKey(r[j], o) {
        assert r[j] == rest[j - 1];
        if i > 0 {
          assert r[i] == rest[i - 1];
        }
      }
    }
  }

  /** The sort of each option orders by its key and is a permutation of its input. */
  lemma {:induction false} SortProductsSorted(s: seq<Product>, o: SortOrder)
    ensures SortedBy(SortProducts(s, o), o)
    ensures multiset(SortProducts(s, o)) == multiset(s)
  {
    if s != [] {
      SortProductsSorted(s[1..], o);
      InsertSorted(s[0], SortProducts(s[1..], o), o);
    }
  }

  /** `product.category === category`, with the route's category as a string. */
  function FilterCategory(ps: seq<Product>, category: string): (r: seq<Product>)
    ensures forall p :: p in r <==> p in ps && CategoryName(p.category) == category
    ensures multiset(r) <= multiset(ps)
  {
    if ps == [] then []
    else
      assert ps == [ps[0]] + ps[1..];
      (if CategoryName(ps[0].category) == category then [ps[0]] else []) + FilterCategory(ps[1..], category)
  }

  lemma {:induction false} FilterCategoryAppend(a: seq<Product>, b: seq<Product>, category: string)
    ensures FilterCategory(a + b, category) == FilterCategory(a, category) + FilterCategory(b, category)
  {
    if a == [] {
      assert a + b == b;
    } else {
      var head := if CategoryName(a[0].category) == category then [a[0]] else [];
      TailOfAppend(a, b);
      FilterCategoryAppend(a[1..], b, category);
      ConsAppend(head, FilterCategory(a[1..], category), FilterCategory(b, category),
                 FilterCategory(a, category), FilterCategory(a + b, category));
    }
  }

  /** The category step, then the search step, before any sorting. */
  function Filtered(ps: seq<Product>, category: string, term: string): seq<Product>
  {
    var byCategory := if category != "todos" then FilterCategory(ps, category) else ps;
    if term != "" then SearchFilter(byCategory, term) else byCategory
  }

  /** The list the page shows. */
  function Listing(ps: seq<Product>, category: string, term: string, option: string): seq<Product>
  {
    var filtered := Filtered(ps, category, term);
    match ParseSortOption(option)
    case Some(o) => SortProducts(filtered, o)
    case None => filtered
  }

  /** A store product passes both filters. */
  predicate Passes(p: Product, category: string, term: string)
  {
    (category == "todos" || CategoryName(p.category) == category) &&
    (term == "" || MatchesSearch(p, term))
  }

  /**
   * The listing holds exactly the store products that pass both filters
   * (every listed product is a store product that passes, and every store
   * product that passes is listed), and it is a permutation of the filtered
   * list, which itself takes no product more often than the store holds it.
   */
  lemma ListingMembers(ps: seq<Product>, category: string, term: string, option: string)
    ensures forall p :: p in Listing(ps, category, term, option) <==> p in ps && Passes(p, category, term)
    ensures multiset(Listing(ps, category, term, option)) == multiset(Filtered(ps, category, term))
    ensures multiset(Listing(ps, category, term, option)) <= multiset(ps)
  {
    var filtered := Filtered(ps, category, term);
    var byCategory := if category != "todos" then FilterCategory(ps, category) else ps;
    assert multiset(filtered) <= multiset(byCategory) <= multiset(ps);
    match ParseSortOption(option)
    case Some(o) =>
      SortProductsSorted(filtered, o);
      forall p ensures p in SortProducts(filtered, o) <==> p in filtered {
        assert p in SortProducts(filtered, o) <==> p in multiset(SortProducts(filtered, o));
        assert p in filtered <==> p in multiset(filtered);
      }
    case None =>
  }

  /**
   * Each filter does what it says: a category other than "todos" keeps only
   * that category, "todos" keeps everything; a non-empty term keeps only
   * matching products, the empty term keeps everything.
   */
  lemma Filters(ps: seq<Product>, category: string, term: string)
    ensures category != "todos" ==>
      forall p :: p in Filtered(ps, category, term) ==> CategoryName(p.category) == category
    ensures term != "" ==> forall p :: p in Filtered(ps, category, term) ==> MatchesSearch(p, term)
    ensures Filtered(ps, "todos", "") == ps
  {
  }

  /** Filtering keeps the store's insertion order: it distributes over concatenation. */
  lemma FilteredAppend(a: seq<Product>, b: seq<Product>, category: string, term: string)
    ensures Filtered(a + b, category, term) == Filtered(a, category, term) + Filtered(b, category, term)
  {
    FilterCategoryAppend(a, b, category);
    var ca := if category != "todos" then FilterCategory(a, category) else a;
    var cb := if category != "todos" then FilterCategory(b, category) else b;
    SearchFilterAppend(ca, cb, term);
  }

  /**
   * "newest" lists the most recent first; "price-low-high" lists by
   * non-decreasing effective price and "price-high-low" by non-increasing
   * effective price; any other option keeps the filtered order.
   */
  lemma ListingOrder(ps: seq<Product>, category: string, term: string, option: string)
    ensures var l := Listing(ps, category, term, option);
      && (option == "newest" ==>
            forall i, j :: 0 <= i < j < |l| ==> l[i].createdAt >= l[j].createdAt)
      && (option == "price-low-high" ==>
            forall i, j :: 0 <= i < j < |l| ==> EffectivePrice(l[i]) <= EffectivePrice(l[j]))
      && (option == "price-high-low" ==>
            forall i, j :: 0 <= i < j < |l| ==> EffectivePrice(l[i]) >= EffectivePrice(l[j]))
      && (ParseSortOption(option).None? ==> l == Filtered(ps, category, term))
  {
    var filtered := Filtered(ps, category, term);
    match ParseSortOption(option)
    case Some(o) =>
      SortProductsSorted(filtered, o);
    case None =>
  }
}
