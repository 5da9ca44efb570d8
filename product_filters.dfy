/**
 * Catalogue filters: optional price bounds, store, stock and minimum rating, and an
 * optional sort order; applying them keeps the matching products and sorts a copy.
 */
module ProductFilters {
  import opened Wrappers
  import opened Seqs
  import Business

  datatype SortOrder = PriceAsc | PriceDesc | ByRating | ByReviews

  /** Each field is either absent (`None`) or set. */
  datatype Filters = Filters(
    minPrice: Option<real>,
    maxPrice: Option<real>,
    store: Option<Business.Store>,
    inStock: Option<bool>,
    minRating: Option<real>,
    sortBy: Option<SortOrder>)

  /** The state after `clearFilters`, and the initial one. */
  const NoFilters: Filters := Filters(None, None, None, None, None, None)

  datatype FilterableProduct = FilterableProduct(
    id: string,
    title: string,
    price: real,
    store: Business.Store,
    rating: real,
    reviews: int,
    inStock: bool)

  /** The field names of `Filters`. */
  datatype FilterKey = MinPriceKey | MaxPriceKey | StoreKey | InStockKey | MinRatingKey | SortOrderKey

  /** `updateFilter(key, value)`: one field and its new value, possibly absent. */
  datatype FilterUpdate =
    | SetMinPrice(minPrice: Option<real>)
    | SetMaxPrice(maxPrice: Option<real>)
    | SetStore(store: Option<Business.Store>)
    | SetInStock(inStock: Option<bool>)
    | SetMinRating(minRating: Option<real>)
    | SetSortBy(sortBy: Option<SortOrder>)

  function KeyOf(u: FilterUpdate): FilterKey
  {
    match u
    case SetMinPrice(_) => MinPriceKey
    case SetMaxPrice(_) => MaxPriceKey
    case SetStore(_) => StoreKey
    case SetInStock(_) => InStockKey
    case SetMinRating(_) => MinRatingKey
    case SetSortBy(_) => SortOrderKey
  }

  /** The field the update names holds the update's value in `f`. */
  predicate Carries(f: Filters, u: FilterUpdate)
  {
    match u
    case SetMinPrice(v) => f.minPrice == v
    case SetMaxPrice(v) => f.maxPrice == v
    case SetStore(v) => f.store == v
    case SetInStock(v) => f.inStock == v
    case SetMinRating(v) => f.minRating == v
    case SetSortBy(v) => f.sortBy == v
  }

  /** `f` and `g` agree on every field except possibly `key`. */
  predicate AgreeExcept(f: Filters, g: Filters, key: FilterKey)
  {
    (key != MinPriceKey ==> g.minPrice == f.minPrice) &&
    (key != MaxPriceKey ==> g.maxPrice == f.maxPrice) &&
    (key != StoreKey ==> g.store == f.store) &&
    (key != InStockKey ==> g.inStock == f.inStock) &&
    (key != MinRatingKey ==> g.minRating == f.minRating) &&
    (key != SortOrderKey ==> g.sortBy == f.sortBy)
  }

  /** `updateFilter`: the named field takes the value and no other field changes. */
  function Updated(f: Filters, u: FilterUpdate): (g: Filters)
    ensures Carries(g, u)
    ensures AgreeExcept(f, g, KeyOf(u))
  {
    match u
    case SetMinPrice(v) => f.(minPrice := v)
    case SetMaxPrice(v) => f.(maxPrice := v)
    case SetStore(v) => f.(store := v)
    case SetInStock(v) => f.(inStock := v)
    case SetMinRating(v) => f.(minRating := v)
    case SetSortBy(v) => f.(sortBy := v)
  }

  function Flag(b: bool): nat { if b then 1 else 0 }

  /** `getActiveFiltersCount`: the number of fields that are set. */
  function ActiveFiltersCount(f: Filters): (n: nat)
    ensures n <= 6
    ensures n == 0 <==> f == NoFilters
  {
    Flag(f.minPrice.Some?) + Flag(f.maxPrice.Some?) + Flag(f.store.Some?) +
    Flag(f.inStock.Some?) + Flag(f.minRating.Some?) + Flag(f.sortBy.Some?)
  }

  /** Setting a field that was absent adds one to the count; clearing a set one removes one. */
  lemma UpdateChangesCountByOne(f: Filters, u: FilterUpdate)
    ensures !IsSet(f, KeyOf(u)) && IsSet(Updated(f, u), KeyOf(u)) ==>
              ActiveFiltersCount(Updated(f, u)) == ActiveFiltersCount(f) + 1
    ensures IsSet(f, KeyOf(u)) && !IsSet(Updated(f, u), KeyOf(u)) ==>
              ActiveFiltersCount(Updated(f, u)) + 1 == ActiveFiltersCount(f)
  {
  }

  predicate IsSet(f: Filters, key: FilterKey)
  {
    match key
    case MinPriceKey => f.minPrice.Some?
    case MaxPriceKey => f.maxPrice.Some?
    case StoreKey => f.store.Some?
    case InStockKey => f.inStock.Some?
    case MinRatingKey => f.minRating.Some?
    case SortOrderKey => f.sortBy.Some?
  }

  /** Test number `k` of the five `applyFilters` runs, in its order; an absent field passes everything. */
  predicate StageTest(f: Filters, p: FilterableProduct, k: nat)
  {
    if k == 1 then f.minPrice.Some? ==> p.price >= f.minPrice.value
    else if k == 2 then f.maxPrice.Some? ==> p.price <= f.maxPrice.value
    else if k == 3 then f.store.Some? ==> p.store == f.store.value
    else if k == 4 then f.inStock.Some? ==> p.inStock == f.inStock.value
    else if k == 5 then f.minRating.Some? ==> p.rating >= f.minRating.value
    else true
  }

  /** The first `k` tests together. */
  predicate Stage(f: Filters, p: FilterableProduct, k: nat)
  {
    if k == 0 then true else Stage(f, p, k - 1) && StageTest(f, p, k)
  }

  /** A product passes every filter that is set; both price bounds are inclusive. */
  predicate Matches(f: Filters, p: FilterableProduct)
    ensures Matches(f, p) <==>
      (f.minPrice.Some? ==> p.price >= f.minPrice.value) &&
      (f.maxPrice.Some? ==> p.price <= f.maxPrice.value) &&
      (f.store.Some? ==> p.store == f.store.value) &&
      (f.inStock.Some? ==> p.inStock == f.inStock.value) &&
      (f.minRating.Some? ==> p.rating >= f.minRating.value)
  {
    assert Stage(f, p, 5) == (Stage(f, p, 4) && StageTest(f, p, 5));
    assert Stage(f, p, 4) == (Stage(f, p, 3) && StageTest(f, p, 4));
    assert Stage(f, p, 3) == (Stage(f, p, 2) && StageTest(f, p, 3));
    assert Stage(f, p, 2) == (Stage(f, p, 1) && StageTest(f, p, 2));
    assert Stage(f, p, 1) == StageTest(f, p, 1);
    Stage(f, p, 5)
  }

  /** The value sorted on: ascending price, or descending price, rating or review count. */
  function SortKey(order: SortOrder, p: FilterableProduct): real
  {
    match order
    case PriceAsc => p.price
    case PriceDesc => -p.price
    case ByRating => -p.rating
    case ByReviews => -(p.reviews as real)
  }

  /** The sort key of `order` on records viewed as products. */
  function OrderKey<T>(order: SortOrder, view: T -> FilterableProduct): T -> real
  {
    (x: T) => SortKey(order, view(x))
  }

  /** `s` is in the order `order` asks for. */
  ghost predicate SortedFor<T>(s: seq<T>, view: T -> FilterableProduct, order: SortOrder)
  {
    SortedBy(s, OrderKey(order, view))
  }

  /** What sortedness by `SortKey` means for each order. */
  lemma SortedMeans<T>(s: seq<T>, view: T -> FilterableProduct, order: SortOrder, i: nat, j: nat)
    requires SortedFor(s, view, order)
    requires i < j < |s|
    ensures order == PriceAsc ==> view(s[i]).price <= view(s[j]).price
    ensures order == PriceDesc ==> view(s[i]).price >= view(s[j]).price
    ensures order == ByRating ==> view(s[i]).rating >= view(s[j]).rating
    ensures order == ByReviews ==> view(s[i]).reviews >= view(s[j]).reviews
  {
    assert SortKey(order, view(s[i])) <= SortKey(order, view(s[j]));
  }

  /** The survivors of the first `k` tests, in input order. */
  function Survivors<T(!new)>(products: seq<T>, view: T -> FilterableProduct, f: Filters, k: nat): seq<T>
  {
    Filter(products, (x: T) => Stage(f, view(x), k))
  }

  /**
   * The products that pass every set filter, each as often as in the input, in input
   * order: the reference result of `applyFilters` before sorting.
   */
  function Matching<T(!new)>(products: seq<T>, view: T -> FilterableProduct, f: Filters): (r: seq<T>)
    ensures forall x :: x in r <==> x in products && Matches(f, view(x))
    ensures forall x :: multiset(r)[x] == if Matches(f, view(x)) then multiset(products)[x] else 0
    ensures IsSubsequence(r, products)
  {
    Filter(products, (x: T) => Matches(f, view(x)))
  }

  lemma NoTestsKeepAll<T(!new)>(products: seq<T>, view: T -> FilterableProduct, f: Filters)
    ensures Survivors(products, view, f, 0) == products
  {
    FilterKeepsAll(products, (x: T) => Stage(f, view(x), 0));
  }

  lemma AllTestsMatch<T(!new)>(products: seq<T>, view: T -> FilterableProduct, f: Filters)
    ensures Survivors(products, view, f, 5) == Matching(products, view, f)
  {
    FilterSame(products, (x: T) => Stage(f, view(x), 5), (x: T) => Matches(f, view(x)));
  }

  /** Running test `k` on the survivors of the first `k - 1` tests leaves the survivors of the first `k`. */
  lemma NarrowStage<T(!new)>(products: seq<T>, view: T -> FilterableProduct, f: Filters, k: nat, test: T -> bool)
    requires 1 <= k
    requires forall x :: test(x) == StageTest(f, view(x), k)
    ensures Filter(Survivors(products, view, f, k - 1), test) == Survivors(products, view, f, k)
  {
    FilterThenFilter(products, (x: T) => Stage(f, view(x), k - 1), test, (x: T) => Stage(f, view(x), k));
  }

  /** A test whose field is absent removes nothing. */
  lemma SkipStage<T(!new)>(products: seq<T>, view: T -> FilterableProduct, f: Filters, k: nat)
    requires 1 <= k
    requires forall p :: StageTest(f, p, k)
    ensures Survivors(products, view, f, k - 1) == Survivors(products, view, f, k)
  {
    FilterSame(products, (x: T) => Stage(f, view(x), k - 1), (x: T) => Stage(f, view(x), k));
  }

  lemma {:induction false} FilterKeepsAll<T(!new)>(s: seq<T>, p: T -> bool)
    requires forall x :: p(x)
    ensures Filter(s, p) == s
  {
    if s != [] {
      FilterKeepsAll(s[1..], p);
    }
  }

  /** Every key's products keep their order through the sort. */
  lemma SortIsStable<T>(s: seq<T>, key: T -> real)
    ensures forall v :: OfKey(SortByKey(s, key), key, v) == OfKey(s, key, v)
  {
    forall v ensures OfKey(SortByKey(s, key), key, v) == OfKey(s, key, v) {
      SortByKeyStable(s, key, v);
    }
  }

  /** The filter state of a catalogue view. */
  class FilterState {
    var filters: Filters

    constructor()
      ensures filters == NoFilters
    {
      filters := NoFilters;
    }

    method UpdateFilter(u: FilterUpdate)
      modifies this
      ensures filters == Updated(old(filters), u)
    {
      filters := Updated(filters, u);
    }

    method ClearFilters()
      modifies this
      ensures filters == NoFilters && ActiveFiltersCount(filters) == 0
    {
      filters := NoFilters;
    }

    function GetActiveFiltersCount(): (n: nat)
      reads this
      ensures n == 0 <==> filters == NoFilters
    {
      ActiveFiltersCount(filters)
    }

    /**
     * `applyFilters`: it narrows a copy of the input test by test, then sorts it when a sort
     * order is set. The result holds exactly the matching products, each as often as in the
     * input; without a sort order it is in input order, with one it is sorted, and the sort
     * is stable: products with equal keys keep their input order. The products are any
     * records that can be viewed as `FilterableProduct`.
     */
    method ApplyFilters<T(!new)>(products: seq<T>, view: T -> FilterableProduct) returns (filtered: seq<T>)
      ensures multiset(filtered) == multiset(Matching(products, view, filters))
      ensures filters.sortBy.None? ==> filtered == Matching(products, view, filters)
      ensures filters.sortBy.Some? ==> SortedFor(filtered, view, filters.sortBy.value)
      ensures filters.sortBy.Some? ==>
                forall v :: OfKey(filtered, OrderKey(filters.sortBy.value, view), v) ==
                            OfKey(Matching(products, view, filters), OrderKey(filters.sortBy.value, view), v)
    {
      var f := filters;
      filtered := products;
      NoTestsKeepAll(products, view, f);
      if f.minPrice.Some? {
        var minPrice := f.minPrice.value;
        var test := (x: T) => view(x).price >= minPrice;
        NarrowStage(products, view, f, 1, test);
        filtered := Filter(filtered, test);
      } else {
        SkipStage(products, view, f, 1);
      }
      if f.maxPrice.Some? {
        var maxPrice := f.maxPrice.value;
        var test := (x: T) => view(x).price <= maxPrice;
        NarrowStage(products, view, f, 2, test);
        filtered := Filter(filtered, test);
      } else {
        SkipStage(products, view, f, 2);
      }
      if f.store.Some? {
        var store := f.store.value;
        var test := (x: T) => view(x).store == store;
        NarrowStage(products, view, f, 3, test);
        filtered := Filter(filtered, test);
      } else {
        SkipStage(products, view, f, 3);
      }
      if f.inStock.Some? {
        var inStock := f.inStock.value;
        var test := (x: T) => view(x).inStock == inStock;
        NarrowStage(products, view, f, 4, test);
        filtered := Filter(filtered, test);
      } else {
        SkipStage(products, view, f, 4);
      }
      if f.minRating.Some? {
        var minRating := f.minRating.value;
        var test := (x: T) => view(x).rating >= minRating;
        NarrowStage(products, view, f, 5, test);
        filtered := Filter(filtered, test);
      } else {
        SkipStage(products, view, f, 5);
      }
      AllTestsMatch(products, view, f);
      if f.sortBy.Some? {
        SortIsStable(filtered, OrderKey(f.sortBy.value, view));
        filtered := SortByKey(filtered, OrderKey(f.sortBy.value, view));
      }
    }
  }
}
