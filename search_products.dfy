/** Product search over the fixed mock catalogue of the three stores. */
module SearchProducts {
  import opened Wrappers
  import opened Seqs
  import opened Strings
  import opened Business

  datatype SearchProduct = SearchProduct(
    id: string,
    title: string,
    price: real,
    currency: string,
    image: string,
    store: Store,
    rating: real,
    reviews: int,
    url: string,
    inStock: bool)

  // The mock catalogue, one constant per product.
  const Sh1: SearchProduct :=
    SearchProduct("sh1", "Vestido Floral de Verano", 29.99, "USD",
                  "https://images.unsplash.com/photo-1595777457583-95e059d581b8?w=400", Shein, 4.5, 1234,
                  "https://www.shein.com/product1", true)
  const Sh2: SearchProduct :=
    SearchProduct("sh2", "Blusa Casual Elegante", 19.99, "USD",
                  "https://images.unsplash.com/photo-1564257577-86fb8bc1677a?w=400", Shein, 4.3, 856,
                  "https://www.shein.com/product2", true)
  const Sh3: SearchProduct :=
    SearchProduct("sh3", "Pantalones Deportivos", 24.99, "USD",
                  "https://images.unsplash.com/photo-1517649763962-0c623066013b?w=400", Shein, 4.7, 2341,
                  "https://www.shein.com/product3", true)
  const SheinResults: seq<SearchProduct> := [Sh1, Sh2, Sh3]

  const Am1: SearchProduct :=
    SearchProduct("am1", "Smartwatch Deportivo", 89.99, "USD",
                  "https://images.unsplash.com/photo-1523275335684-37898b6baf30?w=400", Amazon, 4.6, 5678,
                  "https://www.amazon.com/product1", true)
  const Am2: SearchProduct :=
    SearchProduct("am2", "Auriculares Bluetooth", 49.99, "USD",
                  "https://images.unsplash.com/photo-1505740420928-5e560c06d30e?w=400", Amazon, 4.4, 3421,
                  "https://www.amazon.com/product2", true)
  const Am3: SearchProduct :=
    SearchProduct("am3", "Teclado Mecánico RGB", 129.99, "USD",
                  "https://images.unsplash.com/photo-1587829741301-dc798b83add3?w=400", Amazon, 4.8, 8765,
                  "https://www.amazon.com/product3", true)
  const AmazonResults: seq<SearchProduct> := [Am1, Am2, Am3]

  const Al1: SearchProduct :=
    SearchProduct("al1", "Funda para iPhone 14", 9.99, "USD",
                  "https://images.unsplash.com/photo-1601593346740-925612772716?w=400", Aliexpress, 4.2, 9876,
                  "https://www.aliexpress.com/product1", true)
  const Al2: SearchProduct :=
    SearchProduct("al2", "Lámpara LED Inteligente", 34.99, "USD",
                  "https://images.unsplash.com/photo-1513506003901-1e6a229e2d15?w=400", Aliexpress, 4.5, 6543,
                  "https://www.aliexpress.com/product2", true)
  const Al3: SearchProduct :=
    SearchProduct("al3", "Power Bank 20000mAh", 24.99, "USD",
                  "https://images.unsplash.com/photo-1609091839311-d5365f9ff1c5?w=400", Aliexpress, 4.6, 4321,
                  "https://www.aliexpress.com/product3", true)
  const AliexpressResults: seq<SearchProduct> := [Al1, Al2, Al3]

  /** The mock list of one store. */
  function MockResults(store: Store): (r: seq<SearchProduct>)
    ensures |r| == 3
    ensures forall i :: 0 <= i < |r| ==> r[i].store == store
  {
    match store
    case Shein => SheinResults
    case Amazon => AmazonResults
    case Aliexpress => AliexpressResults
  }

  /** The candidates: the given store's list, or all three lists in the order Shein, Amazon, AliExpress. */
  function Candidates(store: Option<Store>): (r: seq<SearchProduct>)
    ensures store.Some? ==> r == MockResults(store.value)
    ensures store.None? ==> r == MockResults(Shein) + MockResults(Amazon) + MockResults(Aliexpress)
    ensures |r| == if store.Some? then 3 else 9
  {
    if store.Some? then MockResults(store.value)
    else SheinResults + AmazonResults + AliexpressResults
  }

  /** The title lower-cased contains the query lower-cased (the query is not trimmed here). */
  predicate TitleMatches(p: SearchProduct, query: string)
  {
    Includes(Lower(p.title), Lower(query))
  }

  /**
   * The result of `searchProducts(query, store)`: a blank query (empty once trimmed) keeps
   * every candidate; otherwise the candidates whose title matches, in candidate order.
   */
  function SearchResults(query: string, store: Option<Store>): (r: seq<SearchProduct>)
    ensures AllWhitespace(query) ==> r == Candidates(store)
    ensures !AllWhitespace(query) ==> forall p :: p in r <==> p in Candidates(store) && TitleMatches(p, query)
    ensures IsSubsequence(r, Candidates(store))
    ensures |r| <= |Candidates(store)|
  {
    var candidates := Candidates(store);
    if Trim(query) == [] then
      SubsequenceOfItself(candidates);
      candidates
    else Filter(candidates, MatchesQuery(query))
  }

  /** The filter test `searchProducts` applies for a query. */
  function MatchesQuery(query: string): SearchProduct -> bool
  {
    (p: SearchProduct) => TitleMatches(p, query)
  }

  lemma {:induction false} SubsequenceOfItself(s: seq<SearchProduct>)
    ensures IsSubsequence(s, s)
  {
    if s != [] {
      SubsequenceOfItself(s[1..]);
    }
  }

  /** At most three results for one store, at most nine over all stores. */
  lemma ResultBounds(query: string, store: Option<Store>)
    ensures |SearchResults(query, store)| <= if store.Some? then 3 else 9
  {
  }

  /** With a store given, every result comes from that store. */
  lemma ResultsFromChosenStore(query: string, store: Store, p: SearchProduct)
    requires p in SearchResults(query, Some(store))
    ensures p.store == store
  {
    SubsequenceMember(SearchResults(query, Some(store)), Candidates(Some(store)), p);
  }

  lemma {:induction false} SubsequenceMember(xs: seq<SearchProduct>, ys: seq<SearchProduct>, x: SearchProduct)
    requires IsSubsequence(xs, ys) && x in xs
    ensures x in ys
    decreases |ys|
  {
    if xs[0] == ys[0] && IsSubsequence(xs[1..], ys[1..]) {
      if x != xs[0] {
        SubsequenceMember(xs[1..], ys[1..], x);
      }
    } else {
      SubsequenceMember(xs, ys[1..], x);
    }
  }

  /** Searching ignores the letter case of the query. */
  lemma QueryCaseIgnored(query: string, store: Option<Store>)
    ensures SearchResults(Lower(query), store) == SearchResults(query, store)
  {
    LowerKeepsBlank(query);
    if !AllWhitespace(query) {
      LowerIdempotent(query);
      FilterSame(Candidates(store), MatchesQuery(Lower(query)), MatchesQuery(query));
    }
  }

  /** The search page: the last results shown. */
  class ProductSearch {
    var results: seq<SearchProduct>

    constructor()
      ensures results == []
    {
      results := [];
    }

    method SearchProducts(query: string, store: Option<Store>) returns (searchResults: seq<SearchProduct>)
      modifies this
      ensures searchResults == SearchResults(query, store)
      ensures results == searchResults
    {
      searchResults := [];
      if store.Some? {
        searchResults := MockResults(store.value);
      } else {
        searchResults := SheinResults + AmazonResults + AliexpressResults;
      }
      if Trim(query) != [] {
        searchResults := Filter(searchResults, MatchesQuery(query));
      }
      results := searchResults;
    }

    method ClearResults()
      modifies this
      ensures results == []
    {
      results := [];
    }
  }
}
