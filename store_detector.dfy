/**
 * Store recognition from a product URL, the simulated product extraction that follows it,
 * and affiliate-link formatting.
 */
module StoreDetector {
  import opened Wrappers
  import opened Strings
  import opened Business

  /**
   * `detectStore`: on the lower-cased URL, Shein if it mentions "shein", else Amazon if it
   * mentions "amazon", else AliExpress if it mentions "aliexpress", else nothing. (The
   * tests for the names followed by ".com" are subsumed by the bare names.)
   */
  function DetectStore(url: string): (r: Option<Store>)
    ensures r == Some(Shein) <==> Includes(Lower(url), "shein")
    ensures r == Some(Amazon) <==> !Includes(Lower(url), "shein") && Includes(Lower(url), "amazon")
    ensures r == Some(Aliexpress) <==>
              !Includes(Lower(url), "shein") && !Includes(Lower(url), "amazon") && Includes(Lower(url), "aliexpress")
    ensures r.None? <==>
              !Includes(Lower(url), "shein") && !Includes(Lower(url), "amazon") && !Includes(Lower(url), "aliexpress")
  {
    var urlLower := Lower(url);
    assert "shein" + ".com" == "shein.com" && "amazon" + ".com" == "amazon.com";
    assert "aliexpress" + ".com" == "aliexpress.com";
    DotComSubsumed(urlLower, "shein");
    DotComSubsumed(urlLower, "amazon");
    DotComSubsumed(urlLower, "aliexpress");
    if Includes(urlLower, "shein.com") || Includes(urlLower, "shein") then Some(Shein)
    else if Includes(urlLower, "amazon.com") || Includes(urlLower, "amazon") then Some(Amazon)
    else if Includes(urlLower, "aliexpress.com") || Includes(urlLower, "aliexpress") then Some(Aliexpress)
    else None
  }

  /** A text that mentions `name.com` mentions `name`. */
  lemma DotComSubsumed(s: string, name: string)
    ensures Includes(s, name + ".com") ==> Includes(s, name)
  {
    if Includes(s, name + ".com") {
      IncludesPrefixOf(s, name, ".com");
    }
  }

  /** Detection ignores letter case: lower-casing the URL first changes nothing. */
  lemma DetectIgnoresCase(url: string)
    ensures DetectStore(Lower(url)) == DetectStore(url)
  {
    LowerIdempotent(url);
  }

  /** Two URLs that differ only in letter case go to the same store. */
  lemma SameLowerSameStore(a: string, b: string)
    requires Lower(a) == Lower(b)
    ensures DetectStore(a) == DetectStore(b)
  {
  }

  /** The product data `extractProductFromUrl` returns. */
  datatype ProductData = ProductData(
    title: string,
    price: real,
    image: string,
    description: string,
    variants: seq<string>)

  // The fixed record for each store, one constant each.
  const SheinProduct: ProductData :=
    ProductData("Vestido Floral de Verano - Estilo Casual", 29.99,
                "https://images.unsplash.com/photo-1595777457583-95e059d581b8?w=400",
                "Hermoso vestido floral perfecto para el verano. Material ligero y cómodo con diseño moderno.",
                ["S", "M", "L", "XL"])

  const AmazonProduct: ProductData :=
    ProductData("Smartwatch Deportivo con GPS", 89.99,
                "https://images.unsplash.com/photo-1523275335684-37898b6baf30?w=400",
                "Reloj inteligente con monitor de frecuencia cardíaca, GPS integrado y resistencia al agua.",
                ["Negro", "Azul", "Rosa"])

  const AliexpressProduct: ProductData :=
    ProductData("Lámpara LED Inteligente RGB", 34.99,
                "https://images.unsplash.com/photo-1513506003901-1e6a229e2d15?w=400",
                "Lámpara LED con control remoto, múltiples colores y compatible con asistentes de voz.",
                ["Blanco", "Negro"])

  /** The fixed record for each store. */
  function MockProduct(store: Store): (d: ProductData)
    ensures store == Shein ==> d.price == 29.99 && |d.variants| == 4
    ensures store == Amazon ==> d.price == 89.99 && |d.variants| == 3
    ensures store == Aliexpress ==> d.price == 34.99 && |d.variants| == 2
  {
    match store
    case Shein => SheinProduct
    case Amazon => AmazonProduct
    case Aliexpress => AliexpressProduct
  }

  /** `extractProductFromUrl`: nothing for an unknown store, otherwise that store's fixed record. */
  function ExtractProductFromUrl(url: string): (r: Option<ProductData>)
    ensures r.None? <==> DetectStore(url).None?
    ensures r.Some? ==> r.value == MockProduct(DetectStore(url).value)
  {
    var store := DetectStore(url);
    if store.None? then None else Some(MockProduct(store.value))
  }

  const SheinBase: string := "https://affiliate.shein.com/track"
  const AmazonBase: string := "https://www.amazon.com"
  const AliexpressBase: string := "https://s.click.aliexpress.com"

  function BaseUrl(store: Store): string
  {
    match store
    case Shein => SheinBase
    case Amazon => AmazonBase
    case Aliexpress => AliexpressBase
  }

  /**
   * The affiliate query for each store; `randomPart` stands for the random base-36 digits
   * Shein and AliExpress use. Amazon's tag is fixed.
   */
  function AffiliateId(store: Store, randomPart: string): string
  {
    match store
    case Shein => "aff_sh_" + randomPart
    case Amazon => "tag=casillero-20"
    case Aliexpress => "aff_trace_key=" + randomPart
  }

  /** `generateAffiliateLink`: `<base>/<productId>?<affiliate id>`. */
  function GenerateAffiliateLink(store: Store, productId: string, randomPart: string): (link: string)
    ensures BaseUrl(store) + "/" + productId + "?" <= link
    ensures store == Amazon ==> link == AmazonBase + "/" + productId + "?tag=casillero-20"
  {
    BaseUrl(store) + "/" + productId + "?" + AffiliateId(store, randomPart)
  }

  /** Amazon links do not depend on the random part at all. */
  lemma AmazonLinkIsDeterministic(productId: string, r1: string, r2: string)
    ensures GenerateAffiliateLink(Amazon, productId, r1) == GenerateAffiliateLink(Amazon, productId, r2)
  {
  }

  /** Lower-casing leaves a stretch without upper-case letters as it was. */
  lemma LowerKeepsSlice(text: string, i: nat, j: nat)
    requires i <= j <= |text|
    requires forall k :: i <= k < j ==> !IsUpper(text[k])
    ensures Lower(text)[i..j] == text[i..j]
  {
    var low := Lower(text);
    forall k | 0 <= k < j - i ensures low[i..j][k] == text[i..j][k] {
      assert low[i + k] == LowerChar(text[i + k]);
    }
  }

  /** A text with "shein" written in lower case at some position mentions "shein" once lower-cased. */
  lemma LowerKeepsShein(text: string, i: nat)
    requires i + 5 <= |text| && text[i..i + 5] == "shein"
    ensures Includes(Lower(text), "shein")
  {
    var pat := "shein";
    assert forall m :: 0 <= m < |pat| ==> !IsUpper(pat[m]);
    forall k | i <= k < i + 5 ensures !IsUpper(text[k]) {
      assert text[k] == pat[k - i];
    }
    LowerKeepsSlice(text, i, i + 5);
    assert OccursAt(Lower(text), pat, i);
    IncludesAt(Lower(text), pat);
  }

  /** Every Shein affiliate link is recognised as a Shein URL again, whatever the product id. */
  lemma SheinLinkDetected(productId: string, randomPart: string)
    ensures DetectStore(GenerateAffiliateLink(Shein, productId, randomPart)) == Some(Shein)
  {
    var link := GenerateAffiliateLink(Shein, productId, randomPart);
    assert SheinBase <= link;
    assert SheinBase[18..23] == "shein";
    assert link[18..23] == SheinBase[18..23];
    LowerKeepsShein(link, 18);
  }
}
