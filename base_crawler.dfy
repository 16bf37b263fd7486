/**
 * The crawler contract. Every crawler offers `getProducts`, `getProductDetail`,
 * `getCrawlerName` and `getSupportedCategories` as static methods; the base class's
 * versions throw. The classes are the values of `CrawlerKind`, and each operation
 * dispatches on it; a thrown error is `Err`.
 */
module BaseCrawler {
  import opened Wrappers
  import opened Js
  import opened Pages
  import opened Listing
  import Ppomppu
  import Quasarzone

  /** The crawler classes: the abstract base and its two subclasses. */
  datatype CrawlerKind = Base | PpomppuCrawler | QuasarzoneCrawler

  /** The error the base class throws for an operation `op` it leaves to subclasses. */
  function NotImplemented(op: string): string {
    op + " must be implemented"
  }

  /** `getCrawlerName()`. */
  function CrawlerName(kind: CrawlerKind): (r: Result<string, string>)
    ensures r.Err? <==> kind == Base
    ensures r.Ok? ==> r.value == "ppomppu"
  {
    match kind
    case Base => Err(NotImplemented("getCrawlerName"))
    case PpomppuCrawler => Ok(Ppomppu.CrawlerName())
    case QuasarzoneCrawler => Ok(Quasarzone.CrawlerName())
  }

  /** `getSupportedCategories()`. */
  function SupportedCategories(kind: CrawlerKind): (r: Result<seq<string>, string>)
    ensures r.Err? <==> kind == Base
    ensures r.Ok? ==> r.value == ["ppomppu", "freeboard"]
  {
    match kind
    case Base => Err(NotImplemented("getSupportedCategories"))
    case PpomppuCrawler => Ok(Ppomppu.SupportedCategories())
    case QuasarzoneCrawler => Ok(Quasarzone.SupportedCategories())
  }

  /** What `getProducts(category)` yields. */
  function ProductsOf(kind: CrawlerKind, web: Web, category: string): Result<seq<ListingItem>, string>
  {
    match kind
    case Base => Err(NotImplemented("getProducts"))
    case PpomppuCrawler => Ok(Ppomppu.ListingOf(web, category))
    case QuasarzoneCrawler => Ok(Ppomppu.ListingOf(web, category))
  }

  /** `getProducts(category)`, dispatched. */
  method GetProducts(kind: CrawlerKind, web: Web, category: string) returns (r: Result<seq<ListingItem>, string>)
    ensures r == ProductsOf(kind, web, category)
    ensures r.Err? <==> kind == Base
  {
    match kind
    case Base =>
      r := Err(NotImplemented("getProducts"));
    case PpomppuCrawler =>
      var items := Ppomppu.GetProducts(web, category);
      r := Ok(items);
    case QuasarzoneCrawler =>
      var items := Quasarzone.GetProducts(web, category);
      r := Ok(items);
  }

  /** What `getProductDetail(category, productId)` yields: the detail object, `None`
      for `null`. Quasarzone's version takes one parameter, so the category is what it
      receives as the product id. */
  function DetailOf(kind: CrawlerKind, web: Web, category: string, productId: string): (r: Result<Option<Object>, string>)
    ensures r.Err? <==> kind == Base
    ensures r.Ok? && r.value.Some? ==> "id" !in r.value.value && "category" !in r.value.value
  {
    match kind
    case Base => Err(NotImplemented("getProductDetail"))
    case PpomppuCrawler =>
      var d := Ppomppu.DetailOf(web, category, productId);
      Ok(if d.Some? then Some(d.value.ToObject()) else None)
    case QuasarzoneCrawler =>
      var d := Quasarzone.DetailOf(web, category);
      Ok(if d.Some? then Some(d.value.ToObject()) else None)
  }

  /** `getProductDetail(category, productId)`, dispatched. */
  method GetProductDetail(kind: CrawlerKind, web: Web, category: string, productId: string)
    returns (r: Result<Option<Object>, string>)
    ensures r == DetailOf(kind, web, category, productId)
  {
    match kind
    case Base =>
      r := Err(NotImplemented("getProductDetail"));
    case PpomppuCrawler =>
      var d := Ppomppu.GetProductDetail(web, category, productId);
      r := Ok(if d.Some? then Some(d.value.ToObject()) else None);
    case QuasarzoneCrawler =>
      var d := Quasarzone.GetProductDetail(web, category);
      r := Ok(if d.Some? then Some(d.value.ToObject()) else None);
  }

  /** Both crawlers list the same items: Quasarzone reads the Ppomppu board. */
  lemma CrawlersListAlike(web: Web, category: string)
    ensures ProductsOf(QuasarzoneCrawler, web, category) == ProductsOf(PpomppuCrawler, web, category)
  {
  }

  // ---------------------------------------------------------------------------
  // normalizeProduct

  /** The fields of a normalised product. */
  const NormalizedKeys: set<string> :=
    {"id", "title", "category", "seller", "price", "freeShipping", "thumbnail", "productLink", "crawlerName"}

  /** The product object `normalizeProduct` builds for the crawler named `name`. */
  function Normalized(name: string, raw: Object): (o: Object)
    ensures o.Keys == NormalizedKeys
  {
    map[
      "id" := Or(Get(raw, "id"), Null),
      "title" := Or(Get(raw, "title"), Str("")),
      "category" := Or(Get(raw, "category"), Str("")),
      "seller" := Or(Get(raw, "seller"), Str("")),
      "price" := Or(Get(raw, "price"), Num(0.0)),
      "freeShipping" := Or(Get(raw, "freeShipping"), Str("N")),
      "thumbnail" := Or(Get(raw, "thumbnail"), Str("")),
      "productLink" := Or(Get(raw, "productLink"), Str("")),
      "crawlerName" := Str(name)]
  }

  /** `normalizeProduct(rawData)`: the standard product object; `crawlerName` comes from
      `getCrawlerName()`, so on the base class the call throws. */
  function NormalizeProduct(kind: CrawlerKind, raw: Object): (r: Result<Object, string>)
    ensures r.Err? <==> kind == Base
    ensures r.Ok? ==> r.value.Keys == NormalizedKeys
  {
    match CrawlerName(kind)
    case Err(e) => Err(e)
    case Ok(name) => Ok(Normalized(name, raw))
  }

  /** Each field of a normalised product is the raw field when that is truthy and the
      field's default otherwise; `crawlerName` is the crawler's own name. */
  lemma NormalizeProductFields(kind: CrawlerKind, raw: Object, k: string)
    requires kind != Base
    ensures var o := NormalizeProduct(kind, raw).value;
      && o["crawlerName"] == Str("ppomppu")
      && o["id"] == (if Truthy(Get(raw, "id")) then Get(raw, "id") else Null)
      && o["price"] == (if Truthy(Get(raw, "price")) then Get(raw, "price") else Num(0.0))
      && o["freeShipping"] == (if Truthy(Get(raw, "freeShipping")) then Get(raw, "freeShipping") else Str("N"))
      && (k in {"title", "category", "seller", "thumbnail", "productLink"} ==>
            o[k] == if Truthy(Get(raw, k)) then Get(raw, k) else Str(""))
  {
  }

  /** Normalising a normalised product object changes nothing. */
  lemma NormalizedIdempotent(name: string, raw: Object)
    ensures Normalized(name, Normalized(name, raw)) == Normalized(name, raw)
  {
    var n := Normalized(name, raw);
    assert Get(n, "id") == Or(Get(raw, "id"), Null);
    assert Get(n, "title") == Or(Get(raw, "title"), Str(""));
    assert Get(n, "category") == Or(Get(raw, "category"), Str(""));
    assert Get(n, "seller") == Or(Get(raw, "seller"), Str(""));
    assert Get(n, "price") == Or(Get(raw, "price"), Num(0.0));
    assert Get(n, "freeShipping") == Or(Get(raw, "freeShipping"), Str("N"));
    assert Get(n, "thumbnail") == Or(Get(raw, "thumbnail"), Str(""));
    assert Get(n, "productLink") == Or(Get(raw, "productLink"), Str(""));
  }

  /** Normalising a normalised product changes nothing. */
  lemma NormalizeIdempotent(kind: CrawlerKind, raw: Object)
    requires kind != Base
    ensures NormalizeProduct(kind, NormalizeProduct(kind, raw).value) == NormalizeProduct(kind, raw)
  {
    NormalizedIdempotent(CrawlerName(kind).value, raw);
  }
}
