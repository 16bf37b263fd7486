/**
 * The Ppomppu crawler: the board listing and the article page of
 * www.ppomppu.co.kr, read into listing items and detail records.
 */
module Ppomppu {
  import opened Wrappers
  import opened Strings
  import opened Js
  import opened Pages
  import opened Listing
  import opened TextNormalizer
  import opened PriceExtraction

  const Name: string := "ppomppu"

  /** The board listing page of a category. */
  function ListUrl(category: string): (url: string)
    ensures StartsWith(url, "https://www.ppomppu.co.kr/zboard/zboard.php?id=")
  {
    "https://www.ppomppu.co.kr/zboard/zboard.php?id=" + category
  }

  /** The article page of a product; it is also the record's `siteLink`. */
  function ViewUrl(category: string, productId: string): (url: string)
    ensures StartsWith(url, "https://www.ppomppu.co.kr/zboard/view.php?id=")
  {
    "https://www.ppomppu.co.kr/zboard/view.php?id=" + category + "&no=" + productId
  }

  /** What `getProducts(category)` returns: the listing's items, or `[]` when the page
      cannot be read. */
  function ListingOf(web: Web, category: string): seq<ListingItem>
  {
    match web.listing(ListUrl(category))
    case None => []
    case Some(rows) => Items(rows, category)
  }

  /** `getProducts`: reads the listing page and collects its items; any failure gives `[]`. */
  method GetProducts(web: Web, category: string) returns (products: seq<ListingItem>)
    ensures products == ListingOf(web, category)
    ensures web.listing(ListUrl(category)).None? ==> products == []
    ensures web.listing(ListUrl(category)).Some? ==> products == Items(web.listing(ListUrl(category)).value, category)
  {
    var page := web.listing(ListUrl(category));
    if page.None? {
      return [];
    }
    products := CollectItems(page.value, category);
  }

  /** The record `getProductDetail` returns. */
  datatype Detail = Detail(
    title: string, comment: string, productLink: string, price: nat,
    freeShipping: string, siteLink: string, thumbnail: Option<string>)
  {
    /** The plain object merged into the listing item; an absent image is `undefined`. */
    function ToObject(): (o: Object)
      ensures o.Keys == {"title", "comment", "productLink", "price", "freeShipping", "siteLink", "thumbnail"}
      ensures "id" !in o && "category" !in o && "seller" !in o
    {
      map["title" := Str(title), "comment" := Str(comment), "productLink" := Str(productLink),
          "price" := Num(price as real), "freeShipping" := Str(freeShipping),
          "siteLink" := Str(siteLink),
          "thumbnail" := if thumbnail.Some? then Str(thumbnail.value) else Undefined]
    }
  }

  /** The title before cleanup: the heading without the first occurrence of the
      category prefix, trimmed. Price and free shipping are read from it. */
  function RawTitle(v: PpomppuView): string {
    Trim(ReplaceFirst(Trim(v.heading), Trim(v.preface), ""))
  }

  /** `attr('href') || text().trim()`. */
  function ProductLink(v: PpomppuView): (link: string)
    ensures v.linkHref.Some? && v.linkHref.value != "" ==> link == v.linkHref.value
    ensures v.linkHref.None? || v.linkHref.value == "" ==> link == Trim(v.linkText)
  {
    if v.linkHref.Some? && v.linkHref.value != "" then v.linkHref.value else Trim(v.linkText)
  }

  /** `getProductDetail(category, productId)`: reads the article page step by step;
      a page that cannot be read gives `null`. */
  method GetProductDetail(web: Web, category: string, productId: string) returns (detail: Option<Detail>)
    ensures detail == DetailOf(web, category, productId)
    ensures detail.None? <==> web.ppomppuView(ViewUrl(category, productId)).None?
    ensures detail.Some? ==>
      var v := web.ppomppuView(ViewUrl(category, productId)).value;
      && detail.value.title == CleanTitle(RawTitle(v))
      && detail.value.comment == Trim(v.comment)
      && detail.value.productLink == ProductLink(v)
      && detail.value.price == ExtractPrice(RawTitle(v))
      && detail.value.freeShipping == FreeShipping(RawTitle(v))
      && detail.value.siteLink == ViewUrl(category, productId)
      && detail.value.thumbnail == v.imageSrc
  {
    var url := ViewUrl(category, productId);
    var page := web.ppomppuView(url);
    if page.None? {
      return None;
    }
    var v := page.value;
    var categoryTitle := Trim(v.preface);
    var comment := Trim(v.comment);
    var title := Trim(v.heading);
    title := Trim(ReplaceFirst(title, categoryTitle, ""));
    var productLink := ProductLink(v);
    var price := ExtractPrice(title);
    var freeShipping := FreeShipping(title);
    var siteLink := ViewUrl(category, productId);
    var thumbnail := v.imageSrc;
    title := CleanTitle(title);
    detail := Some(Detail(title, comment, productLink, price, freeShipping, siteLink, thumbnail));
  }

  /** What `getProductDetail` returns, as a value for the pipeline's specification. */
  function DetailOf(web: Web, category: string, productId: string): Option<Detail>
  {
    match web.ppomppuView(ViewUrl(category, productId))
    case None => None
    case Some(v) =>
      var raw := RawTitle(v);
      Some(Detail(CleanTitle(raw), Trim(v.comment), ProductLink(v), ExtractPrice(raw),
                  FreeShipping(raw), ViewUrl(category, productId), v.imageSrc))
  }

  /** The detail title is clean, and cleaning it again changes nothing. */
  lemma DetailTitleClean(web: Web, category: string, productId: string)
    requires DetailOf(web, category, productId).Some?
    ensures var t := DetailOf(web, category, productId).value.title;
      IsTrimmed(t) && CleanTitle(t) == t
  {
    var v := web.ppomppuView(ViewUrl(category, productId)).value;
    CleanTitleIdempotent(RawTitle(v));
  }

  /** `getCrawlerName`. */
  function CrawlerName(): (name: string)
    ensures name == Name
  {
    "ppomppu"
  }

  /** `getSupportedCategories`. */
  function SupportedCategories(): (cs: seq<string>)
    ensures cs == [Name, "freeboard"]
  {
    ["ppomppu", "freeboard"]
  }
}
