/**
 * The Quasarzone crawler. Its listing loop is Ppomppu's, on Ppomppu's listing URL;
 * its article reader splits a `[seller]` prefix off the title and reads price,
 * currency and shipping from the market-info table.
 */
module Quasarzone {
  import opened Wrappers
  import opened Strings
  import opened Js
  import opened Pages
  import opened Listing
  import opened TextNormalizer
  import Ppomppu
  import PriceExtraction

  /** The listing page `getProducts` fetches: the Ppomppu board. */
  function ListUrl(category: string): (url: string)
    ensures url == Ppomppu.ListUrl(category)
  {
    "https://www.ppomppu.co.kr/zboard/zboard.php?id=" + category
  }

  /** The sale page of a product; it is also the record's `siteLink`. */
  function ViewUrl(productId: string): (url: string)
    ensures StartsWith(url, "https://quasarzone.com/bbs/qb_saleinfo/views/")
    ensures url[|"https://quasarzone.com/bbs/qb_saleinfo/views/"|..] == productId
  {
    "https://quasarzone.com/bbs/qb_saleinfo/views/" + productId
  }

  /** `getProducts`: the Ppomppu listing loop, on the Ppomppu listing page. */
  method GetProducts(web: Web, category: string) returns (products: seq<ListingItem>)
    ensures products == Ppomppu.ListingOf(web, category)
  {
    var page := web.listing(ListUrl(category));
    if page.None? {
      return [];
    }
    products := CollectItems(page.value, category);
  }

  // ---------------------------------------------------------------------------
  // Seller prefix: /^\[([^\]]+)\]/ and /^\[[^\]]+\]\s*/

  /** The index of the `]` that closes a leading `[seller]`, when the title has one. */
  function SellerBracket(title: string): (j: Option<nat>)
    ensures j.Some? ==> 2 <= j.value < |title| && title[0] == '[' && title[j.value] == ']'
    ensures j.Some? ==> forall k :: 0 < k < j.value ==> title[k] != ']'
    ensures j.None? ==> (title == [] || title[0] != '[' ||
      (forall k :: 0 < k < |title| ==> title[k] != ']') || (|title| > 1 && title[1] == ']'))
  {
    if title != [] && title[0] == '[' then
      match IndexOf(title, "]")
      case None =>
        assert forall k :: 0 < k < |title| ==> title[k] != ']' by {
          forall k | 0 < k < |title| ensures title[k] != ']' {
            assert title[k..k + 1] == [title[k]];
            assert !OccursAt(title, "]", k);
          }
        }
        None
      case Some(j) =>
        assert title[j..j + 1] == "]";
        assert forall k :: 0 < k < j ==> title[k] != ']' by {
          forall k | 0 < k < j ensures title[k] != ']' {
            assert title[k..k + 1] == [title[k]];
            assert !OccursAt(title, "]", k);
          }
        }
        if j >= 2 then Some(j) else None
    else None
  }

  /** The seller and the remaining title: a leading `[seller]` and the white space after
      it are split off; without one the seller is empty and the title unchanged. */
  function SplitSeller(title: string): (r: (string, string))
    ensures SellerBracket(title).None? ==> r == ("", title)
    ensures SellerBracket(title).Some? ==> r.0 != [] && (forall k :: 0 <= k < |r.0| ==> r.0[k] != ']')
    ensures r.1 == title || r.1 == [] || !IsSpace(r.1[0])
  {
    match SellerBracket(title)
    case None => ("", title)
    case Some(j) => (title[1..j], title[SpaceRunEnd(title, j + 1)..])
  }

  /** Splitting loses nothing: the title is `[` + seller + `]` + white space + the rest. */
  lemma SplitSellerRecompose(title: string)
    requires SellerBracket(title).Some?
    ensures var (seller, rest) := SplitSeller(title);
      exists ws :: AllSpace(ws) && title == "[" + seller + "]" + ws + rest
  {
    var j := SellerBracket(title).value;
    var e := SpaceRunEnd(title, j + 1);
    var ws := title[j + 1..e];
    assert AllSpace(ws);
    assert title == "[" + title[1..j] + "]" + ws + title[e..];
  }

  /** A title built from a seller, white space and a rest that starts with no white
      space splits back into that seller and that rest. */
  lemma SplitSellerOfComposed(seller: string, ws: string, rest: string)
    requires seller != [] && (forall k :: 0 <= k < |seller| ==> seller[k] != ']')
    requires AllSpace(ws) && (rest == [] || !IsSpace(rest[0]))
    ensures SplitSeller("[" + seller + "]" + ws + rest) == (seller, rest)
  {
    var title := "[" + seller + "]" + ws + rest;
    var j := |seller| + 1;
    assert title[j] == ']';
    assert forall k :: 0 < k < j ==> title[k] == seller[k - 1];
    var b := SellerBracket(title);
    assert b == Some(j);
    assert forall k :: j + 1 <= k < j + 1 + |ws| ==> title[k] == ws[k - j - 1];
    assert j + 1 + |ws| < |title| ==> title[j + 1 + |ws|] == rest[0];
    SpaceRunEndIs(title, j + 1, j + 1 + |ws|);
    assert title[1..j] == seller;
    assert title[j + 1 + |ws|..] == rest;
  }

  // ---------------------------------------------------------------------------
  // Price, currency and shipping cells

  /** The characters `/[^\d.,]/g` keeps. */
  predicate IsPriceChar(c: char) {
    IsDigit(c) || c == '.' || c == ','
  }

  /** `replace(/[^\d.,]/g, '')`: only digits, `.` and `,` are kept, in order. */
  function PriceChars(s: string): (r: string)
    ensures forall k :: 0 <= k < |r| ==> IsPriceChar(r[k])
    ensures (forall k :: 0 <= k < |s| ==> IsPriceChar(s[k])) ==> r == s
    ensures |r| <= |s|
  {
    if s == [] then []
    else PriceChars(s[..|s| - 1]) + (if IsPriceChar(s[|s| - 1]) then [s[|s| - 1]] else [])
  }

  lemma {:induction false} PriceCharsAppend(a: string, b: string)
    ensures PriceChars(a + b) == PriceChars(a) + PriceChars(b)
    decreases |b|
  {
    if b == [] {
      assert a + b == a;
    } else {
      assert (a + b)[..|a + b| - 1] == a + b[..|b| - 1];
      PriceCharsAppend(a, b[..|b| - 1]);
    }
  }

  /** `parseFloat`: the value of the longest decimal literal at the start of `s`
      (digits, then optionally `.` and digits), or `None` (NaN) when there is none.
      Values are exact; floating-point rounding is not modelled. */
  function ParseFloat(s: string): (r: Option<real>)
    ensures r.Some? ==> r.value >= 0.0
    ensures r.None? <==> DigitRunEnd(s, 0) == 0 && (|s| == 0 || s[0] != '.' || DigitRunEnd(s, 1) == 1)
  {
    var a := DigitRunEnd(s, 0);
    var whole := DigitsValue(s[..a]) as real;
    if a < |s| && s[a] == '.' then
      var b := DigitRunEnd(s, a + 1);
      if a == 0 && b == a + 1 then None
      else Some(whole + DigitsValue(s[a + 1..b]) as real / Pow10(b - a - 1) as real)
    else if a == 0 then None
    else Some(whole)
  }

  /** `parseFloat(s) || 0`. */
  function ParseFloatOrZero(s: string): (x: real)
    ensures x >= 0.0
    ensures ParseFloat(s).None? ==> x == 0.0
  {
    match ParseFloat(s)
    case None => 0.0
    case Some(v) => v
  }

  /** The price number of a price cell: digits, `.` and `,` kept, the first `,` removed,
      then parsed. */
  function PriceNumber(priceText: string): (x: real)
    ensures x >= 0.0
  {
    ParseFloatOrZero(ReplaceFirst(PriceChars(priceText), ",", ""))
  }

  /** `'USD'` when the price cell names dollars, `'KRW'` otherwise. */
  function Currency(priceText: string): (c: string)
    ensures c == "USD" <==> Contains(priceText, "USD") || Contains(priceText, "$")
    ensures c == "USD" || c == "KRW"
  {
    if Contains(priceText, "USD") || Contains(priceText, "$") then "USD" else "KRW"
  }

  /** `'Y'` when the shipping cell says 무료 (free), `'N'` otherwise. */
  function ShippingFlag(shippingText: string): (flag: string)
    ensures flag == "Y" <==> Contains(shippingText, "무료")
    ensures flag == "Y" || flag == "N"
  {
    if Contains(shippingText, "무료") then "Y" else "N"
  }

  /** `parseFloat` of a run of digits followed by no digit and no `.` is its value. */
  lemma ParseFloatDigits(d: string, rest: string)
    requires d != [] && AllDigits(d)
    requires rest == [] || (!IsDigit(rest[0]) && rest[0] != '.')
    ensures ParseFloat(d + rest) == Some(DigitsValue(d) as real)
  {
    var s := d + rest;
    assert forall k :: 0 <= k < |d| ==> s[k] == d[k];
    DigitRunEndIs(s, 0, |d|);
    assert s[..|d|] == d;
  }

  /** Text without price characters contributes nothing to the price number. */
  lemma PriceCharsAround(pre: string, c: string, post: string)
    requires forall k :: 0 <= k < |pre| ==> !IsPriceChar(pre[k])
    requires forall k :: 0 <= k < |post| ==> !IsPriceChar(post[k])
    requires forall k :: 0 <= k < |c| ==> IsPriceChar(c[k])
    ensures PriceChars(pre + c + post) == c
  {
    PriceCharsAppend(pre + c, post);
    PriceCharsAppend(pre, c);
    NoPriceChars(pre);
    NoPriceChars(post);
    assert PriceChars(c) == c;
    assert PriceChars(pre + c) == c;
  }

  lemma {:induction false} NoPriceChars(s: string)
    requires forall k :: 0 <= k < |s| ==> !IsPriceChar(s[k])
    ensures PriceChars(s) == []
  {
    if s != [] {
      NoPriceChars(s[..|s| - 1]);
    }
  }

  /** The first `,` of `a + "," + b`, where `a` has none, is the one after `a`. */
  lemma ReplaceFirstComma(a: string, b: string)
    requires forall k :: 0 <= k < |a| ==> a[k] != ','
    ensures ReplaceFirst(a + "," + b, ",", "") == a + b
  {
    var s := a + "," + b;
    assert OccursAt(s, ",", |a|) by {
      assert s[|a|..|a| + 1] == ",";
    }
    assert forall i: nat :: i < |a| ==> !OccursAt(s, ",", i) by {
      forall i: nat | i < |a| ensures !OccursAt(s, ",", i) {
        assert s[i..i + 1] == [a[i]];
      }
    }
    assert IndexOf(s, ",") == Some(|a|);
    assert s[..|a|] + "" + s[|a| + 1..] == a + b;
  }

  /** Below a thousand there is no separator to remove. */
  lemma ParsedBelowThousand(n: nat)
    requires n < 1000
    ensures ParseFloatOrZero(ReplaceFirst(PriceExtraction.Commafy(n), ",", "")) == n as real
  {
    var c := NatToString(n);
    assert forall k :: 0 <= k < |c| ==> c[k] != ',';
    assert !Contains(c, ",") by {
      assert forall i: nat :: OccursAt(c, ",", i) ==> c[i] == c[i..i + 1][0];
    }
    ParseFloatDigits(c, []);
    assert c + [] == c;
    NatToStringRoundTrip(n);
  }

  /** The digits of `Commafy(n)` below a million, without their separator, read as `n`. */
  lemma ThousandsDigits(n: nat)
    requires 1000 <= n < 1000000
    ensures var d := NatToString(n / 1000) + PriceExtraction.Pad3(n % 1000);
      d != [] && AllDigits(d) && DigitsValue(d) == n
  {
    var h, t := NatToString(n / 1000), PriceExtraction.Pad3(n % 1000);
    DigitsValueAppend(h, t);
    NatToStringRoundTrip(n / 1000);
    PriceExtraction.Pad3Value(n % 1000);
    assert Pow10(3) == 1000;
  }

  /** Between a thousand and a million the only separator is removed. */
  lemma ParsedBelowMillion(n: nat)
    requires 1000 <= n < 1000000
    ensures ParseFloatOrZero(ReplaceFirst(PriceExtraction.Commafy(n), ",", "")) == n as real
  {
    var h, t := NatToString(n / 1000), PriceExtraction.Pad3(n % 1000);
    assert PriceExtraction.Commafy(n) == h + "," + t;
    assert forall k :: 0 <= k < |h| ==> h[k] != ',';
    ReplaceFirstComma(h, t);
    ThousandsDigits(n);
    ParseFloatDigits(h + t, []);
    assert h + t + [] == h + t;
  }

  /** As written, an amount below a million between text without price characters
      reads back exactly: `35,750원` is 35750. */
  lemma PriceNumberBelowMillion(pre: string, n: nat, post: string)
    requires n < 1000000
    requires forall k :: 0 <= k < |pre| ==> !IsPriceChar(pre[k])
    requires forall k :: 0 <= k < |post| ==> !IsPriceChar(post[k])
    ensures PriceNumber(pre + PriceExtraction.Commafy(n) + post) == n as real
  {
    var c := PriceExtraction.Commafy(n);
    PriceExtraction.PriceOfCommafied(n);
    PriceCharsAround(pre, c, post);
    if n < 1000 {
      ParsedBelowThousand(n);
    } else {
      ParsedBelowMillion(n);
    }
  }

  /** As written, only the first separator is removed, so `parseFloat` stops at the
      second: an amount from a million up to a billion reads as its thousands. */
  lemma PriceNumberMillions(pre: string, n: nat, post: string)
    requires 1000000 <= n < 1000000000
    requires forall k :: 0 <= k < |pre| ==> !IsPriceChar(pre[k])
    requires forall k :: 0 <= k < |post| ==> !IsPriceChar(post[k])
    ensures PriceNumber(pre + PriceExtraction.Commafy(n) + post) == (n / 1000) as real
  {
    var c := PriceExtraction.Commafy(n);
    PriceExtraction.PriceOfCommafied(n);
    PriceCharsAround(pre, c, post);
    var m := n / 1000;
    var h, t, t0 := NatToString(m / 1000), PriceExtraction.Pad3(m % 1000), PriceExtraction.Pad3(n % 1000);
    assert PriceExtraction.Commafy(m) == h + "," + t;
    assert c == h + "," + (t + "," + t0);
    assert forall k :: 0 <= k < |h| ==> h[k] != ',';
    ReplaceFirstComma(h, t + "," + t0);
    assert h + (t + "," + t0) == (h + t) + ("," + t0);
    ThousandsDigits(m);
    ParseFloatDigits(h + t, "," + t0);
  }

  /** The price cell `1,234,567원` reads as 1234. */
  lemma PriceNumberMillionsExample(priceText: string)
    requires priceText == "1,234,567원"
    ensures PriceNumber(priceText) == 1234.0
  {
    assert PriceExtraction.Commafy(1234567) == "1,234,567" by {
      assert PriceExtraction.Commafy(1234) == "1,234" by {
        assert PriceExtraction.Pad3(234) == "234";
      }
      assert PriceExtraction.Pad3(567) == "567";
    }
    assert "" + PriceExtraction.Commafy(1234567) + "원" == priceText;
    PriceNumberMillions("", 1234567, "원");
  }

  /** The price number with every separator removed before parsing, as the price
      cell's thousands separators call for. */
  function IntendedPriceNumber(priceText: string): (x: real)
    ensures x >= 0.0
  {
    ParseFloatOrZero(Without(PriceChars(priceText), {','}))
  }

  /** Every amount, however many separators it has, reads back exactly. */
  lemma IntendedPriceNumberRoundTrip(pre: string, n: nat, post: string)
    requires forall k :: 0 <= k < |pre| ==> !IsPriceChar(pre[k])
    requires forall k :: 0 <= k < |post| ==> !IsPriceChar(post[k])
    ensures IntendedPriceNumber(pre + PriceExtraction.Commafy(n) + post) == n as real
  {
    var c := PriceExtraction.Commafy(n);
    PriceExtraction.PriceOfCommafied(n);
    PriceCharsAround(pre, c, post);
    PriceExtraction.CommafyValue(n);
    PriceExtraction.PriceTextDigits(c);
    var w := Without(c, {','});
    ParseFloatDigits(w, []);
    assert w + [] == w;
  }

  /** The number of commas in `s`. */
  function Commas(s: string): nat
  {
    if s == [] then 0 else Commas(s[..|s| - 1]) + (if s[|s| - 1] == ',' then 1 else 0)
  }

  lemma {:induction false} CommasAppend(a: string, b: string)
    ensures Commas(a + b) == Commas(a) + Commas(b)
    decreases |b|
  {
    if b == [] {
      assert a + b == a;
    } else {
      assert (a + b)[..|a + b| - 1] == a + b[..|b| - 1];
      CommasAppend(a, b[..|b| - 1]);
    }
  }

  lemma {:induction false} NoCommas(s: string)
    requires Commas(s) == 0
    ensures forall k :: 0 <= k < |s| ==> s[k] != ','
  {
    if s != [] {
      NoCommas(s[..|s| - 1]);
      assert forall k :: 0 <= k < |s| - 1 ==> s[k] == s[..|s| - 1][k];
    }
  }

  /** Keeping the price characters keeps every comma. */
  lemma {:induction false} PriceCharsCommas(s: string)
    ensures Commas(PriceChars(s)) == Commas(s)
  {
    if s != [] {
      var c := s[|s| - 1];
      PriceCharsCommas(s[..|s| - 1]);
      CommasAppend(PriceChars(s[..|s| - 1]), if IsPriceChar(c) then [c] else []);
      assert Commas([c]) == (if c == ',' then 1 else 0) by {
        assert [c][..0] == [];
      }
    }
  }

  /** A string with a comma splits at its first comma. */
  lemma {:induction false} FirstComma(p: string) returns (a: string, b: string)
    requires Commas(p) >= 1
    ensures p == a + "," + b && Commas(a) == 0
  {
    var q := p[..|p| - 1];
    if Commas(q) >= 1 {
      var b';
      a, b' := FirstComma(q);
      b := b' + [p[|p| - 1]];
      assert p == q + [p[|p| - 1]];
    } else {
      a, b := q, [];
      assert p == q + [p[|p| - 1]];
    }
  }

  /** With no comma, neither reading changes the string. */
  lemma CommaFreeReadings(p: string)
    requires Commas(p) == 0
    ensures ReplaceFirst(p, ",", "") == p && Without(p, {','}) == p
  {
    NoCommas(p);
    forall i | 0 <= i < |p| ensures !OccursAt(p, ",", i) {
      assert p[i..i + 1] == [p[i]];
    }
  }

  /** With at most one comma, removing the first comma removes them all. */
  lemma OneCommaReadings(p: string)
    requires Commas(p) <= 1
    ensures ReplaceFirst(p, ",", "") == Without(p, {','})
  {
    if Commas(p) == 0 {
      CommaFreeReadings(p);
    } else {
      var a, b := FirstComma(p);
      CommasAppend(a + ",", b);
      CommasAppend(a, ",");
      assert Commas(",") == 1 by {
        assert ","[..0] == [];
      }
      NoCommas(a);
      ReplaceFirstComma(a, b);
      CommaFreeReadings(a);
      CommaFreeReadings(b);
      WithoutAppend(a + ",", b, {','});
      WithoutAppend(a, ",", {','});
      assert Without(",", {','}) == [] by {
        assert ","[..0] == [];
      }
    }
  }

  /** A price cell with at most one comma reads the same as written and as intended;
      the two readings part only from the second thousands separator on. */
  lemma PriceNumberOneComma(priceText: string)
    requires Commas(priceText) <= 1
    ensures PriceNumber(priceText) == IntendedPriceNumber(priceText)
  {
    PriceCharsCommas(priceText);
    OneCommaReadings(PriceChars(priceText));
  }

  // ---------------------------------------------------------------------------
  // The sale page

  /** The record `getProductDetail` returns. */
  datatype Detail = Detail(
    channel: nat, labelText: string, title: string, seller: string, thumbnail: Option<string>,
    price: real, currency: string, freeShipping: string, categoryTitle: string,
    productLink: string, siteLink: string)
  {
    /** The plain object; an absent `og:image` is `undefined`. */
    function ToObject(): (o: Object)
      ensures o.Keys == {"channel", "label", "title", "seller", "thumbnail", "price", "currency",
                         "freeShipping", "categoryTitle", "productLink", "siteLink"}
      ensures "id" !in o && "category" !in o
    {
      map["channel" := Num(channel as real), "label" := Str(labelText), "title" := Str(title),
          "seller" := Str(seller),
          "thumbnail" := if thumbnail.Some? then Str(thumbnail.value) else Undefined,
          "price" := Num(price), "currency" := Str(currency), "freeShipping" := Str(freeShipping),
          "categoryTitle" := Str(categoryTitle), "productLink" := Str(productLink),
          "siteLink" := Str(siteLink)]
    }
  }

  /** The title with the first occurrence of the label removed, trimmed. */
  function LabelFreeTitle(v: QuasarView): string {
    Trim(ReplaceFirst(v.titleText, Trim(v.labelText), ""))
  }

  /** What `getProductDetail` returns, as a value for specifications. */
  function DetailOf(web: Web, productId: string): Option<Detail>
  {
    match web.quasarView(ViewUrl(productId))
    case None => None
    case Some(v) =>
      var (seller, title) := SplitSeller(LabelFreeTitle(v));
      var priceText := Trim(Cell(v.cells, 2));
      Some(Detail(2, Trim(v.labelText), title, seller, v.ogImage,
                  IntendedPriceNumber(priceText), Currency(priceText),
                  ShippingFlag(Trim(Cell(v.cells, 3))), Trim(v.categoryName),
                  Trim(Cell(v.cells, 0)), ViewUrl(productId)))
  }

  /** `getProductDetail(productId)`: reads the sale page step by step; a page that
      cannot be read gives `null`. */
  method GetProductDetail(web: Web, productId: string) returns (detail: Option<Detail>)
    ensures detail == DetailOf(web, productId)
  {
    var url := ViewUrl(productId);
    var page := web.quasarView(url);
    if page.None? {
      return None;
    }
    var v := page.value;
    var labelText := Trim(v.labelText);
    var title := Trim(ReplaceFirst(v.titleText, labelText, ""));
    assert title == LabelFreeTitle(v);
    var seller := "";
    var bracket := SellerBracket(title);
    if bracket.Some? {
      seller := title[1..bracket.value];
      title := title[SpaceRunEnd(title, bracket.value + 1)..];
    }
    assert (seller, title) == SplitSeller(LabelFreeTitle(v));
    var thumbnail := v.ogImage;
    var price := Trim(Cell(v.cells, 2));
    var currency := "KRW";
    if Contains(price, "USD") || Contains(price, "$") {
      currency := "USD";
    }
    assert currency == Currency(price);
    var cleanPrice := IntendedPriceNumber(price);
    var shippingType := Trim(Cell(v.cells, 3));
    var freeShipping := "N";
    if Contains(shippingType, "무료") {
      freeShipping := "Y";
    }
    assert freeShipping == ShippingFlag(shippingType);
    var categoryTitle := Trim(v.categoryName);
    var productLink := Trim(Cell(v.cells, 0));
    var siteLink := ViewUrl(productId);
    detail := Some(Detail(2, labelText, title, seller, thumbnail, cleanPrice, currency,
                          freeShipping, categoryTitle, productLink, siteLink));
  }

  /** The sale record: channel 2, the trimmed label, the `og:image`, the price read with
      every separator removed (the code's own reading whenever the cell has at most one
      comma), currency, shipping, category and product link from their cells, the page's
      own link, and the seller split off the label-free title. */
  lemma DetailOfFields(web: Web, productId: string)
    ensures DetailOf(web, productId).None? <==> web.quasarView(ViewUrl(productId)).None?
    ensures DetailOf(web, productId).Some? ==>
      var d := DetailOf(web, productId).value;
      var v := web.quasarView(ViewUrl(productId)).value;
      var priceText := Trim(Cell(v.cells, 2));
      && d.channel == 2
      && d.labelText == Trim(v.labelText)
      && d.thumbnail == v.ogImage
      && d.price == IntendedPriceNumber(priceText)
      && (Commas(priceText) <= 1 ==> d.price == PriceNumber(priceText))
      && d.categoryTitle == Trim(v.categoryName)
      && d.productLink == Trim(Cell(v.cells, 0))
      && d.siteLink == ViewUrl(productId)
      && (d.currency == "USD" <==> Contains(priceText, "USD") || Contains(priceText, "$"))
      && (d.freeShipping == "Y" <==> Contains(Trim(Cell(v.cells, 3)), "무료"))
      && (SellerBracket(LabelFreeTitle(v)).None? ==> d.seller == "" && d.title == LabelFreeTitle(v))
      && (SellerBracket(LabelFreeTitle(v)).Some? ==>
            && d.seller != [] && (forall k :: 0 <= k < |d.seller| ==> d.seller[k] != ']')
            && (d.title == [] || !IsSpace(d.title[0]))
            && exists ws :: AllSpace(ws) && LabelFreeTitle(v) == "[" + d.seller + "]" + ws + d.title)
  {
    if DetailOf(web, productId).Some? {
      var v := web.quasarView(ViewUrl(productId)).value;
      var priceText := Trim(Cell(v.cells, 2));
      if Commas(priceText) <= 1 {
        PriceNumberOneComma(priceText);
      }
      if SellerBracket(LabelFreeTitle(v)).Some? {
        SplitSellerRecompose(LabelFreeTitle(v));
      }
    }
  }

  /** `getCrawlerName`: as written, the Ppomppu name. */
  function CrawlerName(): (name: string)
    ensures name == Ppomppu.CrawlerName()
  {
    "ppomppu"
  }

  /** `getSupportedCategories`: as written, Ppomppu's categories. */
  function SupportedCategories(): (cs: seq<string>)
    ensures cs == Ppomppu.SupportedCategories()
  {
    ["ppomppu", "freeboard"]
  }
}
