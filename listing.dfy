/**
 * The row loop of `getProducts`, identical in both crawlers: rows whose trimmed id is
 * empty are skipped, every other row becomes `{id, seller, category, categoryTitle}`,
 * in page order.
 */
module Listing {
  import opened Wrappers
  import opened Strings
  import opened Js
  import opened Pages

  /** A listed product, before its detail page is read. */
  datatype ListingItem = ListingItem(id: string, seller: string, category: string, categoryTitle: string)
  {
    /** The plain object the crawler pushes. */
    function ToObject(): (o: Object)
      ensures o.Keys == {"id", "seller", "category", "categoryTitle"}
      ensures o["id"] == Str(id)
    {
      map["id" := Str(id), "seller" := Str(seller), "category" := Str(category),
          "categoryTitle" := Str(categoryTitle)]
    }
  }

  const Brackets: set<char> := {'[', ']'}

  /** The item a row yields, `None` for a row the loop skips. */
  function ItemOf(row: ListingRow, category: string): (r: Option<ListingItem>)
    ensures r.None? <==> Trim(row.numb) == ""
  {
    var id := Trim(row.numb);
    if id == "" then None
    else Some(ListingItem(id, Without(Trim(row.preface), Brackets), category,
                          Without(Trim(row.small), Brackets)))
  }

  /** The items of `rows`, in order. */
  function Items(rows: seq<ListingRow>, category: string): seq<ListingItem>
  {
    if rows == [] then []
    else
      var last := rows[|rows| - 1];
      Items(rows[..|rows| - 1], category) + (if ItemOf(last, category).Some? then [ItemOf(last, category).value] else [])
  }

  /** The number of rows with a non-empty id. */
  function CountIds(rows: seq<ListingRow>): nat
  {
    if rows == [] then 0
    else CountIds(rows[..|rows| - 1]) + (if Trim(rows[|rows| - 1].numb) == "" then 0 else 1)
  }

  /** The push loop of `getProducts`. */
  method CollectItems(rows: seq<ListingRow>, category: string) returns (products: seq<ListingItem>)
    ensures products == Items(rows, category)
  {
    products := [];
    var i := 0;
    while i < |rows|
      invariant i <= |rows|
      invariant products == Items(rows[..i], category)
    {
      var row := rows[i];
      ItemsSnoc(rows, category, i);
      var id := Trim(row.numb);
      if id == "" {
        i := i + 1;
        continue;
      }
      var seller := Without(Trim(row.preface), Brackets);
      var categoryTitle := Without(Trim(row.small), Brackets);
      products := products + [ListingItem(id, seller, category, categoryTitle)];
      i := i + 1;
    }
    assert rows[..i] == rows;
  }

  /** The items of the first `k + 1` rows: those of the first `k`, then row `k`'s. */
  lemma ItemsSnoc(rows: seq<ListingRow>, category: string, k: nat)
    requires k < |rows|
    ensures Items(rows[..k + 1], category)
      == Items(rows[..k], category) + (if ItemOf(rows[k], category).Some? then [ItemOf(rows[k], category).value] else [])
  {
    assert rows[..k + 1][..k] == rows[..k];
  }

  /** Listing two runs of rows lists the items of each, in order. */
  lemma {:induction false} ItemsAppend(a: seq<ListingRow>, b: seq<ListingRow>, category: string)
    ensures Items(a + b, category) == Items(a, category) + Items(b, category)
    decreases |b|
  {
    if b == [] {
      assert a + b == a;
    } else {
      assert (a + b)[..|a + b| - 1] == a + b[..|b| - 1];
      ItemsAppend(a, b[..|b| - 1], category);
    }
  }

  /** Every listed item has a non-empty trimmed id, the requested category, and seller
      and category texts free of brackets. */
  lemma {:induction false} ItemsWellFormed(rows: seq<ListingRow>, category: string)
    ensures forall it :: it in Items(rows, category) ==>
      it.id != "" && IsTrimmed(it.id) && it.category == category &&
      (forall k :: 0 <= k < |it.seller| ==> it.seller[k] !in Brackets) &&
      (forall k :: 0 <= k < |it.categoryTitle| ==> it.categoryTitle[k] !in Brackets)
  {
    if rows != [] {
      ItemsWellFormed(rows[..|rows| - 1], category);
    }
  }

  /** One item per row with a non-empty id: none is dropped, none is added. */
  lemma {:induction false} ItemsCount(rows: seq<ListingRow>, category: string)
    ensures |Items(rows, category)| == CountIds(rows) <= |rows|
  {
    if rows != [] {
      ItemsCount(rows[..|rows| - 1], category);
    }
  }

  /** The non-empty trimmed ids of the rows, in order. */
  function RowIds(rows: seq<ListingRow>): seq<string>
  {
    if rows == [] then []
    else
      var id := Trim(rows[|rows| - 1].numb);
      RowIds(rows[..|rows| - 1]) + (if id == "" then [] else [id])
  }

  /** The ids of a sequence of items. */
  function IdsOf(items: seq<ListingItem>): (ids: seq<string>)
    ensures |ids| == |items|
    ensures forall i :: 0 <= i < |items| ==> ids[i] == items[i].id
  {
    if items == [] then [] else IdsOf(items[..|items| - 1]) + [items[|items| - 1].id]
  }

  /** The ids listed are exactly the rows' non-empty trimmed ids, in page order. */
  lemma {:induction false} ItemsIds(rows: seq<ListingRow>, category: string)
    ensures IdsOf(Items(rows, category)) == RowIds(rows)
  {
    if rows != [] {
      ItemsIds(rows[..|rows| - 1], category);
    }
  }
}
