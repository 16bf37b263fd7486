/**
 * The ingestion pipeline of `HotdealScraper`: for each crawl target the crawler lists
 * the board, and each listed product that the database does not hold yet is fetched in
 * detail, merged with its listing item, has its thumbnail copied to S3 and is inserted
 * into `expertnote_channelProducts`.
 *
 * The MySQL connection is a `Database` object holding the table's rows; the image
 * servers and S3 are the uploader's `Network`. Which queries fail is fixed by the
 * oracles these objects carry.
 */
module App {
  import opened Wrappers
  import opened Js
  import opened Pages
  import opened Listing
  import BaseCrawler
  import S3 = S3Uploader

  // ---------------------------------------------------------------------------
  // The table

  /** A row of `expertnote_channelProducts`, column by column. */
  datatype Row = Row(channelIdx: int, channelProductIdx: JsValue, categoryTitle: JsValue, sellerTitle: JsValue,
                     title: JsValue, price: JsValue, freeShipping: JsValue, thumbnail: JsValue,
                     productLink: JsValue)

  /** Some row has `channel_product_idx = id`. */
  predicate Stored(rows: seq<Row>, id: JsValue) {
    exists i :: 0 <= i < |rows| && rows[i].channelProductIdx == id
  }

  /** `SELECT COUNT(*) … WHERE channel_product_idx = id`. */
  function CountOf(rows: seq<Row>, id: JsValue): (c: nat)
    ensures c <= |rows|
    ensures c > 0 <==> Stored(rows, id)
  {
    if rows == [] then 0
    else
      var c := CountOf(rows[..|rows| - 1], id);
      assert forall i :: 0 <= i < |rows| - 1 ==> rows[..|rows| - 1][i] == rows[i];
      if rows[|rows| - 1].channelProductIdx == id then c + 1 else c
  }

  /** No two rows share a `channel_product_idx`. */
  predicate DistinctIds(rows: seq<Row>) {
    forall i, j :: 0 <= i < j < |rows| ==> rows[i].channelProductIdx != rows[j].channelProductIdx
  }

  /** The MySQL connection and the table behind it. */
  class Database {
    /** Whether the `SELECT` for an id throws. */
    const countFails: JsValue -> bool
    /** Whether the `INSERT` of a row throws. */
    const insertFails: Row -> bool
    /** Whether `db.connect()` succeeds. */
    const connects: bool
    /** The table's rows, in insertion order. */
    var rows: seq<Row>
    /** Whether `db.end()` has been called. */
    var ended: bool

    constructor(countFails: JsValue -> bool, insertFails: Row -> bool, connects: bool, rows: seq<Row>)
      ensures this.countFails == countFails && this.insertFails == insertFails && this.connects == connects
      ensures this.rows == rows && !ended
    {
      this.countFails := countFails;
      this.insertFails := insertFails;
      this.connects := connects;
      this.rows := rows;
      ended := false;
    }

    /** The `COUNT(*)` query for `id`; `Err` when it throws. */
    method Count(id: JsValue) returns (r: Result<nat, string>)
      ensures r == if countFails(id) then Err("query failed") else Ok(CountOf(rows, id))
    {
      if countFails(id) {
        return Err("query failed");
      }
      r := Ok(CountOf(rows, id));
    }

    /** The `INSERT` of `row`; `false` when it throws. */
    method Insert(row: Row) returns (ok: bool)
      modifies this
      ensures ok == !insertFails(row)
      ensures rows == old(rows) + (if ok then [row] else []) && ended == old(ended)
    {
      ok := !insertFails(row);
      if ok {
        rows := rows + [row];
      }
    }

    /** `db.end()`. */
    method End()
      modifies this
      ensures ended && rows == old(rows)
    {
      ended := true;
    }
  }

  // ---------------------------------------------------------------------------
  // _saveProduct

  /** `thumbnailUrl` as a JavaScript value. */
  function UrlValue(u: Option<string>): JsValue {
    if u.Some? then Str(u.value) else Null
  }

  /** The values `_saveProduct` inserts: channel 1, the product's id, and each other
      column from its field when that is truthy or from its default otherwise; the
      thumbnail is the S3 URL, else the original thumbnail, else empty. */
  function RowOf(productData: Object, thumbnailUrl: Option<string>): (row: Row)
    ensures row.channelIdx == 1 && row.channelProductIdx == Get(productData, "id")
    ensures Truthy(Get(productData, "category")) ==> row.categoryTitle == Get(productData, "category")
    ensures !Truthy(Get(productData, "category")) ==> row.categoryTitle == Str("")
    ensures Truthy(Get(productData, "seller")) ==> row.sellerTitle == Get(productData, "seller")
    ensures !Truthy(Get(productData, "seller")) ==> row.sellerTitle == Str("")
    ensures Truthy(Get(productData, "title")) ==> row.title == Get(productData, "title")
    ensures !Truthy(Get(productData, "title")) ==> row.title == Str("")
    ensures Truthy(Get(productData, "price")) ==> row.price == Get(productData, "price")
    ensures !Truthy(Get(productData, "price")) ==> row.price == Num(0.0)
    ensures Truthy(Get(productData, "freeShipping")) ==> row.freeShipping == Get(productData, "freeShipping")
    ensures !Truthy(Get(productData, "freeShipping")) ==> row.freeShipping == Str("N")
    ensures thumbnailUrl.Some? && thumbnailUrl.value != "" ==> row.thumbnail == Str(thumbnailUrl.value)
    ensures thumbnailUrl.None? || thumbnailUrl.value == "" ==> row.thumbnail == Or(Get(productData, "thumbnail"), Str(""))
    ensures Truthy(Get(productData, "productLink")) ==> row.productLink == Get(productData, "productLink")
    ensures !Truthy(Get(productData, "productLink")) ==> row.productLink == Str("")
  {
    Row(1, Get(productData, "id"),
        Or(Get(productData, "category"), Str("")),
        Or(Get(productData, "seller"), Str("")),
        Or(Get(productData, "title"), Str("")),
        Or(Get(productData, "price"), Num(0.0)),
        Or(Get(productData, "freeShipping"), Str("N")),
        Or(Or(UrlValue(thumbnailUrl), Get(productData, "thumbnail")), Str("")),
        Or(Get(productData, "productLink"), Str("")))
  }

  /** No text column of a stored row is left `null` or `undefined`. */
  lemma RowTextColumnsAreStrings(productData: Object, thumbnailUrl: Option<string>)
    requires forall k :: k in productData && k != "id" && k != "price" ==> productData[k].Str? || !Truthy(productData[k])
    ensures var row := RowOf(productData, thumbnailUrl);
      row.categoryTitle.Str? && row.sellerTitle.Str? && row.title.Str? && row.freeShipping.Str?
      && row.thumbnail.Str? && row.productLink.Str?
  {
  }

  // ---------------------------------------------------------------------------
  // One listed product

  /** What the pipeline works with besides its own state. */
  datatype Services = Services(
    web: Web,
    s3: S3.Config,
    serves: string -> Option<S3.Bytes>,
    accepts: S3.PutObject -> bool,
    countFails: JsValue -> bool,
    insertFails: Row -> bool,
    clocks: string -> S3.Clock)

  /** The state the pipeline changes: the table, and the downloads and puts made. */
  datatype World = World(rows: seq<Row>, fetched: seq<string>, stored: seq<S3.PutObject>)

  /** The thumbnail upload for merged product data: only a truthy thumbnail is uploaded,
      to the `hotdeal` folder; a thumbnail that is not a string makes the uploader's
      `trim` throw, which it reports as `null`. */
  function UploadFor(svc: Services, productData: Object, id: string): (o: S3.Outcome)
    ensures !Truthy(Get(productData, "thumbnail")) ==> o == S3.Outcome(None, [], [])
  {
    var thumb := Get(productData, "thumbnail");
    if Truthy(thumb) && thumb.Str? then
      S3.UploadOf(svc.s3, thumb.s, "hotdeal", svc.serves, svc.accepts, svc.clocks(id))
    else S3.Outcome(None, [], [])
  }

  /** The body of the per-product `try` in `_processCrawler`: the new state, and whether
      the product was saved. */
  function Step(svc: Services, kind: BaseCrawler.CrawlerKind, category: string, w: World, item: ListingItem): (World, bool)
  {
    var id := Str(item.id);
    if svc.countFails(id) || Stored(w.rows, id) then (w, false)
    else WithDetail(svc, w, item, BaseCrawler.DetailOf(kind, svc.web, category, item.id))
  }

  /** What follows the detail lookup: a lookup that throws or yields `null` skips the
      product, a detail is stored. */
  function WithDetail(svc: Services, w: World, item: ListingItem, d: Result<Option<Object>, string>): (World, bool)
  {
    match d
    case Err(_) => (w, false)
    case Ok(None) => (w, false)
    case Ok(Some(detail)) => Store(svc, w, item, detail)
  }

  /** A product with a detail: merged, its thumbnail uploaded, its row inserted. */
  function Store(svc: Services, w: World, item: ListingItem, detail: Object): (World, bool)
  {
    var productData := Spread(item.ToObject(), detail);
    var o := UploadFor(svc, productData, item.id);
    Insert(svc, World(w.rows, w.fetched + o.fetched, w.stored + o.stored), RowOf(productData, o.url))
  }

  /** The insert of `row`: appended unless it throws. */
  function Insert(svc: Services, w: World, row: Row): (World, bool)
  {
    if svc.insertFails(row) then (w, false) else (w.(rows := w.rows + [row]), true)
  }

  /** Storing a product appends at most its own row: with its id and, since neither
      crawler's detail has an `id` or `category`, the listing's id and category. */
  lemma StoreRows(svc: Services, w: World, item: ListingItem, detail: Object)
    requires "id" !in detail && "category" !in detail
    ensures var (w', saved) := Store(svc, w, item, detail);
      && (saved ==> && |w'.rows| == |w.rows| + 1 && w'.rows[..|w.rows|] == w.rows
                    && w'.rows[|w.rows|].channelProductIdx == Str(item.id)
                    && w'.rows[|w.rows|].categoryTitle == Str(item.category)
                    && w'.rows[|w.rows|].channelIdx == 1)
      && (!saved ==> w'.rows == w.rows)
      && |w.fetched| <= |w'.fetched| && w'.fetched[..|w.fetched|] == w.fetched
  {
    var productData := Spread(item.ToObject(), detail);
    assert Get(productData, "id") == Str(item.id);
    assert Get(productData, "category") == Str(item.category);
    var o := UploadFor(svc, productData, item.id);
    assert (w.fetched + o.fetched)[..|w.fetched|] == w.fetched;
  }

  /** A product whose id is stored already, whose lookup fails, or whose detail is
      `null` leaves everything as it was: nothing is fetched, uploaded or inserted. */
  lemma SkippedProducts(svc: Services, kind: BaseCrawler.CrawlerKind, category: string, w: World, item: ListingItem)
    requires || Stored(w.rows, Str(item.id))
             || svc.countFails(Str(item.id))
             || BaseCrawler.DetailOf(kind, svc.web, category, item.id) == Ok(None)
    ensures Step(svc, kind, category, w, item) == (w, false)
  {
  }

  /** A saved product appends one row, for its own id, which was not stored before; the
      row's `category_title` is the listing item's category. A product that is not saved
      leaves the rows as they were. */
  lemma StepRows(svc: Services, kind: BaseCrawler.CrawlerKind, category: string, w: World, item: ListingItem)
    ensures var (w', saved) := Step(svc, kind, category, w, item);
      && (saved ==> !Stored(w.rows, Str(item.id))
                    && |w'.rows| == |w.rows| + 1 && w'.rows[..|w.rows|] == w.rows
                    && w'.rows[|w.rows|].channelProductIdx == Str(item.id)
                    && w'.rows[|w.rows|].categoryTitle == Str(item.category)
                    && w'.rows[|w.rows|].channelIdx == 1)
      && (!saved ==> w'.rows == w.rows)
      && |w.fetched| <= |w'.fetched| && w'.fetched[..|w.fetched|] == w.fetched
  {
    var id := Str(item.id);
    if !svc.countFails(id) && !Stored(w.rows, id) {
      DetailRows(svc, w, item, BaseCrawler.DetailOf(kind, svc.web, category, item.id));
    }
  }

  /** After the lookup, a saved product appends one row with its id and category, and an
      unsaved one leaves the rows as they were; downloads are only ever appended. */
  lemma DetailRows(svc: Services, w: World, item: ListingItem, d: Result<Option<Object>, string>)
    requires d.Ok? && d.value.Some? ==> "id" !in d.value.value && "category" !in d.value.value
    ensures var (w', saved) := WithDetail(svc, w, item, d);
      && (saved ==> && |w'.rows| == |w.rows| + 1 && w'.rows[..|w.rows|] == w.rows
                    && w'.rows[|w.rows|].channelProductIdx == Str(item.id)
                    && w'.rows[|w.rows|].categoryTitle == Str(item.category)
                    && w'.rows[|w.rows|].channelIdx == 1)
      && (!saved ==> w'.rows == w.rows)
      && |w.fetched| <= |w'.fetched| && w'.fetched[..|w.fetched|] == w.fetched
  {
    if d.Ok? && d.value.Some? {
      StoreRows(svc, w, item, d.value.value);
    }
  }

  // ---------------------------------------------------------------------------
  // _processCrawler

  /** The counters and state after some of the products. */
  datatype Tally = Tally(world: World, processed: nat, saved: nat)

  /** The loop of `_processCrawler` over `items`, from `t`. */
  function Process(svc: Services, kind: BaseCrawler.CrawlerKind, category: string, t: Tally, items: seq<ListingItem>): Tally
  {
    if items == [] then t
    else Next(svc, kind, category, Process(svc, kind, category, t, items[..|items| - 1]), items[|items| - 1])
  }

  /** One pass of the loop of `_processCrawler`: the product counts as processed, and as
      saved when it was. */
  function Next(svc: Services, kind: BaseCrawler.CrawlerKind, category: string, before: Tally, item: ListingItem): Tally
  {
    var (w, saved) := Step(svc, kind, category, before.world, item);
    Tally(w, before.processed + 1, if saved then before.saved + 1 else before.saved)
  }

  /** The loop after its first `n` passes over `items`, by index. */
  function ProcessPrefix(svc: Services, kind: BaseCrawler.CrawlerKind, category: string, t: Tally,
                         items: seq<ListingItem>, n: nat): Tally
    requires n <= |items|
  {
    if n == 0 then t else Next(svc, kind, category, ProcessPrefix(svc, kind, category, t, items, n - 1), items[n - 1])
  }

  /** The first `n` passes are the loop over the first `n` products. */
  lemma {:induction false} ProcessPrefixIs(svc: Services, kind: BaseCrawler.CrawlerKind, category: string, t: Tally,
                                           items: seq<ListingItem>, n: nat)
    requires n <= |items|
    ensures ProcessPrefix(svc, kind, category, t, items, n) == Process(svc, kind, category, t, items[..n])
  {
    if n > 0 {
      ProcessPrefixIs(svc, kind, category, t, items, n - 1);
      var prefix := items[..n];
      assert prefix[..n - 1] == items[..n - 1] && prefix[n - 1] == items[n - 1];
      assert Process(svc, kind, category, t, prefix)
        == Next(svc, kind, category, Process(svc, kind, category, t, items[..n - 1]), items[n - 1]);
    }
  }

  /** Every listed product is counted as processed; only saved ones as saved, and each
      saved one added exactly one row. */
  lemma {:induction false} ProcessCounts(svc: Services, kind: BaseCrawler.CrawlerKind, category: string, t: Tally,
                                         items: seq<ListingItem>)
    ensures var r := Process(svc, kind, category, t, items);
      && r.processed == t.processed + |items|
      && t.saved <= r.saved <= t.saved + |items|
      && |r.world.rows| == |t.world.rows| + (r.saved - t.saved)
      && r.world.rows[..|t.world.rows|] == t.world.rows
  {
    if items != [] {
      var before := Process(svc, kind, category, t, items[..|items| - 1]);
      ProcessCounts(svc, kind, category, t, items[..|items| - 1]);
      StepRows(svc, kind, category, before.world, items[|items| - 1]);
    }
  }

  /** No id is inserted twice: the rows keep distinct ids, even when the listing repeats
      an id, because a product is only inserted after its id was looked up and not found. */
  lemma {:induction false} ProcessKeepsIdsDistinct(svc: Services, kind: BaseCrawler.CrawlerKind, category: string,
                                                   t: Tally, items: seq<ListingItem>)
    requires DistinctIds(t.world.rows)
    ensures DistinctIds(Process(svc, kind, category, t, items).world.rows)
  {
    if items != [] {
      var before := Process(svc, kind, category, t, items[..|items| - 1]);
      ProcessKeepsIdsDistinct(svc, kind, category, t, items[..|items| - 1]);
      var item := items[|items| - 1];
      StepRows(svc, kind, category, before.world, item);
      var (w, saved) := Step(svc, kind, category, before.world, item);
      if saved {
        var n := |before.world.rows|;
        forall i, j | 0 <= i < j < |w.rows| ensures w.rows[i].channelProductIdx != w.rows[j].channelProductIdx {
          if j == n {
            assert w.rows[i] == before.world.rows[i];
          } else {
            assert w.rows[i] == before.world.rows[i] && w.rows[j] == before.world.rows[j];
          }
        }
      }
    }
  }

  /** Processing a listing in two parts is processing the first part, then the second. */
  lemma {:induction false} ProcessAppend(svc: Services, kind: BaseCrawler.CrawlerKind, category: string, t: Tally,
                                         a: seq<ListingItem>, b: seq<ListingItem>)
    ensures Process(svc, kind, category, t, a + b) == Process(svc, kind, category, Process(svc, kind, category, t, a), b)
  {
    if b != [] {
      assert (a + b)[..|a + b| - 1] == a + b[..|b| - 1];
      assert (a + b)[|a + b| - 1] == b[|b| - 1];
      ProcessAppend(svc, kind, category, t, a, b[..|b| - 1]);
    } else {
      assert a + b == a;
    }
  }

  /** An error while handling one product is contained: it only counts as processed,
      and the products after it are handled as if it had not been listed. */
  lemma FailureIsolated(svc: Services, kind: BaseCrawler.CrawlerKind, category: string, t: Tally,
                        a: seq<ListingItem>, item: ListingItem, b: seq<ListingItem>)
    requires svc.countFails(Str(item.id))
    ensures var before := Process(svc, kind, category, t, a);
      Process(svc, kind, category, t, a + [item] + b)
        == Process(svc, kind, category, before.(processed := before.processed + 1), b)
  {
    ProcessAppend(svc, kind, category, t, a + [item], b);
    ProcessAppend(svc, kind, category, t, a, [item]);
    assert [item][..0] == [];
  }

  /** Whether a product not stored yet is saved: its lookup yields a detail and the
      insert of its row succeeds. Neither depends on the rows already stored. */
  predicate Saves(svc: Services, kind: BaseCrawler.CrawlerKind, category: string, item: ListingItem) {
    WithDetail(svc, World([], [], []), item, BaseCrawler.DetailOf(kind, svc.web, category, item.id)).1
  }

  /** A product the next pass leaves alone: its count query throws, its id is stored, or
      it would not be saved. */
  predicate Skipped(svc: Services, kind: BaseCrawler.CrawlerKind, category: string, rows: seq<Row>, item: ListingItem) {
    svc.countFails(Str(item.id)) || Stored(rows, Str(item.id)) || !Saves(svc, kind, category, item)
  }

  /** Whether a looked-up product is saved does not depend on the state it is stored into. */
  lemma WithDetailSaved(svc: Services, w: World, item: ListingItem, d: Result<Option<Object>, string>)
    ensures WithDetail(svc, w, item, d).1 == WithDetail(svc, World([], [], []), item, d).1
  {
    if d.Ok? && d.value.Some? {
      var productData := Spread(item.ToObject(), d.value.value);
      var o := UploadFor(svc, productData, item.id);
      assert WithDetail(svc, w, item, d).1 == !svc.insertFails(RowOf(productData, o.url));
    }
  }

  /** A product is saved exactly when its count query succeeds, its id is not stored
      yet, and it would be saved. */
  lemma StepSaves(svc: Services, kind: BaseCrawler.CrawlerKind, category: string, w: World, item: ListingItem)
    ensures Step(svc, kind, category, w, item).1 <==> !Skipped(svc, kind, category, w.rows, item)
  {
    WithDetailSaved(svc, w, item, BaseCrawler.DetailOf(kind, svc.web, category, item.id));
  }

  /** A stored id stays stored when rows are appended. */
  lemma StoredKept(rows: seq<Row>, rows': seq<Row>, id: JsValue)
    requires Stored(rows, id) && |rows| <= |rows'| && rows'[..|rows|] == rows
    ensures Stored(rows', id)
  {
    var i :| 0 <= i < |rows| && rows[i].channelProductIdx == id;
    assert rows'[i] == rows[i];
  }

  /** A step keeps every product left alone, and leaves its own product alone from then on. */
  lemma StepLeavesDone(svc: Services, kind: BaseCrawler.CrawlerKind, category: string, w: World,
                       item: ListingItem, other: ListingItem)
    ensures var rows := Step(svc, kind, category, w, item).0.rows;
      && Skipped(svc, kind, category, rows, item)
      && (Skipped(svc, kind, category, w.rows, other) ==> Skipped(svc, kind, category, rows, other))
  {
    StepRows(svc, kind, category, w, item);
    StepSaves(svc, kind, category, w, item);
    var (w', saved) := Step(svc, kind, category, w, item);
    if saved {
      assert w'.rows[|w.rows|].channelProductIdx == Str(item.id);
    }
    if Stored(w.rows, Str(other.id)) {
      StoredKept(w.rows, w'.rows, Str(other.id));
    }
  }

  /** After a pass over `items`, the next pass leaves every one of them alone. */
  lemma {:induction false} ProcessLeavesDone(svc: Services, kind: BaseCrawler.CrawlerKind, category: string,
                                             t: Tally, items: seq<ListingItem>)
    ensures var rows := Process(svc, kind, category, t, items).world.rows;
      forall k :: 0 <= k < |items| ==> Skipped(svc, kind, category, rows, items[k])
  {
    if items != [] {
      var init := items[..|items| - 1];
      var item := items[|items| - 1];
      var before := Process(svc, kind, category, t, init);
      ProcessLeavesDone(svc, kind, category, t, init);
      var rows := Step(svc, kind, category, before.world, item).0.rows;
      forall k | 0 <= k < |items| ensures Skipped(svc, kind, category, rows, items[k]) {
        if k < |init| {
          assert items[k] == init[k];
          StepLeavesDone(svc, kind, category, before.world, item, items[k]);
        } else {
          assert k == |items| - 1;
          StepLeavesDone(svc, kind, category, before.world, item, item);
        }
      }
      assert Process(svc, kind, category, t, items).world.rows == rows;
    }
  }

  /** A pass over products it leaves alone stores nothing and saves nothing. */
  lemma {:induction false} ProcessAllSkipped(svc: Services, kind: BaseCrawler.CrawlerKind, category: string,
                                             t: Tally, items: seq<ListingItem>)
    requires forall k :: 0 <= k < |items| ==> Skipped(svc, kind, category, t.world.rows, items[k])
    ensures var r := Process(svc, kind, category, t, items);
      r.world.rows == t.world.rows && r.saved == t.saved
  {
    if items != [] {
      var init := items[..|items| - 1];
      var item := items[|items| - 1];
      assert forall k :: 0 <= k < |init| ==> init[k] == items[k];
      ProcessAllSkipped(svc, kind, category, t, init);
      var before := Process(svc, kind, category, t, init);
      StepRows(svc, kind, category, before.world, item);
      StepSaves(svc, kind, category, before.world, item);
    }
  }

  /** Crawling the same listing again stores no new row: every product the first pass
      saved is found by its id, and every other one is skipped again. */
  lemma ProcessIdempotent(svc: Services, kind: BaseCrawler.CrawlerKind, category: string, t: Tally,
                          items: seq<ListingItem>)
    ensures var w1 := Process(svc, kind, category, t, items).world;
      var again := Process(svc, kind, category, Tally(w1, 0, 0), items);
      again.world.rows == w1.rows && again.saved == 0
  {
    var w1 := Process(svc, kind, category, t, items).world;
    ProcessLeavesDone(svc, kind, category, t, items);
    ProcessAllSkipped(svc, kind, category, Tally(w1, 0, 0), items);
  }

  /** The crawler classes `this.crawlers` names. */
  const Crawlers: map<string, BaseCrawler.CrawlerKind> := map["ppomppu" := BaseCrawler.PpomppuCrawler]

  /** `_processCrawler(crawlerName, category)` from state `w`: an unknown crawler or a
      failing `getProducts` throws; otherwise the product loop from zero counters. */
  function CrawlOf(svc: Services, crawlers: map<string, BaseCrawler.CrawlerKind>, crawlerName: string,
                   category: string, w: World): (r: Result<Tally, string>)
    ensures crawlerName !in crawlers ==> r.Err?
    ensures r.Ok? ==> r.value.saved <= r.value.processed
  {
    if crawlerName !in crawlers then Err("unsupported crawler: " + crawlerName)
    else
      match BaseCrawler.ProductsOf(crawlers[crawlerName], svc.web, category)
      case Err(e) => Err(e)
      case Ok(items) =>
        var t := Process(svc, crawlers[crawlerName], category, Tally(w, 0, 0), items);
        ProcessCounts(svc, crawlers[crawlerName], category, Tally(w, 0, 0), items);
        Ok(t)
  }

  // ---------------------------------------------------------------------------
  // run

  /** A `{crawler, category}` crawl target. */
  datatype Target = Target(crawler: string, category: string)

  /** The targets `run` crawls. */
  const DefaultTargets := [Target("ppomppu", "ppomppu")]

  /** The totals after some of the targets, and whether no target has thrown. */
  datatype RunOutcome = RunOutcome(totals: Tally, completed: bool)

  /** The target loop of `run` from totals `t`, after its first `n` targets: each
      target's counts are added to the totals; the first target that throws ends the
      loop. */
  function RunOf(svc: Services, crawlers: map<string, BaseCrawler.CrawlerKind>, targets: seq<Target>, t: Tally,
                 n: nat): RunOutcome
    requires n <= |targets|
  {
    if n == 0 then RunOutcome(t, true)
    else
      var r := RunOf(svc, crawlers, targets, t, n - 1);
      if !r.completed then r
      else
        match CrawlOf(svc, crawlers, targets[n - 1].crawler, targets[n - 1].category, r.totals.world)
        case Err(_) => RunOutcome(r.totals, false)
        case Ok(c) => RunOutcome(Tally(c.world, r.totals.processed + c.processed, r.totals.saved + c.saved), true)
  }

  /** One more target, from totals the loop has reached without an error. */
  lemma RunNext(svc: Services, crawlers: map<string, BaseCrawler.CrawlerKind>, targets: seq<Target>, t: Tally,
                n: nat, totals: Tally, result: Result<Tally, string>)
    requires n < |targets| && RunOf(svc, crawlers, targets, t, n) == RunOutcome(totals, true)
    requires result == CrawlOf(svc, crawlers, targets[n].crawler, targets[n].category, totals.world)
    ensures result.Err? ==> RunOf(svc, crawlers, targets, t, n + 1) == RunOutcome(totals, false)
    ensures result.Ok? ==>
      (RunOf(svc, crawlers, targets, t, n + 1)
         == RunOutcome(Tally(result.value.world, totals.processed + result.value.processed,
                             totals.saved + result.value.saved), true))
  {
  }

  /** Once the loop has stopped, later targets change nothing. */
  lemma {:induction false} RunStopped(svc: Services, crawlers: map<string, BaseCrawler.CrawlerKind>,
                                      targets: seq<Target>, t: Tally, k: nat, n: nat)
    requires k <= n <= |targets| && !RunOf(svc, crawlers, targets, t, k).completed
    ensures RunOf(svc, crawlers, targets, t, n) == RunOf(svc, crawlers, targets, t, k)
    decreases n
  {
    if k < n {
      RunStopped(svc, crawlers, targets, t, k, n - 1);
    }
  }

  /** A target whose crawler is unknown stops the run: the targets after it are not
      crawled, and the totals are those of the targets before it. */
  lemma UnknownCrawlerStops(svc: Services, crawlers: map<string, BaseCrawler.CrawlerKind>,
                            targets: seq<Target>, k: nat, t: Tally)
    requires k < |targets| && targets[k].crawler !in crawlers
    ensures RunOf(svc, crawlers, targets, t, |targets|)
      == RunOutcome(RunOf(svc, crawlers, targets, t, k).totals, false)
  {
    var before := RunOf(svc, crawlers, targets, t, k);
    assert RunOf(svc, crawlers, targets, t, k + 1) == RunOutcome(before.totals, false);
    RunStopped(svc, crawlers, targets, t, k + 1, |targets|);
  }

  /** Over a whole run no more products are saved than processed. */
  lemma {:induction false} RunSavedAtMostProcessed(svc: Services, crawlers: map<string, BaseCrawler.CrawlerKind>,
                                                   targets: seq<Target>, t: Tally, n: nat)
    requires n <= |targets| && t.saved <= t.processed
    ensures RunOf(svc, crawlers, targets, t, n).totals.saved <= RunOf(svc, crawlers, targets, t, n).totals.processed
  {
    if n > 0 {
      RunSavedAtMostProcessed(svc, crawlers, targets, t, n - 1);
    }
  }

  /** The configuration `_initS3Uploader` passes to the uploader. */
  function UploaderInput(accessKeyId: Option<string>, secretAccessKey: Option<string>): S3.Config {
    map["accessKeyId" := accessKeyId, "secretAccessKey" := secretAccessKey,
        "region" := Some("ap-northeast-2"), "bucket" := Some("record-php")]
  }

  // ---------------------------------------------------------------------------
  // The application

  class HotdealScraper {
    /** `this.crawlers`. */
    const crawlers: map<string, BaseCrawler.CrawlerKind>
    /** `this.db`; `null` until connected. */
    var db: Database?
    /** `this.s3Uploader`; `null` until initialised. */
    var s3Uploader: S3.S3Uploader?

    /** `new HotdealScraper()`; reading `config.json` is not modelled. */
    constructor()
      ensures crawlers == Crawlers && db == null && s3Uploader == null
    {
      crawlers := Crawlers;
      db := null;
      s3Uploader := null;
    }

    /** `_initDatabase()`: `conn` is what `mysql.createConnection` yields, `null` when it
        throws; `false` when the connection fails. */
    method InitDatabase(conn: Database?) returns (ok: bool)
      modifies this
      ensures conn != null ==> db == conn
      ensures conn == null ==> db == old(db)
      ensures ok <==> conn != null && conn.connects
      ensures s3Uploader == old(s3Uploader)
    {
      if conn == null {
        return false;
      }
      db := conn;
      ok := conn.connects;
    }

    /** `_initS3Uploader()`. */
    method InitS3Uploader(accessKeyId: Option<string>, secretAccessKey: Option<string>)
      modifies this
      ensures s3Uploader != null && fresh(s3Uploader)
      ensures s3Uploader.config == S3.ConfigOf(UploaderInput(accessKeyId, secretAccessKey))
      ensures db == old(db)
    {
      s3Uploader := new S3.S3Uploader(UploaderInput(accessKeyId, secretAccessKey));
    }

    /** `_isProductExists(productId)`: whether some row has that `channel_product_idx`,
        whatever its channel; `Err` when the query throws. */
    method IsProductExists(productId: string) returns (r: Result<bool, string>)
      requires db != null
      ensures r == if db.countFails(Str(productId)) then Err("query failed") else Ok(Stored(db.rows, Str(productId)))
    {
      var count := db.Count(Str(productId));
      if count.Err? {
        return Err(count.error);
      }
      r := Ok(count.value > 0);
    }

    /** `_saveProduct(productData, thumbnailUrl)`; `false` when the insert throws. */
    method SaveProduct(productData: Object, thumbnailUrl: Option<string>) returns (ok: bool)
      requires db != null
      modifies db
      ensures ok == !db.insertFails(RowOf(productData, thumbnailUrl))
      ensures db.rows == old(db.rows) + (if ok then [RowOf(productData, thumbnailUrl)] else [])
    {
      ok := db.Insert(RowOf(productData, thumbnailUrl));
    }

    /** The services as this scraper sees them. */
    function ServicesOf(web: Web, net: S3.Network, clocks: string -> S3.Clock): Services
      reads this
      requires db != null && s3Uploader != null
    {
      Services(web, s3Uploader.config, net.serves, net.accepts, db.countFails, db.insertFails, clocks)
    }

    /** The thumbnail upload of the product loop: only a truthy string is uploaded. */
    method UploadThumbnail(productData: Object, id: string, web: Web, net: S3.Network, clocks: string -> S3.Clock)
      returns (thumbnailUrl: Option<string>)
      requires db != null && s3Uploader != null
      modifies net
      ensures var o := UploadFor(ServicesOf(web, net, clocks), productData, id);
        && thumbnailUrl == o.url
        && net.fetched == old(net.fetched) + o.fetched
        && net.stored == old(net.stored) + o.stored
    {
      thumbnailUrl := None;
      var thumb := Get(productData, "thumbnail");
      if Truthy(thumb) && thumb.Str? {
        thumbnailUrl := s3Uploader.UploadImageFromUrl(thumb.s, "hotdeal", net, clocks(id));
      } else {
        assert net.fetched == old(net.fetched) + [];
        assert net.stored == old(net.stored) + [];
      }
    }

    /** The rest of the product loop's `try` once the product data is merged: the
        thumbnail upload, then the insert with the uploaded URL. */
    method StoreProduct(productData: Object, id: string, web: Web, net: S3.Network, clocks: string -> S3.Clock)
      returns (saved: bool)
      requires db != null && s3Uploader != null
      modifies db, net
      ensures var svc := ServicesOf(web, net, clocks);
        var o := UploadFor(svc, productData, id);
        (World(db.rows, net.fetched, net.stored), saved)
        == Insert(svc, World(old(db.rows), old(net.fetched) + o.fetched, old(net.stored) + o.stored), RowOf(productData, o.url))
    {
      ghost var o := UploadFor(ServicesOf(web, net, clocks), productData, id);
      ghost var rows0 := db.rows;
      var thumbnailUrl := UploadThumbnail(productData, id, web, net, clocks);
      saved := SaveProduct(productData, thumbnailUrl);
      ghost var w1 := World(rows0, old(net.fetched) + o.fetched, old(net.stored) + o.stored);
      if saved {
        assert db.rows == w1.rows + [RowOf(productData, o.url)];
      } else {
        assert db.rows == rows0 + [];
      }
      assert World(db.rows, net.fetched, net.stored) == if saved then w1.(rows := db.rows) else w1;
    }

    /** One pass of the product loop: the body of its `try`. */
    method ProcessProduct(kind: BaseCrawler.CrawlerKind, category: string, product: ListingItem,
                          web: Web, net: S3.Network, clocks: string -> S3.Clock)
      returns (saved: bool)
      requires db != null && s3Uploader != null
      modifies db, net
      ensures (World(db.rows, net.fetched, net.stored), saved)
        == Step(ServicesOf(web, net, clocks), kind, category, World(old(db.rows), old(net.fetched), old(net.stored)), product)
    {
      var known := IsProductExists(product.id);
      if known.Err? || known.value {
        return false;
      }
      var detail := BaseCrawler.GetProductDetail(kind, web, category, product.id);
      saved := ProcessDetail(product, detail, web, net, clocks);
    }

    /** The product loop's `try` after the detail lookup: a lookup that threw or yielded
        `null` skips the product, a detail is merged over the listing item and stored. */
    method ProcessDetail(product: ListingItem, detail: Result<Option<Object>, string>,
                         web: Web, net: S3.Network, clocks: string -> S3.Clock)
      returns (saved: bool)
      requires db != null && s3Uploader != null
      modifies db, net
      ensures (World(db.rows, net.fetched, net.stored), saved)
        == WithDetail(ServicesOf(web, net, clocks), World(old(db.rows), old(net.fetched), old(net.stored)), product, detail)
    {
      if detail.Err? || detail.value.None? {
        return false;
      }
      var productData := Spread(product.ToObject(), detail.value.value);
      saved := StoreProduct(productData, product.id, web, net, clocks);
    }

    /** `_processCrawler(crawlerName, category)`: the counters, or `Err` when it throws. */
    method ProcessCrawler(crawlerName: string, category: string, web: Web, net: S3.Network,
                          clocks: string -> S3.Clock)
      returns (r: Result<Tally, string>)
      requires db != null && s3Uploader != null
      modifies db, net
      ensures var c := CrawlOf(ServicesOf(web, net, clocks), crawlers, crawlerName, category,
                               World(old(db.rows), old(net.fetched), old(net.stored)));
        && r == c
        && (c.Ok? ==> World(db.rows, net.fetched, net.stored) == c.value.world)
        && (c.Err? ==> db.rows == old(db.rows) && net.fetched == old(net.fetched) && net.stored == old(net.stored))
    {
      if crawlerName !in crawlers {
        return Err("unsupported crawler: " + crawlerName);
      }
      var kind := crawlers[crawlerName];
      var listed := BaseCrawler.GetProducts(kind, web, category);
      if listed.Err? {
        return Err(listed.error);
      }
      var t := ProcessProducts(kind, category, listed.value, web, net, clocks);
      r := Ok(t);
    }

    /** The product loop of `_processCrawler`: every product counted as processed, the
        saved ones as saved. */
    method ProcessProducts(kind: BaseCrawler.CrawlerKind, category: string, products: seq<ListingItem>,
                           web: Web, net: S3.Network, clocks: string -> S3.Clock)
      returns (t: Tally)
      requires db != null && s3Uploader != null
      modifies db, net
      ensures t == Process(ServicesOf(web, net, clocks), kind, category,
                           Tally(World(old(db.rows), old(net.fetched), old(net.stored)), 0, 0), products)
      ensures World(db.rows, net.fetched, net.stored) == t.world
    {
      ghost var svc := ServicesOf(web, net, clocks);
      ghost var w0 := World(db.rows, net.fetched, net.stored);
      var processed := 0;
      var saved := 0;
      var i := 0;
      while i < |products|
        invariant 0 <= i <= |products|
        invariant Tally(World(db.rows, net.fetched, net.stored), processed, saved)
          == ProcessPrefix(svc, kind, category, Tally(w0, 0, 0), products, i)
      {
        ghost var before := Tally(World(db.rows, net.fetched, net.stored), processed, saved);
        var product := products[i];
        processed := processed + 1;
        var ok := ProcessProduct(kind, category, product, web, net, clocks);
        assert svc == ServicesOf(web, net, clocks);
        if ok {
          saved := saved + 1;
        }
        assert Tally(World(db.rows, net.fetched, net.stored), processed, saved) == Next(svc, kind, category, before, product);
        i := i + 1;
      }
      ProcessPrefixIs(svc, kind, category, Tally(w0, 0, 0), products, i);
      assert products[..i] == products;
      t := Tally(World(db.rows, net.fetched, net.stored), processed, saved);
    }

    /** The target loop of `run()`: each target crawled in turn, the counts added up,
        until a target throws. */
    method CrawlTargets(targets: seq<Target>, web: Web, net: S3.Network, clocks: string -> S3.Clock)
      returns (o: RunOutcome)
      requires db != null && s3Uploader != null
      modifies db, net
      ensures o == RunOf(ServicesOf(web, net, clocks), crawlers, targets,
                         Tally(World(old(db.rows), old(net.fetched), old(net.stored)), 0, 0), |targets|)
      ensures World(db.rows, net.fetched, net.stored) == o.totals.world
    {
      ghost var svc := ServicesOf(web, net, clocks);
      ghost var t0 := Tally(World(db.rows, net.fetched, net.stored), 0, 0);
      var totalProcessed: nat := 0;
      var totalSaved: nat := 0;
      var i := 0;
      while i < |targets|
        invariant 0 <= i <= |targets|
        invariant svc == ServicesOf(web, net, clocks)
        invariant RunOf(svc, crawlers, targets, t0, i)
          == RunOutcome(Tally(World(db.rows, net.fetched, net.stored), totalProcessed, totalSaved), true)
      {
        ghost var totals := Tally(World(db.rows, net.fetched, net.stored), totalProcessed, totalSaved);
        var target := targets[i];
        var result := ProcessCrawler(target.crawler, target.category, web, net, clocks);
        assert svc == ServicesOf(web, net, clocks);
        RunNext(svc, crawlers, targets, t0, i, totals, result);
        if result.Err? {
          RunStopped(svc, crawlers, targets, t0, i + 1, |targets|);
          return RunOutcome(Tally(World(db.rows, net.fetched, net.stored), totalProcessed, totalSaved), false);
        }
        totalProcessed := totalProcessed + result.value.processed;
        totalSaved := totalSaved + result.value.saved;
        i := i + 1;
      }
      o := RunOutcome(Tally(World(db.rows, net.fetched, net.stored), totalProcessed, totalSaved), true);
    }

    /** `run()` on a new scraper: connect, set up the uploader, crawl the targets in order
        adding up the counts, and close the connection if one was made. `None` when the run
        stopped on an error. */
    method Run(targets: seq<Target>, conn: Database?, accessKeyId: Option<string>, secretAccessKey: Option<string>,
               web: Web, net: S3.Network, clocks: string -> S3.Clock)
      returns (totals: Option<Tally>)
      requires db == null && s3Uploader == null
      modifies this, conn, net
      ensures conn == null ==> totals == None && net.fetched == old(net.fetched) && net.stored == old(net.stored)
      ensures conn != null ==> conn.ended
      ensures conn != null && !conn.connects ==>
        totals == None && conn.rows == old(conn.rows) && net.fetched == old(net.fetched) && net.stored == old(net.stored)
      ensures conn != null && conn.connects ==>
        var svc := Services(web, S3.ConfigOf(UploaderInput(accessKeyId, secretAccessKey)), net.serves, net.accepts,
                            conn.countFails, conn.insertFails, clocks);
        var o := RunOf(svc, crawlers, targets, Tally(World(old(conn.rows), old(net.fetched), old(net.stored)), 0, 0), |targets|);
        && World(conn.rows, net.fetched, net.stored) == o.totals.world
        && totals == (if o.completed then Some(o.totals) else None)
    {
      var connected := InitDatabase(conn);
      if !connected {
        if db != null {
          db.End();
        }
        return None;
      }
      InitS3Uploader(accessKeyId, secretAccessKey);
      var o := CrawlTargets(targets, web, net, clocks);
      db.End();
      totals := if o.completed then Some(o.totals) else None;
    }
  }
}
