/**
 * What the crawlers read from the sites, as the text their CSS selectors extract.
 * Fetching, EUC-KR decoding and HTML parsing are replaced by `Web`, which maps a
 * page URL to its extracted text, or to `None` when fetching or parsing throws.
 */
module Pages {
  import opened Wrappers

  /** One `.baseList` row of a board listing: the raw text of `.baseList-numb`,
      `.subject_preface` and `.baseList-small`. */
  datatype ListingRow = ListingRow(numb: string, preface: string, small: string)

  /** A Ppomppu article page: `#topTitle .subject_preface`, `#comment`, `#topTitle h1`,
      the `href` attribute and the text of `.topTitle-link a`, and the `src` of the
      first image in `.board-contents` (absent attributes are `None`). */
  datatype PpomppuView = PpomppuView(
    preface: string, comment: string, heading: string,
    linkHref: Option<string>, linkText: string, imageSrc: Option<string>)

  /** A Quasarzone sale page: `.common-view-area .label` and `.title`, the `og:image`
      meta content, the texts of the `td` cells of `.market-info-view-table`, and
      `.ca_name`. */
  datatype QuasarView = QuasarView(
    labelText: string, titleText: string, ogImage: Option<string>,
    cells: seq<string>, categoryName: string)

  /** The sites, by page URL. */
  datatype Web = Web(
    listing: string -> Option<seq<ListingRow>>,
    ppomppuView: string -> Option<PpomppuView>,
    quasarView: string -> Option<QuasarView>)

  /** `.find('td').eq(i).text()`: the text of the i-th cell, empty when there is none. */
  function Cell(cells: seq<string>, i: nat): (t: string)
    ensures i >= |cells| ==> t == ""
  {
    if i < |cells| then cells[i] else ""
  }
}
