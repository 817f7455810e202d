/**
 * What the scraper sees of the web: parsed pages reduced to the tables, cells
 * and labelled texts the code looks up, the values it stores in its records,
 * the exceptions it can raise, and the external collaborators (page fetching,
 * URL splitting and quoting, decimal and date parsing) as opaque functions.
 */
module Pages {
  import opened Wrappers

  /** A `<td>`: its text, the `href` of its `<a>` (None when there is no link or no href),
      and its CSS classes. */
  datatype Cell = Cell(text: string, href: Option<string>, classes: set<string>)

  /** A `<tr>`: its `<td>` cells in order. */
  type Row = seq<Cell>

  /** A search-results page: each `<table>` by its id, with all its rows, header row first. */
  type SearchPage = map<string, seq<Row>>

  /** A cell of the key-statistics table: its text and the text of its `<span>`, if any. */
  datatype StatCell = StatCell(text: string, span: Option<string>)

  /**
   * A security's detail page, as the three page readers look at it. Each
   * Option is None when the lookup that reads it finds nothing.
   *  - titleBox: the `<h1>` text of the first `div.snapshotTitleBox`;
   *  - keyStats: the rows of the first `table.overviewKeyStatsTable`;
   *  - securityName, price, priceDetail, priceTime, isin: the texts of
   *    `span.securityName`, `#Col0Price`, `#Col0PriceDetail`, `#Col0PriceTime`, `#Col0Isin`;
   *  - labelled: for each text node searched for by its exact text, the text two
   *    siblings after its parent (None when that navigation fails).
   */
  datatype DetailPage = DetailPage(
    titleBox: Option<string>,
    keyStats: Option<seq<seq<StatCell>>>,
    securityName: Option<string>,
    price: Option<string>,
    priceDetail: Option<string>,
    priceTime: Option<string>,
    isin: Option<string>,
    labelled: map<string, Option<string>>)

  /** A `decimal.Decimal`, as coefficient times ten to the exponent. */
  datatype Decimal = Decimal(coefficient: int, exponent: int)

  /** A `datetime.date`. */
  datatype Date = Date(year: int, month: int, day: int)

  /** The values stored in a security record. */
  datatype Value = Str(text: string) | Number(number: Decimal) | Day(date: Date)

  /** A security record: a dict from field name to value. */
  type Record = map<string, Value>

  /** The exceptions the scraper lets escape. */
  datatype Error =
    | FetchError(url: string)   // the page could not be retrieved or parsed
    | LookupError               // an element, index or attribute the code expects is missing
    | ValueError                // a text does not have the expected shape
    | UnboundName(name: string) // a local variable read before any assignment
    | DomainError(url: string)  // a URL outside the site
    | NoPageClass(url: string)  // no page class for the URL: `get_data` called on None

  type Res<T> = Result<T, Error>

  /** Library parsers the page readers call: `Decimal(text)`, `strptime(text, '%d/%m/%Y')`
      and the currency regex of the stock page. None when the library raises or does not match. */
  datatype Libs = Libs(
    decimal: string -> Option<Decimal>,
    date: string -> Option<Date>,
    priceCurrency: string -> Option<string>)

  /** Everything outside the core: `urlsplit(url).netloc`, `quote`, fetching and parsing pages,
      and the library parsers. */
  datatype Web = Web(
    netloc: string -> string,
    quote: string -> string,
    fetchSearch: string -> Res<SearchPage>,
    fetchDetail: string -> Res<DetailPage>,
    libs: Libs)

  /** Turns a lookup that found nothing into the exception the code raises. */
  function Need<T>(o: Option<T>, e: Error): (r: Res<T>)
    ensures r.Ok? <==> o.Some?
    ensures r.Ok? ==> r.value == o.value
    ensures r.Err? ==> r.error == e
  {
    match o
    case Some(v) => Ok(v)
    case None => Err(e)
  }
}
