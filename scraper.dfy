/**
 * The scraper's entry points: qualifying site-relative URLs, turning a
 * search-results page into candidate securities, resolving one URL of the
 * site into a security record, and collecting the records of every candidate.
 */
module Scraper {
  import opened Wrappers
  import opened Text
  import opened Pages
  import opened Security

  const Site: string := "morningstar.co.uk"
  const SiteBase: string := "http://www." + Site
  /** `SEARCH_BASE` up to its `%s` placeholder. */
  const SearchBase: string := SiteBase + "/uk/funds/SecuritySearchResults.aspx?search="

  /** `SEARCH_BASE % quote(ref)` */
  function SearchUrl(ref: string, quote: string -> string): (r: string)
    ensures StartsWith(r, SearchBase) && r[|SearchBase|..] == quote(ref)
  {
    SearchBase + quote(ref)
  }

  // ---------------------------------------------------------------------------
  // fix_url

  /** `fix_url`: a site-relative URL gets the site base in front; anything else is kept. */
  function FixUrl(url: string): (r: string)
    ensures r == url <==> !StartsWith(url, "/")
    ensures StartsWith(url, "/") ==> r == SiteBase + url
    ensures EndsWith(r, url)
    ensures !StartsWith(r, "/")
  {
    if StartsWith(url, "/") then
      assert (SiteBase + url)[..1] == "h";
      assert (SiteBase + url)[|SiteBase + url| - |url|..] == url;
      SiteBase + url
    else url
  }

  /** Qualifying a URL twice is the same as qualifying it once. */
  lemma FixUrlIdempotent(url: string)
    ensures FixUrl(FixUrl(url)) == FixUrl(url)
  {
  }

  // ---------------------------------------------------------------------------
  // search

  /** A security found on the search-results page. Stocks carry ticker and currency; funds and
      ETFs carry the family they were listed under (`"fund"` or `"etf"`) and their ISIN. */
  datatype Candidate =
    | StockHit(name: string, url: string, ticker: string, currency: string)
    | ListedHit(name: string, url: string, family: string, isin: string)
  {
    /** The `type` entry of the candidate's dict. */
    function Type(): string
    {
      if StockHit? then "Stock" else family
    }
  }

  const StockTable: string := "ctl00_MainContent_stockTable"

  /** The id of the results table of a fund family. */
  function FamilyTable(family: string): string
  {
    "ctl00_MainContent_" + family + "Table"
  }

  /** The families tried after the stocks, in order. */
  const Families: seq<string> := ["fund", "etf"]

  /** `rows[1:]`: the rows after the header row. */
  function DataRows(rows: seq<Row>): seq<Row>
  {
    if rows == [] then [] else rows[1..]
  }

  /** The first cell carrying CSS class `cls` (`row.find_all('td', class_=cls)[0]`). */
  function FirstClassed(row: Row, cls: string): (r: Option<Cell>)
    ensures r.None? <==> forall i :: 0 <= i < |row| ==> cls !in row[i].classes
    ensures r.Some? ==> exists i :: 0 <= i < |row| && row[i] == r.value && cls in row[i].classes
                                   && forall j :: 0 <= j < i ==> cls !in row[j].classes
    decreases |row|
  {
    if row == [] then None
    else if cls in row[0].classes then Some(row[0])
    else
      var r := FirstClassed(row[1..], cls);
      assert forall i :: 1 <= i < |row| ==> row[i] == row[1..][i - 1];
      if r.Some? then
        assert exists i :: 0 <= i < |row| && row[i] == r.value && cls in row[i].classes
                           && forall j :: 0 <= j < i ==> cls !in row[j].classes by {
          var i :| 0 <= i < |row[1..]| && row[1..][i] == r.value && cls in row[1..][i].classes
                   && forall j :: 0 <= j < i ==> cls !in row[1..][j].classes;
          assert row[i + 1] == r.value;
        }
        r
      else r
  }

  /** A data row of the stock table as a candidate. A row without a first cell, a link,
      a ticker cell or a currency cell raises. */
  function StockRow(row: Row): (r: Res<Candidate>)
    ensures r.Ok? <==> row != [] && row[0].href.Some?
                       && FirstClassed(row, "searchTicker").Some? && FirstClassed(row, "searchCurrency").Some?
    ensures r.Ok? ==> r.value.StockHit? && r.value.name == row[0].text
                      && r.value.url == FixUrl(row[0].href.value)
                      && r.value.ticker == FirstClassed(row, "searchTicker").value.text
                      && r.value.currency == FirstClassed(row, "searchCurrency").value.text
  {
    if row == [] then Err(LookupError)
    else
      var href :- Need(row[0].href, LookupError);
      var ticker :- Need(FirstClassed(row, "searchTicker"), LookupError);
      var currency :- Need(FirstClassed(row, "searchCurrency"), LookupError);
      Ok(StockHit(row[0].text, FixUrl(href), ticker.text, currency.text))
  }

  /** A data row of a family's table as a candidate. A row without a linked first cell or
      without a second cell raises. */
  function FamilyRow(family: string, row: Row): (r: Res<Candidate>)
    ensures r.Ok? <==> |row| >= 2 && row[0].href.Some?
    ensures r.Ok? ==> r.value == ListedHit(row[0].text, FixUrl(row[0].href.value), family, row[1].text)
  {
    if row == [] then Err(LookupError)
    else
      var href :- Need(row[0].href, LookupError);
      if |row| < 2 then Err(LookupError)
      else Ok(ListedHit(row[0].text, FixUrl(href), family, row[1].text))
  }

  function FamilyParser(family: string): Row -> Res<Candidate>
  {
    row => FamilyRow(family, row)
  }

  /** One candidate per row, in row order; the first row that raises stops the whole. */
  function Collect(rows: seq<Row>, parse: Row -> Res<Candidate>): (r: Res<seq<Candidate>>)
    ensures r.Ok? <==> forall i :: 0 <= i < |rows| ==> parse(rows[i]).Ok?
    ensures r.Ok? ==> |r.value| == |rows| && forall i :: 0 <= i < |rows| ==> r.value[i] == parse(rows[i]).value
    ensures r.Err? ==> exists i :: 0 <= i < |rows| && parse(rows[i]) == Err(r.error)
                                   && forall j :: 0 <= j < i ==> parse(rows[j]).Ok?
    decreases |rows|
  {
    if rows == [] then Ok([])
    else
      var init := rows[..|rows| - 1];
      assert forall i :: 0 <= i < |init| ==> init[i] == rows[i];
      var done :- Collect(init, parse);
      var c :- parse(rows[|rows| - 1]);
      Ok(done + [c])
  }

  /** Once a prefix of the rows raises, collecting all of them raises the same. */
  lemma {:induction false} CollectErrPrefix(rows: seq<Row>, parse: Row -> Res<Candidate>, n: nat)
    requires n <= |rows| && Collect(rows[..n], parse).Err?
    ensures Collect(rows, parse) == Collect(rows[..n], parse)
    decreases |rows| - n
  {
    if n < |rows| {
      assert rows[..n + 1][..n] == rows[..n];
      CollectErrPrefix(rows, parse, n + 1);
    } else {
      assert rows[..n] == rows;
    }
  }

  /** The first family, in the given order, whose table is on the page at all. */
  function FirstPresent(page: SearchPage, families: seq<string>): (r: Option<string>)
    ensures r.None? <==> forall i :: 0 <= i < |families| ==> FamilyTable(families[i]) !in page
    ensures r.Some? ==> exists i :: 0 <= i < |families| && families[i] == r.value
                                   && FamilyTable(r.value) in page
                                   && forall j :: 0 <= j < i ==> FamilyTable(families[j]) !in page
    decreases |families|
  {
    if families == [] then None
    else if FamilyTable(families[0]) in page then Some(families[0])
    else
      var r := FirstPresent(page, families[1..]);
      if r.Some? then
        assert exists i :: 0 <= i < |families| && families[i] == r.value
                           && FamilyTable(r.value) in page
                           && forall j :: 0 <= j < i ==> FamilyTable(families[j]) !in page by {
          var i :| 0 <= i < |families[1..]| && families[1..][i] == r.value
                   && FamilyTable(r.value) in page
                   && forall j :: 0 <= j < i ==> FamilyTable(families[1..][j]) !in page;
          assert families[i + 1] == r.value;
        }
        r
      else r
  }

  /** The candidates of the stock table. */
  function StockPart(page: SearchPage): Res<seq<Candidate>>
  {
    if StockTable in page then Collect(DataRows(page[StockTable]), StockRow) else Ok([])
  }

  /** The candidates of the first family whose table is present. */
  function ListedPart(page: SearchPage): Res<seq<Candidate>>
  {
    match FirstPresent(page, Families)
    case None => Ok([])
    case Some(family) => Collect(DataRows(page[FamilyTable(family)]), FamilyParser(family))
  }

  /** The candidates `search` returns for a parsed results page. */
  function Extract(page: SearchPage): Res<seq<Candidate>>
  {
    var stocks :- StockPart(page);
    var listed :- ListedPart(page);
    Ok(stocks + listed)
  }

  /** `search(ref)`: fetch the results page for the quoted search term, then extract. */
  function SearchSpec(ref: string, web: Web): Res<seq<Candidate>>
  {
    var page :- web.fetchSearch(SearchUrl(ref, web.quote));
    Extract(page)
  }

  /** `search`: stocks first, then the first family whose table exists, skipping each
      table's header row. */
  method Search(ref: string, web: Web) returns (r: Res<seq<Candidate>>)
    ensures r == SearchSpec(ref, web)
  {
    var fetched := web.fetchSearch(SearchUrl(ref, web.quote));
    if fetched.Err? {
      return Err(fetched.error);
    }
    var parsedHtml := fetched.value;
    var results: seq<Candidate> := [];
    if StockTable in parsedHtml {
      var stocks := CollectRows(DataRows(parsedHtml[StockTable]), StockRow);
      if stocks.Err? {
        return Err(stocks.error);
      }
      results := stocks.value;
    }
    var listed := ListedRows(parsedHtml);
    if listed.Err? {
      return Err(listed.error);
    }
    results := results + listed.value;
    return Ok(results);
  }

  /** The loop of `search` over the families: the first family whose table is present gives
      its candidates, and the loop stops there. */
  method ListedRows(parsedHtml: SearchPage) returns (r: Res<seq<Candidate>>)
    ensures r == ListedPart(parsedHtml)
  {
    r := Ok([]);
    var families := Families;
    var k := 0;
    while k < |families|
      invariant 0 <= k <= |families|
      invariant forall j :: 0 <= j < k ==> FamilyTable(families[j]) !in parsedHtml
      invariant r == Ok([])
    {
      var instrumentType := families[k];
      if FamilyTable(instrumentType) in parsedHtml {
        assert FirstPresent(parsedHtml, families) == Some(instrumentType);
        r := CollectRows(DataRows(parsedHtml[FamilyTable(instrumentType)]), FamilyParser(instrumentType));
        break;
      }
      k := k + 1;
    }
    if k == |families| {
      assert FirstPresent(parsedHtml, families) == None;
    }
  }

  /** The loop `search` runs over the data rows of one table, appending a candidate per row. */
  method CollectRows(rows: seq<Row>, parse: Row -> Res<Candidate>) returns (r: Res<seq<Candidate>>)
    ensures r == Collect(rows, parse)
  {
    var results: seq<Candidate> := [];
    var i := 0;
    while i < |rows|
      invariant 0 <= i <= |rows|
      invariant Collect(rows[..i], parse) == Ok(results)
    {
      assert rows[..i + 1][..i] == rows[..i];
      var c := parse(rows[i]);
      if c.Err? {
        CollectErrPrefix(rows, parse, i + 1);
        return Err(c.error);
      }
      results := results + [c.value];
      i := i + 1;
    }
    assert rows[..i] == rows;
    return Ok(results);
  }

  // ---------------------------------------------------------------------------
  // Properties of search

  /** The number of data rows of a table, zero when the table is absent. */
  function DataRowCount(page: SearchPage, id: string): nat
  {
    if id in page then |DataRows(page[id])| else 0
  }

  /** The stock part: one candidate per data row of the stock table, built from its row. */
  lemma StockPartShape(page: SearchPage)
    requires StockPart(page).Ok?
    ensures var cs := StockPart(page).value;
      && |cs| == DataRowCount(page, StockTable)
      && forall i :: 0 <= i < |cs| ==> cs[i] == StockRow(DataRows(page[StockTable])[i]).value
  {
  }

  /** The listed part: one candidate per data row of the first family table present. */
  lemma ListedPartShape(page: SearchPage)
    requires ListedPart(page).Ok?
    ensures var cs := ListedPart(page).value;
      match FirstPresent(page, Families)
      case None => cs == []
      case Some(f) =>
        && |cs| == DataRowCount(page, FamilyTable(f))
        && forall i :: 0 <= i < |cs| ==> cs[i] == FamilyRow(f, DataRows(page[FamilyTable(f)])[i]).value
  {
    match FirstPresent(page, Families)
    case None =>
    case Some(f) =>
      var rows := DataRows(page[FamilyTable(f)]);
      assert forall i :: 0 <= i < |rows| ==> FamilyParser(f)(rows[i]) == FamilyRow(f, rows[i]);
  }

  /** `search` returns the stock candidates followed by the fund or ETF candidates; it raises
      when either part raises. */
  lemma ExtractParts(page: SearchPage)
    ensures Extract(page).Ok? <==> StockPart(page).Ok? && ListedPart(page).Ok?
    ensures Extract(page).Ok? ==> Extract(page).value == StockPart(page).value + ListedPart(page).value
  {
  }

  /** Every candidate is a stock. */
  predicate AllStocks(cs: seq<Candidate>)
  {
    forall i :: 0 <= i < |cs| ==> cs[i].StockHit?
  }

  /** Every candidate is a fund or ETF listed under `family`. */
  predicate AllListed(cs: seq<Candidate>, family: string)
  {
    forall i :: 0 <= i < |cs| ==> cs[i].ListedHit? && cs[i].family == family
  }

  /** No candidate's URL starts with `/`. */
  predicate AllQualified(cs: seq<Candidate>)
  {
    forall i :: 0 <= i < |cs| ==> !StartsWith(cs[i].url, "/")
  }

  /** The stock part holds only stocks, none of whose URLs starts with `/`. */
  lemma StockPartKinds(page: SearchPage)
    requires StockPart(page).Ok?
    ensures AllStocks(StockPart(page).value) && AllQualified(StockPart(page).value)
  {
    StockPartShape(page);
  }

  /** The listed part holds only candidates of the first family present, none of whose URLs
      starts with `/`. */
  lemma ListedPartKinds(page: SearchPage)
    requires ListedPart(page).Ok?
    ensures FirstPresent(page, Families).None? ==> ListedPart(page).value == []
    ensures FirstPresent(page, Families).Some? ==> AllListed(ListedPart(page).value, FirstPresent(page, Families).value)
    ensures AllQualified(ListedPart(page).value)
  {
    ListedPartShape(page);
  }

  /** Stocks followed by candidates that are all listed: no stock comes after a listed one. */
  lemma StocksBeforeListed(stocks: seq<Candidate>, listed: seq<Candidate>)
    requires AllStocks(stocks)
    requires forall i :: 0 <= i < |listed| ==> listed[i].ListedHit?
    ensures var cs := stocks + listed;
      forall i, j :: 0 <= i < j < |cs| && cs[j].StockHit? ==> cs[i].StockHit?
  {
    var cs := stocks + listed;
    assert forall j :: |stocks| <= j < |cs| ==> cs[j] == listed[j - |stocks|];
  }

  /** Stocks followed by candidates of one family: every listed candidate is of that family. */
  lemma ListedFromOneFamily(stocks: seq<Candidate>, listed: seq<Candidate>, family: string)
    requires AllStocks(stocks) && AllListed(listed, family)
    ensures var cs := stocks + listed;
      forall i :: 0 <= i < |cs| && cs[i].ListedHit? ==> cs[i].family == family
  {
    var cs := stocks + listed;
    assert forall i :: 0 <= i < |stocks| ==> cs[i] == stocks[i];
    assert forall i :: |stocks| <= i < |cs| ==> cs[i] == listed[i - |stocks|];
  }

  /** Every stock candidate comes before every fund or ETF candidate. */
  lemma StocksFirst(page: SearchPage)
    requires Extract(page).Ok?
    ensures var cs := Extract(page).value;
      forall i, j :: 0 <= i < j < |cs| && cs[j].StockHit? ==> cs[i].StockHit?
  {
    ExtractParts(page);
    StockPartKinds(page);
    ListedPartKinds(page);
    StocksBeforeListed(StockPart(page).value, ListedPart(page).value);
  }

  /** Every fund or ETF candidate belongs to the first family whose table is present. */
  lemma ListedFamily(page: SearchPage)
    requires Extract(page).Ok?
    ensures var cs := Extract(page).value;
      forall i :: 0 <= i < |cs| && cs[i].ListedHit? ==> FirstPresent(page, Families) == Some(cs[i].family)
  {
    ExtractParts(page);
    StockPartKinds(page);
    ListedPartKinds(page);
    var stocks := StockPart(page).value;
    var first := FirstPresent(page, Families);
    if first.Some? {
      ListedFromOneFamily(stocks, ListedPart(page).value, first.value);
    } else {
      var none: seq<Candidate> := [];
      assert stocks + none == stocks;
    }
  }

  /** The family chosen is one of the two, and it is the fund family whenever the fund
      table exists. */
  lemma FirstPresentFamily(page: SearchPage)
    ensures FirstPresent(page, Families).Some? ==> FirstPresent(page, Families).value in Families
    ensures FamilyTable("fund") in page ==> FirstPresent(page, Families) == Some("fund")
  {
    var first := FirstPresent(page, Families);
    if first.Some? {
      var i :| 0 <= i < |Families| && Families[i] == first.value && FamilyTable(first.value) in page
               && forall j :: 0 <= j < i ==> FamilyTable(Families[j]) !in page;
    }
    if FamilyTable("fund") in page {
      assert FamilyTable(Families[0]) in page;
    }
  }

  /** At most one family contributes, and when the fund table exists (even holding only its
      header row) no ETF candidate is emitted. Fund and ETF candidates carry the lower-case
      family name as their type. */
  lemma OneFamilyOnly(page: SearchPage)
    requires Extract(page).Ok?
    ensures var cs := Extract(page).value;
      && (forall i, j :: 0 <= i < |cs| && 0 <= j < |cs| && cs[i].ListedHit? && cs[j].ListedHit?
            ==> cs[i].family == cs[j].family)
      && (forall i :: 0 <= i < |cs| && cs[i].ListedHit? ==> cs[i].Type() in Families)
      && (FamilyTable("fund") in page ==> forall i :: 0 <= i < |cs| ==> cs[i].Type() != "etf")
  {
    ListedFamily(page);
    FirstPresentFamily(page);
    assert "Stock" != "etf" && "fund" != "etf";
  }

  /** A page without any of the three tables, or whose tables hold only header rows, gives no
      candidates. */
  lemma EmptyPageNoCandidates(page: SearchPage)
    requires DataRowCount(page, StockTable) == 0
    requires forall f :: f in Families ==> DataRowCount(page, FamilyTable(f)) == 0
    ensures Extract(page) == Ok([])
  {
    var first := FirstPresent(page, Families);
    if first.Some? {
      var i :| 0 <= i < |Families| && Families[i] == first.value && FamilyTable(first.value) in page
               && forall j :: 0 <= j < i ==> FamilyTable(Families[j]) !in page;
      assert Families[i] in Families;
      assert DataRows(page[FamilyTable(first.value)]) == [];
    }
    if StockTable in page {
      assert DataRows(page[StockTable]) == [];
    }
    assert StockPart(page) == Ok([]);
    assert ListedPart(page) == Ok([]);
    var none: seq<Candidate> := [];
    assert none + none == none;
    assert Extract(page) == Ok(none);
  }

  /** A malformed data row in the stock table, or in the family table that is read, makes the
      whole search raise rather than being skipped. */
  lemma MalformedRowRaises(page: SearchPage, i: nat)
    requires || (StockTable in page && i < |DataRows(page[StockTable])|
                 && StockRow(DataRows(page[StockTable])[i]).Err?)
             || (FirstPresent(page, Families).Some?
                 && var f := FirstPresent(page, Families).value;
                    i < |DataRows(page[FamilyTable(f)])| && FamilyRow(f, DataRows(page[FamilyTable(f)])[i]).Err?)
    ensures Extract(page).Err?
  {
    if StockTable in page && i < |DataRows(page[StockTable])| && StockRow(DataRows(page[StockTable])[i]).Err? {
      var rows := DataRows(page[StockTable]);
      assert !StockRow(rows[i]).Ok?;
      assert Collect(rows, StockRow).Err?;
      assert StockPart(page).Err?;
    } else {
      var f := FirstPresent(page, Families).value;
      var rows := DataRows(page[FamilyTable(f)]);
      assert !FamilyParser(f)(rows[i]).Ok?;
      assert Collect(rows, FamilyParser(f)).Err?;
      assert ListedPart(page).Err?;
    }
  }

  /** Two lists of candidates whose URLs do not start with `/` concatenate to one. */
  lemma QualifiedConcat(a: seq<Candidate>, b: seq<Candidate>)
    requires AllQualified(a) && AllQualified(b)
    ensures AllQualified(a + b)
  {
    assert forall i :: |a| <= i < |a + b| ==> (a + b)[i] == b[i - |a|];
  }

  /** No candidate's URL starts with `/`: every site-relative link has been qualified. */
  lemma CandidateUrlsQualified(page: SearchPage)
    requires Extract(page).Ok?
    ensures var cs := Extract(page).value;
      forall i :: 0 <= i < |cs| ==> !StartsWith(cs[i].url, "/")
  {
    ExtractParts(page);
    StockPartKinds(page);
    ListedPartKinds(page);
    QualifiedConcat(StockPart(page).value, ListedPart(page).value);
  }

  /** A stock row as the site lists it: a linked name, a ticker cell and a currency cell. */
  function AcmeRow(): Row
  {
    [Cell("Acme Corp", Some("/stock/1"), {}), Cell("ACM", None, {"searchTicker"}),
     Cell("USD", None, {"searchCurrency"})]
  }

  lemma AcmeRowParses()
    ensures StockRow(AcmeRow()) == Ok(StockHit("Acme Corp", "http://www.morningstar.co.uk/stock/1", "ACM", "USD"))
  {
    var row := AcmeRow();
    TickerCell();
    CurrencyCell();
    AcmeUrl();
  }

  /** A site-relative link gets the site base in front. */
  lemma AcmeUrl()
    ensures FixUrl("/stock/1") == "http://www.morningstar.co.uk/stock/1"
  {
    assert StartsWith("/stock/1", "/");
  }

  lemma TickerCell()
    ensures FirstClassed(AcmeRow(), "searchTicker") == Some(Cell("ACM", None, {"searchTicker"}))
  {
    var row := AcmeRow();
    assert "searchTicker" !in row[0].classes;
    assert row[1..][0] == row[1] && "searchTicker" in row[1].classes;
  }

  lemma CurrencyCell()
    ensures FirstClassed(AcmeRow(), "searchCurrency") == Some(Cell("USD", None, {"searchCurrency"}))
  {
    var row := AcmeRow();
    assert "searchCurrency" !in row[0].classes && "searchCurrency" !in row[1].classes;
    assert row[1..][0] == row[1] && row[1..][1..][0] == row[2] && "searchCurrency" in row[2].classes;
  }

  /** The results page with one stock row under a header row, and no fund or ETF table. */
  function AcmePage(): SearchPage
  {
    map[StockTable := [[Cell("Name", None, {})], AcmeRow()]]
  }

  lemma AcmeStockPart()
    ensures StockPart(AcmePage()) == Ok([StockHit("Acme Corp", "http://www.morningstar.co.uk/stock/1", "ACM", "USD")])
  {
    var row := AcmeRow();
    var hit := StockHit("Acme Corp", "http://www.morningstar.co.uk/stock/1", "ACM", "USD");
    AcmeRowParses();
    assert DataRows(AcmePage()[StockTable]) == [row];
    var none: seq<Candidate> := [];
    assert [row][..0] == [];
    assert Collect([], StockRow) == Ok(none);
    assert none + [hit] == [hit];
  }

  lemma AcmeListedPart()
    ensures ListedPart(AcmePage()) == Ok([])
  {
    assert FamilyTable("fund") != StockTable && FamilyTable("etf") != StockTable;
    assert FirstPresent(AcmePage(), Families) == None;
  }

  /** One stock row under a header row, and no fund or ETF table, give exactly that stock,
      with its URL qualified. */
  lemma SingleStockPage()
    ensures Extract(AcmePage())
      == Ok([StockHit("Acme Corp", "http://www.morningstar.co.uk/stock/1", "ACM", "USD")])
  {
    var hit := StockHit("Acme Corp", "http://www.morningstar.co.uk/stock/1", "ACM", "USD");
    AcmeStockPart();
    AcmeListedPart();
    var none: seq<Candidate> := [];
    assert [hit] + none == [hit];
  }


  // ---------------------------------------------------------------------------
  // get_url

  /** The domain guard: the URL's network location ends with the site's domain. */
  predicate OnSite(netloc: string)
  {
    EndsWith(netloc, Site)
  }

  /** The guard accepts exactly the network locations that are some text followed by the
      domain, with no check that the text ends in a dot. */
  lemma OnSiteIff(netloc: string)
    ensures OnSite(netloc) <==> exists head :: netloc == head + Site
  {
    if OnSite(netloc) {
      var head := netloc[..|netloc| - |Site|];
      assert netloc == head + Site;
    }
    if exists head :: netloc == head + Site {
      var head :| netloc == head + Site;
      assert netloc[|netloc| - |Site|..] == Site;
    }
  }

  /** The guard as a plain suffix test on some network locations. */
  lemma OnSiteExamples()
    ensures OnSite("www.morningstar.co.uk") && OnSite("xmorningstar.co.uk")
    ensures !OnSite("evil.com") && !OnSite("morningstar.co.uk.evil.com")
  {
    assert "www.morningstar.co.uk"[4..] == Site;
    assert "xmorningstar.co.uk"[1..] == Site;
    assert |"evil.com"| < |Site|;
    assert "morningstar.co.uk.evil.com"[9..][0] != Site[0];
  }

  /** `get_url`: the domain guard, then the page class for the URL, then its `get_data`. */
  function GetUrlSpec(url: string, web: Web): Res<Record>
  {
    if !OnSite(web.netloc(url)) then Err(DomainError(url))
    else
      match FromUrl(url)
      case None => Err(NoPageClass(url))
      case Some(kind) => Returned(PageData(kind, url, InitialData(kind, url), web))
  }

  /** An off-site URL raises the domain error whatever the fetcher would return: no page
      is fetched. */
  lemma OffSiteNeverFetches(url: string, web: Web, fetch: string -> Res<DetailPage>)
    requires !OnSite(web.netloc(url))
    ensures GetUrlSpec(url, web) == Err(DomainError(url))
    ensures GetUrlSpec(url, web.(fetchDetail := fetch)) == GetUrlSpec(url, web)
  {
  }

  /** `get_url` */
  method GetUrl(url: string, web: Web) returns (r: Res<Record>)
    ensures r == GetUrlSpec(url, web)
  {
    if !EndsWith(web.netloc(url), Site) {
      return Err(DomainError(url));
    }
    var kind := FromUrl(url);
    if kind.None? {
      return Err(NoPageClass(url));
    }
    var page := new SecurityPage(kind.value, url);
    r := page.GetData(web);
  }

  /** Every record `get_url` returns is non-empty: it holds the page's `type` and the URL. */
  lemma GetUrlRecordNonEmpty(url: string, web: Web)
    requires GetUrlSpec(url, web).Ok?
    ensures var rec := GetUrlSpec(url, web).value;
      Truthy(rec) && "url" in rec && rec["url"] == Str(url)
      && "type" in rec && rec["type"] in {Str("Funds"), Str("Stock"), Str("ETF")}
  {
    var kind := FromUrl(url).value;
    RecordKeepsTypeAndUrl(kind, url, web);
    TypeNames();
  }

  // ---------------------------------------------------------------------------
  // get_data

  /** Python truthiness of a record: a dict is true when it is not empty. */
  predicate Truthy(rec: Record)
  {
    rec != map[]
  }

  /** The loop of `get_data` over candidates: resolve each URL in order, keep the truthy
      records, and stop at the first exception. */
  function Aggregate(cands: seq<Candidate>, resolve: string -> Res<Record>): (r: Res<seq<Record>>)
    ensures r.Ok? ==> |r.value| <= |cands| && forall k :: 0 <= k < |r.value| ==> Truthy(r.value[k])
    decreases |cands|
  {
    if cands == [] then Ok([])
    else
      var output :- Aggregate(cands[..|cands| - 1], resolve);
      var data :- resolve(cands[|cands| - 1].url);
      Ok(if Truthy(data) then output + [data] else output)
  }

  /** The lookups of the candidates' URLs, one per candidate. */
  function Lookups(cands: seq<Candidate>, resolve: string -> Res<Record>): (r: seq<Res<Record>>)
    ensures |r| == |cands| && forall i :: 0 <= i < |cands| ==> r[i] == resolve(cands[i].url)
  {
    seq(|cands|, i requires 0 <= i < |cands| => resolve(cands[i].url))
  }

  /** The truthy records among successful lookups, in order. */
  function Kept(results: seq<Res<Record>>): seq<Record>
  {
    if results == [] then []
    else (if results[0].Ok? && Truthy(results[0].value) then [results[0].value] else []) + Kept(results[1..])
  }

  lemma {:induction false} KeptAppend(results: seq<Res<Record>>, last: Res<Record>)
    ensures Kept(results + [last]) == Kept(results) + Kept([last])
    decreases |results|
  {
    if results != [] {
      assert (results + [last])[1..] == results[1..] + [last];
      KeptAppend(results[1..], last);
    } else {
      assert results + [last] == [last];
    }
  }

  /** When no lookup raises, `get_data` returns exactly the truthy records, in candidate order;
      an empty record never stops the loop. */
  lemma {:induction false} AggregateKeepsTruthy(cands: seq<Candidate>, resolve: string -> Res<Record>)
    requires forall i :: 0 <= i < |cands| ==> resolve(cands[i].url).Ok?
    ensures Aggregate(cands, resolve) == Ok(Kept(Lookups(cands, resolve)))
    decreases |cands|
  {
    if cands != [] {
      var init := cands[..|cands| - 1];
      assert forall i :: 0 <= i < |init| ==> init[i] == cands[i];
      AggregateKeepsTruthy(init, resolve);
      var last := resolve(cands[|cands| - 1].url);
      assert Lookups(cands, resolve) == Lookups(init, resolve) + [last];
      KeptAppend(Lookups(init, resolve), last);
      var nothing: seq<Record> := [];
      var noResults: seq<Res<Record>> := [];
      assert [last][1..] == noResults && Kept(noResults) == nothing;
      var kept := Kept(Lookups(init, resolve));
      if Truthy(last.value) {
        assert Kept([last]) == [last.value] + nothing;
        assert [last.value] + nothing == [last.value];
        assert Aggregate(cands, resolve) == Ok(kept + [last.value]);
      } else {
        assert Kept([last]) == nothing + nothing;
        assert kept + (nothing + nothing) == kept;
        assert Aggregate(cands, resolve) == Ok(kept);
      }
    } else {
      var nothing: seq<Record> := [];
      assert Lookups(cands, resolve) == [];
      assert Kept([]) == nothing;
    }
  }

  /** `get_data` raises exactly when some lookup raises, and then with the first one's error. */
  lemma {:induction false} AggregateRaisesFirst(cands: seq<Candidate>, resolve: string -> Res<Record>)
    ensures Aggregate(cands, resolve).Err? <==> exists i :: 0 <= i < |cands| && resolve(cands[i].url).Err?
    ensures Aggregate(cands, resolve).Err? ==>
      exists i :: 0 <= i < |cands| && resolve(cands[i].url) == Err(Aggregate(cands, resolve).error)
                  && forall j :: 0 <= j < i ==> resolve(cands[j].url).Ok?
    decreases |cands|
  {
    if cands != [] {
      var init := cands[..|cands| - 1];
      AggregateRaisesFirst(init, resolve);
      assert forall i :: 0 <= i < |init| ==> init[i] == cands[i];
    }
  }

  /** Once the loop raises on a prefix of the candidates, it raises the same on all of them. */
  lemma {:induction false} AggregateErrPrefix(cands: seq<Candidate>, resolve: string -> Res<Record>, n: nat)
    requires n <= |cands| && Aggregate(cands[..n], resolve).Err?
    ensures Aggregate(cands, resolve) == Aggregate(cands[..n], resolve)
    decreases |cands| - n
  {
    if n < |cands| {
      assert cands[..n + 1][..n] == cands[..n];
      AggregateErrPrefix(cands, resolve, n + 1);
    } else {
      assert cands[..n] == cands;
    }
  }

  /** One more candidate: the loop raises with its lookup's error, or keeps its record when
      that record is truthy. */
  lemma AggregateStep(cands: seq<Candidate>, i: nat, resolve: string -> Res<Record>, output: seq<Record>)
    requires i < |cands| && Aggregate(cands[..i], resolve) == Ok(output)
    ensures var data := resolve(cands[i].url);
      Aggregate(cands[..i + 1], resolve)
        == if data.Err? then Err(data.error) else Ok(if Truthy(data.value) then output + [data.value] else output)
  {
    assert cands[..i + 1][..i] == cands[..i];
  }

  /** A lookup that finds `ra` at `ua`, `rc` at `uc` and an empty record anywhere else. */
  function ThreeWay(ua: string, ra: Record, uc: string, rc: Record): string -> Res<Record>
  {
    (u: string) => if u == ua then Ok(ra) else if u == uc then Ok(rc) else Ok(map[])
  }

  /** Three candidates whose middle lookup gives an empty record: the other two records, in order. */
  lemma MiddleAbsentSkipped(a: Candidate, b: Candidate, c: Candidate, ra: Record, rc: Record)
    requires a.url != b.url && b.url != c.url && a.url != c.url
    requires Truthy(ra) && Truthy(rc)
    ensures Aggregate([a, b, c], ThreeWay(a.url, ra, c.url, rc)) == Ok([ra, rc])
  {
    var resolve := ThreeWay(a.url, ra, c.url, rc);
    assert [a, b, c][..2] == [a, b];
    assert [a, b][..1] == [a];
    var none: seq<Candidate> := [];
    var nothing: seq<Record> := [];
    assert [a][..0] == none;
    assert Aggregate(none, resolve) == Ok(nothing);
    assert nothing + [ra] == [ra];
    assert resolve(a.url) == Ok(ra) && resolve(b.url) == Ok(map[]) && resolve(c.url) == Ok(rc);
    assert Aggregate([a], resolve) == Ok([ra]);
    assert Aggregate([a, b], resolve) == Ok([ra]);
    assert [ra] + [rc] == [ra, rc];
  }

  /** `get_url` as the lookup `get_data` applies to each candidate. */
  function Resolver(web: Web): string -> Res<Record>
  {
    url => GetUrlSpec(url, web)
  }

  /** With the real `get_url`, no record is ever falsy, so `get_data` keeps one record per
      candidate when it does not raise. */
  lemma GetDataKeepsEveryCandidate(cands: seq<Candidate>, web: Web)
    requires Aggregate(cands, Resolver(web)).Ok?
    ensures |Aggregate(cands, Resolver(web)).value| == |cands|
  {
    AggregateRaisesFirst(cands, Resolver(web));
    forall i | 0 <= i < |cands|
      ensures GetUrlSpec(cands[i].url, web).Ok? && Truthy(GetUrlSpec(cands[i].url, web).value)
    {
      GetUrlRecordNonEmpty(cands[i].url, web);
    }
    AggregateKeepsTruthy(cands, Resolver(web));
    KeptAllTruthy(Lookups(cands, Resolver(web)));
  }

  lemma {:induction false} KeptAllTruthy(results: seq<Res<Record>>)
    requires forall i :: 0 <= i < |results| ==> results[i].Ok? && Truthy(results[i].value)
    ensures |Kept(results)| == |results|
    decreases |results|
  {
    if results != [] {
      KeptAllTruthy(results[1..]);
    }
  }

  /** `get_data(ref)`: search, then `get_url` on each candidate in order. */
  function GetDataSpec(ref: string, web: Web): Res<seq<Record>>
  {
    var cands :- SearchSpec(ref, web);
    Aggregate(cands, Resolver(web))
  }

  /** `get_data` */
  method GetData(ref: string, web: Web) returns (r: Res<seq<Record>>)
    ensures r == GetDataSpec(ref, web)
  {
    var results := Search(ref, web);
    if results.Err? {
      return Err(results.error);
    }
    var items := results.value;
    var output: seq<Record> := [];
    var i := 0;
    while i < |items|
      invariant 0 <= i <= |items|
      invariant Aggregate(items[..i], Resolver(web)) == Ok(output)
    {
      var data := GetUrl(items[i].url, web);
      assert Resolver(web)(items[i].url) == data;
      AggregateStep(items, i, Resolver(web), output);
      if data.Err? {
        AggregateErrPrefix(items, Resolver(web), i + 1);
        return Err(data.error);
      }
      if Truthy(data.value) {
        output := output + [data.value];
      }
      i := i + 1;
    }
    assert items[..i] == items;
    return Ok(output);
  }
}
