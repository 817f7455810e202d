/**
 * Detail pages of securities (funds, stocks, ETFs): choosing the page class
 * from the URL, the record every page starts from, and how each page class
 * fills the record in from its parsed page.
 */
module Security {
  import opened Wrappers
  import opened Text
  import opened Pages

  /** The three concrete page classes. */
  datatype PageKind = Funds | Stock | ETF

  const FundsMarker: string := "/uk/funds/snapshot/snapshot"
  const StockMarker: string := "/uk/stockreport/"
  const EtfMarker: string := "/uk/etf/"

  /** `sub` occurs somewhere in `url`. */
  ghost predicate Mentions(url: string, sub: string)
  {
    exists i :: At(url, sub, i)
  }

  /** `SecurityPage.from_url`: the first marker found in the URL picks the page class. */
  function FromUrl(url: string): (r: Option<PageKind>)
    ensures r == Some(Funds) <==> Mentions(url, FundsMarker)
    ensures r == Some(Stock) <==> !Mentions(url, FundsMarker) && Mentions(url, StockMarker)
    ensures r == Some(ETF) <==>
      !Mentions(url, FundsMarker) && !Mentions(url, StockMarker) && Mentions(url, EtfMarker)
    ensures r == None <==>
      !Mentions(url, FundsMarker) && !Mentions(url, StockMarker) && !Mentions(url, EtfMarker)
  {
    ContainsIffAt(url, FundsMarker);
    ContainsIffAt(url, StockMarker);
    ContainsIffAt(url, EtfMarker);
    if Contains(url, FundsMarker) then Some(Funds)
    else if Contains(url, StockMarker) then Some(Stock)
    else if Contains(url, EtfMarker) then Some(ETF)
    else None
  }

  /** The Python class name of each page class. */
  function ClassName(kind: PageKind): string
  {
    match kind
    case Funds => "FundsPage"
    case Stock => "StockPage"
    case ETF => "ETFPage"
  }

  /** `cls_name[:cls_name.find("Page")]` */
  function TypeName(kind: PageKind): string
  {
    var name := ClassName(kind);
    PrefixTo(name, Find(name, "Page"))
  }

  /** The security type of each page class is its class name without the "Page" suffix. */
  lemma TypeNames()
    ensures TypeName(Funds) == "Funds"
    ensures TypeName(Stock) == "Stock"
    ensures TypeName(ETF) == "ETF"
  {
    FundsTypeName();
    StockTypeName();
    EtfTypeName();
  }

  lemma FundsTypeName()
    ensures TypeName(Funds) == "Funds"
  {
    assert "FundsPage"[5..9] == "Page";
    FindPage("FundsPage", 5);
  }

  lemma StockTypeName()
    ensures TypeName(Stock) == "Stock"
  {
    assert "StockPage"[5..9] == "Page";
    FindPage("StockPage", 5);
  }

  lemma EtfTypeName()
    ensures TypeName(ETF) == "ETF"
  {
    assert "ETFPage"[3..7] == "Page";
    FindPage("ETFPage", 3);
  }

  /** "Page" is first found at `n` when it occurs there and no earlier character is a `P`. */
  lemma FindPage(s: string, n: nat)
    requires At(s, "Page", n)
    requires forall j :: 0 <= j < n ==> s[j] != 'P'
    ensures Find(s, "Page") == n
  {
    forall j | 0 <= j < n
      ensures !At(s, "Page", j)
    {
      assert s[j] != 'P';
    }
  }

  /** The record a new page starts with (`SecurityPage.__init__`). */
  function InitialData(kind: PageKind, url: string): Record
  {
    map["type" := Str(TypeName(kind)), "url" := Str(url)]
  }

  /** The state of a page's record after an update, and the exception the update raised, if any. */
  datatype Effect = Effect(data: Record, raised: Option<Error>)

  /** What `get_data` returns for an update's effect: the record, or the exception. */
  function Returned(e: Effect): (r: Res<Record>)
    ensures r.Ok? <==> e.raised.None?
    ensures r.Ok? ==> r.value == e.data
    ensures r.Err? ==> r.error == e.raised.value
  {
    if e.raised.Some? then Err(e.raised.value) else Ok(e.data)
  }

  // ---------------------------------------------------------------------------
  // FundsPage: the key-statistics scan

  /** The date, currency and value read from a `NAV` row. */
  datatype Nav = Nav(date: string, currency: string, value: string)

  /** The locals of the scan (`date`/`currency`/`value`, `change`, `isin`); None while unbound. */
  datatype KeyStats = KeyStats(nav: Option<Nav>, change: Option<string>, isin: Option<string>)

  const Unbound: KeyStats := KeyStats(None, None, None)

  /** A row the scan reads: exactly three cells. */
  predicate Counted(row: seq<StatCell>)
  {
    |row| == 3
  }

  /** A counted row whose first cell starts with `prefix`. */
  predicate Labelled(row: seq<StatCell>, prefix: string)
  {
    Counted(row) && StartsWith(row[0].text, prefix)
  }

  /** One iteration of the scan over the rows of the key-statistics table. */
  function ScanRow(st: KeyStats, row: seq<StatCell>): Res<KeyStats>
  {
    if !Counted(row) then Ok(st)
    else
      var st1 :- if !Labelled(row, "NAV") then Ok(st)
        else if row[0].span.None? then Err(LookupError)
        else
          var tokens := SplitWs(row[2].text);
          if |tokens| != 2 then Err(ValueError)
          else Ok(st.(nav := Some(Nav(row[0].span.value, tokens[0], tokens[1]))));
      var st2 := if Labelled(row, "Day Change") then st1.(change := Some(Strip(row[2].text))) else st1;
      Ok(if Labelled(row, "ISIN") then st2.(isin := Some(Strip(row[2].text))) else st2)
  }

  /** The scan over all rows, in order, stopping at the first exception. */
  function Scan(rows: seq<seq<StatCell>>): Res<KeyStats>
    decreases |rows|
  {
    if rows == [] then Ok(Unbound)
    else
      var st :- Scan(rows[..|rows| - 1]);
      ScanRow(st, rows[|rows| - 1])
  }

  /** The last counted row labelled `prefix`, found by searching from the end. */
  function LastLabelled(rows: seq<seq<StatCell>>, prefix: string): (r: Option<seq<StatCell>>)
    ensures r.Some? ==> r.value in rows && Labelled(r.value, prefix)
    decreases |rows|
  {
    if rows == [] then None
    else if Labelled(rows[|rows| - 1], prefix) then Some(rows[|rows| - 1])
    else LastLabelled(rows[..|rows| - 1], prefix)
  }

  /** `LastLabelled` is `None` exactly when no row is labelled `prefix`, and otherwise is the
      labelled row after which no row is labelled. */
  lemma {:induction false} LastLabelledIsLast(rows: seq<seq<StatCell>>, prefix: string)
    ensures LastLabelled(rows, prefix).None? <==>
      forall i :: 0 <= i < |rows| ==> !Labelled(rows[i], prefix)
    ensures forall i :: (0 <= i < |rows| && Labelled(rows[i], prefix) &&
                         forall j :: i < j < |rows| ==> !Labelled(rows[j], prefix))
                        ==> LastLabelled(rows, prefix) == Some(rows[i])
    decreases |rows|
  {
    if rows != [] {
      var init := rows[..|rows| - 1];
      LastLabelledIsLast(init, prefix);
      assert forall i :: 0 <= i < |init| ==> init[i] == rows[i];
    }
  }

  /** A `NAV` row whose date span is missing or whose value cell is not exactly two tokens. */
  predicate BadNav(row: seq<StatCell>)
  {
    Labelled(row, "NAV") && (row[0].span.None? || |SplitWs(row[2].text)| != 2)
  }

  /** The date, currency and value a well-formed `NAV` row yields. */
  function NavOf(row: seq<StatCell>): Nav
    requires Labelled(row, "NAV") && !BadNav(row)
  {
    var tokens := SplitWs(row[2].text);
    Nav(row[0].span.value, tokens[0], tokens[1])
  }

  /** The stripped text of the third cell, as the `Day Change` and `ISIN` rows yield it. */
  function StrippedValue(row: seq<StatCell>): string
    requires Counted(row)
  {
    Strip(row[2].text)
  }

  /** The scan fails exactly when some `NAV` row is malformed. */
  lemma {:induction false} ScanFailsIffBadNav(rows: seq<seq<StatCell>>)
    ensures Scan(rows).Err? <==> exists i :: 0 <= i < |rows| && BadNav(rows[i])
    decreases |rows|
  {
    if rows != [] {
      var init := rows[..|rows| - 1];
      ScanFailsIffBadNav(init);
      assert forall i :: 0 <= i < |init| ==> init[i] == rows[i];
      if exists i :: 0 <= i < |rows| && BadNav(rows[i]) {
        var i :| 0 <= i < |rows| && BadNav(rows[i]);
        if i < |init| {
          assert BadNav(init[i]);
        }
      }
    }
  }

  /** What one iteration of the scan does to each local. */
  lemma ScanRowEffect(st: KeyStats, row: seq<StatCell>)
    requires ScanRow(st, row).Ok?
    ensures var st' := ScanRow(st, row).value;
      && !BadNav(row)
      && st'.nav == (if Labelled(row, "NAV") then Some(NavOf(row)) else st.nav)
      && st'.change == (if Labelled(row, "Day Change") then Some(StrippedValue(row)) else st.change)
      && st'.isin == (if Labelled(row, "ISIN") then Some(StrippedValue(row)) else st.isin)
  {
  }

  /** For each field, the last matching row wins; a field no row matches stays unbound. */
  lemma {:induction false} ScanLastWins(rows: seq<seq<StatCell>>)
    requires Scan(rows).Ok?
    ensures var st := Scan(rows).value;
      var nav := LastLabelled(rows, "NAV");
      var change := LastLabelled(rows, "Day Change");
      var isin := LastLabelled(rows, "ISIN");
      && (nav.Some? ==> !BadNav(nav.value) && st.nav == Some(NavOf(nav.value)))
      && (nav.None? ==> st.nav.None?)
      && st.change == (if change.Some? then Some(StrippedValue(change.value)) else None)
      && st.isin == (if isin.Some? then Some(StrippedValue(isin.value)) else None)
    decreases |rows|
  {
    if rows != [] {
      var init := rows[..|rows| - 1];
      var last := rows[|rows| - 1];
      assert Scan(rows) == ScanRow(Scan(init).value, last);
      ScanLastWins(init);
      ScanRowEffect(Scan(init).value, last);
    }
  }

  /** Rows that do not have exactly three cells never change the scan. */
  lemma {:induction false} ScanSkipsUncounted(rows: seq<seq<StatCell>>, row: seq<StatCell>)
    requires !Counted(row)
    ensures Scan(rows + [row]) == Scan(rows)
  {
    assert (rows + [row])[..|rows|] == rows;
  }

  /** The fields FundsPage adds once the scan is done, built in the source's order. */
  function FundsFields(st: KeyStats, libs: Libs): Res<Record>
  {
    var nav :- Need(st.nav, UnboundName("value"));
    var value :- Need(libs.decimal(nav.value), ValueError);
    var change :- Need(st.change, UnboundName("change"));
    var date :- Need(libs.date(nav.date), ValueError);
    var isin :- Need(st.isin, UnboundName("isin"));
    Ok(map["value" := Number(value), "currency" := Str(nav.currency), "change" := Str(change),
           "date" := Day(date), "ISIN" := Str(isin)])
  }

  /** `FundsPage._update_data` */
  function FundsUpdate(data: Record, page: DetailPage, libs: Libs): Effect
  {
    if page.titleBox.None? then Effect(data, Some(LookupError))
    else
      var named := data["name" := Str(page.titleBox.value)];
      if page.keyStats.None? then Effect(named, Some(LookupError))
      else
        match Scan(page.keyStats.value)
        case Err(e) => Effect(named, Some(e))
        case Ok(st) =>
          match FundsFields(st, libs)
          case Err(e) => Effect(named, Some(e))
          case Ok(fields) => Effect(named + fields, None)
  }

  const FundsKeys: set<string> := {"name", "value", "currency", "change", "date", "ISIN"}

  /** A successful FundsPage update adds exactly its six fields, with the values the scan
      found, and leaves every other entry (`type` and `url` in particular) as it was. */
  lemma FundsUpdateAddsFields(data: Record, page: DetailPage, libs: Libs)
    requires FundsUpdate(data, page, libs).raised.None?
    ensures var d := FundsUpdate(data, page, libs).data;
      && page.titleBox.Some? && page.keyStats.Some? && Scan(page.keyStats.value).Ok?
      && d.Keys == data.Keys + FundsKeys
      && (forall k :: k in data && k !in FundsKeys ==> d[k] == data[k])
      && d["name"] == Str(page.titleBox.value)
      && var st := Scan(page.keyStats.value).value;
         && st.nav.Some? && st.change.Some? && st.isin.Some?
         && d["currency"] == Str(st.nav.value.currency)
         && d["change"] == Str(st.change.value)
         && d["ISIN"] == Str(st.isin.value)
         && d["value"] == Number(libs.decimal(st.nav.value.value).value)
         && d["date"] == Day(libs.date(st.nav.value.date).value)
  {
    var named := data["name" := Str(page.titleBox.value)];
    var st := Scan(page.keyStats.value).value;
    var fields := FundsFields(st, libs).value;
    assert fields.Keys == FundsKeys - {"name"};
    assert FundsUpdate(data, page, libs).data == named + fields;
  }

  /** If no row carries one of the three labels, the FundsPage update raises. */
  lemma MissingFieldFails(data: Record, page: DetailPage, libs: Libs)
    requires page.keyStats.Some?
    requires var rows := page.keyStats.value;
      LastLabelled(rows, "NAV").None? || LastLabelled(rows, "Day Change").None?
      || LastLabelled(rows, "ISIN").None?
    ensures FundsUpdate(data, page, libs).raised.Some?
  {
    var rows := page.keyStats.value;
    if Scan(rows).Ok? {
      ScanLastWins(rows);
    }
  }

  // ---------------------------------------------------------------------------
  // StockPage

  /** The dict `StockPage._update_data` builds and returns. */
  function StockFields(page: DetailPage, libs: Libs): Res<Record>
  {
    var title :- Need(page.securityName, LookupError);
    var value :- Need(page.price, LookupError);
    var detail :- Need(page.priceDetail, LookupError);
    var pieces := Split(detail, '|');
    var change :- if |pieces| < 2 then Err(LookupError) else Ok(Strip(pieces[1]));
    var time :- Need(page.priceTime, LookupError);
    var date := Slice(time, 6, 16);
    var currency :- Need(libs.priceCurrency(time), LookupError);
    var isin :- Need(page.isin, LookupError);
    var number :- Need(libs.decimal(value), ValueError);
    var day :- Need(libs.date(date), ValueError);
    Ok(map["name" := Str(title), "value" := Number(number), "currency" := Str(currency),
           "change" := Str(change), "date" := Day(day), "ISIN" := Str(isin)])
  }

  /** A successful StockPage read gives the six fields: the name, the change after the first
      `|` of the price detail, stripped, the date from characters 6 to 16 of the price time,
      and the currency the pattern finds in the price time. */
  lemma StockFieldsContents(page: DetailPage, libs: Libs)
    requires StockFields(page, libs).Ok?
    ensures page.securityName.Some? && page.price.Some? && page.priceDetail.Some?
    ensures page.priceTime.Some? && page.isin.Some?
    ensures '|' in page.priceDetail.value
    ensures var d := StockFields(page, libs).value;
      var time := page.priceTime.value;
      && d.Keys == FundsKeys
      && d["name"] == Str(page.securityName.value)
      && d["value"] == Number(libs.decimal(page.price.value).value)
      && d["change"] == Str(Strip(Split(page.priceDetail.value, '|')[1]))
      && d["date"] == Day(libs.date(Slice(time, 6, 16)).value)
      && d["currency"] == Str(libs.priceCurrency(time).value)
      && d["ISIN"] == Str(page.isin.value)
  {
    var title, value, detail := page.securityName.value, page.price.value, page.priceDetail.value;
    var time, isin := page.priceTime.value, page.isin.value;
    var pieces := Split(detail, '|');
    SplitHasSecondPiece(detail, '|');
    var m := map["name" := Str(title), "value" := Number(libs.decimal(value).value),
                 "currency" := Str(libs.priceCurrency(time).value), "change" := Str(Strip(pieces[1])),
                 "date" := Day(libs.date(Slice(time, 6, 16)).value), "ISIN" := Str(isin)];
    assert StockFields(page, libs) == Ok(m);
  }

  /** A price detail without `|` makes the StockPage read raise. */
  lemma StockChangeNeedsBar(page: DetailPage, libs: Libs)
    requires page.priceDetail.Some? && '|' !in page.priceDetail.value
    ensures StockFields(page, libs).Err?
  {
    SplitHasSecondPiece(page.priceDetail.value, '|');
  }

  // ---------------------------------------------------------------------------
  // ETFPage

  /** The labels whose following text ETFPage copies into the record under the same key. */
  const EtfLabels: seq<string> := ["Exchange", "ISIN"]

  /** One iteration of the label loop. */
  function CopyLabel(data: Record, labelled: map<string, Option<string>>, keyword: string): Effect
  {
    if keyword !in labelled then Effect(data, None)
    else if labelled[keyword].None? then Effect(data, Some(LookupError))
    else Effect(data[keyword := Str(labelled[keyword].value)], None)
  }

  /** The label loop over `keywords`, stopping at the first exception. */
  function CopyLabels(data: Record, labelled: map<string, Option<string>>, keywords: seq<string>): Effect
    decreases |keywords|
  {
    if keywords == [] then Effect(data, None)
    else
      var e := CopyLabels(data, labelled, keywords[..|keywords| - 1]);
      if e.raised.Some? then e else CopyLabel(e.data, labelled, keywords[|keywords| - 1])
  }

  /** The closing-price step of ETFPage, after the label loop. */
  function ClosingPrice(e: Effect, labelled: map<string, Option<string>>): Effect
  {
    if e.raised.Some? || "Closing Price" !in labelled then e
    else if labelled["Closing Price"].None? then Effect(e.data, Some(LookupError))
    else Effect(e.data["currency" := Str(PrefixTo(labelled["Closing Price"].value, 3))], None)
  }

  /** `ETFPage._update_data` */
  function EtfUpdate(data: Record, page: DetailPage): Effect
  {
    if page.titleBox.None? then Effect(data, Some(LookupError))
    else
      var pieces := Split(page.titleBox.value, '|');
      var named := data["name" := Str(Strip(pieces[0]))];
      if |pieces| < 2 then Effect(named, Some(LookupError))
      else
        var ticked := named["ticker" := Str(Strip(pieces[1]))];
        ClosingPrice(CopyLabels(ticked, page.labelled, EtfLabels), page.labelled)
  }

  /** Once the label loop raises on a prefix of the keywords, it raises the same on all of them. */
  lemma {:induction false} CopyLabelsRaisedPrefix(data: Record, labelled: map<string, Option<string>>, keywords: seq<string>, n: nat)
    requires n <= |keywords| && CopyLabels(data, labelled, keywords[..n]).raised.Some?
    ensures CopyLabels(data, labelled, keywords) == CopyLabels(data, labelled, keywords[..n])
    decreases |keywords| - n
  {
    if n < |keywords| {
      assert keywords[..n + 1][..n] == keywords[..n];
      CopyLabelsRaisedPrefix(data, labelled, keywords, n + 1);
    } else {
      assert keywords[..n] == keywords;
    }
  }

  /** The label loop writes only the labels it finds, and fails only on a label whose
      following text cannot be reached. */
  lemma {:induction false} CopyLabelsWrites(data: Record, labelled: map<string, Option<string>>, keywords: seq<string>)
    ensures var e := CopyLabels(data, labelled, keywords);
      && (e.raised.None? <==> forall k :: 0 <= k < |keywords| && keywords[k] in labelled ==> labelled[keywords[k]].Some?)
      && (e.raised.Some? ==> e.raised == Some(LookupError))
      && (e.raised.None? ==> e.data.Keys == data.Keys + set k | k in keywords && k in labelled)
      && (forall k :: k in data && k !in keywords ==> k in e.data && e.data[k] == data[k])
      && (e.raised.None? ==> forall k :: k in keywords && k in labelled ==> e.data[k] == Str(labelled[k].value))
    decreases |keywords|
  {
    if keywords != [] {
      var init := keywords[..|keywords| - 1];
      CopyLabelsWrites(data, labelled, init);
      assert keywords == init + [keywords[|keywords| - 1]];
    }
  }

  /** The label loop, whether it raises or not, adds no key besides its keywords. */
  lemma {:induction false} CopyLabelsKeys(data: Record, labelled: map<string, Option<string>>, keywords: seq<string>)
    ensures CopyLabels(data, labelled, keywords).data.Keys <= data.Keys + set k | k in keywords
    decreases |keywords|
  {
    if keywords != [] {
      var init := keywords[..|keywords| - 1];
      CopyLabelsKeys(data, labelled, init);
      assert keywords == init + [keywords[|keywords| - 1]];
      assert (set k | k in init) <= set k | k in keywords;
    }
  }

  /** ETFPage fails when the title has no `|`. */
  lemma EtfTitleNeedsBar(data: Record, page: DetailPage)
    requires page.titleBox.Some? && '|' !in page.titleBox.value
    ensures EtfUpdate(data, page).raised == Some(LookupError)
  {
    SplitHasSecondPiece(page.titleBox.value, '|');
  }

  /** When ETFPage succeeds, the title had a `|`, and name and ticker are the first two
      `|`-separated pieces of the title, stripped. */
  lemma EtfNameAndTicker(data: Record, page: DetailPage)
    requires EtfUpdate(data, page).raised.None?
    ensures page.titleBox.Some? && '|' in page.titleBox.value
    ensures var d := EtfUpdate(data, page).data;
      var pieces := Split(page.titleBox.value, '|');
      && |pieces| >= 2
      && "name" in d && d["name"] == Str(Strip(pieces[0]))
      && "ticker" in d && d["ticker"] == Str(Strip(pieces[1]))
  {
    var pieces := Split(page.titleBox.value, '|');
    SplitHasSecondPiece(page.titleBox.value, '|');
    var named := data["name" := Str(Strip(pieces[0]))];
    var ticked := named["ticker" := Str(Strip(pieces[1]))];
    var e := CopyLabels(ticked, page.labelled, EtfLabels);
    CopyLabelsWrites(ticked, page.labelled, EtfLabels);
    assert "name" !in EtfLabels && "ticker" !in EtfLabels;
    ClosingPriceKeeps(e, page.labelled);
  }

  /** When ETFPage succeeds and the page shows a closing price, the currency is the first
      three characters of its text (all of it when shorter). */
  lemma EtfCurrency(data: Record, page: DetailPage)
    requires EtfUpdate(data, page).raised.None? && "Closing Price" in page.labelled
    ensures page.labelled["Closing Price"].Some?
    ensures var d := EtfUpdate(data, page).data;
      var price := page.labelled["Closing Price"].value;
      && "currency" in d && d["currency"] == Str(PrefixTo(price, 3))
      && |PrefixTo(price, 3)| == (if |price| < 3 then |price| else 3)
  {
  }

  const EtfKeys: set<string> := {"name", "ticker", "Exchange", "ISIN", "currency"}

  // ---------------------------------------------------------------------------
  // get_data

  /** `_update_data` of each page class, on the parsed page. StockPage's builds a dict and
      drops it: only its exception reaches the caller. */
  function Update(kind: PageKind, data: Record, page: DetailPage, libs: Libs): Effect
  {
    match kind
    case Funds => FundsUpdate(data, page, libs)
    case Stock =>
      var fields := StockFields(page, libs);
      Effect(data, if fields.Err? then Some(fields.error) else None)
    case ETF => EtfUpdate(data, page)
  }

  /** `SecurityPage.get_data`: fetch the page, update the record, return it. */
  function PageData(kind: PageKind, url: string, data: Record, web: Web): Effect
  {
    match web.fetchDetail(url)
    case Err(e) => Effect(data, Some(e))
    case Ok(page) => Update(kind, data, page, web.libs)
  }

  /** A StockPage record holds only `type` and `url`, whatever its page shows. */
  lemma StockRecordIsBare(url: string, web: Web)
    ensures var r := Returned(PageData(Stock, url, InitialData(Stock, url), web));
      r.Ok? ==> r.value == map["type" := Str("Stock"), "url" := Str(url)]
  {
    TypeNames();
  }

  /** The FundsPage update, whether it raises or not, adds no key outside its six fields and
      leaves the entries outside them alone. */
  lemma FundsUpdateKeeps(data: Record, page: DetailPage, libs: Libs)
    ensures var d := FundsUpdate(data, page, libs).data;
      && d.Keys <= data.Keys + FundsKeys
      && forall k :: k in data && k !in FundsKeys ==> k in d && d[k] == data[k]
  {
    if page.titleBox.Some? && page.keyStats.Some? && Scan(page.keyStats.value).Ok?
      && FundsFields(Scan(page.keyStats.value).value, libs).Ok?
    {
      var fields := FundsFields(Scan(page.keyStats.value).value, libs).value;
      assert fields.Keys <= FundsKeys;
    }
  }

  /** The ETFPage update, whether it raises or not, adds no key outside its five fields and
      leaves the entries outside them alone. */
  lemma EtfUpdateKeeps(data: Record, page: DetailPage)
    ensures var d := EtfUpdate(data, page).data;
      && d.Keys <= data.Keys + EtfKeys
      && forall k :: k in data && k !in EtfKeys ==> k in d && d[k] == data[k]
  {
    if page.titleBox.Some? {
      var pieces := Split(page.titleBox.value, '|');
      if |pieces| >= 2 {
        var named := data["name" := Str(Strip(pieces[0]))];
        var ticked := named["ticker" := Str(Strip(pieces[1]))];
        assert forall k :: k in data && k !in EtfKeys ==> k in ticked && ticked[k] == data[k];
        CopyLabelsWrites(ticked, page.labelled, EtfLabels);
        CopyLabelsKeys(ticked, page.labelled, EtfLabels);
        var e := CopyLabels(ticked, page.labelled, EtfLabels);
        assert forall k :: k !in EtfKeys ==> k !in EtfLabels;
        assert (set k | k in EtfLabels) <= EtfKeys;
        ClosingPriceKeeps(e, page.labelled);
        ClosingPriceKeys(e, page.labelled);
      }
    }
  }

  /** The closing-price step changes no entry but `currency`. */
  lemma ClosingPriceKeeps(e: Effect, labelled: map<string, Option<string>>)
    ensures var d := ClosingPrice(e, labelled).data;
      forall k :: k in e.data && k != "currency" ==> k in d && d[k] == e.data[k]
  {
  }

  /** The closing-price step adds no key but `currency`. */
  lemma ClosingPriceKeys(e: Effect, labelled: map<string, Option<string>>)
    ensures ClosingPrice(e, labelled).data.Keys <= e.data.Keys + {"currency"}
  {
  }

  /** An ETFPage record holds at most `type`, `url` and the five ETF fields: it never has the
      `value`, `date` or `change` that funds and stock records document. */
  lemma EtfRecordFields(url: string, web: Web)
    ensures var r := Returned(PageData(ETF, url, InitialData(ETF, url), web));
      r.Ok? ==> && r.value.Keys <= {"type", "url"} + EtfKeys
                && "value" !in r.value && "date" !in r.value && "change" !in r.value
  {
    var bound := {"type", "url"} + EtfKeys;
    assert "value" !in bound && "date" !in bound && "change" !in bound;
    var data := InitialData(ETF, url);
    assert data.Keys == {"type", "url"};
    match web.fetchDetail(url)
    case Err(_) =>
    case Ok(page) =>
      EtfUpdateKeeps(data, page);
      assert PageData(ETF, url, data, web) == EtfUpdate(data, page);
  }

  /** No page class's update touches the `type` and `url` entries. */
  lemma UpdateKeepsTypeAndUrl(kind: PageKind, data: Record, page: DetailPage, libs: Libs)
    requires "type" in data && "url" in data
    ensures var d := Update(kind, data, page, libs).data;
      && "type" in d && "url" in d && d["type"] == data["type"] && d["url"] == data["url"]
  {
    match kind {
      case Funds =>
        assert "type" !in FundsKeys && "url" !in FundsKeys;
        FundsUpdateKeeps(data, page, libs);
      case Stock =>
      case ETF =>
        assert "type" !in EtfKeys && "url" !in EtfKeys;
        EtfUpdateKeeps(data, page);
    }
  }

  /** Every record `get_data` returns keeps the `type` and `url` the page started with. */
  lemma RecordKeepsTypeAndUrl(kind: PageKind, url: string, web: Web)
    ensures var r := Returned(PageData(kind, url, InitialData(kind, url), web));
      r.Ok? ==> ("type" in r.value && "url" in r.value
                 && r.value["type"] == Str(TypeName(kind)) && r.value["url"] == Str(url))
  {
    if web.fetchDetail(url).Ok? {
      UpdateKeepsTypeAndUrl(kind, InitialData(kind, url), web.fetchDetail(url).value, web.libs);
    }
  }

  // ---------------------------------------------------------------------------
  // The page object

  /** A security's detail page and the record it fills in. */
  class SecurityPage {
    const kind: PageKind
    const url: string
    var data: Record

    /** `SecurityPage.__init__`: the record starts with `type` and `url`. */
    constructor (kind: PageKind, url: string)
      ensures this.kind == kind && this.url == url
      ensures data == InitialData(kind, url)
      ensures data["type"] == Str(TypeName(kind)) && data.Keys == {"type", "url"}
    {
      this.kind := kind;
      this.url := url;
      data := map["type" := Str(TypeName(kind)), "url" := Str(url)];
    }

    /** `get_data`: fetch the page, let the page class update the record, return it. */
    method GetData(web: Web) returns (r: Res<Record>)
      modifies this
      ensures data == PageData(kind, url, old(data), web).data
      ensures r == Returned(PageData(kind, url, old(data), web))
    {
      var soup := web.fetchDetail(url);
      if soup.Err? {
        return Err(soup.error);
      }
      var raised: Option<Error>;
      match kind {
        case Funds =>
          raised := UpdateFunds(soup.value, web.libs);
        case Stock =>
          var fields := StockFields(soup.value, web.libs);
          raised := if fields.Err? then Some(fields.error) else None;
        case ETF =>
          raised := UpdateEtf(soup.value);
      }
      r := if raised.Some? then Err(raised.value) else Ok(data);
    }

    /** `FundsPage._update_data`: store the name, scan the key-statistics rows, then
        store the fields the scan found. */
    method UpdateFunds(page: DetailPage, libs: Libs) returns (raised: Option<Error>)
      modifies this
      ensures Effect(data, raised) == FundsUpdate(old(data), page, libs)
    {
      if page.titleBox.None? {
        return Some(LookupError);
      }
      data := data["name" := Str(page.titleBox.value)];
      if page.keyStats.None? {
        return Some(LookupError);
      }
      var table := page.keyStats.value;
      var date: Option<string>, currency: Option<string>, value: Option<string> := None, None, None;
      var change: Option<string>, isin: Option<string> := None, None;
      var i := 0;
      while i < |table|
        invariant 0 <= i <= |table|
        invariant date.Some? == currency.Some? == value.Some?
        invariant Scan(table[..i]) == Ok(KeyStats(
          if date.Some? then Some(Nav(date.value, currency.value, value.value)) else None, change, isin))
      {
        assert table[..i + 1][..i] == table[..i];
        var tds := table[i];
        if |tds| != 3 {
          i := i + 1;
          continue;
        }
        if StartsWith(tds[0].text, "NAV") {
          if tds[0].span.None? {
            assert Scan(table) == Err(LookupError) by { ScanFailsIffBadNav(table); ScanBadPrefix(table, i + 1); }
            return Some(LookupError);
          }
          date := Some(tds[0].span.value);
          var tokens := SplitWs(tds[2].text);
          if |tokens| != 2 {
            assert Scan(table) == Err(ValueError) by { ScanBadPrefix(table, i + 1); }
            return Some(ValueError);
          }
          currency, value := Some(tokens[0]), Some(tokens[1]);
        }
        if StartsWith(tds[0].text, "Day Change") {
          change := Some(Strip(tds[2].text));
        }
        if StartsWith(tds[0].text, "ISIN") {
          isin := Some(Strip(tds[2].text));
        }
        i := i + 1;
      }
      assert table[..i] == table;
      var st := KeyStats(if date.Some? then Some(Nav(date.value, currency.value, value.value)) else None, change, isin);
      var fields := FundsFields(st, libs);
      if fields.Err? {
        return Some(fields.error);
      }
      data := data + fields.value;
      return None;
    }

    /** `ETFPage._update_data`: name and ticker from the title, then the labelled texts. */
    method UpdateEtf(page: DetailPage) returns (raised: Option<Error>)
      modifies this
      ensures Effect(data, raised) == EtfUpdate(old(data), page)
    {
      if page.titleBox.None? {
        return Some(LookupError);
      }
      var text := page.titleBox.value;
      var pieces := Split(text, '|');
      data := data["name" := Str(Strip(pieces[0]))];
      if |pieces| < 2 {
        return Some(LookupError);
      }
      data := data["ticker" := Str(Strip(pieces[1]))];
      raised := CopyLabelTexts(page.labelled);
      if raised.Some? {
        return;
      }
      var line := if "Closing Price" in page.labelled then Some(page.labelled["Closing Price"]) else None;
      if line.Some? {
        if line.value.None? {
          return Some(LookupError);
        }
        data := data["currency" := Str(PrefixTo(line.value.value, 3))];
      }
    }

    /** The loop of `ETFPage._update_data` that copies the text after each label. */
    method CopyLabelTexts(labelled: map<string, Option<string>>) returns (raised: Option<Error>)
      modifies this
      ensures Effect(data, raised) == CopyLabels(old(data), labelled, EtfLabels)
    {
      var keywords := EtfLabels;
      var k := 0;
      while k < |keywords|
        invariant 0 <= k <= |keywords|
        invariant CopyLabels(old(data), labelled, keywords[..k]) == Effect(data, None)
      {
        assert keywords[..k + 1][..k] == keywords[..k];
        var keyword := keywords[k];
        if keyword in labelled {
          if labelled[keyword].None? {
            CopyLabelsRaisedPrefix(old(data), labelled, keywords, k + 1);
            return Some(LookupError);
          }
          data := data[keyword := Str(labelled[keyword].value)];
        }
        k := k + 1;
      }
      assert keywords[..k] == keywords;
      return None;
    }
  }

  /** Once a prefix of the rows makes the scan raise, the whole scan raises the same. */
  lemma {:induction false} ScanBadPrefix(rows: seq<seq<StatCell>>, n: nat)
    requires n <= |rows| && Scan(rows[..n]).Err?
    ensures Scan(rows) == Scan(rows[..n])
    decreases |rows| - n
  {
    if n < |rows| {
      assert rows[..n + 1][..n] == rows[..n];
      ScanBadPrefix(rows, n + 1);
    } else {
      assert rows[..n] == rows;
    }
  }
}
