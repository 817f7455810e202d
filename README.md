# MorningScraper, modelled in Dafny

MorningScraper looks up securities on morningstar.co.uk. `search(ref)` fetches the site's
search-results page for a term and turns the rows of its result tables into candidate
dicts. Stocks come first, then the funds or the ETFs, whichever table is found first.
`get_url(url)` checks that a URL belongs to the site and picks a page class from markers
in the URL (`FundsPage`, `StockPage`, `ETFPage`). The page object starts a record with
`type` and `url`, then fills it in from the parsed detail page. `get_data(ref)` runs the
search and resolves every candidate's URL in turn, keeping the truthy records.

The model has five modules:

- `Wrappers` (wrappers.dfy): `Option` and `Result`.
- `Text` (text.dfy): the Python `str` operations the scraper uses, on `seq<char>`:
  `startswith`, `endswith`, `find`, `in`, `split(sep)`, `split()`, `strip()` and slicing.
- `Pages` (pages.dfy): what the code reads from parsed HTML.
  - A search page is a map from table id to rows of cells.
  - A detail page holds the texts each page class looks up, each of them `None` when the
    lookup finds nothing.
  - It also defines the record values and the exceptions that escape.
  - `Web` and `Libs` carry the collaborators outside the core as plain function values:
    fetching, `urlsplit(...).netloc`, `quote`, `Decimal`, `strptime` and the stock page's
    currency pattern.
- `Security` (security.dfy): `morningscraper/security.py`.
  - Pure specification functions: `FromUrl`, `TypeName`, `FundsUpdate`, `StockFields`,
    `EtfUpdate` and `PageData`.
  - The class `SecurityPage` has a mutable `data` field. Its methods `GetData`,
    `UpdateFunds`, `UpdateEtf` and `CopyLabelTexts` run the source's loops and are proved
    equal to those functions.
- `Scraper` (scraper.dfy): `morningscraper/__init__.py`.
  - `FixUrl`, and search as the specification `Extract` with the method `Search`, whose
    loops are `CollectRows` and `ListedRows`.
  - The domain guard and `GetUrl`.
  - `get_data` as the specification `Aggregate` with the method `GetData`.

Exceptions are values. An operation that raises returns `Err`, and a page update returns
an `Effect`: the record as it stands when the update stops, plus the exception raised, if
any. This keeps visible the entries that were written before an exception.

Points where the model follows the code rather than its documentation:

- The fund/ETF loop of `search` stops at the first family whose table exists, even when
  that table holds only its header row. It is not the first table with data rows
  (`OneFamilyOnly`).
- Fund and ETF candidates carry `type` `"fund"` or `"etf"` in lower case, as the loop
  variable gives it. The docstring says `'Fund'`.
- `StockPage._update_data` builds its dict and returns it, but `get_data` ignores the
  result. A stock record therefore holds only `type` and `url` (`StockRecordIsBare`).
- An ETF record holds only `type`, `url`, `name`, `ticker`, `Exchange`, `ISIN` and
  `currency`. It never has the `value`, `date` or `change` that the docstrings of
  `get_url` and `get_data` list (`EtfRecordFields`).
- `get_url` never returns an empty dict, since every record holds `type` and `url`.
  So the `if data:` filter of `get_data` never drops anything
  (`GetDataKeepsEveryCandidate`). The filter itself is modelled and proved on arbitrary
  lookups (`AggregateKeepsTruthy`, `MiddleAbsentSkipped`).

## Model

| member | source | states |
|---|---|---|
| Scraper.SearchUrl | morningscraper/__init__.py:16 | the search URL is the search base followed by the quoted term |
| Scraper.FixUrl | morningscraper/__init__.py:24-28 | the URL is kept exactly when it does not start with `/`; otherwise the site base is put in front; the result ends with the input and never starts with `/` |
| Scraper.FixUrlIdempotent | morningscraper/__init__.py:24-28 | qualifying a URL twice gives the same as once |
| Scraper.FirstClassed | morningscraper/__init__.py:85-88 | the first cell carrying the CSS class, or None exactly when no cell carries it |
| Scraper.StockRow | morningscraper/__init__.py:81-89 | a stock row parses exactly when it has a first cell with a link, a ticker cell and a currency cell; the candidate holds the first cell's text, the qualified link and the first ticker and currency cells' texts |
| Scraper.FamilyRow | morningscraper/__init__.py:98-104 | a fund/ETF row parses exactly when it has two cells and a linked first cell; the candidate holds name, qualified URL, family and the second cell's text as ISIN |
| Scraper.Collect | morningscraper/__init__.py:96-104 | collecting rows succeeds exactly when every row parses; it then has one candidate per row in order; otherwise it raises the first failing row's error |
| Scraper.CollectRows | morningscraper/__init__.py:97-104 | the append loop over a table's data rows returns what `Collect` specifies |
| Scraper.FirstPresent | morningscraper/__init__.py:91-95 | the first family in order whose table id is on the page; None exactly when neither table is there |
| Scraper.ListedRows | morningscraper/__init__.py:91-105 | the loop over `["fund", "etf"]` with its `break` returns the candidates of the first family present |
| Scraper.Search | morningscraper/__init__.py:73-114 | `search` fetches the page for the quoted term, collects the stock rows, then the first family's rows |
| Scraper.StockPartShape | morningscraper/__init__.py:75-89 | one stock candidate per data row of the stock table (the header row skipped), built from that row |
| Scraper.ListedPartShape | morningscraper/__init__.py:91-105 | no fund/ETF candidates without a family table; otherwise one per data row of the first family's table |
| Scraper.ExtractParts | morningscraper/__init__.py:74-105 | search succeeds exactly when both parts succeed, and returns the stock part followed by the fund/ETF part |
| Scraper.StockPartKinds | morningscraper/__init__.py:80-89 | the stock part holds only stocks, none of whose URLs starts with `/` |
| Scraper.ListedPartKinds | morningscraper/__init__.py:91-105 | the fund/ETF part is empty without a family table, else holds only candidates of the first family, none of whose URLs starts with `/` |
| Scraper.StocksFirst | morningscraper/__init__.py:75-105 | no stock candidate comes after a fund or ETF candidate |
| Scraper.ListedFamily | morningscraper/__init__.py:91-105 | every fund/ETF candidate belongs to the first family whose table is present |
| Scraper.FirstPresentFamily | morningscraper/__init__.py:91-95 | the chosen family is `fund` or `etf`, and it is `fund` whenever the fund table exists |
| Scraper.OneFamilyOnly | morningscraper/__init__.py:91-105 | all fund/ETF candidates share one family, their type is `fund` or `etf`, and no `etf` candidate appears when the fund table exists |
| Scraper.EmptyPageNoCandidates | morningscraper/__init__.py:74-105 | a page whose three tables are absent or hold only a header row gives no candidates |
| Scraper.MalformedRowRaises | morningscraper/__init__.py:80-104 | a malformed data row in the stock table or in the family table read makes the whole search raise |
| Scraper.CandidateUrlsQualified | morningscraper/__init__.py:81-104 | no candidate URL starts with `/` |
| Scraper.AcmeRowParses | morningscraper/__init__.py:81-89 | a concrete stock row gives its name, qualified URL, ticker and currency |
| Scraper.SingleStockPage | morningscraper/__init__.py:75-105 | a page with one stock row under a header row and no family table gives exactly that stock |
| Scraper.OnSiteIff | morningscraper/__init__.py:177-178 | the domain guard accepts exactly the network locations that are some text followed by the site's domain |
| Scraper.OnSiteExamples | morningscraper/__init__.py:177-178 | `www.morningstar.co.uk` and `xmorningstar.co.uk` pass the guard; `evil.com` and `morningstar.co.uk.evil.com` do not |
| Scraper.OffSiteNeverFetches | morningscraper/__init__.py:177-180 | an off-site URL raises the domain error whatever the fetcher would return |
| Scraper.GetUrl | morningscraper/__init__.py:177-183 | `get_url` applies the guard, builds the page object for the URL and returns its `get_data`, as `GetUrlSpec` states |
| Scraper.GetUrlRecordNonEmpty | morningscraper/__init__.py:177-183 | every record `get_url` returns is non-empty, holds the URL and has type `Funds`, `Stock` or `ETF` |
| Scraper.Aggregate | morningscraper/__init__.py:145-149 | `get_data` returns at most one record per candidate, and every record it returns is truthy |
| Scraper.AggregateKeepsTruthy | morningscraper/__init__.py:145-149 | when no lookup raises, the result is exactly the truthy lookup results in candidate order |
| Scraper.AggregateRaisesFirst | morningscraper/__init__.py:145-149 | the loop raises exactly when some lookup raises, and then with the first such lookup's error |
| Scraper.MiddleAbsentSkipped | morningscraper/__init__.py:146-148 | an empty record in the middle is skipped, and the other records keep their order |
| Scraper.GetDataKeepsEveryCandidate | morningscraper/__init__.py:145-149 | with `get_url` as the lookup, `get_data` keeps one record per candidate when it does not raise |
| Scraper.GetData | morningscraper/__init__.py:143-149 | the loop of `get_data` over the search results returns what `Aggregate` specifies |
| Security.FromUrl | morningscraper/security.py:28-34 | FundsPage exactly when the funds marker occurs; StockPage when the stock marker occurs and the funds marker does not; ETFPage when only the ETF marker occurs; None when none occurs |
| Security.TypeNames | morningscraper/security.py:38-39 | the security type of the three classes is `Funds`, `Stock` and `ETF` |
| Security.SecurityPage.constructor | morningscraper/security.py:36-40 | a new page's record holds exactly `type` and `url` |
| Security.Returned | morningscraper/security.py:42-45 | `get_data` returns the record exactly when the update raised nothing, and otherwise raises the update's exception |
| Security.SecurityPage.GetData | morningscraper/security.py:42-45 | `get_data` fetches the page, updates the record as `PageData` specifies, and returns the record or the exception |
| Security.ScanFailsIffBadNav | morningscraper/security.py:60-66 | the key-statistics scan raises exactly when some three-cell `NAV` row lacks its date span or has a value cell that is not two tokens |
| Security.ScanRowEffect | morningscraper/security.py:61-70 | one row sets the NAV fields, the change or the ISIN when its first cell starts with that label, and leaves the others alone |
| Security.LastLabelledIsLast | morningscraper/security.py:60-70 | the reference lookup is `None` exactly when no three-cell row carries the label, and otherwise is the labelled row after which no row carries it |
| Security.ScanLastWins | morningscraper/security.py:60-70 | after the scan each field comes from the last three-cell row carrying its label, and is unbound when there is none |
| Security.ScanSkipsUncounted | morningscraper/security.py:62-63 | a row without exactly three cells does not change the scan |
| Security.SecurityPage.UpdateFunds | morningscraper/security.py:56-78 | the FundsPage update stores the name, runs the scan loop and merges the fields, as `FundsUpdate` specifies |
| Security.FundsUpdateAddsFields | morningscraper/security.py:56-78 | a successful FundsPage update adds exactly name, value, currency, change, date and ISIN, with the values the scan found, and keeps the other entries |
| Security.MissingFieldFails | morningscraper/security.py:71-76 | when the NAV, Day Change or ISIN row is missing, the FundsPage update raises |
| Security.FundsUpdateKeeps | morningscraper/security.py:56-78 | raising or not, the FundsPage update adds no key outside its six fields and leaves the entries outside them unchanged |
| Security.StockFieldsContents | morningscraper/security.py:83-98 | a successful StockPage read gives the six fields: the name, the price, the second `\|` piece of the detail stripped, characters 6 to 16 of the time as date, the pattern's currency and the ISIN |
| Security.StockChangeNeedsBar | morningscraper/security.py:85-86 | a price detail without `\|` makes the StockPage read raise |
| Security.StockRecordIsBare | morningscraper/security.py:42-45 | a stock page's record holds only `type` and `url`, whatever the page shows |
| Security.SecurityPage.CopyLabelTexts | morningscraper/security.py:106-111 | the label loop stores the text after each label found, stops at the first unreachable text, as `CopyLabels` specifies |
| Security.CopyLabelsWrites | morningscraper/security.py:106-111 | the label loop raises exactly when a found label's text is unreachable; otherwise it adds exactly the found labels with their texts; it never changes an entry outside its keywords |
| Security.CopyLabelsKeys | morningscraper/security.py:106-111 | raising or not, the label loop adds no key besides its keywords |
| Security.SecurityPage.UpdateEtf | morningscraper/security.py:102-115 | the ETFPage update sets name and ticker from the title, copies the labels and the currency, as `EtfUpdate` specifies |
| Security.EtfTitleNeedsBar | morningscraper/security.py:104-105 | a title without `\|` makes the ETFPage update raise |
| Security.EtfNameAndTicker | morningscraper/security.py:103-105 | when the ETFPage update succeeds, name and ticker are the first two `\|` pieces of the title, stripped |
| Security.EtfCurrency | morningscraper/security.py:112-115 | when the ETFPage update succeeds and the page shows a closing price, the currency is the first three characters of its text (all of it when shorter) |
| Security.EtfUpdateKeeps | morningscraper/security.py:102-115 | raising or not, the ETFPage update adds no key outside name, ticker, Exchange, ISIN and currency, and leaves the entries outside them unchanged |
| Security.EtfRecordFields | morningscraper/security.py:102-115 | a returned ETF record holds no key besides `type`, `url` and the five ETF fields, so never `value`, `date` or `change` |
| Security.UpdateKeepsTypeAndUrl | morningscraper/security.py:56-115 | no page class's update touches `type` or `url` |
| Security.RecordKeepsTypeAndUrl | morningscraper/security.py:36-45 | every record `get_data` returns holds the `type` and `url` the page started with |
| Text.Find | morningscraper/security.py:39 | `find` returns the first index where the substring occurs, or -1 when it occurs nowhere |
| Text.ContainsIffAt | morningscraper/security.py:29-33 | `sub in s` holds exactly when `sub` occurs at some index |
| Text.PrefixTo | morningscraper/security.py:114-115 | `s[:n]` is a prefix of length `n` when `n` is in range, counts from the end when negative, and is clamped otherwise |
| Text.Slice | morningscraper/security.py:87 | `s[a:b]` is the exact slice when in range, runs to the end when `b` passes it, and is empty when `b <= a` or `a` is past the end |
| Text.Split | morningscraper/security.py:86 | `split(sep)` has at least one piece, no piece holds the separator, and the first piece is the text up to the first separator |
| Text.JoinSplit | morningscraper/security.py:104-105 | joining the pieces of `split(sep)` with the separator gives back the text |
| Text.SplitHasSecondPiece | morningscraper/security.py:104-105 | `split(sep)` has a second piece exactly when the separator occurs |
| Text.StripLeft | morningscraper/security.py:68 | `lstrip` removes a leading run of whitespace and leaves a non-space first character |
| Text.StripRight | morningscraper/security.py:68 | `rstrip` removes a trailing run of whitespace and leaves a non-space last character |
| Text.StripTrims | morningscraper/security.py:68-70 | `strip` leaves neither end on whitespace and removes only whitespace around a substring of the text |
| Text.SplitWs | morningscraper/security.py:66 | every token of `split()` is a non-empty run of non-whitespace characters |
| Text.SplitWsLosesOnlySpace | morningscraper/security.py:66 | the tokens of `split()` concatenated are the text with its whitespace removed |
| Text.RunsFromExact | morningscraper/security.py:66 | the reference list of run starts holds every index where a run of non-whitespace characters begins, and no other, in strictly increasing order |
| Text.SplitWsRuns | morningscraper/security.py:66 | `split()` has one token per run start, and the `k`-th token occurs at the `k`-th run start and ends at whitespace or at the end of the text: the tokens are the maximal runs, in order |

## Left out

- `make_soup`, `urlopen` and BeautifulSoup are not modelled. A page reaches the model
  already parsed, through the fetcher functions of `Web`. For a search page this is the
  rows of each table by id; for a detail page, the texts each page class looks up.
- HTML navigation subtleties are reduced to what the code reads. A nested `<tr>` that
  `find_all` would also return is not represented. Two tables with the same id collapse
  into one map entry; the code reads only the first anyway.
- `urlsplit`, `quote`, `Decimal`, `datetime.strptime` and the stock page's regular
  expression are not modelled. They are parameters (`Web.netloc`, `Web.quote`, `Libs`);
  where `Decimal` or `strptime` would raise, or the expression does not match, the `Libs`
  parser returns `None`.
- `urlsplit` raises `ValueError` on a malformed network location, such as an unclosed
  bracketed host (`http://[x/`), before the domain guard at
  morningscraper/__init__.py:177. `Web.netloc` cannot fail, so this error is not modelled.
- The `verbose` printing in `search`, `get_data` and `get_url` is output only and is left
  out.
- The Python 2/3 import dispatch, the `six`/`abc` metaclass set-up and the `__main__`
  block are not modelled. They do not affect the results.
- `fix_url` qualifies only links that start with `/`; any other link (`stock/1`, `javascript:`)
  is returned unchanged, so a candidate's URL is not promised a scheme or a host.
- `dmy_2_date` is never called by the core and is left out.
- A URL that matches no page class makes `get_url` call `get_data` on `None`. The model
  gives this `AttributeError` its own error value, `NoPageClass`.
- Python's own exception classes are merged into a few values: `AttributeError`,
  `IndexError` and `KeyError` become `LookupError`; `UnboundLocalError` becomes
  `UnboundName`; the generic `Exception` of the domain guard becomes `DomainError`;
  `decimal.InvalidOperation`, raised by `Decimal` on a malformed number
  (morningscraper/security.py:72, 93), is reported as `ValueError`.
- `IsSpace` follows the whitespace set of Python 3's `str.isspace`. Python 2's byte
  strings are not modelled.
