# RoicScraper table extraction and cache, in Dafny

`RoicScraper` reads the tables of one ticker off a financial-data website and
keeps each one in a CSV file. This project models the logic in that process
that does not depend on the browser:

- **Reading an element.** An element lookup gives the element's text. When the
  element is absent it gives the sentinel `N\A`. The sentinel is the three
  characters N, backslash and A.
- **Discovering the labels** (`_get_table_labels`):
  - Row labels are read from row 1 on until the first sentinel.
  - Each row label loses every `,`, `+` and `-`, then one leading space.
  - A label that becomes empty makes the scrape raise.
  - Column headers are read from column 3 on until the first sentinel.
  - Each header is cut at its first space, and the reserved label `index`
    goes in front of the list.
- **Filling the table** (`_get_table_data`):
  - Each (row, data column) cell is read, its commas are stripped, and it is
    stored under (row label, column label).
  - A row label the frame does not have yet is added to the row index.
  - At the end, the cell text `- -` becomes a missing value.
- **The cache.** There are eleven categories: the summary, three financial
  statements and seven ratio tables.
  - `get_*` returns the saved table. It scrapes and saves only when there is
    none.
  - `update_*` always scrapes and saves.
  - The two aggregates call the getters or the updaters of their group in a
    fixed order. They return a dictionary with one entry per table.

Files:

- `wrappers.dfy`: the `Option` and `Result` types.
- `text_cleaning.dfy`: the sentinel, character removal, row-label cleaning,
  the first token of a header, and what happens to one cell.
- `extraction.dfy`:
  - a page, as the element reader sees it;
  - the two label scans, as loops, each proved against a recursive
    specification;
  - the table fill, as loops, proved against a recursive specification of its
    writes;
  - what the filled table holds.
- `cache.dfy`:
  - the categories;
  - the cache state as a pure specification (`GetTable`, `UpdateTable`,
    `FetchAll`) and its properties;
  - the class `TableCache`, whose methods update the saved tables and the log
    of scrapes, each proved to do what the specification says.

How the model differs in shape from the source:

- The eleven `get_*`/`update_*` pairs differ only in page and file name. They
  are modelled once, with a `Category` parameter.
- In the aggregates, the `if update:` split around the calls becomes
  `GetOrUpdate`. The explicit call sequence becomes `GetGroup`, which walks
  the group's list of categories in the source's order.
- The aggregate dictionaries are keyed by `Category`. `Name` gives the
  source's string key, and `NameRoundTrip`/`NameInjective` show that the
  mapping is one-to-one.
- A scrape's outcome is a parameter `scrape: Category -> Result<Table, _>`.
  `ScrapeSite(site)` builds it from the pages through `ScrapeTable`, and
  `ScrapePage` is proved to compute `ScrapeTable`.
- The two loops of `_get_table_labels` are the methods `ScanRowLabels` and
  `ScanColumnLabels`. The inner loop of `_get_table_data` is `FillRow`.
- The `if c in text:` guards before each `replace` are dropped.
  `WithoutAbsent` shows that removing an absent character changes nothing.
- Each label-scan method also returns how many reads it made. This makes the
  number of element lookups part of the contract.

Behaviour of the code worth knowing:

- `_get_table_labels` removes every `,`, `+` and `-` from a row label,
  wherever it occurs, so `Long-Term` becomes `LongTerm`.
- It drops one leading space after those characters are removed.
- It does not check that row labels are unique. When one repeats,
  `_get_table_data` lets the later write to a cell win, and the label appears
  once in the row index.
- A row label that cleaning empties (for example `-`) makes `row_data[0]`
  raise, and the whole scrape fails with `EmptyRowLabel`.

## Model

| member | source | states |
|---|---|---|
| TextCleaning.Without | roic_scraper.py:571-576 | removing characters never makes the text longer; with WithoutConcat and WithoutKeepsTheRest this fixes the result to the kept characters in their order, as `replace(c, "")` gives |
| TextCleaning.WithoutRemovesAll | roic_scraper.py:551-552 | after removal no character of the removed set is left |
| TextCleaning.WithoutKeepsTheRest | roic_scraper.py:571-576 | a character survives removal iff it occurred and is not in the removed set |
| TextCleaning.WithoutAbsent | roic_scraper.py:571-576 | removing characters that do not occur leaves the text unchanged, so the `if c in` guards make no difference |
| TextCleaning.WithoutConcat | roic_scraper.py:571-576 | removal from a concatenation is the concatenation of the removals: kept characters stay in order and keep their count, as `replace(c, "")` does |
| TextCleaning.WithoutTwice | roic_scraper.py:571-576 | two successive removals equal one removal of the union of both sets |
| TextCleaning.StripRowNoise | roic_scraper.py:571-576 | the comma, plus and minus replacements in turn equal removing the set {`,`,`+`,`-`} |
| TextCleaning.CleanRowLabelSpec | roic_scraper.py:570-579 | cleaning fails iff only noise was read; a cleaned label has no `,` `+` `-` and is the noise-free text with at most one leading space dropped |
| TextCleaning.FirstTokenShape | roic_scraper.py:590 | the first token is a prefix of the header with no space that ends at the end or just before a space |
| TextCleaning.FirstTokenUnique | roic_scraper.py:590 | any prefix with those three properties is the first token |
| TextCleaning.StoredCellSpec | roic_scraper.py:550-558 | a stored cell is missing iff its comma-free text is `- -`; stored text is the comma-free read and has no comma; a sentinel read is stored as the sentinel text |
| Extraction.ReadData | roic_scraper.py:89-95 | the unwaited lookup gives the element's text when present and the sentinel when absent |
| Extraction.ReadRowLabel | roic_scraper.py:569 | a non-sentinel row-label read comes from an existing row element |
| Extraction.ReadColumnHeader | roic_scraper.py:588 | a non-sentinel header read comes from an existing header element |
| Extraction.RowScanStopsAtFirstSentinel | roic_scraper.py:566-582 | a successful row scan holds the cleaned texts of exactly the reads before the first sentinel, in read order |
| Extraction.RowScanFailsAtFirstEmptyLabel | roic_scraper.py:570-579 | a failed row scan fails at the first non-sentinel read that cleans to empty; every earlier read was a usable label |
| Extraction.ColumnScanStopsAtFirstSentinel | roic_scraper.py:585-594 | the column scan holds the first tokens of exactly the reads before the first sentinel, in read order |
| Extraction.ScanRowLabels | roic_scraper.py:565-582 | the row loop returns the specified labels or error; on success it made one read per label plus the sentinel read, and on failure it made one read per row up to the failing one |
| Extraction.ScanColumnLabels | roic_scraper.py:584-594 | the column loop returns `index` followed by the specified labels, and made one read per label plus the sentinel read |
| Extraction.GetTableLabels | roic_scraper.py:561-599 | returns the row and column labels, or the row scan's error with no column read |
| Extraction.FillRow | roic_scraper.py:548-554 | one row adds the writes of every data column to the frame and appends the row label to the index iff there is a data column and the label is new |
| Extraction.GetTableData | roic_scraper.py:537-559 | the filled frame is the table given by all rows' writes, the enlarged row index and the missing-pair replacement |
| Extraction.RowWritesKeys | roic_scraper.py:548-553 | one row writes exactly the keys (row label, c) for the data column labels c |
| Extraction.RowWritesAt | roic_scraper.py:548-554 | with distinct column labels, the j-th column's value is the comma-free read at column index start + j |
| Extraction.WritesKeys | roic_scraper.py:547-556 | the fill writes exactly the keys (r, c) for the row labels r and data column labels c |
| Extraction.WritesAt | roic_scraper.py:547-556 | with distinct labels, the value under (rows[i], cols[j]) is the comma-free read at (row start + i, column start + j) |
| Extraction.WritesCommaFree | roic_scraper.py:547-556 | every value the fill writes is free of commas |
| Extraction.RowWritesCommaFree | roic_scraper.py:551-553 | every value one row writes is free of commas |
| Extraction.RowIndexLabels | roic_scraper.py:546-553 | the row index built by enlargement lists each row label once and nothing else |
| Extraction.RowIndexOfDistinct | roic_scraper.py:546-553 | with distinct row labels, the row index is the row labels in scrape order |
| Extraction.TableShape | roic_scraper.py:537-559 | the table has the data column labels, a cell for exactly each (row label, data column) pair, and an index that is empty without data columns and otherwise each row label once (in order when distinct) |
| Extraction.TableCellAt | roic_scraper.py:544-558 | with distinct labels, the cell under (rows[i], cols[j]) is the read at (row start + i, column start + j - 1) with commas stripped and `- -` replaced |
| Extraction.TableCellClean | roic_scraper.py:551-558 | no stored text holds a comma or is `- -` |
| Extraction.ScrapePage | roic_scraper.py:134-148 | a page scrape, labels from row 1 and column 3 and then the data, yields the specified table or the label error |
| Cache.NameRoundTrip | roic_scraper.py:499-503 | each category's file and dictionary name leads back to that category |
| Cache.NameInjective | roic_scraper.py:525-533 | distinct categories have distinct names |
| Cache.GroupsAreDisjoint | roic_scraper.py:488-533 | each group lists its categories once; the groups share none and leave out the summary |
| Cache.GetTableEffect | roic_scraper.py:150-158 | a get with a saved table returns it and changes nothing; otherwise it scrapes once, returns the scrape and saves it on success; other categories are unchanged |
| Cache.UpdateTableEffect | roic_scraper.py:160-164 | an update always scrapes once, returns the scrape and on success overwrites that category's table; other categories are unchanged |
| Cache.GetTwice | roic_scraper.py:150-158 | after a successful get, a second get returns the same table and changes nothing |
| Cache.FetchAllScrapes | roic_scraper.py:488-503 | a successful aggregate scrapes exactly the needed categories in order: all of them when updating, otherwise the unsaved ones |
| Cache.UpdatingScrapesAll | roic_scraper.py:490-493 | an updating aggregate scrapes every category of the group, in order |
| Cache.GettingScrapesUncached | roic_scraper.py:494-497 | a non-updating aggregate scrapes exactly the categories with no saved table, in order |
| Cache.FetchAllOkIff | roic_scraper.py:507-533 | an aggregate succeeds iff every scrape it needs succeeds |
| Cache.FirstFailure | roic_scraper.py:508-523 | the position of the first category whose scrape fails: every scrape before it succeeds, and the one at it fails |
| Cache.FetchAllFails | roic_scraper.py:490-497 | a failed aggregate raises the error of the first needed scrape that fails; the log holds the needed scrapes up to and including it, so nothing after it is fetched; each category scraped successfully before it keeps its fresh table (files already written stay), and every other category keeps what was saved |
| Cache.FetchAllFrame | roic_scraper.py:507-533 | an aggregate leaves the saved table of every category outside its group unchanged |
| Cache.FetchAllEntry | roic_scraper.py:488-503 | after success each category of the group is saved and its dictionary entry is the saved table: a fresh scrape when updating or unsaved, else the old table |
| Cache.FetchAllKeys | roic_scraper.py:499-503 | the dictionary's keys are exactly the group's categories |
| Cache.FetchAllAgain | roic_scraper.py:494-503 | after a successful aggregate, a non-updating one on the same group returns the same dictionary and changes nothing |
| Cache.TableCache.constructor | roic_scraper.py:16-25 | the scraper starts with the tables on disk and no scrapes made |
| Cache.TableCache.Update | roic_scraper.py:192-196 | the new saved tables, scrape log and result are those of `UpdateTable` |
| Cache.TableCache.Get | roic_scraper.py:182-190 | the new saved tables, scrape log and result are those of `GetTable` |
| Cache.TableCache.GetOrUpdate | roic_scraper.py:490-497 | with the update flag the call is an update, otherwise a get, with the state change of that one |
| Cache.TableCache.GetGroup | roic_scraper.py:507-533 | the calls in the group's order, stopping at the first failure, change the state and give the result as `FetchAll` |
| Cache.TableCache.GetAllFinancialStatements | roic_scraper.py:488-503 | income statement, balance sheet and cash flow are fetched in that order as `FetchAll`; on success the keys are exactly those three |
| Cache.TableCache.GetAllRatiosData | roic_scraper.py:507-533 | the seven ratio tables are fetched in source order as `FetchAll`; on success the keys are exactly those seven |

## Left out

- The browser is not modelled: creating it, loading the URL and closing it.
  A page is modelled by what the element reader sees: finite lists of row
  labels and headers and a map of cells. The absolute XPath strings are not
  modelled; each becomes a row or column index.
- The waited branch of `_read_data` (`wait=True`) is not modelled. The table
  scrapes never use it.
- The CSV round trip (`to_csv`, then `read_csv(...).set_index("index")`) is not
  modelled. A saved table is taken to be read back unchanged, so files are a
  map from category to table. The file paths and `config.json` are left out
  too.
- A scrape is a function of the category alone. Two scrapes of one category
  within one aggregate would see the same page. No aggregate scrapes a
  category twice, so this does not matter there.
- An exception raised by a scrape is `Err(EmptyRowLabel(row))`. Other browser
  failures are not modelled. The browser not being closed on that path is not
  modelled either.
- pandas duplicate-label behaviour is modelled only as last write wins and
  first occurrence in the index. pandas gives duplicate column labels several
  columns with the same label. The model keeps one cell per (row label,
  column label).
- The missing value is the constructor `Missing`, not a floating-point NaN.
- `calc_growth` (floating point) and the `__main__` block are not part of
  this model.
