/** Reading one data table off a page: the element reader, the label scans
    (`_get_table_labels`), the cell fill (`_get_table_data`) and the scrape that
    chains them. */
module Extraction {
  import opened Wrappers
  import opened TextCleaning

  /** The part of a page one category's selectors point at. The row-label
      element `tr[k]` exists for 1 <= k <= |rowLabels| and shows rowLabels[k - 1];
      the column header `th[k]` likewise; the data cell `tr[r]/td[c]` exists
      when (r, c) is a key of `cells`. */
  datatype Page = Page(rowLabels: seq<string>, columnHeaders: seq<string>, cells: map<(int, int), string>)

  /** First row and first data column every category's scrape starts at. */
  const FirstRow: int := 1
  const FirstColumn: int := 3

  /** The reserved label of the row-label column, always first in the column list. */
  const IndexLabel: string := "index"

  /** The raised error: `row_data[0]` on a row label that cleaning emptied. */
  datatype ScrapeError = EmptyRowLabel(row: int)

  /** The unwaited lookup: the element's text, or the sentinel when it is absent. */
  function ReadData(element: Option<string>): (text: string)
    ensures element.Some? ==> text == element.value
    ensures element.None? ==> text == Sentinel
  {
    match element
    case Some(t) => t
    case None => Sentinel
  }

  function ReadRowLabel(p: Page, k: int): (text: string)
    ensures text != Sentinel ==> 1 <= k <= |p.rowLabels|
  {
    ReadData(if 1 <= k <= |p.rowLabels| then Some(p.rowLabels[k - 1]) else None)
  }

  function ReadColumnHeader(p: Page, k: int): (text: string)
    ensures text != Sentinel ==> 1 <= k <= |p.columnHeaders|
  {
    ReadData(if 1 <= k <= |p.columnHeaders| then Some(p.columnHeaders[k - 1]) else None)
  }

  function ReadCell(p: Page, row: int, col: int): string {
    ReadData(if (row, col) in p.cells then Some(p.cells[(row, col)]) else None)
  }

  /** The row labels from row index k on: cleaned, in read order, up to the
      first sentinel read. */
  function RowLabelsFrom(p: Page, k: int): Result<seq<string>, ScrapeError>
    decreases |p.rowLabels| + 1 - k
  {
    var raw := ReadRowLabel(p, k);
    if raw == Sentinel then Ok([])
    else match CleanRowLabel(raw)
      case None => Err(EmptyRowLabel(k))
      case Some(cleaned) => Prepend([cleaned], RowLabelsFrom(p, k + 1))
  }

  function Prepend(front: seq<string>, r: Result<seq<string>, ScrapeError>): Result<seq<string>, ScrapeError> {
    match r
    case Ok(rest) => Ok(front + rest)
    case Err(e) => Err(e)
  }

  /** The column labels from header index k on: first tokens, up to the first
      sentinel read. */
  function ColumnLabelsFrom(p: Page, k: int): seq<string>
    decreases |p.columnHeaders| + 1 - k
  {
    var raw := ReadColumnHeader(p, k);
    if raw == Sentinel then [] else [FirstToken(raw)] + ColumnLabelsFrom(p, k + 1)
  }

  datatype Labels = Labels(rows: seq<string>, cols: seq<string>)

  /** What `_get_table_labels` returns, or the error it raises. */
  function TableLabels(p: Page, rowStart: int, colStart: int): Result<Labels, ScrapeError> {
    match RowLabelsFrom(p, rowStart)
    case Err(e) => Err(e)
    case Ok(rows) => Ok(Labels(rows, [IndexLabel] + ColumnLabelsFrom(p, colStart)))
  }

  /** A successful row scan returns the cleaned texts of exactly the reads
      before the first sentinel, in read order: the read at index m gives
      rows[m - k]. */
  lemma {:induction false} RowScanStopsAtFirstSentinel(p: Page, k: int)
    requires RowLabelsFrom(p, k).Ok?
    ensures var rows := RowLabelsFrom(p, k).value;
            && (forall m :: k <= m < k + |rows| ==>
                  ReadRowLabel(p, m) != Sentinel && CleanRowLabel(ReadRowLabel(p, m)) == Some(rows[m - k]))
            && ReadRowLabel(p, k + |rows|) == Sentinel
    decreases |p.rowLabels| + 1 - k
  {
    var raw := ReadRowLabel(p, k);
    if raw != Sentinel {
      var first := CleanRowLabel(raw).value;
      RowScanStopsAtFirstSentinel(p, k + 1);
      var rest := RowLabelsFrom(p, k + 1).value;
      var rows := [first] + rest;
      assert RowLabelsFrom(p, k) == Ok(rows);
      forall m | k <= m < k + |rows|
        ensures ReadRowLabel(p, m) != Sentinel && CleanRowLabel(ReadRowLabel(p, m)) == Some(rows[m - k])
      {
        if m > k {
          assert k + 1 <= m < (k + 1) + |rest|;
          assert rows[m - k] == rest[m - (k + 1)];
        } else {
          assert rows[0] == first;
        }
      }
    }
  }

  /** A failed row scan fails at the first non-sentinel read whose cleaned
      form is empty; every read before it was a usable label. */
  lemma {:induction false} RowScanFailsAtFirstEmptyLabel(p: Page, k: int)
    requires RowLabelsFrom(p, k).Err?
    ensures var j := RowLabelsFrom(p, k).error.row;
            && k <= j
            && (forall m :: k <= m < j ==> ReadRowLabel(p, m) != Sentinel && CleanRowLabel(ReadRowLabel(p, m)).Some?)
            && ReadRowLabel(p, j) != Sentinel && CleanRowLabel(ReadRowLabel(p, j)).None?
    decreases |p.rowLabels| + 1 - k
  {
    if CleanRowLabel(ReadRowLabel(p, k)).Some? {
      RowScanFailsAtFirstEmptyLabel(p, k + 1);
    }
  }

  /** The column scan returns the first tokens of exactly the reads before
      the first sentinel, in read order: the read at index m gives cols[m - k]. */
  lemma {:induction false} ColumnScanStopsAtFirstSentinel(p: Page, k: int)
    ensures var cols := ColumnLabelsFrom(p, k);
            && (forall m :: k <= m < k + |cols| ==>
                  ReadColumnHeader(p, m) != Sentinel && cols[m - k] == FirstToken(ReadColumnHeader(p, m)))
            && ReadColumnHeader(p, k + |cols|) == Sentinel
    decreases |p.columnHeaders| + 1 - k
  {
    if ReadColumnHeader(p, k) != Sentinel {
      ColumnScanStopsAtFirstSentinel(p, k + 1);
    }
  }

  /** The row-label loop of `_get_table_labels`: read, clean and append until
      the first sentinel read; also reports how many reads it made. */
  method ScanRowLabels(p: Page, rowStart: int) returns (r: Result<seq<string>, ScrapeError>, readCount: nat)
    ensures r == RowLabelsFrom(p, rowStart)
    ensures r.Ok? ==> readCount == |r.value| + 1
    ensures r.Err? ==> readCount == r.error.row - rowStart + 1
  {
    var rowIndex := rowStart;
    var rows: seq<string> := [];
    var rowScanning := true;
    readCount := 0;
    assert RowLabelsFrom(p, rowStart) == Prepend([], RowLabelsFrom(p, rowStart)) by {
      if RowLabelsFrom(p, rowStart).Ok? {
        assert [] + RowLabelsFrom(p, rowStart).value == RowLabelsFrom(p, rowStart).value;
      }
    }
    while rowScanning
      invariant rowIndex == rowStart + readCount
      invariant rowScanning ==> |rows| == readCount && RowLabelsFrom(p, rowStart) == Prepend(rows, RowLabelsFrom(p, rowIndex))
      invariant !rowScanning ==> |rows| + 1 == readCount && RowLabelsFrom(p, rowStart) == Ok(rows)
      decreases if !rowScanning then 0 else if rowIndex <= |p.rowLabels| then |p.rowLabels| + 2 - rowIndex else 1
    {
      var rowData := ReadRowLabel(p, rowIndex);
      if rowData != Sentinel {
        var cleaned := CleanRowLabel(rowData);
        if cleaned.None? {
          // Indexing the first character of an empty label raises.
          return Err(EmptyRowLabel(rowIndex)), readCount + 1;
        }
        if RowLabelsFrom(p, rowIndex + 1).Ok? {
          var rest := RowLabelsFrom(p, rowIndex + 1).value;
          assert rows + ([cleaned.value] + rest) == (rows + [cleaned.value]) + rest;
        }
        rows := rows + [cleaned.value];
      } else {
        assert rows + [] == rows;
        rowScanning := false;
      }
      rowIndex := rowIndex + 1;
      readCount := readCount + 1;
    }
    r := Ok(rows);
  }

  /** The column-header loop of `_get_table_labels`: start from "index", then
      append first tokens until the first sentinel read. */
  method ScanColumnLabels(p: Page, colStart: int) returns (cols: seq<string>, readCount: nat)
    ensures cols == [IndexLabel] + ColumnLabelsFrom(p, colStart)
    ensures readCount == |cols|
  {
    var colIndex := colStart;
    cols := [IndexLabel];
    var colScanning := true;
    readCount := 0;
    while colScanning
      invariant colIndex == colStart + readCount
      invariant colScanning ==> |cols| == readCount + 1 && [IndexLabel] + ColumnLabelsFrom(p, colStart) == cols + ColumnLabelsFrom(p, colIndex)
      invariant !colScanning ==> |cols| == readCount && [IndexLabel] + ColumnLabelsFrom(p, colStart) == cols
      decreases if !colScanning then 0 else if colIndex <= |p.columnHeaders| then |p.columnHeaders| + 2 - colIndex else 1
    {
      var colData := ReadColumnHeader(p, colIndex);
      if colData != Sentinel {
        assert cols + ([FirstToken(colData)] + ColumnLabelsFrom(p, colIndex + 1)) == (cols + [FirstToken(colData)]) + ColumnLabelsFrom(p, colIndex + 1);
        cols := cols + [FirstToken(colData)];
      } else {
        assert cols + [] == cols;
        colScanning := false;
      }
      colIndex := colIndex + 1;
      readCount := readCount + 1;
    }
  }

  /** `_get_table_labels`: the row scan, then (if it did not raise) the column
      scan, with the number of reads each made. */
  method GetTableLabels(p: Page, rowStart: int, colStart: int) returns (r: Result<Labels, ScrapeError>, rowReads: nat, colReads: nat)
    ensures r == TableLabels(p, rowStart, colStart)
    ensures r.Ok? ==> rowReads == |r.value.rows| + 1 && colReads == |r.value.cols|
    ensures r.Err? ==> rowReads == r.error.row - rowStart + 1 && colReads == 0
  {
    var rows;
    rows, rowReads := ScanRowLabels(p, rowStart);
    if rows.Err? {
      return Err(rows.error), rowReads, 0;
    }
    var cols;
    cols, colReads := ScanColumnLabels(p, colStart);
    r := Ok(Labels(rows.value, cols));
  }

  /** The values the first n steps of one row's inner loop write, keyed
      (row label, column label): the k-th column label is read at column index
      colIndex + k. A later write to the same key wins, as with
      `df.loc[row, col] = data`. */
  function RowWrites(p: Page, rowIndex: int, row: string, colIndex: int, cols: seq<string>, n: nat): map<(string, string), string>
    requires n <= |cols|
  {
    if n == 0 then map[]
    else RowWrites(p, rowIndex, row, colIndex, cols, n - 1)[(row, cols[n - 1]) := Without(ReadCell(p, rowIndex, colIndex + n - 1), {','})]
  }

  /** The values the first n rounds of the outer loop write: the i-th row
      label is read at row index rowStart + i, and every row restarts at
      column colStart. */
  function Writes(p: Page, rowStart: int, colStart: int, rows: seq<string>, cols: seq<string>, n: nat): map<(string, string), string>
    requires n <= |rows|
  {
    if n == 0 then map[]
    else Writes(p, rowStart, colStart, rows, cols, n - 1) + RowWrites(p, rowStart + n - 1, rows[n - 1], colStart, cols, |cols|)
  }

  /** The row index pandas builds by enlargement from the first n row labels:
      each label once, in order of first write. */
  function RowIndex(rows: seq<string>, n: nat): seq<string>
    requires n <= |rows|
  {
    if n == 0 then []
    else
      var prefix := RowIndex(rows, n - 1);
      if rows[n - 1] in prefix then prefix else prefix + [rows[n - 1]]
  }

  predicate Distinct(s: seq<string>) {
    forall i, j :: 0 <= i < j < |s| ==> s[i] != s[j]
  }

  /** A scraped table: row index, column labels (without "index") and cells. */
  datatype Table = Table(index: seq<string>, columns: seq<string>, cells: map<(string, string), Cell>)

  /** `df.replace("- -", np.nan)` over the whole frame. */
  function ReplaceMissingPairs(w: map<(string, string), string>): map<(string, string), Cell> {
    map key | key in w :: ReplaceMissingPair(w[key])
  }

  /** What `_get_table_data` returns. No row is ever written when there are no
      data columns, so the row index then stays empty. */
  function TableFrom(p: Page, rowStart: int, colStart: int, labels: Labels): Table
    requires |labels.cols| >= 1
  {
    var cols := labels.cols[1..];
    var rows := labels.rows;
    Table(if cols == [] then [] else RowIndex(rows, |rows|), cols, ReplaceMissingPairs(Writes(p, rowStart, colStart, rows, cols, |rows|)))
  }

  lemma UpdateAfterUnion<K, V>(a: map<K, V>, b: map<K, V>, k: K, v: V)
    ensures (a + b)[k := v] == a + b[k := v]
  {
  }

  /** The inner loop of `_get_table_data` for one row label: read each data
      cell of the row from column colStart on, strip commas and store it under
      (row, column label). Writing to a row label the frame does not have yet
      appends it to the index. */
  method FillRow(p: Page, rowIndex: int, colStart: int, row: string, colLabels: seq<string>,
                 index: seq<string>, written: map<(string, string), string>)
    returns (index': seq<string>, written': map<(string, string), string>)
    ensures written' == written + RowWrites(p, rowIndex, row, colStart, colLabels, |colLabels|)
    ensures index' == if colLabels == [] || row in index then index else index + [row]
  {
    index', written' := index, written;
    var colIndex := colStart;
    for j := 0 to |colLabels|
      invariant colIndex == colStart + j
      invariant written' == written + RowWrites(p, rowIndex, row, colStart, colLabels, j)
      invariant index' == if j == 0 || row in index then index else index + [row]
    {
      var data := ReadCell(p, rowIndex, colIndex);
      // The `if` guard in front of the removal is left out: see WithoutAbsent.
      data := Without(data, {','});
      assert j > 0 && row !in index ==> index'[|index|] == row;
      if row !in index' {
        index' := index' + [row];
      }
      ghost var soFar := RowWrites(p, rowIndex, row, colStart, colLabels, j);
      assert RowWrites(p, rowIndex, row, colStart, colLabels, j + 1) == soFar[(row, colLabels[j]) := data];
      UpdateAfterUnion(written, soFar, (row, colLabels[j]), data);
      written' := written'[(row, colLabels[j]) := data];
      colIndex := colIndex + 1;
    }
  }

  /** `_get_table_data`: for each row label in turn, fill its row, restarting
      at column colStart; then replace the missing pair everywhere. */
  method GetTableData(p: Page, rowStart: int, colStart: int, labels: Labels) returns (t: Table)
    requires |labels.cols| >= 1 && labels.cols[0] == IndexLabel
    ensures t == TableFrom(p, rowStart, colStart, labels)
  {
    var rowLabels := labels.rows;
    var colLabels := labels.cols[1..];  // Skip the "index" element.
    var rowIndex := rowStart;
    var index: seq<string> := [];
    var written: map<(string, string), string> := map[];
    for i := 0 to |rowLabels|
      invariant rowIndex == rowStart + i
      invariant written == Writes(p, rowStart, colStart, rowLabels, colLabels, i)
      invariant index == if colLabels == [] then [] else RowIndex(rowLabels, i)
    {
      index, written := FillRow(p, rowIndex, colStart, rowLabels[i], colLabels, index, written);
      rowIndex := rowIndex + 1;
    }
    t := Table(index, colLabels, ReplaceMissingPairs(written));
  }

  /** One row writes exactly the keys (row, c) for the first n column labels c. */
  lemma {:induction false} RowWritesKeys(p: Page, rowIndex: int, row: string, colIndex: int, cols: seq<string>, n: nat, key: (string, string))
    requires n <= |cols|
    ensures key in RowWrites(p, rowIndex, row, colIndex, cols, n) <==> key.0 == row && key.1 in cols[..n]
  {
    if n > 0 {
      RowWritesKeys(p, rowIndex, row, colIndex, cols, n - 1, key);
      assert cols[..n] == cols[..n - 1] + [cols[n - 1]];
    }
  }

  /** With distinct column labels, the value under (row, cols[j]) is the
      comma-free text of the cell read at column index colIndex + j. */
  lemma {:induction false} RowWritesAt(p: Page, rowIndex: int, row: string, colIndex: int, cols: seq<string>, n: nat, j: nat)
    requires n <= |cols| && j < n && Distinct(cols)
    ensures (row, cols[j]) in RowWrites(p, rowIndex, row, colIndex, cols, n)
    ensures RowWrites(p, rowIndex, row, colIndex, cols, n)[(row, cols[j])] == Without(ReadCell(p, rowIndex, colIndex + j), {','})
  {
    if j < n - 1 {
      RowWritesAt(p, rowIndex, row, colIndex, cols, n - 1, j);
    }
  }

  /** The outer loop writes exactly the keys (r, c) for the first n row labels
      r and every column label c. */
  lemma {:induction false} WritesKeys(p: Page, rowStart: int, colStart: int, rows: seq<string>, cols: seq<string>, n: nat, key: (string, string))
    requires n <= |rows|
    ensures key in Writes(p, rowStart, colStart, rows, cols, n) <==> key.0 in rows[..n] && key.1 in cols
  {
    if n > 0 {
      WritesKeys(p, rowStart, colStart, rows, cols, n - 1, key);
      RowWritesKeys(p, rowStart + n - 1, rows[n - 1], colStart, cols, |cols|, key);
      assert rows[..n] == rows[..n - 1] + [rows[n - 1]];
      assert cols[..|cols|] == cols;
    }
  }

  /** Cell addressing: with distinct labels, the value under (rows[i], cols[j])
      is the comma-free text read at (rowStart + i, colStart + j). */
  lemma {:induction false} WritesAt(p: Page, rowStart: int, colStart: int, rows: seq<string>, cols: seq<string>, n: nat, i: nat, j: nat)
    requires n <= |rows| && i < n && j < |cols| && Distinct(rows) && Distinct(cols)
    ensures (rows[i], cols[j]) in Writes(p, rowStart, colStart, rows, cols, n)
    ensures Writes(p, rowStart, colStart, rows, cols, n)[(rows[i], cols[j])] == Without(ReadCell(p, rowStart + i, colStart + j), {','})
  {
    var last := RowWrites(p, rowStart + n - 1, rows[n - 1], colStart, cols, |cols|);
    if i < n - 1 {
      WritesAt(p, rowStart, colStart, rows, cols, n - 1, i, j);
      RowWritesKeys(p, rowStart + n - 1, rows[n - 1], colStart, cols, |cols|, (rows[i], cols[j]));
      assert (rows[i], cols[j]) !in last;
    } else {
      RowWritesAt(p, rowStart + n - 1, rows[n - 1], colStart, cols, |cols|, j);
    }
  }

  /** Every written value is free of commas. */
  lemma {:induction false} WritesCommaFree(p: Page, rowStart: int, colStart: int, rows: seq<string>, cols: seq<string>, n: nat, key: (string, string))
    requires n <= |rows| && key in Writes(p, rowStart, colStart, rows, cols, n)
    ensures ',' !in Writes(p, rowStart, colStart, rows, cols, n)[key]
  {
    var last := RowWrites(p, rowStart + n - 1, rows[n - 1], colStart, cols, |cols|);
    if key in last {
      RowWritesCommaFree(p, rowStart + n - 1, rows[n - 1], colStart, cols, |cols|, key);
    } else {
      WritesCommaFree(p, rowStart, colStart, rows, cols, n - 1, key);
    }
  }

  lemma {:induction false} RowWritesCommaFree(p: Page, rowIndex: int, row: string, colIndex: int, cols: seq<string>, n: nat, key: (string, string))
    requires n <= |cols| && key in RowWrites(p, rowIndex, row, colIndex, cols, n)
    ensures ',' !in RowWrites(p, rowIndex, row, colIndex, cols, n)[key]
  {
    if key == (row, cols[n - 1]) {
      WithoutKeepsTheRest(ReadCell(p, rowIndex, colIndex + n - 1), {','}, ',');
    } else {
      RowWritesCommaFree(p, rowIndex, row, colIndex, cols, n - 1, key);
    }
  }

  /** The enlarged row index holds each of the first n row labels once. */
  lemma {:induction false} RowIndexLabels(rows: seq<string>, n: nat)
    requires n <= |rows|
    ensures Distinct(RowIndex(rows, n))
    ensures forall x :: x in RowIndex(rows, n) <==> x in rows[..n]
  {
    if n > 0 {
      RowIndexLabels(rows, n - 1);
      assert rows[..n] == rows[..n - 1] + [rows[n - 1]];
    }
  }

  /** With distinct row labels the index is the row labels in scrape order. */
  lemma {:induction false} RowIndexOfDistinct(rows: seq<string>, n: nat)
    requires n <= |rows| && Distinct(rows)
    ensures RowIndex(rows, n) == rows[..n]
  {
    if n > 0 {
      RowIndexOfDistinct(rows, n - 1);
      assert rows[n - 1] !in rows[..n - 1];
      assert rows[..n] == rows[..n - 1] + [rows[n - 1]];
    }
  }

  /** The table has a cell for exactly each (row label, data column label)
      pair; its columns are the scanned labels after "index"; its index is
      empty when there are no data columns, and otherwise lists each row label
      once (in scrape order when they are distinct). */
  lemma TableShape(p: Page, rowStart: int, colStart: int, labels: Labels, key: (string, string))
    requires |labels.cols| >= 1
    ensures var t := TableFrom(p, rowStart, colStart, labels);
            && t.columns == labels.cols[1..]
            && (key in t.cells <==> key.0 in labels.rows && key.1 in labels.cols[1..])
            && (labels.cols[1..] == [] ==> t.index == [])
            && (labels.cols[1..] != [] ==> Distinct(t.index) && (key.0 in t.index <==> key.0 in labels.rows))
            && (labels.cols[1..] != [] && Distinct(labels.rows) ==> t.index == labels.rows)
  {
    var rows := labels.rows;
    WritesKeys(p, rowStart, colStart, rows, labels.cols[1..], |rows|, key);
    RowIndexLabels(rows, |rows|);
    assert rows[..|rows|] == rows;
    if Distinct(rows) {
      RowIndexOfDistinct(rows, |rows|);
    }
  }

  /** Cell addressing and normalisation: with distinct labels, the cell under
      (rows[i], cols[j]) for a data column j >= 1 is the read at row index
      rowStart + i and column index colStart + (j - 1), commas stripped and
      the missing pair replaced. */
  lemma TableCellAt(p: Page, rowStart: int, colStart: int, labels: Labels, i: nat, j: nat)
    requires |labels.cols| >= 1 && Distinct(labels.rows) && Distinct(labels.cols[1..])
    requires i < |labels.rows| && 1 <= j < |labels.cols|
    ensures var t := TableFrom(p, rowStart, colStart, labels);
            && (labels.rows[i], labels.cols[j]) in t.cells
            && t.cells[(labels.rows[i], labels.cols[j])] == StoredCell(ReadCell(p, rowStart + i, colStart + j - 1))
  {
    var cols := labels.cols[1..];
    WritesAt(p, rowStart, colStart, labels.rows, cols, |labels.rows|, i, j - 1);
    assert cols[j - 1] == labels.cols[j];
  }

  /** No stored cell holds a comma or the missing pair: the pair has become
      missing. */
  lemma TableCellClean(p: Page, rowStart: int, colStart: int, labels: Labels, key: (string, string))
    requires |labels.cols| >= 1
    requires key in TableFrom(p, rowStart, colStart, labels).cells
    ensures var c := TableFrom(p, rowStart, colStart, labels).cells[key];
            c.Text? ==> ',' !in c.text && c.text != MissingPair
  {
    WritesCommaFree(p, rowStart, colStart, labels.rows, labels.cols[1..], |labels.rows|, key);
  }

  /** `_scrape_*` without the browser: labels from the first row and the third
      column on, then the cells. */
  function ScrapeTable(p: Page): Result<Table, ScrapeError> {
    match TableLabels(p, FirstRow, FirstColumn)
    case Err(e) => Err(e)
    case Ok(labels) => Ok(TableFrom(p, FirstRow, FirstColumn, labels))
  }

  method ScrapePage(p: Page) returns (r: Result<Table, ScrapeError>)
    ensures r == ScrapeTable(p)
  {
    var labels, rowReads, colReads := GetTableLabels(p, FirstRow, FirstColumn);
    if labels.Err? {
      return Err(labels.error);
    }
    var t := GetTableData(p, FirstRow, FirstColumn, labels.value);
    r := Ok(t);
  }
}
