/** The spreadsheet parser script: the rows of a sheet and the cells of its table. */
module SheetRows {
  import opened Text
  import opened PythonStrings

  datatype Chart = Chart(chartType: string, title: string, anchor: string)

  datatype Picture = Picture(mediaType: MediaType, anchor: string)

  /** The media types the script gives an image, after its format. */
  datatype MediaType = Jpeg | Gif | Bmp | Png

  /** Cell texts of the two views of a sheet, calculated values and formulas; an empty cell is "". */
  datatype Sheet = Sheet(
    title: string, values: seq<seq<string>>, formulas: seq<seq<string>>, charts: seq<Chart>, images: seq<Picture>)

  // ---- materialized_rows ----

  datatype Row = Row(rowNumber: nat, values: seq<string>)

  function CellAt(rows: seq<seq<string>>, i: nat, j: nat): string {
    if i < |rows| && j < |rows[i]| then rows[i][j] else ""
  }

  function RowWidth(rows: seq<seq<string>>, i: nat): nat { if i < |rows| then |rows[i]| else 0 }

  predicate IsFormula(text: string) { text != "" && text[0] == '=' }

  /** The text of a cell: its value, with the formula behind it if it has one. */
  function Merged(value: string, formula: string): string {
    if !IsFormula(formula) then value
    else if value == "" then formula
    else if value != formula then value + " (" + formula + ")"
    else value
  }

  function MergedAt(sheet: Sheet, i: nat, j: nat): string {
    Merged(CellAt(sheet.values, i, j), CellAt(sheet.formulas, i, j))
  }

  function Width(sheet: Sheet, i: nat): nat {
    Max(RowWidth(sheet.values, i), RowWidth(sheet.formulas, i))
  }

  function Height(sheet: Sheet): nat { Max(|sheet.values|, |sheet.formulas|) }

  function RowTexts(sheet: Sheet, i: nat): (texts: seq<string>)
    ensures |texts| == Width(sheet, i) && forall j :: 0 <= j < |texts| ==> texts[j] == MergedAt(sheet, i, j)
  {
    seq(Width(sheet, i), j requires 0 <= j < Width(sheet, i) => MergedAt(sheet, i, j))
  }

  function Trimmed(texts: seq<string>): (r: seq<string>)
    ensures r != [] ==> r[|r| - 1] != ""
  {
    RStrip(text => text == "", texts)
  }

  function RowsUpTo(sheet: Sheet, k: nat): seq<Row> {
    if k == 0 then []
    else
      var values := Trimmed(RowTexts(sheet, k - 1));
      RowsUpTo(sheet, k - 1) + When(values != [], Row(k, values))
  }

  function Rows(sheet: Sheet): seq<Row> { RowsUpTo(sheet, Height(sheet)) }

  /** A cell of a sheet, counted from one as in the program that wrote it. */
  datatype Place = Place(row: nat, column: nat)

  predicate LacksValue(sheet: Sheet, i: nat, j: nat) {
    CellAt(sheet.values, i, j) == "" && IsFormula(CellAt(sheet.formulas, i, j))
  }

  /** The warnings of the first k columns of a row. */
  function RowWarnings(sheet: Sheet, i: nat, k: nat): seq<Place> {
    if k == 0 then [] else RowWarnings(sheet, i, k - 1) + When(LacksValue(sheet, i, k - 1), Place(i + 1, k))
  }

  function WarningsUpTo(sheet: Sheet, k: nat): seq<Place> {
    if k == 0 then [] else WarningsUpTo(sheet, k - 1) + RowWarnings(sheet, k - 1, Width(sheet, k - 1))
  }

  function Warnings(sheet: Sheet): seq<Place> { WarningsUpTo(sheet, Height(sheet)) }

  predicate Precedes(a: Place, b: Place) { a.row < b.row || (a.row == b.row && a.column < b.column) }

  /** Row by row, left to right, no place twice. */
  predicate InSheetOrder(ws: seq<Place>) {
    forall a, b :: 0 <= a < b < |ws| ==> Precedes(ws[a], ws[b])
  }

  lemma {:induction false} RowWarningsExact(sheet: Sheet, i: nat, k: nat)
    ensures var ws := RowWarnings(sheet, i, k);
      && (forall w: Place :: w in ws <==> w.row == i + 1 && 1 <= w.column <= k && LacksValue(sheet, i, w.column - 1))
      && InSheetOrder(ws)
  {
    hide LacksValue;
    if k > 0 {
      RowWarningsExact(sheet, i, k - 1);
      var before, ws := RowWarnings(sheet, i, k - 1), RowWarnings(sheet, i, k);
      forall a, b | 0 <= a < b < |ws| ensures Precedes(ws[a], ws[b]) {
        if b == |before| { assert before[a] in before; }
      }
    }
  }

  lemma WholeRowWarnings(sheet: Sheet, i: nat)
    ensures forall w: Place :: w in RowWarnings(sheet, i, Width(sheet, i)) <==>
      w.row == i + 1 && 1 <= w.column && LacksValue(sheet, i, w.column - 1)
  {
    RowWarningsExact(sheet, i, Width(sheet, i));
    hide RowWarnings;
    assert forall j: nat :: LacksValue(sheet, i, j) ==> j < Width(sheet, i);
  }

  /** A warning is raised exactly for each formula without a calculated value, once, row by row and
      left to right. */
  lemma {:induction false} WarningsExact(sheet: Sheet, k: nat)
    ensures forall w: Place :: w in WarningsUpTo(sheet, k) <==>
      1 <= w.row <= k && 1 <= w.column && LacksValue(sheet, w.row - 1, w.column - 1)
    ensures InSheetOrder(WarningsUpTo(sheet, k))
  {
    hide LacksValue, RowWarnings, Width;
    if k > 0 {
      hide InSheetOrder;
      WarningsExact(sheet, k - 1);
      WholeRowWarnings(sheet, k - 1);
      RowWarningsExact(sheet, k - 1, Width(sheet, k - 1));
      RowsFollow(WarningsUpTo(sheet, k - 1), RowWarnings(sheet, k - 1, Width(sheet, k - 1)), k);
    }
  }

  lemma RowsFollow(before: seq<Place>, own: seq<Place>, k: nat)
    requires forall w :: w in before ==> w.row < k
    requires forall w :: w in own ==> w.row == k
    requires InSheetOrder(before) && InSheetOrder(own)
    ensures InSheetOrder(before + own)
  {
    forall a, b | 0 <= a < b < |before + own| ensures Precedes((before + own)[a], (before + own)[b]) {
      if a < |before| <= b {
        assert before[a] in before && own[b - |before|] in own;
      }
    }
  }

  method ReadRow(sheet: Sheet, i: nat) returns (values: seq<string>, warnings: seq<Place>)
    ensures values == RowTexts(sheet, i)
    ensures warnings == RowWarnings(sheet, i, Width(sheet, i))
  {
    values, warnings := [], [];
    for j := 0 to Width(sheet, i)
      invariant |values| == j && forall c :: 0 <= c < j ==> values[c] == MergedAt(sheet, i, c)
      invariant warnings == RowWarnings(sheet, i, j)
    {
      var text, formula := CellAt(sheet.values, i, j), CellAt(sheet.formulas, i, j);
      if IsFormula(formula) {
        if text == "" {
          text := formula;
          warnings := warnings + [Place(i + 1, j + 1)];
        } else if text != formula {
          text := text + " (" + formula + ")";
        }
      }
      assert text == MergedAt(sheet, i, j);
      values := values + [text];
    }
  }

  method PopEmpty(texts: seq<string>) returns (values: seq<string>)
    ensures values == Trimmed(texts)
  {
    values := texts;
    while values != [] && values[|values| - 1] == ""
      invariant Trimmed(values) == Trimmed(texts)
    {
      values := values[..|values| - 1];
    }
  }

  method MaterializedRows(sheet: Sheet) returns (rows: seq<Row>, warnings: seq<Place>)
    ensures rows == Rows(sheet) && warnings == Warnings(sheet)
  {
    hide MergedAt, RowTexts, Trimmed, RowWarnings;
    rows, warnings := [], [];
    for i := 0 to Height(sheet)
      invariant rows == RowsUpTo(sheet, i) && warnings == WarningsUpTo(sheet, i)
    {
      var texts, own := ReadRow(sheet, i);
      warnings := warnings + own;
      var values := PopEmpty(texts);
      assert (exists v :: v in values && v != "") <==> values != [] by {
        if values != [] { assert values[|values| - 1] in values; }
      }
      if exists v :: v in values && v != "" {
        rows := rows + [Row(i + 1, values)];
      }
    }
  }

  /** A cell is blank only when it has neither a value nor a formula. */
  lemma MergedKeeps(value: string, formula: string)
    ensures Merged(value, formula) == "" <==> value == "" && !IsFormula(formula)
    ensures value <= Merged(value, formula)
  {
  }

  lemma TrimmedKeeps(texts: seq<string>, j: nat)
    requires j < |texts| && texts[j] != ""
    ensures j < |Trimmed(texts)| && Trimmed(texts)[j] == texts[j]
  {
  }

  lemma {:induction false} RowsKeep(sheet: Sheet, k: nat, i: nat, j: nat) returns (r: nat)
    requires i < k && j < Width(sheet, i) && MergedAt(sheet, i, j) != ""
    ensures r < |RowsUpTo(sheet, k)|
    ensures var row := RowsUpTo(sheet, k)[r];
      row.rowNumber == i + 1 && j < |row.values| && row.values[j] == MergedAt(sheet, i, j)
  {
    hide MergedAt, Trimmed, RowTexts;
    if i < k - 1 {
      r := RowsKeep(sheet, k - 1, i, j);
    } else {
      TrimmedKeeps(RowTexts(sheet, i), j);
      r := |RowsUpTo(sheet, k - 1)|;
    }
  }

  predicate IsRow(sheet: Sheet, row: Row) {
    row.rowNumber >= 1 && row.values != [] && row.values == Trimmed(RowTexts(sheet, row.rowNumber - 1))
  }

  /** Every row is a row of the sheet without its trailing blanks, in the order of the sheet. */
  lemma {:induction false} RowsMeaning(sheet: Sheet, k: nat)
    ensures var rows := RowsUpTo(sheet, k);
      && (forall row :: row in rows ==> IsRow(sheet, row) && row.rowNumber <= k)
      && (forall r, s :: 0 <= r < s < |rows| ==> rows[r].rowNumber < rows[s].rowNumber)
  {
    hide RowTexts, Trimmed;
    if k > 0 {
      RowsMeaning(sheet, k - 1);
      var values := Trimmed(RowTexts(sheet, k - 1));
      var before, rows := RowsUpTo(sheet, k - 1), RowsUpTo(sheet, k);
      assert rows == if values != [] then before + [Row(k, values)] else before;
      assert values != [] ==> IsRow(sheet, Row(k, values));
      hide RowsUpTo, IsRow;
      forall r | 0 <= r < |before| ensures before[r].rowNumber < k {
        assert before[r] in before;
      }
    }
  }

  lemma CellInside(sheet: Sheet, i: nat, j: nat)
    requires MergedAt(sheet, i, j) != ""
    ensures i < Height(sheet) && j < Width(sheet, i)
  {
  }

  /** No cell with a value or a formula is lost: it is in the row of its number, at its column. */
  lemma CellsAreKept(sheet: Sheet, i: nat, j: nat) returns (r: nat)
    requires CellAt(sheet.values, i, j) != "" || IsFormula(CellAt(sheet.formulas, i, j))
    ensures r < |Rows(sheet)|
    ensures var row := Rows(sheet)[r];
      row.rowNumber == i + 1 && j < |row.values| && row.values[j] == MergedAt(sheet, i, j) && row.values[j] != ""
  {
    MergedKeeps(CellAt(sheet.values, i, j), CellAt(sheet.formulas, i, j));
    CellInside(sheet, i, j);
    hide RowsUpTo, Height, Width;
    r := RowsKeep(sheet, Height(sheet), i, j);
  }

  // ---- table_cells ----

  datatype SheetCell = SheetCell(rowIndex: nat, columnIndex: nat, sourceRow: nat, sourceColumn: nat, text: string)

  function RowCells(row: Row, i: nat): (cells: seq<SheetCell>)
    ensures |cells| == |row.values|
    ensures forall j :: 0 <= j < |cells| ==> cells[j] == SheetCell(i, j, row.rowNumber, j + 1, row.values[j])
  {
    seq(|row.values|, j requires 0 <= j < |row.values| => SheetCell(i, j, row.rowNumber, j + 1, row.values[j]))
  }

  function CellsUpTo(rows: seq<Row>, k: nat): seq<SheetCell>
    requires k <= |rows|
  {
    if k == 0 then [] else CellsUpTo(rows, k - 1) + RowCells(rows[k - 1], k - 1)
  }

  method TableCells(rows: seq<Row>) returns (cells: seq<SheetCell>)
    ensures cells == CellsUpTo(rows, |rows|)
  {
    cells := [];
    for i := 0 to |rows|
      invariant cells == CellsUpTo(rows, i)
    {
      ghost var before := cells;
      for j := 0 to |rows[i].values|
        invariant cells == before + RowCells(rows[i], i)[..j]
      {
        cells := cells + [SheetCell(i, j, rows[i].rowNumber, j + 1, rows[i].values[j])];
      }
    }
  }

  predicate Before(a: SheetCell, b: SheetCell) {
    a.rowIndex < b.rowIndex || (a.rowIndex == b.rowIndex && a.columnIndex < b.columnIndex)
  }

  /** The cell is one of the rows' cells, with the source position it came from. */
  predicate IsCell(rows: seq<Row>, c: SheetCell) {
    && c.rowIndex < |rows| && c.columnIndex < |rows[c.rowIndex].values|
    && c.sourceRow == rows[c.rowIndex].rowNumber && c.sourceColumn == c.columnIndex + 1
    && c.text == rows[c.rowIndex].values[c.columnIndex]
  }

  /** The cells are those of the rows, each once, row by row and left to right. */
  lemma {:induction false} CellsExact(rows: seq<Row>, k: nat)
    requires k <= |rows|
    ensures var cells := CellsUpTo(rows, k);
      && (forall c: SheetCell :: c in cells <==> c.rowIndex < k && IsCell(rows, c))
      && (forall a, b :: 0 <= a < b < |cells| ==> Before(cells[a], cells[b]))
  {
    if k > 0 {
      CellsExact(rows, k - 1);
      var before, own := CellsUpTo(rows, k - 1), RowCells(rows[k - 1], k - 1);
      RowCellsExact(rows, k - 1);
      hide CellsUpTo, IsCell;
      assert CellsUpTo(rows, k) == before + own;
      forall a, b | 0 <= a < b < |before + own| ensures Before((before + own)[a], (before + own)[b]) {
        if a < |before| <= b {
          assert before[a] in before && own[b - |before|] in own;
        }
      }
    }
  }

  lemma RowCellsExact(rows: seq<Row>, i: nat)
    requires i < |rows|
    ensures forall c: SheetCell :: c in RowCells(rows[i], i) <==> c.rowIndex == i && IsCell(rows, c)
  {
    var own := RowCells(rows[i], i);
    forall c: SheetCell | c.rowIndex == i && IsCell(rows, c) ensures c in own {
      assert own[c.columnIndex] == c;
    }
  }
}
