/**
 * The public spreadsheet exporters of mpl_bsic/style_excel.py: `df_to_excel`,
 * which checks its table and title arguments and lays out one table, or
 * several side by side with one shared source row, and `style_excel_file`,
 * which re-formats a table read from a file into the file at OutputPath of
 * its path: "_fmt" goes before each ".xlsx", and a path without ".xlsx" is
 * kept as it is, so that file is overwritten.
 *
 * Offsets are read as (row, column), as `_format_worksheet` unpacks them,
 * although the exporters' documentation describes (columns, rows); see
 * OffsetIsRowThenColumn. The multi-table coordinates are the source's as
 * written: table i starts at
 * column offset[1] + i * (its own row count) + 1, every table starts on row
 * offset[0], and the shared source row is offset[1] + (largest row count) + 4,
 * starting in column offset[0]. The lemmas at the end state what this layout
 * does and does not guarantee.
 */
module ExcelExport {
  import opened Maybe
  import opened Sheet
  import opened StyleExcel

  /** The default `offset` of both exporters. */
  const DefaultOffset: (nat, nat) := (1, 1)
  /** Width of the narrow column left of each table in a multi-table sheet. */
  const SpacerColumnWidth: real := 3.0

  /** The `df` argument: one DataFrame or a list of them. */
  datatype TableArg = OneTable(table: Table) | TableList(tables: seq<Table>)

  /** The `title` argument: None, one string, or a list of strings. */
  datatype TitleArg = NoTitle | OneTitle(text: string) | TitleList(texts: seq<string>)

  /** The exceptions `df_to_excel` raises before writing anything. */
  datatype ExportError =
    | TitlesNotAList         // a list of tables with a title that is not a list
    | TitleCountMismatch     // a list of tables and a list of titles of different lengths
    | TitleListForOneTable   // one table with a list of titles
    | NoTables               // an empty list of tables: `max` of an empty list raises

  predicate AllValid(ts: seq<Table>) {
    forall i :: 0 <= i < |ts| ==> ts[i].Valid()
  }

  /** The argument checks of `df_to_excel`, in the order the source makes them. */
  function ArgumentError(df: TableArg, title: TitleArg): (e: Option<ExportError>)
    ensures e.None? <==>
      || (df.OneTable? && !title.TitleList?)
      || (df.TableList? && title.TitleList? && |df.tables| == |title.texts| > 0)
    ensures e == Some(TitlesNotAList) <==> df.TableList? && !title.TitleList?
    ensures e == Some(TitleCountMismatch) <==> df.TableList? && title.TitleList? && |df.tables| != |title.texts|
    ensures e == Some(TitleListForOneTable) <==> df.OneTable? && title.TitleList?
    ensures e == Some(NoTables) <==> df == TableList([]) && title == TitleList([])
  {
    match df
    case TableList(tables) =>
      if !title.TitleList? then Some(TitlesNotAList)
      else if |tables| != |title.texts| then Some(TitleCountMismatch)
      else if |tables| == 0 then Some(NoTables)
      else None
    case OneTable(_) =>
      if title.TitleList? then Some(TitleListForOneTable) else None
  }

  /** The title of a single table: None or the string. */
  function SingleTitle(title: TitleArg): Option<string>
    requires !title.TitleList?
  {
    if title.OneTitle? then Some(title.text) else None
  }

  /**
   * An offset is read as (row, column): `offset=(1, 2)` leaves one empty row
   * above the table and two empty columns left of it, the reverse of the
   * exporters' documented example of two empty rows and one empty column.
   */
  lemma OffsetIsRowThenColumn(t: Table, title: Option<string>)
    ensures var L := LayoutOf(t, title, (1, 2));
            L.startRow == 1 && L.startCol == 2
  {
  }

  /**
   * The default offset (1, 1) of DfToExcel and StyleExcelFile leaves one
   * empty row above and one empty column left of the table.
   */
  lemma DefaultOffsetPlacement(t: Table, title: Option<string>)
    ensures var L := LayoutOf(t, title, DefaultOffset);
            L.startRow == 1 && L.startCol == 1
  {
  }

  // ---------------------------------------------------------------------
  // Multi-table coordinates

  /** `sum([_df.shape[1] for _df in df])`: the total column count, at least each table's. */
  function SumCols(ts: seq<Table>): (s: nat)
    ensures forall i :: 0 <= i < |ts| ==> ts[i].Cols() <= s
    ensures |ts| == 1 ==> s == ts[0].Cols()
  {
    if ts == [] then 0
    else
      assert forall i :: 0 <= i < |ts| - 1 ==> ts[i] == ts[..|ts| - 1][i];
      SumCols(ts[..|ts| - 1]) + ts[|ts| - 1].Cols()
  }

  /** The column count of two lists of tables together is the sum of their column counts. */
  lemma {:induction false} SumColsAppend(a: seq<Table>, b: seq<Table>)
    ensures SumCols(a + b) == SumCols(a) + SumCols(b)
    decreases |b|
  {
    if b == [] {
      assert a + b == a;
    } else {
      var b' := b[..|b| - 1];
      SumColsAppend(a, b');
      assert (a + b)[..|a + b| - 1] == a + b';
    }
  }

  /** `max([_df.shape[0] for _df in df])`: the largest row count, reached by some table. */
  function MaxRows(ts: seq<Table>): (m: nat)
    requires ts != []
    ensures forall i :: 0 <= i < |ts| ==> ts[i].Rows() <= m
    ensures exists i :: 0 <= i < |ts| && ts[i].Rows() == m
  {
    if |ts| == 1 then ts[0].Rows()
    else
      var m := MaxRows(ts[1..]);
      assert forall i :: 1 <= i < |ts| ==> ts[i] == ts[1..][i - 1];
      if ts[0].Rows() >= m then ts[0].Rows() else m
  }

  /**
   * `new_start_col` of table i: the column offset plus i times the table's own
   * row count, plus one, so always right of the column offset.
   */
  function StartColOf(offset: (nat, nat), i: nat, t: Table): (c: nat)
    ensures c > offset.1
  {
    offset.1 + i * t.Rows() + 1
  }

  /**
   * A table sits just right of the column offset exactly when it is the first
   * or has no rows; one position further along the list moves a table right
   * by its own row count.
   */
  lemma StartColSteps(offset: (nat, nat), i: nat, t: Table)
    ensures StartColOf(offset, i, t) == offset.1 + 1 <==> i == 0 || t.Rows() == 0
    ensures StartColOf(offset, i + 1, t) == StartColOf(offset, i, t) + t.Rows()
  {
    assert (i + 1) * t.Rows() == i * t.Rows() + t.Rows();
  }

  /** The layout `_format_worksheet` uses for table i: `df_offset = (offset[0], new_start_col)`, with its title. */
  function TableLayoutAt(ts: seq<Table>, titles: seq<string>, offset: (nat, nat), i: nat): Layout
    requires i < |ts| && i < |titles|
  {
    LayoutOf(ts[i], Some(titles[i]), (offset.0, StartColOf(offset, i, ts[i])))
  }

  /**
   * Every table of a list has its title on row offset[0] and its header on
   * the row below; table i starts at column `new_start_col` and spans one
   * row per data row and one column per data column from there.
   */
  lemma TablePlacement(ts: seq<Table>, titles: seq<string>, offset: (nat, nat), i: nat)
    requires i < |ts| && i < |titles|
    ensures var L := TableLayoutAt(ts, titles, offset, i);
            && L.startRow == offset.0 && L.HeaderRow() == offset.0 + 1
            && L.startCol == StartColOf(offset, i, ts[i])
            && L.endRow == offset.0 + 1 + ts[i].Rows() && L.endCol == L.startCol + ts[i].Cols()
  {
  }

  /**
   * `row_source`: the row of the shared source text, four below the largest
   * row count counted from offset[1] (the column offset).
   */
  function SourceRowOf(offset: (nat, nat), ts: seq<Table>): (r: nat)
    requires ts != []
    ensures forall i :: 0 <= i < |ts| ==> offset.1 + ts[i].Rows() + 4 <= r
    ensures exists i :: 0 <= i < |ts| && r == offset.1 + ts[i].Rows() + 4
  {
    offset.1 + MaxRows(ts) + 4
  }

  /**
   * `ws_colend`: the last column of the shared source merge, which starts at
   * `ws_col0 = offset[0]` (the row offset): one column per data column and
   * one per table beyond it.
   */
  function SourceLastCol(offset: (nat, nat), ts: seq<Table>): (c: nat)
    ensures forall i :: 0 <= i < |ts| ==> offset.0 + ts[i].Cols() + |ts| <= c
    ensures ts == [] ==> c == offset.0
  {
    offset.0 + SumCols(ts) + |ts|
  }

  /** The cells after the first k tables are written, later tables overwriting earlier ones. */
  ghost function CellsAfter(ts: seq<Table>, titles: seq<string>, offset: (nat, nat), k: nat): map<Pos, Cell>
    requires AllValid(ts) && k <= |ts| <= |titles|
  {
    if k == 0 then map[]
    else CellsAfter(ts, titles, offset, k - 1) + TableCells(ts[k - 1], TableLayoutAt(ts, titles, offset, k - 1))
  }

  /** The title merges of the first k tables, in order. */
  ghost function MergesAfter(ts: seq<Table>, titles: seq<string>, offset: (nat, nat), k: nat): seq<Merge>
    requires k <= |ts| <= |titles|
  {
    if k == 0 then []
    else MergesAfter(ts, titles, offset, k - 1) + TitleMerges(Some(titles[k - 1]), TableLayoutAt(ts, titles, offset, k - 1))
  }

  /** The narrow spacer columns of the first k tables: column `new_start_col - 1` of each. */
  ghost function WidthsAfter(ts: seq<Table>, offset: (nat, nat), k: nat): map<nat, real>
    requires k <= |ts|
  {
    if k == 0 then map[]
    else
      WidthsAfter(ts, offset, k - 1)[StartColOf(offset, k - 1, ts[k - 1]) - 1 := SpacerColumnWidth]
  }

  // ---------------------------------------------------------------------
  // The exporters

  /** Overriding with b and then c is overriding with b + c. */
  lemma UnionAssoc<K, V>(a: map<K, V>, b: map<K, V>, c: map<K, V>)
    ensures a + b + c == a + (b + c)
  {
  }

  /** Overriding an empty map gives the overriding map; overriding with an empty map changes nothing. */
  lemma UnionEmpty<K, V>(m: map<K, V>)
    ensures map[] + m == m && m + map[] == m
  {
  }

  /** One pass of the table loop of `df_to_excel`: table i and its spacer column. */
  method WriteTableAt(ws: Worksheet, tables: seq<Table>, titles: seq<string>, offset: (nat, nat), i: nat)
    requires AllValid(tables) && i < |tables| <= |titles|
    modifies ws
    ensures ws.cells == old(ws.cells) + TableCells(tables[i], TableLayoutAt(tables, titles, offset, i))
    ensures ws.merges == old(ws.merges) + TitleMerges(Some(titles[i]), TableLayoutAt(tables, titles, offset, i))
    ensures ws.rowHeights == old(ws.rowHeights)
    ensures ws.colWidths == old(ws.colWidths)[StartColOf(offset, i, tables[i]) - 1 := SpacerColumnWidth]
  {
    var t := tables[i];
    var newStartCol := StartColOf(offset, i, t);
    FormatWorksheet(ws, t, Some(titles[i]), (offset.0, newStartCol), false);
    ws.SetColumn(newStartCol - 1, newStartCol - 1, SpacerColumnWidth);
    SingleColumnWidth(old(ws.colWidths), newStartCol - 1, SpacerColumnWidth);
  }

  /** Writing table i over the first i tables gives the first i + 1 tables. */
  lemma CellsAfterStep(base: map<Pos, Cell>, ts: seq<Table>, titles: seq<string>, offset: (nat, nat), i: nat)
    requires AllValid(ts) && i < |ts| <= |titles|
    ensures base + CellsAfter(ts, titles, offset, i) + TableCells(ts[i], TableLayoutAt(ts, titles, offset, i))
         == base + CellsAfter(ts, titles, offset, i + 1)
  {
    UnionAssoc(base, CellsAfter(ts, titles, offset, i), TableCells(ts[i], TableLayoutAt(ts, titles, offset, i)));
  }

  /** Setting the spacer of table i after those of the first i tables gives the first i + 1 spacers. */
  lemma WidthsAfterStep(base: map<nat, real>, ts: seq<Table>, offset: (nat, nat), i: nat)
    requires i < |ts|
    ensures (base + WidthsAfter(ts, offset, i))[StartColOf(offset, i, ts[i]) - 1 := SpacerColumnWidth]
         == base + WidthsAfter(ts, offset, i + 1)
  {
  }

  /** The titles of table i after those of the first i tables give the titles of the first i + 1 tables. */
  lemma MergesAfterStep(base: seq<Merge>, ts: seq<Table>, titles: seq<string>, offset: (nat, nat), i: nat)
    requires i < |ts| <= |titles|
    ensures base + MergesAfter(ts, titles, offset, i) + TitleMerges(Some(titles[i]), TableLayoutAt(ts, titles, offset, i))
         == base + MergesAfter(ts, titles, offset, i + 1)
  {
  }

  /** The sheet shows the first k tables, their titles and spacer columns over its initial state. */
  ghost predicate ShowsFirst(ws: Worksheet, tables: seq<Table>, titles: seq<string>, offset: (nat, nat), k: nat,
                             cells0: map<Pos, Cell>, merges0: seq<Merge>, widths0: map<nat, real>)
    requires AllValid(tables) && k <= |tables| == |titles|
    reads ws
  {
    && ws.cells == cells0 + CellsAfter(tables, titles, offset, k)
    && ws.merges == merges0 + MergesAfter(tables, titles, offset, k)
    && ws.colWidths == widths0 + WidthsAfter(tables, offset, k)
  }

  /** One pass of the table loop, stated on what the first i tables left over the sheet's initial state. */
  method WriteNextTable(ws: Worksheet, tables: seq<Table>, titles: seq<string>, offset: (nat, nat), i: nat,
                        ghost cells0: map<Pos, Cell>, ghost merges0: seq<Merge>, ghost widths0: map<nat, real>)
    requires AllValid(tables) && i < |tables| == |titles|
    requires ShowsFirst(ws, tables, titles, offset, i, cells0, merges0, widths0)
    modifies ws
    ensures ShowsFirst(ws, tables, titles, offset, i + 1, cells0, merges0, widths0)
    ensures ws.rowHeights == old(ws.rowHeights)
  {
    WriteTableAt(ws, tables, titles, offset, i);
    CellsAfterStep(cells0, tables, titles, offset, i);
    MergesAfterStep(merges0, tables, titles, offset, i);
    WidthsAfterStep(widths0, tables, offset, i);
  }

  /** The table loop of `df_to_excel`: every table with its title and spacer column, in order. */
  method WriteEachTable(ws: Worksheet, tables: seq<Table>, titles: seq<string>, offset: (nat, nat))
    requires AllValid(tables) && |tables| == |titles|
    modifies ws
    ensures ws.cells == old(ws.cells) + CellsAfter(tables, titles, offset, |tables|)
    ensures ws.merges == old(ws.merges) + MergesAfter(tables, titles, offset, |tables|)
    ensures ws.rowHeights == old(ws.rowHeights)
    ensures ws.colWidths == old(ws.colWidths) + WidthsAfter(tables, offset, |tables|)
  {
    ghost var cells0, merges0, widths0 := ws.cells, ws.merges, ws.colWidths;
    UnionEmpty(cells0);
    UnionEmpty(widths0);
    assert merges0 + [] == merges0;
    for i: nat := 0 to |tables|
      invariant ShowsFirst(ws, tables, titles, offset, i, cells0, merges0, widths0)
      invariant ws.rowHeights == old(ws.rowHeights)
    {
      WriteNextTable(ws, tables, titles, offset, i, cells0, merges0, widths0);
    }
  }

  /**
   * The list branch of `df_to_excel` after its checks: each table laid out
   * without a source row, at row offset[0] and column `new_start_col`, with a
   * narrow spacer column on its left; then one shared source row.
   */
  method WriteTables(ws: Worksheet, tables: seq<Table>, titles: seq<string>, offset: (nat, nat))
    requires AllValid(tables) && |tables| == |titles| && tables != []
    modifies ws
    ensures var sourceRow := SourceRowOf(offset, tables);
      && ws.cells == old(ws.cells) + CellsAfter(tables, titles, offset, |tables|)
      && ws.merges == old(ws.merges) + MergesAfter(tables, titles, offset, |tables|)
                      + [Merge(sourceRow, offset.0, sourceRow, SourceLastCol(offset, tables), Text(SourceText), BaseBodyFmt)]
      && ws.rowHeights == old(ws.rowHeights)[sourceRow - 1 := SpacerRowHeight]
      && ws.colWidths == old(ws.colWidths) + WidthsAfter(tables, offset, |tables|)
  {
    var wsCol0 := offset.0;
    var wsColEnd := wsCol0 + SumCols(tables) + |tables|;
    var rowSource := offset.1 + MaxRows(tables) + 4;

    WriteEachTable(ws, tables, titles, offset);
    ws.SetRow(rowSource - 1, SpacerRowHeight);
    ws.MergeRange(rowSource, wsCol0, rowSource, wsColEnd, Text(SourceText), BaseBodyFmt);
  }

  /**
   * `df_to_excel(df, path_to_excel, title, offset)`, returning the worksheet
   * "output" it fills. The workbook file itself is not modelled.
   */
  method DfToExcel(df: TableArg, title: TitleArg := NoTitle, offset: (nat, nat) := DefaultOffset) returns (ws: Worksheet, err: Option<ExportError>)
    requires df.OneTable? ==> df.table.Valid()
    requires df.TableList? ==> AllValid(df.tables)
    ensures fresh(ws)
    ensures err == ArgumentError(df, title)
    ensures err.Some? ==> ws.cells == map[] && ws.merges == [] && ws.rowHeights == map[] && ws.colWidths == map[]
    ensures err.None? && df.OneTable? ==>
      var L := LayoutOf(df.table, SingleTitle(title), offset);
      && ws.cells == TableCells(df.table, L)
      && ws.merges == TitleMerges(SingleTitle(title), L) + SourceMerges(true, L)
      && ws.rowHeights == map[L.endRow + 1 := SpacerRowHeight]
      && ws.colWidths == map[]
    ensures err.None? && df.TableList? ==>
      var ts, titles := df.tables, title.texts;
      var sourceRow := SourceRowOf(offset, ts);
      && ws.cells == CellsAfter(ts, titles, offset, |ts|)
      && ws.merges == MergesAfter(ts, titles, offset, |ts|)
                      + [Merge(sourceRow, offset.0, sourceRow, SourceLastCol(offset, ts), Text(SourceText), BaseBodyFmt)]
      && ws.rowHeights == map[sourceRow - 1 := SpacerRowHeight]
      && ws.colWidths == WidthsAfter(ts, offset, |ts|)
  {
    ws := new Worksheet();

    if df.TableList? {
      if !title.TitleList? {
        return ws, Some(TitlesNotAList);
      }
      if |df.tables| != |title.texts| {
        return ws, Some(TitleCountMismatch);
      }
      var tables, titles := df.tables, title.texts;
      if |tables| == 0 {
        return ws, Some(NoTables);
      }

      WriteTables(ws, tables, titles, offset);
      UnionEmpty(CellsAfter(tables, titles, offset, |tables|));
      UnionEmpty(WidthsAfter(tables, offset, |tables|));
      err := None;
    } else {
      if title.TitleList? {
        return ws, Some(TitleListForOneTable);
      }
      FormatWorksheet(ws, df.table, SingleTitle(title), offset);
      err := None;
    }
  }

  /** pat occurs in s at position i. */
  predicate OccursAt(s: string, pat: string, i: nat) {
    i + |pat| <= |s| && s[i..i + |pat|] == pat
  }

  /** `pat in s`. */
  predicate Contains(s: string, pat: string) {
    exists i: nat | i <= |s| :: OccursAt(s, pat, i)
  }

  /** An occurrence past the first position is an occurrence in the tail. */
  lemma ContainsTail(s: string, pat: string)
    requires pat != [] && s != [] && !OccursAt(s, pat, 0)
    ensures Contains(s, pat) <==> Contains(s[1..], pat)
  {
    if Contains(s, pat) {
      var i: nat :| i <= |s| && OccursAt(s, pat, i);
      assert i > 0;
      assert s[1..][i - 1..i - 1 + |pat|] == s[i..i + |pat|];
      assert OccursAt(s[1..], pat, i - 1);
    }
    if Contains(s[1..], pat) {
      var i: nat :| i <= |s[1..]| && OccursAt(s[1..], pat, i);
      assert i + 1 + |pat| <= |s|;
      assert s[i + 1..i + 1 + |pat|] == s[1..][i..i + |pat|];
      assert OccursAt(s, pat, i + 1);
    }
  }

  /**
   * `s.replace(pat, rep)`: every non-overlapping occurrence of pat, scanning
   * from the left, is replaced by rep. A string without pat is returned as it
   * is; a longer replacement lengthens a string that contains pat.
   */
  function Replace(s: string, pat: string, rep: string): (r: string)
    requires pat != []
    ensures !Contains(s, pat) ==> r == s
    ensures |rep| >= |pat| ==> |r| >= |s|
    ensures |rep| > |pat| && Contains(s, pat) ==> |r| > |s|
    decreases |s|
  {
    if |s| < |pat| then
      assert !Contains(s, pat);
      s
    else if s[..|pat|] == pat then
      assert OccursAt(s, pat, 0);
      rep + Replace(s[|pat|..], pat, rep)
    else
      ContainsTail(s, pat);
      [s[0]] + Replace(s[1..], pat, rep)
  }

  /**
   * `path_to_excel.replace(".xlsx", "_fmt.xlsx")`: the formatted file's path.
   * It differs from the source path whenever the source path mentions
   * ".xlsx", and is the source path itself otherwise.
   */
  function OutputPath(path: string): (r: string)
    ensures Contains(path, ".xlsx") ==> |r| > |path|
    ensures !Contains(path, ".xlsx") ==> r == path
  {
    Replace(path, ".xlsx", "_fmt.xlsx")
  }

  /**
   * The extension is matched case-sensitively: a path ending in ".XLSX" has
   * no ".xlsx", so the formatted file is written over the source file.
   */
  lemma CapitalExtensionOverwrites()
    ensures OutputPath("data.XLSX") == "data.XLSX"
  {
    var s, x := "data.XLSX", ".xlsx";
    forall i: nat | i <= |s|
      ensures !OccursAt(s, x, i)
    {
      if i + 5 <= |s| {
        if i == 4 {
          assert s[i..i + 5][1] == 'X' != x[1];
        } else {
          assert s[i..i + 5][0] == s[i] != x[0];
        }
      }
    }
  }

  /** A file name ending in its only ".xlsx" gets "_fmt" inserted before the extension. */
  lemma {:induction false} OutputPathOfXlsxName(stem: string)
    requires !Contains(stem, ".xlsx")
    ensures OutputPath(stem + ".xlsx") == stem + "_fmt.xlsx"
    decreases |stem|
  {
    var x := ".xlsx";
    var s := stem + x;
    if stem == [] {
      assert s == x;
      assert Replace(s[5..], x, "_fmt.xlsx") == [];
    } else {
      if |stem| >= 5 {
        assert s[..5] == stem[..5];
        assert !OccursAt(stem, x, 0);
      } else {
        assert s[|stem|] == '.';
        assert x[|stem|] != '.';
      }
      assert s[..5] != x;
      assert !OccursAt(s, x, 0);
      assert !OccursAt(stem, x, 0) by {
        if |stem| >= 5 { assert !Contains(stem, x); }
      }
      ContainsTail(stem, x);
      OutputPathOfXlsxName(stem[1..]);
      assert s[1..] == stem[1..] + x;
      assert [stem[0]] + stem[1..] == stem;
    }
  }

  /**
   * `style_excel_file(path_to_excel, sheet_name, title, offset)`: the table
   * read from the sheet is laid out with its title and source row in a new
   * worksheet of the file at OutputPath(path_to_excel).
   */
  method StyleExcelFile(path: string, sheet: Table, title: Option<string>, offset: (nat, nat) := DefaultOffset)
    returns (fmtPath: string, ws: Worksheet)
    requires sheet.Valid()
    ensures fresh(ws)
    ensures fmtPath == OutputPath(path)
    ensures var L := LayoutOf(sheet, title, offset);
      && ws.cells == TableCells(sheet, L)
      && ws.merges == TitleMerges(title, L) + SourceMerges(true, L)
      && ws.rowHeights == map[L.endRow + 1 := SpacerRowHeight]
      && ws.colWidths == map[]
  {
    fmtPath := Replace(path, ".xlsx", "_fmt.xlsx");
    ws := new Worksheet();
    FormatWorksheet(ws, sheet, title, offset);
  }

  // ---------------------------------------------------------------------
  // What the multi-table layout guarantees, as written

  /**
   * The shared source row and the short blank row above it lie below every
   * table exactly when offset[0] <= offset[1] + 1: the tables start on row
   * offset[0] but the source row is counted from offset[1], so a larger row
   * offset pulls the source row into the tallest table.
   */
  lemma SourceRowClearsTablesIff(ts: seq<Table>, titles: seq<string>, offset: (nat, nat))
    requires ts != [] && |titles| == |ts|
    ensures (forall i :: 0 <= i < |ts| ==> TableLayoutAt(ts, titles, offset, i).endRow + 1 < SourceRowOf(offset, ts))
            <==> offset.0 <= offset.1 + 1
  {
    if offset.0 > offset.1 + 1 {
      var k :| 0 <= k < |ts| && ts[k].Rows() == MaxRows(ts);
      assert TableLayoutAt(ts, titles, offset, k).endRow + 1 >= SourceRowOf(offset, ts);
    }
  }

  /** Products grow with the left factor: `i * n + n <= j * n` when i < j. */
  lemma {:induction false} MulStep(i: nat, j: nat, n: nat)
    requires i < j
    ensures i * n + n <= j * n
    decreases j - i
  {
    assert j * n == (j - 1) * n + n;
    if j > i + 1 {
      MulStep(i, j - 1, n);
    }
  }

  /**
   * Two tables of the same shape, placed next to each other, keep apart (the
   * next one starts right of the last column of the previous one) exactly when
   * the tables have fewer columns than rows: the start column advances by the
   * row count while a table occupies one more column than its column count.
   */
  lemma UniformNeighboursApartIff(ts: seq<Table>, titles: seq<string>, offset: (nat, nat), i: nat)
    requires i + 1 < |ts| && |titles| == |ts|
    requires ts[i].Rows() == ts[i + 1].Rows() && ts[i].Cols() == ts[i + 1].Cols()
    ensures TableLayoutAt(ts, titles, offset, i).endCol < TableLayoutAt(ts, titles, offset, i + 1).startCol
            <==> ts[i].Cols() < ts[i].Rows()
  {
    MulStep(i, i + 1, ts[i].Rows());
    assert (i + 1) * ts[i].Rows() == i * ts[i].Rows() + ts[i].Rows();
  }

  /**
   * When same-shaped tables have exactly one column fewer than rows, they keep
   * apart, but the narrow spacer column of table i + 1 (width 3) is the last
   * data column of table i.
   */
  lemma SpacerOnNeighboursLastColumn(ts: seq<Table>, titles: seq<string>, offset: (nat, nat), i: nat)
    requires i + 1 < |ts| && |titles| == |ts|
    requires ts[i].Rows() == ts[i + 1].Rows() && ts[i].Cols() == ts[i + 1].Cols()
    requires ts[i].Cols() + 1 == ts[i].Rows()
    ensures var L := TableLayoutAt(ts, titles, offset, i);
            && L.endCol < TableLayoutAt(ts, titles, offset, i + 1).startCol
            && StartColOf(offset, i + 1, ts[i + 1]) - 1 == L.endCol
            && (ts[i].Cols() > 0 ==> L.startCol < L.endCol)
  {
    UniformNeighboursApartIff(ts, titles, offset, i);
    StartColSteps(offset, i, ts[i]);
  }

  /**
   * Table i's cells survive the later tables when every later table starts to
   * the right of table i's last column.
   */
  lemma {:induction false} EarlierCellsKept(ts: seq<Table>, titles: seq<string>, offset: (nat, nat), k: nat, i: nat)
    requires AllValid(ts) && |titles| == |ts| && i < k <= |ts|
    requires forall j :: i < j < k ==> TableLayoutAt(ts, titles, offset, i).endCol < TableLayoutAt(ts, titles, offset, j).startCol
    ensures SubMap(TableCells(ts[i], TableLayoutAt(ts, titles, offset, i)), CellsAfter(ts, titles, offset, k))
    decreases k
  {
    if k == i + 1 {
      LastTableKept(ts, titles, offset, i);
    } else {
      EarlierCellsKept(ts, titles, offset, k - 1, i);
      KeptPastNext(ts, titles, offset, k - 1, i);
    }
  }

  /** The cells of the last table written are all in the sheet. */
  lemma LastTableKept(ts: seq<Table>, titles: seq<string>, offset: (nat, nat), i: nat)
    requires AllValid(ts) && |titles| == |ts| && i < |ts|
    ensures SubMap(TableCells(ts[i], TableLayoutAt(ts, titles, offset, i)), CellsAfter(ts, titles, offset, i + 1))
  {
    OverrideWins(CellsAfter(ts, titles, offset, i), TableCells(ts[i], TableLayoutAt(ts, titles, offset, i)));
  }

  /** Table i's cells, kept after the first k tables, survive table k when it starts right of table i. */
  lemma KeptPastNext(ts: seq<Table>, titles: seq<string>, offset: (nat, nat), k: nat, i: nat)
    requires AllValid(ts) && |titles| == |ts| && i < k < |ts|
    requires TableLayoutAt(ts, titles, offset, i).endCol < TableLayoutAt(ts, titles, offset, k).startCol
    requires SubMap(TableCells(ts[i], TableLayoutAt(ts, titles, offset, i)), CellsAfter(ts, titles, offset, k))
    ensures SubMap(TableCells(ts[i], TableLayoutAt(ts, titles, offset, i)), CellsAfter(ts, titles, offset, k + 1))
  {
    var Li, Lk := TableLayoutAt(ts, titles, offset, i), TableLayoutAt(ts, titles, offset, k);
    ColumnsApart(ts[i], Li, ts[k], Lk);
    OverrideKeeps(CellsAfter(ts, titles, offset, k), TableCells(ts[k], Lk), TableCells(ts[i], Li));
  }

  /** Every entry of `t` is an entry of `a`. */
  ghost predicate SubMap<K, V>(t: map<K, V>, a: map<K, V>)
  {
    forall p :: p in t ==> p in a && a[p] == t[p]
  }

  /** The overriding map's entries are all in the result. */
  lemma OverrideWins<K, V>(a: map<K, V>, t: map<K, V>)
    ensures SubMap(t, a + t)
  {
  }

  /** Entries of `t` kept by `a` survive an override by `u` whose keys avoid them. */
  lemma OverrideKeeps<K, V>(a: map<K, V>, u: map<K, V>, t: map<K, V>)
    requires SubMap(t, a) && t.Keys !! u.Keys
    ensures SubMap(t, a + u)
  {
  }

  /**
   * When all tables share one shape with fewer columns than rows, every
   * table's cells are in the cell map the table loop leaves, unchanged. This
   * is the modelled cell map: when offset[0] > offset[1] + 1 the shared source
   * row can fall inside a table (SourceRowClearsTablesIff), and on a real
   * sheet its merge, written after the tables, overwrites the cells it covers.
   */
  lemma UniformTablesKeepTheirCells(ts: seq<Table>, titles: seq<string>, offset: (nat, nat), n: nat, m: nat)
    requires AllValid(ts) && |titles| == |ts|
    requires forall i :: 0 <= i < |ts| ==> ts[i].Rows() == n && ts[i].Cols() == m
    requires m < n
    ensures forall i :: 0 <= i < |ts| ==>
              SubMap(TableCells(ts[i], TableLayoutAt(ts, titles, offset, i)), CellsAfter(ts, titles, offset, |ts|))
  {
    forall i | 0 <= i < |ts|
      ensures SubMap(TableCells(ts[i], TableLayoutAt(ts, titles, offset, i)), CellsAfter(ts, titles, offset, |ts|))
    {
      forall j | i < j < |ts|
        ensures TableLayoutAt(ts, titles, offset, i).endCol < TableLayoutAt(ts, titles, offset, j).startCol
      {
        MulStep(i, j, n);
      }
      EarlierCellsKept(ts, titles, offset, |ts|, i);
    }
  }

  /**
   * When the tables have at least as many columns as rows, the second table's
   * index-name cell lands inside the first table, on its header row, and
   * replaces the first table's cell there (its last column header when the
   * tables have rows, its own index name otherwise) in the modelled cell map.
   * The worksheet never gets that far: the two title merges overlap (see
   * UniformTitlesOverlap), and xlsxwriter rejects the second table's title
   * merge, which comes before its index-name write. Merge rejection is not
   * part of this model, so this lemma describes the layout as computed.
   */
  lemma UniformTablesOverlap(ts: seq<Table>, titles: seq<string>, offset: (nat, nat), n: nat, m: nat)
    requires AllValid(ts) && |titles| == |ts| >= 2
    requires ts[0].Rows() == ts[1].Rows() == n && ts[0].Cols() == ts[1].Cols() == m
    requires n <= m
    ensures var L0, L1 := TableLayoutAt(ts, titles, offset, 0), TableLayoutAt(ts, titles, offset, 1);
            var p := (offset.0 + 1, offset.1 + n + 1);
            && p in TableCells(ts[0], L0)
            && (n >= 1 ==> TableCells(ts[0], L0)[p].value == ts[0].columns[n - 1].name)
            && p in CellsAfter(ts, titles, offset, 2)
            && CellsAfter(ts, titles, offset, 2)[p].value == ts[1].indexName
  {
    var L1 := TableLayoutAt(ts, titles, offset, 1);
    var p := (offset.0 + 1, offset.1 + n + 1);
    assert L1.startCol == offset.1 + n + 1;
    assert p in TableCells(ts[1], L1);
  }

  /**
   * In the same case the title merges of the first two tables, both on row
   * offset[0], overlap: each covers column offset[1] + n + 1, where the second
   * table starts.
   */
  lemma UniformTitlesOverlap(ts: seq<Table>, titles: seq<string>, offset: (nat, nat), n: nat, m: nat)
    requires AllValid(ts) && |titles| == |ts| >= 2
    requires ts[0].Rows() == ts[1].Rows() == n && ts[0].Cols() == ts[1].Cols() == m
    requires n <= m
    ensures var ms := MergesAfter(ts, titles, offset, 2);
            var p := (offset.0, offset.1 + n + 1);
            |ms| == 2 && ms[0].Covers(p) && ms[1].Covers(p)
  {
    var L0, L1 := TableLayoutAt(ts, titles, offset, 0), TableLayoutAt(ts, titles, offset, 1);
    var t0, t1 := TitleMerges(Some(titles[0]), L0), TitleMerges(Some(titles[1]), L1);
    assert MergesAfter(ts, titles, offset, 1) == [] + t0;
    assert MergesAfter(ts, titles, offset, 2) == MergesAfter(ts, titles, offset, 1) + t1;
    assert L0.startCol == offset.1 + 1 && L0.endCol == offset.1 + 1 + m;
    assert L1.startCol == offset.1 + n + 1;
  }
}
