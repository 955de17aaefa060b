/**
 * Laying out one table on a worksheet (`_format_worksheet` in
 * mpl_bsic/style_excel.py): an optional merged title row, a header row, an
 * index column, the data block and an optional merged "Source: BSIC" row,
 * each cell carrying border flags that draw a frame around the table.
 *
 * The coordinate arithmetic and the three format builders are pure functions;
 * writing into the worksheet is the method FormatWorksheet, proved to leave
 * exactly the cells of TableCells, a reference definition that says what
 * belongs in each position of the table's rectangle.
 */
module StyleExcel {
  import opened Maybe
  import opened Sheet

  /** TITLE_FMT: bold italic centred title, no borders. */
  const TitleFmt := Format(TitleStyle, false, false, false, false)
  /** HEADER_FMT: purple header cells with top and bottom borders. */
  const HeaderFmt := Format(HeaderStyle, true, true, false, false)
  /** BASE_BODY_FMT: body text, no borders. */
  const BaseBodyFmt := Format(BodyStyle, false, false, false, false)
  /** INDEX_FMT: BASE_BODY_FMT plus bold and left, right and bottom borders. */
  const IndexFmt := Format(IndexStyle, false, true, true, true)

  /** The text of the source row, `f"Source: {sources}"` with sources "BSIC". */
  const SourceText: string := "Source: BSIC"
  /** Height given to the blank row above the source row. */
  const SpacerRowHeight: real := 5.0

  /** One DataFrame column: its header and its values, top to bottom. */
  datatype Column = Column(name: Value, values: seq<Value>)

  /** A DataFrame: the index name, the index values and the columns. */
  datatype Table = Table(indexName: Value, index: seq<Value>, columns: seq<Column>)
  {
    /** Every column is as long as the index, as in any DataFrame. */
    predicate Valid() {
      forall i :: 0 <= i < |columns| ==> |columns[i].values| == |index|
    }

    /** `df.shape[0]`. */
    function Rows(): nat { |index| }

    /** `df.shape[1]`. */
    function Cols(): nat { |columns| }
  }

  /** The coordinates `_format_worksheet` computes before writing anything. */
  datatype Layout = Layout(startRow: nat, startCol: nat, titleOffset: nat, endRow: nat, endCol: nat)
  {
    /** The row of the column headers, below the title when there is one. */
    function HeaderRow(): nat { startRow + titleOffset }

    /** The block holding the header row, the index column and the data. */
    predicate InBody(p: Pos) {
      HeaderRow() <= p.0 <= endRow && startCol <= p.1 <= endCol
    }

    /** The whole rectangle of the table, title row included. */
    predicate InRect(p: Pos) {
      startRow <= p.0 <= endRow && startCol <= p.1 <= endCol
    }

    /** The layout leaves exactly one row per data row and one column per data column. */
    predicate Fits(t: Table) {
      endRow == HeaderRow() + t.Rows() && endCol == startCol + t.Cols()
    }
  }

  /** `title_offset`: one row for the title, none without. */
  function TitleOffset(title: Option<string>): (k: nat)
    ensures k <= 1
    ensures k == 1 <==> title.Some?
  {
    if title.None? then 0 else 1
  }

  /** `start_row, start_col = offset`; `end_row`; `end_col`. */
  function LayoutOf(t: Table, title: Option<string>, offset: (nat, nat)): (L: Layout)
    ensures L.startRow == offset.0 && L.startCol == offset.1
    ensures L.Fits(t)
    ensures title.None? ==> L.HeaderRow() == L.startRow
    ensures title.Some? ==> L.HeaderRow() == L.startRow + 1
  {
    var titleOffset := TitleOffset(title);
    var (startRow, startCol) := offset;
    Layout(startRow, startCol, titleOffset, t.Rows() + startRow + titleOffset, t.Cols() + startCol)
  }

  /** `index_format(i)`: INDEX_FMT with a top border on the first table row and a bottom border on the last. */
  function IndexFormat(L: Layout, row: nat): (f: Format)
    ensures f.style == IndexStyle && f.left && f.right
    ensures f.top <==> row == L.startRow
    ensures f.bottom <==> row == L.endRow
  {
    IndexFmt.(top := row == L.startRow, bottom := row == L.endRow)
  }

  /** `header_format(i)`: HEADER_FMT with a left border on the first column and a right border on the last. */
  function HeaderFormat(L: Layout, col: nat): (f: Format)
    ensures f.style == HeaderStyle && f.top && f.bottom
    ensures f.left <==> col == L.startCol
    ensures f.right <==> col == L.endCol
  {
    HeaderFmt.(left := col == L.startCol, right := col == L.endCol)
  }

  /** `text_format(i)`: BASE_BODY_FMT with a bottom border, and a right border on the last column. */
  function TextFormat(L: Layout, col: nat): (f: Format)
    ensures f.style == BodyStyle && f.bottom && !f.top && !f.left
    ensures f.right <==> col == L.endCol
  {
    BaseBodyFmt.(bottom := true, right := col == L.endCol)
  }

  /**
   * Reference definition of the table body: what belongs in each position of
   * the block under the title. The header row holds the index name (formatted
   * by `header_format(0)`) and the column names; below it, the index column
   * holds the index values and the other columns the data.
   */
  function CellValue(t: Table, L: Layout, p: Pos): Cell
    requires t.Valid() && L.Fits(t) && L.InBody(p)
  {
    var (row, col) := p;
    if row == L.HeaderRow() then
      if col == L.startCol then Cell(t.indexName, HeaderFormat(L, 0))
      else Cell(t.columns[col - L.startCol - 1].name, HeaderFormat(L, col))
    else if col == L.startCol then Cell(t.index[row - L.HeaderRow() - 1], IndexFormat(L, row))
    else Cell(t.columns[col - L.startCol - 1].values[row - L.HeaderRow() - 1], TextFormat(L, col))
  }

  /** The positions of the table body. */
  function BodyPositions(L: Layout): (s: set<Pos>)
    ensures forall p :: p in s <==> L.InBody(p)
  {
    set r: nat, c: nat | L.HeaderRow() <= r <= L.endRow && L.startCol <= c <= L.endCol :: (r, c)
  }

  /** The cells one table writes with `ws.write`. */
  function TableCells(t: Table, L: Layout): map<Pos, Cell>
    requires t.Valid() && L.Fits(t)
  {
    map p | p in BodyPositions(L) :: CellValue(t, L, p)
  }

  /** Two tables, the second starting right of the first's last column, write no common position. */
  lemma ColumnsApart(t: Table, L: Layout, u: Table, M: Layout)
    requires t.Valid() && L.Fits(t) && u.Valid() && M.Fits(u)
    requires L.endCol < M.startCol
    ensures TableCells(t, L).Keys !! TableCells(u, M).Keys
  {
  }

  /**
   * The title merge: when the title is a string, one merged range holding it
   * that spans row `start_row` across the table's columns; otherwise none.
   */
  function TitleMerges(title: Option<string>, L: Layout): (ms: seq<Merge>)
    ensures |ms| <= 1 && (|ms| == 1 <==> title.Some?)
    ensures forall k :: 0 <= k < |ms| ==> ms[k].value == Text(title.value) && ms[k].format == TitleFmt
    ensures forall k, p: Pos :: 0 <= k < |ms| ==> (ms[k].Covers(p) <==> p.0 == L.startRow && L.startCol <= p.1 <= L.endCol)
  {
    if title.Some? then [Merge(L.startRow, L.startCol, L.startRow, L.endCol, Text(title.value), TitleFmt)] else []
  }

  /**
   * The source merge: when sources are written, one merged range holding
   * "Source: BSIC" that spans the row two below `end_row` across the table's
   * columns; otherwise none.
   */
  function SourceMerges(writeSources: bool, L: Layout): (ms: seq<Merge>)
    ensures |ms| <= 1 && (|ms| == 1 <==> writeSources)
    ensures forall k :: 0 <= k < |ms| ==> ms[k].value == Text(SourceText) && ms[k].format == BaseBodyFmt
    ensures forall k, p: Pos :: 0 <= k < |ms| ==> (ms[k].Covers(p) <==> p.0 == L.endRow + 2 && L.startCol <= p.1 <= L.endCol)
  {
    if writeSources then [Merge(L.endRow + 2, L.startCol, L.endRow + 2, L.endCol, Text(SourceText), BaseBodyFmt)] else []
  }

  /** The cells of the table at the positions of D: what the writers have left after writing D. */
  ghost function Written(t: Table, L: Layout, D: set<Pos>): map<Pos, Cell>
    requires t.Valid() && L.Fits(t)
    requires forall q :: q in D ==> L.InBody(q)
  {
    map q | q in D :: CellValue(t, L, q)
  }

  /** Adding one position to a set of written positions updates the restricted map at that position. */
  lemma RestrictStep(base: map<Pos, Cell>, t: Table, L: Layout, D: set<Pos>, p: Pos)
    requires t.Valid() && L.Fits(t) && L.InBody(p)
    requires forall q :: q in D ==> L.InBody(q)
    ensures base + Written(t, L, D + {p})
         == (base + Written(t, L, D))[p := CellValue(t, L, p)]
  {
  }

  /** Writing A and then B leaves what writing their union leaves. */
  lemma WrittenUnion(base: map<Pos, Cell>, t: Table, L: Layout, A: set<Pos>, B: set<Pos>)
    requires t.Valid() && L.Fits(t)
    requires forall q :: q in A + B ==> L.InBody(q)
    ensures base + Written(t, L, A) + Written(t, L, B) == base + Written(t, L, A + B)
  {
  }

  /** The index column below the header row. */
  function IndexPositions(L: Layout): (s: set<Pos>)
    ensures forall q :: q in s <==> q.1 == L.startCol && L.HeaderRow() < q.0 <= L.endRow
  {
    set r: nat | L.HeaderRow() < r <= L.endRow :: (r, L.startCol)
  }

  /** One column of the body: its header and its data. */
  function ColumnPositions(L: Layout, col: nat): (s: set<Pos>)
    ensures forall q :: q in s <==> q.1 == col && L.HeaderRow() <= q.0 <= L.endRow
  {
    set r: nat | L.HeaderRow() <= r <= L.endRow :: (r, col)
  }

  /**
   * `_write_index`: the index values down column `start_col`, one row per
   * value, starting below the header row.
   */
  method WriteIndex(ws: Worksheet, t: Table, L: Layout)
    requires t.Valid() && L.Fits(t)
    modifies ws
    ensures ws.cells == old(ws.cells) + Written(t, L, IndexPositions(L))
    ensures ws.merges == old(ws.merges) && ws.rowHeights == old(ws.rowHeights) && ws.colWidths == old(ws.colWidths)
  {
    ghost var D: set<Pos> := {};
    for k := 0 to |t.index|
      invariant forall q :: q in D <==> q.1 == L.startCol && L.HeaderRow() < q.0 <= L.HeaderRow() + k
      invariant ws.cells == old(ws.cells) + Written(t, L, D)
      invariant ws.merges == old(ws.merges) && ws.rowHeights == old(ws.rowHeights) && ws.colWidths == old(ws.colWidths)
    {
      // below the header row, which is below the title row when there is one
      var row := L.startRow + k + 1 + L.titleOffset;
      RestrictStep(old(ws.cells), t, L, D, (row, L.startCol));
      ws.Write(row, L.startCol, t.index[k], IndexFormat(L, row));
      D := D + {(row, L.startCol)};
    }
    assert D == IndexPositions(L);
  }

  /** One pass of the column loop of `_write_data`: the header of column i, then its data top to bottom. */
  method WriteColumn(ws: Worksheet, t: Table, L: Layout, i: nat)
    requires t.Valid() && L.Fits(t) && i < t.Cols()
    modifies ws
    ensures ws.cells == old(ws.cells) + Written(t, L, ColumnPositions(L, L.startCol + i + 1))
    ensures ws.merges == old(ws.merges) && ws.rowHeights == old(ws.rowHeights) && ws.colWidths == old(ws.colWidths)
  {
    var headerRow := L.startRow + L.titleOffset;
    // column start_col is the index column, so data column i is one to its right
    var col := L.startCol + i + 1;
    RestrictStep(old(ws.cells), t, L, {}, (headerRow, col));
    ws.Write(headerRow, col, t.columns[i].name, HeaderFormat(L, col));
    ghost var D: set<Pos> := {(headerRow, col)};

    var data := t.columns[i].values;
    for j := 0 to |data|
      invariant forall q :: q in D <==> q.1 == col && headerRow <= q.0 <= headerRow + j
      invariant ws.cells == old(ws.cells) + Written(t, L, D)
      invariant ws.merges == old(ws.merges) && ws.rowHeights == old(ws.rowHeights) && ws.colWidths == old(ws.colWidths)
    {
      var row := headerRow + j + 1;
      RestrictStep(old(ws.cells), t, L, D, (row, col));
      ws.Write(row, col, data[j], TextFormat(L, col));
      D := D + {(row, col)};
    }
    assert D == ColumnPositions(L, col);
  }

  /**
   * `_write_data`: the column headers and data, the index name above the index
   * column and, when asked, the source row with a short blank row above it.
   */
  method WriteData(ws: Worksheet, t: Table, L: Layout, writeSources: bool)
    requires t.Valid() && L.Fits(t)
    modifies ws
    ensures ws.cells == old(ws.cells) + Written(t, L, BodyPositions(L) - IndexPositions(L))
    ensures ws.merges == old(ws.merges) + SourceMerges(writeSources, L)
    ensures ws.rowHeights == if writeSources then old(ws.rowHeights)[L.endRow + 1 := SpacerRowHeight] else old(ws.rowHeights)
    ensures ws.colWidths == old(ws.colWidths)
  {
    var headerRow := L.startRow + L.titleOffset;
    ghost var D: set<Pos> := {};
    for i := 0 to |t.columns|
      invariant forall q :: q in D <==> headerRow <= q.0 <= L.endRow && L.startCol < q.1 <= L.startCol + i
      invariant ws.cells == old(ws.cells) + Written(t, L, D)
      invariant ws.merges == old(ws.merges) && ws.rowHeights == old(ws.rowHeights) && ws.colWidths == old(ws.colWidths)
    {
      ghost var C := ColumnPositions(L, L.startCol + i + 1);
      WriteColumn(ws, t, L, i);
      WrittenUnion(old(ws.cells), t, L, D, C);
      D := D + C;
    }

    // the index name
    RestrictStep(old(ws.cells), t, L, D, (headerRow, L.startCol));
    ws.Write(headerRow, L.startCol, t.indexName, HeaderFormat(L, 0));
    D := D + {(headerRow, L.startCol)};
    assert D == BodyPositions(L) - IndexPositions(L);

    if writeSources {
      var sourcesRow := L.endRow + 2;
      ws.MergeRange(sourcesRow, L.startCol, sourcesRow, L.endCol, Text(SourceText), BaseBodyFmt);
      ws.SetRow(sourcesRow - 1, SpacerRowHeight);
    }
  }

  /**
   * `_format_worksheet(wb, ws, df, title, offset, write_sources)`: the title
   * merge, then `_write_index`, then `_write_data`.
   */
  method FormatWorksheet(ws: Worksheet, t: Table, title: Option<string>, offset: (nat, nat), writeSources: bool := true)
    requires t.Valid()
    modifies ws
    ensures ws.cells == old(ws.cells) + TableCells(t, LayoutOf(t, title, offset))
    ensures ws.merges == old(ws.merges) + TitleMerges(title, LayoutOf(t, title, offset))
                                        + SourceMerges(writeSources, LayoutOf(t, title, offset))
    ensures ws.rowHeights == if writeSources then old(ws.rowHeights)[LayoutOf(t, title, offset).endRow + 1 := SpacerRowHeight]
                             else old(ws.rowHeights)
    ensures ws.colWidths == old(ws.colWidths)
  {
    var L := LayoutOf(t, title, offset);
    if title.Some? {
      ws.MergeRange(L.startRow, L.startCol, L.startRow, L.endCol, Text(title.value), TitleFmt);
    }
    WriteIndex(ws, t, L);
    WriteData(ws, t, L, writeSources);
    WrittenUnion(old(ws.cells), t, L, IndexPositions(L), BodyPositions(L) - IndexPositions(L));
    assert IndexPositions(L) + (BodyPositions(L) - IndexPositions(L)) == BodyPositions(L);
  }

  // ---------------------------------------------------------------------
  // Properties of the layout of one table

  /**
   * Where the writers put each item: column header i on the header row, in
   * column start_col + i + 1; data item j of column i on the j-th row below it;
   * index value j in column start_col on that same row; the index name at the
   * left end of the header row.
   */
  lemma Placement(t: Table, title: Option<string>, offset: (nat, nat), i: nat, j: nat)
    requires t.Valid() && i < t.Cols() && j < t.Rows()
    ensures var L := LayoutOf(t, title, offset);
            var T := TableCells(t, L);
            var headerRow := offset.0 + TitleOffset(title);
            var col := offset.1 + i + 1;
            && (headerRow, col) in T && T[(headerRow, col)].value == t.columns[i].name
            && (headerRow + j + 1, col) in T && T[(headerRow + j + 1, col)].value == t.columns[i].values[j]
            && (headerRow + j + 1, offset.1) in T && T[(headerRow + j + 1, offset.1)].value == t.index[j]
            && (headerRow, offset.1) in T && T[(headerRow, offset.1)].value == t.indexName
  {
  }

  /**
   * The written cells fill exactly the table's rectangle below the title row:
   * rows header_row..end_row and columns start_col..end_col, where end_row and
   * end_col leave one row per data row and one column per data column.
   */
  lemma CellsFillBody(t: Table, title: Option<string>, offset: (nat, nat))
    requires t.Valid()
    ensures var L := LayoutOf(t, title, offset);
            forall p :: p in TableCells(t, L) <==> L.InBody(p)
    ensures var L := LayoutOf(t, title, offset);
            forall p :: p in TableCells(t, L) ==> L.InRect(p)
    ensures var L := LayoutOf(t, title, offset);
            L.endRow == offset.0 + TitleOffset(title) + t.Rows() && L.endCol == offset.1 + t.Cols()
  {
  }

  /**
   * The title, when given, is one merge on row start_row spanning the table's
   * columns, and no written cell lies in it; without a title nothing is merged
   * and the headers start on row start_row.
   */
  lemma TitleRow(t: Table, title: Option<string>, offset: (nat, nat))
    requires t.Valid()
    ensures var L := LayoutOf(t, title, offset);
            title.Some? ==> TitleMerges(title, L) == [Merge(offset.0, offset.1, offset.0, L.endCol, Text(title.value), TitleFmt)]
    ensures var L := LayoutOf(t, title, offset);
            title.Some? ==> forall p :: p in TableCells(t, L) ==> !TitleMerges(title, L)[0].Covers(p)
    ensures var L := LayoutOf(t, title, offset);
            title.None? ==> TitleMerges(title, L) == [] && (offset.0, offset.1) in TableCells(t, L)
  {
  }

  /**
   * With write_sources the source text is one merge on row end_row + 2 across
   * the table's columns, below every written cell; without it there is no
   * merge. The height of the blank row end_row + 1 is stated by FormatWorksheet.
   */
  lemma SourceRow(t: Table, title: Option<string>, offset: (nat, nat), writeSources: bool)
    requires t.Valid()
    ensures var L := LayoutOf(t, title, offset);
            writeSources ==> SourceMerges(writeSources, L) == [Merge(L.endRow + 2, offset.1, L.endRow + 2, L.endCol, Text(SourceText), BaseBodyFmt)]
    ensures var L := LayoutOf(t, title, offset);
            writeSources ==> forall p :: p in TableCells(t, L) ==> p.0 < L.endRow + 1 && !SourceMerges(writeSources, L)[0].Covers(p)
    ensures !writeSources ==> SourceMerges(writeSources, LayoutOf(t, title, offset)) == []
  {
  }

  /**
   * The write regions are disjoint: the index column, each data column (with
   * its header) and the index-name cell never share a position, and none of
   * them reaches the title row.
   */
  lemma WriteRegionsDisjoint(L: Layout)
    ensures forall c :: c != L.startCol ==> IndexPositions(L) !! ColumnPositions(L, c)
    ensures forall c1, c2 :: c1 != c2 ==> ColumnPositions(L, c1) !! ColumnPositions(L, c2)
    ensures (L.HeaderRow(), L.startCol) !in IndexPositions(L)
    ensures forall c :: c != L.startCol ==> (L.HeaderRow(), L.startCol) !in ColumnPositions(L, c)
    ensures L.titleOffset == 1 ==> forall q :: q in IndexPositions(L) ==> q.0 != L.startRow
    ensures forall c :: L.titleOffset == 1 ==> forall q :: q in ColumnPositions(L, c) ==> q.0 != L.startRow
  {
  }

  /**
   * The borders draw a frame around the table body: a top border along the
   * header row, a bottom border along row end_row, a right border down column
   * end_col and a left border down the index column. The one exception is the
   * index-name cell, formatted with `header_format(0)`: its left border is set
   * only when start_col is 0, its right border only when end_col is 0.
   */
  lemma BorderFrame(t: Table, title: Option<string>, offset: (nat, nat))
    requires t.Valid()
    ensures var L := LayoutOf(t, title, offset);
            var T := TableCells(t, L);
            forall p :: p in T && p.0 == L.HeaderRow() ==> T[p].format.top && T[p].format.bottom
    ensures var L := LayoutOf(t, title, offset);
            var T := TableCells(t, L);
            forall p :: p in T && p.0 == L.endRow ==> T[p].format.bottom
    ensures var L := LayoutOf(t, title, offset);
            var T := TableCells(t, L);
            forall p :: p in T && p.1 == L.endCol && p != (L.HeaderRow(), L.startCol) ==> T[p].format.right
    ensures var L := LayoutOf(t, title, offset);
            var T := TableCells(t, L);
            forall p :: p in T && p.1 == L.startCol && p.0 != L.HeaderRow() ==> T[p].format.left
    ensures var L := LayoutOf(t, title, offset);
            var corner := TableCells(t, L)[(L.HeaderRow(), L.startCol)].format;
            (corner.left <==> offset.1 == 0) && (corner.right <==> L.endCol == 0)
  {
  }

  /**
   * Inside the frame: column headers and data cells have no left border, data
   * cells always have a bottom border and a right border only in column end_col,
   * and index cells have a bottom border only on row end_row and never a top border.
   */
  lemma InnerBorders(t: Table, title: Option<string>, offset: (nat, nat))
    requires t.Valid()
    ensures var L := LayoutOf(t, title, offset);
            var T := TableCells(t, L);
            forall p :: p in T && p.1 != L.startCol ==> !T[p].format.left && (T[p].format.right <==> p.1 == L.endCol)
    ensures var L := LayoutOf(t, title, offset);
            var T := TableCells(t, L);
            forall p :: p in T && p.0 != L.HeaderRow() && p.1 != L.startCol ==>
              T[p].format.style == BodyStyle && T[p].format.bottom
    ensures var L := LayoutOf(t, title, offset);
            var T := TableCells(t, L);
            forall p :: p in T && p.0 != L.HeaderRow() && p.1 == L.startCol ==>
              T[p].format.style == IndexStyle && !T[p].format.top && (T[p].format.bottom <==> p.0 == L.endRow)
  {
  }
}
