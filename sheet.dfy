/**
 * The part of an xlsxwriter worksheet that the table writers touch: the cells
 * written with `write`, the ranges merged with `merge_range`, and the row
 * heights and column widths set with `set_row` and `set_column`.
 * Rows and columns are zero-based, as in xlsxwriter.
 */
module Sheet {

  /** A (row, column) cell coordinate. */
  type Pos = (nat, nat)

  /** What a cell holds: an empty cell (pandas' `None` index name), text or a number. */
  datatype Value = Blank | Text(s: string) | Number(x: real)

  /**
   * The font, fill and alignment part of a format dictionary. Each style stands
   * for one of the dictionaries TITLE_FMT, HEADER_FMT, BASE_BODY_FMT and
   * INDEX_FMT; they differ only in fixed font and colour keys.
   */
  datatype Style = TitleStyle | HeaderStyle | BodyStyle | IndexStyle

  /** A cell format: its style and its four border flags (border 1 or absent/0). */
  datatype Format = Format(style: Style, top: bool, bottom: bool, left: bool, right: bool)

  datatype Cell = Cell(value: Value, format: Format)

  /** A merged range from (firstRow, firstCol) to (lastRow, lastCol), inclusive. */
  datatype Merge = Merge(firstRow: nat, firstCol: nat, lastRow: nat, lastCol: nat, value: Value, format: Format)
  {
    predicate Covers(p: Pos) {
      firstRow <= p.0 <= lastRow && firstCol <= p.1 <= lastCol
    }
  }

  class Worksheet {
    var cells: map<Pos, Cell>
    var merges: seq<Merge>
    var rowHeights: map<nat, real>
    var colWidths: map<nat, real>

    /** `workbook.add_worksheet(...)`: a new, empty worksheet. */
    constructor ()
      ensures cells == map[] && merges == [] && rowHeights == map[] && colWidths == map[]
    {
      cells, merges, rowHeights, colWidths := map[], [], map[], map[];
    }

    /** `ws.write(row, col, value, format)`: the cell takes the new value and format. */
    method Write(row: nat, col: nat, value: Value, format: Format)
      modifies this
      ensures cells == old(cells)[(row, col) := Cell(value, format)]
      ensures merges == old(merges) && rowHeights == old(rowHeights) && colWidths == old(colWidths)
    {
      cells := cells[(row, col) := Cell(value, format)];
    }

    /** `ws.merge_range(first_row, first_col, last_row, last_col, value, format)`. */
    method MergeRange(firstRow: nat, firstCol: nat, lastRow: nat, lastCol: nat, value: Value, format: Format)
      modifies this
      ensures merges == old(merges) + [Merge(firstRow, firstCol, lastRow, lastCol, value, format)]
      ensures cells == old(cells) && rowHeights == old(rowHeights) && colWidths == old(colWidths)
    {
      merges := merges + [Merge(firstRow, firstCol, lastRow, lastCol, value, format)];
    }

    /** `ws.set_row(row, height)`. */
    method SetRow(row: nat, height: real)
      modifies this
      ensures rowHeights == old(rowHeights)[row := height]
      ensures cells == old(cells) && merges == old(merges) && colWidths == old(colWidths)
    {
      rowHeights := rowHeights[row := height];
    }

    /** `ws.set_column(first_col, last_col, width)`: every column of the range gets the width. */
    method SetColumn(firstCol: nat, lastCol: nat, width: real)
      modifies this
      ensures colWidths == old(colWidths) + SpanWidths(firstCol, lastCol, width)
      ensures cells == old(cells) && merges == old(merges) && rowHeights == old(rowHeights)
    {
      colWidths := colWidths + SpanWidths(firstCol, lastCol, width);
    }
  }

  /** The widths `set_column` records: one entry per column of the inclusive range. */
  function SpanWidths(firstCol: nat, lastCol: nat, width: real): (m: map<nat, real>)
    ensures forall c :: c in m <==> firstCol <= c <= lastCol
    ensures forall c :: c in m ==> m[c] == width
    decreases lastCol + 1 - firstCol
  {
    if firstCol > lastCol then map[] else SpanWidths(firstCol + 1, lastCol, width)[firstCol := width]
  }

  /** Setting the width of a single column adds that one column. */
  lemma SingleColumnWidth(m: map<nat, real>, col: nat, width: real)
    ensures m + SpanWidths(col, col, width) == m[col := width]
  {
    assert SpanWidths(col, col, width) == map[col := width];
  }
}
