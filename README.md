# mpl_bsic: spreadsheet table layout and figure-size checks, in Dafny

mpl_bsic is a styling add-on for matplotlib charts and xlsxwriter
spreadsheets. This project models the two parts of it that are deterministic:

- **Spreadsheet table layout** (`mpl_bsic/style_excel.py`). `_format_worksheet`
  writes one DataFrame into a worksheet from a `(start_row, start_col)` offset.
  It writes an optional merged title row, a header row, an index column, the
  data block and an optional merged "Source: BSIC" row. Each cell gets border
  flags that frame the table. `df_to_excel` checks its table and title arguments
  and lays out one table, or several tables side by side with one shared source
  row. `style_excel_file` re-formats a table read from a file and writes it to
  `path.replace(".xlsx", "_fmt.xlsx")`. A path without the lower-case
  ".xlsx" (for example "data.XLSX") is left unchanged, so the source file is
  overwritten.
- **Figure-size resolution** (`mpl_bsic/check_figsize.py`). `check_figsize`
  returns the width and height to use, given a width, an optional height and an
  optional aspect ratio. It warns about figures wider than a Word page (7.32
  inches).

Files and modules:

- `maybe.dfy` (`Maybe`): `Option`, for Python's `None`.
- `sheet.dfy` (`Sheet`): the xlsxwriter worksheet as a class `Worksheet`. Its
  state is a map of written cells, a list of merged ranges, and maps of row
  heights and column widths. `write`, `merge_range`, `set_row` and
  `set_column` are methods that update that state.
- `style_excel.dfy` (`StyleExcel`): the format dictionaries, a DataFrame as a
  `Table` value, the coordinate arithmetic (`LayoutOf`) and the three format
  builders as functions. `TableCells` is a reference definition of what
  belongs in each position of a table. The imperative writers `WriteIndex`,
  `WriteColumn`, `WriteData` and `FormatWorksheet` are proved to leave exactly
  those cells.
- `excel_export.dfy` (`ExcelExport`): `df_to_excel` (argument checks, and the
  multi-table loop with the source's own arithmetic), `str.replace` and
  `style_excel_file`. Lemmas state what the multi-table layout guarantees.
- `figure_size.dfy` (`FigureSize`): `check_figsize` and its properties.

Offsets are read as (row, column), as `_format_worksheet` unpacks them
(mpl_bsic/style_excel.py:62). The docstrings of both exporters describe the
reverse: their example says `offset=(1,2)` leaves 2 empty rows and 1 empty
column. The model follows the code, and `OffsetIsRowThenColumn` states the
result: one empty row and two empty columns.

The multi-table arithmetic is modelled exactly as written, and the lemmas
describe its consequences:

- Table `i` starts at column `offset[1] + i * nrows_i + 1`, which uses the row
  count.
- Every table starts on row `offset[0]`.
- The shared source row is `offset[1] + max(nrows) + 4`, and it starts in
  column `offset[0]`.

So the multi-table branch reads `offset[0]` as a column and `offset[1]` as a
row for the source row, but as a row and a column for the tables.

As a result, same-shaped tables keep apart only when they have fewer columns
than rows. When they do not, the title merges of the first two tables overlap,
which xlsxwriter rejects. When a table has exactly one column fewer than rows,
the tables keep apart, but the next table's narrow spacer column (width 3) is
that table's last data column (`SpacerOnNeighboursLastColumn`). The source row clears the tables only when
`offset[0] <= offset[1] + 1`.

`check_figsize` only prints a warning above 7.32 inches. It never clamps the
width (see `WideFigureOnlyWarns`).

## Model

| member | source | states |
|---|---|---|
| `StyleExcel.TitleOffset` | mpl_bsic/style_excel.py:60 | the title offset is at most 1, and it is 1 exactly when a title is given |
| `StyleExcel.LayoutOf` | mpl_bsic/style_excel.py:60-65 | the table starts at the offset; the header row is `start_row`, or `start_row + 1` with a title; `end_row` leaves one row per data row below the header, and `end_col` one column per data column right of the index |
| `StyleExcel.IndexFormat` | mpl_bsic/style_excel.py:68-74 | index cells keep INDEX_FMT's left and right borders; top border exactly on row `start_row`, bottom border exactly on row `end_row` |
| `StyleExcel.HeaderFormat` | mpl_bsic/style_excel.py:82-88 | header cells keep HEADER_FMT's top and bottom borders; left border exactly at `start_col`, right border exactly at `end_col` |
| `StyleExcel.TextFormat` | mpl_bsic/style_excel.py:90-96 | body cells always have a bottom border, never top or left; right border exactly at `end_col` |
| `StyleExcel.TitleMerges` | mpl_bsic/style_excel.py:131-133 | with a string title there is exactly one merge, holding the title in TITLE_FMT and covering exactly row `start_row` from `start_col` to `end_col`; with no title there is none |
| `StyleExcel.SourceMerges` | mpl_bsic/style_excel.py:116-125 | with `write_sources` there is exactly one merge, holding "Source: BSIC" in BASE_BODY_FMT and covering exactly row `end_row + 2` from `start_col` to `end_col`; without it there is none |
| `StyleExcel.WriteIndex` | mpl_bsic/style_excel.py:67-79 | after `_write_index`, the index column below the header row holds the index values with their formats, and every other cell is unchanged |
| `StyleExcel.WriteColumn` | mpl_bsic/style_excel.py:99-110 | one pass of the column loop writes column `start_col + i + 1`: its header on the header row and its data below, and nothing else |
| `StyleExcel.WriteData` | mpl_bsic/style_excel.py:81-126 | after `_write_data`, the header row and data columns hold the table's cells and the index name sits above the index; with `write_sources` there is one source merge and row `end_row + 1` has height 5, otherwise neither |
| `StyleExcel.FormatWorksheet` | mpl_bsic/style_excel.py:45-138 | the worksheet gains exactly the table's cells (old cells elsewhere untouched), the title merge when there is a title, the source merge and the spacer row height when `write_sources`, and no column widths |
| `StyleExcel.Placement` | mpl_bsic/style_excel.py:76-113 | header `i` is at `(start_row + title_offset, start_col + i + 1)`; data item `j` of column `i` is one row per item below it; index value `j` is in column `start_col` on the same row as data item `j`; the index name is at the left end of the header row |
| `StyleExcel.CellsFillBody` | mpl_bsic/style_excel.py:60-113 | the written cells are exactly the rectangle from the header row to `end_row` and from `start_col` to `end_col`; each lies inside the table's rectangle; `end_row = start_row + title_offset + nrows`, `end_col = start_col + ncols` |
| `StyleExcel.TitleRow` | mpl_bsic/style_excel.py:99-133 | a string title is one merge on row `start_row` from `start_col` to `end_col`, which no written cell falls in; without a title nothing is merged and the header is written on `start_row` |
| `StyleExcel.SourceRow` | mpl_bsic/style_excel.py:116-126 | with `write_sources` the source is one merge on row `end_row + 2` across `start_col..end_col`, below every written cell; without it there is no source merge |
| `StyleExcel.WriteRegionsDisjoint` | mpl_bsic/style_excel.py:76-113 | the index column, each data column with its header, and the index-name cell never share a position; with a title none of them reaches the title row |
| `StyleExcel.BorderFrame` | mpl_bsic/style_excel.py:68-113 | the borders frame the body: top and bottom along the header row, bottom along `end_row`, right down `end_col`, left down the index column; the index-name cell (`header_format(0)`) has a left border only when `start_col` is 0 and a right border only when `end_col` is 0 |
| `StyleExcel.InnerBorders` | mpl_bsic/style_excel.py:68-110 | headers and data right of the index have no left border and a right border only at `end_col`; data cells always have a bottom border; index cells never have a top border and have a bottom border only on `end_row` |
| `ExcelExport.ArgumentError` | mpl_bsic/style_excel.py:214-250 | the call fails exactly when: a list of tables comes with a non-list title; or the table and title lists differ in length; or the table list is empty (where `max` fails); or a single table comes with a list of titles. Each error is characterised in both directions |
| `ExcelExport.OffsetIsRowThenColumn` | mpl_bsic/style_excel.py:62 | `offset=(1, 2)` puts the table's first row on row 1 and its index column on column 2, so the pair is (row, column) |
| `ExcelExport.DefaultOffsetPlacement` | mpl_bsic/style_excel.py:143-145 | the default offset `(1, 1)` puts the table's first row on row 1 and its index column on column 1 |
| `ExcelExport.SumCols` | mpl_bsic/style_excel.py:226 | `sum` of the column counts is at least every table's column count, and is that count for a single table |
| `ExcelExport.SumColsAppend` | mpl_bsic/style_excel.py:226 | the column sum of two lists put together is the sum of their column sums |
| `ExcelExport.MaxRows` | mpl_bsic/style_excel.py:227 | `max` of the row counts is at least every table's row count and equals one of them |
| `ExcelExport.SourceRowOf` | mpl_bsic/style_excel.py:227 | `row_source` is at least `offset[1] + nrows + 4` for every table, and equal to it for some table |
| `ExcelExport.SourceLastCol` | mpl_bsic/style_excel.py:224-226 | `ws_colend` is at least `offset[0] + ncols + len(df)` for every table, and is `offset[0]` for an empty list |
| `ExcelExport.StartColOf` | mpl_bsic/style_excel.py:230 | `new_start_col` is always right of column `offset[1]` |
| `ExcelExport.StartColSteps` | mpl_bsic/style_excel.py:230 | a table starts at column `offset[1] + 1` exactly when it is the first or has no rows; one position further along the list moves a table right by its own row count |
| `ExcelExport.TablePlacement` | mpl_bsic/style_excel.py:230-232 | table i has its title on row `offset[0]` and its header on the row below, starts at column `new_start_col`, and spans one row per data row and one column per data column |
| `ExcelExport.WriteTableAt` | mpl_bsic/style_excel.py:229-234 | table `i` is laid out without a source row at `(offset[0], offset[1] + i * nrows_i + 1)`, and column `new_start_col - 1` gets width 3 |
| `ExcelExport.WriteEachTable` | mpl_bsic/style_excel.py:229-234 | after the `for` loop over the tables, the sheet holds the tables' cells in order (later tables overriding earlier ones), their title merges in order and their spacer columns; row heights are unchanged |
| `ExcelExport.WriteTables` | mpl_bsic/style_excel.py:224-244 | after the table loop, the sheet holds the tables' cells (later tables overriding earlier ones), their title merges in order and their spacer columns; then one source merge on row `offset[1] + max(nrows) + 4` from column `offset[0]` to `offset[0] + sum(ncols) + len(tables)`, with height 5 on the row above |
| `ExcelExport.DfToExcel` | mpl_bsic/style_excel.py:141-255 | the error is ArgumentError, and on an error nothing is written; a single table is laid out with its title and source row; a list of tables as WriteTables states |
| `ExcelExport.SourceRowClearsTablesIff` | mpl_bsic/style_excel.py:224-239 | the shared source row and the blank row above it lie below every table if and only if `offset[0] <= offset[1] + 1` |
| `ExcelExport.UniformNeighboursApartIff` | mpl_bsic/style_excel.py:229-232 | two neighbouring tables of the same shape keep apart if and only if they have fewer columns than rows |
| `ExcelExport.EarlierCellsKept` | mpl_bsic/style_excel.py:229-232 | a table's cells survive the later tables when every later table starts right of its last column |
| `ExcelExport.UniformTablesKeepTheirCells` | mpl_bsic/style_excel.py:226-234 | with all tables of one shape and fewer columns than rows, every table's cells are unchanged in the cell map the table loop leaves; when `offset[0] > offset[1] + 1` the shared source row can fall inside a table (`SourceRowClearsTablesIff`), and on a real sheet its merge, written afterwards, overwrites the cells it covers |
| `ExcelExport.SpacerOnNeighboursLastColumn` | mpl_bsic/style_excel.py:229-234 | for same-shaped tables with one column fewer than rows, neighbours keep apart, yet column `new_start_col - 1` of table i + 1, which gets width 3, is the last column of table i (a data column when the tables have columns) |
| `ExcelExport.UniformTablesOverlap` | mpl_bsic/style_excel.py:229-232 | with at least as many columns as rows, the second table's index-name cell lands on the first table's header row and replaces the first table's cell there in the computed cell map; on a real worksheet xlsxwriter fails earlier, on the overlapping title merge that `UniformTitlesOverlap` states |
| `ExcelExport.UniformTitlesOverlap` | mpl_bsic/style_excel.py:229-232 | with at least as many columns as rows, the first two tables' title merges both cover row `offset[0]`, column `offset[1] + n + 1`, so they overlap |
| `ExcelExport.Replace` | mpl_bsic/style_excel.py:317 | `str.replace` returns a string without the pattern unchanged; a longer replacement never shortens, and lengthens any string that contains the pattern |
| `ExcelExport.OutputPath` | mpl_bsic/style_excel.py:316-317 | the output path differs from (is longer than) the source path whenever the source path contains ".xlsx", and equals it otherwise |
| `ExcelExport.CapitalExtensionOverwrites` | mpl_bsic/style_excel.py:316-317 | "data.XLSX" is its own output path, because the match is case-sensitive, so the source file is overwritten |
| `ExcelExport.OutputPathOfXlsxName` | mpl_bsic/style_excel.py:316-317 | a path whose only ".xlsx" is its ending becomes the same path with "_fmt" before ".xlsx" |
| `ExcelExport.StyleExcelFile` | mpl_bsic/style_excel.py:258-323 | the output path is OutputPath of the input path, and the new sheet holds the table laid out with its title and source row |
| `FigureSize.CheckFigsize` | mpl_bsic/check_figsize.py:1-56 | the warning is printed exactly when width > 7.32; the call fails exactly when both height and aspect ratio are missing; a returned width is always the input width |
| `FigureSize.GivenHeightWins` | mpl_bsic/check_figsize.py:50-56 | a given height is returned unchanged and the aspect ratio does not affect the result |
| `FigureSize.DerivedHeight` | mpl_bsic/check_figsize.py:54 | without a height, the height is width times aspect ratio, so height / width is the ratio |
| `FigureSize.WideFigureOnlyWarns` | mpl_bsic/check_figsize.py:35-56 | a width above 7.32 adds the warning and does not change whether the call fails; a given height is returned unchanged, and the width is returned as given, not clamped (a height derived from the aspect ratio follows the width, as `DerivedHeight` states) |
| `FigureSize.ResolvedSizeIsStable` | mpl_bsic/check_figsize.py:50-56 | checking a returned size again, with its height given, returns the same size |

## Left out

- Theme application, logo, title/subtitle, date-axis, figure export, trade
  plotting and DataFrame preprocessing. These are matplotlib and pandas effects
  that mean nothing without those libraries, so they are not part of this model.
- Workbook creation, `wb.add_format`, `wb.close` and the files written. The
  model returns the worksheet's state. In `style_excel_file`,
  `pd.read_excel` becomes a `Table` parameter, so `sheet_name` is not modelled.
- The `isinstance` checks on the workbook and worksheet. Here the types
  guarantee them.
- `set_default_row(15.5)` and `hide_gridlines(2)`: the sheet's default row
  height and gridlines are not part of the state modelled.
- The `print` calls: `check_figsize`'s warning text and "closing wb". The
  warning is a boolean output instead.
- Font, colour, alignment and wrapping keys of the format dictionaries. Each
  dictionary is a `Style` value, and only the border keys are kept.
- DataFrame cell values are `Blank`, `Text` or `Number`. Other Python types are
  not modelled. `Number` is an exact real, so there are no NaN or infinite
  values: for those (a NaN is what `pd.read_excel` gives an empty cell)
  xlsxwriter's `write_number` raises a TypeError, since neither workbook is
  created with `nan_inf_to_errors`. `DfToExcel` and `StyleExcelFile` then
  report a finished sheet where the program raises.
- Columns are read by position. The source reads each column by its label,
  `df[col_name]`, so a label that appears twice yields a two-dimensional
  array, and `ws.write` raises a TypeError on it when the table has rows.
  `Table.Valid` does not require distinct labels, and the model lays such a
  table out.
- Offsets are natural numbers. Negative offsets are not modelled, and neither is
  xlsxwriter's handling of out-of-range rows and columns.
- xlsxwriter's own merge behaviour. Merges are recorded as ranges: the value
  xlsxwriter writes into the first cell of a merged range, the blank cells it
  writes into the rest (which overwrite table cells the range covers, as the
  shared source row can), and its rejection of
  overlapping or single-cell ranges, are not modelled. So in the multi-table
  case where title merges overlap (`UniformTitlesOverlap`), the model goes on
  writing where xlsxwriter raises an error.
- Titles that are neither `None`, a string nor a list, and `None` items inside
  a list of titles. The signature allows neither.
- The `width is None` branch of `check_figsize`. It cannot run: the comparison
  `width > 7.32` before it fails on `None`. The model's width is always a real
  number.
- Floating point: sizes are exact reals, and the product `width * aspect_ratio`
  is not rounded.
