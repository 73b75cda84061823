/**
 * The tab data model: a sheet holds rows of columns, a column holds one cell
 * per string, and a cursor addresses one cell.
 */
module TabTypes {
  import opened Wrappers

  /** Strings on the instrument; every column holds one cell per string. */
  const StringCount: nat := 6

  /** One cell: "" is silence, otherwise a fret number or technique text (h, p, /, x, ...). */
  type FretValue = string

  /**
   * A vertical slice of the staff. `notes[0]` is high E (string 1) and
   * `notes[5]` low E (string 6). `bpm` is the optional per-column tempo that
   * the exporter writes and the importer reads; None stands for `undefined`.
   * The column's UUID is not modelled.
   */
  datatype TabColumn = TabColumn(notes: seq<FretValue>, bpm: Option<int>)

  /** A horizontal staff: a fixed-length sequence of columns (16 or 32, set by whoever builds it). */
  datatype TabRow = TabRow(columns: seq<TabColumn>)

  /** The document: metadata, one tuning entry per string (same index order as `notes`), and the rows. */
  datatype TabSheet = TabSheet(
    title: string,
    artist: string,
    tuning: seq<string>,
    rows: seq<TabRow>,
    bpm: int,
    timeSignature: int)

  /** The editor's focus: which staff, which column, which string. */
  datatype CursorPosition = CursorPosition(rowIndex: nat, columnIndex: nat, stringIndex: nat)

  /** A column with six empty cells and no tempo marker. */
  function BlankColumn(): (col: TabColumn)
    ensures |col.notes| == StringCount && col.bpm.None?
    ensures forall s :: 0 <= s < |col.notes| ==> col.notes[s] == ""
  {
    TabColumn(seq(StringCount, _ => ""), None)
  }

  /** A row of `width` columns, each with one cell per string. */
  predicate RowShape(row: TabRow, width: nat) {
    |row.columns| == width && forall c :: 0 <= c < width ==> |row.columns[c].notes| == StringCount
  }

  /** The shape the type promises: one tuning entry per string and one cell per string in every column. */
  predicate WellFormed(sheet: TabSheet) {
    && |sheet.tuning| == StringCount
    && forall r, c :: 0 <= r < |sheet.rows| && 0 <= c < |sheet.rows[r].columns| ==>
         |sheet.rows[r].columns[c].notes| == StringCount
  }

  /** The cursor addresses an existing cell of the sheet. */
  predicate CursorInSheet(sheet: TabSheet, cursor: CursorPosition) {
    && cursor.rowIndex < |sheet.rows|
    && cursor.columnIndex < |sheet.rows[cursor.rowIndex].columns|
    && cursor.stringIndex < |sheet.rows[cursor.rowIndex].columns[cursor.columnIndex].notes|
  }
}
