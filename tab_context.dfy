/**
 * The editor's sheet state and the transitions that edit it. Each React
 * updater maps the previous sheet to a new one; here each is a function from
 * the old sheet (or editing state) to the new one.
 */
module TabContext {
  import opened Wrappers
  import opened JsText
  import opened TabTypes

  /** Width of every row the editor itself creates. */
  const FixedCols: nat := 16

  const StandardTuning: seq<string> := ["E4", "B3", "G3", "D3", "A2", "E2"]

  /** The cursor every fresh or loaded project starts at. */
  const Origin: CursorPosition := CursorPosition(0, 0, 0)

  /** The editing session: the sheet and the cursor. */
  datatype EditorState = EditorState(sheet: TabSheet, cursor: CursorPosition)

  /** The fields `updateMetadata` is called with, each with the value it is given;
      a bpm arrives as the text of `value.toString()`. */
  datatype MetadataUpdate =
    | SetTitle(title: string)
    | SetArtist(artist: string)
    | SetBpm(text: string)
    | SetTimeSignature(timeSignature: int)

  // ---------------------------------------------------------------- invariants

  /** A cell the editor can produce: silence, or text parseInt reads as a fret 0..24. */
  predicate EditorCell(v: FretValue) {
    v == "" || (JsParseInt(v).Some? && 0 <= JsParseInt(v).value <= 24)
  }

  /** A sheet built only by the editor: well formed, rows of `FixedCols`, every cell an editor cell. */
  predicate EditorSheet(sheet: TabSheet) {
    && WellFormed(sheet)
    && (forall r :: 0 <= r < |sheet.rows| ==> RowShape(sheet.rows[r], FixedCols))
    && forall r, c, s ::
         0 <= r < |sheet.rows| && 0 <= c < |sheet.rows[r].columns| && 0 <= s < |sheet.rows[r].columns[c].notes|
         ==> EditorCell(sheet.rows[r].columns[c].notes[s])
  }

  /** The two sheets agree on everything but the rows. */
  predicate SameMetadata(a: TabSheet, b: TabSheet) {
    a.title == b.title && a.artist == b.artist && a.tuning == b.tuning
    && a.bpm == b.bpm && a.timeSignature == b.timeSignature
  }

  /** The two sheets have the same rows, columns and cells per column. */
  predicate SameShape(a: TabSheet, b: TabSheet) {
    && |a.rows| == |b.rows|
    && (forall r :: 0 <= r < |a.rows| ==> |a.rows[r].columns| == |b.rows[r].columns|)
    && forall r, c :: 0 <= r < |a.rows| && 0 <= c < |a.rows[r].columns| ==>
         |a.rows[r].columns[c].notes| == |b.rows[r].columns[c].notes|
         && a.rows[r].columns[c].bpm == b.rows[r].columns[c].bpm
  }

  // ---------------------------------------------------------------- construction

  /** createBlankRow: `FixedCols` blank columns. */
  function CreateBlankRow(): (row: TabRow)
    ensures RowShape(row, FixedCols)
    ensures forall c :: 0 <= c < FixedCols ==> row.columns[c] == BlankColumn()
  {
    TabRow(seq(FixedCols, _ => BlankColumn()))
  }

  /** DEFAULT_TAB. */
  function DefaultTab(): (sheet: TabSheet)
    ensures EditorSheet(sheet)
    ensures sheet.title == "New Tab" && sheet.artist == "Unknown Artist"
    ensures sheet.tuning == ["E4", "B3", "G3", "D3", "A2", "E2"]
    ensures sheet.bpm == 120 && sheet.timeSignature == 4
    ensures sheet.rows == [CreateBlankRow()]
  {
    TabSheet("New Tab", "Unknown Artist", StandardTuning, [CreateBlankRow()], 120, 4)
  }

  /** createNewProject: the default sheet with the cursor at the origin, whatever came before. */
  function CreateNewProject(state: EditorState): (next: EditorState)
    ensures next.sheet == DefaultTab() && next.cursor == Origin
    ensures EditorSheet(next.sheet) && CursorInSheet(next.sheet, next.cursor)
  {
    EditorState(DefaultTab(), Origin)
  }

  /** loadProject: `found` is what storage returned for the id (storage itself is not modelled). */
  function LoadProject(state: EditorState, found: Option<TabSheet>): (next: EditorState)
    ensures found.None? ==> next == state
    ensures found.Some? ==> next.sheet == found.value && next.cursor == Origin
  {
    match found
    case None => state
    case Some(project) => EditorState(project, Origin)
  }

  // ---------------------------------------------------------------- transitions

  /** addRow: one blank row of `FixedCols` columns appended; nothing else changes. */
  function AddRow(sheet: TabSheet): (next: TabSheet)
    ensures SameMetadata(sheet, next)
    ensures |next.rows| == |sheet.rows| + 1 && next.rows[..|sheet.rows|] == sheet.rows
    ensures RowShape(next.rows[|sheet.rows|], FixedCols)
    ensures forall c :: 0 <= c < FixedCols ==> next.rows[|sheet.rows|].columns[c] == BlankColumn()
    ensures WellFormed(sheet) ==> WellFormed(next)
    ensures EditorSheet(sheet) ==> EditorSheet(next)
  {
    var next := sheet.(rows := sheet.rows + [CreateBlankRow()]);
    assert next.rows[..|sheet.rows|] == sheet.rows;
    next
  }

  /**
   * The value `updateNote(value)` stores in a cell that holds `current`, or
   * None when it leaves the sheet unchanged. A numeric value typed onto a
   * one-character cell is first appended to it when parseInt of the pair is
   * at most 24; the result is then stored only if it is empty or parseInt
   * reads it as a fret between 0 and 24.
   */
  function EnteredValue(current: FretValue, value: string): (r: Option<FretValue>)
    ensures value == "" ==> r == Some("")
    ensures r.Some? ==> EditorCell(r.value)
    ensures r.Some? ==> r.value == value || r.value == current + value
  {
    var combined := current + value;
    var finalValue :=
      if value != "" && JsParseInt(value).Some? && |current| == 1
         && JsParseInt(combined).Some? && JsParseInt(combined).value <= 24
      then combined
      else value;
    if finalValue != ""
       && (JsParseInt(finalValue).None? || JsParseInt(finalValue).value < 0 || JsParseInt(finalValue).value > 24)
    then None
    else Some(finalValue)
  }

  /** The cell the cursor addresses. */
  function CellAt(sheet: TabSheet, cursor: CursorPosition): FretValue
    requires CursorInSheet(sheet, cursor)
  {
    sheet.rows[cursor.rowIndex].columns[cursor.columnIndex].notes[cursor.stringIndex]
  }

  /** The copy-on-write update of one cell, as the spread copies at the end of updateNote build it. */
  function SetCell(sheet: TabSheet, cursor: CursorPosition, v: FretValue): TabSheet
    requires CursorInSheet(sheet, cursor)
  {
    var row := sheet.rows[cursor.rowIndex];
    var col := row.columns[cursor.columnIndex];
    var newCol := col.(notes := col.notes[cursor.stringIndex := v]);
    var newRow := row.(columns := row.columns[cursor.columnIndex := newCol]);
    sheet.(rows := sheet.rows[cursor.rowIndex := newRow])
  }

  /**
   * updateNote(value) at `cursor`. The source reads the cell without a range
   * check, so the cursor must address an existing cell. Only that cell can
   * change, and it changes to what EnteredValue accepts.
   */
  function UpdateNote(sheet: TabSheet, cursor: CursorPosition, value: string): (next: TabSheet)
    requires CursorInSheet(sheet, cursor)
    ensures SameMetadata(sheet, next) && SameShape(sheet, next)
    ensures CursorInSheet(next, cursor)
    ensures CellAt(next, cursor) ==
      match EnteredValue(CellAt(sheet, cursor), value)
      case Some(v) => v
      case None => CellAt(sheet, cursor)
    ensures forall r, c, s ::
              0 <= r < |sheet.rows| && 0 <= c < |sheet.rows[r].columns| && 0 <= s < |sheet.rows[r].columns[c].notes|
              && (r != cursor.rowIndex || c != cursor.columnIndex || s != cursor.stringIndex)
              ==> next.rows[r].columns[c].notes[s] == sheet.rows[r].columns[c].notes[s]
    ensures WellFormed(sheet) ==> WellFormed(next)
    ensures EditorSheet(sheet) ==> EditorSheet(next)
  {
    match EnteredValue(CellAt(sheet, cursor), value)
    case None => sheet
    case Some(v) => SetCell(sheet, cursor, v)
  }

  /** updateTuning(i, n): entry i replaced wholesale by the upper-cased n. The source
      would grow the array past its end; callers pass an existing index. */
  function UpdateTuning(sheet: TabSheet, stringIndex: nat, newNote: string): (next: TabSheet)
    requires stringIndex < |sheet.tuning|
    ensures next.rows == sheet.rows && next.title == sheet.title && next.artist == sheet.artist
    ensures next.bpm == sheet.bpm && next.timeSignature == sheet.timeSignature
    ensures |next.tuning| == |sheet.tuning|
    ensures |next.tuning[stringIndex]| == |newNote|
    ensures forall k :: 0 <= k < |newNote| ==> !IsAsciiLower(next.tuning[stringIndex][k])
    ensures next.tuning[stringIndex] == ToUpper(newNote)
    ensures forall i :: 0 <= i < |sheet.tuning| && i != stringIndex ==> next.tuning[i] == sheet.tuning[i]
    ensures EditorSheet(sheet) ==> EditorSheet(next)
  {
    sheet.(tuning := sheet.tuning[stringIndex := ToUpper(newNote)])
  }

  /** The regular expression /^0+/ replaced by nothing. */
  function StripLeadingZeros(s: string): (r: string)
    ensures r == [] || r[0] != '0'
    ensures |r| <= |s| && r == s[|s| - |r|..]
    ensures forall i :: 0 <= i < |s| - |r| ==> s[i] == '0'
  {
    if |s| > 0 && s[0] == '0' then StripLeadingZeros(s[1..]) else s
  }

  /** The bpm `updateMetadata('bpm', v)` stores for the text of v: leading zeros
      stripped, NaN becomes 0, anything above 400 becomes 400. */
  function SanitizeBpm(text: string): int {
    var parsed := JsParseInt(StripLeadingZeros(text));
    var v := if parsed.None? then 0 else parsed.value;
    if v > 400 then 400 else v
  }

  /** updateMetadata(field, value): one field replaced, bpm after sanitising, the rest unchanged. */
  function UpdateMetadata(sheet: TabSheet, update: MetadataUpdate): (next: TabSheet)
    ensures next.rows == sheet.rows && next.tuning == sheet.tuning
    ensures next.title == (if update.SetTitle? then update.title else sheet.title)
    ensures next.artist == (if update.SetArtist? then update.artist else sheet.artist)
    ensures next.bpm == (if update.SetBpm? then SanitizeBpm(update.text) else sheet.bpm)
    ensures next.timeSignature == (if update.SetTimeSignature? then update.timeSignature else sheet.timeSignature)
    ensures update.SetBpm? ==> next.bpm <= 400
    ensures EditorSheet(sheet) ==> EditorSheet(next)
  {
    var next := (
      match update
      case SetTitle(t) => sheet.(title := t)
      case SetArtist(a) => sheet.(artist := a)
      case SetBpm(text) => sheet.(bpm := SanitizeBpm(text))
      case SetTimeSignature(ts) => sheet.(timeSignature := ts));
    SameShapeEditor(sheet, next);
    next
  }

  /** Editor sheets are a matter of the rows and the tuning alone. */
  lemma SameShapeEditor(a: TabSheet, b: TabSheet)
    requires a.rows == b.rows && a.tuning == b.tuning
    ensures EditorSheet(a) ==> EditorSheet(b)
  {
  }

  // ---------------------------------------------------------------- properties

  /** Typing a second digit: "1" then "2" gives "12", "2" then "5" gives "5". */
  lemma TwoDigitEntry(c: char, d: char)
    requires IsDigit(c) && IsDigit(d)
    ensures var pair := 10 * DigitValue(c) + DigitValue(d);
      EnteredValue([c], [d]) == Some(if pair <= 24 then [c, d] else [d])
  {
    OneDigitParse(d);
    TwoDigitParse(c, d);
    assert [c] + [d] == [c, d];
  }

  lemma OneDigitParse(d: char)
    requires IsDigit(d)
    ensures JsParseInt([d]) == Some(DigitValue(d))
  {
    ParseIntOfDigitPrefix([d], 1);
    assert [d][..1] == [d];
    assert [d][..0] == [];
  }

  lemma TwoDigitParse(c: char, d: char)
    requires IsDigit(c) && IsDigit(d)
    ensures JsParseInt([c, d]) == Some(10 * DigitValue(c) + DigitValue(d))
  {
    ParseIntOfDigitPrefix([c, d], 2);
    assert [c, d][..2] == [c, d] && [c, d][..1] == [c];
    assert [c][..0] == [];
    assert DigitsValue([c]) == DigitValue(c);
    assert DigitsValue([c, d]) == 10 * DigitsValue([c]) + DigitValue(d);
  }

  /** A digit typed on an empty cell is stored as it is. */
  lemma DigitOnEmptyCell(d: char)
    requires IsDigit(d)
    ensures EnteredValue("", [d]) == Some([d])
  {
    ParseIntOfDigitPrefix([d], 1);
    assert [d][..1] == [d] && [d][..0] == [];
  }

  /** Text that parseInt cannot read (technique letters such as "h" or "x") leaves the cell alone. */
  lemma NonNumericRejected(current: FretValue, value: string)
    requires |value| > 0 && !IsSpace(value[0]) && !IsDigit(value[0]) && value[0] != '-' && value[0] != '+'
    ensures EnteredValue(current, value) == None
  {
    ParseIntNaN(value);
  }

  /** A number's decimal text is sanitised to that number, capped at 400; a negative number
      is kept, as nothing enforces a lower bound. */
  lemma SanitizeBpmOfNumber(n: int)
    ensures SanitizeBpm(IntToString(n)) == if n > 400 then 400 else n
  {
    if n < 0 {
      SanitizeBpmOfNegative(n);
    } else {
      SanitizeBpmOfNat(n);
    }
  }

  /** A minus sign is no zero, so the text of a negative number is parsed as it stands. */
  lemma SanitizeBpmOfNegative(n: int)
    requires n < 0
    ensures SanitizeBpm(IntToString(n)) == n
  {
    var s := IntToString(n);
    assert s[0] == '-';
    assert StripLeadingZeros(s) == s;
    ParseIntOfIntString(n);
  }

  /** The text of a natural number loses no digit but a lone zero, which reads as 0 anyway. */
  lemma SanitizeBpmOfNat(n: nat)
    ensures SanitizeBpm(NatToString(n)) == if n > 400 then 400 else n
  {
    var s := NatToString(n);
    if n == 0 {
      assert s == [DigitChar(0)];
      assert StripLeadingZeros(s) == StripLeadingZeros([]);
    } else {
      if |s| == 1 {
        assert s[0] != '0' by {
          assert DigitsValue(s) == 10 * DigitsValue(s[..0]) + DigitValue(s[0]);
        }
      }
      assert StripLeadingZeros(s) == s;
      ParseIntOfNatString(n);
    }
  }

  /** Text with no number after its leading zeros sets the bpm to 0: the empty text left by
      backspacing, letters, a lone sign. */
  lemma SanitizeBpmNonNumeric(text: string)
    requires NoLeadingNumber(StripLeadingZeros(text))
    ensures SanitizeBpm(text) == 0
  {
    ParseIntNoNumber(StripLeadingZeros(text));
  }

  /** Backspacing everything, zero-led letters and a zero-led sign all give 0. */
  lemma SanitizeBpmCleared()
    ensures SanitizeBpm("") == 0 && SanitizeBpm("0abc") == 0 && SanitizeBpm("0-") == 0
  {
    NoNumberAfterZero("0abc", "abc");
    NoNumberAfterZero("0-", "-");
    SanitizeBpmNonNumeric("");
  }

  /** A zero, then text that opens with a letter or a lone sign. */
  lemma NoNumberAfterZero(text: string, rest: string)
    requires text == "0" + rest && |rest| > 0 && !IsSpace(rest[0]) && !IsDigit(rest[0])
    requires (rest[0] == '-' || rest[0] == '+') ==> |rest| == 1
    ensures SanitizeBpm(text) == 0
  {
    assert StripLeadingZeros(text) == StripLeadingZeros(rest) == rest;
    RunEndUnique(rest, 0, IsSpace, 0);
    assert rest[0..] == rest;
    SanitizeBpmNonNumeric(text);
  }

  /** updateTuning upper-cases the name it stores. */
  lemma UpperCasedTuning(sheet: TabSheet)
    requires |sheet.tuning| == StringCount
    ensures UpdateTuning(sheet, 0, "e4").tuning[0] == "E4"
  {
    assert ToUpper("e4") == "E4";
  }
}
