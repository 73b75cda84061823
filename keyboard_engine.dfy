/**
 * The keyboard engine's decision: from a key press, the cursor, the number of
 * rows and the shortcut map, what the editor is asked to do. Navigation keeps
 * the cursor inside rows x 32 columns x 6 strings; editing keys become
 * `updateNote` calls; Ctrl and Alt combinations become commands.
 */
module KeyboardEngine {
  import opened JsText
  import opened TabTypes
  import Shortcuts
  import TabContext

  /** The last column navigation allows. */
  const LastColumn: nat := 31

  /** The last string index. */
  const LastString: nat := 5

  /** A keydown event: the key as reported, the modifiers, and what element has focus. */
  datatype KeyEvent = KeyEvent(
    key: string,
    altKey: bool,
    ctrlKey: bool,
    metaKey: bool,
    shiftKey: bool,
    targetIsInput: bool,
    targetIsGridCell: bool)

  datatype ShiftDirection = ShiftLeft | ShiftRight

  /** What a key press asks of the editor. Undo, redo and shiftNotes are requested by name only:
      the sheet state does not provide them. */
  datatype Effect =
    | NoEffect
    | MoveCursor(cursor: CursorPosition)
    | UpdateNote(value: string)
    | ShiftNotes(direction: ShiftDirection)
    | SaveManual
    | AddRow
    | Undo
    | Redo

  function Max(a: int, b: int): int { if a >= b then a else b }

  function Min(a: int, b: int): int { if a <= b then a else b }

  /** v limited to the range 0..hi (hi >= 0): below 0 gives 0, above hi gives hi. */
  function Clamp(v: int, hi: nat): (r: nat)
    ensures r <= hi
    ensures 0 <= v <= hi ==> r == v
    ensures v < 0 ==> r == 0
    ensures v > hi ==> r == hi
  {
    Max(0, Min(hi, v))
  }

  /** A single articulation character (hammer-on, pull-off, slide, bend, vibrato, mute, dead
      note or accent), tested on the lower-cased key. */
  predicate IsArticulationKey(k: string) {
    |k| == 1 && (k[0] == 'h' || k[0] == 'p' || k[0] == 's' || k[0] == '/' || k[0] == '~' || k[0] == 'm'
                 || k[0] == 'x' || k[0] == '*')
  }

  /** The action a key is bound to selects a string. */
  predicate SelectsString(shortcuts: Shortcuts.ShortcutMap, key: string) {
    key in shortcuts
    && (shortcuts[key].SelectString1? || shortcuts[key].SelectString2? || shortcuts[key].SelectString3?
        || shortcuts[key].SelectString4? || shortcuts[key].SelectString5? || shortcuts[key].SelectString6?)
  }

  /** The bounds navigation keeps: an existing row, columns 0..31, strings 0..5. */
  predicate InBounds(cursor: CursorPosition, rowCount: nat) {
    cursor.rowIndex < rowCount && cursor.columnIndex <= LastColumn && cursor.stringIndex <= LastString
  }

  /** Alt+Up/Down moves between rows, clamped to the existing ones. */
  function AltRowMove(cursor: CursorPosition, rowCount: nat, down: bool): (next: CursorPosition)
    ensures next.columnIndex == cursor.columnIndex && next.stringIndex == cursor.stringIndex
    ensures rowCount > 0 ==> next.rowIndex < rowCount
    ensures rowCount > 0 && down ==> next.rowIndex == Min(rowCount - 1, cursor.rowIndex + 1)
    ensures !down && cursor.rowIndex < rowCount ==> next.rowIndex == Max(0, cursor.rowIndex - 1)
  {
    var direction := if down then 1 else -1;
    var newRow := Max(0, Min(rowCount - 1, cursor.rowIndex + direction));
    cursor.(rowIndex := newRow)
  }

  /** Plain arrows: up and down step the string within 0..5, left and right the column
      within 0..31. */
  function ArrowMove(cursor: CursorPosition, key: string): (next: CursorPosition)
    ensures next.rowIndex == cursor.rowIndex
    ensures key == "arrowup" ==> next == cursor.(stringIndex := Max(0, cursor.stringIndex - 1))
    ensures key == "arrowdown" ==> next == cursor.(stringIndex := Min(LastString, cursor.stringIndex + 1))
    ensures key == "arrowleft" ==> next == cursor.(columnIndex := Max(0, cursor.columnIndex - 1))
    ensures key == "arrowright" ==> next == cursor.(columnIndex := Min(LastColumn, cursor.columnIndex + 1))
    ensures key !in {"arrowup", "arrowdown", "arrowleft", "arrowright"} ==> next == cursor
  {
    var stringIndex :=
      if key == "arrowup" then Max(0, cursor.stringIndex - 1)
      else if key == "arrowdown" then Min(LastString, cursor.stringIndex + 1)
      else cursor.stringIndex;
    var columnIndex :=
      if key == "arrowleft" then Max(0, cursor.columnIndex - 1)
      else if key == "arrowright" then Min(LastColumn, cursor.columnIndex + 1)
      else cursor.columnIndex;
    CursorPosition(cursor.rowIndex, columnIndex, stringIndex)
  }

  /** Enter: the next column, or column 0 of the next row from the last column; on the last
      row's last column nothing moves. */
  function EnterMove(cursor: CursorPosition, rowCount: nat): (next: Effect)
    ensures cursor.columnIndex != LastColumn ==> next == MoveCursor(cursor.(columnIndex := cursor.columnIndex + 1))
    ensures cursor.columnIndex == LastColumn && cursor.rowIndex + 1 < rowCount ==>
              next == MoveCursor(CursorPosition(cursor.rowIndex + 1, 0, cursor.stringIndex))
    ensures cursor.columnIndex == LastColumn && cursor.rowIndex + 1 >= rowCount ==> next == NoEffect
  {
    if cursor.columnIndex == LastColumn then
      if cursor.rowIndex < rowCount - 1 then MoveCursor(CursorPosition(cursor.rowIndex + 1, 0, cursor.stringIndex))
      else NoEffect
    else MoveCursor(cursor.(columnIndex := cursor.columnIndex + 1))
  }

  /**
   * handleKeyDown's decision. Keys typed into a form field other than a grid
   * cell are ignored; Alt combinations never edit a cell; every cursor it asks
   * for stays in bounds when the cursor it starts from is.
   */
  function HandleKeyDown(ev: KeyEvent, cursor: CursorPosition, rowCount: nat, shortcuts: Shortcuts.ShortcutMap): (effect: Effect)
    ensures ev.targetIsInput && !ev.targetIsGridCell ==> effect == NoEffect
    ensures ev.altKey ==> !effect.UpdateNote? && !effect.SaveManual? && !effect.AddRow?
    ensures InBounds(cursor, rowCount) && effect.MoveCursor? ==> InBounds(effect.cursor, rowCount)
    ensures effect.UpdateNote? ==> effect.value == "" || IsArticulationKey(effect.value) || Shortcuts.IsDigitKey(effect.value)
  {
    if ev.targetIsInput && !ev.targetIsGridCell then NoEffect
    else
      var key := ToLower(ev.key);
      if ev.altKey then
        if key == "arrowup" || key == "arrowdown" then MoveCursor(AltRowMove(cursor, rowCount, key == "arrowdown"))
        else if key == "arrowright" then ShiftNotes(ShiftRight)
        else if key == "arrowleft" then ShiftNotes(ShiftLeft)
        else NoEffect
      else if (ev.ctrlKey || ev.metaKey) && key == "s" then SaveManual
      else if (ev.ctrlKey || ev.metaKey) && key == "n" then AddRow
      else if (ev.ctrlKey || ev.metaKey) && key == "z" then (if ev.shiftKey then Redo else Undo)
      else if (ev.ctrlKey || ev.metaKey) && key == "y" then Redo
      else if key == "backspace" || key == "delete" then UpdateNote("")
      else if SelectsString(shortcuts, key) then
        MoveCursor(cursor.(stringIndex := Shortcuts.SelectedString(shortcuts[key])))
      else if ev.shiftKey && (key == "arrowleft" || key == "arrowright") then
        var direction := if key == "arrowright" then 1 else -1;
        MoveCursor(cursor.(columnIndex := Clamp(cursor.columnIndex + direction * 4, LastColumn)))
      else if StartsWith(key, "arrow") then MoveCursor(ArrowMove(cursor, key))
      else if key == "enter" then EnterMove(cursor, rowCount)
      else if IsArticulationKey(key) then UpdateNote(key)
      else if Shortcuts.IsDigitKey(key) then UpdateNote(key)
      else NoEffect
  }

  /** A press no modifier, shortcut or form field interferes with. */
  predicate PlainPress(ev: KeyEvent, shortcuts: Shortcuts.ShortcutMap) {
    !ev.altKey && !ev.ctrlKey && !ev.metaKey && !ev.shiftKey && !(ev.targetIsInput && !ev.targetIsGridCell)
    && !SelectsString(shortcuts, ToLower(ev.key))
  }

  /** Plain arrows move one step, clamped, and never change the row. */
  lemma PlainArrows(ev: KeyEvent, cursor: CursorPosition, rowCount: nat, shortcuts: Shortcuts.ShortcutMap)
    requires PlainPress(ev, shortcuts) && ToLower(ev.key) in {"arrowup", "arrowdown", "arrowleft", "arrowright"}
    ensures HandleKeyDown(ev, cursor, rowCount, shortcuts) == MoveCursor(ArrowMove(cursor, ToLower(ev.key)))
  {
    var key := ToLower(ev.key);
    assert StartsWith(key, "arrow") by {
      assert key[..5] == "arrow";
    }
  }

  /** Shift+Left/Right jumps four columns, clamped to 0..31. */
  lemma ShiftJump(ev: KeyEvent, cursor: CursorPosition, rowCount: nat, shortcuts: Shortcuts.ShortcutMap)
    requires !ev.altKey && !ev.ctrlKey && !ev.metaKey && ev.shiftKey && !(ev.targetIsInput && !ev.targetIsGridCell)
    requires !SelectsString(shortcuts, ToLower(ev.key)) && ToLower(ev.key) in {"arrowleft", "arrowright"}
    ensures var next := HandleKeyDown(ev, cursor, rowCount, shortcuts);
            && next.MoveCursor?
            && next.cursor.rowIndex == cursor.rowIndex && next.cursor.stringIndex == cursor.stringIndex
            && (ToLower(ev.key) == "arrowright" ==> next.cursor.columnIndex == Min(LastColumn, cursor.columnIndex + 4))
            && (ToLower(ev.key) == "arrowleft" ==> next.cursor.columnIndex == Max(0, Min(LastColumn, cursor.columnIndex - 4)))
  {
  }

  /** A key bound to SELECT_STRING_n selects string n - 1 and keeps row and column. */
  lemma SelectStringKey(ev: KeyEvent, cursor: CursorPosition, rowCount: nat, shortcuts: Shortcuts.ShortcutMap)
    requires !ev.altKey && !(ev.targetIsInput && !ev.targetIsGridCell)
    requires !((ev.ctrlKey || ev.metaKey) && ToLower(ev.key) in {"s", "n", "z", "y"})
    requires ToLower(ev.key) !in {"backspace", "delete"} && SelectsString(shortcuts, ToLower(ev.key))
    ensures HandleKeyDown(ev, cursor, rowCount, shortcuts)
         == MoveCursor(cursor.(stringIndex := Shortcuts.SelectedString(shortcuts[ToLower(ev.key)])))
  {
  }

  /** A digit key enters that digit and Backspace/Delete clear the cell. */
  lemma EditingKeys(ev: KeyEvent, cursor: CursorPosition, rowCount: nat, shortcuts: Shortcuts.ShortcutMap)
    requires PlainPress(ev, shortcuts)
    ensures ToLower(ev.key) in {"backspace", "delete"} ==> HandleKeyDown(ev, cursor, rowCount, shortcuts) == UpdateNote("")
    ensures Shortcuts.IsDigitKey(ToLower(ev.key)) ==> HandleKeyDown(ev, cursor, rowCount, shortcuts) == UpdateNote(ToLower(ev.key))
  {
  }

  /**
   * Navigation allows columns up to 31 while the editor's own rows have 16
   * columns: from the last column of the default sheet, ArrowRight leaves the
   * row.
   */
  lemma ColumnBoundMismatch()
    ensures var sheet := TabContext.DefaultTab();
            var ev := KeyEvent("ArrowRight", false, false, false, false, false, false);
            var start := CursorPosition(0, TabContext.FixedCols - 1, 0);
            var next := HandleKeyDown(ev, start, |sheet.rows|, Shortcuts.DefaultShortcuts);
            && CursorInSheet(sheet, start)
            && next == MoveCursor(CursorPosition(0, TabContext.FixedCols, 0))
            && InBounds(next.cursor, |sheet.rows|)
            && !CursorInSheet(sheet, next.cursor)
  {
    var key := ToLower("ArrowRight");
    assert key == "arrowright";
    assert StartsWith(key, "arrow") by {
      assert key[..5] == "arrow";
    }
  }
}
