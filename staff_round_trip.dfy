/**
 * One staff exported and read back. The importer takes the tempo marker from
 * the line above the first string line and the notes from between the bars
 * of each string line, and places both in 32 slots by character position.
 * For a row that fits in two measures, holds plain cells and at most one
 * marker, every note and the marker come back in their own column.
 */
module StaffRoundTrip {
  import opened Wrappers
  import opened JsText
  import opened TabTypes
  import opened AsciiExport
  import opened AsciiImport
  import opened ImportFacts
  import opened ExportFacts

  // ---------------------------------------------------------------- what comes back

  /** Slot c of the imported staff: the exported column, its tempo kept only when it is
      truthy, or a blank column past the end of the row. */
  function ExpectedColumn(cols: seq<TabColumn>, c: nat): TabColumn {
    if c < |cols| then TabColumn(cols[c].notes, if HasMarker(cols[c]) then cols[c].bpm else None)
    else BlankColumn()
  }

  /** The staff the importer rebuilds from an exported row: always 32 slots. */
  function ExpectedRow(row: TabRow): TabRow {
    TabRow(seq(SlotCount, c requires 0 <= c < SlotCount => ExpectedColumn(row.columns, c)))
  }

  // ---------------------------------------------------------------- the notes of one string

  /** The cells of string s, column by column. */
  function StringNotes(cols: seq<TabColumn>, s: nat): (notes: seq<FretValue>)
    requires HasString(cols, s)
    ensures |notes| == |cols| && forall c :: 0 <= c < |cols| ==> notes[c] == cols[c].notes[s]
  {
    seq(|cols|, c requires 0 <= c < |cols| => cols[c].notes[s])
  }

  /** Where the note of column c starts among the cells of its string: three characters per
      column, and one more from the bar column k on, for the bar in front of it. */
  function NoteStart(c: nat, k: nat): nat {
    3 * c + (if c >= k then 1 else 0)
  }

  /** The note units the first n cells hold, in order: one per non-empty cell. */
  function ExpectedUnits(notes: seq<FretValue>, k: nat, n: nat): seq<NoteUnit>
    requires n <= |notes|
  {
    if n == 0 then []
    else ExpectedUnits(notes, k, n - 1) + (if notes[n - 1] == "" then [] else [NoteUnit(NoteStart(n - 1, k), notes[n - 1])])
  }

  /** A note's start goes back to its column. */
  lemma NoteStartSlot(c: nat, k: nat)
    ensures RoundThird(NoteStart(c, k)) == c
  {
    RoundThirdOfCell(c, if c >= k then 1 else 0);
  }

  /** Shifting the units of one cell. */
  lemma ShiftCell(us: seq<NoteUnit>, note: string, d: nat, at: nat)
    requires us == if note == "" then [] else [NoteUnit(d, note)]
    ensures Shift(us, at) == if note == "" then [] else [NoteUnit(at + d, note)]
  {
    if note != "" {
      assert us[1..] == [];
    }
  }

  /** Cells so far that end in a dash, then one more cell holding at most one unit: that unit
      comes after theirs, moved by their length. */
  lemma AppendCellUnits(a: string, b: string, note: string, d: nat)
    requires LineText(a) && (|a| > 0 ==> a[|a| - 1] == '-') && LineText(b)
    requires Units(b, 0) == if note == "" then [] else [NoteUnit(d, note)]
    ensures Units(a + b, 0) == Units(a, 0) + (if note == "" then [] else [NoteUnit(|a| + d, note)])
  {
    UnitsAppend(a, b, 0);
    UnitsShift(a, b, 0);
    ShiftCell(Units(b, 0), note, d, |a|);
  }

  /** Cell texts as the exporter writes them for the given notes, with the bar in front of
      column k: three characters, one more at k, no '<', a closing dash, at most the one unit. */
  predicate CellParts(parts: seq<string>, notes: seq<FretValue>, k: nat) {
    && |parts| == |notes|
    && forall c :: 0 <= c < |parts| ==>
         && |parts[c]| == 3 + (if c == k then 1 else 0)
         && LineText(parts[c]) && parts[c][|parts[c]| - 1] == '-'
         && Units(parts[c], 0) == if notes[c] == "" then [] else [NoteUnit(if c == k then 1 else 0, notes[c])]
  }

  /** One more cell: the units so far, then the new cell's note where that cell starts. */
  lemma JoinedUnitsStep(parts: seq<string>, notes: seq<FretValue>, k: nat, n: nat)
    requires CellParts(parts, notes, k) && 0 < n <= |parts|
    ensures Units(Joined(parts, n), 0)
         == Units(Joined(parts, n - 1), 0) + (if notes[n - 1] == "" then [] else [NoteUnit(NoteStart(n - 1, k), notes[n - 1])])
  {
    var a := Joined(parts, n - 1);
    var b := parts[n - 1];
    var d := if n - 1 == k then 1 else 0;
    assert Joined(parts, n) == a + b;
    JoinedLength(parts, n - 1, k);
    JoinedLineText(parts, n - 1);
    if n - 1 > 0 {
      JoinedLast(parts, n - 1);
    }
    assert |a| + d == NoteStart(n - 1, k);
    assert LineText(b) && Units(b, 0) == if notes[n - 1] == "" then [] else [NoteUnit(d, notes[n - 1])];
    AppendCellUnits(a, b, notes[n - 1], d);
  }

  /** The units of the joined cells are the expected ones. */
  lemma {:induction false} JoinedUnits(parts: seq<string>, notes: seq<FretValue>, k: nat, n: nat)
    requires CellParts(parts, notes, k) && n <= |parts|
    ensures Units(Joined(parts, n), 0) == ExpectedUnits(notes, k, n)
  {
    if n > 0 {
      JoinedUnits(parts, notes, k, n - 1);
      JoinedUnitsStep(parts, notes, k, n);
    }
  }

  /** The cell texts of a plain string are cell parts for its notes, the bar in front of
      column 4 * timeSignature. */
  lemma CellTextsAreParts(cols: seq<TabColumn>, s: nat, ts: int)
    requires ts >= 1 && |cols| <= 8 * ts && StringPlain(cols, s)
    ensures CellParts(CellTexts(cols, s, ts), StringNotes(cols, s), 4 * ts)
  {
    var parts := CellTexts(cols, s, ts);
    forall c | 0 <= c < |cols|
      ensures |parts[c]| == 3 + (if c == 4 * ts then 1 else 0)
      ensures LineText(parts[c]) && parts[c][|parts[c]| - 1] == '-'
      ensures Units(parts[c], 0) == if cols[c].notes[s] == "" then [] else [NoteUnit(if c == 4 * ts then 1 else 0, cols[c].notes[s])]
    {
      CellShape(cols[c].notes[s], c, ts);
      CellUnits(cols[c].notes[s], c, ts);
    }
  }

  /** The note units between the bars of a string line are one per non-empty cell, each
      where its cell starts. */
  lemma ContentUnits(cols: seq<TabColumn>, s: nat, ts: int)
    requires ts >= 1 && |cols| <= 8 * ts && StringPlain(cols, s)
    ensures Units(ContentUpTo(cols, s, ts, |cols|), 0) == ExpectedUnits(StringNotes(cols, s), 4 * ts, |cols|)
  {
    CellTextsAreParts(cols, s, ts);
    JoinedUnits(CellTexts(cols, s, ts), StringNotes(cols, s), 4 * ts, |cols|);
  }

  /** String s of the slots holds each non-empty one of the first n notes in its own slot,
      and what it held before everywhere else. */
  predicate StringFilled(out: seq<TabColumn>, slots: seq<TabColumn>, notes: seq<FretValue>, s: nat, n: nat)
    requires SlotsShape(out) && SlotsShape(slots) && s < StringCount && n <= |notes|
  {
    forall c :: 0 <= c < SlotCount ==>
      out[c].notes[s] == if c < n && notes[c] != "" then notes[c] else slots[c].notes[s]
  }

  /** Placing the expected units of string s puts every note in its own column's slot. */
  lemma {:induction false} PlaceExpected(slots: seq<TabColumn>, notes: seq<FretValue>, s: nat, k: nat, n: nat)
    requires SlotsShape(slots) && s < StringCount && n <= |notes| <= SlotCount
    ensures StringFilled(PlaceUnits(slots, s, ExpectedUnits(notes, k, n)), slots, notes, s, n)
  {
    if n > 0 {
      var note := notes[n - 1];
      var us := ExpectedUnits(notes, k, n - 1);
      var tail := if note == "" then [] else [NoteUnit(NoteStart(n - 1, k), note)];
      var before := PlaceUnits(slots, s, us);
      PlaceExpected(slots, notes, s, k, n - 1);
      PlaceUnitsAppend(slots, s, us, tail);
      var out := PlaceUnits(slots, s, us + tail);
      if note == "" {
        assert us + tail == us;
        FillStep(before, out, slots, notes, s, n);
      } else {
        PlaceOneUnit(before, s, tail[0]);
        NoteStartSlot(n - 1, k);
        assert out == SetSlotNote(before, n - 1, s, note);
        FillStep(before, out, slots, notes, s, n);
      }
    }
  }

  /** Setting the cell of column n - 1, unless its note is empty, fills one more column. */
  lemma FillStep(before: seq<TabColumn>, out: seq<TabColumn>, slots: seq<TabColumn>, notes: seq<FretValue>, s: nat, n: nat)
    requires SlotsShape(before) && SlotsShape(slots) && s < StringCount
    requires 0 < n <= |notes| <= SlotCount
    requires StringFilled(before, slots, notes, s, n - 1)
    requires out == if notes[n - 1] == "" then before else SetSlotNote(before, n - 1, s, notes[n - 1])
    ensures SlotsShape(out) && StringFilled(out, slots, notes, s, n)
  {
  }

  // ---------------------------------------------------------------- the six strings

  /** The slots after the marker pass: no cell set, and the tempo of each slot as it comes back. */
  predicate Marked(slots: seq<TabColumn>, cols: seq<TabColumn>) {
    && SlotsShape(slots)
    && forall c :: 0 <= c < SlotCount ==>
         slots[c].bpm == ExpectedColumn(cols, c).bpm
         && forall t :: 0 <= t < StringCount ==> slots[c].notes[t] == ""
  }

  /** The strings 0..k-1 are read back into the marked slots. */
  predicate StringsRead(out: seq<TabColumn>, cols: seq<TabColumn>, k: nat)
    requires forall c :: 0 <= c < |cols| ==> |cols[c].notes| == StringCount
  {
    && SlotsShape(out)
    && forall c :: 0 <= c < SlotCount ==>
         && out[c].bpm == ExpectedColumn(cols, c).bpm
         && forall t :: 0 <= t < StringCount ==>
              out[c].notes[t] == if t < k && c < |cols| then cols[c].notes[t] else ""
  }

  /** Scanning string lines whose layers are the cells of a row reads the row's notes back. */
  lemma {:induction false} ScanExpected(staffLines: seq<string>, cols: seq<TabColumn>, ts: int, k: nat, marked: seq<TabColumn>)
    requires |staffLines| == StringCount && k <= StringCount && RowShape(TabRow(cols), |cols|)
    requires ts >= 1 && |cols| <= SlotCount && |cols| <= 8 * ts
    requires forall t :: 0 <= t < StringCount ==> StringPlain(cols, t)
    requires forall t :: 0 <= t < StringCount ==> Layer(staffLines[t]) == ContentUpTo(cols, t, ts, |cols|)
    requires Marked(marked, cols)
    ensures StringsRead(ScanStrings(staffLines, k, marked), cols, k)
  {
    if k > 0 {
      var t := k - 1;
      var before := ScanStrings(staffLines, t, marked);
      ScanExpected(staffLines, cols, ts, t, marked);
      ContentUnits(cols, t, ts);
      PlaceExpected(before, StringNotes(cols, t), t, 4 * ts, |cols|);
      var out := ScanStrings(staffLines, k, marked);
      assert out == PlaceUnits(before, t, ExpectedUnits(StringNotes(cols, t), 4 * ts, |cols|));
    }
  }

  // ---------------------------------------------------------------- the tempo marker

  /** At most one marker column, as the importer sees it. */
  lemma MarkedOfBlank(cols: seq<TabColumn>)
    requires forall c :: 0 <= c < |cols| ==> !HasMarker(cols[c])
    ensures Marked(BlankSlots(), cols)
  {
  }

  lemma MarkedOfOne(cols: seq<TabColumn>, m: nat)
    requires m < |cols| <= SlotCount && HasMarker(cols[m]) && cols[m].bpm.value > 0
    requires forall c :: 0 <= c < |cols| && c != m ==> !HasMarker(cols[c])
    ensures Marked(SetSlotBpm(BlankSlots(), m, cols[m].bpm.value), cols)
  {
  }

  /** The marker pass over an exported tempo line sets the tempo of the marker column alone. */
  lemma StaffMarkers(row: TabRow, ts: int)
    requires ts >= 1 && |row.columns| <= SlotCount && |row.columns| <= 8 * ts
    requires MarkersReadable(row.columns)
    ensures Marked(PlaceMarkers(BlankSlots(), Markers(TempoLine(row, ts), 0)), row.columns)
  {
    var cols := row.columns;
    if m :| 0 <= m < |cols| && HasMarker(cols[m]) {
      OneMarker(row, ts, m);
    } else {
      TempoLineBlank(row, ts);
      assert Markers("", 0) == [];
      MarkedOfBlank(cols);
    }
  }

  /** The tempo line of a row whose only marker is on column m. */
  lemma OneMarker(row: TabRow, ts: int, m: nat)
    requires ts >= 1 && m < |row.columns| <= SlotCount && |row.columns| <= 8 * ts
    requires HasMarker(row.columns[m]) && row.columns[m].bpm.value > 0
    requires forall c :: 0 <= c < |row.columns| && c != m ==> !HasMarker(row.columns[c])
    ensures Marked(PlaceMarkers(BlankSlots(), Markers(TempoLine(row, ts), 0)), row.columns)
  {
    var cols := row.columns;
    var v: nat := cols[m].bpm.value;
    var pre := "    " + TempoUpTo(cols, ts, m);
    TempoLineMarker(row, ts, m);
    SingleMarker(pre, NatToString(v));
    var mk := Marker(|pre|, v);
    RoundThirdOfCell(m, if m > 4 * ts then 1 else 0);
    assert MarkerSlot(mk) == m;
    PlaceOneMarker(BlankSlots(), mk);
    MarkedOfOne(cols, m);
  }

  lemma PlaceOneMarker(slots: seq<TabColumn>, mk: Marker)
    ensures PlaceMarkers(slots, [mk]) == PlaceMarker(slots, mk)
  {
    assert [mk][..0] == [];
  }

  // ---------------------------------------------------------------- the staff

  /** The read-back slots are the expected row. */
  lemma ReadIsExpected(out: seq<TabColumn>, row: TabRow)
    requires RowShape(row, |row.columns|) && |row.columns| <= SlotCount
    requires StringsRead(out, row.columns, StringCount)
    ensures TabRow(out) == ExpectedRow(row)
  {
    var cols := row.columns;
    var want := ExpectedRow(row).columns;
    forall c | 0 <= c < SlotCount
      ensures out[c] == want[c]
    {
      assert want[c] == ExpectedColumn(cols, c);
      assert out[c].notes == want[c].notes;
    }
  }

  /** An exported staff whose row fits in two measures, holds plain cells and at most one
      marker is parsed back into the expected row: every note and the marker in their own slot. */
  lemma ExportedStaffRead(row: TabRow, ts: int, tempoLine: string, staffLines: seq<string>)
    requires RowShape(row, |row.columns|) && ts >= 1
    requires |row.columns| <= SlotCount && |row.columns| <= 8 * ts
    requires forall t :: 0 <= t < StringCount ==> StringPlain(row.columns, t)
    requires MarkersReadable(row.columns)
    requires tempoLine == TempoLine(row, ts)
    requires |staffLines| == StringCount
    requires forall t :: 0 <= t < StringCount ==> Layer(staffLines[t]) == ContentUpTo(row.columns, t, ts, |row.columns|)
    ensures ParseStaff(tempoLine, staffLines) == ExpectedRow(row)
  {
    var marked := PlaceMarkers(BlankSlots(), Markers(tempoLine, 0));
    StaffMarkers(row, ts);
    ScanExpected(staffLines, row.columns, ts, StringCount, marked);
    ReadIsExpected(ScanStrings(staffLines, StringCount, marked), row);
  }
}
