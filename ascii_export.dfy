/**
 * The ASCII exporter: a title line, a tempo/meter line and a blank line, then
 * per staff a "Staff n" line, a tempo-marker line, one line per string and a
 * blank line. Every cell is three characters wide, with a bar line in front of
 * each column that starts a measure.
 */
module AsciiExport {
  import opened Wrappers
  import opened JsText
  import opened TabTypes

  /** A tuning name with its first digit removed, if it has one (the octave of "E4"). */
  function RemoveFirstDigit(t: string): (r: string)
    ensures (forall i :: 0 <= i < |t| ==> !IsDigit(t[i])) ==> r == t
    ensures forall k :: 0 <= k < |t| && IsDigit(t[k]) && (forall j :: 0 <= j < k ==> !IsDigit(t[j]))
              ==> r == t[..k] + t[k + 1..]
  {
    var e := RunEnd(t, 0, c => !IsDigit(c));
    if e == |t| then t else t[..e] + t[e + 1..]
  }

  /** The label in front of a string line: the tuning name without its octave, padded to two. */
  function Label(tuningName: string): string {
    PadEnd(RemoveFirstDigit(tuningName), 2, ' ')
  }

  /** A bar line stands before column c when c starts a measure of 4 * timeSignature columns.
      In JavaScript `c % 0` is NaN, which is never 0; for c > 0 the truncated remainder is 0
      exactly when the Euclidean one is. */
  predicate IsBar(c: nat, timeSignature: int) {
    c > 0 && timeSignature != 0 && c % (4 * timeSignature) == 0
  }

  /** A column's tempo counts when it is truthy: present and not 0. */
  predicate HasMarker(col: TabColumn) {
    col.bpm.Some? && col.bpm.value != 0
  }

  /** The text a cell contributes to its string line: an optional bar, then the note
      (or "-" for silence) padded with dashes to three characters. */
  function CellText(note: FretValue, c: nat, timeSignature: int): (t: string)
    ensures |note| <= 3 ==> |t| == 3 + (if IsBar(c, timeSignature) then 1 else 0)
  {
    (if IsBar(c, timeSignature) then "|" else "") + PadEnd(if note == "" then "-" else note, 3, '-')
  }

  /** The text a column contributes to the tempo line: `[BPM:n]` or three spaces,
      then a space when the column starts a measure. */
  function TempoText(col: TabColumn, c: nat, timeSignature: int): (t: string)
    ensures !HasMarker(col) ==> AllSpaces(t)
  {
    (if HasMarker(col) then PadEnd("[BPM:" + IntToString(col.bpm.value) + "]", 3, ' ') else "   ")
    + (if IsBar(c, timeSignature) then " " else "")
  }

  /** Every column has a cell for string s. */
  predicate HasString(cols: seq<TabColumn>, s: nat) {
    forall c :: 0 <= c < |cols| ==> s < |cols[c].notes|
  }

  /** The first n parts, one after the other. */
  function Joined(parts: seq<string>, n: nat): string
    requires n <= |parts|
  {
    if n == 0 then "" else Joined(parts, n - 1) + parts[n - 1]
  }

  /** The cell texts of string s, column by column. */
  function CellTexts(cols: seq<TabColumn>, s: nat, timeSignature: int): seq<string>
    requires HasString(cols, s)
  {
    seq(|cols|, c requires 0 <= c < |cols| => CellText(cols[c].notes[s], c, timeSignature))
  }

  /** The tempo texts of the columns, column by column. */
  function TempoTexts(cols: seq<TabColumn>, timeSignature: int): seq<string> {
    seq(|cols|, c requires 0 <= c < |cols| => TempoText(cols[c], c, timeSignature))
  }

  /** The cells of string s in the first n columns. */
  function ContentUpTo(cols: seq<TabColumn>, s: nat, timeSignature: int, n: nat): string
    requires n <= |cols| && HasString(cols, s)
  {
    Joined(CellTexts(cols, s, timeSignature), n)
  }

  /** The tempo text of the first n columns. */
  function TempoUpTo(cols: seq<TabColumn>, timeSignature: int, n: nat): string
    requires n <= |cols|
  {
    Joined(TempoTexts(cols, timeSignature), n)
  }

  /** The tempo-marker line of a staff, four columns of indent for the label. */
  function TempoLine(row: TabRow, timeSignature: int): string {
    TrimEnd("    " + TempoUpTo(row.columns, timeSignature, |row.columns|))
  }

  /** The line of string s after the first n columns, before its closing bar. */
  function OpenLine(sheet: TabSheet, cols: seq<TabColumn>, s: nat, n: nat): string
    requires s < |sheet.tuning| && n <= |cols| && HasString(cols, s)
  {
    Label(sheet.tuning[s]) + "|" + ContentUpTo(cols, s, sheet.timeSignature, n)
  }

  /** The line of string s in a staff. */
  function StringLine(sheet: TabSheet, row: TabRow, s: nat): string
    requires s < |sheet.tuning| && HasString(row.columns, s)
  {
    OpenLine(sheet, row.columns, s, |row.columns|) + "|"
  }

  /** The three header lines. */
  function HeaderLines(sheet: TabSheet): seq<string> {
    [ sheet.title + " - " + sheet.artist,
      "Tempo: " + IntToString(sheet.bpm) + " BPM | Meter: " + IntToString(sheet.timeSignature) + "/4",
      "" ]
  }

  /** The lines of staff r: its number, its tempo line, one line per string, a blank line. */
  function StaffLines(sheet: TabSheet, r: nat): (lines: seq<string>)
    requires WellFormed(sheet) && r < |sheet.rows|
    ensures |lines| == 3 + |sheet.tuning|
  {
    var row := sheet.rows[r];
    ["Staff " + IntToString(r + 1), TempoLine(row, sheet.timeSignature)]
    + seq(|sheet.tuning|, s requires 0 <= s < |sheet.tuning| => StringLine(sheet, row, s))
    + [""]
  }

  /** Line by line, what a staff consists of. */
  lemma StaffLinesShape(sheet: TabSheet, r: nat)
    requires WellFormed(sheet) && r < |sheet.rows|
    ensures |StaffLines(sheet, r)| == 9
    ensures StaffLines(sheet, r)[0] == "Staff " + IntToString(r + 1)
    ensures StaffLines(sheet, r)[1] == TempoLine(sheet.rows[r], sheet.timeSignature)
    ensures forall s :: 0 <= s < StringCount ==>
              HasString(sheet.rows[r].columns, s) && StaffLines(sheet, r)[2 + s] == StringLine(sheet, sheet.rows[r], s)
    ensures StaffLines(sheet, r)[8] == ""
  {
    var row := sheet.rows[r];
    var head := ["Staff " + IntToString(r + 1), TempoLine(row, sheet.timeSignature)];
    var strs := seq(|sheet.tuning|, s requires 0 <= s < |sheet.tuning| => StringLine(sheet, row, s));
    assert StaffLines(sheet, r) == head + strs + [""];
    forall s | 0 <= s < StringCount
      ensures HasString(row.columns, s) && StaffLines(sheet, r)[2 + s] == StringLine(sheet, row, s)
    {
      assert (head + strs + [""])[2 + s] == strs[s];
    }
  }

  /** The lines of the first n staves. */
  function AllStaffLines(sheet: TabSheet, n: nat): (lines: seq<string>)
    requires WellFormed(sheet) && n <= |sheet.rows|
    ensures |lines| == 9 * n
  {
    if n == 0 then [] else AllStaffLines(sheet, n - 1) + StaffLines(sheet, n - 1)
  }

  /** Every line of the export, in order. */
  function ExportLines(sheet: TabSheet): seq<string>
    requires WellFormed(sheet)
  {
    HeaderLines(sheet) + AllStaffLines(sheet, |sheet.rows|)
  }

  /** The exported document: every line followed by a newline. */
  function AsciiTab(sheet: TabSheet): string
    requires WellFormed(sheet)
  {
    JoinTerminated(ExportLines(sheet))
  }

  /** The header as the exporter writes it, three newline-terminated lines. */
  lemma HeaderText(sheet: TabSheet)
    ensures JoinTerminated(HeaderLines(sheet))
         == sheet.title + " - " + sheet.artist + "\n"
            + "Tempo: " + IntToString(sheet.bpm) + " BPM | Meter: " + IntToString(sheet.timeSignature) + "/4\n\n"
  {
    var header := HeaderLines(sheet);
    assert JoinTerminated(header[2..]) == "\n" by {
      assert header[2..][1..] == [];
    }
    assert JoinTerminated(header[1..]) == header[1] + "\n" + "\n" by {
      assert header[1..][1..] == header[2..];
    }
  }

  /** Appends a bar line to every string line. */
  method AppendBar(stringLines: array<string>)
    modifies stringLines
    ensures forall s :: 0 <= s < stringLines.Length ==> stringLines[s] == old(stringLines[s]) + "|"
  {
    var i := 0;
    while i < stringLines.Length
      invariant 0 <= i <= stringLines.Length
      invariant forall s :: 0 <= s < stringLines.Length ==>
                  stringLines[s] == old(stringLines[s]) + (if s < i then "|" else "")
    {
      stringLines[i] := stringLines[i] + "|";
      i := i + 1;
    }
  }

  /** Appends each cell of a column, padded to three, to the line of its string. */
  method AppendCells(stringLines: array<string>, col: TabColumn)
    requires |col.notes| == stringLines.Length
    modifies stringLines
    ensures forall s :: 0 <= s < stringLines.Length ==>
              stringLines[s] == old(stringLines[s]) + PadEnd(if col.notes[s] == "" then "-" else col.notes[s], 3, '-')
  {
    var sIdx := 0;
    while sIdx < |col.notes|
      invariant 0 <= sIdx <= |col.notes|
      invariant forall s :: 0 <= s < stringLines.Length ==>
                  stringLines[s] == old(stringLines[s])
                    + (if s < sIdx then PadEnd(if col.notes[s] == "" then "-" else col.notes[s], 3, '-') else "")
    {
      var note := col.notes[sIdx];
      var val := if note == "" then "-" else note;
      stringLines[sIdx] := stringLines[sIdx] + PadEnd(val, 3, '-');
      sIdx := sIdx + 1;
    }
  }

  /** One more column of tempo text, regrouped as the exporter appends it. */
  lemma TempoStep(cols: seq<TabColumn>, ts: int, c: nat)
    requires c < |cols|
    ensures "    " + TempoUpTo(cols, ts, c + 1)
         == ("    " + TempoUpTo(cols, ts, c))
            + (if HasMarker(cols[c]) then PadEnd("[BPM:" + IntToString(cols[c].bpm.value) + "]", 3, ' ') else "   ")
            + (if IsBar(c, ts) then " " else "")
  {
    var marker := if HasMarker(cols[c]) then PadEnd("[BPM:" + IntToString(cols[c].bpm.value) + "]", 3, ' ') else "   ";
    var bar := if IsBar(c, ts) then " " else "";
    ConcatAssoc("    ", TempoUpTo(cols, ts, c), marker + bar);
    ConcatAssoc("    " + TempoUpTo(cols, ts, c), marker, bar);
  }

  /** One more column of cells on every string line, regrouped as the exporter appends it. */
  lemma ContentStep(sheet: TabSheet, cols: seq<TabColumn>, c: nat)
    requires c < |cols| && forall s :: 0 <= s < |sheet.tuning| ==> HasString(cols, s)
    ensures forall s :: 0 <= s < |sheet.tuning| ==>
              OpenLine(sheet, cols, s, c + 1)
              == OpenLine(sheet, cols, s, c)
                 + (if IsBar(c, sheet.timeSignature) then "|" else "")
                 + PadEnd(if cols[c].notes[s] == "" then "-" else cols[c].notes[s], 3, '-')
  {
    forall s | 0 <= s < |sheet.tuning|
      ensures OpenLine(sheet, cols, s, c + 1)
              == OpenLine(sheet, cols, s, c)
                 + (if IsBar(c, sheet.timeSignature) then "|" else "")
                 + PadEnd(if cols[c].notes[s] == "" then "-" else cols[c].notes[s], 3, '-')
    {
      var prefix := Label(sheet.tuning[s]) + "|";
      var bar := if IsBar(c, sheet.timeSignature) then "|" else "";
      var pad := PadEnd(if cols[c].notes[s] == "" then "-" else cols[c].notes[s], 3, '-');
      ConcatAssoc(prefix, ContentUpTo(cols, s, sheet.timeSignature, c), bar + pad);
      ConcatAssoc(prefix + ContentUpTo(cols, s, sheet.timeSignature, c), bar, pad);
    }
  }

  /** One pass of the column loop: column c's tempo text, its bar on every string line
      when it starts a measure, and its cells. */
  method RenderColumn(sheet: TabSheet, cols: seq<TabColumn>, c: nat, tempoLine: string, stringLines: array<string>)
    returns (nextTempo: string)
    requires c < |cols| && stringLines.Length == |sheet.tuning| == |cols[c].notes|
    requires forall s :: 0 <= s < |sheet.tuning| ==> HasString(cols, s)
    requires tempoLine == "    " + TempoUpTo(cols, sheet.timeSignature, c)
    requires forall s :: 0 <= s < stringLines.Length ==> stringLines[s] == OpenLine(sheet, cols, s, c)
    modifies stringLines
    ensures nextTempo == "    " + TempoUpTo(cols, sheet.timeSignature, c + 1)
    ensures forall s :: 0 <= s < stringLines.Length ==> stringLines[s] == OpenLine(sheet, cols, s, c + 1)
  {
    var col := cols[c];
    TempoStep(cols, sheet.timeSignature, c);
    ContentStep(sheet, cols, c);
    nextTempo := tempoLine;
    if col.bpm.Some? && col.bpm.value != 0 {
      var marker := "[BPM:" + IntToString(col.bpm.value) + "]";
      nextTempo := nextTempo + PadEnd(marker, 3, ' ');
    } else {
      nextTempo := nextTempo + "   ";
    }
    var colsPerMeasure := sheet.timeSignature * 4;
    if c > 0 && colsPerMeasure != 0 && c % colsPerMeasure == 0 {
      AppendBar(stringLines);
      nextTempo := nextTempo + " ";
    }
    AppendCells(stringLines, col);
  }

  /** The column loop of one staff: the untrimmed tempo line and the string lines before
      their closing bar. */
  method RenderColumns(sheet: TabSheet, row: TabRow) returns (tempoLine: string, stringLines: array<string>)
    requires |sheet.tuning| == StringCount && RowShape(row, |row.columns|)
    ensures fresh(stringLines) && stringLines.Length == |sheet.tuning|
    ensures tempoLine == "    " + TempoUpTo(row.columns, sheet.timeSignature, |row.columns|)
    ensures forall s :: 0 <= s < stringLines.Length ==>
              HasString(row.columns, s) && stringLines[s] == OpenLine(sheet, row.columns, s, |row.columns|)
  {
    var cols := row.columns;
    assert forall s :: 0 <= s < StringCount ==> HasString(cols, s);
    tempoLine := "    ";
    stringLines := new string[|sheet.tuning|](s requires 0 <= s < |sheet.tuning| => Label(sheet.tuning[s]) + "|");
    assert forall s :: 0 <= s < stringLines.Length ==> stringLines[s] == OpenLine(sheet, cols, s, 0);

    var cIdx := 0;
    while cIdx < |cols|
      invariant 0 <= cIdx <= |cols|
      invariant tempoLine == "    " + TempoUpTo(cols, sheet.timeSignature, cIdx)
      invariant forall s :: 0 <= s < stringLines.Length ==> stringLines[s] == OpenLine(sheet, cols, s, cIdx)
    {
      tempoLine := RenderColumn(sheet, cols, cIdx, tempoLine, stringLines);
      cIdx := cIdx + 1;
    }
  }

  /** The text of one staff: its number, its trimmed tempo line, each string line closed by a bar,
      and a blank line. */
  method RenderStaff(sheet: TabSheet, rIdx: nat) returns (text: string)
    requires WellFormed(sheet) && rIdx < |sheet.rows|
    ensures text == JoinTerminated(StaffLines(sheet, rIdx))
  {
    var row := sheet.rows[rIdx];
    var tempoLine, stringLines := RenderColumns(sheet, row);
    text := "Staff " + IntToString(rIdx + 1) + "\n";
    text := text + TrimEnd(tempoLine) + "\n";
    StaffHead(sheet, rIdx, tempoLine);
    ghost var rendered := stringLines[..];
    var i := 0;
    while i < stringLines.Length
      invariant 0 <= i <= stringLines.Length == StringCount
      invariant stringLines[..] == rendered
      invariant text == JoinTerminated(StaffLines(sheet, rIdx)[..2 + i])
    {
      StaffStringLine(sheet, rIdx, i, stringLines[i]);
      text := text + (stringLines[i] + "|") + "\n";
      i := i + 1;
    }
    StaffTail(sheet, rIdx);
    text := text + "" + "\n";
  }

  /** The first two lines of a staff, from the untrimmed tempo line. */
  lemma StaffHead(sheet: TabSheet, r: nat, tempoLine: string)
    requires WellFormed(sheet) && r < |sheet.rows|
    requires tempoLine == "    " + TempoUpTo(sheet.rows[r].columns, sheet.timeSignature, |sheet.rows[r].columns|)
    ensures JoinTerminated(StaffLines(sheet, r)[..2])
         == "Staff " + IntToString(r + 1) + "\n" + TrimEnd(tempoLine) + "\n"
  {
    var lines := StaffLines(sheet, r);
    StaffLinesShape(sheet, r);
    JoinTerminatedTake(lines, 0);
    JoinTerminatedTake(lines, 1);
    assert JoinTerminated(lines[..0]) == "" by {
      assert lines[..0] == [];
    }
  }

  /** A string line closed by its bar is the next line of the staff. */
  lemma StaffStringLine(sheet: TabSheet, r: nat, s: nat, line: string)
    requires WellFormed(sheet) && r < |sheet.rows| && s < StringCount
    requires HasString(sheet.rows[r].columns, s)
    requires line == OpenLine(sheet, sheet.rows[r].columns, s, |sheet.rows[r].columns|)
    ensures JoinTerminated(StaffLines(sheet, r)[..3 + s])
         == JoinTerminated(StaffLines(sheet, r)[..2 + s]) + (line + "|") + "\n"
  {
    var lines := StaffLines(sheet, r);
    StaffLinesShape(sheet, r);
    assert lines[2 + s] == line + "|";
    JoinTerminatedTake(lines, 2 + s);
  }

  /** The blank line that closes a staff. */
  lemma StaffTail(sheet: TabSheet, r: nat)
    requires WellFormed(sheet) && r < |sheet.rows|
    ensures JoinTerminated(StaffLines(sheet, r)) == JoinTerminated(StaffLines(sheet, r)[..8]) + "" + "\n"
  {
    var lines := StaffLines(sheet, r);
    JoinTerminatedTake(lines, 8);
    assert lines[..9] == lines;
  }

  /**
   * generateAsciiTab. The per-string lines are a mutable array, as in the
   * source; each column appends its tempo text, its bar to every string
   * line, and its cells. The text is exactly AsciiTab(sheet).
   */
  method GenerateAsciiTab(sheet: TabSheet) returns (output: string)
    requires WellFormed(sheet)
    ensures output == AsciiTab(sheet)
  {
    output := sheet.title + " - " + sheet.artist + "\n";
    output := output + "Tempo: " + IntToString(sheet.bpm) + " BPM | Meter: " + IntToString(sheet.timeSignature) + "/4\n\n";
    HeaderText(sheet);
    assert HeaderLines(sheet) + AllStaffLines(sheet, 0) == HeaderLines(sheet);

    var rIdx := 0;
    while rIdx < |sheet.rows|
      invariant 0 <= rIdx <= |sheet.rows|
      invariant output == JoinTerminated(HeaderLines(sheet) + AllStaffLines(sheet, rIdx))
    {
      var staff := RenderStaff(sheet, rIdx);
      ExportStep(sheet, rIdx);
      output := output + staff;
      rIdx := rIdx + 1;
    }
  }

  /** Rendering one more staff appends its lines to the text so far. */
  lemma ExportStep(sheet: TabSheet, rIdx: nat)
    requires WellFormed(sheet) && rIdx < |sheet.rows|
    ensures JoinTerminated(HeaderLines(sheet) + AllStaffLines(sheet, rIdx + 1))
         == JoinTerminated(HeaderLines(sheet) + AllStaffLines(sheet, rIdx)) + JoinTerminated(StaffLines(sheet, rIdx))
  {
    var done := HeaderLines(sheet) + AllStaffLines(sheet, rIdx);
    assert HeaderLines(sheet) + AllStaffLines(sheet, rIdx + 1) == done + StaffLines(sheet, rIdx);
    JoinTerminatedAppend(done, StaffLines(sheet, rIdx));
  }

  /** The export has three header lines and nine lines per staff. */
  lemma ExportLineCount(sheet: TabSheet)
    requires WellFormed(sheet)
    ensures |ExportLines(sheet)| == 3 + 9 * |sheet.rows|
  {
  }

  /** Line 3 + 9r + k of the export is line k of staff r. */
  lemma {:induction false} ExportLineOfStaff(sheet: TabSheet, r: nat, k: nat)
    requires WellFormed(sheet) && r < |sheet.rows| && k < 9
    ensures ExportLines(sheet)[3 + 9 * r + k] == StaffLines(sheet, r)[k]
  {
    StaffLinesPrefix(sheet, r, k, |sheet.rows|);
  }

  lemma {:induction false} StaffLinesPrefix(sheet: TabSheet, r: nat, k: nat, n: nat)
    requires WellFormed(sheet) && r < n <= |sheet.rows| && k < 9
    ensures AllStaffLines(sheet, n)[9 * r + k] == StaffLines(sheet, r)[k]
  {
    var prev := AllStaffLines(sheet, n - 1);
    assert AllStaffLines(sheet, n) == prev + StaffLines(sheet, n - 1);
    assert |prev| == 9 * (n - 1);
    if r < n - 1 {
      StaffLinesPrefix(sheet, r, k, n - 1);
      assert 9 * r + k < |prev|;
    } else {
      assert 9 * r + k == |prev| + k;
    }
  }

  // ---------------------------------------------------------------- line lengths

  /** How many of the first n columns a bar line precedes. */
  function BarCount(n: nat, timeSignature: int): (k: nat)
    ensures k <= n
  {
    if n == 0 then 0 else BarCount(n - 1, timeSignature) + (if IsBar(n - 1, timeSignature) then 1 else 0)
  }

  /** With cells of at most three characters, the cells of the first n columns take three
      characters each and one more per bar, whichever string they belong to. */
  lemma {:induction false} ContentLength(cols: seq<TabColumn>, s: nat, timeSignature: int, n: nat)
    requires n <= |cols| && HasString(cols, s)
    requires forall c :: 0 <= c < n ==> |cols[c].notes[s]| <= 3
    ensures |ContentUpTo(cols, s, timeSignature, n)| == 3 * n + BarCount(n, timeSignature)
  {
    if n > 0 {
      ContentLength(cols, s, timeSignature, n - 1);
      var parts := CellTexts(cols, s, timeSignature);
      assert Joined(parts, n) == Joined(parts, n - 1) + parts[n - 1];
      assert parts[n - 1] == CellText(cols[n - 1].notes[s], n - 1, timeSignature);
    }
  }

  /** A string line: a two-character label, a bar, the cells and the closing bar. */
  lemma StringLineLength(sheet: TabSheet, row: TabRow, s: nat)
    requires s < |sheet.tuning| && HasString(row.columns, s)
    requires |RemoveFirstDigit(sheet.tuning[s])| <= 2
    requires forall c :: 0 <= c < |row.columns| ==> |row.columns[c].notes[s]| <= 3
    ensures |StringLine(sheet, row, s)| == 4 + 3 * |row.columns| + BarCount(|row.columns|, sheet.timeSignature)
  {
    ContentLength(row.columns, s, sheet.timeSignature, |row.columns|);
  }

  /** Tuning names of at most two characters once the octave digit is gone and cells of at
      most three characters: every string line of a staff has the same length. */
  lemma StringLinesEqualLength(sheet: TabSheet, row: TabRow, s1: nat, s2: nat)
    requires s1 < |sheet.tuning| && HasString(row.columns, s1) && |RemoveFirstDigit(sheet.tuning[s1])| <= 2
    requires s2 < |sheet.tuning| && HasString(row.columns, s2) && |RemoveFirstDigit(sheet.tuning[s2])| <= 2
    requires forall c :: 0 <= c < |row.columns| ==> |row.columns[c].notes[s1]| <= 3 && |row.columns[c].notes[s2]| <= 3
    ensures |StringLine(sheet, row, s1)| == |StringLine(sheet, row, s2)|
  {
    StringLineLength(sheet, row, s1);
    StringLineLength(sheet, row, s2);
  }
}
