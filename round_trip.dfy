/**
 * Exporting a sheet to ASCII and importing the text again. The importer gets back
 * the title, the artist, the tempo, the meter and, staff by staff, every note and
 * the tempo marker in the slot of its column, provided the sheet stays inside what
 * the text format can carry: one-line names, a title line that only the " - "
 * separator splits, an "E" top string, rows of at most two measures with plain
 * cells of one or two characters and at most one marker.
 */
module RoundTrip {
  import opened Wrappers
  import opened JsText
  import opened TabTypes
  import opened AsciiExport
  import opened AsciiImport
  import opened ImportFacts
  import opened ExportFacts
  import opened StaffRoundTrip

  // ---------------------------------------------------------------- conditions

  /** Title and artist survive the title line: no newline, only the separator splits the line,
      the line opens no staff and carries no tempo tag, and trimming leaves both names alone.
      The artist is not empty, or trimming the line would eat the separator's last space. */
  predicate HeaderReadable(title: string, artist: string) {
    && '\n' !in title && '\n' !in artist
    && !Contains(title + " -", " - ") && !Contains(artist, " - ")
    && !Contains(title + " - " + artist, "E |") && !Contains(title + " - " + artist, "Tempo:")
    && (title == [] || (!IsSpace(title[0]) && !IsSpace(title[|title| - 1])))
    && |artist| > 0 && !IsSpace(artist[0]) && !IsSpace(artist[|artist| - 1])
  }

  /** The top string is an E (the importer looks for "E |"), and no tuning name holds a bar
      or a newline. */
  predicate TuningReadable(tuning: seq<string>) {
    && |tuning| == StringCount
    && (tuning[0] == "E" || (|tuning[0]| == 2 && tuning[0][0] == 'E' && IsDigit(tuning[0][1])))
    && forall s :: 0 <= s < |tuning| ==> '|' !in tuning[s] && '\n' !in tuning[s]
  }

  /** A sheet whose export the importer reads back. */
  predicate SheetReadable(sheet: TabSheet) {
    && WellFormed(sheet) && TuningReadable(sheet.tuning)
    && HeaderReadable(sheet.title, sheet.artist)
    && sheet.bpm >= 0 && sheet.timeSignature >= 1
    && RowsReady(sheet)
  }

  /** Every row of the sheet is one the importer reads back. */
  predicate RowsReady(sheet: TabSheet) {
    forall r :: 0 <= r < |sheet.rows| ==> RowReady(sheet.rows[r], sheet.timeSignature)
  }

  lemma RowOfSheet(sheet: TabSheet, r: nat)
    requires RowsReady(sheet) && r < |sheet.rows|
    ensures RowReady(sheet.rows[r], sheet.timeSignature)
  {
  }

  /** The rows the importer is expected to give back: each row spread over the 32 slots. */
  function ExpectedRows(sheet: TabSheet): (rows: seq<TabRow>)
    ensures |rows| == |sheet.rows|
    ensures forall r :: 0 <= r < |rows| ==> rows[r] == ExpectedRow(sheet.rows[r])
  {
    seq(|sheet.rows|, r requires 0 <= r < |sheet.rows| => ExpectedRow(sheet.rows[r]))
  }

  // ---------------------------------------------------------------- lines

  /** A line that splitting on newlines and trimming the end give back unchanged. */
  predicate Clean(line: string) {
    '\n' !in line && TrimEnd(line) == line
  }

  lemma CleanIfLast(line: string)
    requires '\n' !in line && |line| > 0 && !IsSpace(line[|line| - 1])
    ensures Clean(line)
  {
    TrimEndIdentity(line);
  }

  /** A pattern whose first character a string lacks is not in it. */
  lemma NotContainsChar(s: string, pat: string)
    requires |pat| > 0 && pat[0] !in s
    ensures !Contains(s, pat)
  {
    NotContainsFirstChar(s, pat);
  }

  /** The title line. */
  lemma TitleLineClean(title: string, artist: string)
    requires HeaderReadable(title, artist)
    ensures Clean(title + " - " + artist)
  {
    var line := title + " - " + artist;
    assert line[|line| - 1] == artist[|artist| - 1];
    CleanIfLast(line);
  }

  /** The tempo and meter line. */
  lemma MetaLineClean(d1: string, d2: string)
    requires AllDigits(d1) && AllDigits(d2)
    ensures var line := "Tempo: " + d1 + " BPM | Meter: " + d2 + "/4";
      Clean(line) && 'E' !in line
  {
    var line := "Tempo: " + d1 + " BPM | Meter: " + d2 + "/4";
    assert line[|line| - 1] == '4';
    CleanIfLast(line);
  }

  /** A "Staff n" line. */
  lemma StaffNumberClean(n: nat)
    requires n > 0
    ensures Clean("Staff " + IntToString(n)) && 'E' !in "Staff " + IntToString(n)
  {
    var d := NatToString(n);
    var line := "Staff " + d;
    assert line[|line| - 1] == d[|d| - 1];
    CleanIfLast(line);
  }

  /** The tempo line of a readable row: spaces, and at most one marker. */
  lemma TempoLineClean(row: TabRow, ts: int)
    requires RowReady(row, ts)
    ensures Clean(TempoLine(row, ts)) && 'E' !in TempoLine(row, ts)
  {
    var cols := row.columns;
    var line := TempoLine(row, ts);
    TrimEndIdentity(line);
    if m :| 0 <= m < |cols| && HasMarker(cols[m]) {
      TempoLineMarker(row, ts, m);
      MarkerLineChars("    " + TempoUpTo(cols, ts, m), NatToString(cols[m].bpm.value));
    } else {
      TempoLineBlank(row, ts);
    }
  }

  /** Spaces and one marker: no letter E, no newline. */
  lemma MarkerLineChars(pre: string, d: string)
    requires AllSpaces(pre) && AllDigits(d)
    ensures var line := pre + ("[BPM:" + d + "]"); 'E' !in line && '\n' !in line
  {
    MarkerTextChars(d);
    assert 'E' !in "[BPM:" + d + "]" && '\n' !in "[BPM:" + d + "]";
  }

  /** A string line of a readable row: a label without newline, a bar, the cells and a bar. */
  lemma StringLineClean(sheet: TabSheet, row: TabRow, s: nat)
    requires TuningReadable(sheet.tuning) && s < StringCount && RowReady(row, sheet.timeSignature)
    ensures HasString(row.columns, s) && Clean(StringLine(sheet, row, s))
  {
    var line := StringLine(sheet, row, s);
    LabelWithout(sheet.tuning[s], '\n');
    ContentShape(row.columns, s, sheet.timeSignature, |row.columns|);
    var content := ContentUpTo(row.columns, s, sheet.timeSignature, |row.columns|);
    assert '\n' !in content by {
      forall i | 0 <= i < |content|
        ensures content[i] != '\n'
      {
        assert LineChar(content[i]);
      }
    }
    assert line[|line| - 1] == '|';
    CleanIfLast(line);
  }

  /** The three header lines. */
  lemma HeaderClean(sheet: TabSheet)
    requires HeaderReadable(sheet.title, sheet.artist) && sheet.bpm >= 0 && sheet.timeSignature >= 1
    ensures var header := HeaderLines(sheet);
      && |header| == 3 && (forall k :: 0 <= k < 3 ==> Clean(header[k]))
      && !Contains(header[0], "E |") && 'E' !in header[1] && header[2] == ""
  {
    TitleLineClean(sheet.title, sheet.artist);
    MetaLineClean(NatToString(sheet.bpm), NatToString(sheet.timeSignature));
  }

  /** Every line of the sequence is clean. */
  predicate AllClean(lines: seq<string>) {
    forall j :: 0 <= j < |lines| ==> Clean(lines[j])
  }

  /** A staff is clean when its number, tempo, string and blank lines are. */
  lemma NineClean(lines: seq<string>)
    requires |lines| == 9 && Clean(lines[0]) && Clean(lines[1]) && lines[8] == ""
    requires forall j :: 2 <= j < 8 ==> Clean(lines[j])
    ensures AllClean(lines)
  {
  }

  /** Every line of one staff. */
  lemma StaffClean(sheet: TabSheet, r: nat)
    requires WellFormed(sheet) && TuningReadable(sheet.tuning) && r < |sheet.rows|
    requires RowReady(sheet.rows[r], sheet.timeSignature)
    ensures AllClean(StaffLines(sheet, r))
  {
    var row := sheet.rows[r];
    var lines := StaffLines(sheet, r);
    StaffLinesShape(sheet, r);
    StaffNumberClean(r + 1);
    TempoLineClean(row, sheet.timeSignature);
    forall j | 2 <= j < 8
      ensures Clean(lines[j])
    {
      StringLineClean(sheet, row, j - 2);
    }
    NineClean(lines);
  }

  /** Every line of the first n staves, staff by staff. */
  lemma {:induction false} StavesClean(sheet: TabSheet, n: nat)
    requires WellFormed(sheet) && TuningReadable(sheet.tuning) && RowsReady(sheet)
    requires n <= |sheet.rows|
    ensures AllClean(AllStaffLines(sheet, n))
  {
    if n > 0 {
      StavesClean(sheet, n - 1);
      RowOfSheet(sheet, n - 1);
      StaffClean(sheet, n - 1);
      CleanAppend(AllStaffLines(sheet, n - 1), StaffLines(sheet, n - 1));
    }
  }

  lemma CleanAppend(a: seq<string>, b: seq<string>)
    requires AllClean(a) && AllClean(b)
    ensures AllClean(a + b)
  {
  }

  /** Splitting lines that hold no newline and do not end in white space gives them back. */
  lemma LinesOfClean(lines: seq<string>)
    requires AllClean(lines)
    ensures Lines(JoinTerminated(lines)) == lines + [""]
  {
    SplitJoinTerminated(lines);
  }

  /** The importer's lines of an exported sheet are the exporter's lines and a last empty one. */
  lemma LinesOfExport(sheet: TabSheet)
    requires SheetReadable(sheet)
    ensures Lines(AsciiTab(sheet)) == ExportLines(sheet) + [""]
  {
    HeaderClean(sheet);
    StavesClean(sheet, |sheet.rows|);
    CleanAppend(HeaderLines(sheet), AllStaffLines(sheet, |sheet.rows|));
    LinesOfClean(ExportLines(sheet));
  }

  // ---------------------------------------------------------------- the header

  /** The title line splits at the separator into the title and the artist. */
  lemma TitleLineRead(title: string, artist: string)
    requires HeaderReadable(title, artist)
    ensures TitleAndArtist(title + " - " + artist) == (title, artist)
  {
    var line := title + " - " + artist;
    var p := |title|;
    assert line[..p + 2] == title + " -";
    assert line[p..p + 3] == " - ";
    forall i | 0 <= i < p
      ensures !OccursAt(line, " - ", i)
    {
      assert !OccursAt(title + " -", " - ", i);
      if i + 3 <= p + 2 {
        assert (title + " -")[i..i + 3] == line[i..i + 3];
      }
    }
    IndexOfIs(line, " - ", p);
    assert line[p + 3..] == artist;
    assert line[..p] == title;
    TrimIdentity(title);
    TrimIdentity(artist);
  }

  /** The positions of the tempo and meter line. */
  lemma MetaLineRead(bpm: nat, ts: nat)
    ensures var line := "Tempo: " + NatToString(bpm) + " BPM | Meter: " + NatToString(ts) + "/4";
      && Contains(line, "Tempo:")
      && TagNumber(line, "Tempo:", 0) == Some(bpm)
      && TagNumber(line, "Meter:", 0) == Some(ts)
  {
    var d1 := NatToString(bpm);
    var d2 := NatToString(ts);
    var line := "Tempo: " + d1 + " BPM | Meter: " + d2 + "/4";
    MetaPositions(d1, d2, line);
    MetaTags(line, d1, d2);
  }

  /** The tags of a line laid out as the tempo and meter line. */
  lemma MetaTags(line: string, d1: string, d2: string)
    requires |d1| > 0 && AllDigits(d1) && |d2| > 0 && AllDigits(d2)
    requires
      && |line| == 23 + |d1| + |d2|
      && OccursAt(line, "Tempo:", 0) && line[6] == ' '
      && line[7..7 + |d1|] == d1 && line[7 + |d1|] == ' '
      && (forall i :: 0 <= i < 14 + |d1| ==> !OccursAt(line, "Meter:", i))
      && OccursAt(line, "Meter:", 14 + |d1|) && line[20 + |d1|] == ' '
      && line[21 + |d1|..21 + |d1| + |d2|] == d2 && line[21 + |d1| + |d2|] == '/'
    ensures Contains(line, "Tempo:")
    ensures TagNumber(line, "Tempo:", 0) == Some(DigitsValue(d1))
    ensures TagNumber(line, "Meter:", 0) == Some(DigitsValue(d2))
  {
    ContainsAt(line, "Tempo:", 0);
    TempoTag(line, d1);
    MeterTag(line, 14 + |d1|, d2);
  }

  /** "Tempo:" opening the line, then one space and digits: the tempo is their value. */
  lemma TempoTag(line: string, d1: string)
    requires |d1| > 0 && AllDigits(d1) && |line| > 7 + |d1|
    requires OccursAt(line, "Tempo:", 0) && line[6] == ' '
    requires line[7..7 + |d1|] == d1 && line[7 + |d1|] == ' '
    ensures TagNumber(line, "Tempo:", 0) == Some(DigitsValue(d1))
  {
    assert forall i :: 6 <= i < 7 ==> IsSpace(line[i]);
    TagNumberAt(line, "Tempo:", 0, d1, 7);
  }

  /** The first "Meter:" at q, then one space and digits: the meter is their value. */
  lemma MeterTag(line: string, q: nat, d2: string)
    requires |d2| > 0 && AllDigits(d2)
    requires |line| > q + 7 + |d2|
    requires forall i :: 0 <= i < q ==> !OccursAt(line, "Meter:", i)
    requires OccursAt(line, "Meter:", q) && line[q + 6] == ' '
    requires line[q + 7..q + 7 + |d2|] == d2 && !IsDigit(line[q + 7 + |d2|])
    ensures TagNumber(line, "Meter:", 0) == Some(DigitsValue(d2))
  {
    assert forall i :: 0 <= i < q ==> !TagMatchesAt(line, "Meter:", i);
    TagNumberSkip(line, "Meter:", 0, q);
    assert IsSpace(line[q + 6]);
    TagNumberAt(line, "Meter:", q, d2, q + 7);
  }

  /** Where each piece of the tempo and meter line lies. */
  lemma MetaPositions(d1: string, d2: string, line: string)
    requires line == "Tempo: " + d1 + " BPM | Meter: " + d2 + "/4"
    requires AllDigits(d1) && AllDigits(d2)
    ensures |line| == 23 + |d1| + |d2|
    ensures OccursAt(line, "Tempo:", 0) && line[6] == ' '
    ensures line[7..7 + |d1|] == d1 && line[7 + |d1|] == ' '
    ensures forall i :: 0 <= i < 14 + |d1| ==> !OccursAt(line, "Meter:", i)
    ensures OccursAt(line, "Meter:", 14 + |d1|) && line[20 + |d1|] == ' '
    ensures line[21 + |d1|..21 + |d1| + |d2|] == d2 && line[21 + |d1| + |d2|] == '/'
  {
    var a := "Tempo: " + d1;
    var b := " BPM | Meter: " + d2;
    assert line == a + b + "/4";
    assert line[..|a|] == a;
    assert line[|a|..|a| + |b|] == b;
    assert line[7..7 + |d1|] == a[7..];
    assert line[14 + |d1|..20 + |d1|] == b[7..13];
    assert line[21 + |d1|..21 + |d1| + |d2|] == b[14..];
    assert 'M' !in a;
    assert b[..7] == " BPM | ";
    NoMeterBefore(line, a, b, "/4");
  }

  /** Before the meter tag lie the tempo tag, its digits and " BPM | ": no other "Meter:". */
  lemma NoMeterBefore(line: string, a: string, b: string, rest: string)
    requires line == a + b + rest && 'M' !in a && |b| >= 7 && b[..7] == " BPM | "
    ensures forall i :: 0 <= i < |a| + 7 ==> !OccursAt(line, "Meter:", i)
  {
    forall i | 0 <= i < |a| + 7
      ensures !OccursAt(line, "Meter:", i)
    {
      if i + 6 <= |line| {
        assert line[i..i + 6][0] == line[i] && line[i..i + 6][1] == line[i + 1];
        if i < |a| {
          assert line[i] == a[i];
        } else {
          assert line[i] == b[..7][i - |a|];
          if line[i] == 'M' {
            assert line[i + 1] == b[..7][i + 1 - |a|];
          }
        }
      }
    }
  }

  /** The header of an exported sheet reads back as title, artist, tempo and meter. */
  lemma HeaderRead(sheet: TabSheet, lines: seq<string>)
    requires HeaderReadable(sheet.title, sheet.artist) && sheet.bpm >= 0 && sheet.timeSignature >= 1
    requires |lines| >= 3 && lines[..3] == HeaderLines(sheet)
    ensures ImportHeader(lines) == (sheet.title, sheet.artist, sheet.bpm, sheet.timeSignature)
  {
    assert lines[0] == sheet.title + " - " + sheet.artist;
    var meta := lines[1];
    assert meta == "Tempo: " + NatToString(sheet.bpm) + " BPM | Meter: " + NatToString(sheet.timeSignature) + "/4";
    TitleLineRead(sheet.title, sheet.artist);
    MetaLineRead(sheet.bpm, sheet.timeSignature);
    assert lines[1..][0] == meta;
    assert FindTempoLine(lines) == FindTempoLine(lines[1..]) == Some(meta);
  }

  // ---------------------------------------------------------------- the staves

  /** A line that opens no staff is passed over. */
  lemma SkipLine(lines: seq<string>, i: nat)
    requires i < |lines| && !Contains(lines[i], "E |")
    ensures ImportRows(lines, i) == ImportRows(lines, i + 1)
  {
  }

  /** Nine lines of a staff, read: the number and the tempo line are passed over, the six string
      lines give one row, the blank line is passed over. */
  lemma StaffRead(lines: seq<string>, i: nat, staff: seq<string>, row: TabRow, rest: seq<TabRow>)
    requires i + 9 <= |lines| && lines[i..i + 9] == staff
    requires !Contains(staff[0], "E |") && !Contains(staff[1], "E |") && Contains(staff[2], "E |")
    requires staff[8] == ""
    requires ParseStaff(staff[1], staff[2..8]) == row
    requires ImportRows(lines, i + 9) == Success(rest)
    ensures ImportRows(lines, i) == Success([row] + rest)
  {
    assert lines[i] == staff[0] && lines[i + 1] == staff[1] && lines[i + 2] == staff[2];
    assert lines[i + 8] == staff[8];
    forall k | 0 <= k < 6
      ensures lines[i + 2..i + 8][k] == staff[2..8][k]
    {
      assert lines[i + 2 + k] == lines[i..i + 9][2 + k];
    }
    assert lines[i + 2..i + 8] == staff[2..8];
    SkipLine(lines, i);
    SkipLine(lines, i + 1);
    assert !Contains("", "E |");
    SkipLine(lines, i + 8);
  }

  /** The first of a suffix, and the suffix after it. */
  lemma SuffixCons(rows: seq<TabRow>, r: nat)
    requires r < |rows|
    ensures [rows[r]] + rows[r + 1..] == rows[r..]
  {
  }

  /** What a staff's lines are to the importer. */
  lemma StaffOfSheet(sheet: TabSheet, r: nat)
    requires WellFormed(sheet) && TuningReadable(sheet.tuning) && r < |sheet.rows|
    requires RowReady(sheet.rows[r], sheet.timeSignature)
    ensures var lines := StaffLines(sheet, r);
      && |lines| == 9
      && !Contains(lines[0], "E |") && !Contains(lines[1], "E |") && Contains(lines[2], "E |")
      && lines[8] == ""
      && ParseStaff(lines[1], lines[2..8]) == ExpectedRow(sheet.rows[r])
  {
    var lines := StaffLines(sheet, r);
    var row := sheet.rows[r];
    var ts := sheet.timeSignature;
    StaffLinesShape(sheet, r);
    StaffNumberClean(r + 1);
    NotContainsChar(lines[0], "E |");
    TempoLineClean(row, ts);
    NotContainsChar(lines[1], "E |");
    StringLineOfE(sheet, row);
    var staffLines := lines[2..8];
    forall t | 0 <= t < StringCount
      ensures Layer(staffLines[t]) == ContentUpTo(row.columns, t, ts, |row.columns|)
    {
      assert staffLines[t] == StringLine(sheet, row, t);
      LayerOfStringLine(sheet, row, t);
    }
    ExportedStaffRead(row, ts, lines[1], staffLines);
  }

  /** The line of the top string opens a staff. */
  lemma StringLineOfE(sheet: TabSheet, row: TabRow)
    requires TuningReadable(sheet.tuning) && HasString(row.columns, 0)
    ensures Contains(StringLine(sheet, row, 0), "E |")
  {
    LabelOfE(sheet.tuning[0]);
    var line := StringLine(sheet, row, 0);
    assert line[..3] == "E |";
    ContainsAt(line, "E |", 0);
  }

  /** From the staff of row r on, the importer reads the expected rows. */
  lemma {:induction false} RowsFrom(sheet: TabSheet, lines: seq<string>, r: nat)
    requires WellFormed(sheet) && TuningReadable(sheet.tuning) && RowsReady(sheet)
    requires StavesAt(sheet, lines) && r <= |sheet.rows|
    ensures 3 + 9 * r <= |lines|
    ensures ImportRows(lines, 3 + 9 * r) == Success(ExpectedRows(sheet)[r..])
    decreases |sheet.rows| - r
  {
    var i := 3 + 9 * r;
    if r == |sheet.rows| {
      assert !Contains("", "E |");
      SkipLine(lines, i);
      assert ExpectedRows(sheet)[r..] == [];
    } else {
      var j := 3 + 9 * (r + 1);
      RowsFrom(sheet, lines, r + 1);
      RowsFromStep(sheet, lines, r, j);
    }
  }

  /** One staff more, from the rows after it. */
  lemma RowsFromStep(sheet: TabSheet, lines: seq<string>, r: nat, j: nat)
    requires WellFormed(sheet) && TuningReadable(sheet.tuning) && RowsReady(sheet)
    requires StavesAt(sheet, lines) && r < |sheet.rows| && j == 3 + 9 * (r + 1)
    requires ImportRows(lines, j) == Success(ExpectedRows(sheet)[r + 1..])
    ensures ImportRows(lines, 3 + 9 * r) == Success(ExpectedRows(sheet)[r..])
  {
    var i := 3 + 9 * r;
    var staff := StaffLines(sheet, r);
    var rows := ExpectedRows(sheet);
    assert lines[i..i + 9] == staff;
    RowOfSheet(sheet, r);
    StaffOfSheet(sheet, r);
    assert rows[r] == ExpectedRow(sheet.rows[r]);
    assert ParseStaff(staff[1], staff[2..8]) == rows[r];
    RowsStep(lines, i, j, staff, rows, r);
  }

  /** The importer's lines hold each staff at 3 + 9r, and end in an empty line. */
  predicate StavesAt(sheet: TabSheet, lines: seq<string>)
    requires WellFormed(sheet)
  {
    && |lines| == 4 + 9 * |sheet.rows| && lines[|lines| - 1] == ""
    && forall r :: 0 <= r < |sheet.rows| ==> lines[3 + 9 * r..3 + 9 * r + 9] == StaffLines(sheet, r)
  }

  lemma ExportStaves(sheet: TabSheet, lines: seq<string>)
    requires WellFormed(sheet) && lines == ExportLines(sheet) + [""]
    ensures StavesAt(sheet, lines)
  {
    ExportLineCount(sheet);
    forall r | 0 <= r < |sheet.rows|
      ensures lines[3 + 9 * r..3 + 9 * r + 9] == StaffLines(sheet, r)
    {
      StaffLinesInExport(sheet, lines, r);
    }
  }

  /** One staff more: its nine lines read as the row expected at r. */
  lemma RowsStep(lines: seq<string>, i: nat, next: nat, staff: seq<string>, rows: seq<TabRow>, r: nat)
    requires r < |rows| && next == i + 9 <= |lines| && lines[i..i + 9] == staff
    requires !Contains(staff[0], "E |") && !Contains(staff[1], "E |") && Contains(staff[2], "E |")
    requires staff[8] == "" && ParseStaff(staff[1], staff[2..8]) == rows[r]
    requires ImportRows(lines, next) == Success(rows[r + 1..])
    ensures ImportRows(lines, i) == Success(rows[r..])
  {
    StaffRead(lines, i, staff, rows[r], rows[r + 1..]);
    SuffixCons(rows, r);
  }

  /** The nine lines of staff r in the importer's lines. */
  lemma StaffLinesInExport(sheet: TabSheet, lines: seq<string>, r: nat)
    requires WellFormed(sheet) && lines == ExportLines(sheet) + [""] && r < |sheet.rows|
    ensures 3 + 9 * r + 9 <= |lines|
    ensures lines[3 + 9 * r..3 + 9 * r + 9] == StaffLines(sheet, r)
  {
    ExportLineCount(sheet);
    StaffLinesShape(sheet, r);
    forall k | 0 <= k < 9
      ensures lines[3 + 9 * r + k] == StaffLines(sheet, r)[k]
    {
      ExportLineOfStaff(sheet, r, k);
    }
  }

  // ---------------------------------------------------------------- the whole sheet

  /** Importing an exported sheet gives back its title, artist, tempo and meter, and each row
      spread over the 32 slots: every note and the marker in the slot of its column. */
  lemma ExportImportRoundTrip(sheet: TabSheet)
    requires SheetReadable(sheet)
    ensures ImportTab(AsciiTab(sheet))
         == Success(ImportedTab(sheet.title, sheet.artist, sheet.bpm, sheet.timeSignature, ExpectedRows(sheet)))
  {
    var lines := Lines(AsciiTab(sheet));
    var header := HeaderLines(sheet);
    LinesOfExport(sheet);
    ExportLineCount(sheet);
    assert lines[..3] == header;
    HeaderRead(sheet, lines);
    HeaderClean(sheet);
    HeaderSkipped(lines, header);
    ExportStaves(sheet, lines);
    RowsFrom(sheet, lines, 0);
    assert ExpectedRows(sheet)[0..] == ExpectedRows(sheet);
    ImportTabOf(AsciiTab(sheet), lines, ExpectedRows(sheet));
  }

  /** The three header lines open no staff. */
  lemma HeaderSkipped(lines: seq<string>, header: seq<string>)
    requires |lines| >= 3 && lines[..3] == header
    requires !Contains(header[0], "E |") && 'E' !in header[1] && header[2] == ""
    ensures ImportRows(lines, 0) == ImportRows(lines, 3)
  {
    assert lines[0] == header[0] && lines[1] == header[1] && lines[2] == header[2];
    NotContainsChar(lines[1], "E |");
    SkipLine(lines, 0);
    SkipLine(lines, 1);
    assert !Contains("", "E |");
    SkipLine(lines, 2);
  }

  /** The import of a text whose lines give this header and these rows. */
  lemma ImportTabOf(text: string, lines: seq<string>, rows: seq<TabRow>)
    requires lines == Lines(text) && ImportRows(lines, 0) == Success(rows)
    ensures var (title, artist, bpm, ts) := ImportHeader(lines);
      ImportTab(text) == Success(ImportedTab(title, artist, bpm, ts, rows))
  {
  }
}
