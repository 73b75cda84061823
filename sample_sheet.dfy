/**
 * A worked sheet: title "Test", artist "Artist", the default tuning, tempo and meter,
 * and one 16-column row whose first column holds fret 0 on the high E string. Its export
 * opens with "Test - Artist" and its first string line with "E |0--"; the importer reads
 * the title, the artist and the fret back.
 */
module SampleSheet {
  import opened Wrappers
  import opened JsText
  import opened TabTypes
  import opened TabContext
  import opened AsciiExport
  import opened AsciiImport
  import opened ExportFacts
  import opened StaffRoundTrip
  import opened RoundTrip

  /** The default sheet, renamed, with fret 0 entered at row 0, column 0, string 0. */
  function Sample(): (sheet: TabSheet)
    ensures WellFormed(sheet)
    ensures sheet.title == "Test" && sheet.artist == "Artist"
    ensures sheet.tuning == ["E4", "B3", "G3", "D3", "A2", "E2"]
    ensures sheet.bpm == 120 && sheet.timeSignature == 4
    ensures |sheet.rows| == 1 && |sheet.rows[0].columns| == FixedCols
    ensures sheet.rows[0].columns[0] == TabColumn(["0", "", "", "", "", ""], None)
    ensures forall c :: 1 <= c < FixedCols ==> sheet.rows[0].columns[c] == BlankColumn()
  {
    var named := DefaultTab().(title := "Test", artist := "Artist");
    SetCell(named, CursorPosition(0, 0, 0), "0")
  }

  /** The sample's export opens with its title line, and line 5, the high E string of
      staff 1, with its label, a bar and the fret padded with dashes. */
  lemma SampleExport()
    ensures ExportLines(Sample())[0] == "Test - Artist"
    ensures ExportLines(Sample())[5][..6] == "E |0--"
  {
    TestArtistExport(Sample());
  }

  /** Any sheet titled "Test" by "Artist" whose top string is E4 and whose first cell on it
      is fret 0 exports these two openings. */
  lemma TestArtistExport(sheet: TabSheet)
    requires WellFormed(sheet) && |sheet.rows| > 0 && |sheet.rows[0].columns| > 0
    requires sheet.title == "Test" && sheet.artist == "Artist" && sheet.tuning[0] == "E4"
    requires sheet.rows[0].columns[0].notes[0] == "0"
    ensures |ExportLines(sheet)| == 3 + 9 * |sheet.rows|
    ensures ExportLines(sheet)[0] == "Test - Artist"
    ensures |ExportLines(sheet)[5]| >= 6 && ExportLines(sheet)[5][..6] == "E |0--"
  {
    ExportLineCount(sheet);
    FirstLines(sheet);
    OpeningText(sheet.timeSignature);
  }

  /** The label of E4, a bar and fret 0 in the first column. */
  lemma OpeningText(timeSignature: int)
    ensures Label("E4") + "|" + CellText("0", 0, timeSignature) == "E |0--"
  {
    LabelOfE("E4");
    assert PadEnd("0", 3, '-') == "0--";
  }

  /** Line 0 of any export is "title - artist"; line 5 opens with the top string's label, a
      bar and the first cell's text. */
  lemma FirstLines(sheet: TabSheet)
    requires WellFormed(sheet) && |sheet.rows| > 0 && |sheet.rows[0].columns| > 0
    ensures ExportLines(sheet)[0] == sheet.title + " - " + sheet.artist
    ensures var head := Label(sheet.tuning[0]) + "|" + CellText(sheet.rows[0].columns[0].notes[0], 0, sheet.timeSignature);
      |head| <= |ExportLines(sheet)[5]| && ExportLines(sheet)[5][..|head|] == head
  {
    ExportLineOfStaff(sheet, 0, 2);
    StaffLinesShape(sheet, 0);
    StringLineOpening(sheet, sheet.rows[0]);
  }

  /** A string line opens with its label, a bar and its first cell. */
  lemma StringLineOpening(sheet: TabSheet, row: TabRow)
    requires |sheet.tuning| > 0 && HasString(row.columns, 0) && |row.columns| > 0
    ensures var head := Label(sheet.tuning[0]) + "|" + CellText(row.columns[0].notes[0], 0, sheet.timeSignature);
      |head| <= |StringLine(sheet, row, 0)| && StringLine(sheet, row, 0)[..|head|] == head
  {
    var parts := CellTexts(row.columns, 0, sheet.timeSignature);
    var n := |row.columns|;
    JoinedSplit(parts, 1, n);
    assert Joined(parts, 1) == parts[0] by {
      assert Joined(parts, 1) == "" + parts[0];
    }
    var tag := Label(sheet.tuning[0]);
    var rest := JoinedRange(parts, 1, n);
    assert ContentUpTo(row.columns, 0, sheet.timeSignature, n) == parts[0] + rest;
    assert StringLine(sheet, row, 0) == tag + "|" + (parts[0] + rest) + "|";
    Opening(tag, parts[0], rest);
  }

  /** Regrouping a line of a label, a bar, a first cell, the other cells and a closing bar. */
  lemma Opening(tag: string, first: string, rest: string)
    ensures var head := tag + "|" + first;
      |head| <= |tag + "|" + (first + rest) + "|"| && (tag + "|" + (first + rest) + "|")[..|head|] == head
  {
    var head := tag + "|" + first;
    assert tag + "|" + (first + rest) + "|" == head + (rest + "|");
  }

  /** The sample is a sheet the round trip covers. */
  lemma SampleReadable()
    ensures SheetReadable(Sample())
  {
    var sheet := Sample();
    SampleHeader();
    var row := sheet.rows[0];
    forall s | 0 <= s < StringCount
      ensures StringPlain(row.columns, s)
    {
      forall c | 0 <= c < |row.columns|
        ensures PlainCell(row.columns[c].notes[s])
      {
        if c == 0 && s == 0 {
          assert row.columns[c].notes[s] == "0";
        }
      }
    }
    assert RowReady(row, 4);
  }

  /** indexOf moves past a position where character k of the pattern does not match. */
  lemma IndexOfPast(s: string, pat: string, from: nat, k: nat)
    requires k < |pat| && from + |pat| <= |s| && s[from + k] != pat[k]
    ensures IndexOf(s, pat, from) == IndexOf(s, pat, from + 1)
  {
    assert s[from..from + |pat|][k] == s[from + k];
  }

  lemma SampleHeader()
    ensures HeaderReadable("Test", "Artist")
  {
    NamesPlain();
    NoSeparator();
    NoStaffOpening();
    NoTempoTag();
  }

  lemma NamesPlain()
    ensures '\n' !in "Test" && '\n' !in "Artist" && !Contains("Artist", " - ")
    ensures !IsSpace("Test"[0]) && !IsSpace("Test"[3]) && !IsSpace("Artist"[0]) && !IsSpace("Artist"[5])
  {
    NotContainsChar("Artist", " - ");
  }

  lemma NoSeparator()
    ensures !Contains("Test" + " -", " - ")
  {
    var s := "Test" + " -";
    assert s == "Test -";
    IndexOfPast(s, " - ", 0, 0);
    IndexOfPast(s, " - ", 1, 0);
    IndexOfPast(s, " - ", 2, 1);
    IndexOfPast(s, " - ", 3, 0);
  }

  lemma NoStaffOpening()
    ensures !Contains("Test" + " - " + "Artist", "E |")
  {
    var s := "Test" + " - " + "Artist";
    assert s == "Test - Artist";
    NotContainsChar(s, "E |");
  }

  lemma NoTempoTag()
    ensures !Contains("Test" + " - " + "Artist", "Tempo:")
  {
    var s := "Test" + " - " + "Artist";
    assert s == "Test - Artist";
    assert s[..6] == "Test -";
    assert s[1..] == "est - Artist";
    NotContainsPastStart(s, "Tempo:");
  }

  /** A pattern that does not open the string and whose first character appears nowhere
      after the string's start is not in it. */
  lemma NotContainsPastStart(s: string, pat: string)
    requires |pat| > 0 && |s| > 0 && (|pat| <= |s| ==> s[..|pat|] != pat) && pat[0] !in s[1..]
    ensures !Contains(s, pat)
  {
    forall i | 0 <= i
      ensures !OccursAt(s, pat, i)
    {
      if 1 <= i < |s| {
        assert s[i] == s[1..][i - 1];
      }
      if i + |pat| <= |s| && 1 <= i {
        assert s[i..i + |pat|][0] == s[i];
      }
    }
    NotContains(s, pat);
  }

  /** Importing the export gives back the title, the artist, the tempo, the meter and the
      fret at row 0, column 0, string 0. */
  lemma SampleImport()
    ensures var r := ImportTab(AsciiTab(Sample()));
      && r.Success? && r.value.title == "Test" && r.value.artist == "Artist"
      && r.value.bpm == 120 && r.value.timeSignature == 4
      && |r.value.rows| == 1 && |r.value.rows[0].columns| == SlotCount
      && r.value.rows[0].columns[0].notes == ["0", "", "", "", "", ""]
  {
    SampleReadable();
    FirstCellBack(Sample());
  }

  /** For any readable sheet, the import holds the metadata and the first cell. */
  lemma FirstCellBack(sheet: TabSheet)
    requires SheetReadable(sheet) && |sheet.rows| > 0 && |sheet.rows[0].columns| > 0
    ensures var r := ImportTab(AsciiTab(sheet));
      && r.Success? && r.value.title == sheet.title && r.value.artist == sheet.artist
      && r.value.bpm == sheet.bpm && r.value.timeSignature == sheet.timeSignature
      && |r.value.rows| == |sheet.rows| && |r.value.rows[0].columns| == SlotCount
      && r.value.rows[0].columns[0].notes == sheet.rows[0].columns[0].notes
  {
    ExportImportRoundTrip(sheet);
    var rows := ExpectedRows(sheet);
    assert rows[0] == ExpectedRow(sheet.rows[0]);
    assert rows[0].columns[0] == ExpectedColumn(sheet.rows[0].columns, 0);
  }
}
