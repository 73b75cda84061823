/**
 * What the exporter's lines look like to the importer: where the bar lines
 * fall, how long the cell and tempo texts are, which characters they hold,
 * what note units a cell yields, what the tempo line trims to and what lies
 * between the bars of a string line.
 */
module ExportFacts {
  import opened Wrappers
  import opened JsText
  import opened TabTypes
  import opened AsciiExport
  import opened AsciiImport
  import opened ImportFacts

  // ---------------------------------------------------------------- conditions

  /** A character a cell may hold and still be read back: no separator, no '<', no newline. */
  predicate PlainChar(ch: char) { !IsGap(ch) && ch != '<' && ch != '\n' }

  /** A cell the importer reads back as it was: at most two plain characters. */
  predicate PlainCell(note: string) {
    |note| <= 2 && forall i :: 0 <= i < |note| ==> PlainChar(note[i])
  }

  /** A character that neither opens a harmonic nor ends a line. */
  predicate LineChar(ch: char) { ch != '<' && ch != '\n' }

  predicate LineText(t: string) { forall i :: 0 <= i < |t| ==> LineChar(t[i]) }

  /** Every column has a plain cell for string s. */
  predicate StringPlain(cols: seq<TabColumn>, s: nat) {
    HasString(cols, s) && forall c :: 0 <= c < |cols| ==> PlainCell(cols[c].notes[s])
  }

  /** At most one column carries a tempo marker, and a marker's tempo is positive. */
  predicate MarkersReadable(cols: seq<TabColumn>) {
    && (forall c :: 0 <= c < |cols| && HasMarker(cols[c]) ==> cols[c].bpm.value > 0)
    && (forall c1, c2 :: 0 <= c1 < |cols| && 0 <= c2 < |cols| && HasMarker(cols[c1]) && HasMarker(cols[c2]) ==> c1 == c2)
  }

  /** A row the importer reads back: it fits in the 32 slots and in two measures, its cells are
      plain and it has at most one marker. */
  predicate RowReady(row: TabRow, ts: int) {
    && ts >= 1 && |row.columns| <= SlotCount && |row.columns| <= 8 * ts
    && RowShape(row, |row.columns|)
    && (forall s :: 0 <= s < StringCount ==> StringPlain(row.columns, s))
    && MarkersReadable(row.columns)
  }

  // ---------------------------------------------------------------- bars

  lemma ModSmall(c: int, m: int)
    requires 0 <= c < m
    ensures c % m == c
  {
  }

  lemma ModNext(c: int, m: int)
    requires 0 < m <= c < 2 * m
    ensures c % m == c - m
  {
  }

  /** Within two measures the only bar line is the one before column 4 * timeSignature. */
  lemma BarAt(c: nat, ts: int)
    requires ts >= 1 && c < 8 * ts
    ensures IsBar(c, ts) <==> c == 4 * ts
  {
    if c < 4 * ts {
      ModSmall(c, 4 * ts);
    } else {
      ModNext(c, 4 * ts);
    }
  }

  /** A note that starts at 3c or 3c + 1 goes back to slot c. */
  lemma RoundThirdOfCell(c: nat, d: nat)
    requires d <= 1
    ensures RoundThird(3 * c + d) == c
  {
  }

  // ---------------------------------------------------------------- text helpers

  lemma LineTextAppend(a: string, b: string)
    requires LineText(a) && LineText(b)
    ensures LineText(a + b)
  {
    AppendChars(a, b);
  }

  lemma AllSpacesAppend(a: string, b: string)
    requires AllSpaces(a) && AllSpaces(b)
    ensures AllSpaces(a + b)
  {
    AppendChars(a, b);
  }

  /** indexOf finds an occurrence that nothing precedes. */
  lemma IndexOfIs(s: string, pat: string, p: nat)
    requires OccursAt(s, pat, p)
    requires forall i :: 0 <= i < p ==> !OccursAt(s, pat, i)
    ensures IndexOf(s, pat, 0) == p
  {
  }

  // ---------------------------------------------------------------- cells

  /** Gaps are passed over. */
  lemma {:induction false} UnitsSkipGaps(layer: string, x: nat, y: nat)
    requires x <= y <= |layer| && forall i :: x <= i < y ==> IsGap(layer[i])
    ensures Units(layer, x) == Units(layer, y)
    decreases y - x
  {
    if x < y {
      assert IsGap(layer[x]);
      UnitsSkipGaps(layer, x + 1, y);
    }
  }

  /** Positional: a plain note at b followed by a dash ends where the note ends. */
  lemma UnitEndOfNote(cell: string, b: nat, note: string)
    requires 0 < |note| && b + |note| < |cell|
    requires forall k :: 0 <= k < |note| ==> cell[b + k] == note[k] && PlainChar(note[k])
    requires cell[b + |note|] == '-'
    ensures !IsGap(cell[b]) && UnitEnd(cell, b) == b + |note| && cell[b..b + |note|] == note
  {
    var e := b + |note|;
    assert cell[b + 0] == note[0];
    forall i | b <= i < e
      ensures !IsGap(cell[i])
    {
      assert cell[b + (i - b)] == note[i - b];
    }
    UnitEndUnique(cell, b, e);
    assert cell[b..e] == note;
  }

  /** Positional: gaps before b, a plain note at b, dashes after it: that note is the one unit. */
  lemma UnitsOfOneNote(cell: string, b: nat, note: string)
    requires 0 < |note| && b + |note| < |cell|
    requires forall i :: 0 <= i < b ==> IsGap(cell[i])
    requires forall k :: 0 <= k < |note| ==> cell[b + k] == note[k] && PlainChar(note[k])
    requires forall i :: b + |note| <= i < |cell| ==> cell[i] == '-'
    ensures Units(cell, 0) == [NoteUnit(b, note)]
  {
    UnitEndOfNote(cell, b, note);
    UnitsSkipGaps(cell, 0, b);
    UnitsAtNote(cell, b);
    UnitsAllGaps(cell, b + |note|);
  }

  /** Characters of the padded note of a cell. */
  lemma PaddedNote(note: string)
    requires PlainCell(note)
    ensures var p := PadEnd(if note == "" then "-" else note, 3, '-');
      && |p| == 3 && p[2] == '-'
      && (forall k :: 0 <= k < |note| ==> p[k] == note[k])
      && (forall i :: |note| <= i < 3 ==> p[i] == '-')
      && LineText(p)
  {
    var v := if note == "" then "-" else note;
    var p := PadEnd(v, 3, '-');
    forall k | 0 <= k < |v|
      ensures p[k] == v[k]
    {
      assert p[..|v|][k] == v[k];
    }
  }

  /** The shape of a cell's text: its length, its last character and its characters. */
  lemma CellShape(note: string, c: nat, ts: int)
    requires PlainCell(note) && ts >= 1 && c < 8 * ts
    ensures |CellText(note, c, ts)| == 3 + (if c == 4 * ts then 1 else 0)
    ensures CellText(note, c, ts)[|CellText(note, c, ts)| - 1] == '-'
    ensures LineText(CellText(note, c, ts))
  {
    BarAt(c, ts);
    var bar := if IsBar(c, ts) then "|" else "";
    var p := PadEnd(if note == "" then "-" else note, 3, '-');
    PaddedNote(note);
    AppendChars(bar, p);
    LineTextAppend(bar, p);
  }

  /** The note units of a cell: none for silence, otherwise the note, after the bar if there is one. */
  lemma CellUnits(note: string, c: nat, ts: int)
    requires PlainCell(note) && ts >= 1 && c < 8 * ts
    ensures Units(CellText(note, c, ts), 0)
         == if note == "" then [] else [NoteUnit(if c == 4 * ts then 1 else 0, note)]
  {
    BarAt(c, ts);
    PaddedNote(note);
    UnitsOfPadded(if IsBar(c, ts) then "|" else "", PadEnd(if note == "" then "-" else note, 3, '-'), note);
  }

  /** An optional bar, then a plain note padded with dashes to three: at most that one unit. */
  lemma UnitsOfPadded(bar: string, p: string, note: string)
    requires bar == "" || bar == "|"
    requires PlainCell(note) && |p| == 3
    requires forall k :: 0 <= k < |note| ==> p[k] == note[k]
    requires forall i :: |note| <= i < 3 ==> p[i] == '-'
    ensures Units(bar + p, 0) == if note == "" then [] else [NoteUnit(|bar|, note)]
  {
    if note == "" {
      UnitsOfSilence(bar, p);
    } else {
      UnitsOfNote(bar, p, note);
    }
  }

  lemma UnitsOfSilence(bar: string, p: string)
    requires bar == "" || bar == "|"
    requires forall i :: 0 <= i < |p| ==> p[i] == '-'
    ensures Units(bar + p, 0) == []
  {
    forall i | 0 <= i < |bar + p|
      ensures IsGap((bar + p)[i])
    {
      if i >= |bar| {
        assert (bar + p)[i] == p[i - |bar|];
      }
    }
    UnitsAllGaps(bar + p, 0);
  }

  lemma UnitsOfNote(bar: string, p: string, note: string)
    requires bar == "" || bar == "|"
    requires PlainCell(note) && note != "" && |p| == 3
    requires forall k :: 0 <= k < |note| ==> p[k] == note[k]
    requires forall i :: |note| <= i < 3 ==> p[i] == '-'
    ensures Units(bar + p, 0) == [NoteUnit(|bar|, note)]
  {
    var cell := bar + p;
    var b := |bar|;
    forall i | 0 <= i < b
      ensures IsGap(cell[i])
    {
    }
    forall k | 0 <= k < |note|
      ensures cell[b + k] == note[k] && PlainChar(note[k])
    {
      assert cell[b + k] == p[k];
    }
    forall i | b + |note| <= i < |cell|
      ensures cell[i] == '-'
    {
      assert cell[i] == p[i - b];
    }
    UnitsOfOneNote(cell, b, note);
  }

  // ---------------------------------------------------------------- joined parts

  /** The parts m..n-1, one after the other. */
  function JoinedRange(parts: seq<string>, m: nat, n: nat): string
    requires m <= n <= |parts|
    decreases n
  {
    if n == m then "" else JoinedRange(parts, m, n - 1) + parts[n - 1]
  }

  /** The first n parts are the first m followed by parts m..n-1. */
  lemma {:induction false} JoinedSplit(parts: seq<string>, m: nat, n: nat)
    requires m <= n <= |parts|
    ensures Joined(parts, n) == Joined(parts, m) + JoinedRange(parts, m, n)
    decreases n
  {
    if n == m {
      AppendEmpty(Joined(parts, m));
    } else {
      JoinedSplit(parts, m, n - 1);
      AppendStep(Joined(parts, m), JoinedRange(parts, m, n - 1), parts[n - 1],
                 Joined(parts, n - 1), Joined(parts, n), JoinedRange(parts, m, n));
    }
  }

  lemma AppendEmpty(a: string)
    ensures a + "" == a
  {
  }

  /** If x is a + r, then x + t is a + (r + t). */
  lemma AppendStep(a: string, r: string, t: string, x: string, y: string, z: string)
    requires x == a + r && y == x + t && z == r + t
    ensures y == a + z
  {
  }

  /** Parts of spaces join to spaces. */
  lemma {:induction false} JoinedRangeSpaces(parts: seq<string>, m: nat, n: nat)
    requires m <= n <= |parts| && forall c :: m <= c < n ==> AllSpaces(parts[c])
    ensures AllSpaces(JoinedRange(parts, m, n))
    decreases n
  {
    if n > m {
      JoinedRangeSpaces(parts, m, n - 1);
      AllSpacesAppend(JoinedRange(parts, m, n - 1), parts[n - 1]);
    }
  }

  lemma {:induction false} JoinedSpaces(parts: seq<string>, n: nat)
    requires n <= |parts| && forall c :: 0 <= c < n ==> AllSpaces(parts[c])
    ensures AllSpaces(Joined(parts, n))
  {
    if n > 0 {
      JoinedSpaces(parts, n - 1);
      AllSpacesAppend(Joined(parts, n - 1), parts[n - 1]);
    }
  }

  /** Parts of three characters, except a four-character one at k. */
  lemma {:induction false} JoinedLength(parts: seq<string>, n: nat, k: nat)
    requires n <= |parts| && forall c :: 0 <= c < n ==> |parts[c]| == 3 + (if c == k then 1 else 0)
    ensures |Joined(parts, n)| == 3 * n + (if n > k then 1 else 0)
  {
    if n > 0 {
      JoinedLength(parts, n - 1, k);
    }
  }

  lemma {:induction false} JoinedLineText(parts: seq<string>, n: nat)
    requires n <= |parts| && forall c :: 0 <= c < n ==> LineText(parts[c])
    ensures LineText(Joined(parts, n))
  {
    if n > 0 {
      JoinedLineText(parts, n - 1);
      LineTextAppend(Joined(parts, n - 1), parts[n - 1]);
    }
  }

  /** The last character of the joined parts is that of the last part. */
  lemma JoinedLast(parts: seq<string>, n: nat)
    requires 0 < n <= |parts| && |parts[n - 1]| > 0
    ensures |Joined(parts, n)| > 0
    ensures Joined(parts, n)[|Joined(parts, n)| - 1] == parts[n - 1][|parts[n - 1]| - 1]
  {
    var a := Joined(parts, n - 1);
    var b := parts[n - 1];
    assert Joined(parts, n) == a + b;
    assert (a + b)[|a| + (|b| - 1)] == b[|b| - 1];
  }

  // ---------------------------------------------------------------- string lines

  /** The cells of string s so far: their length, their characters and their last character. */
  lemma ContentShape(cols: seq<TabColumn>, s: nat, ts: int, n: nat)
    requires ts >= 1 && n <= |cols| <= 8 * ts && StringPlain(cols, s)
    ensures |ContentUpTo(cols, s, ts, n)| == 3 * n + (if n > 4 * ts then 1 else 0)
    ensures LineText(ContentUpTo(cols, s, ts, n))
    ensures n > 0 ==> ContentUpTo(cols, s, ts, n)[|ContentUpTo(cols, s, ts, n)| - 1] == '-'
  {
    var parts := CellTexts(cols, s, ts);
    forall c | 0 <= c < n
      ensures |parts[c]| == 3 + (if c == 4 * ts then 1 else 0)
      ensures LineText(parts[c]) && parts[c][|parts[c]| - 1] == '-'
    {
      CellShape(cols[c].notes[s], c, ts);
    }
    JoinedLength(parts, n, 4 * ts);
    JoinedLineText(parts, n);
    if n > 0 {
      JoinedLast(parts, n);
    }
  }

  /** The label in front of a string line holds no character other than a space that the
      tuning name does not hold (no bar, no newline). */
  lemma LabelWithout(t: string, ch: char)
    requires ch != ' ' && ch !in t
    ensures ch !in Label(t)
  {
    var r := RemoveFirstDigit(t);
    assert ch !in r;
  }

  /** "E" or "E" and an octave digit is labelled "E ". */
  lemma LabelOfE(t: string)
    requires t == "E" || (|t| == 2 && t[0] == 'E' && IsDigit(t[1]))
    ensures Label(t) == "E "
  {
    if |t| == 2 {
      assert !IsDigit(t[0]);
      assert RemoveFirstDigit(t) == t[..1] + t[2..];
    }
  }

  /** Between the first bar, which follows a head without bars, and the last one lies the content. */
  lemma LayerOfFramed(head: string, content: string)
    requires '|' !in head
    ensures Layer(head + ("|" + content + "|")) == content
  {
    var line := head + ("|" + content + "|");
    AppendChars(head, "|" + content + "|");
    forall i | 0 <= i < |head|
      ensures !OccursAt(line, "|", i)
    {
      assert line[i..i + 1][0] == head[i];
    }
    assert line[|head|..|head| + 1] == "|";
    IndexOfIs(line, "|", |head|);
    assert line[|head| + 1..|line| - 1] == content;
  }

  /** Between the first and the last bar of a string line lie exactly its cells. */
  lemma LayerOfStringLine(sheet: TabSheet, row: TabRow, s: nat)
    requires s < |sheet.tuning| && HasString(row.columns, s) && '|' !in sheet.tuning[s]
    ensures Layer(StringLine(sheet, row, s)) == ContentUpTo(row.columns, s, sheet.timeSignature, |row.columns|)
  {
    var head := Label(sheet.tuning[s]);
    var content := ContentUpTo(row.columns, s, sheet.timeSignature, |row.columns|);
    LabelWithout(sheet.tuning[s], '|');
    Regroup(head, content, StringLine(sheet, row, s));
    LayerOfFramed(head, content);
  }

  lemma Regroup(head: string, content: string, line: string)
    requires line == head + "|" + content + "|"
    ensures line == head + ("|" + content + "|")
  {
  }

  // ---------------------------------------------------------------- the tempo line

  /** A column without a marker: spaces, three and one more for a bar. */
  lemma TempoTextBlank(col: TabColumn, c: nat, ts: int)
    requires !HasMarker(col) && ts >= 1 && c < 8 * ts
    ensures AllSpaces(TempoText(col, c, ts))
    ensures |TempoText(col, c, ts)| == 3 + (if c == 4 * ts then 1 else 0)
  {
    BarAt(c, ts);
  }

  /** Before any marker the tempo text is spaces, three per column and one for the bar. */
  lemma TempoPrefix(cols: seq<TabColumn>, ts: int, m: nat)
    requires ts >= 1 && m <= |cols| <= 8 * ts && forall c :: 0 <= c < m ==> !HasMarker(cols[c])
    ensures AllSpaces(TempoUpTo(cols, ts, m))
    ensures |TempoUpTo(cols, ts, m)| == 3 * m + (if m > 4 * ts then 1 else 0)
  {
    var parts := TempoTexts(cols, ts);
    forall c | 0 <= c < m
      ensures AllSpaces(parts[c]) && |parts[c]| == 3 + (if c == 4 * ts then 1 else 0)
    {
      TempoTextBlank(cols[c], c, ts);
    }
    JoinedSpaces(parts, m);
    JoinedLength(parts, m, 4 * ts);
  }

  /** A row without markers has an empty tempo line. */
  lemma TempoLineBlank(row: TabRow, ts: int)
    requires forall c :: 0 <= c < |row.columns| ==> !HasMarker(row.columns[c])
    ensures TempoLine(row, ts) == ""
  {
    var cols := row.columns;
    var parts := TempoTexts(cols, ts);
    assert forall c :: 0 <= c < |cols| ==> AllSpaces(parts[c]);
    JoinedSpaces(parts, |cols|);
    AllSpacesAppend("    ", TempoUpTo(cols, ts, |cols|));
    TrimEndAllSpaces("    " + TempoUpTo(cols, ts, |cols|));
  }

  /** The marker text of a positive tempo. */
  lemma MarkerText(v: int)
    requires v > 0
    ensures PadEnd("[BPM:" + IntToString(v) + "]", 3, ' ') == "[BPM:" + NatToString(v) + "]"
  {
  }

  /** The tempo text of a marker column. */
  lemma TempoTextMarker(col: TabColumn, c: nat, ts: int)
    requires HasMarker(col) && col.bpm.value > 0
    ensures TempoText(col, c, ts) == ("[BPM:" + NatToString(col.bpm.value) + "]") + (if IsBar(c, ts) then " " else "")
  {
    MarkerText(col.bpm.value);
  }

  /** A row whose one marker sits on column m: the tempo line is spaces up to that column's
      position, then the marker. */
  lemma TempoLineMarker(row: TabRow, ts: int, m: nat)
    requires ts >= 1 && m < |row.columns| <= 8 * ts
    requires HasMarker(row.columns[m]) && row.columns[m].bpm.value > 0
    requires forall c :: 0 <= c < |row.columns| && c != m ==> !HasMarker(row.columns[c])
    ensures TempoLine(row, ts)
         == ("    " + TempoUpTo(row.columns, ts, m)) + ("[BPM:" + NatToString(row.columns[m].bpm.value) + "]")
    ensures AllSpaces("    " + TempoUpTo(row.columns, ts, m))
    ensures |"    " + TempoUpTo(row.columns, ts, m)| == 4 + 3 * m + (if m > 4 * ts then 1 else 0)
  {
    var cols := row.columns;
    var parts := TempoTexts(cols, ts);
    TempoPrefix(cols, ts, m);
    AllSpacesAppend("    ", TempoUpTo(cols, ts, m));
    TempoTextMarker(cols[m], m, ts);
    forall c | m + 1 <= c < |cols|
      ensures AllSpaces(parts[c])
    {
      assert !HasMarker(cols[c]);
    }
    MarkerLine(parts, m, "[BPM:" + NatToString(cols[m].bpm.value) + "]", if IsBar(m, ts) then " " else "");
  }

  /** Parts of spaces up to m, then a part that is a marker ending in ']' and spaces, then parts
      of spaces: with an indent of four, trimming the end leaves everything up to the marker. */
  lemma MarkerLine(parts: seq<string>, m: nat, mk: string, bar: string)
    requires m < |parts| && parts[m] == mk + bar && |mk| > 0 && mk[|mk| - 1] == ']' && AllSpaces(bar)
    requires forall c :: m < c < |parts| ==> AllSpaces(parts[c])
    ensures TrimEnd("    " + Joined(parts, |parts|)) == ("    " + Joined(parts, m)) + mk
  {
    var n := |parts|;
    var pre := "    " + Joined(parts, m);
    var rest := JoinedRange(parts, m + 1, n);
    JoinedSplit(parts, m + 1, n);
    JoinedRangeSpaces(parts, m + 1, n);
    AllSpacesAppend(bar, rest);
    TempoRegroup("    ", Joined(parts, m), mk, bar, rest, Joined(parts, m + 1), Joined(parts, n));
    assert (pre + mk)[|pre| + (|mk| - 1)] == ']';
    TrimEndSpaces(pre + mk, bar + rest);
  }

  /** Regrouping the tempo line around the marker. */
  lemma TempoRegroup(indent: string, before: string, mk: string, bar: string, rest: string, upTo: string, all: string)
    requires upTo == before + (mk + bar) && all == upTo + rest
    ensures indent + all == ((indent + before) + mk) + (bar + rest)
  {
  }
}
