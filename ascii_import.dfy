/**
 * The ASCII importer: reads back the exporter's format. The header gives the
 * title, artist, tempo and meter; every line containing "E |" opens a staff of
 * six string lines, whose tempo markers sit on the line above. Notes and
 * markers are placed in 32 slots by their character position.
 */
module AsciiImport {
  import opened Wrappers
  import opened JsText
  import opened TabTypes

  /** Slots per imported staff. */
  const SlotCount: nat := 32

  /** What the importer returns: metadata and rows, no tuning. */
  datatype ImportedTab = ImportedTab(title: string, artist: string, bpm: int, timeSignature: int, rows: seq<TabRow>)

  /** A line containing "E |" with fewer than five lines after it: the source reads a missing
      string line and throws a TypeError. */
  datatype ImportError = TruncatedStaff

  // ---------------------------------------------------------------- lines and header

  /** The text cut at every newline, each piece with its trailing white space removed. */
  function Lines(text: string): (lines: seq<string>)
    ensures |lines| >= 1 && |lines| == |Split(text, '\n')|
    ensures forall k :: 0 <= k < |lines| ==> lines[k] == TrimEnd(Split(text, '\n')[k])
  {
    var parts := Split(text, '\n');
    seq(|parts|, k requires 0 <= k < |parts| => TrimEnd(parts[k]))
  }

  /** The title line cut at " - ": the first piece is the title and the second the artist,
      each trimmed; without a separator both defaults stay. */
  function TitleAndArtist(line: string): (names: (string, string))
    ensures !Contains(line, " - ") ==> names == ("Salvaged Tab", "Unknown Artist")
  {
    var p := IndexOf(line, " - ", 0);
    if p < 0 then ("Salvaged Tab", "Unknown Artist")
    else
      var rest := line[p + 3..];
      var q := IndexOf(rest, " - ", 0);
      (Trim(line[..p]), Trim(if q < 0 then rest else rest[..q]))
  }

  /** The first line that contains "Tempo:", if any. */
  function FindTempoLine(lines: seq<string>): (found: Option<string>)
    ensures found.Some? ==> found.value in lines && Contains(found.value, "Tempo:")
    ensures found.Some? ==>
              exists k :: (0 <= k < |lines| && found.value == lines[k] && Contains(lines[k], "Tempo:")
                           && forall j :: 0 <= j < k ==> !Contains(lines[j], "Tempo:"))
    ensures found.None? ==> forall k :: 0 <= k < |lines| ==> !Contains(lines[k], "Tempo:")
  {
    if lines == [] then None
    else if Contains(lines[0], "Tempo:") then Some(lines[0])
    else FindTempoLine(lines[1..])
  }

  /** The tag at p is followed, after white space, by a digit: where `tag\s*(\d+)` can match. */
  predicate TagMatchesAt(line: string, tag: string, p: nat) {
    OccursAt(line, tag, p)
    && SpaceRunEnd(line, p + |tag|) < |line| && IsDigit(line[SpaceRunEnd(line, p + |tag|)])
  }

  /** i is the first position at or after p where `tag\s*(\d+)` matches, and v is the value of
      the whole digit run that follows the tag and its white space there. */
  predicate FirstTagMatch(line: string, tag: string, p: nat, i: nat, v: nat) {
    && p <= i && TagMatchesAt(line, tag, i)
    && (forall j :: p <= j < i ==> !TagMatchesAt(line, tag, j))
    && var q := SpaceRunEnd(line, i + |tag|);
       q < DigitRunEnd(line, q) && v == DigitsValue(line[q..DigitRunEnd(line, q)])
  }

  /** The number the regular expression `tag\s*(\d+)` captures in its first match at or after p:
      the whole digit run that follows the tag and its white space, read in base 10. */
  function TagNumber(line: string, tag: string, p: nat): (n: Option<nat>)
    ensures n.None? ==> forall i :: p <= i ==> !TagMatchesAt(line, tag, i)
    decreases |line| - p
  {
    if p + |tag| > |line| then None
    else if TagMatchesAt(line, tag, p) then
      var q := SpaceRunEnd(line, p + |tag|);
      Some(DigitsValue(line[q..DigitRunEnd(line, q)]))
    else TagNumber(line, tag, p + 1)
  }

  /** A number read by the tag search is the one captured at the first match. */
  lemma {:induction false} TagNumberFirst(line: string, tag: string, p: nat)
    ensures TagNumber(line, tag, p).Some? ==> exists i :: FirstTagMatch(line, tag, p, i, TagNumber(line, tag, p).value)
    decreases |line| - p
  {
    if p + |tag| <= |line| && !TagMatchesAt(line, tag, p) && TagNumber(line, tag, p).Some? {
      TagNumberFirst(line, tag, p + 1);
      var i :| FirstTagMatch(line, tag, p + 1, i, TagNumber(line, tag, p).value);
      assert FirstTagMatch(line, tag, p, i, TagNumber(line, tag, p).value);
    } else if p + |tag| <= |line| && TagMatchesAt(line, tag, p) {
      var q := SpaceRunEnd(line, p + |tag|);
      assert FirstTagMatch(line, tag, p, p, TagNumber(line, tag, p).value);
    }
  }

  // ---------------------------------------------------------------- slots

  /** Math.round(c / 3): the whole number nearest to c / 3 (thirds never tie). */
  function RoundThird(c: int): (r: int)
    ensures 3 * r - 1 <= c <= 3 * r + 1
    decreases if c < 0 then -c else c
  {
    if -1 <= c <= 1 then 0
    else if c > 1 then RoundThird(c - 3) + 1
    else RoundThird(c + 3) - 1
  }

  /** RoundThird is Math.round's floor(c / 3 + 1/2). */
  lemma RoundThirdIsMathRound(c: int)
    ensures RoundThird(c) == (2 * c + 3) / 6
  {
    var r := RoundThird(c);
    assert 6 * r <= 2 * c + 3 < 6 * r + 6;
  }

  /** The 32 empty slots a staff starts from. */
  function BlankSlots(): (slots: seq<TabColumn>)
    ensures |slots| == SlotCount && forall c :: 0 <= c < SlotCount ==> slots[c] == BlankColumn()
  {
    seq(SlotCount, _ => BlankColumn())
  }

  /** Every slot holds one cell per string. */
  predicate SlotsShape(slots: seq<TabColumn>) {
    |slots| == SlotCount && forall c :: 0 <= c < |slots| ==> |slots[c].notes| == StringCount
  }

  /** The tempo of slot c set to v. */
  function SetSlotBpm(slots: seq<TabColumn>, c: nat, v: int): seq<TabColumn>
    requires c < |slots|
  {
    slots[c := slots[c].(bpm := Some(v))]
  }

  /** The cell of string s in slot c set to unit. */
  function SetSlotNote(slots: seq<TabColumn>, c: nat, s: nat, unit: FretValue): seq<TabColumn>
    requires c < |slots| && s < |slots[c].notes|
  {
    slots[c := slots[c].(notes := slots[c].notes[s := unit])]
  }

  // ---------------------------------------------------------------- tempo markers

  /** A tempo marker starts at index p: "[BPM:", one or more digits, then "]". */
  predicate MarkerAt(line: string, p: nat) {
    p + 5 <= |line|
    && line[p] == '[' && line[p + 1] == 'B' && line[p + 2] == 'P' && line[p + 3] == 'M' && line[p + 4] == ':'
    && DigitRunEnd(line, p + 5) > p + 5
    && DigitRunEnd(line, p + 5) < |line| && line[DigitRunEnd(line, p + 5)] == ']'
  }

  /** Where the search resumes after the marker at p: just past its ']'. */
  function MarkerEnd(line: string, p: nat): (e: nat)
    requires MarkerAt(line, p)
    ensures p + 7 <= e <= |line|
  {
    DigitRunEnd(line, p + 5) + 1
  }

  /** The number a marker carries: parseInt of its digits. */
  function MarkerValue(line: string, p: nat): nat
    requires MarkerAt(line, p)
  {
    DigitsValue(line[p + 5..DigitRunEnd(line, p + 5)])
  }

  /** The first marker at or after `from`, as the global regular expression's exec finds it. */
  function NextMarker(line: string, from: nat): (m: Option<nat>)
    ensures m.Some? ==> from <= m.value && MarkerAt(line, m.value)
    decreases |line| - from
  {
    if from + 5 > |line| then None
    else if MarkerAt(line, from) then Some(from)
    else NextMarker(line, from + 1)
  }

  /** No marker starts between `from` and the one NextMarker finds. */
  lemma {:induction false} NextMarkerIsFirst(line: string, from: nat, p: nat)
    requires from <= p && MarkerAt(line, p)
    ensures NextMarker(line, from).Some? && NextMarker(line, from).value <= p
    decreases |line| - from
  {
    if from + 5 <= |line| && !MarkerAt(line, from) {
      NextMarkerIsFirst(line, from + 1, p);
    }
  }

  /** A marker found on a tempo line: its index and its number. */
  datatype Marker = Marker(index: nat, value: nat)

  /** Every marker the exec loop finds from `from` on, in order. */
  function Markers(line: string, from: nat): (ms: seq<Marker>)
    requires from <= |line|
    decreases |line| - from
  {
    match NextMarker(line, from)
    case None => []
    case Some(p) => [Marker(p, MarkerValue(line, p))] + Markers(line, MarkerEnd(line, p))
  }

  /** round((index - 4) / 3): the slot a marker belongs to, four characters being the label. */
  function MarkerSlot(m: Marker): int {
    RoundThird(m.index as int - 4)
  }

  /** A marker sets the tempo of its slot when that slot exists. */
  function PlaceMarker(slots: seq<TabColumn>, m: Marker): seq<TabColumn> {
    if 0 <= MarkerSlot(m) < |slots| then SetSlotBpm(slots, MarkerSlot(m), m.value) else slots
  }

  /** The markers placed one after the other. */
  function PlaceMarkers(slots: seq<TabColumn>, ms: seq<Marker>): (out: seq<TabColumn>)
    ensures |out| == |slots|
    ensures forall c :: 0 <= c < |slots| ==> out[c].notes == slots[c].notes
  {
    if ms == [] then slots else PlaceMarker(PlaceMarkers(slots, ms[..|ms| - 1]), ms[|ms| - 1])
  }

  // ---------------------------------------------------------------- string lines

  /** What lies between the first and the last bar of a string line (substring semantics). */
  function Layer(line: string): string {
    Substring(line, IndexOf(line, "|", 0) + 1, LastIndexOf(line, '|'))
  }

  /** Characters skipped between notes. */
  predicate IsGap(c: char) { c == '-' || c == ' ' || c == '|' }

  /** The end of the note unit starting at x: a bracketed harmonic runs to its '>' inclusive
      (or to the end), anything else to the next gap. */
  function UnitEnd(layer: string, x: nat): (e: nat)
    requires x < |layer| && !IsGap(layer[x])
    ensures x < e <= |layer|
    ensures layer[x] != '<' ==> forall i :: x <= i < e ==> !IsGap(layer[i])
    ensures layer[x] != '<' && e < |layer| ==> IsGap(layer[e])
  {
    if layer[x] == '<' then
      var e := RunEnd(layer, x, c => c != '>');
      if e < |layer| then e + 1 else e
    else RunEnd(layer, x, c => !IsGap(c))
  }

  /** A note unit read from a layer: where it starts and its text. */
  datatype NoteUnit = NoteUnit(start: nat, text: string)

  /** The note units of a layer from x on, in order. */
  function Units(layer: string, x: nat): (us: seq<NoteUnit>)
    requires x <= |layer|
    decreases |layer| - x
  {
    if x == |layer| then []
    else if IsGap(layer[x]) then Units(layer, x + 1)
    else [NoteUnit(x, layer[x..UnitEnd(layer, x)])] + Units(layer, UnitEnd(layer, x))
  }

  /** A unit goes to slot round(start / 3) of string s when that slot exists. */
  function PlaceUnit(slots: seq<TabColumn>, s: nat, u: NoteUnit): (out: seq<TabColumn>)
    requires SlotsShape(slots) && s < StringCount
    ensures SlotsShape(out)
  {
    var c := RoundThird(u.start);
    if 0 <= c < SlotCount then SetSlotNote(slots, c, s, u.text) else slots
  }

  /** The units of string s placed one after the other. */
  function PlaceUnits(slots: seq<TabColumn>, s: nat, us: seq<NoteUnit>): (out: seq<TabColumn>)
    requires SlotsShape(slots) && s < StringCount
    ensures SlotsShape(out)
    ensures forall c :: 0 <= c < |slots| ==> out[c].bpm == slots[c].bpm
    ensures forall c, t :: 0 <= c < |slots| && 0 <= t < StringCount && t != s ==> out[c].notes[t] == slots[c].notes[t]
  {
    if us == [] then slots else PlaceUnit(PlaceUnits(slots, s, us[..|us| - 1]), s, us[|us| - 1])
  }

  /** The strings 0..n-1 of a staff scanned into the slots. */
  function ScanStrings(staffLines: seq<string>, n: nat, slots: seq<TabColumn>): (out: seq<TabColumn>)
    requires n <= |staffLines| && n <= StringCount && SlotsShape(slots)
    ensures SlotsShape(out)
    ensures forall c :: 0 <= c < |slots| ==> out[c].bpm == slots[c].bpm
  {
    if n == 0 then slots
    else PlaceUnits(ScanStrings(staffLines, n - 1, slots), n - 1, Units(Layer(staffLines[n - 1]), 0))
  }

  /** One staff: markers from the tempo line, then the six string lines. */
  function ParseStaff(tempoLine: string, staffLines: seq<string>): (row: TabRow)
    requires |staffLines| == StringCount
    ensures RowShape(row, SlotCount)
  {
    TabRow(ScanStrings(staffLines, StringCount, PlaceMarkers(BlankSlots(), Markers(tempoLine, 0))))
  }

  /** The staff loop from line i: a line containing "E |" opens a staff of six lines and the
      scan resumes after them. */
  function ImportRows(lines: seq<string>, i: nat): (r: Result<seq<TabRow>, ImportError>)
    requires i <= |lines|
    ensures r.Success? ==> forall k :: 0 <= k < |r.value| ==> RowShape(r.value[k], SlotCount)
    decreases |lines| - i
  {
    if i == |lines| then Success([])
    else if !Contains(lines[i], "E |") then ImportRows(lines, i + 1)
    else if i + StringCount > |lines| then Failure(TruncatedStaff)
    else
      var row := ParseStaff(if i == 0 then "" else lines[i - 1], lines[i..i + StringCount]);
      match ImportRows(lines, i + StringCount)
      case Success(rest) => Success([row] + rest)
      case Failure(e) => Failure(e)
  }

  /** The title, artist, tempo and meter the header gives, with the importer's defaults. */
  function ImportHeader(lines: seq<string>): (string, string, int, int)
    requires |lines| >= 1
  {
    var (title, artist) := TitleAndArtist(lines[0]);
    var meta := FindTempoLine(lines);
    var bpm := if meta.Some? && TagNumber(meta.value, "Tempo:", 0).Some? then TagNumber(meta.value, "Tempo:", 0).value else 120;
    var ts := if meta.Some? && TagNumber(meta.value, "Meter:", 0).Some? then TagNumber(meta.value, "Meter:", 0).value else 4;
    (title, artist, bpm, ts)
  }

  /** parseAsciiToTab. */
  function ImportTab(text: string): (r: Result<ImportedTab, ImportError>)
    ensures r.Success? ==> forall k :: 0 <= k < |r.value.rows| ==> RowShape(r.value.rows[k], SlotCount)
  {
    var lines := Lines(text);
    var (title, artist, bpm, ts) := ImportHeader(lines);
    match ImportRows(lines, 0)
    case Success(rows) => Success(ImportedTab(title, artist, bpm, ts, rows))
    case Failure(e) => Failure(e)
  }

  // ---------------------------------------------------------------- the imperative importer

  /** The marker loop: each pass finds the next tempo marker on the tempo line and sets the
      tempo of the slot under it, until no marker is left. */
  method ReadMarkers(tempoLine: string, slots: array<TabColumn>)
    modifies slots
    ensures slots[..] == PlaceMarkers(old(slots[..]), Markers(tempoLine, 0))
  {
    var lastIndex := 0;
    ghost var found: seq<Marker> := [];
    var match_ := NextMarker(tempoLine, lastIndex);
    while match_.Some?
      invariant lastIndex <= |tempoLine| && match_ == NextMarker(tempoLine, lastIndex)
      invariant Markers(tempoLine, 0) == found + Markers(tempoLine, lastIndex)
      invariant slots[..] == PlaceMarkers(old(slots[..]), found)
      decreases |tempoLine| - lastIndex
    {
      var index := match_.value;
      var value := MarkerValue(tempoLine, index);
      var slotIdx := RoundThird(index as int - 4);
      ghost var m := Marker(index, value);
      MarkersStep(tempoLine, lastIndex, found);
      PlaceMarkersSnoc(old(slots[..]), found, m);
      if slotIdx >= 0 && slotIdx < slots.Length {
        slots[slotIdx] := slots[slotIdx].(bpm := Some(value));
      }
      found := found + [m];
      lastIndex := MarkerEnd(tempoLine, index);
      match_ := NextMarker(tempoLine, lastIndex);
    }
    assert found + [] == found;
  }

  lemma MarkersStep(line: string, from: nat, found: seq<Marker>)
    requires from <= |line| && NextMarker(line, from).Some?
    ensures var p := NextMarker(line, from).value;
      found + Markers(line, from) == (found + [Marker(p, MarkerValue(line, p))]) + Markers(line, MarkerEnd(line, p))
  {
    var p := NextMarker(line, from).value;
    assert Markers(line, from) == [Marker(p, MarkerValue(line, p))] + Markers(line, MarkerEnd(line, p));
  }

  lemma PlaceMarkersSnoc(slots: seq<TabColumn>, ms: seq<Marker>, m: Marker)
    ensures PlaceMarkers(slots, ms + [m]) == PlaceMarker(PlaceMarkers(slots, ms), m)
  {
    assert (ms + [m])[..|ms|] == ms;
  }

  /** The scan of one string's layer into the slots. */
  method ReadString(layer: string, sIdx: nat, slots: array<TabColumn>)
    requires SlotsShape(slots[..]) && sIdx < StringCount
    modifies slots
    ensures SlotsShape(old(slots[..]))
    ensures slots[..] == PlaceUnits(old(slots[..]), sIdx, Units(layer, 0))
  {
    var x := 0;
    ghost var done: seq<NoteUnit> := [];
    while x < |layer|
      invariant 0 <= x <= |layer| && SlotsShape(slots[..])
      invariant Units(layer, 0) == done + Units(layer, x)
      invariant slots[..] == PlaceUnits(old(slots[..]), sIdx, done)
      decreases |layer| - x
    {
      if IsGap(layer[x]) {
        x := x + 1;
        continue;
      }
      var startPos := x;
      x := ReadUnit(layer, startPos);
      var noteUnit := layer[startPos..x];
      var slotIdx := RoundThird(startPos);
      ghost var u := NoteUnit(startPos, noteUnit);
      UnitsStep(layer, startPos, done);
      PlaceUnitsSnoc(old(slots[..]), sIdx, done, u);
      if slotIdx >= 0 && slotIdx < slots.Length {
        slots[slotIdx] := slots[slotIdx].(notes := slots[slotIdx].notes[sIdx := noteUnit]);
      }
      done := done + [u];
    }
    assert done + [] == done;
  }

  /** The inner scan of ReadString: a bracketed harmonic up to and including its '>', any
      other unit up to the next gap. */
  method ReadUnit(layer: string, startPos: nat) returns (x: nat)
    requires startPos < |layer| && !IsGap(layer[startPos])
    ensures x == UnitEnd(layer, startPos)
  {
    x := startPos;
    if layer[x] == '<' {
      while x < |layer| && layer[x] != '>'
        invariant startPos <= x <= |layer|
        invariant forall i :: startPos <= i < x ==> layer[i] != '>'
        decreases |layer| - x
      {
        x := x + 1;
      }
      RunEndUnique(layer, startPos, c => c != '>', x);
      if x < |layer| && layer[x] == '>' {
        x := x + 1;
      }
    } else {
      while x < |layer| && !IsGap(layer[x])
        invariant startPos <= x <= |layer|
        invariant forall i :: startPos <= i < x ==> !IsGap(layer[i])
        decreases |layer| - x
      {
        x := x + 1;
      }
      RunEndUnique(layer, startPos, c => !IsGap(c), x);
    }
  }

  lemma UnitsStep(layer: string, x: nat, done: seq<NoteUnit>)
    requires x < |layer| && !IsGap(layer[x])
    ensures done + Units(layer, x)
         == (done + [NoteUnit(x, layer[x..UnitEnd(layer, x)])]) + Units(layer, UnitEnd(layer, x))
  {
  }

  lemma PlaceUnitsSnoc(slots: seq<TabColumn>, s: nat, us: seq<NoteUnit>, u: NoteUnit)
    requires SlotsShape(slots) && s < StringCount
    ensures PlaceUnits(slots, s, us + [u]) == PlaceUnit(PlaceUnits(slots, s, us), s, u)
  {
    assert (us + [u])[..|us|] == us;
  }

  /** One staff block: 32 fresh slots, the markers, then each string's layer. */
  method ReadStaff(tempoLine: string, staffLines: seq<string>) returns (row: TabRow)
    requires |staffLines| == StringCount
    ensures row == ParseStaff(tempoLine, staffLines)
  {
    var slots := new TabColumn[SlotCount](_ => BlankColumn());
    assert slots[..] == BlankSlots();
    ReadMarkers(tempoLine, slots);
    var sIdx := 0;
    while sIdx < StringCount
      invariant 0 <= sIdx <= StringCount
      invariant slots[..] == ScanStrings(staffLines, sIdx, PlaceMarkers(BlankSlots(), Markers(tempoLine, 0)))
    {
      ReadString(Layer(staffLines[sIdx]), sIdx, slots);
      sIdx := sIdx + 1;
    }
    row := TabRow(slots[..]);
  }

  /** The staff loop: a staff found at i is parsed and the index jumps past its six lines. */
  method ReadRows(lines: seq<string>) returns (r: Result<seq<TabRow>, ImportError>)
    ensures r == ImportRows(lines, 0)
  {
    var resultRows: seq<TabRow> := [];
    PrependNothing(ImportRows(lines, 0));
    var i := 0;
    while i < |lines|
      invariant 0 <= i <= |lines|
      invariant ImportRows(lines, 0) == Prepend(resultRows, ImportRows(lines, i))
    {
      if Contains(lines[i], "E |") {
        var tempoLine := if i == 0 then "" else lines[i - 1];
        if i + StringCount > |lines| {
          // the source reads the missing string line and throws
          return Failure(TruncatedStaff);
        }
        var row := ReadStaff(tempoLine, lines[i..i + StringCount]);
        PrependAssoc(resultRows, [row], ImportRows(lines, i + StringCount));
        resultRows := resultRows + [row];
        i := i + 5;
      }
      i := i + 1;
    }
    assert resultRows + [] == resultRows;
    return Success(resultRows);
  }

  /**
   * parseAsciiToTab: the header fields with their defaults, then the staff
   * loop. The result is exactly ImportTab(text).
   */
  method ParseAsciiToTab(text: string) returns (r: Result<ImportedTab, ImportError>)
    ensures r == ImportTab(text)
  {
    var lines := Lines(text);
    var (title, artist) := TitleAndArtist(lines[0]);
    var bpm := 120;
    var timeSignature := 4;
    var globalMeta := FindTempoLine(lines);
    if globalMeta.Some? {
      var bMatch := TagNumber(globalMeta.value, "Tempo:", 0);
      var mMatch := TagNumber(globalMeta.value, "Meter:", 0);
      if bMatch.Some? { bpm := bMatch.value; }
      if mMatch.Some? { timeSignature := mMatch.value; }
    }
    assert (title, artist, bpm, timeSignature) == ImportHeader(lines);
    var rows := ReadRows(lines);
    if rows.Failure? {
      return Failure(rows.error);
    }
    return Success(ImportedTab(title, artist, bpm, timeSignature, rows.value));
  }

  /** Rows found so far, in front of the outcome of the rest of the scan. */
  function Prepend(rows: seq<TabRow>, rest: Result<seq<TabRow>, ImportError>): Result<seq<TabRow>, ImportError> {
    match rest
    case Success(more) => Success(rows + more)
    case Failure(e) => Failure(e)
  }

  lemma PrependNothing(rest: Result<seq<TabRow>, ImportError>)
    ensures Prepend([], rest) == rest
  {
    if rest.Success? {
      assert [] + rest.value == rest.value;
    }
  }

  lemma PrependAssoc(a: seq<TabRow>, b: seq<TabRow>, rest: Result<seq<TabRow>, ImportError>)
    ensures Prepend(a, Prepend(b, rest)) == Prepend(a + b, rest)
  {
    if rest.Success? {
      assert a + (b + rest.value) == (a + b) + rest.value;
    }
  }
}
