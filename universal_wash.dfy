/**
 * The universal wash: quantises loosely formatted ASCII tab onto the 32-slot
 * grid. Lines that look like string lines are collected, taken six at a time,
 * and every note token is placed in the slot proportional to its character
 * position within the block's longest layer.
 */
module UniversalWash {
  import opened Wrappers
  import opened JsText
  import opened TabTypes

  /** Slots per washed staff. */
  const GridSlots: nat := 32

  /** Layers shorter than this make the block worthless. */
  const MinLayerLength: nat := 10

  // ---------------------------------------------------------------- sanitising lines

  /** The text with every carriage return removed. */
  function RemoveCarriageReturns(text: string): (r: string)
    ensures forall i :: 0 <= i < |r| ==> r[i] != '\r'
    ensures (forall i :: 0 <= i < |text| ==> text[i] != '\r') ==> r == text
  {
    if text == [] then []
    else (if text[0] == '\r' then [] else [text[0]]) + RemoveCarriageReturns(text[1..])
  }

  /** The elements of `lines` that `keep` accepts, in order. */
  function Filter(lines: seq<string>, keep: string -> bool): (r: seq<string>)
    ensures |r| <= |lines|
    ensures forall k :: 0 <= k < |r| ==> keep(r[k]) && r[k] in lines
    ensures forall k :: 0 <= k < |lines| && keep(lines[k]) ==> lines[k] in r
  {
    if lines == [] then []
    else
      var last := lines[|lines| - 1];
      assert forall k :: 0 <= k < |lines| - 1 ==> lines[k] == lines[..|lines| - 1][k];
      Filter(lines[..|lines| - 1], keep) + (if keep(last) then [last] else [])
  }
  /** Filtering a concatenation filters each part in turn. */
  lemma {:induction false} FilterAppend(a: seq<string>, b: seq<string>, keep: string -> bool)
    ensures Filter(a + b, keep) == Filter(a, keep) + Filter(b, keep)
    decreases |b|
  {
    if b != [] {
      var b' := b[..|b| - 1];
      assert (a + b)[..|a + b| - 1] == a + b';
      assert (a + b)[|a + b| - 1] == b[|b| - 1];
      FilterAppend(a, b', keep);
    } else {
      assert a + b == a;
    }
  }

  /** A single line is kept exactly when it passes the test. */
  lemma FilterSingle(x: string, keep: string -> bool)
    ensures Filter([x], keep) == if keep(x) then [x] else []
  {
    assert [x][..0] == [];
  }


  /** A non-empty line of only digits, white space and bars: a rhythm-count line such as "1 2 3 4". */
  predicate IsCountLine(t: string) {
    |t| > 0 && forall i :: 0 <= i < |t| ==> IsDigit(t[i]) || IsSpace(t[i]) || t[i] == '|'
  }

  /** The tactical filter: blank lines, count lines and palm-mute / harmonic legends go. */
  predicate KeepLine(l: string) {
    var t := Trim(l);
    t != [] && !IsCountLine(t) && !StartsWith(t, "PM") && !StartsWith(t, "PH")
  }

  /** The sanitised lines: no carriage returns, split on newlines, right-trimmed, filtered. */
  function WashLines(text: string): (lines: seq<string>)
    ensures forall k :: 0 <= k < |lines| ==> KeepLine(lines[k])
  {
    var parts := Split(RemoveCarriageReturns(text), '\n');
    Filter(seq(|parts|, k requires 0 <= k < |parts| => TrimEnd(parts[k])), KeepLine)
  }

  // ---------------------------------------------------------------- string lines

  /** A tuning letter in front of a string line: a note letter in either case, or a sharp sign. */
  predicate IsTuningLetter(c: char) { 'a' <= c <= 'g' || 'A' <= c <= 'G' || c == '#' }

  /** A character a string line's body may hold: dashes, digits, white space, bars, slides,
      technique letters, harmonic brackets, parentheses, vibrato and dots. */
  predicate IsStaffChar(c: char) {
    c == '-' || IsDigit(c) || IsSpace(c) || c == '|' || c == '/' || c == '\\' || c == 'h' || c == 'p'
    || c == 'm' || c == '<' || c == '>' || c == '(' || c == ')' || c == '~' || c == 't' || c == '.'
  }

  /**
   * The string-line pattern: an optional tuning letter, white space, an optional bar,
   * then at least ten staff characters. White space and the bar are staff
   * characters themselves, so the pattern matches exactly when ten
   * staff characters follow the start of the line, or follow a leading tuning
   * letter (StringLineIsPattern).
   */
  predicate IsStringLine(l: string) {
    RunEnd(l, 0, IsStaffChar) >= MinLayerLength
    || (|l| > 0 && IsTuningLetter(l[0]) && RunEnd(l, 1, IsStaffChar) >= MinLayerLength + 1)
  }

  /** The pattern taken piece by piece: a tuning letter up to p0 (p0 is 0 or 1), white space up
      to p1, an optional bar up to p2, then at least ten staff characters. */
  predicate PatternMatch(l: string, p0: nat, p1: nat, p2: nat) {
    && p0 <= 1 && p0 <= p1 <= p2 <= p1 + 1 && p2 + MinLayerLength <= |l|
    && (p0 == 1 ==> IsTuningLetter(l[0]))
    && (forall i :: p0 <= i < p1 ==> IsSpace(l[i]))
    && (p2 == p1 + 1 ==> l[p1] == '|')
    && (forall i :: p2 <= i < p2 + MinLayerLength ==> IsStaffChar(l[i]))
  }

  /** IsStringLine is the regular expression's test. */
  lemma StringLineIsPattern(l: string)
    ensures IsStringLine(l) <==> exists p0: nat, p1: nat, p2: nat :: PatternMatch(l, p0, p1, p2)
  {
    if RunEnd(l, 0, IsStaffChar) >= MinLayerLength {
      assert PatternMatch(l, 0, 0, 0);
    } else if |l| > 0 && IsTuningLetter(l[0]) && RunEnd(l, 1, IsStaffChar) >= MinLayerLength + 1 {
      assert PatternMatch(l, 1, 1, 1);
    }
    if exists p0: nat, p1: nat, p2: nat :: PatternMatch(l, p0, p1, p2) {
      var p0: nat, p1: nat, p2: nat :| PatternMatch(l, p0, p1, p2);
      assert forall i :: p0 <= i < p2 + MinLayerLength ==> IsStaffChar(l[i]);
      RunEndCovers(l, p0, IsStaffChar, p2 + MinLayerLength);
    }
  }

  /** A run of `inRun` characters from `from` to `e` ends no earlier than `e`. */
  lemma RunEndCovers(s: string, from: nat, inRun: char -> bool, e: nat)
    requires from <= e <= |s| && forall i :: from <= i < e ==> inRun(s[i])
    ensures RunEnd(s, from, inRun) >= e
  {
  }

  // ---------------------------------------------------------------- layers

  /** The index of the first bar or dash at or after `from`, or -1 when there is none. */
  function FirstBarOrDash(l: string, from: nat): (r: int)
    ensures r == -1 || (from <= r < |l| && (l[r] == '|' || l[r] == '-'))
    ensures forall i :: from <= i < |l| && (r == -1 || i < r) ==> l[i] != '|' && l[i] != '-'
    decreases |l| - from
  {
    if from >= |l| then -1
    else if l[from] == '|' || l[from] == '-' then from
    else FirstBarOrDash(l, from + 1)
  }

  /** The normalised layer: what follows the first bar or dash (the whole line when there is
      none), without one trailing bar. */
  function WashLayer(l: string): (layer: string)
    ensures |layer| <= |l|
  {
    var f := FirstBarOrDash(l, 0);
    var content := if f != -1 then l[f + 1..] else l;
    if EndsWith(content, "|") then content[..|content| - 1] else content
  }

  /** WashLayer strips the prefix up to the first bar or dash and one trailing bar, nothing else. */
  lemma WashLayerShape(l: string)
    ensures var f := FirstBarOrDash(l, 0);
            var content := if f != -1 then l[f + 1..] else l;
            && (forall i :: 0 <= i < |l| && (f == -1 || i < f) ==> l[i] != '|' && l[i] != '-')
            && (|content| > 0 && content[|content| - 1] == '|' ==> WashLayer(l) + "|" == content)
            && (|content| == 0 || content[|content| - 1] != '|' ==> WashLayer(l) == content)
  {
  }

  /** The length of the longest layer of a non-empty block. */
  function MaxLength(layers: seq<string>): (m: nat)
    requires |layers| > 0
    ensures forall k :: 0 <= k < |layers| ==> |layers[k]| <= m
    ensures exists k :: 0 <= k < |layers| && |layers[k]| == m
  {
    if |layers| == 1 then |layers[0]|
    else
      var rest := MaxLength(layers[1..]);
      assert forall k :: 1 <= k < |layers| ==> layers[k] == layers[1..][k - 1];
      if |layers[0]| >= rest then |layers[0]| else rest
  }

  // ---------------------------------------------------------------- tokens

  /** A character that starts a note token: a digit, '<', a dead-note x, or a technique mark. */
  predicate IsTokenStart(c: char) {
    IsDigit(c) || c == '<' || c == 'x' || c == 'X' || c == 'h' || c == 'p' || c == 'm' || c == '/' || c == '~' || c == 't'
  }

  /** A character that continues a token not opened by '<': a digit, a technique mark, a dot or x. */
  predicate IsTokenTail(c: char) {
    IsDigit(c) || c == 'h' || c == 'p' || c == 'm' || c == '/' || c == '~' || c == 't' || c == '.' || c == 'x' || c == 'X'
  }

  /** Where the scan resumes after the token at x: past the '>' of a harmonic (one past the end
      when it is unclosed), or at the end of the tail run. */
  function TokenEnd(line: string, x: nat): (e: nat)
    requires x < |line| && IsTokenStart(line[x])
    ensures x < e <= |line| + 1
  {
    if line[x] == '<' then RunEnd(line, x + 1, c => c != '>') + 1
    else RunEnd(line, x + 1, IsTokenTail)
  }

  /** The note the token at x carries: a harmonic always gets its closing '>', even when the
      line lacks one. */
  function TokenText(line: string, x: nat): (note: string)
    requires x < |line| && IsTokenStart(line[x])
    ensures |note| > 0 && note[0] == line[x]
    ensures line[x] == '<' ==> note[|note| - 1] == '>'
    ensures line[x] != '<' ==> forall i :: 1 <= i < |note| ==> IsTokenTail(note[i])
  {
    if line[x] == '<' then line[x..RunEnd(line, x + 1, c => c != '>')] + ">"
    else line[x..TokenEnd(line, x)]
  }

  /** A token read from a layer: where it starts and its note. */
  datatype WashToken = WashToken(start: nat, text: string)

  /** The tokens of a layer from x on, in order. */
  function Tokens(line: string, x: nat): (ts: seq<WashToken>)
    decreases |line| + 1 - x
  {
    if x >= |line| then []
    else if IsTokenStart(line[x]) then [WashToken(x, TokenText(line, x))] + Tokens(line, TokenEnd(line, x))
    else Tokens(line, x + 1)
  }

  /** Every token lies inside the layer from x on, starts at a token character and carries the
      note read there. */
  predicate TokensInLayer(line: string, x: nat, ts: seq<WashToken>) {
    forall k :: 0 <= k < |ts| ==>
      x <= ts[k].start < |line| && IsTokenStart(line[ts[k].start]) && ts[k].text == TokenText(line, ts[k].start)
  }

  /** Token starts strictly increase. */
  predicate StartsIncrease(ts: seq<WashToken>) {
    forall k :: 0 < k < |ts| ==> ts[k - 1].start < ts[k].start
  }

  /** Tokens lie inside the layer and their starts strictly increase: the scan position only
      moves forward. */
  lemma {:induction false} TokensAdvance(line: string, x: nat)
    ensures TokensInLayer(line, x, Tokens(line, x)) && StartsIncrease(Tokens(line, x))
    decreases |line| + 1 - x
  {
    if x < |line| {
      if IsTokenStart(line[x]) {
        var e := TokenEnd(line, x);
        TokensAdvance(line, e);
        var rest := Tokens(line, e);
        var ts := [WashToken(x, TokenText(line, x))] + rest;
        assert Tokens(line, x) == ts;
        assert forall k :: 1 <= k < |ts| ==> ts[k] == rest[k - 1];
        assert TokensInLayer(line, x, ts);
      } else {
        TokensAdvance(line, x + 1);
        assert Tokens(line, x) == Tokens(line, x + 1);
      }
    }
  }

  /** floor(n / m) for a positive m: the q with q * m <= n < (q + 1) * m. */
  function FloorDiv(n: nat, m: nat): (q: nat)
    requires m > 0
    ensures q * m <= n < q * m + m
    decreases n
  {
    if n < m then 0 else 1 + FloorDiv(n - m, m)
  }

  /** FloorDiv never decreases as its numerator grows. */
  lemma {:induction false} FloorDivMonotone(a: nat, b: nat, m: nat)
    requires m > 0 && a <= b
    ensures FloorDiv(a, m) <= FloorDiv(b, m)
    decreases a
  {
    if a >= m {
      FloorDivMonotone(a - m, b - m, m);
    }
  }

  /** The slot of position x: x scaled from 0..maxLength to 0..32, rounded down and capped at
      31, computed as floor(32 x / maxLength) in integers. */
  function WashSlot(x: nat, maxLength: nat): (slot: nat)
    requires maxLength > 0
    ensures slot < GridSlots
  {
    var q := FloorDiv(32 * x, maxLength);
    if q < GridSlots - 1 then q else GridSlots - 1
  }

  /** Slots never go backwards along a layer. */
  lemma WashSlotMonotone(x1: nat, x2: nat, maxLength: nat)
    requires maxLength > 0 && x1 <= x2
    ensures WashSlot(x1, maxLength) <= WashSlot(x2, maxLength)
  {
    FloorDivMonotone(32 * x1, 32 * x2, maxLength);
  }

  /** Positions within the longest layer spread over the whole grid: position x of a layer as
      long as the longest lands in slot floor(32 x / maxLength), so x < maxLength stays below 32. */
  lemma WashSlotInsideLayer(x: nat, maxLength: nat)
    requires 0 < maxLength && x < maxLength
    ensures WashSlot(x, maxLength) == FloorDiv(32 * x, maxLength)
  {
  }

  // ---------------------------------------------------------------- quantising

  /** The 32 empty slots a block starts from. */
  function BlankGrid(): (slots: seq<TabColumn>)
    ensures |slots| == GridSlots && forall c :: 0 <= c < GridSlots ==> slots[c] == BlankColumn()
  {
    seq(GridSlots, _ => BlankColumn())
  }

  /** Every slot holds one cell per string and no tempo. */
  predicate GridShape(slots: seq<TabColumn>) {
    |slots| == GridSlots && forall c :: 0 <= c < |slots| ==> |slots[c].notes| == StringCount && slots[c].bpm.None?
  }

  /** A token overwrites the cell of string s in its slot. */
  function PlaceToken(slots: seq<TabColumn>, s: nat, maxLength: nat, t: WashToken): (out: seq<TabColumn>)
    requires GridShape(slots) && s < StringCount && maxLength > 0
    ensures GridShape(out)
  {
    var c := WashSlot(t.start, maxLength);
    slots[c := slots[c].(notes := slots[c].notes[s := t.text])]
  }

  /** The tokens of string s placed one after the other. */
  function PlaceTokens(slots: seq<TabColumn>, s: nat, maxLength: nat, ts: seq<WashToken>): (out: seq<TabColumn>)
    requires GridShape(slots) && s < StringCount && maxLength > 0
    ensures GridShape(out)
    ensures forall c, t :: 0 <= c < GridSlots && 0 <= t < StringCount && t != s ==> out[c].notes[t] == slots[c].notes[t]
  {
    if ts == [] then slots else PlaceToken(PlaceTokens(slots, s, maxLength, ts[..|ts| - 1]), s, maxLength, ts[|ts| - 1])
  }

  /** The last token placed in a slot is the one that stays there. */
  lemma LastTokenWins(slots: seq<TabColumn>, s: nat, maxLength: nat, ts: seq<WashToken>, k: nat)
    requires GridShape(slots) && s < StringCount && maxLength > 0 && k < |ts|
    requires forall j :: k < j < |ts| ==> WashSlot(ts[j].start, maxLength) != WashSlot(ts[k].start, maxLength)
    ensures PlaceTokens(slots, s, maxLength, ts)[WashSlot(ts[k].start, maxLength)].notes[s] == ts[k].text
    decreases |ts|
  {
    if k < |ts| - 1 {
      var prefix := ts[..|ts| - 1];
      assert prefix[k] == ts[k];
      assert forall j :: k < j < |prefix| ==> prefix[j] == ts[j];
      LastTokenWins(slots, s, maxLength, prefix, k);
    }
  }

  /** The strings 0..n-1 of a block quantised into the slots. */
  function QuantiseStrings(layers: seq<string>, n: nat, maxLength: nat): (out: seq<TabColumn>)
    requires n <= |layers| && n <= StringCount && maxLength > 0
    ensures GridShape(out)
  {
    if n == 0 then BlankGrid()
    else PlaceTokens(QuantiseStrings(layers, n - 1, maxLength), n - 1, maxLength, Tokens(layers[n - 1], 0))
  }

  /** The six normalised layers of a block. */
  function BlockLayers(block: seq<string>): (layers: seq<string>)
    requires |block| == StringCount
    ensures |layers| == StringCount && forall k :: 0 <= k < StringCount ==> layers[k] == WashLayer(block[k])
  {
    seq(StringCount, k requires 0 <= k < StringCount => WashLayer(block[k]))
  }

  /** A block gives one row, unless its longest layer is under ten characters. */
  function WashBlock(block: seq<string>): (rows: seq<TabRow>)
    requires |block| == StringCount
    ensures |rows| <= 1
    ensures |rows| == 1 <==> MaxLength(BlockLayers(block)) >= MinLayerLength
    ensures |rows| == 1 ==> RowShape(rows[0], GridSlots)
  {
    var layers := BlockLayers(block);
    var maxLength := MaxLength(layers);
    if maxLength < MinLayerLength then [] else [TabRow(QuantiseStrings(layers, StringCount, maxLength))]
  }

  /** The staff lines taken six at a time, in order; a shorter tail gives nothing. */
  function WashRows(staffLines: seq<string>): (rows: seq<TabRow>)
    decreases |staffLines|
  {
    if |staffLines| < StringCount then []
    else WashBlock(staffLines[..StringCount]) + WashRows(staffLines[StringCount..])
  }

  /** At most one row per six staff lines. */
  lemma {:induction false} WashRowsCount(staffLines: seq<string>)
    ensures |WashRows(staffLines)| <= |staffLines| / StringCount
    decreases |staffLines|
  {
    if |staffLines| >= StringCount {
      WashRowsCount(staffLines[StringCount..]);
    }
  }

  /** Every washed row has 32 columns of six cells. */
  lemma {:induction false} WashRowsShape(staffLines: seq<string>)
    ensures forall k :: 0 <= k < |WashRows(staffLines)| ==> RowShape(WashRows(staffLines)[k], GridSlots)
    decreases |staffLines|
  {
    if |staffLines| >= StringCount {
      var block := WashBlock(staffLines[..StringCount]);
      var rest := WashRows(staffLines[StringCount..]);
      WashRowsShape(staffLines[StringCount..]);
      ConcatIndex(block, rest);
    }
  }

  /** Indexing into a concatenation. */
  lemma ConcatIndex<T>(a: seq<T>, b: seq<T>)
    ensures forall k :: 0 <= k < |a| ==> (a + b)[k] == a[k]
    ensures forall k :: |a| <= k < |a| + |b| ==> (a + b)[k] == b[k - |a|]
  {
  }

  /** washDirtyAscii. */
  function Wash(text: string): (rows: seq<TabRow>)
    ensures |rows| <= |Filter(WashLines(text), IsStringLine)| / StringCount
    ensures forall k :: 0 <= k < |rows| ==> RowShape(rows[k], GridSlots)
  {
    var staffLines := Filter(WashLines(text), IsStringLine);
    WashRowsCount(staffLines);
    WashRowsShape(staffLines);
    WashRows(staffLines)
  }

  // ---------------------------------------------------------------- the imperative wash

  /** Keeps the lines that match the string-line pattern, in order. */
  method CollectStaffLines(lines: seq<string>) returns (rawStaffLines: seq<string>)
    ensures rawStaffLines == Filter(lines, IsStringLine)
  {
    rawStaffLines := [];
    var i := 0;
    while i < |lines|
      invariant 0 <= i <= |lines|
      invariant rawStaffLines == Filter(lines[..i], IsStringLine)
    {
      assert lines[..i + 1][..i] == lines[..i];
      if IsStringLine(lines[i]) {
        rawStaffLines := rawStaffLines + [lines[i]];
      }
      i := i + 1;
    }
    assert lines[..i] == lines;
  }

  /** The capture of one token: a harmonic through its '>' (appended when missing), otherwise
      the start character and its tail run. */
  method CaptureUnit(line: string, x: nat) returns (note: string, tempX: nat)
    requires x < |line| && IsTokenStart(line[x])
    ensures note == TokenText(line, x) && tempX == TokenEnd(line, x)
  {
    note := [line[x]];
    tempX := x + 1;
    if line[x] == '<' {
      while tempX < |line| && line[tempX] != '>'
        invariant x + 1 <= tempX <= |line| && note == line[x..tempX]
        invariant forall i :: x + 1 <= i < tempX ==> line[i] != '>'
        decreases |line| - tempX
      {
        note := note + [line[tempX]];
        tempX := tempX + 1;
      }
      RunEndUnique(line, x + 1, c => c != '>', tempX);
      note := note + ">";
      tempX := tempX + 1;
    } else {
      while tempX < |line| && IsTokenTail(line[tempX])
        invariant x + 1 <= tempX <= |line| && note == line[x..tempX]
        invariant forall i :: x + 1 <= i < tempX ==> IsTokenTail(line[i])
        decreases |line| - tempX
      {
        note := note + [line[tempX]];
        tempX := tempX + 1;
      }
      RunEndUnique(line, x + 1, IsTokenTail, tempX);
    }
  }

  /** The scan of one layer: every token is snapped to its proportional slot of string sIdx. */
  method WashString(line: string, sIdx: nat, maxLength: nat, columns: array<TabColumn>)
    requires GridShape(columns[..]) && sIdx < StringCount && maxLength > 0
    modifies columns
    ensures columns[..] == PlaceTokens(old(columns[..]), sIdx, maxLength, Tokens(line, 0))
  {
    var x := 0;
    ghost var done: seq<WashToken> := [];
    while x < |line|
      invariant x <= |line| + 1 && GridShape(columns[..])
      invariant Tokens(line, 0) == done + Tokens(line, x)
      invariant columns[..] == PlaceTokens(old(columns[..]), sIdx, maxLength, done)
      decreases |line| + 1 - x
    {
      if IsTokenStart(line[x]) {
        var slotIndex := WashSlot(x, maxLength);
        var note, tempX := CaptureUnit(line, x);
        ghost var t := WashToken(x, note);
        TokensStep(line, x, done);
        PlaceTokensSnoc(old(columns[..]), sIdx, maxLength, done, t);
        columns[slotIndex] := columns[slotIndex].(notes := columns[slotIndex].notes[sIdx := note]);
        done := done + [t];
        x := tempX;
      } else {
        x := x + 1;
      }
    }
    assert done + [] == done;
  }

  lemma TokensStep(line: string, x: nat, done: seq<WashToken>)
    requires x < |line| && IsTokenStart(line[x])
    ensures done + Tokens(line, x)
         == (done + [WashToken(x, TokenText(line, x))]) + Tokens(line, TokenEnd(line, x))
  {
  }

  lemma PlaceTokensSnoc(slots: seq<TabColumn>, s: nat, maxLength: nat, ts: seq<WashToken>, t: WashToken)
    requires GridShape(slots) && s < StringCount && maxLength > 0
    ensures PlaceTokens(slots, s, maxLength, ts + [t]) == PlaceToken(PlaceTokens(slots, s, maxLength, ts), s, maxLength, t)
  {
    assert (ts + [t])[..|ts|] == ts;
  }

  /** One block: 32 fresh columns, then each layer's tokens. */
  method QuantiseBlock(layers: seq<string>, maxLength: nat) returns (row: TabRow)
    requires |layers| == StringCount && maxLength > 0
    ensures row == TabRow(QuantiseStrings(layers, StringCount, maxLength))
  {
    var columns := new TabColumn[GridSlots](_ => BlankColumn());
    assert columns[..] == BlankGrid();
    var sIdx := 0;
    while sIdx < StringCount
      invariant 0 <= sIdx <= StringCount
      invariant columns[..] == QuantiseStrings(layers, sIdx, maxLength)
    {
      WashString(layers[sIdx], sIdx, maxLength, columns);
      sIdx := sIdx + 1;
    }
    row := TabRow(columns[..]);
  }

  /** One block of six lines: its layers, their longest length, and the row when that length
      reaches ten. */
  method WashOneBlock(block: seq<string>) returns (rows: seq<TabRow>)
    requires |block| == StringCount
    ensures rows == WashBlock(block)
  {
    var layers := BlockLayers(block);
    var maxLength := MaxLength(layers);
    if maxLength < MinLayerLength {
      return [];
    }
    var row := QuantiseBlock(layers, maxLength);
    return [row];
  }

  lemma WashRowsStep(staffLines: seq<string>, i: nat)
    requires i + StringCount <= |staffLines|
    ensures WashRows(staffLines[i..])
         == WashBlock(staffLines[i..i + StringCount]) + WashRows(staffLines[i + StringCount..])
  {
    SliceOfSlice(staffLines, i, StringCount);
  }

  lemma SeqAssoc<T>(a: seq<T>, b: seq<T>, c: seq<T>)
    ensures a + (b + c) == (a + b) + c
  {
  }

  /** Slicing a suffix again. */
  lemma SliceOfSlice<T>(s: seq<T>, i: nat, n: nat)
    requires i + n <= |s|
    ensures s[i..][..n] == s[i..i + n] && s[i..][n..] == s[i + n..]
  {
  }

  /** The block loop: takes the string lines six at a time while six remain, and washes each
      group into a row. */
  method WashBlocks(rawStaffLines: seq<string>) returns (rows: seq<TabRow>)
    ensures rows == WashRows(rawStaffLines)
  {
    rows := [];
    var i := 0;
    assert rawStaffLines[0..] == rawStaffLines;
    while i + StringCount <= |rawStaffLines|
      invariant 0 <= i <= |rawStaffLines|
      invariant WashRows(rawStaffLines) == rows + WashRows(rawStaffLines[i..])
      decreases |rawStaffLines| - i
    {
      var block := rawStaffLines[i..i + StringCount];
      var more := WashOneBlock(block);
      BlocksStep(rawStaffLines, i, rows, more);
      rows := rows + more;
      i := i + StringCount;
    }
    BlocksDone(rawStaffLines, i, rows);
  }

  /** One pass of the block loop keeps its invariant. */
  lemma BlocksStep(staffLines: seq<string>, i: nat, rows: seq<TabRow>, more: seq<TabRow>)
    requires i + StringCount <= |staffLines|
    requires WashRows(staffLines) == rows + WashRows(staffLines[i..])
    requires more == WashBlock(staffLines[i..i + StringCount])
    ensures WashRows(staffLines) == (rows + more) + WashRows(staffLines[i + StringCount..])
  {
    WashRowsStep(staffLines, i);
    SeqAssoc(rows, more, WashRows(staffLines[i + StringCount..]));
  }

  /** Fewer than six lines left: the loop has every row. */
  lemma BlocksDone(staffLines: seq<string>, i: nat, rows: seq<TabRow>)
    requires i <= |staffLines| && |staffLines| - i < StringCount
    requires WashRows(staffLines) == rows + WashRows(staffLines[i..])
    ensures rows == WashRows(staffLines)
  {
    assert WashRows(staffLines[i..]) == [];
    assert rows + [] == rows;
  }

  /** washDirtyAscii: the sanitised lines, the string lines among them, then blocks of six. */
  method WashDirtyAscii(text: string) returns (rows: seq<TabRow>)
    ensures rows == Wash(text)
  {
    var lines := WashLines(text);
    var rawStaffLines := CollectStaffLines(lines);
    rows := WashBlocks(rawStaffLines);
  }
}
