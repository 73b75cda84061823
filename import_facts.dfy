/**
 * How the importer's scanners behave on text built by concatenation: the
 * note-unit scan of a layer, the placement of units, the tempo-marker search
 * and the header's tag search. These are the steps of the round trip.
 */
module ImportFacts {
  import opened Wrappers
  import opened JsText
  import opened TabTypes
  import opened AsciiImport

  /** Note units moved d characters to the right. */
  function Shift(us: seq<NoteUnit>, d: nat): seq<NoteUnit>
    decreases |us|
  {
    if us == [] then [] else [NoteUnit(us[0].start + d, us[0].text)] + Shift(us[1..], d)
  }

  lemma ShiftCons(u: NoteUnit, us: seq<NoteUnit>, d: nat)
    ensures Shift([u] + us, d) == [NoteUnit(u.start + d, u.text)] + Shift(us, d)
  {
    assert ([u] + us)[1..] == us;
  }

  /** The characters of `a + b`, by position. */
  lemma AppendChars(a: string, b: string)
    ensures forall i :: 0 <= i < |a| ==> (a + b)[i] == a[i]
    ensures forall k :: 0 <= k < |b| ==> (a + b)[|a| + k] == b[k]
  {
  }

  /** A slice of a suffix is a slice of the whole. */
  lemma SuffixSlice<T>(s: seq<T>, d: nat, y: nat, e: nat)
    requires d <= |s| && y <= e <= |s| - d
    ensures s[d..][y..e] == s[d + y..d + e]
  {
  }

  /** A plain unit (not a bracketed harmonic) ends exactly at the first gap. */
  lemma UnitEndUnique(layer: string, x: nat, e: nat)
    requires x < e <= |layer| && !IsGap(layer[x]) && layer[x] != '<'
    requires forall i :: x <= i < e ==> !IsGap(layer[i])
    requires e < |layer| ==> IsGap(layer[e])
    ensures UnitEnd(layer, x) == e
  {
  }

  /** A plain unit of b starting at y is found, moved by d, in a layer holding b from d on. */
  lemma UnitsShiftNote(ab: string, d: nat, b: string, y: nat)
    requires d <= |ab| && ab[d..] == b
    requires y < |b| && !IsGap(b[y]) && b[y] != '<'
    ensures Units(ab, d + y) == [NoteUnit(d + y, b[y..UnitEnd(b, y)])] + Units(ab, d + UnitEnd(b, y))
  {
    var e := UnitEnd(b, y);
    assert ab[d + y] == b[y];
    forall i | d + y <= i < d + e
      ensures !IsGap(ab[i])
    {
      assert ab[d + (i - d)] == b[i - d];
    }
    if d + e < |ab| {
      assert ab[d + e] == b[e];
    }
    UnitEndUnique(ab, d + y, d + e);
    SuffixSlice(ab, d, y, e);
  }

  /** A scan that starts on a note: that unit, then the scan from its end. */
  lemma UnitsAtNote(layer: string, x: nat)
    requires x < |layer| && !IsGap(layer[x])
    ensures Units(layer, x) == [NoteUnit(x, layer[x..UnitEnd(layer, x)])] + Units(layer, UnitEnd(layer, x))
  {
  }

  /** Prepending one unit commutes with shifting. */
  lemma ShiftStep(found: seq<NoteUnit>, rest: seq<NoteUnit>, us: seq<NoteUnit>, all: seq<NoteUnit>, u: NoteUnit, d: nat)
    requires found == [NoteUnit(u.start + d, u.text)] + rest && rest == Shift(us, d) && all == [u] + us
    ensures found == Shift(all, d)
  {
    ShiftCons(u, us, d);
  }

  /** A gap of b is passed over in the layer too. */
  lemma UnitsShiftGap(ab: string, d: nat, b: string, y: nat)
    requires d <= |ab| && ab[d..] == b
    requires y < |b| && IsGap(b[y])
    requires Units(ab, d + y + 1) == Shift(Units(b, y + 1), d)
    ensures Units(ab, d + y) == Shift(Units(b, y), d)
  {
    assert ab[d + y] == b[y];
  }

  /** A plain unit of b: found in the layer, moved by d, ahead of what follows it. */
  lemma UnitsShiftUnit(ab: string, d: nat, b: string, y: nat)
    requires d <= |ab| && ab[d..] == b
    requires y < |b| && !IsGap(b[y]) && b[y] != '<'
    requires Units(ab, d + UnitEnd(b, y)) == Shift(Units(b, UnitEnd(b, y)), d)
    ensures Units(ab, d + y) == Shift(Units(b, y), d)
  {
    var e := UnitEnd(b, y);
    UnitsShiftNote(ab, d, b, y);
    UnitsAtNote(b, y);
    ShiftStep(Units(ab, d + y), Units(ab, d + e), Units(b, e), Units(b, y), NoteUnit(y, b[y..e]), d);
  }

  /** Scanning a layer that holds b from d on finds b's units, moved by d. */
  lemma {:induction false} UnitsShiftFrom(ab: string, d: nat, b: string, y: nat)
    requires d <= |ab| && ab[d..] == b
    requires y <= |b| && forall i :: 0 <= i < |b| ==> b[i] != '<'
    ensures Units(ab, d + y) == Shift(Units(b, y), d)
    decreases |b| - y
  {
    if y == |b| {
      assert Units(ab, d + y) == [];
    } else if IsGap(b[y]) {
      UnitsShiftFrom(ab, d, b, y + 1);
      UnitsShiftGap(ab, d, b, y);
    } else {
      UnitsShiftFrom(ab, d, b, UnitEnd(b, y));
      UnitsShiftUnit(ab, d, b, y);
    }
  }

  lemma UnitsShift(a: string, b: string, y: nat)
    requires y <= |b| && forall i :: 0 <= i < |b| ==> b[i] != '<'
    ensures Units(a + b, |a| + y) == Shift(Units(b, y), |a|)
  {
    assert (a + b)[|a|..] == b;
    UnitsShiftFrom(a + b, |a|, b, y);
  }

  /** When a ends in a gap and holds no '<', its units are found before those that follow it. */
  lemma {:induction false} UnitsAppend(a: string, b: string, x: nat)
    requires x <= |a|
    requires forall i :: 0 <= i < |a| ==> a[i] != '<'
    requires |a| > 0 ==> IsGap(a[|a| - 1])
    ensures Units(a + b, x) == Units(a, x) + Units(a + b, |a|)
    decreases |a| - x
  {
    var ab := a + b;
    if x == |a| {
      assert Units(a, x) == [];
    } else if IsGap(a[x]) {
      assert ab[x] == a[x];
      UnitsAppend(a, b, x + 1);
    } else {
      assert ab[x] == a[x];
      var e := UnitEnd(a, x);
      assert e < |a|;
      forall i | x <= i < e
        ensures !IsGap(ab[i])
      {
        assert ab[i] == a[i];
      }
      assert ab[e] == a[e];
      UnitEndUnique(ab, x, e);
      assert ab[x..e] == a[x..e];
      UnitsAppend(a, b, e);
      var u := NoteUnit(x, a[x..e]);
      assert [u] + (Units(a, e) + Units(ab, |a|)) == ([u] + Units(a, e)) + Units(ab, |a|);
    }
  }

  /** Gaps alone hold no unit. */
  lemma {:induction false} UnitsAllGaps(b: string, y: nat)
    requires y <= |b| && forall i :: y <= i < |b| ==> IsGap(b[i])
    ensures Units(b, y) == []
    decreases |b| - y
  {
    if y < |b| {
      UnitsAllGaps(b, y + 1);
    }
  }

  /** Placing two lists of units is placing their concatenation. */
  lemma {:induction false} PlaceUnitsAppend(slots: seq<TabColumn>, s: nat, us1: seq<NoteUnit>, us2: seq<NoteUnit>)
    requires SlotsShape(slots) && s < StringCount
    ensures PlaceUnits(slots, s, us1 + us2) == PlaceUnits(PlaceUnits(slots, s, us1), s, us2)
    decreases |us2|
  {
    if us2 == [] {
      assert us1 + us2 == us1;
    } else {
      var init := us2[..|us2| - 1];
      SnocOfAppend(us1, us2);
      PlaceUnitsAppend(slots, s, us1, init);
    }
  }

  /** Dropping the last element of a concatenation whose second part is not empty. */
  lemma SnocOfAppend<T>(xs: seq<T>, ys: seq<T>)
    requires |ys| > 0
    ensures (xs + ys)[..|xs + ys| - 1] == xs + ys[..|ys| - 1]
    ensures (xs + ys)[|xs + ys| - 1] == ys[|ys| - 1]
  {
  }

  /** One unit placed alone. */
  lemma PlaceOneUnit(slots: seq<TabColumn>, s: nat, u: NoteUnit)
    requires SlotsShape(slots) && s < StringCount
    ensures PlaceUnits(slots, s, [u]) == PlaceUnit(slots, s, u)
  {
    assert [u][..0] == [];
  }

  /** The marker search passes over positions where no marker starts. */
  lemma {:induction false} NextMarkerSkip(line: string, from: nat, q: nat)
    requires from <= q && forall i :: from <= i < q ==> !MarkerAt(line, i)
    ensures NextMarker(line, from) == NextMarker(line, q)
    decreases q - from
  {
    if from < q && from + 5 <= |line| {
      NextMarkerSkip(line, from + 1, q);
    }
  }

  /** A `[BPM:` opening, a digit run and a closing `]` at the very end: one marker up to the end. */
  lemma MarkerAtEnd(line: string, p: nat, n: nat)
    requires p + 6 + n == |line| && n > 0
    requires line[p] == '[' && line[p + 1] == 'B' && line[p + 2] == 'P' && line[p + 3] == 'M' && line[p + 4] == ':'
    requires forall i :: p + 5 <= i < p + 5 + n ==> IsDigit(line[i])
    requires line[p + 5 + n] == ']'
    ensures MarkerAt(line, p) && MarkerEnd(line, p) == |line|
    ensures MarkerValue(line, p) == DigitsValue(line[p + 5..p + 5 + n])
  {
    RunEndUnique(line, p + 5, IsDigit, p + 5 + n);
  }

  /** Spaces, then the marker `[BPM:d]` closing the line: the marker list holds that marker alone. */
  lemma MarkersOfSingle(line: string, p: nat, d: string)
    requires p + 6 + |d| == |line| && |d| > 0 && AllDigits(d)
    requires forall i :: 0 <= i < p ==> line[i] == ' '
    requires line[p] == '[' && line[p + 1] == 'B' && line[p + 2] == 'P' && line[p + 3] == 'M' && line[p + 4] == ':'
    requires forall k :: 0 <= k < |d| ==> line[p + 5 + k] == d[k]
    requires line[p + 5 + |d|] == ']'
    ensures Markers(line, 0) == [Marker(p, DigitsValue(d))]
  {
    forall i | p + 5 <= i < p + 5 + |d|
      ensures IsDigit(line[i])
    {
      assert line[p + 5 + (i - p - 5)] == d[i - p - 5];
    }
    MarkerAtEnd(line, p, |d|);
    assert line[p + 5..p + 5 + |d|] == d;
    forall i | 0 <= i < p
      ensures !MarkerAt(line, i)
    {
      assert line[i] == ' ';
    }
    NextMarkerSkip(line, 0, p);
    assert Markers(line, |line|) == [];
  }

  /** The characters of the marker text `[BPM:d]`. */
  lemma MarkerTextChars(d: string)
    ensures var mk := "[BPM:" + d + "]";
      && |mk| == |d| + 6
      && mk[0] == '[' && mk[1] == 'B' && mk[2] == 'P' && mk[3] == 'M' && mk[4] == ':'
      && (forall k :: 0 <= k < |d| ==> mk[5 + k] == d[k])
      && mk[5 + |d|] == ']'
  {
  }

  /** Spaces followed by one `[BPM:d]` hold exactly that marker, at the end of the spaces. */
  lemma SingleMarker(pre: string, d: string)
    requires AllSpaces(pre) && |d| > 0 && AllDigits(d)
    ensures Markers(pre + ("[BPM:" + d + "]"), 0) == [Marker(|pre|, DigitsValue(d))]
  {
    var mk := "[BPM:" + d + "]";
    MarkerTextChars(d);
    AppendChars(pre, mk);
    MarkersOfSingle(pre + mk, |pre|, d);
  }

  /** The tag search passes over positions where the tag does not match. */
  lemma {:induction false} TagNumberSkip(line: string, tag: string, p: nat, q: nat)
    requires p <= q && q + |tag| <= |line|
    requires forall i :: p <= i < q ==> !TagMatchesAt(line, tag, i)
    ensures TagNumber(line, tag, p) == TagNumber(line, tag, q)
    decreases q - p
  {
    if p < q {
      TagNumberSkip(line, tag, p + 1, q);
    }
  }

  /** A tag, any run of white space and a whole run of digits, ended by a non-digit or by the
      end of the line: the tag search reads the value of the digits. */
  lemma TagNumberAt(line: string, tag: string, p: nat, d: string, q: nat)
    requires |d| > 0 && AllDigits(d)
    requires OccursAt(line, tag, p) && p + |tag| <= q
    requires q + |d| <= |line| && (q + |d| < |line| ==> !IsDigit(line[q + |d|]))
    requires forall i :: p + |tag| <= i < q ==> IsSpace(line[i])
    requires line[q..q + |d|] == d
    ensures TagNumber(line, tag, p) == Some(DigitsValue(d))
  {
    assert line[q] == d[0];
    RunEndUnique(line, p + |tag|, IsSpace, q);
    forall i | q <= i < q + |d|
      ensures IsDigit(line[i])
    {
      assert line[i] == d[i - q];
    }
    RunEndUnique(line, q, IsDigit, q + |d|);
    assert TagMatchesAt(line, tag, p);
  }
}
