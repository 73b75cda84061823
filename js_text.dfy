/**
 * The JavaScript string built-ins the editor's code relies on (trim, trimEnd,
 * indexOf, lastIndexOf, substring, padEnd, split, toLowerCase, toUpperCase,
 * String(n) and parseInt), stated over `string`, plus the facts about them
 * that the exporter, the importers and the editing transitions need.
 */
module JsText {
  import opened Wrappers

  /** The code points ECMAScript counts as WhiteSpace or LineTerminator:
      what trim and trimEnd remove, what parseInt skips and what `\s` matches. */
  predicate IsSpace(c: char) {
    c == ' ' || c == '\t' || c == '\n' || c == '\r' || c == '\U{000B}' || c == '\U{000C}'
    || c == '\U{00A0}' || c == '\U{1680}' || ('\U{2000}' <= c <= '\U{200A}')
    || c == '\U{2028}' || c == '\U{2029}' || c == '\U{202F}' || c == '\U{205F}'
    || c == '\U{3000}' || c == '\U{FEFF}'
  }

  predicate IsDigit(c: char) { '0' <= c <= '9' }

  predicate IsHexDigit(c: char) { IsDigit(c) || 'a' <= c <= 'f' || 'A' <= c <= 'F' }

  predicate IsAsciiUpper(c: char) { 'A' <= c <= 'Z' }

  predicate IsAsciiLower(c: char) { 'a' <= c <= 'z' }

  predicate AllDigits(s: string) { forall i :: 0 <= i < |s| ==> IsDigit(s[i]) }

  predicate AllSpaces(s: string) { forall i :: 0 <= i < |s| ==> s[i] == ' ' }

  function DigitValue(c: char): (v: nat)
    requires IsDigit(c)
    ensures v < 10
  {
    (c as int) - ('0' as int)
  }

  function HexDigitValue(c: char): (v: nat)
    requires IsHexDigit(c)
    ensures v < 16
  {
    if IsDigit(c) then DigitValue(c)
    else if 'a' <= c <= 'f' then (c as int) - ('a' as int) + 10
    else (c as int) - ('A' as int) + 10
  }

  function DigitChar(d: nat): (c: char)
    requires d < 10
    ensures IsDigit(c) && DigitValue(c) == d
  {
    (('0' as int) + d) as char
  }

  // ---------------------------------------------------------------- runs

  /** The end of the longest run of characters satisfying `inRun` that starts at `from`. */
  function RunEnd(s: string, from: nat, inRun: char -> bool): (e: nat)
    requires from <= |s|
    ensures from <= e <= |s|
    ensures forall i :: from <= i < e ==> inRun(s[i])
    ensures e < |s| ==> !inRun(s[e])
    decreases |s| - from
  {
    if from < |s| && inRun(s[from]) then RunEnd(s, from + 1, inRun) else from
  }

  /** A run is determined by its two end conditions. */
  lemma RunEndUnique(s: string, from: nat, inRun: char -> bool, e: nat)
    requires from <= e <= |s|
    requires forall i :: from <= i < e ==> inRun(s[i])
    requires e < |s| ==> !inRun(s[e])
    ensures RunEnd(s, from, inRun) == e
    decreases e - from
  {
    if from < e {
      RunEndUnique(s, from + 1, inRun, e);
    }
  }

  function DigitRunEnd(s: string, from: nat): (e: nat)
    requires from <= |s|
    ensures from <= e <= |s|
    ensures AllDigits(s[from..e])
    ensures e < |s| ==> !IsDigit(s[e])
  {
    RunEnd(s, from, IsDigit)
  }

  function SpaceRunEnd(s: string, from: nat): (e: nat)
    requires from <= |s|
    ensures from <= e <= |s|
    ensures forall i :: from <= i < e ==> IsSpace(s[i])
    ensures e < |s| ==> !IsSpace(s[e])
  {
    RunEnd(s, from, IsSpace)
  }

  // ---------------------------------------------------------------- numbers

  /** The value of a string of decimal digits, most significant first. */
  function DigitsValue(d: string): nat
    requires AllDigits(d)
  {
    if d == [] then 0 else 10 * DigitsValue(d[..|d| - 1]) + DigitValue(d[|d| - 1])
  }

  /** The value of a string of hexadecimal digits, most significant first. */
  function HexValue(d: string): nat
    requires forall i :: 0 <= i < |d| ==> IsHexDigit(d[i])
  {
    if d == [] then 0 else 16 * HexValue(d[..|d| - 1]) + HexDigitValue(d[|d| - 1])
  }

  /** Decimal text of a natural number, as `${n}` writes it: no sign, no leading zero. */
  function NatToString(n: nat): (s: string)
    ensures |s| > 0 && AllDigits(s)
    ensures DigitsValue(s) == n
    ensures |s| > 1 ==> s[0] != '0'
  {
    if n < 10 then [DigitChar(n)]
    else
      var p := NatToString(n / 10);
      var s := p + [DigitChar(n % 10)];
      assert s[..|s| - 1] == p;
      s
  }

  /** Decimal text of an integer, as `${i}` writes it. */
  function IntToString(i: int): string {
    if i < 0 then "-" + NatToString(-i) else NatToString(i)
  }

  function Signed(negative: bool, v: nat): int {
    if negative then -(v as int) else v
  }

  /**
   * parseInt(s) with no radix: skip leading white space, take an optional
   * sign, read a `0x`/`0X` prefix as hexadecimal, then the longest run of
   * digits; NaN (here None) when that run is empty.
   */
  function JsParseInt(s: string): Option<int> {
    var i := SpaceRunEnd(s, 0);
    var negative := i < |s| && s[i] == '-';
    var j := if i < |s| && (s[i] == '-' || s[i] == '+') then i + 1 else i;
    if j + 1 < |s| && s[j] == '0' && (s[j + 1] == 'x' || s[j + 1] == 'X') then
      var e := RunEnd(s, j + 2, IsHexDigit);
      if e == j + 2 then None else Some(Signed(negative, HexValue(s[j + 2..e])))
    else
      var e := DigitRunEnd(s, j);
      if e == j then None else Some(Signed(negative, DigitsValue(s[j..e])))
  }

  /** parseInt reads back the decimal text of any natural number. */
  lemma ParseIntOfNatString(n: nat)
    ensures JsParseInt(NatToString(n)) == Some(n)
  {
    var s := NatToString(n);
    RunEndUnique(s, 0, IsSpace, 0);
    if 1 < |s| {
      assert s[1] != 'x' && s[1] != 'X';
    }
    RunEndUnique(s, 0, IsDigit, |s|);
    assert s[0..|s|] == s;
  }

  /** parseInt reads back the decimal text of any integer, a minus sign included. */
  lemma ParseIntOfIntString(i: int)
    ensures JsParseInt(IntToString(i)) == Some(i)
  {
    if i >= 0 {
      ParseIntOfNatString(i);
    } else {
      var d := NatToString(-i);
      var s := "-" + d;
      assert s[1..] == d;
      RunEndUnique(s, 0, IsSpace, 0);
      if 2 < |s| {
        assert s[2] == d[1] && IsDigit(d[1]);
      }
      forall k | 1 <= k < |s|
        ensures IsDigit(s[k])
      {
        assert s[k] == d[k - 1];
      }
      RunEndUnique(s, 1, IsDigit, |s|);
      assert s[0] == '-' && !IsSpace(s[0]);
      assert s[1..|s|] == d;
      assert Signed(true, DigitsValue(d)) == i;
    }
  }

  /** On a string that starts with a digit, parseInt is the value of the leading digit run. */
  lemma ParseIntOfDigitPrefix(s: string, e: nat)
    requires 0 < e <= |s| && AllDigits(s[..e]) && (e < |s| ==> !IsDigit(s[e]))
    requires !(s[0] == '0' && 1 < |s| && (s[1] == 'x' || s[1] == 'X'))
    ensures JsParseInt(s) == Some(DigitsValue(s[..e]))
  {
    assert s[..e][0] == s[0];
    assert forall i :: 0 <= i < e ==> s[..e][i] == s[i];
    RunEndUnique(s, 0, IsSpace, 0);
    RunEndUnique(s, 0, IsDigit, e);
    assert s[0..e] == s[..e];
  }

  /** After its leading white space the text starts with no digit, and with no sign that a
      digit follows: parseInt finds no number in it. */
  predicate NoLeadingNumber(s: string) {
    var u := s[SpaceRunEnd(s, 0)..];
    u == [] || (!IsDigit(u[0]) && ((u[0] == '-' || u[0] == '+') ==> |u| == 1 || !IsDigit(u[1])))
  }

  /** Text with no leading number is NaN to parseInt. */
  lemma ParseIntNoNumber(s: string)
    requires NoLeadingNumber(s)
    ensures JsParseInt(s) == None
  {
    var i := SpaceRunEnd(s, 0);
    var j := if i < |s| && (s[i] == '-' || s[i] == '+') then i + 1 else i;
    if j < |s| {
      assert s[j] == s[i..][j - i];
      RunEndUnique(s, j, IsDigit, j);
    }
  }

  /** A string whose first character is neither white space, a sign nor a digit is NaN to parseInt. */
  lemma ParseIntNaN(s: string)
    requires |s| > 0 && !IsSpace(s[0]) && !IsDigit(s[0]) && s[0] != '-' && s[0] != '+'
    ensures JsParseInt(s) == None
  {
    RunEndUnique(s, 0, IsSpace, 0);
    RunEndUnique(s, 0, IsDigit, 0);
  }

  // ---------------------------------------------------------------- trimming

  /** String.prototype.trimEnd. */
  function TrimEnd(s: string): (r: string)
    ensures |r| <= |s| && r == s[..|r|]
    ensures r == [] || !IsSpace(r[|r| - 1])
    ensures forall i :: |r| <= i < |s| ==> IsSpace(s[i])
  {
    if |s| > 0 && IsSpace(s[|s| - 1]) then TrimEnd(s[..|s| - 1]) else s
  }

  /** White space at the start of a string, removed. */
  function TrimStart(s: string): (r: string)
    ensures |r| <= |s| && r == s[|s| - |r|..]
    ensures r == [] || !IsSpace(r[0])
    ensures forall i :: 0 <= i < |s| - |r| ==> IsSpace(s[i])
  {
    if |s| > 0 && IsSpace(s[0]) then TrimStart(s[1..]) else s
  }

  /** String.prototype.trim. */
  function Trim(s: string): string {
    TrimStart(TrimEnd(s))
  }

  /** trimEnd leaves a string alone exactly when it does not end in white space. */
  lemma TrimEndIdentity(s: string)
    requires s == [] || !IsSpace(s[|s| - 1])
    ensures TrimEnd(s) == s
  {
  }

  /** trim leaves a string alone when it neither starts nor ends in white space. */
  lemma TrimIdentity(s: string)
    requires s == [] || (!IsSpace(s[0]) && !IsSpace(s[|s| - 1]))
    ensures Trim(s) == s
  {
    TrimEndIdentity(s);
  }

  /** trimEnd drops a suffix of spaces that follows a non-space character. */
  lemma TrimEndSpaces(a: string, b: string)
    requires |a| > 0 && !IsSpace(a[|a| - 1])
    requires AllSpaces(b)
    ensures TrimEnd(a + b) == a
    decreases |b|
  {
    if b == [] {
      assert a + b == a;
    } else {
      assert (a + b)[..|a + b| - 1] == a + b[..|b| - 1];
      TrimEndSpaces(a, b[..|b| - 1]);
    }
  }

  /** A string of spaces trims to nothing. */
  lemma TrimEndAllSpaces(b: string)
    requires AllSpaces(b)
    ensures TrimEnd(b) == []
  {
  }

  // ---------------------------------------------------------------- searching

  predicate OccursAt(s: string, pat: string, i: int) {
    0 <= i && i + |pat| <= |s| && s[i..i + |pat|] == pat
  }

  /** String.prototype.indexOf(pat, from); -1 when there is no occurrence at or after `from`. */
  function IndexOf(s: string, pat: string, from: nat): (r: int)
    ensures r == -1 || (from <= r && OccursAt(s, pat, r))
    ensures forall i :: from <= i && (r == -1 || i < r) ==> !OccursAt(s, pat, i)
    decreases |s| - from
  {
    if from + |pat| > |s| then -1
    else if s[from..from + |pat|] == pat then from
    else IndexOf(s, pat, from + 1)
  }

  /** String.prototype.includes. */
  predicate Contains(s: string, pat: string) {
    IndexOf(s, pat, 0) >= 0
  }

  lemma ContainsAt(s: string, pat: string, i: nat)
    requires OccursAt(s, pat, i)
    ensures Contains(s, pat)
  {
  }

  lemma NotContains(s: string, pat: string)
    requires forall i :: 0 <= i ==> !OccursAt(s, pat, i)
    ensures !Contains(s, pat)
  {
  }

  /** A pattern whose first character does not occur in a string does not occur in it. */
  lemma NotContainsFirstChar(s: string, pat: string)
    requires |pat| > 0 && forall i :: 0 <= i < |s| ==> s[i] != pat[0]
    ensures !Contains(s, pat)
  {
    forall i | 0 <= i
      ensures !OccursAt(s, pat, i)
    {
      if i + |pat| <= |s| {
        assert s[i..i + |pat|][0] == s[i];
      }
    }
  }

  /** String.prototype.lastIndexOf for one character; -1 when absent. */
  function LastIndexOf(s: string, c: char): (r: int)
    ensures -1 <= r < |s|
    ensures r >= 0 ==> s[r] == c
    ensures forall i :: r < i < |s| ==> s[i] != c
  {
    if s == [] then -1
    else if s[|s| - 1] == c then |s| - 1
    else LastIndexOf(s[..|s| - 1], c)
  }

  /** String.prototype.substring: both ends clamped to the string, swapped when reversed. */
  function Substring(s: string, start: int, end: int): string {
    var a := if start < 0 then 0 else if start > |s| then |s| else start;
    var b := if end < 0 then 0 else if end > |s| then |s| else end;
    if a <= b then s[a..b] else s[b..a]
  }

  predicate StartsWith(s: string, prefix: string) {
    |prefix| <= |s| && s[..|prefix|] == prefix
  }

  predicate EndsWith(s: string, suffix: string) {
    |suffix| <= |s| && s[|s| - |suffix|..] == suffix
  }

  // ---------------------------------------------------------------- building

  /** String.prototype.padEnd(n, fill) with a one-character fill. */
  function PadEnd(s: string, n: nat, fill: char): (r: string)
    ensures |r| == if |s| < n then n else |s|
    ensures r[..|s|] == s
    ensures forall i :: |s| <= i < |r| ==> r[i] == fill
    decreases n - |s|
  {
    if |s| < n then PadEnd(s + [fill], n, fill) else s
  }

  /** String.prototype.split with a one-character separator. */
  function Split(s: string, sep: char): (parts: seq<string>)
    ensures |parts| >= 1
    decreases |s|
  {
    var i := IndexOf(s, [sep], 0);
    if i < 0 then [s] else [s[..i]] + Split(s[i + 1..], sep)
  }

  /** Concatenation regroups; stated once so that long appends stay cheap to check. */
  lemma ConcatAssoc(a: string, b: string, c: string)
    ensures (a + b) + c == a + (b + c)
  {
  }

  /** Lines each followed by a newline: what the exporter appends line by line. */
  function JoinTerminated(lines: seq<string>): string {
    if lines == [] then "" else lines[0] + "\n" + JoinTerminated(lines[1..])
  }

  lemma JoinTerminatedAppend(a: seq<string>, b: seq<string>)
    ensures JoinTerminated(a + b) == JoinTerminated(a) + JoinTerminated(b)
  {
    if a == [] {
      assert a + b == b;
    } else {
      assert (a + b)[0] == a[0];
      assert (a + b)[1..] == a[1..] + b;
      JoinTerminatedAppend(a[1..], b);
    }
  }

  /** Appending one line appends it and its newline. */
  lemma JoinTerminatedSnoc(lines: seq<string>, line: string)
    ensures JoinTerminated(lines + [line]) == JoinTerminated(lines) + line + "\n"
  {
    JoinTerminatedAppend(lines, [line]);
    assert [line][1..] == [];
  }

  /** Joining one more line of a sequence of lines. */
  lemma JoinTerminatedTake(lines: seq<string>, n: nat)
    requires n < |lines|
    ensures JoinTerminated(lines[..n + 1]) == JoinTerminated(lines[..n]) + lines[n] + "\n"
  {
    assert lines[..n + 1] == lines[..n] + [lines[n]];
    JoinTerminatedSnoc(lines[..n], lines[n]);
  }

  /** Splitting newline-terminated lines on the newline gives the lines back, plus
      the empty piece after the last newline. */
  lemma {:induction false} SplitJoinTerminated(lines: seq<string>)
    requires forall k :: 0 <= k < |lines| ==> '\n' !in lines[k]
    ensures Split(JoinTerminated(lines), '\n') == lines + [""]
  {
    if lines == [] {
      assert !OccursAt("", "\n", 0);
    } else {
      var l := lines[0];
      var rest := JoinTerminated(lines[1..]);
      var s := JoinTerminated(lines);
      assert s == l + "\n" + rest;
      assert OccursAt(s, "\n", |l|);
      forall i | 0 <= i < |l|
        ensures !OccursAt(s, "\n", i)
      {
        assert s[i] == l[i];
      }
      assert IndexOf(s, "\n", 0) == |l|;
      assert s[..|l|] == l;
      assert s[|l| + 1..] == rest;
      SplitJoinTerminated(lines[1..]);
    }
  }

  /** String.prototype.toLowerCase on ASCII letters. */
  function ToLower(s: string): (r: string)
    ensures |r| == |s|
    ensures forall i :: 0 <= i < |s| ==> !IsAsciiUpper(r[i])
    ensures forall i :: 0 <= i < |s| && !IsAsciiUpper(s[i]) ==> r[i] == s[i]
    ensures forall i :: 0 <= i < |s| && IsAsciiUpper(s[i]) ==> r[i] == ((s[i] as int) + 32) as char
  {
    seq(|s|, i requires 0 <= i < |s| =>
      if IsAsciiUpper(s[i]) then ((s[i] as int) + 32) as char else s[i])
  }

  /** String.prototype.toUpperCase on ASCII letters. */
  function ToUpper(s: string): (r: string)
    ensures |r| == |s|
    ensures forall i :: 0 <= i < |s| ==> !IsAsciiLower(r[i])
    ensures forall i :: 0 <= i < |s| && !IsAsciiLower(s[i]) ==> r[i] == s[i]
    ensures forall i :: 0 <= i < |s| && IsAsciiLower(s[i]) ==> r[i] == ((s[i] as int) - 32) as char
  {
    seq(|s|, i requires 0 <= i < |s| =>
      if IsAsciiLower(s[i]) then ((s[i] as int) - 32) as char else s[i])
  }
}
