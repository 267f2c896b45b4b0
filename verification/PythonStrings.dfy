/** The string operations of the two parser scripts: stripping, splitting into lines, joining. */
module PythonStrings {
  import Text

  /** Python's str.isspace, its line boundaries and str.isupper; any sets and predicate will do as
      long as the carriage return and the line feed count as whitespace. */
  datatype Python = Python(isSpace: char -> bool, isBreak: char -> bool, isUpper: string -> bool)

  predicate LineEndsAreSpace(py: Python) {
    py.isSpace('\r') && py.isSpace('\n')
  }

  predicate IsLineEnd(c: char) { c == '\r' || c == '\n' }

  function LStrip<T>(drop: T -> bool, s: seq<T>): (r: seq<T>)
    ensures |r| <= |s| && r == s[|s| - |r|..]
    ensures forall i :: 0 <= i < |s| - |r| ==> drop(s[i])
    ensures r != [] ==> !drop(r[0])
  {
    if s != [] && drop(s[0]) then LStrip(drop, s[1..]) else s
  }

  function RStrip<T>(drop: T -> bool, s: seq<T>): (r: seq<T>)
    ensures |r| <= |s| && r == s[..|r|]
    ensures forall i :: |r| <= i < |s| ==> drop(s[i])
    ensures r != [] ==> !drop(r[|r| - 1])
  {
    if s != [] && drop(s[|s| - 1]) then RStrip(drop, s[..|s| - 1]) else s
  }

  /** The negation of the test `body.strip()`. */
  predicate StripsToNothing(py: Python, s: string) {
    forall i :: 0 <= i < |s| ==> py.isSpace(s[i])
  }

  // ---- Joining ----

  function Joined(separator: string, parts: seq<string>): string {
    if |parts| == 0 then ""
    else if |parts| == 1 then parts[0]
    else Joined(separator, parts[..|parts| - 1]) + separator + parts[|parts| - 1]
  }

  /** Where part k begins: every earlier part is followed by one separator. */
  function StartOf(separator: string, parts: seq<string>, k: nat): nat
    requires k <= |parts|
  {
    if k == 0 then 0 else StartOf(separator, parts, k - 1) + |parts[k - 1]| + |separator|
  }

  lemma {:induction false} StartOfPrefix(separator: string, parts: seq<string>, more: seq<string>, k: nat)
    requires k <= |parts|
    ensures StartOf(separator, parts + more, k) == StartOf(separator, parts, k)
  {
    if k > 0 { StartOfPrefix(separator, parts, more, k - 1); }
  }

  lemma {:induction false} StartOfOrdered(separator: string, parts: seq<string>, i: nat, j: nat)
    requires i < j <= |parts|
    ensures StartOf(separator, parts, i) + |parts[i]| + |separator| <= StartOf(separator, parts, j)
  {
    if i < j - 1 { StartOfOrdered(separator, parts, i, j - 1); }
  }

  lemma {:induction false} JoinedLength(separator: string, parts: seq<string>)
    requires parts != []
    ensures |Joined(separator, parts)| == StartOf(separator, parts, |parts| - 1) + |parts[|parts| - 1]|
  {
    if |parts| > 1 {
      var before := parts[..|parts| - 1];
      JoinedLength(separator, before);
      assert parts == before + [parts[|parts| - 1]];
      StartOfPrefix(separator, before, [parts[|parts| - 1]], |before| - 1);
    }
  }

  /** Every part is found at its start. */
  lemma {:induction false} JoinedAt(separator: string, parts: seq<string>, k: nat)
    requires k < |parts|
    ensures var start := StartOf(separator, parts, k);
      && start + |parts[k]| <= |Joined(separator, parts)|
      && Joined(separator, parts)[start..start + |parts[k]|] == parts[k]
  {
    JoinedLength(separator, parts);
    if |parts| > 1 {
      var before := parts[..|parts| - 1];
      assert parts == before + [parts[|parts| - 1]];
      if k < |before| {
        JoinedAt(separator, before, k);
        StartOfPrefix(separator, before, [parts[|parts| - 1]], k);
      } else {
        JoinedLength(separator, before);
        StartOfPrefix(separator, before, [parts[|parts| - 1]], |before| - 1);
      }
    }
  }

  /** Every position of the joined text is in one of the parts, or in the separator that follows one. */
  lemma {:induction false} JoinedPosition(separator: string, parts: seq<string>, pos: nat) returns (k: nat)
    requires pos < |Joined(separator, parts)|
    ensures k < |parts| && StartOf(separator, parts, k) <= pos
    ensures var end := StartOf(separator, parts, k) + |parts[k]|;
      pos < end || (k + 1 < |parts| && pos < end + |separator| && Joined(separator, parts)[pos] == separator[pos - end])
  {
    JoinedLength(separator, parts);
    var last := |parts| - 1;
    if |parts| == 1 {
      return 0;
    }
    var before := parts[..last];
    assert parts == before + [parts[last]];
    JoinedLength(separator, before);
    var joined := Joined(separator, before);
    StartOfPrefix(separator, before, [parts[last]], last - 1);
    if pos < |joined| {
      assert Joined(separator, parts)[pos] == joined[pos];
      k := JoinedPosition(separator, before, pos);
      StartOfPrefix(separator, before, [parts[last]], k);
    } else if pos < |joined| + |separator| {
      assert Joined(separator, parts)[|joined|..|joined| + |separator|] == separator;
      assert Joined(separator, parts)[pos] == separator[pos - |joined|];
      k := last - 1;
    } else {
      k := last;
    }
  }

  // ---- Splitting into lines ----

  /** The position after the first line boundary at or after i; a return and a feed are one boundary. */
  function LineEnd(py: Python, s: string, i: nat): (end: nat)
    requires i < |s|
    ensures i < end <= |s|
    decreases |s| - i
  {
    if py.isBreak(s[i]) then
      if s[i] == '\r' && i + 1 < |s| && s[i + 1] == '\n' then i + 2 else i + 1
    else if i + 1 == |s| then |s|
    else LineEnd(py, s, i + 1)
  }

  /** splitlines(keepends=True). */
  function SplitLines(py: Python, s: string): (lines: seq<string>)
    decreases |s|
  {
    if s == "" then []
    else
      var end := LineEnd(py, s, 0);
      [s[..end]] + SplitLines(py, s[end..])
  }

  function LengthOf(parts: seq<string>, k: nat): nat
    requires k <= |parts|
  {
    if k == 0 then 0 else LengthOf(parts, k - 1) + |parts[k - 1]|
  }

  lemma {:induction false} LengthOfCons(first: string, rest: seq<string>, k: nat)
    requires k <= |rest|
    ensures LengthOf([first] + rest, k + 1) == |first| + LengthOf(rest, k)
  {
    if k > 0 {
      LengthOfCons(first, rest, k - 1);
    } else {
      assert LengthOf([first] + rest, 1) == LengthOf([first] + rest, 0) + |first|;
    }
  }

  /** The lines, breaks included, are consecutive slices of the text. */
  lemma {:induction false} SplitLinesAt(py: Python, s: string, k: nat)
    requires k < |SplitLines(py, s)|
    ensures var lines := SplitLines(py, s);
      LengthOf(lines, k + 1) <= |s| && s[LengthOf(lines, k)..LengthOf(lines, k + 1)] == lines[k]
    decreases |s|
  {
    var end := LineEnd(py, s, 0);
    var rest := SplitLines(py, s[end..]);
    if k > 0 {
      SplitLinesAt(py, s[end..], k - 1);
      LengthOfCons(s[..end], rest, k);
      LengthOfCons(s[..end], rest, k - 1);
      var from, to := LengthOf(rest, k - 1), LengthOf(rest, k);
      Text.SliceWithin(s, end, |s|, from, to);
    } else {
      LengthOfCons(s[..end], rest, 0);
    }
  }

  /** No character of the text is outside the lines. */
  lemma {:induction false} SplitLinesCover(py: Python, s: string)
    ensures LengthOf(SplitLines(py, s), |SplitLines(py, s)|) == |s|
    decreases |s|
  {
    if s != "" {
      var end := LineEnd(py, s, 0);
      SplitLinesCover(py, s[end..]);
      LengthOfCons(s[..end], SplitLines(py, s[end..]), |SplitLines(py, s[end..])|);
    }
  }
}
