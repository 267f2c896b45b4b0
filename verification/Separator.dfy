/** Cutting text at separators, with a fixed-step fallback for pieces that stay too long. */
module SeparatorWindows {
  import opened Text
  import opened ChunkPolicy
  import opened Windows

  // ---- splitWithPositions ----

  /** body.indexOf(separator, from), with None for -1. */
  function IndexOf(body: string, separator: string, from: nat): (r: Option<nat>)
    requires from <= |body|
    ensures r.Some? ==> from <= r.value && r.value + |separator| <= |body|
    decreases |body| - from
  {
    if from + |separator| > |body| then None
    else if body[from..from + |separator|] == separator then Some(from)
    else if from == |body| then None
    else IndexOf(body, separator, from + 1)
  }

  function Segments(body: string, separator: string, start: nat): seq<Span>
    requires separator != "" && start <= |body|
    decreases |body| - start
  {
    match IndexOf(body, separator, start)
    case None => [Span(start, |body|)]
    case Some(at) => [Span(start, at)] + Segments(body, separator, at + |separator|)
  }

  method SplitWithPositions(body: string, separator: string) returns (segments: seq<Span>)
    requires separator != ""
    ensures segments == Segments(body, separator, 0)
  {
    segments := [];
    var start := 0;
    while start <= |body|
      invariant start <= |body|
      invariant segments + Segments(body, separator, start) == Segments(body, separator, 0)
    {
      var at := IndexOf(body, separator, start);
      if at.None? {
        segments := segments + [Span(start, |body|)];
        break;
      }
      segments := segments + [Span(start, at.value)];
      start := at.value + |separator|;
    }
  }

  function Join(parts: seq<string>, separator: string): string
    requires parts != []
  {
    if |parts| == 1 then parts[0] else parts[0] + separator + Join(parts[1..], separator)
  }

  function Texts(body: string, spans: seq<Span>): (r: seq<string>)
    requires SpansWithin(spans, |body|)
    ensures |r| == |spans|
  {
    if spans == [] then [] else [body[spans[0].start..spans[0].end]] + Texts(body, spans[1..])
  }

  lemma JoinCons(parts: seq<string>, separator: string)
    requires |parts| > 1
    ensures Join(parts, separator) == parts[0] + separator + Join(parts[1..], separator)
  {
  }

  /** Splitting undoes joining: the segments, joined by the separator, give back the text. */
  lemma {:induction false} SegmentsRejoin(body: string, separator: string, start: nat)
    requires separator != "" && start <= |body|
    ensures var segments := Segments(body, separator, start);
      && segments != [] && SpansWithin(segments, |body|)
      && Join(Texts(body, segments), separator) == body[start..]
    decreases |body| - start
  {
    var at := IndexOf(body, separator, start);
    var segments := Segments(body, separator, start);
    if at.Some? {
      IndexOfFinds(body, separator, start);
      var next := at.value + |separator|;
      SegmentsRejoin(body, separator, next);
      assert segments[1..] == Segments(body, separator, next);
      var texts := Texts(body, segments);
      assert texts[0] == body[start..at.value];
      assert texts[1..] == Texts(body, segments[1..]);
      JoinCons(texts, separator);
      RestoreSlice(body, start, at.value, next, separator);
    } else {
      assert segments == [Span(start, |body|)] + [];
      assert Texts(body, segments[1..]) == [];
      assert body[start..|body|] == body[start..];
    }
  }

  lemma RestoreSlice(body: string, a: nat, b: nat, c: nat, separator: string)
    requires a <= b <= c <= |body| && body[b..c] == separator
    ensures body[a..b] + separator + body[c..] == body[a..]
  {
  }

  ghost predicate OccursAt(body: string, separator: string, at: nat) {
    at + |separator| <= |body| && body[at..at + |separator|] == separator
  }

  /** indexOf finds an occurrence of the separator, and there is none before it. */
  lemma {:induction false} IndexOfFinds(body: string, separator: string, from: nat)
    requires from <= |body|
    ensures var r := IndexOf(body, separator, from);
      && (r.Some? ==> OccursAt(body, separator, r.value))
      && (forall at :: from <= at && (r.None? || at < r.value) ==> !OccursAt(body, separator, at))
    decreases |body| - from
  {
    if from + |separator| <= |body| && !OccursAt(body, separator, from) && from < |body| {
      IndexOfFinds(body, separator, from + 1);
    }
  }

  /** Segments follow one another up to n, the first one starting at or after `lo`. */
  ghost predicate Consecutive(segments: seq<Span>, lo: nat, n: nat)
    decreases |segments|
  {
    if segments == [] then lo == n
    else lo <= segments[0].start <= segments[0].end && Consecutive(segments[1..], segments[0].end, n)
  }

  lemma {:induction false} SegmentsConsecutive(body: string, separator: string, start: nat)
    requires separator != "" && start <= |body|
    ensures var segments := Segments(body, separator, start);
      segments != [] && segments[0].start == start && Consecutive(segments, start, |body|)
    decreases |body| - start
  {
    var at := IndexOf(body, separator, start);
    var segments := Segments(body, separator, start);
    if at.Some? {
      var next := at.value + |separator|;
      SegmentsConsecutive(body, separator, next);
      assert segments[1..] == Segments(body, separator, next);
      ConsecutiveFrom(segments[1..], at.value, next, |body|);
    }
  }

  lemma ConsecutiveFrom(segments: seq<Span>, lo: nat, hi: nat, n: nat)
    requires lo <= hi && segments != [] && Consecutive(segments, hi, n)
    ensures Consecutive(segments, lo, n)
  {
  }

  lemma {:induction false} ConsecutiveBound(segments: seq<Span>, lo: nat, n: nat)
    requires Consecutive(segments, lo, n)
    ensures lo <= n
  {
    if segments != [] {
      ConsecutiveBound(segments[1..], segments[0].end, n);
    }
  }

  // ---- windowsFromSeparator ----

  /** The stretches flushed while the segments still to come are `segments`. */
  function FlushSpans(p: ChunkingPolicy, segments: seq<Span>, currentStart: nat, currentEnd: nat): seq<Span>
    decreases |segments|
  {
    if segments == [] then [Span(currentStart, currentEnd)]
    else
      var segment := segments[0];
      if segment.end - currentStart > p.maxCharacters && currentEnd - currentStart >= p.minCharacters then
        [Span(currentStart, segment.start)] +
        FlushSpans(p, segments[1..],
                   if p.overlapCharacters > 0 then Max(currentStart, segment.start - p.overlapCharacters) else segment.start,
                   segment.end)
      else FlushSpans(p, segments[1..], currentStart, segment.end)
  }

  /** Flushes leave no gap and back up by at most the overlap. */
  lemma {:induction false} FlushSpansChain(p: ChunkingPolicy, segments: seq<Span>, currentStart: nat, currentEnd: nat, n: nat)
    requires Sized(p) && currentStart <= currentEnd && Consecutive(segments, currentEnd, n)
    ensures Chain(FlushSpans(p, segments, currentStart, currentEnd), currentStart, n, p.overlapCharacters)
    decreases |segments|
  {
    if segments != [] {
      var segment := segments[0];
      if segment.end - currentStart > p.maxCharacters && currentEnd - currentStart >= p.minCharacters {
        var next := Max(currentStart, segment.start - p.overlapCharacters);
        FlushSpansChain(p, segments[1..], next, segment.end, n);
        ConsecutiveBound(segments[1..], segment.end, n);
        var spans := FlushSpans(p, segments, currentStart, currentEnd);
        assert spans[1..] == FlushSpans(p, segments[1..], next, segment.end);
      } else {
        FlushSpansChain(p, segments[1..], currentStart, segment.end, n);
      }
    }
  }

  /** The final flatMap: windows over the limit are cut again by fixed steps. */
  function CutOversized(t: TextRules, p: ChunkingPolicy, windows: seq<TextWindow>): seq<TextWindow>
    requires Sized(p)
  {
    if windows == [] then []
    else CutOne(t, p, windows[0]) + CutOversized(t, p, windows[1..])
  }

  function CutOne(t: TextRules, p: ChunkingPolicy, window: TextWindow): seq<TextWindow>
    requires Sized(p)
  {
    if |window.text| > p.maxCharacters then CharacterWindowsOf(t, p, window.text, window.start) else [window]
  }

  /** All flushed stretches of a text, and the windows made of them. */
  function SeparatorSpans(p: ChunkingPolicy, body: string, separator: string): seq<Span>
    requires separator != ""
  {
    var segments := Segments(body, separator, 0);
    FlushSpans(p, segments[1..], segments[0].start, segments[0].end)
  }

  lemma SeparatorSpansChain(p: ChunkingPolicy, body: string, separator: string)
    requires Sized(p) && separator != ""
    ensures Chain(SeparatorSpans(p, body, separator), 0, |body|, p.overlapCharacters)
    ensures SpansWithin(SeparatorSpans(p, body, separator), |body|)
  {
    var segments := Segments(body, separator, 0);
    SegmentsConsecutive(body, separator, 0);
    FlushSpansChain(p, segments[1..], 0, segments[0].end, |body|);
    ChainBounds(SeparatorSpans(p, body, separator), 0, |body|, p.overlapCharacters);
  }

  function SeparatorWindowsOf(t: TextRules, p: ChunkingPolicy, body: string, separator: string): seq<TextWindow>
    requires Sized(p) && separator != ""
  {
    SeparatorSpansChain(p, body, separator);
    CutOversized(t, p, WindowsOf(t, p, body, SeparatorSpans(p, body, separator), 0))
  }

  /** The loop over the segments: windows flushed so far, then those still to come. */
  ghost predicate Pending(t: TextRules, p: ChunkingPolicy, body: string, all: seq<Span>, windows: seq<TextWindow>, todo: seq<Span>)
  {
    && SpansWithin(all, |body|) && SpansWithin(todo, |body|)
    && WindowsOf(t, p, body, all, 0) == windows + WindowsOf(t, p, body, todo, 0)
  }

  lemma PendingStart(t: TextRules, p: ChunkingPolicy, body: string, all: seq<Span>)
    requires SpansWithin(all, |body|)
    ensures Pending(t, p, body, all, [], all)
  {
    hide WindowsOf;
  }

  lemma PendingStep(t: TextRules, p: ChunkingPolicy, body: string, all: seq<Span>, windows: seq<TextWindow>,
                    todo: seq<Span>)
    requires Pending(t, p, body, all, windows, todo) && todo != []
    ensures todo[0].start <= todo[0].end <= |body|
    ensures Pending(t, p, body, all, windows + WindowOf(t, p, body, todo[0], 0, false), todo[1..])
  {
    assert todo == [todo[0]] + todo[1..];
    hide WindowOf;
    WindowsOfCons(t, p, body, windows, todo[0], todo[1..], 0);
  }

  lemma PendingDone(t: TextRules, p: ChunkingPolicy, body: string, all: seq<Span>, windows: seq<TextWindow>)
    requires Pending(t, p, body, all, windows, [])
    ensures windows == WindowsOf(t, p, body, all, 0)
  {
    hide WindowOf;
    assert WindowsOf(t, p, body, [], 0) == [];
  }

  lemma FlushSpansStep(p: ChunkingPolicy, segments: seq<Span>, k: nat, currentStart: nat, currentEnd: nat)
    requires k < |segments|
    ensures var segment := segments[k];
      var spans := FlushSpans(p, segments[k..], currentStart, currentEnd);
      var next := if p.overlapCharacters > 0 then Max(currentStart, segment.start - p.overlapCharacters) else segment.start;
      if segment.end - currentStart > p.maxCharacters && currentEnd - currentStart >= p.minCharacters then
        && spans != [] && spans[0] == Span(currentStart, segment.start)
        && spans[1..] == FlushSpans(p, segments[k + 1..], next, segment.end)
      else spans == FlushSpans(p, segments[k + 1..], currentStart, segment.end)
  {
    assert segments[k..][1..] == segments[k + 1..];
  }

  lemma ConsecutiveStep(segments: seq<Span>, k: nat, lo: nat, n: nat)
    requires k < |segments| && Consecutive(segments[k..], lo, n)
    ensures lo <= segments[k].start <= segments[k].end && Consecutive(segments[k + 1..], segments[k].end, n)
  {
    assert segments[k..][1..] == segments[k + 1..];
  }

  method WindowsFromSeparator(t: TextRules, p: ChunkingPolicy, body: string, separator: string)
    returns (result: seq<TextWindow>)
    requires Sized(p) && separator != ""
    ensures result == SeparatorWindowsOf(t, p, body, separator)
  {
    hide WindowOf, WindowsOf, Pending, FlushSpans, Segments, Consecutive;
    var windows := FlushedWindows(t, p, body, separator);
    result := [];
    for k := 0 to |windows|
      invariant result + CutOversized(t, p, windows[k..]) == CutOversized(t, p, windows)
    {
      var window := windows[k];
      assert windows[k..][1..] == windows[k + 1..];
      var pieces := [window];
      if |window.text| > p.maxCharacters {
        pieces := CharacterWindows(t, p, window.text, window.start);
      }
      ConcatAssoc(result, pieces, CutOversized(t, p, windows[k + 1..]));
      result := result + pieces;
    }
  }

  /** The loop over the segments, up to and including the last flush. */
  method FlushedWindows(t: TextRules, p: ChunkingPolicy, body: string, separator: string)
    returns (windows: seq<TextWindow>)
    requires Sized(p) && separator != ""
    ensures SpansWithin(SeparatorSpans(p, body, separator), |body|)
    ensures windows == WindowsOf(t, p, body, SeparatorSpans(p, body, separator), 0)
  {
    hide WindowOf, WindowsOf, Pending, FlushSpans, Segments, Consecutive, Chain;
    SeparatorSpansChain(p, body, separator);
    SegmentsConsecutive(body, separator, 0);
    ghost var all := SeparatorSpans(p, body, separator);
    windows := [];
    PendingStart(t, p, body, all);
    var currentStart: int := -1;
    var currentEnd := 0;
    var segments := SplitWithPositions(body, separator);
    ghost var todo := all;
    for k := 0 to |segments|
      invariant currentStart == -1 <==> k == 0
      invariant -1 <= currentStart <= currentEnd && (k == 0 ==> currentEnd == 0)
      invariant Consecutive(segments[k..], currentEnd, |body|)
      invariant todo == if k > 0 then FlushSpans(p, segments[k..], currentStart, currentEnd) else all
      invariant Pending(t, p, body, all, windows, todo)
    {
      var segment := segments[k];
      ConsecutiveStep(segments, k, currentEnd, |body|);
      if currentStart == -1 {
        currentStart := segment.start;
        currentEnd := segment.end;
      } else {
        FlushSpansStep(p, segments, k, currentStart, currentEnd);
        var candidateEnd := segment.end;
        if candidateEnd - currentStart > p.maxCharacters && currentEnd - currentStart >= p.minCharacters {
          var flushEnd := segment.start;
          PendingStep(t, p, body, all, windows, todo);
          var made := MakeWindow(t, p, body, currentStart, flushEnd, 0, false);
          windows := windows + made;
          var overlapStart := Max(currentStart, flushEnd - p.overlapCharacters);
          currentStart := if p.overlapCharacters > 0 then overlapStart else segment.start;
          todo := todo[1..];
        }
        currentEnd := candidateEnd;
      }
    }
    LastFlush(p, segments[|segments|..], currentStart, currentEnd);
    PendingStep(t, p, body, all, windows, todo);
    var last := MakeWindow(t, p, body, currentStart, currentEnd, 0, false);
    windows := windows + last;
    PendingDone(t, p, body, all, windows);
  }

  lemma LastFlush(p: ChunkingPolicy, segments: seq<Span>, currentStart: nat, currentEnd: nat)
    requires segments == []
    ensures FlushSpans(p, segments, currentStart, currentEnd) == [Span(currentStart, currentEnd)]
  {
  }
}
