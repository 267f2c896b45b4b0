/** Dropping page furniture and merging short windows into their neighbours. */
module SmallWindows {
  import opened Text
  import opened ChunkPolicy
  import opened Windows
  import opened TextWindows
  import opened ProtectedRanges

  predicate Fits(body: string, w: TextWindow) { w.start <= w.end <= |body| }

  predicate AllFit(body: string, ws: seq<TextWindow>) {
    forall i :: 0 <= i < |ws| ==> Fits(body, ws[i])
  }

  predicate IsShort(t: TextRules, p: ChunkingPolicy, w: TextWindow) {
    |Trim(t, w.text)| < p.minCharacters
  }

  // ---- Furniture ----

  predicate ShouldDrop(t: TextRules, p: ChunkingPolicy, w: TextWindow) {
    IsShort(t, p, w) && t.isFurniture(Trim(t, w.text))
  }

  function DropFurniture(t: TextRules, p: ChunkingPolicy, ws: seq<TextWindow>): (kept: seq<TextWindow>)
    ensures forall w :: w in kept <==> w in ws && !ShouldDrop(t, p, w)
  {
    if ws == [] then []
    else (if ShouldDrop(t, p, ws[0]) then [] else [ws[0]]) + DropFurniture(t, p, ws[1..])
  }

  lemma {:induction false} DropFurnitureOrdered(t: TextRules, p: ChunkingPolicy, ws: seq<TextWindow>)
    requires Ordered(ws)
    ensures Ordered(DropFurniture(t, p, ws))
  {
    hide ShouldDrop;
    if ws != [] {
      DropFurnitureOrdered(t, p, ws[1..]);
      var rest := DropFurniture(t, p, ws[1..]);
      forall j | 0 <= j < |rest| ensures ws[0].start <= rest[j].start {
        assert rest[j] in rest;
        assert rest[j] in ws[1..];
      }
    }
  }

  // ---- Merging two windows ----

  /** The text strictly between two windows, whichever comes first. */
  function GapText(body: string, first: TextWindow, second: TextWindow): string
    requires Fits(body, first) && Fits(body, second)
  {
    if first.end <= second.start then body[first.end..second.start]
    else if second.end <= first.start then body[second.end..first.start]
    else ""
  }

  predicate CanMerge(t: TextRules, p: ChunkingPolicy, body: string, first: TextWindow, second: TextWindow)
    requires Fits(body, first) && Fits(body, second)
  {
    && !(first.isProtected && second.isProtected)
    && Max(first.end, second.end) - Min(first.start, second.start) <= p.maxCharacters
    && IsBlank(t, GapText(body, first, second))
  }

  function MergeWindows(body: string, first: TextWindow, second: TextWindow): (w: TextWindow)
    requires Fits(body, first) && Fits(body, second)
    ensures w.start <= w.end <= |body|
  {
    var start: nat, end: nat := Min(first.start, second.start), Max(first.end, second.end);
    TextWindow(body[start..end], start, end, first.isProtected || second.isProtected)
  }

  // ---- mergeSmallWindows, one loop turn at a time ----

  datatype MergeState = MergeState(result: seq<TextWindow>, pending: seq<TextWindow>)

  predicate StateFits(body: string, s: MergeState) {
    AllFit(body, s.result) && AllFit(body, s.pending)
  }

  /** Which of the four branches a loop turn takes. */
  datatype Turn = Keep | IntoPrevious | IntoNext

  function TurnOf(t: TextRules, p: ChunkingPolicy, body: string, s: MergeState): Turn
    requires StateFits(body, s) && s.pending != []
  {
    var w := s.pending[0];
    if !IsShort(t, p, w) then Keep
    else if s.result != [] && CanMerge(t, p, body, s.result[|s.result| - 1], w) then IntoPrevious
    else if |s.pending| > 1 && CanMerge(t, p, body, w, s.pending[1]) then IntoNext
    else Keep
  }

  function NextState(t: TextRules, p: ChunkingPolicy, body: string, s: MergeState): (n: MergeState)
    requires StateFits(body, s) && s.pending != []
    ensures StateFits(body, n) && |n.pending| == |s.pending| - 1
  {
    var w, last := s.pending[0], |s.result| - 1;
    match TurnOf(t, p, body, s)
    case Keep => MergeState(s.result + [w], s.pending[1..])
    case IntoPrevious =>
      MergeState(s.result[..last] + [MergeWindows(body, s.result[last], w)], s.pending[1..])
    case IntoNext =>
      MergeState(s.result, [MergeWindows(body, w, s.pending[1])] + s.pending[2..])
  }

  function Finish(t: TextRules, p: ChunkingPolicy, body: string, s: MergeState): seq<TextWindow>
    requires StateFits(body, s)
    decreases |s.pending|
  {
    if s.pending == [] then s.result else Finish(t, p, body, NextState(t, p, body, s))
  }

  function MergedWindows(t: TextRules, p: ChunkingPolicy, body: string, ws: seq<TextWindow>): seq<TextWindow>
    requires AllFit(body, ws)
  {
    Finish(t, p, body, MergeState([], ws))
  }

  /** One turn, in terms of the array the loop walks over. */
  lemma StepAt(t: TextRules, p: ChunkingPolicy, body: string, result: seq<TextWindow>, pending: seq<TextWindow>, index: nat)
    requires index < |pending| && StateFits(body, MergeState(result, pending[index..]))
    ensures var s := MergeState(result, pending[index..]);
      var window, last := pending[index], |result| - 1;
      match TurnOf(t, p, body, s)
      case Keep => NextState(t, p, body, s) == MergeState(result + [window], pending[index + 1..])
      case IntoPrevious =>
        && result != [] && Fits(body, result[last]) && Fits(body, window)
        && NextState(t, p, body, s)
           == MergeState(result[..last] + [MergeWindows(body, result[last], window)], pending[index + 1..])
      case IntoNext =>
        && index + 1 < |pending| && Fits(body, window) && Fits(body, pending[index + 1])
        && NextState(t, p, body, s)
           == MergeState(result, pending[index + 1 := MergeWindows(body, window, pending[index + 1])][index + 1..])
  {
    hide IsShort, CanMerge, MergeWindows;
    var s := MergeState(result, pending[index..]);
    assert s.pending[1..] == pending[index + 1..];
    match TurnOf(t, p, body, s)
    case Keep =>
    case IntoPrevious =>
    case IntoNext =>
      assert s.pending[2..] == pending[index + 2..];
  }

  method MergeSmallWindows(t: TextRules, p: ChunkingPolicy, body: string, windows: seq<TextWindow>)
    returns (result: seq<TextWindow>)
    requires AllFit(body, windows)
    ensures result == MergedWindows(t, p, body, windows)
  {
    hide NextState, Finish, CanMerge, IsShort, MergeWindows;
    result := [];
    var pending := windows;
    var index := 0;
    assert pending[0..] == pending;
    while index < |pending|
      invariant 0 <= index <= |pending|
      invariant StateFits(body, MergeState(result, pending[index..]))
      invariant Finish(t, p, body, MergeState(result, pending[index..])) == MergedWindows(t, p, body, windows)
      decreases |pending| - index
    {
      var window, last := pending[index], |result| - 1;
      StepAt(t, p, body, result, pending, index);
      FinishStep(t, p, body, MergeState(result, pending[index..]));
      if !IsShort(t, p, window) {
        result := result + [window];
      } else if last >= 0 && CanMerge(t, p, body, result[last], window) {
        result := result[..last] + [MergeWindows(body, result[last], window)];
      } else if index + 1 < |pending| && CanMerge(t, p, body, window, pending[index + 1]) {
        pending := pending[index + 1 := MergeWindows(body, window, pending[index + 1])];
      } else {
        result := result + [window];
      }
      index := index + 1;
    }
    FinishEnd(t, p, body, MergeState(result, pending[index..]));
  }

  lemma FinishEnd(t: TextRules, p: ChunkingPolicy, body: string, s: MergeState)
    requires StateFits(body, s) && s.pending == []
    ensures Finish(t, p, body, s) == s.result
  {
  }

  lemma FinishStep(t: TextRules, p: ChunkingPolicy, body: string, s: MergeState)
    requires StateFits(body, s) && s.pending != []
    ensures Finish(t, p, body, s) == Finish(t, p, body, NextState(t, p, body, s))
  {
  }
}
