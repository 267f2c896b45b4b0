/** One pass of merging is enough: no short window left over can merge with a neighbour, so a second
    pass changes nothing. */
module MergeFixpoint {
  import opened Text
  import opened ChunkPolicy
  import opened Windows
  import opened SmallWindows
  import opened SmallWindowProofs

  /** Two neighbours that the merge would still join. */
  ghost predicate Loose(t: TextRules, p: ChunkingPolicy, body: string, u: TextWindow, v: TextWindow) {
    && Fits(body, u) && Fits(body, v)
    && (IsShort(t, p, u) || IsShort(t, p, v))
    && CanMerge(t, p, body, u, v)
  }

  ghost predicate Settled(t: TextRules, p: ChunkingPolicy, body: string, ws: seq<TextWindow>) {
    forall i :: 0 <= i < |ws| - 1 ==> !Loose(t, p, body, ws[i], ws[i + 1])
  }

  /** A short window at the end of the result cannot merge with the next pending one. */
  ghost predicate TipHeld(t: TextRules, p: ChunkingPolicy, body: string, s: MergeState)
    requires StateFits(body, s)
  {
    s.result != [] && s.pending != [] && IsShort(t, p, s.result[|s.result| - 1]) ==>
      !CanMerge(t, p, body, s.result[|s.result| - 1], s.pending[0])
  }

  /** What cannot merge with a window cannot merge with a later, larger one either. */
  lemma NoMergeGrows(t: TextRules, p: ChunkingPolicy, body: string, u: TextWindow, v: TextWindow, x: TextWindow)
    requires Placed(t, p, body, u) && Placed(t, p, body, v) && Placed(t, p, body, x)
    requires u.start <= v.start <= x.start
    ensures Fits(body, u) && Fits(body, v) && Fits(body, x)
    ensures !CanMerge(t, p, body, u, v) ==> !CanMerge(t, p, body, u, MergeWindows(body, v, x))
  {
    hide IsBlank;
  }

  /** A window that is long enough stays so when it grows. */
  lemma LongGrows(t: TextRules, p: ChunkingPolicy, body: string, u: TextWindow, v: TextWindow)
    requires Placed(t, p, body, u) && Placed(t, p, body, v)
    ensures Fits(body, u) && Fits(body, v)
    ensures IsShort(t, p, MergeWindows(body, u, v)) ==> IsShort(t, p, u)
  {
    hide IsBlank;
    var m := MergeWindows(body, u, v);
    TrimGrows(t, body, u.start, u.end, m.start, m.end);
    hide Trim;
  }

  lemma SoundAt(t: TextRules, p: ChunkingPolicy, body: string, ws: seq<TextWindow>, i: nat, j: nat)
    requires Sound(t, p, body, ws) && i <= j < |ws|
    ensures Placed(t, p, body, ws[i]) && Placed(t, p, body, ws[j]) && ws[i].start <= ws[j].start
  {
  }

  lemma SettledSnoc(t: TextRules, p: ChunkingPolicy, body: string, ws: seq<TextWindow>, w: TextWindow)
    requires Settled(t, p, body, ws)
    requires ws != [] ==> !Loose(t, p, body, ws[|ws| - 1], w)
    ensures Settled(t, p, body, ws + [w])
  {
    hide Loose;
  }

  lemma SettledPrefix(t: TextRules, p: ChunkingPolicy, body: string, ws: seq<TextWindow>, k: nat)
    requires Settled(t, p, body, ws) && k <= |ws|
    ensures Settled(t, p, body, ws[..k])
  {
    hide Loose;
  }

  lemma KeepSettles(t: TextRules, p: ChunkingPolicy, body: string, s: MergeState)
    requires StateFits(body, s) && s.pending != [] && TurnOf(t, p, body, s).Keep?
    requires Settled(t, p, body, s.result) && TipHeld(t, p, body, s)
    ensures var n := NextState(t, p, body, s);
      Settled(t, p, body, n.result) && TipHeld(t, p, body, n)
  {
    hide IsShort, CanMerge, Settled;
    SettledSnoc(t, p, body, s.result, s.pending[0]);
  }

  lemma IntoPreviousSettles(t: TextRules, p: ChunkingPolicy, body: string, s: MergeState)
    requires StateFits(body, s) && s.pending != [] && TurnOf(t, p, body, s).IntoPrevious?
    requires Sound(t, p, body, AsList(s))
    requires Settled(t, p, body, s.result) && TipHeld(t, p, body, s)
    ensures var n := NextState(t, p, body, s);
      Settled(t, p, body, n.result) && TipHeld(t, p, body, n)
  {
    hide IsShort, CanMerge, MergeWindows, Sound, Placed;
    var last := |s.result| - 1;
    var u, w := s.result[last], s.pending[0];
    var m := MergeWindows(body, u, w);
    SoundAt(t, p, body, AsList(s), last, last + 1);
    LongGrows(t, p, body, u, w);
    SettledPrefix(t, p, body, s.result, last);
    if last > 0 {
      var x := s.result[last - 1];
      SoundAt(t, p, body, AsList(s), last - 1, last);
      NoMergeGrows(t, p, body, x, u, w);
      assert !Loose(t, p, body, x, u);
      assert !Loose(t, p, body, x, m);
    }
    hide Settled;
    SettledSnoc(t, p, body, s.result[..last], m);
  }

  lemma IntoNextSettles(t: TextRules, p: ChunkingPolicy, body: string, s: MergeState)
    requires StateFits(body, s) && s.pending != [] && TurnOf(t, p, body, s).IntoNext?
    requires Sound(t, p, body, AsList(s))
    requires Settled(t, p, body, s.result) && TipHeld(t, p, body, s)
    ensures var n := NextState(t, p, body, s);
      Settled(t, p, body, n.result) && TipHeld(t, p, body, n)
  {
    hide IsShort, CanMerge, MergeWindows, Sound, Placed, Settled;
    var last := |s.result| - 1;
    if s.result != [] {
      SoundAt(t, p, body, AsList(s), last, last + 1);
      SoundAt(t, p, body, AsList(s), last + 1, last + 2);
      NoMergeGrows(t, p, body, s.result[last], s.pending[0], s.pending[1]);
    }
  }

  lemma {:induction false} FinishSettles(t: TextRules, p: ChunkingPolicy, body: string, s: MergeState)
    requires StateFits(body, s) && Sound(t, p, body, AsList(s))
    requires Settled(t, p, body, s.result) && TipHeld(t, p, body, s)
    ensures Settled(t, p, body, Finish(t, p, body, s))
    decreases |s.pending|
  {
    hide NextState, Sound, Settled, TipHeld;
    if s.pending != [] {
      match TurnOf(t, p, body, s) {
        case Keep => KeepSettles(t, p, body, s);
        case IntoPrevious => IntoPreviousSettles(t, p, body, s);
        case IntoNext => IntoNextSettles(t, p, body, s);
      }
      var k := StepJoins(t, p, body, s);
      var n := NextState(t, p, body, s);
      if AsList(n) != AsList(s) {
        JoinSound(t, p, body, AsList(s), k, AsList(n));
      }
      FinishSettles(t, p, body, n);
    }
  }

  /** No short window of the result can merge with the window before or after it. */
  lemma MergedWindowsSettled(t: TextRules, p: ChunkingPolicy, body: string, ws: seq<TextWindow>)
    requires Sound(t, p, body, ws) && AllFit(body, ws)
    ensures Settled(t, p, body, MergedWindows(t, p, body, ws))
  {
    hide Sound, Finish, Fits;
    assert AsList(MergeState([], ws)) == ws;
    FinishSettles(t, p, body, MergeState([], ws));
  }

  lemma {:induction false} SettledStays(t: TextRules, p: ChunkingPolicy, body: string, ws: seq<TextWindow>, i: nat)
    requires AllFit(body, ws) && Settled(t, p, body, ws) && i <= |ws|
    ensures StateFits(body, MergeState(ws[..i], ws[i..]))
    ensures Finish(t, p, body, MergeState(ws[..i], ws[i..])) == ws
    decreases |ws| - i
  {
    hide IsShort, CanMerge;
    var s := MergeState(ws[..i], ws[i..]);
    if i < |ws| {
      SettledStays(t, p, body, ws, i + 1);
      SettledKeeps(t, p, body, ws, i);
    } else {
      assert ws[..i] == ws;
    }
  }

  lemma SettledKeeps(t: TextRules, p: ChunkingPolicy, body: string, ws: seq<TextWindow>, i: nat)
    requires AllFit(body, ws) && Settled(t, p, body, ws) && i < |ws|
    ensures StateFits(body, MergeState(ws[..i], ws[i..]))
    ensures NextState(t, p, body, MergeState(ws[..i], ws[i..])) == MergeState(ws[..i + 1], ws[i + 1..])
  {
    hide IsShort, CanMerge, MergeWindows;
    assert ws[..i] + [ws[i]] == ws[..i + 1] && ws[i..][1..] == ws[i + 1..];
    if i > 0 {
      assert !Loose(t, p, body, ws[i - 1], ws[i - 1 + 1]);
    }
  }

  /** A second pass changes nothing. */
  lemma MergeIsIdempotent(t: TextRules, p: ChunkingPolicy, body: string, ws: seq<TextWindow>)
    requires Sound(t, p, body, ws) && AllFit(body, ws)
    ensures var once := MergedWindows(t, p, body, ws);
      AllFit(body, once) && MergedWindows(t, p, body, once) == once
  {
    hide Sound, Finish, Settled, Fits;
    var once := MergedWindows(t, p, body, ws);
    assert AsList(MergeState([], ws)) == ws;
    FinishSound(t, p, body, MergeState([], ws));
    SoundFits(t, p, body, once);
    MergedWindowsSettled(t, p, body, ws);
    SettledStays(t, p, body, once, 0);
    assert once[..0] == [] && once[0..] == once;
  }
}
