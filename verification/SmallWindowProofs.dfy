/** What merging short windows guarantees: the result groups the kept windows into consecutive runs
    and covers each run exactly, nothing left over could still be merged, and protected text stays
    whole. */
module SmallWindowProofs {
  import opened Text
  import opened ChunkPolicy
  import opened Windows
  import opened WindowProofs
  import opened TextWindows
  import opened SmallWindows
  import opened ProtectedRanges

  // ---- Every turn leaves the list alone or joins two neighbours ----

  /** The windows a state stands for: those finished, then those pending. */
  function AsList(s: MergeState): seq<TextWindow> { s.result + s.pending }

  /** ws with the neighbours at k and k + 1 joined. */
  function Join(body: string, ws: seq<TextWindow>, k: nat): seq<TextWindow>
    requires k + 1 < |ws| && AllFit(body, ws)
  {
    ws[..k] + [MergeWindows(body, ws[k], ws[k + 1])] + ws[k + 2..]
  }

  ghost predicate Joined(t: TextRules, p: ChunkingPolicy, body: string, ws: seq<TextWindow>, k: nat, us: seq<TextWindow>) {
    k + 1 < |ws| && AllFit(body, ws) && CanMerge(t, p, body, ws[k], ws[k + 1]) && us == Join(body, ws, k)
  }

  lemma Around<T>(xs: seq<T>, a: T, b: T, ys: seq<T>, ws: seq<T>, m: T)
    requires ws == xs + [a, b] + ys
    ensures |ws| == |xs| + 2 + |ys| && ws[|xs|] == a && ws[|xs| + 1] == b
    ensures ws[..|xs|] + [m] + ws[|xs| + 2..] == xs + [m] + ys
  {
    assert ws[..|xs|] == xs && ws[|xs| + 2..] == ys;
  }

  lemma StepJoins(t: TextRules, p: ChunkingPolicy, body: string, s: MergeState) returns (k: nat)
    requires StateFits(body, s) && s.pending != []
    ensures var n := NextState(t, p, body, s);
      AsList(n) == AsList(s) || Joined(t, p, body, AsList(s), k, AsList(n))
  {
    hide IsShort, CanMerge, MergeWindows;
    var last := |s.result| - 1;
    var n, line := NextState(t, p, body, s), AsList(s);
    k := 0;
    match TurnOf(t, p, body, s)
    case Keep =>
      assert AsList(n) == line;
    case IntoPrevious =>
      k := last;
      assert line == s.result[..last] + [s.result[last], s.pending[0]] + s.pending[1..];
      Around(s.result[..last], s.result[last], s.pending[0], s.pending[1..], line,
             MergeWindows(body, s.result[last], s.pending[0]));
      ListFits(body, s);
    case IntoNext =>
      k := |s.result|;
      assert line == s.result + [s.pending[0], s.pending[1]] + s.pending[2..];
      Around(s.result, s.pending[0], s.pending[1], s.pending[2..], line,
             MergeWindows(body, s.pending[0], s.pending[1]));
      ListFits(body, s);
      ConcatAssoc(s.result, [MergeWindows(body, s.pending[0], s.pending[1])], s.pending[2..]);
  }

  lemma ListFits(body: string, s: MergeState)
    requires StateFits(body, s)
    ensures AllFit(body, AsList(s))
  {
    hide Fits;
  }

  lemma InsideFits(t: TextRules, p: ChunkingPolicy, body: string, ws: seq<TextWindow>, a: int, b: int)
    requires Inside(t, p, body, ws, a, b)
    ensures AllFit(body, ws)
  {
    forall i | 0 <= i < |ws| ensures Fits(body, ws[i]) {
      assert Placed(t, p, body, ws[i]);
    }
  }

  // ---- Placement, order and size ----

  ghost predicate Sound(t: TextRules, p: ChunkingPolicy, body: string, ws: seq<TextWindow>) {
    Inside(t, p, body, ws, 0, |body|) && Ordered(ws) && AtMost(ws, p.maxCharacters)
  }

  lemma SoundFits(t: TextRules, p: ChunkingPolicy, body: string, ws: seq<TextWindow>)
    requires Sound(t, p, body, ws)
    ensures AllFit(body, ws)
  {
    InsideFits(t, p, body, ws, 0, |body|);
  }

  lemma MergePlaced(t: TextRules, p: ChunkingPolicy, body: string, u: TextWindow, v: TextWindow)
    requires Placed(t, p, body, u) && Placed(t, p, body, v)
    ensures Fits(body, u) && Fits(body, v)
    ensures Placed(t, p, body, MergeWindows(body, u, v))
  {
    var m := MergeWindows(body, u, v);
    BlankSlice(t, body, u.start, u.end);
    BlankSlice(t, body, m.start, m.end);
    hide IsBlank;
  }

  lemma JoinSound(t: TextRules, p: ChunkingPolicy, body: string, ws: seq<TextWindow>, k: nat, us: seq<TextWindow>)
    requires Sound(t, p, body, ws) && Joined(t, p, body, ws, k, us)
    ensures Sound(t, p, body, us)
  {
    hide Placed, GapText;
    MergePlaced(t, p, body, ws[k], ws[k + 1]);
    forall i | 0 <= i < |us| ensures Placed(t, p, body, us[i]) && |us[i].text| <= p.maxCharacters {
      JoinAt(t, p, body, ws, k, us, i);
    }
    forall i | 0 <= i < |us| ensures 0 <= us[i].start && us[i].end <= |body| {
      PlacedFacts(t, p, body, us[i]);
    }
    forall i, j | 0 <= i < j < |us| ensures us[i].start <= us[j].start {
      JoinAt(t, p, body, ws, k, us, i);
      JoinAt(t, p, body, ws, k, us, j);
    }
  }

  /** What stands at each place after a join. */
  lemma JoinAt(t: TextRules, p: ChunkingPolicy, body: string, ws: seq<TextWindow>, k: nat, us: seq<TextWindow>, i: nat)
    requires Joined(t, p, body, ws, k, us) && i < |us|
    ensures |us| == |ws| - 1
    ensures us[i] == if i < k then ws[i] else if i == k then MergeWindows(body, ws[k], ws[k + 1]) else ws[i + 1]
  {
  }

  lemma {:induction false} FinishSound(t: TextRules, p: ChunkingPolicy, body: string, s: MergeState)
    requires StateFits(body, s) && Sound(t, p, body, AsList(s))
    ensures Sound(t, p, body, Finish(t, p, body, s))
    decreases |s.pending|
  {
    hide Sound, NextState;
    if s.pending == [] {
      assert AsList(s) == s.result;
    } else {
      var k := StepJoins(t, p, body, s);
      var n := NextState(t, p, body, s);
      if AsList(n) != AsList(s) {
        JoinSound(t, p, body, AsList(s), k, AsList(n));
      }
      FinishSound(t, p, body, n);
    }
  }

  // ---- Protected text stays whole ----

  lemma MergeRespects(t: TextRules, p: ChunkingPolicy, body: string, u: TextWindow, v: TextWindow, r: Range)
    requires 0 <= r.start < r.end <= |body|
    requires Placed(t, p, body, u) && Placed(t, p, body, v) && u.start <= v.start
    requires Fits(body, u) && Fits(body, v) && CanMerge(t, p, body, u, v)
    requires Respects(t, body, u, r) && Respects(t, body, v, r)
    ensures Respects(t, body, MergeWindows(body, u, v), r)
  {
    hide IsBlank;
    if u.end <= r.start && r.end <= v.start {
      BlankSlice(t, body, u.end, v.start);
    }
  }

  lemma JoinRespects(t: TextRules, p: ChunkingPolicy, body: string, ws: seq<TextWindow>, k: nat, us: seq<TextWindow>, r: Range)
    requires 0 <= r.start < r.end <= |body|
    requires Sound(t, p, body, ws) && Joined(t, p, body, ws, k, us) && AllRespect(t, body, ws, r)
    ensures AllRespect(t, body, us, r)
  {
    hide Placed, Respects, CanMerge;
    MergeRespects(t, p, body, ws[k], ws[k + 1], r);
    forall i | 0 <= i < |us| ensures Respects(t, body, us[i], r) {
      JoinAt(t, p, body, ws, k, us, i);
    }
  }

  /** Merging never cuts a range that the windows it started from respected. */
  lemma {:induction false} FinishRespects(t: TextRules, p: ChunkingPolicy, body: string, s: MergeState, r: Range)
    requires 0 <= r.start < r.end <= |body|
    requires StateFits(body, s) && Sound(t, p, body, AsList(s)) && AllRespect(t, body, AsList(s), r)
    ensures AllRespect(t, body, Finish(t, p, body, s), r)
    decreases |s.pending|
  {
    hide Sound, NextState, AllRespect;
    if s.pending == [] {
      assert AsList(s) == s.result;
    } else {
      var k := StepJoins(t, p, body, s);
      var n := NextState(t, p, body, s);
      if AsList(n) != AsList(s) {
        JoinSound(t, p, body, AsList(s), k, AsList(n));
        JoinRespects(t, p, body, AsList(s), k, AsList(n), r);
      }
      FinishRespects(t, p, body, n, r);
    }
  }

  // ---- Runs ----

  /** w covers exactly the windows of a run: it starts with the first of them, ends with the one that
      reaches furthest, contains them all, and protects at most one of them. A window standing for
      several fits the limit. */
  ghost predicate IsRun(p: ChunkingPolicy, body: string, w: TextWindow, run: seq<TextWindow>) {
    && run != []
    && Fits(body, w)
    && w.start == run[0].start
    && (exists i :: 0 <= i < |run| && w.end == run[i].end)
    && (forall i :: 0 <= i < |run| ==> w.start <= run[i].start && run[i].end <= w.end)
    && (w.isProtected <==> exists i :: 0 <= i < |run| && run[i].isProtected)
    && (forall i, j :: 0 <= i < j < |run| ==> !(run[i].isProtected && run[j].isProtected))
    && (if |run| == 1 then w == run[0]
        else w.text == body[w.start..w.end] && w.end - w.start <= p.maxCharacters)
  }

  /** What w adds to its run is whitespace: all of its text is in some window of the run. */
  ghost predicate RunCovers(t: TextRules, body: string, w: TextWindow, run: seq<TextWindow>) {
    w.end <= |body| && Covers(t, body, run, w.start, w.end)
  }

  ghost predicate AreRuns(t: TextRules, p: ChunkingPolicy, body: string, ws: seq<TextWindow>, runs: seq<seq<TextWindow>>) {
    |ws| == |runs| && forall i :: 0 <= i < |ws| ==> IsRun(p, body, ws[i], runs[i]) && RunCovers(t, body, ws[i], runs[i])
  }

  lemma RunConcat(t: TextRules, p: ChunkingPolicy, body: string, u: TextWindow, v: TextWindow,
                  us: seq<TextWindow>, vs: seq<TextWindow>)
    requires IsRun(p, body, u, us) && IsRun(p, body, v, vs) && u.start <= v.start
    requires CanMerge(t, p, body, u, v)
    ensures IsRun(p, body, MergeWindows(body, u, v), us + vs)
  {
    hide GapText;
    var w, run := MergeWindows(body, u, v), us + vs;
    var i :| 0 <= i < |us| && u.end == us[i].end;
    var j :| 0 <= j < |vs| && v.end == vs[j].end;
    assert run[i] == us[i] && run[|us| + j] == vs[j];
    if u.isProtected {
      var a :| 0 <= a < |us| && us[a].isProtected;
      assert run[a] == us[a];
    }
    if v.isProtected {
      var b :| 0 <= b < |vs| && vs[b].isProtected;
      assert run[|us| + b] == vs[b];
    }
  }

  lemma CoversConcat(t: TextRules, p: ChunkingPolicy, body: string, u: TextWindow, v: TextWindow,
                     us: seq<TextWindow>, vs: seq<TextWindow>)
    requires Fits(body, u) && Fits(body, v) && u.start <= v.start && CanMerge(t, p, body, u, v)
    requires RunCovers(t, body, u, us) && RunCovers(t, body, v, vs)
    ensures RunCovers(t, body, MergeWindows(body, u, v), us + vs)
  {
    hide IsBlank;
    if u.end <= v.start {
      BlankSlice(t, body, u.end, v.start);
    }
    var w := MergeWindows(body, u, v);
    hide GapText, InSome;
    forall pos | w.start <= pos < w.end && !t.isSpace(body[pos]) ensures InSome(us + vs, pos) {
      InSomeConcat(us, vs, pos);
    }
  }

  /** The runs after a join: two neighbouring runs become one. */
  function JoinRuns<T>(runs: seq<seq<T>>, k: nat): seq<seq<T>>
    requires k + 1 < |runs|
  {
    runs[..k] + [runs[k] + runs[k + 1]] + runs[k + 2..]
  }

  lemma JoinRunsFlatten<T>(runs: seq<seq<T>>, k: nat)
    requires k + 1 < |runs|
    ensures Flatten(JoinRuns(runs, k)) == Flatten(runs)
  {
    hide Flatten;
    var a, x, y, b := runs[..k], runs[k], runs[k + 1], runs[k + 2..];
    assert runs == a + ([x] + ([y] + b));
    FlattenAppend(a, [x] + ([y] + b));
    FlattenCons(x, [y] + b);
    FlattenCons(y, b);
    ConcatAssoc(a, [x + y], b);
    FlattenAppend(a, [x + y] + b);
    FlattenCons(x + y, b);
    ConcatAssoc(x, y, Flatten(b));
  }

  lemma FlattenCons<T>(xs: seq<T>, yss: seq<seq<T>>)
    ensures Flatten([xs] + yss) == xs + Flatten(yss)
  {
    assert ([xs] + yss)[1..] == yss;
  }

  lemma JoinKeepsRuns(t: TextRules, p: ChunkingPolicy, body: string, ws: seq<TextWindow>, k: nat, us: seq<TextWindow>,
                      runs: seq<seq<TextWindow>>)
    requires Ordered(ws) && Joined(t, p, body, ws, k, us) && AreRuns(t, p, body, ws, runs)
    ensures AreRuns(t, p, body, us, JoinRuns(runs, k))
  {
    hide IsRun, CanMerge, RunCovers;
    RunConcat(t, p, body, ws[k], ws[k + 1], runs[k], runs[k + 1]);
    CoversConcat(t, p, body, ws[k], ws[k + 1], runs[k], runs[k + 1]);
    forall i | 0 <= i < |us|
      ensures IsRun(p, body, us[i], JoinRuns(runs, k)[i]) && RunCovers(t, body, us[i], JoinRuns(runs, k)[i])
    {
      JoinAt(t, p, body, ws, k, us, i);
    }
  }

  lemma {:induction false} FinishRuns(t: TextRules, p: ChunkingPolicy, body: string, s: MergeState,
                                      runs: seq<seq<TextWindow>>) returns (final: seq<seq<TextWindow>>)
    requires StateFits(body, s) && Sound(t, p, body, AsList(s)) && AreRuns(t, p, body, AsList(s), runs)
    ensures AreRuns(t, p, body, Finish(t, p, body, s), final) && Flatten(final) == Flatten(runs)
    decreases |s.pending|
  {
    hide NextState, AreRuns, Inside, AtMost, Ordered;
    if s.pending == [] {
      assert AsList(s) == s.result;
      final := runs;
    } else {
      var k := StepJoins(t, p, body, s);
      var n := NextState(t, p, body, s);
      if AsList(n) == AsList(s) {
        final := FinishRuns(t, p, body, n, runs);
      } else {
        JoinSound(t, p, body, AsList(s), k, AsList(n));
        JoinKeepsRuns(t, p, body, AsList(s), k, AsList(n), runs);
        RunsLength(t, p, body, AsList(s), runs);
        JoinRunsFlatten(runs, k);
        final := FinishRuns(t, p, body, n, JoinRuns(runs, k));
      }
    }
  }

  lemma RunsLength(t: TextRules, p: ChunkingPolicy, body: string, ws: seq<TextWindow>, runs: seq<seq<TextWindow>>)
    requires AreRuns(t, p, body, ws, runs)
    ensures |ws| == |runs|
  {
  }

  lemma {:induction false} Singletons(t: TextRules, p: ChunkingPolicy, body: string, ws: seq<TextWindow>) returns (runs: seq<seq<TextWindow>>)
    requires AllFit(body, ws)
    ensures AreRuns(t, p, body, ws, runs) && Flatten(runs) == ws
  {
    if ws == [] {
      runs := [];
    } else {
      var rest := Singletons(t, p, body, ws[1..]);
      runs := [[ws[0]]] + rest;
      SingleRun(t, p, body, ws[0]);
      hide IsRun, RunCovers;
      FlattenCons([ws[0]], rest);
      assert ws == [ws[0]] + ws[1..];
    }
  }

  lemma SingleRun(t: TextRules, p: ChunkingPolicy, body: string, w: TextWindow)
    requires Fits(body, w)
    ensures IsRun(p, body, w, [w]) && RunCovers(t, body, w, [w])
  {
    forall pos | w.start <= pos < w.end ensures InSome([w], pos) {
      assert [w][0].start <= pos < [w][0].end;
    }
    assert w.end == [w][0].end && w.isProtected == [w][0].isProtected;
  }

  /** The merged windows cut the input into consecutive runs, one window for each run. */
  lemma MergedWindowsAreRuns(t: TextRules, p: ChunkingPolicy, body: string, ws: seq<TextWindow>)
    returns (runs: seq<seq<TextWindow>>)
    requires Sound(t, p, body, ws) && AllFit(body, ws)
    ensures AreRuns(t, p, body, MergedWindows(t, p, body, ws), runs)
    ensures Flatten(runs) == ws
  {
    hide Sound, AreRuns, Finish, Fits;
    var s := MergeState([], ws);
    assert AsList(s) == ws;
    var start := Singletons(t, p, body, ws);
    runs := FinishRuns(t, p, body, s, start);
  }
}
