/** Fixed steps without overlap: a range is spared exactly when it lies in one step. */
module EvenSteps {
  import opened Text
  import opened ChunkPolicy
  import opened Windows
  import opened ProtectedRanges
  import opened TextWindows
  import opened SmallWindows
  import opened Stretches
  import opened RegionCuts

  /** Fixed steps, each beginning where the one before ends. */
  predicate Even(p: ChunkingPolicy) {
    Sized(p) && p.overlapCharacters == 0 && p.boundaryStrategy == CharacterWindow
  }

  /** The last multiple of the limit up to `offset`, which is where its step starts. */
  function StepStart(p: ChunkingPolicy, offset: nat): (start: nat)
    requires Sized(p)
    ensures start <= offset < start + p.maxCharacters
  {
    if offset < p.maxCharacters then 0 else p.maxCharacters + StepStart(p, offset - p.maxCharacters)
  }

  lemma {:induction false} StepStartsThere(p: ChunkingPolicy, offset: nat)
    requires Sized(p)
    ensures StepStart(p, StepStart(p, offset)) == StepStart(p, offset)
  {
    if offset >= p.maxCharacters { StepStartsThere(p, offset - p.maxCharacters); }
  }

  lemma {:induction false} StepsApart(p: ChunkingPolicy, a: nat, b: nat)
    requires Sized(p) && StepStart(p, a) == a
    ensures var c := StepStart(p, b); a == c || a + p.maxCharacters <= c || c + p.maxCharacters <= a
  {
    if p.maxCharacters <= a && p.maxCharacters <= b { StepsApart(p, a - p.maxCharacters, b - p.maxCharacters); }
  }

  /** The spans visited from `start` are the whole steps from there on, and what is left at the end. */
  lemma {:induction false} EvenSpans(p: ChunkingPolicy, n: nat, start: nat, s: Span)
    requires Even(p)
    ensures s in CharacterSpans(p, n, start) <==>
      && start <= s.start < n && s.end == Min(n, s.start + p.maxCharacters)
      && StepStart(p, s.start - start) == s.start - start
    decreases n - start
  {
    if start < n {
      var spans := CharacterSpans(p, n, start);
      CharacterSpansStep(p, n, start);
      assert spans == [spans[0]] + spans[1..];
      assert s.start >= start + p.maxCharacters ==>
        StepStart(p, s.start - start) == p.maxCharacters + StepStart(p, s.start - start - p.maxCharacters);
      assert start < s.start < start + p.maxCharacters ==> StepStart(p, s.start - start) == 0;
      hide CharacterSpans, StepStart;
      if start + p.maxCharacters < n {
        EvenSpans(p, n, start + p.maxCharacters, s);
      }
    }
  }

  lemma MovedMember(spans: seq<Span>, a: nat, s: Span)
    requires s.start >= a && s.end >= a
    ensures s in Moved(spans, a) <==> Span(s.start - a, s.end - a) in spans
  {
    var own := Span(s.start - a, s.end - a);
    if own in spans {
      var i :| 0 <= i < |spans| && spans[i] == own;
      assert Moved(spans, a)[i] == s;
    }
  }

  lemma MovedAfter(spans: seq<Span>, a: nat, s: Span)
    requires s in Moved(spans, a)
    ensures s.start >= a && s.end >= a
  {
  }

  lemma EvenStretches(t: TextRules, p: ChunkingPolicy, body: string, m: Range, s: Span)
    requires Even(p) && 0 <= m.start <= m.end <= |body| && m.end - m.start > p.maxCharacters
    ensures s in StretchesOf(t, p, body, m.start, m.end) <==>
      && m.start <= s.start < m.end && s.end == Min(m.end, s.start + p.maxCharacters)
      && StepStart(p, s.start - m.start) == s.start - m.start
  {
    hide CharacterSpans, Moved;
    var spans := CharacterSpans(p, m.end - m.start, 0);
    assert StretchesOf(t, p, body, m.start, m.end) == Moved(spans, m.start);
    hide StretchesOf;
    if s in Moved(spans, m.start) {
      MovedAfter(spans, m.start, s);
    }
    if m.start <= s.start && m.start <= s.end {
      MovedMember(spans, m.start, s);
      EvenSpans(p, m.end - m.start, 0, Span(s.start - m.start, s.end - m.start));
    }
  }

  /** The range ends in the step it starts in, counting from `origin`. */
  predicate InOneStep(p: ChunkingPolicy, origin: int, r: Range)
    requires Sized(p) && origin <= r.start
  {
    r.end - origin <= StepStart(p, r.start - origin) + p.maxCharacters
  }

  lemma InOneStepSpares(t: TextRules, p: ChunkingPolicy, body: string, m: Range, r: Range)
    requires Even(p) && 0 <= m.start <= r.start < r.end <= m.end <= |body| && m.end - m.start > p.maxCharacters
    requires InOneStep(p, m.start, r)
    ensures AllSpare(t, p, body, StretchesOf(t, p, body, m.start, m.end), r)
  {
    hide StretchesOf, Spares;
    forall s | s in StretchesOf(t, p, body, m.start, m.end) ensures Spares(t, p, body, s, r) {
      EvenStretches(t, p, body, m, s);
      StepsApart(p, s.start - m.start, r.start - m.start);
      HoldingSpares(t, p, body, s, r);
    }
  }

  /** The range of text has no whitespace in it. */
  ghost predicate Solid(t: TextRules, body: string, m: Range)
    requires 0 <= m.start <= m.end <= |body|
  {
    forall pos :: m.start <= pos < m.end ==> !t.isSpace(body[pos])
  }

  lemma SolidStretch(t: TextRules, p: ChunkingPolicy, body: string, s: Span, m: Range)
    requires Sized(p) && 0 <= m.start <= s.start < s.end <= m.end <= |body| && Solid(t, body, m)
    requires s.end - s.start >= p.minCharacters
    ensures var w := Trimmed(t, p, body, s);
      w.start == s.start && w.end == s.end && !IsBlank(t, w.text) && !ShouldDrop(t, p, w)
  {
    var w := Trimmed(t, p, body, s);
    assert TrimmedSpan(t, p, body, s) == s;
    assert w.text[0] == body[s.start] && w.text[|w.text| - 1] == body[s.end - 1];
    assert Trim(t, w.text) == w.text;
  }

  lemma CutByStep(t: TextRules, p: ChunkingPolicy, body: string, m: Range, r: Range)
    requires Even(p) && 0 <= m.start <= r.start < r.end <= m.end <= |body| && m.end - m.start > p.maxCharacters
    requires !InOneStep(p, m.start, r) && Solid(t, body, m)
    ensures !AllSpare(t, p, body, StretchesOf(t, p, body, m.start, m.end), r)
  {
    hide StretchesOf, ShouldDrop, Trimmed, IsBlank, StepStart;
    assert !t.isSpace(body[r.end - 1]);
    var c := StepStart(p, r.start - m.start);
    var s := Span(m.start + c, m.start + c + p.maxCharacters);
    StepStartsThere(p, r.start - m.start);
    EvenStretches(t, p, body, m, s);
    SolidStretch(t, p, body, s, m);
    hide Solid;
    assert !Spares(t, p, body, s, r);
  }

  /** In a merged range that is too long for one window, a range that lies in one step is spared; in
      a merged range without whitespace no other one is. */
  lemma EvenStepsSpareIff(t: TextRules, p: ChunkingPolicy, body: string, m: Range, r: Range)
    requires Even(p) && 0 <= m.start <= r.start < r.end <= m.end <= |body| && m.end - m.start > p.maxCharacters
    ensures var spared := AllSpare(t, p, body, StretchesOf(t, p, body, m.start, m.end), r);
      && (InOneStep(p, m.start, r) ==> spared)
      && (Solid(t, body, m) ==> (spared <==> InOneStep(p, m.start, r)))
  {
    hide StretchesOf, AllSpare, Solid, InOneStep;
    if InOneStep(p, m.start, r) {
      InOneStepSpares(t, p, body, m, r);
    } else if Solid(t, body, m) {
      CutByStep(t, p, body, m, r);
    }
  }
}
