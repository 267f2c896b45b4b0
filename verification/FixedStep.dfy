/** Fixed-step cutting before blank windows are dropped: the cuts overlap by exactly the configured
    amount, undo exactly, and their number is known in advance. */
module FixedStep {
  import opened Text
  import opened ChunkPolicy
  import opened Windows
  import opened SeparatorWindows

  /** Each text without the first `overlap` characters it repeats. */
  function WithoutOverlap(texts: seq<string>, overlap: nat): string {
    if texts == [] then ""
    else (if overlap <= |texts[0]| then texts[0][overlap..] else "") + WithoutOverlap(texts[1..], overlap)
  }

  /** The first text whole, every later one without its overlap. */
  function Unlap(texts: seq<string>, overlap: nat): string {
    if texts == [] then "" else texts[0] + WithoutOverlap(texts[1..], overlap)
  }

  lemma TextsStep(body: string, spans: seq<Span>)
    requires SpansWithin(spans, |body|) && spans != []
    ensures Texts(body, spans)[0] == body[spans[0].start..spans[0].end]
    ensures Texts(body, spans)[1..] == Texts(body, spans[1..])
  {
  }

  lemma TextsNone(body: string, overlap: nat)
    ensures WithoutOverlap(Texts(body, []), overlap) == ""
  {
  }

  lemma {:induction false} TailsUndo(p: ChunkingPolicy, body: string, start: nat)
    requires Sized(p) && start + p.overlapCharacters < |body|
    ensures WithoutOverlap(Texts(body, CharacterSpans(p, |body|, start)), p.overlapCharacters)
         == body[start + p.overlapCharacters..]
    decreases |body| - start
  {
    hide CharacterSpans, Texts;
    CharacterSpansStep(p, |body|, start);
    var spans := CharacterSpans(p, |body|, start);
    var texts := Texts(body, spans);
    var end := spans[0].end;
    TextsStep(body, spans);
    assert texts[0][p.overlapCharacters..] == body[start + p.overlapCharacters..end];
    if end < |body| {
      TailsUndo(p, body, start + Step(p));
      assert body[start + p.overlapCharacters..end] + body[end..] == body[start + p.overlapCharacters..];
    } else {
      assert texts[1..] == [];
      assert body[start + p.overlapCharacters..end] == body[start + p.overlapCharacters..];
    }
  }

  /** Everything after the first cut, without the overlaps, is the text after its end. */
  lemma LaterCuts(p: ChunkingPolicy, body: string)
    requires Sized(p) && body != ""
    ensures var spans := CharacterSpans(p, |body|, 0);
      && spans != [] && spans[0].start == 0 && spans[0].end <= |body|
      && WithoutOverlap(Texts(body, spans[1..]), p.overlapCharacters) == body[spans[0].end..]
  {
    hide CharacterSpans, Texts, WithoutOverlap;
    CharacterSpansStep(p, |body|, 0);
    var spans := CharacterSpans(p, |body|, 0);
    if spans[0].end < |body| {
      TailsUndo(p, body, Step(p));
      assert Step(p) + p.overlapCharacters == spans[0].end;
    } else {
      TextsNone(body, p.overlapCharacters);
      assert body[|body|..] == "";
    }
  }

  /** Removing the overlap and concatenating the fixed-step cuts gives back the text. */
  lemma FixedStepUndo(p: ChunkingPolicy, body: string)
    requires Sized(p)
    ensures Unlap(Texts(body, CharacterSpans(p, |body|, 0)), p.overlapCharacters) == body
  {
    var spans := CharacterSpans(p, |body|, 0);
    if body == "" {
      assert spans == [];
    } else {
      hide CharacterSpans, Texts, WithoutOverlap, Step;
      LaterCuts(p, body);
      TextsStep(body, spans);
      CutAndRest(body, spans[0].end);
    }
  }

  lemma CutAndRest(body: string, end: nat)
    requires end <= |body|
    ensures body[0..end] + body[end..] == body
  {
  }

  lemma SpansOfMany(p: ChunkingPolicy, n: nat, start: nat)
    requires Sized(p) && |CharacterSpans(p, n, start)| > 1
    ensures var spans, next := CharacterSpans(p, n, start), start + p.maxCharacters - p.overlapCharacters;
      && spans[0] == Span(start, start + p.maxCharacters)
      && spans[1..] == CharacterSpans(p, n, next) && next < n && spans[1].start == next
  {
    CharacterSpansStep(p, n, start + Step(p));
  }

  /** Consecutive cuts share exactly the overlap; all but the last have the full length. */
  lemma {:induction false} FixedStepOverlap(p: ChunkingPolicy, n: nat, start: nat, i: nat)
    requires Sized(p) && i + 1 < |CharacterSpans(p, n, start)|
    ensures var spans := CharacterSpans(p, n, start);
      && spans[i].end - spans[i + 1].start == p.overlapCharacters
      && spans[i].end - spans[i].start == p.maxCharacters
    decreases i
  {
    SpansOfMany(p, n, start);
    hide CharacterSpans;
    if i > 0 {
      FixedStepOverlap(p, n, start + p.maxCharacters - p.overlapCharacters, i - 1);
    }
  }

  function CeilDiv(a: nat, b: nat): nat
    requires b > 0
  {
    (a + b - 1) / b
  }

  lemma DivUnique(x: nat, b: nat, q: nat, r: nat)
    requires b > 0 && x == q * b + r && r < b
    ensures x / b == q
  {
    var k := x / b;
    if k < q {
      MulAtLeast(q - k, b);
    } else if q < k {
      MulAtLeast(k - q, b);
    }
  }

  lemma MulAtLeast(k: nat, b: nat)
    requires k > 0
    ensures b <= k * b
  {
  }

  lemma CeilDivStep(a: nat, b: nat)
    requires b > 0 && a > 0
    ensures CeilDiv(a, b) == 1 + CeilDiv(if a > b then a - b else 0, b)
  {
    if a > b {
      var q, r := (a - 1) / b, (a - 1) % b;
      assert a - 1 == q * b + r;
      assert a + b - 1 == (q + 1) * b + r;
      DivUnique(a + b - 1, b, q + 1, r);
    } else {
      assert a + b - 1 == 1 * b + (a - 1);
      DivUnique(a + b - 1, b, 1, a - 1);
      DivUnique(b - 1, b, 0, b - 1);
    }
  }

  /** A text over the limit is cut into exactly 1 + ceil((n - max) / (max - overlap)) pieces. */
  lemma {:induction false} FixedStepCount(p: ChunkingPolicy, n: nat, start: nat)
    requires Sized(p) && start < n
    ensures var m := n - start;
      |CharacterSpans(p, n, start)|
        == 1 + CeilDiv(if m > p.maxCharacters then m - p.maxCharacters else 0, p.maxCharacters - p.overlapCharacters)
    decreases n - start
  {
    var m, step := n - start, p.maxCharacters - p.overlapCharacters;
    CharacterSpansStep(p, n, start);
    if m > p.maxCharacters {
      FixedStepCount(p, n, start + step);
      CeilDivStep(m - p.maxCharacters, step);
    } else {
      DivUnique(step - 1, step, 0, step - 1);
    }
  }
}
