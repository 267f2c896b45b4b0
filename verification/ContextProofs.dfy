/** What a built context guarantees: both budgets, distinct chunks, policy checks, a reason for every
    rejection, and nothing lost between retrieval and context. */
module ContextProofs {
  import opened Text
  import opened Sorting
  import opened Retrieval
  import opened Optimizer
  import opened Diversify
  import opened ContextBuilder

  /** A validated profile allows some tokens and some chunks (profile-validation requires more). */
  predicate BudgetsOk(r: BuildRequest) { TokenLimit(r) >= 0 && r.profile.maxContextChunks >= 0 }

  // ---- Budgets and distinctness ----

  ghost predicate WithinBudgets(r: BuildRequest, taken: seq<Candidate>) {
    && TokensOf(r, taken) <= TokenLimit(r)
    && |taken| <= r.profile.maxContextChunks
    && forall i, j :: 0 <= i < j < |taken| ==> taken[i].chunk.id != taken[j].chunk.id
  }

  lemma TakeWithinBudgets(t: TextRules, r: BuildRequest, taken: seq<Candidate>, c: Candidate, now: Option<int>)
    requires WithinBudgets(r, taken) && FillCode(t, r, taken, c, now).None?
    ensures WithinBudgets(r, taken + [c])
  {
    hide PolicyCode, TokenLimit, TokensOf, EstimateOf;
    TakeOne(r, taken, c);
    forall i | 0 <= i < |taken| ensures taken[i].chunk.id != c.chunk.id {
      assert taken[i] in taken;
      assert taken[i].chunk.id in IdsOf(taken);
    }
  }

  lemma {:induction false} FilledWithinBudgets(t: TextRules, r: BuildRequest, cs: seq<Candidate>, clock: nat -> Option<int>, k: nat)
    requires k <= |cs| && BudgetsOk(r)
    ensures WithinBudgets(r, Filled(t, r, cs, clock, k).taken)
  {
    if k == 0 {
      NothingFilled(r, []);
    } else {
      hide WithinBudgets, FillCode;
      FilledWithinBudgets(t, r, cs, clock, k - 1);
      var before, c := Filled(t, r, cs, clock, k - 1), cs[k - 1];
      if FillCode(t, r, before.taken, c, clock(k - 1)).None? {
        TakeWithinBudgets(t, r, before.taken, c, clock(k - 1));
      }
    }
  }

  // ---- Conservation ----

  lemma FillStepConserves(t: TextRules, r: BuildRequest, f: Fill, c: Candidate, now: Option<int>)
    ensures var n := FillStep(t, r, f, c, now);
      multiset(n.taken) + multiset(RefusedCandidates(n.refused))
        == multiset(f.taken) + multiset(RefusedCandidates(f.refused)) + multiset([c])
  {
    hide FillCode;
    var n := FillStep(t, r, f, c, now);
    if FillCode(t, r, f.taken, c, now).Some? {
      assert RefusedCandidates(n.refused) == RefusedCandidates(f.refused) + [c];
    }
  }

  lemma {:induction false} FilledConserves(t: TextRules, r: BuildRequest, cs: seq<Candidate>, clock: nat -> Option<int>, k: nat)
    requires k <= |cs|
    ensures var f := Filled(t, r, cs, clock, k);
      multiset(f.taken) + multiset(RefusedCandidates(f.refused)) == multiset(cs[..k])
  {
    hide FillStep;
    if k > 0 {
      FilledConserves(t, r, cs, clock, k - 1);
      assert cs[..k] == cs[..k - 1] + [cs[k - 1]];
      FillStepConserves(t, r, Filled(t, r, cs, clock, k - 1), cs[k - 1], clock(k - 1));
    }
  }

  // ---- Every candidate taken passed the checks, every one refused has a reason that still holds ----

  ghost predicate Passed(t: TextRules, r: BuildRequest, cs: seq<Candidate>, clock: nat -> Option<int>, k: nat, c: Candidate) {
    exists i: nat :: i < k && i < |cs| && cs[i] == c && PolicyCode(t, r, c, clock(i)).None?
  }

  /** The reason for a refusal, judged by everything taken so far: a chunk refused for its size would
      still not fit, one refused for the chunk limit finds it still reached. */
  ghost predicate Reason(t: TextRules, r: BuildRequest, cs: seq<Candidate>, clock: nat -> Option<int>, k: nat,
                         taken: seq<Candidate>, x: Refused) {
    match x.code
    case DuplicateChunk => x.candidate.chunk.id in IdsOf(taken)
    case ContextChunkLimitExceeded => |taken| >= r.profile.maxContextChunks
    case ContextTokenLimitExceeded => TokensOf(r, taken) + EstimateOf(r, x.candidate) > TokenLimit(r)
    case _ => exists i: nat :: i < k && i < |cs| && cs[i] == x.candidate && PolicyCode(t, r, cs[i], clock(i)) == Some(x.code)
  }

  lemma PolicyCodesDiffer(t: TextRules, r: BuildRequest, c: Candidate, now: Option<int>)
    ensures PolicyCode(t, r, c, now) !in
      {Some(DuplicateChunk), Some(ContextChunkLimitExceeded), Some(ContextTokenLimitExceeded)}
  {
  }

  ghost predicate Explained(t: TextRules, r: BuildRequest, cs: seq<Candidate>, clock: nat -> Option<int>, k: nat, f: Fill) {
    && (forall i :: 0 <= i < |f.taken| ==> Passed(t, r, cs, clock, k, f.taken[i]))
    && (forall i :: 0 <= i < |f.refused| ==> Reason(t, r, cs, clock, k, f.taken, f.refused[i]))
  }

  lemma ReasonStays(t: TextRules, r: BuildRequest, cs: seq<Candidate>, clock: nat -> Option<int>, k: nat,
                    taken: seq<Candidate>, c: Candidate, x: Refused)
    requires Reason(t, r, cs, clock, k, taken, x)
    ensures Reason(t, r, cs, clock, k + 1, taken, x) && Reason(t, r, cs, clock, k + 1, taken + [c], x)
  {
    hide PolicyCode, TokenLimit, TokensOf, EstimateOf, IdsOf;
    TakeOne(r, taken, c);
  }

  lemma NewReason(t: TextRules, r: BuildRequest, cs: seq<Candidate>, clock: nat -> Option<int>, k: nat, taken: seq<Candidate>)
    requires k < |cs| && FillCode(t, r, taken, cs[k], clock(k)).Some?
    ensures Reason(t, r, cs, clock, k + 1, taken, Refused(cs[k], FillCode(t, r, taken, cs[k], clock(k)).value))
  {
    PolicyCodesDiffer(t, r, cs[k], clock(k));
    hide PolicyCode, TokenLimit, TokensOf, EstimateOf, IdsOf;
  }

  lemma ExplainedStep(t: TextRules, r: BuildRequest, cs: seq<Candidate>, clock: nat -> Option<int>, k: nat, f: Fill)
    requires k < |cs| && Explained(t, r, cs, clock, k, f)
    ensures Explained(t, r, cs, clock, k + 1, FillStep(t, r, f, cs[k], clock(k)))
  {
    var n := FillStep(t, r, f, cs[k], clock(k));
    if FillCode(t, r, f.taken, cs[k], clock(k)).Some? {
      NewReason(t, r, cs, clock, k, f.taken);
    } else {
      assert Passed(t, r, cs, clock, k + 1, cs[k]);
    }
    hide FillCode, Reason, PolicyCode;
    forall i | 0 <= i < |n.refused| ensures Reason(t, r, cs, clock, k + 1, n.taken, n.refused[i]) {
      if i < |f.refused| {
        assert n.refused[i] == f.refused[i];
        ReasonStays(t, r, cs, clock, k, f.taken, cs[k], f.refused[i]);
      }
    }
    forall i | 0 <= i < |n.taken| ensures Passed(t, r, cs, clock, k + 1, n.taken[i]) {
      if i < |f.taken| {
        assert n.taken[i] == f.taken[i];
        assert Passed(t, r, cs, clock, k, f.taken[i]);
      }
    }
  }

  lemma {:induction false} FilledExplained(t: TextRules, r: BuildRequest, cs: seq<Candidate>, clock: nat -> Option<int>, k: nat)
    requires k <= |cs|
    ensures Explained(t, r, cs, clock, k, Filled(t, r, cs, clock, k))
  {
    hide Explained, FillStep;
    if k == 0 {
      NothingExplained(t, r, cs, clock);
    } else {
      FilledExplained(t, r, cs, clock, k - 1);
      ExplainedStep(t, r, cs, clock, k - 1, Filled(t, r, cs, clock, k - 1));
    }
  }

  lemma NothingExplained(t: TextRules, r: BuildRequest, cs: seq<Candidate>, clock: nat -> Option<int>)
    ensures Explained(t, r, cs, clock, 0, Fill([], []))
  {
  }

  // ---- The built context ----

  function SumTokens(blocks: seq<ContextBlock>): nat {
    if blocks == [] then 0 else SumTokens(blocks[..|blocks| - 1]) + blocks[|blocks| - 1].tokenEstimate
  }

  lemma {:induction false} SumOfBlocks(r: BuildRequest, cs: seq<Candidate>)
    ensures SumTokens(BlocksOf(r, cs)) == TokensOf(r, cs)
  {
    hide EstimateOf;
    if cs != [] {
      var last := |cs| - 1;
      SumOfBlocks(r, cs[..last]);
      var blocks := BlocksOf(r, cs);
      assert blocks[..last] == BlocksOf(r, cs[..last]);
      assert blocks[last] == BlockOf(r, cs[last], |cs|);
    }
  }

  /** The context keeps to both budgets, counts its tokens exactly, never repeats a chunk and numbers
      its blocks from 1. */
  lemma BuiltContextWithinBudgets(t: TextRules, a: TextAnalysis, r: BuildRequest, clock: nat -> Option<int>)
    requires BudgetsOk(r)
    ensures var context := BuiltContext(t, a, r, clock);
      && context.totalTokenEstimate == SumTokens(context.blocks) <= TokenLimit(r)
      && |context.blocks| <= r.profile.maxContextChunks
      && (forall i :: 0 <= i < |context.blocks| ==> context.blocks[i].index == i + 1)
      && (forall i, j :: 0 <= i < j < |context.blocks| ==> context.blocks[i].chunkId != context.blocks[j].chunkId)
  {
    hide Deduped, Diversified, Filled, TokenLimit, RejectionsOf, SummaryOf, CitationsOf, EstimateOf, SumTokens, TokensOf;
    var offered := Diversified(Deduped(a, r).kept);
    FilledWithinBudgets(t, r, offered, clock, |offered|);
    SumOfBlocks(r, Filled(t, r, offered, clock, |offered|).taken);
  }

  /** The parts a context is made of: what the optimizer refused, what filling refused, what was taken. */
  datatype Parts = Parts(early: seq<Refused>, offered: seq<Candidate>, fill: Fill)

  function PartsOf(t: TextRules, a: TextAnalysis, r: BuildRequest, clock: nat -> Option<int>): Parts {
    var pass := Deduped(a, r);
    var offered := Diversified(pass.kept);
    Parts(pass.refused, offered, Filled(t, r, offered, clock, |offered|))
  }

  /** Every retrieved candidate is a block or a rejection, exactly once. */
  lemma BuiltContextConserves(t: TextRules, a: TextAnalysis, r: BuildRequest, clock: nat -> Option<int>)
    ensures var context, parts := BuiltContext(t, a, r, clock), PartsOf(t, a, r, clock);
      && context.blocks == BlocksOf(r, parts.fill.taken)
      && multiset(parts.fill.taken) + multiset(RefusedCandidates(parts.fill.refused))
         + multiset(RefusedCandidates(parts.early)) == multiset(r.candidates)
      && |context.blocks| + context.rejectedCount == |r.candidates|
      && context.rejected == if ShowsRejected(r) then RejectionsOf(parts.early) + RejectionsOf(parts.fill.refused) else []
  {
    var parts := PartsOf(t, a, r, clock);
    hide Diversified, Filled, OrderedCandidates, OrderedForContext, Dedupe, SummaryOf, CitationsOf, TokensOf;
    var ordered := OrderedCandidates(a, r.profile.preferTrustedSources, OrderedForContext(r));
    OrderedCandidatesCorrect(a, r.profile.preferTrustedSources, OrderedForContext(r));
    DedupeConserves(a, ordered, |ordered|);
    assert ordered[..|ordered|] == ordered;
    DiversifiedIsPermutation(Deduped(a, r).kept);
    FilledConserves(t, r, parts.offered, clock, |parts.offered|);
    assert parts.offered[..|parts.offered|] == parts.offered;
    hide PartsOf, Deduped;
    ConservedCount(r.candidates, parts);
  }

  lemma ConservedCount(candidates: seq<Candidate>, parts: Parts)
    requires multiset(parts.fill.taken) + multiset(RefusedCandidates(parts.fill.refused))
             + multiset(RefusedCandidates(parts.early)) == multiset(candidates)
    ensures |parts.fill.taken| + |parts.fill.refused| + |parts.early| == |candidates|
  {
    var all := parts.fill.taken + RefusedCandidates(parts.fill.refused) + RefusedCandidates(parts.early);
    assert multiset(all) == multiset(candidates);
    SameElements(all, candidates);
  }

  /** Every block passed every policy check when its turn came, and every rejection has its reason:
      a better-scored kept duplicate, or a check or budget it still fails. */
  lemma BuiltContextExplained(t: TextRules, a: TextAnalysis, r: BuildRequest, clock: nat -> Option<int>)
    ensures var parts := PartsOf(t, a, r, clock);
      && Explained(t, r, parts.offered, clock, |parts.offered|, parts.fill)
      && (forall i :: 0 <= i < |parts.early| ==>
            Witness(a, r.profile.preferTrustedSources, parts.early[i], Deduped(a, r).kept))
  {
    hide Diversified, Filled, OrderedCandidates, OrderedForContext, Dedupe, Explained, Witness, ScoresFall;
    var parts := PartsOf(t, a, r, clock);
    var ordered := OrderedCandidates(a, r.profile.preferTrustedSources, OrderedForContext(r));
    OrderedCandidatesCorrect(a, r.profile.preferTrustedSources, OrderedForContext(r));
    DedupeJustifies(a, r.profile.preferTrustedSources, ordered, |ordered|);
    FilledExplained(t, r, parts.offered, clock, |parts.offered|);
  }
}
