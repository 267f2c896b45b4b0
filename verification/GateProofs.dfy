/** The builder's verdict and the draft validator agree. */
module GateProofs {
  import opened Text
  import opened Retrieval
  import opened Optimizer
  import opened ContextBuilder
  import opened ContextProofs
  import opened RelationshipPath
  import opened GroundingGate

  /** What every built context has: a verdict on its own blocks, and no chunk twice. */
  ghost predicate Assessed(p: Profile, context: Context) {
    && context.evidence == SummaryOf(p, context.blocks)
    && forall i, j :: 0 <= i < j < |context.blocks| ==> context.blocks[i].chunkId != context.blocks[j].chunkId
  }

  lemma BuiltContextIsAssessed(t: TextRules, a: TextAnalysis, r: BuildRequest, clock: nat -> Option<int>)
    requires BudgetsOk(r)
    ensures Assessed(r.profile, BuiltContext(t, a, r, clock))
  {
    hide Deduped, Diversify.Diversified, Filled, RejectionsOf, SummaryOf, CitationsOf, TokensOf, SumTokens;
    BuiltContextWithinBudgets(t, a, r, clock);
  }

  /** What profile validation makes of the citation policy of every profile that the builder and the
      gate receive: citations are required, at least one of them trusted. */
  predicate CitationPolicyOk(p: Profile) {
    p.requireCitations && 1 <= p.minimumTrustedCitations <= p.minimumCitations
  }

  // ---- The gate ----

  /** Generation is allowed exactly when the context is answerable, with exactly its chunks to cite. */
  lemma GateFollowsVerdict(t: TextRules, g: GateSettings, p: Profile, question: string, context: Context)
    requires context.evidence == SummaryOf(p, context.blocks) && Prepare(t, g, p, question, context).Success?
    ensures var gate := Prepare(t, g, p, question, context).value;
      && (gate.canGenerate <==> context.evidence.canAttemptAnswer)
      && (gate.status == GateRefused <==> !gate.canGenerate)
      && (gate.canGenerate ==> gate.allowedCitationChunkIds == Some(ChunkIdsOf(context.blocks)))
  {
    hide CountTrusted, CountReview, StatusOf, IsBlank;
  }

  /** A draft that does not refuse is never valid on a context that is not answerable. */
  lemma UnanswerableNeedsRefusal(t: TextRules, p: Profile, leaks: string -> bool, context: Context, draft: Draft)
    requires !context.evidence.canAttemptAnswer && !draft.refusal
    ensures !NoErrors(IssuesOf(t, p, leaks, context, draft))
  {
    hide AnswerIssues, UnknownIssues, BlockTable, KnownBlocks, UnknownIds, IsBlank, CitedIds;
    var issues := IssuesOf(t, p, leaks, context, draft);
    var first := |When(!draft.refusal && IsBlank(t, draft.answer), EmptyAnswer)|;
    assert issues[first] == RefusalRequired;
  }

  // ---- Citing every allowed chunk ----

  /** The draft cites the allowed chunks and no others, in whatever order and however often. */
  ghost predicate CitesExactly(draft: Draft, context: Context) {
    forall id :: id in CitedIds(draft) <==> id in ChunkIdsOf(context.blocks)
  }

  lemma {:induction false} BlockTableKeys(blocks: seq<ContextBlock>, k: nat)
    requires k <= |blocks|
    requires forall i, j :: 0 <= i < j < |blocks| ==> blocks[i].chunkId != blocks[j].chunkId
    ensures forall i :: 0 <= i < k ==>
      blocks[i].chunkId in BlockTable(blocks, k) && BlockTable(blocks, k)[blocks[i].chunkId] == blocks[i]
    ensures forall id :: id in BlockTable(blocks, k) ==> exists i :: 0 <= i < k && blocks[i].chunkId == id
  {
    if k > 0 { BlockTableKeys(blocks, k - 1); }
  }

  lemma {:induction false} AllKnown(ids: seq<string>, table: map<string, ContextBlock>)
    requires forall id :: id in ids ==> id in table
    ensures UnknownIds(ids, table) == [] && |KnownBlocks(ids, table)| == |ids|
    ensures forall i :: 0 <= i < |ids| ==> KnownBlocks(ids, table)[i] == table[ids[i]]
  {
    if ids != [] {
      var before := ids[..|ids| - 1];
      assert forall id :: id in before ==> id in ids;
      assert ids[|ids| - 1] in ids;
      AllKnown(before, table);
    }
  }

  /** Trusted blocks as a multiset count, so that the order of citing does not matter. */
  lemma {:induction false} CountTrustedPermutes(p: Profile, xs: seq<ContextBlock>, ys: seq<ContextBlock>)
    requires multiset(xs) == multiset(ys)
    ensures CountTrusted(p, xs) == CountTrusted(p, ys)
    decreases |xs|
  {
    hide IsTrusted;
    if xs == [] {
      Sorting.SameElements(xs, ys);
    } else {
      var i := Locate(xs, ys);
      CountTrustedAt(p, ys, i);
      CountTrustedPermutes(p, xs[1..], ys[..i] + ys[i + 1..]);
    }
  }

  /** Where the first of xs is in a permutation of xs; without it the rest is a permutation too. */
  lemma Locate<T>(xs: seq<T>, ys: seq<T>) returns (i: nat)
    requires multiset(xs) == multiset(ys) && xs != []
    ensures i < |ys| && ys[i] == xs[0] && multiset(ys[..i] + ys[i + 1..]) == multiset(xs[1..])
  {
    Sorting.SameElements(xs, ys);
    assert xs[0] in xs;
    i :| 0 <= i < |ys| && ys[i] == xs[0];
    Without(ys, i);
    assert xs == [xs[0]] + xs[1..];
  }

  lemma Without<T>(xs: seq<T>, i: nat)
    requires i < |xs|
    ensures multiset(xs[..i] + xs[i + 1..]) == multiset(xs) - multiset{xs[i]}
  {
    assert xs == xs[..i] + [xs[i]] + xs[i + 1..];
  }

  lemma {:induction false} CountTrustedAt(p: Profile, ys: seq<ContextBlock>, i: nat)
    requires i < |ys|
    ensures CountTrusted(p, ys) == CountTrusted(p, ys[..i] + ys[i + 1..]) + if IsTrusted(p, ys[i]) then 1 else 0
  {
    hide IsTrusted;
    if i == 0 {
      assert ys[..0] + ys[1..] == ys[1..];
    } else {
      CountTrustedAt(p, ys[1..], i - 1);
      var rest := ys[..i] + ys[i + 1..];
      assert rest[1..] == ys[1..][..i - 1] + ys[1..][i..];
    }
  }

  lemma {:induction false} SameDistinctElements<T>(xs: seq<T>, ys: seq<T>)
    requires forall x :: x in xs <==> x in ys
    requires forall i, j :: 0 <= i < j < |xs| ==> xs[i] != xs[j]
    requires forall i, j :: 0 <= i < j < |ys| ==> ys[i] != ys[j]
    ensures multiset(xs) == multiset(ys)
  {
    forall x ensures multiset(xs)[x] == multiset(ys)[x] {
      DistinctMultiplicity(xs, x);
      DistinctMultiplicity(ys, x);
    }
  }

  lemma {:induction false} DistinctMultiplicity<T>(xs: seq<T>, x: T)
    requires forall i, j :: 0 <= i < j < |xs| ==> xs[i] != xs[j]
    ensures multiset(xs)[x] == if x in xs then 1 else 0
  {
    if xs != [] {
      DistinctMultiplicity(xs[1..], x);
      assert xs == [xs[0]] + xs[1..];
    }
  }

  /** Citing exactly the allowed chunks resolves to exactly the context's blocks. */
  lemma CitedBlocksAreAll(p: Profile, context: Context, draft: Draft)
    requires Assessed(p, context) && CitesExactly(draft, context)
    ensures var cited, table := CitedIds(draft), BlockTable(context.blocks, |context.blocks|);
      && UnknownIds(cited, table) == []
      && multiset(KnownBlocks(cited, table)) == multiset(context.blocks)
      && |cited| == |context.blocks|
  {
    hide SummaryOf, Unique, BlockTable, KnownBlocks, UnknownIds;
    var cited, table := CitedIds(draft), BlockTable(context.blocks, |context.blocks|);
    var ids := ChunkIdsOf(context.blocks);
    BlockTableKeys(context.blocks, |context.blocks|);
    forall id | id in cited ensures id in table {
      assert id in ids;
      var i :| 0 <= i < |ids| && ids[i] == id;
      assert context.blocks[i].chunkId in table;
    }
    AllKnown(cited, table);
    CitedDistinct(draft);
    SameDistinctElements(cited, ids);
    Sorting.SameElements(cited, ids);
    var known := KnownBlocks(cited, table);
    forall i | 0 <= i < |known| ensures known[i] in context.blocks && known[i].chunkId == cited[i] {
      assert cited[i] in ids;
      var j :| 0 <= j < |ids| && ids[j] == cited[i];
      assert table[context.blocks[j].chunkId] == context.blocks[j];
    }
    forall b | b in context.blocks ensures b in known {
      var j :| 0 <= j < |context.blocks| && context.blocks[j] == b;
      assert ids[j] in cited;
      var i :| 0 <= i < |cited| && cited[i] == ids[j];
      assert known[i] == table[ids[j]];
    }
    SameDistinctElements(known, context.blocks);
  }

  lemma CitedDistinct(draft: Draft)
    ensures var cited := CitedIds(draft); forall i, j :: 0 <= i < j < |cited| ==> cited[i] != cited[j]
  {
  }

  /** Exactly when such a draft gets no citation issue, for any assessed context. */
  lemma CitationVerdict(t: TextRules, p: Profile, context: Context, draft: Draft)
    requires Assessed(p, context) && CitesExactly(draft, context)
    ensures var cited, table := CitedIds(draft), BlockTable(context.blocks, |context.blocks|);
      CitationIssues(p, cited, KnownBlocks(cited, table)) == [] <==>
        && (p.requireCitations ==> context.blocks != [])
        && p.minimumCitations <= |context.blocks|
        && p.minimumTrustedCitations <= context.evidence.trustedCitationCount
  {
    hide Unique, BlockTable, KnownBlocks, UnknownIds, CountTrusted, StatusOf, CountReview;
    CitedBlocksAreAll(p, context, draft);
    var cited, table := CitedIds(draft), BlockTable(context.blocks, |context.blocks|);
    CountTrustedPermutes(p, KnownBlocks(cited, table), context.blocks);
    Sorting.SameElements(KnownBlocks(cited, table), context.blocks);
  }

  /** Under a validated policy the builder's four tests come down to the two minimum counts. */
  lemma AnswerableMeaning(p: Profile, context: Context)
    requires CitationPolicyOk(p) && context.evidence == SummaryOf(p, context.blocks)
    ensures context.evidence.canAttemptAnswer <==>
      && p.minimumCitations <= |context.blocks|
      && p.minimumTrustedCitations <= context.evidence.trustedCitationCount
  {
    hide CountTrusted, CountReview;
  }

  /** The builder and the validator agree: for every validated profile a context is answerable exactly
      when a draft citing exactly the allowed chunks gets no citation issue. */
  lemma GateAndValidatorAgree(t: TextRules, p: Profile, context: Context, draft: Draft)
    requires Assessed(p, context) && CitesExactly(draft, context) && CitationPolicyOk(p)
    ensures var cited, table := CitedIds(draft), BlockTable(context.blocks, |context.blocks|);
      && UnknownIds(cited, table) == []
      && (context.evidence.canAttemptAnswer <==> CitationIssues(p, cited, KnownBlocks(cited, table)) == [])
  {
    hide Unique, BlockTable, KnownBlocks, UnknownIds, CitationIssues, SummaryOf;
    CitedBlocksAreAll(p, context, draft);
    CitationVerdict(t, p, context, draft);
    AnswerableMeaning(p, context);
  }

  /** The same from the request on: the context that the builder makes of any candidates. */
  lemma BuiltContextAgrees(t: TextRules, a: TextAnalysis, r: BuildRequest, clock: nat -> Option<int>, draft: Draft)
    requires BudgetsOk(r) && CitationPolicyOk(r.profile)
    requires CitesExactly(draft, BuiltContext(t, a, r, clock))
    ensures var context := BuiltContext(t, a, r, clock);
      var cited, table := CitedIds(draft), BlockTable(context.blocks, |context.blocks|);
      context.evidence.canAttemptAnswer <==> CitationIssues(r.profile, cited, KnownBlocks(cited, table)) == []
  {
    hide BuiltContext, CitesExactly, CitedIds, BlockTable, KnownBlocks, CitationIssues, UnknownIds, Assessed;
    BuiltContextIsAssessed(t, a, r, clock);
    GateAndValidatorAgree(t, r.profile, BuiltContext(t, a, r, clock), draft);
  }

  lemma {:induction false} KnownCount(ids: seq<string>, table: map<string, ContextBlock>)
    requires forall i, j :: 0 <= i < j < |ids| ==> ids[i] != ids[j]
    ensures |KnownBlocks(ids, table)| == |set id | id in ids && id in table|
  {
    var found := set id | id in ids && id in table;
    if ids == [] {
      assert found == {};
    } else {
      var before, last := ids[..|ids| - 1], ids[|ids| - 1];
      KnownCount(before, table);
      var rest := set id | id in before && id in table;
      assert forall id :: id in ids <==> id in before || id == last;
      assert last !in before;
      assert found == if last in table then rest + {last} else rest;
    }
  }

  lemma {:induction false} TableSize(blocks: seq<ContextBlock>, k: nat)
    requires k <= |blocks|
    ensures |BlockTable(blocks, k).Keys| <= k
  {
    if k > 0 {
      TableSize(blocks, k - 1);
      var before := BlockTable(blocks, k - 1);
      assert BlockTable(blocks, k).Keys == before.Keys + {blocks[k - 1].chunkId};
    }
  }

  /** A draft cannot cite more blocks than there are. */
  lemma FewKnown(blocks: seq<ContextBlock>, draft: Draft)
    ensures |KnownBlocks(CitedIds(draft), BlockTable(blocks, |blocks|))| <= |blocks|
  {
    var cited, table := CitedIds(draft), BlockTable(blocks, |blocks|);
    CitedDistinct(draft);
    hide CitedIds, BlockTable, KnownBlocks;
    KnownCount(cited, table);
    TableSize(blocks, |blocks|);
    var found := set id | id in cited && id in table;
    assert table.Keys == found + (table.Keys - found);
  }

  /** Below the minimum number of blocks no draft that does not refuse is ever valid. */
  lemma TooFewBlocksNeverValid(t: TextRules, p: Profile, leaks: string -> bool, context: Context, draft: Draft)
    requires |context.blocks| < p.minimumCitations && !draft.refusal
    ensures !NoErrors(IssuesOf(t, p, leaks, context, draft))
  {
    hide CitedIds, BlockTable, KnownBlocks, IssuesOf, NoErrors;
    var known := KnownBlocks(CitedIds(draft), BlockTable(context.blocks, |context.blocks|));
    FewKnown(context.blocks, draft);
    CitationErrorCounts(t, p, leaks, context, draft, known);
  }

  lemma CitationErrorCounts(t: TextRules, p: Profile, leaks: string -> bool, context: Context, draft: Draft, known: seq<ContextBlock>)
    requires known == KnownBlocks(CitedIds(draft), BlockTable(context.blocks, |context.blocks|))
    requires |known| < p.minimumCitations && !draft.refusal
    ensures !NoErrors(IssuesOf(t, p, leaks, context, draft))
  {
    hide CitedIds, BlockTable, KnownBlocks, UnknownIds, PathIssues, ActionIssues, LacksSummary, IsBlank, UnknownIssues, CountTrusted;
    var cited := CitedIds(draft);
    var before := When(!draft.refusal && IsBlank(t, draft.answer), EmptyAnswer)
                  + When(!context.evidence.canAttemptAnswer && !draft.refusal, RefusalRequired);
    var own := CitationIssues(p, cited, known);
    var at := |When(p.requireCitations && |cited| == 0, MissingRequiredCitation)|;
    assert own[at] == TooFewCitations;
    var issues := IssuesOf(t, p, leaks, context, draft);
    assert issues[|before| + at] == own[at];
  }

  // ---- The whole verdict ----

  lemma {:induction false} PathIssuesErrors(t: TextRules, blocks: seq<ContextBlock>, k: nat)
    requires k <= |blocks|
    ensures NoErrors(PathIssues(t, blocks, k)) <==>
      forall i :: 0 <= i < k ==> blocks[i].graphEvidence.Some? ==> ValidPath(t, blocks[i].graphEvidence.value)
  {
    hide ValidPath, HasEvidenceChunks;
    if k > 0 {
      PathIssuesErrors(t, blocks, k - 1);
      var e := blocks[k - 1].graphEvidence;
      if e.Some? {
        EdgeIssuesNoErrors(t, e.value.edges, |e.value.edges|);
        NoErrorsConcat(When(!ValidPath(t, e.value), InvalidRelationshipPath), EdgeIssues(t, e.value.edges, |e.value.edges|));
        NoErrorsConcat(PathIssues(t, blocks, k - 1),
                       When(!ValidPath(t, e.value), InvalidRelationshipPath) + EdgeIssues(t, e.value.edges, |e.value.edges|));
        NoErrorsWhen(!ValidPath(t, e.value), InvalidRelationshipPath);
        hide When, EdgeIssues, NoErrors;
      } else {
        assert PathIssues(t, blocks, k) == PathIssues(t, blocks, k - 1);
      }
    }
  }

  lemma {:induction false} EdgeIssuesNoErrors(t: TextRules, edges: seq<PathEdge>, k: nat)
    requires k <= |edges|
    ensures NoErrors(EdgeIssues(t, edges, k))
  {
    hide HasEvidenceChunks;
    if k > 0 { EdgeIssuesNoErrors(t, edges, k - 1); }
  }

  lemma NoErrorsConcat(xs: DraftIssues, ys: DraftIssues)
    ensures NoErrors(xs + ys) <==> NoErrors(xs) && NoErrors(ys)
  {
    hide IsError;
    if NoErrors(xs + ys) {
      forall i | 0 <= i < |xs| ensures !IsError(xs[i]) { assert (xs + ys)[i] == xs[i]; }
      forall i | 0 <= i < |ys| ensures !IsError(ys[i]) { assert (xs + ys)[|xs| + i] == ys[i]; }
    }
  }

  lemma NoErrorsWhen(condition: bool, code: IssueCode)
    ensures NoErrors(When(condition, code)) <==> (condition ==> !IsError(code))
  {
    if condition {
      assert When(condition, code)[0] == code;
    }
  }

  lemma {:induction false} ActionIssuesErrors(p: Profile, actions: seq<string>, k: nat)
    requires k <= |actions|
    ensures NoErrors(ActionIssues(p, actions, k)) <==> forall i :: 0 <= i < k ==> actions[i] in p.allowedActions
  {
    if k > 0 {
      ActionIssuesErrors(p, actions, k - 1);
      var action := actions[k - 1];
      var own := if action !in p.allowedActions then [ActionNotAllowed]
                 else When(action in p.requireApprovalFor, ActionRequiresApproval);
      NoErrorsConcat(ActionIssues(p, actions, k - 1), own);
      NoErrorsWhen(action in p.requireApprovalFor, ActionRequiresApproval);
      NoErrorsWhen(true, ActionNotAllowed);
    }
  }

  /** Every path cited is sound: it does not matter in which order the blocks are cited. */
  ghost predicate PathsSound(t: TextRules, blocks: seq<ContextBlock>) {
    forall b :: b in blocks && b.graphEvidence.Some? ==> ValidPath(t, b.graphEvidence.value)
  }

  /** Exactly when a draft that cites the allowed chunks and does not refuse is valid: the context is
      answerable, the answer is there, the cited paths are sound, the summary is given where the
      profile wants one, every action is allowed and nothing internal leaks. */
  lemma DraftVerdict(t: TextRules, p: Profile, leaks: string -> bool, context: Context, draft: Draft)
    requires Assessed(p, context) && CitesExactly(draft, context) && CitationPolicyOk(p) && !draft.refusal
    ensures NoErrors(IssuesOf(t, p, leaks, context, draft)) <==>
      && context.evidence.canAttemptAnswer
      && !IsBlank(t, draft.answer)
      && PathsSound(t, context.blocks)
      && !LacksSummary(t, p, draft)
      && (forall i :: 0 <= i < |draft.actions| ==> draft.actions[i] in p.allowedActions)
      && !leaks(draft.answer)
  {
    hide CitedIds, BlockTable, KnownBlocks, UnknownIds, SummaryOf, LacksSummary, IsBlank, IssuesOf, CitationIssues,
         PathIssues, ActionIssues, PathsSound, NoErrors, Assessed, CitesExactly;
    if context.evidence.canAttemptAnswer {
      var known := KnownBlocks(CitedIds(draft), BlockTable(context.blocks, |context.blocks|));
      CitedBlocksAreAll(p, context, draft);
      PathsSoundInAnyOrder(t, known, context.blocks);
      ActionIssuesErrors(p, draft.actions, |draft.actions|);
      VerdictParts(t, p, leaks, context, draft, known);
    } else {
      UnanswerableNeedsRefusal(t, p, leaks, context, draft);
    }
  }

  lemma VerdictParts(t: TextRules, p: Profile, leaks: string -> bool, context: Context, draft: Draft, known: seq<ContextBlock>)
    requires Assessed(p, context) && CitesExactly(draft, context)
    requires known == KnownBlocks(CitedIds(draft), BlockTable(context.blocks, |context.blocks|))
    requires CitationPolicyOk(p) && context.evidence.canAttemptAnswer && !draft.refusal
    ensures NoErrors(IssuesOf(t, p, leaks, context, draft)) <==>
      && !IsBlank(t, draft.answer) && NoErrors(PathIssues(t, known, |known|)) && !LacksSummary(t, p, draft)
      && NoErrors(ActionIssues(p, draft.actions, |draft.actions|)) && !leaks(draft.answer)
  {
    hide CitedIds, BlockTable, KnownBlocks, UnknownIds, LacksSummary, IsBlank, IssuesOf, CitationIssues,
         PathIssues, ActionIssues, NoErrors, Assessed, CitesExactly, When, AnswerIssues;
    GateAndValidatorAgree(t, p, context, draft);
    AnswerShape(t, p, leaks, draft, CitedIds(draft), known);
    IssuesShape(t, p, leaks, context, draft, known);
    SplitVerdict(When(IsBlank(t, draft.answer), EmptyAnswer), PathIssues(t, known, |known|),
                 When(LacksSummary(t, p, draft), MissingEvidenceSummary), ActionIssues(p, draft.actions, |draft.actions|),
                 When(leaks(draft.answer), RawContextLeak), IssuesOf(t, p, leaks, context, draft));
    NoErrorsWhen(IsBlank(t, draft.answer), EmptyAnswer);
    NoErrorsWhen(LacksSummary(t, p, draft), MissingEvidenceSummary);
    NoErrorsWhen(leaks(draft.answer), RawContextLeak);
  }

  lemma PathsSoundInAnyOrder(t: TextRules, known: seq<ContextBlock>, blocks: seq<ContextBlock>)
    requires multiset(known) == multiset(blocks)
    ensures NoErrors(PathIssues(t, known, |known|)) <==> PathsSound(t, blocks)
  {
    hide ValidPath, NoErrors, PathIssues;
    Sorting.SameElements(known, blocks);
    PathIssuesErrors(t, known, |known|);
    assert forall i :: 0 <= i < |known| ==> known[i] in blocks;
  }

  lemma AnswerShape(t: TextRules, p: Profile, leaks: string -> bool, draft: Draft, cited: seq<string>, known: seq<ContextBlock>)
    requires CitationIssues(p, cited, known) == []
    ensures AnswerIssues(t, p, leaks, draft, cited, known)
         == PathIssues(t, known, |known|) + When(LacksSummary(t, p, draft), MissingEvidenceSummary)
            + ActionIssues(p, draft.actions, |draft.actions|) + When(leaks(draft.answer), RawContextLeak)
  {
    hide CitationIssues, PathIssues, ActionIssues, LacksSummary, When;
    assert [] + PathIssues(t, known, |known|) == PathIssues(t, known, |known|);
  }

  lemma IssuesShape(t: TextRules, p: Profile, leaks: string -> bool, context: Context, draft: Draft, known: seq<ContextBlock>)
    requires known == KnownBlocks(CitedIds(draft), BlockTable(context.blocks, |context.blocks|))
    requires UnknownIds(CitedIds(draft), BlockTable(context.blocks, |context.blocks|)) == []
    requires context.evidence.canAttemptAnswer && !draft.refusal
    ensures IssuesOf(t, p, leaks, context, draft)
         == When(IsBlank(t, draft.answer), EmptyAnswer) + AnswerIssues(t, p, leaks, draft, CitedIds(draft), known)
  {
    hide CitedIds, BlockTable, KnownBlocks, UnknownIds, IsBlank, AnswerIssues;
    var empty := When(IsBlank(t, draft.answer), EmptyAnswer);
    assert When(!context.evidence.canAttemptAnswer && !draft.refusal, RefusalRequired) == [];
    assert UnknownIssues([]) == [];
    assert empty + [] == empty;
    hide When;
  }

  lemma SplitVerdict(a: DraftIssues, b: DraftIssues, c: DraftIssues, d: DraftIssues, e: DraftIssues, all: DraftIssues)
    requires all == a + (b + c + d + e)
    ensures NoErrors(all) <==> NoErrors(a) && NoErrors(b) && NoErrors(c) && NoErrors(d) && NoErrors(e)
  {
    NoErrorsConcat(a, b + c + d + e);
    NoErrorsConcat(b + c + d, e);
    NoErrorsConcat(b + c, d);
    NoErrorsConcat(b, c);
    hide NoErrors;
  }
}
