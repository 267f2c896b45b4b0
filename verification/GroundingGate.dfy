/** The grounding gate before generation and the draft validator after it. */
module GroundingGate {
  import opened Text
  import opened Retrieval
  import opened ContextBuilder
  import opened RelationshipPath

  // ---- prepare ----

  datatype RefusalCode =
    GenerationRequiresEvidence | NoEvidenceRefusal | InsufficientCitationsRefusal | InsufficientTrustedCitationsRefusal

  datatype GateStatus = GateRefused | HumanReviewRequired | Ready

  datatype GateError = QuestionRequired | ProfileIdDiffers | ProfileNamespaceDiffers

  /** `draftOnly` covers the two action modes that always need a person. */
  datatype GateSettings = GateSettings(requireEvidenceForGeneration: bool, draftOnly: bool)

  datatype GateResult = GateResult(
    status: GateStatus, canGenerate: bool, requiresHumanReview: bool,
    refusal: Option<RefusalCode>, allowedCitationChunkIds: Option<seq<string>>)

  function RefusalFor(g: GateSettings, status: EvidenceStatus): Option<RefusalCode> {
    match status
    case Answerable => None
    case NoEvidence => Some(if g.requireEvidenceForGeneration then GenerationRequiresEvidence else NoEvidenceRefusal)
    case InsufficientCitations => Some(InsufficientCitationsRefusal)
    case InsufficientTrustedCitations => Some(InsufficientTrustedCitationsRefusal)
  }

  function ContextMismatch(p: Profile, context: Context): Option<GateError> {
    if p.id != context.profileId then Some(ProfileIdDiffers)
    else if p.namespaceId != context.namespaceId then Some(ProfileNamespaceDiffers)
    else None
  }

  function ChunkIdsOf(blocks: seq<ContextBlock>): (ids: seq<string>)
    ensures |ids| == |blocks| && forall i :: 0 <= i < |ids| ==> ids[i] == blocks[i].chunkId
  {
    seq(|blocks|, i requires 0 <= i < |blocks| => blocks[i].chunkId)
  }

  function Prepare(t: TextRules, g: GateSettings, p: Profile, question: string, context: Context): Result<GateResult, GateError> {
    if IsBlank(t, question) then Failure(QuestionRequired)
    else if ContextMismatch(p, context).Some? then Failure(ContextMismatch(p, context).value)
    else
      var refusal := RefusalFor(g, context.evidence.status);
      var review := context.evidence.requiresHumanReviewCount > 0 || g.draftOnly;
      Success(GateResult(
        if refusal.Some? then GateRefused else if review then HumanReviewRequired else Ready,
        refusal.None?, review, refusal,
        if refusal.Some? then None else Some(ChunkIdsOf(context.blocks))))
  }

  // ---- validateDraft ----

  datatype Draft = Draft(
    answer: string, citationChunkIds: seq<string>, citations: seq<CitationPointer>,
    evidenceSummary: Option<string>, actions: seq<string>, refusal: bool)

  datatype IssueCode =
    | EmptyAnswer | RefusalRequired | MissingRequiredCitation | TooFewCitations | TooFewTrustedCitations
    | InvalidRelationshipPath | MissingRelationshipEdgeEvidence | MissingEvidenceSummary
    | ActionNotAllowed | ActionRequiresApproval | RawContextLeak | UnknownCitation

  predicate IsError(code: IssueCode) { code != MissingRelationshipEdgeEvidence && code != ActionRequiresApproval }

  type DraftIssues = seq<IssueCode>

  function CitedIds(draft: Draft): seq<string> {
    Unique(draft.citationChunkIds + seq(|draft.citations|, i requires 0 <= i < |draft.citations| => draft.citations[i].chunkId))
  }

  /** Blocks by chunk id; a later block of the same id replaces an earlier one. */
  function BlockTable(blocks: seq<ContextBlock>, k: nat): map<string, ContextBlock>
    requires k <= |blocks|
  {
    if k == 0 then map[] else BlockTable(blocks, k - 1)[blocks[k - 1].chunkId := blocks[k - 1]]
  }

  function KnownBlocks(ids: seq<string>, table: map<string, ContextBlock>): seq<ContextBlock> {
    if ids == [] then []
    else KnownBlocks(ids[..|ids| - 1], table) + (if ids[|ids| - 1] in table then [table[ids[|ids| - 1]]] else [])
  }

  function UnknownIds(ids: seq<string>, table: map<string, ContextBlock>): seq<string> {
    if ids == [] then []
    else UnknownIds(ids[..|ids| - 1], table) + (if ids[|ids| - 1] in table then [] else [ids[|ids| - 1]])
  }

  function CitationIssues(p: Profile, cited: seq<string>, known: seq<ContextBlock>): DraftIssues {
    When(p.requireCitations && |cited| == 0, MissingRequiredCitation)
    + When(|known| < p.minimumCitations, TooFewCitations)
    + When(CountTrusted(p, known) < p.minimumTrustedCitations, TooFewTrustedCitations)
  }

  predicate HasEvidenceChunks(t: TextRules, e: PathEdge) {
    exists id :: id in e.evidenceChunkIds && !IsBlank(t, id)
  }

  function EdgeIssues(t: TextRules, edges: seq<PathEdge>, k: nat): DraftIssues
    requires k <= |edges|
  {
    if k == 0 then []
    else EdgeIssues(t, edges, k - 1) + When(!HasEvidenceChunks(t, edges[k - 1]), MissingRelationshipEdgeEvidence)
  }

  function PathIssues(t: TextRules, blocks: seq<ContextBlock>, k: nat): DraftIssues
    requires k <= |blocks|
  {
    if k == 0 then []
    else
      PathIssues(t, blocks, k - 1) +
      match blocks[k - 1].graphEvidence
      case None => []
      case Some(e) => When(!ValidPath(t, e), InvalidRelationshipPath) + EdgeIssues(t, e.edges, |e.edges|)
  }

  function ActionIssues(p: Profile, actions: seq<string>, k: nat): DraftIssues
    requires k <= |actions|
  {
    if k == 0 then []
    else
      var action := actions[k - 1];
      ActionIssues(p, actions, k - 1) +
      if action !in p.allowedActions then [ActionNotAllowed]
      else When(action in p.requireApprovalFor, ActionRequiresApproval)
  }

  predicate LacksSummary(t: TextRules, p: Profile, draft: Draft) {
    p.includeEvidenceSummary && (draft.evidenceSummary.None? || IsBlank(t, draft.evidenceSummary.value))
  }

  /** `leaks` says that the answer contains text of the internal context wrapper. */
  function AnswerIssues(t: TextRules, p: Profile, leaks: string -> bool, draft: Draft, cited: seq<string>, known: seq<ContextBlock>): DraftIssues {
    CitationIssues(p, cited, known)
    + PathIssues(t, known, |known|)
    + When(LacksSummary(t, p, draft), MissingEvidenceSummary)
    + ActionIssues(p, draft.actions, |draft.actions|)
    + When(leaks(draft.answer), RawContextLeak)
  }

  function UnknownIssues(unknown: seq<string>): DraftIssues {
    seq(|unknown|, _ => UnknownCitation)
  }

  function IssuesOf(t: TextRules, p: Profile, leaks: string -> bool, context: Context, draft: Draft): DraftIssues {
    var cited := CitedIds(draft);
    var table := BlockTable(context.blocks, |context.blocks|);
    var known := KnownBlocks(cited, table);
    When(!draft.refusal && IsBlank(t, draft.answer), EmptyAnswer)
    + When(!context.evidence.canAttemptAnswer && !draft.refusal, RefusalRequired)
    + (if draft.refusal then [] else AnswerIssues(t, p, leaks, draft, cited, known))
    + UnknownIssues(UnknownIds(cited, table))
  }

  datatype Verdict = Verdict(valid: bool, issues: DraftIssues)

  predicate NoErrors(issues: DraftIssues) { forall i :: 0 <= i < |issues| ==> !IsError(issues[i]) }

  /** The validator's issue list, shared by its helpers. */
  class IssueLog {
    var issues: DraftIssues

    constructor ()
      ensures issues == []
    {
      issues := [];
    }

    method Push(condition: bool, code: IssueCode)
      modifies this
      ensures issues == old(issues) + When(condition, code)
    {
      if condition {
        issues := issues + [code];
      }
    }

    method ValidateCitations(p: Profile, cited: seq<string>, known: seq<ContextBlock>)
      modifies this
      ensures issues == old(issues) + CitationIssues(p, cited, known)
    {
      hide When, CountTrusted;
      Push(p.requireCitations && |cited| == 0, MissingRequiredCitation);
      Push(|known| < p.minimumCitations, TooFewCitations);
      Push(CountTrusted(p, known) < p.minimumTrustedCitations, TooFewTrustedCitations);
      Append3(old(issues), When(p.requireCitations && |cited| == 0, MissingRequiredCitation),
              When(|known| < p.minimumCitations, TooFewCitations),
              When(CountTrusted(p, known) < p.minimumTrustedCitations, TooFewTrustedCitations));
    }

    method ValidateRelationshipPaths(t: TextRules, known: seq<ContextBlock>)
      modifies this
      ensures issues == old(issues) + PathIssues(t, known, |known|)
    {
      hide When, ValidPath, HasEvidenceChunks;
      for k := 0 to |known|
        invariant issues == old(issues) + PathIssues(t, known, k)
      {
        if known[k].graphEvidence.Some? {
          ghost var start := issues;
          ValidateEvidence(t, known[k].graphEvidence.value);
          var e := known[k].graphEvidence.value;
          ConcatAssoc(old(issues), PathIssues(t, known, k),
                      When(!ValidPath(t, e), InvalidRelationshipPath) + EdgeIssues(t, e.edges, |e.edges|));
        }
      }
    }

    method ValidateEvidence(t: TextRules, e: PathEvidence)
      modifies this
      ensures issues == old(issues) + (When(!ValidPath(t, e), InvalidRelationshipPath) + EdgeIssues(t, e.edges, |e.edges|))
    {
      hide When, ValidPath, HasEvidenceChunks;
      var valid := IsValidRelationshipPath(t, e);
      Push(!valid, InvalidRelationshipPath);
      ghost var start := issues;
      for k := 0 to |e.edges|
        invariant issues == start + EdgeIssues(t, e.edges, k)
      {
        ConcatAssoc(start, EdgeIssues(t, e.edges, k), When(!HasEvidenceChunks(t, e.edges[k]), MissingRelationshipEdgeEvidence));
        Push(!HasEvidenceChunks(t, e.edges[k]), MissingRelationshipEdgeEvidence);
      }
      ConcatAssoc(old(issues), When(!ValidPath(t, e), InvalidRelationshipPath), EdgeIssues(t, e.edges, |e.edges|));
    }

    method ValidateActions(p: Profile, actions: seq<string>)
      modifies this
      ensures issues == old(issues) + ActionIssues(p, actions, |actions|)
    {
      hide When;
      for k := 0 to |actions|
        invariant issues == old(issues) + ActionIssues(p, actions, k)
      {
        var action := actions[k];
        ConcatAssoc(old(issues), ActionIssues(p, actions, k),
                    if action !in p.allowedActions then [ActionNotAllowed]
                    else When(action in p.requireApprovalFor, ActionRequiresApproval));
        if action !in p.allowedActions {
          issues := issues + [ActionNotAllowed];
        } else {
          Push(action in p.requireApprovalFor, ActionRequiresApproval);
        }
      }
    }
  }

  method CollectBlocks(blocks: seq<ContextBlock>) returns (table: map<string, ContextBlock>)
    ensures table == BlockTable(blocks, |blocks|)
  {
    table := map[];
    for k := 0 to |blocks|
      invariant table == BlockTable(blocks, k)
    {
      table := table[blocks[k].chunkId := blocks[k]];
    }
  }

  method ValidateDraft(t: TextRules, p: Profile, leaks: string -> bool, context: Context, draft: Draft)
    returns (result: Result<Verdict, GateError>)
    ensures result == match ContextMismatch(p, context)
                      case Some(error) => Failure(error)
                      case None =>
                        var issues := IssuesOf(t, p, leaks, context, draft);
                        Success(Verdict(NoErrors(issues), issues))
  {
    hide When, CitationIssues, PathIssues, ActionIssues, BlockTable, KnownBlocks, UnknownIds, IsBlank, LacksSummary, Unique,
         UnknownIssues;
    var mismatch := ContextMismatch(p, context);
    if mismatch.Some? {
      return Failure(mismatch.value);
    }
    var cited := CitedIds(draft);
    var table := CollectBlocks(context.blocks);
    var unknown := UnknownIds(cited, table);
    var known := KnownBlocks(cited, table);
    var log := new IssueLog();
    log.Push(!draft.refusal && IsBlank(t, draft.answer), EmptyAnswer);
    assert log.issues == When(!draft.refusal && IsBlank(t, draft.answer), EmptyAnswer);
    log.Push(!context.evidence.canAttemptAnswer && !draft.refusal, RefusalRequired);
    ghost var start := log.issues;
    ghost var answer := if draft.refusal then [] else AnswerIssues(t, p, leaks, draft, cited, known);
    if !draft.refusal {
      var lacks := LacksSummary(t, p, draft);
      log.ValidateCitations(p, cited, known);
      log.ValidateRelationshipPaths(t, known);
      log.Push(lacks, MissingEvidenceSummary);
      log.ValidateActions(p, draft.actions);
      log.Push(leaks(draft.answer), RawContextLeak);
      Append5(start, CitationIssues(p, cited, known), PathIssues(t, known, |known|), When(lacks, MissingEvidenceSummary),
              ActionIssues(p, draft.actions, |draft.actions|), When(leaks(draft.answer), RawContextLeak));
    }
    assert log.issues == start + answer;
    log.issues := log.issues + UnknownIssues(unknown);
    var issues := log.issues;
    result := Success(Verdict(NoErrors(issues), issues));
  }
}
