/** Filling the context: policy checks, two budgets and the evidence verdict. */
module ContextBuilder {
  import opened Text
  import opened Sorting
  import opened Retrieval
  import opened Optimizer
  import opened Diversify

  /** The parts of a validated profile that the builder and the gate read. `redact` stands for the
      redaction patterns: it gives the redacted text. */
  datatype Profile = Profile(
    id: string, namespaceId: string,
    preferTrustedSources: bool, preferRecentSources: bool, maxContextTokens: int, maxContextChunks: int,
    requireExactChunkCitations: bool, allowedSourceKinds: set<SourceKind>,
    requireCitations: bool, minimumCitations: int, minimumTrustedCitations: int,
    allowedTrustTiers: set<TrustTier>, requireHumanReviewFor: set<TrustTier>, minimumAnswerTrustTier: TrustTier,
    refuseWhenNoEvidence: bool, refuseWhenOnlyUntrusted: bool,
    strictInjectionScanning: bool,
    freshnessChecked: bool, requireCapturedAt: bool, maxSourceAge: Option<int>,
    redact: string -> string, includeRejected: bool,
    includeEvidenceSummary: bool, allowedActions: set<string>, requireApprovalFor: set<string>)

  /** The order-independent counts of preferred and avoided tags of a chunk are parameters. */
  datatype BuildRequest = BuildRequest(
    profile: Profile, retrievalNamespace: string, candidates: seq<Candidate>,
    maxContextTokens: Option<int>, freshnessRequested: bool, includeRejected: Option<bool>,
    preferredTags: SourceChunk -> nat, avoidedTags: SourceChunk -> nat, hasTagPolicy: bool)

  datatype ContextBlock = ContextBlock(
    index: nat, chunkId: string, documentId: string, text: string, tokenEstimate: nat,
    citation: CitationPointer, graphEvidence: Option<PathEvidence>,
    sourceId: string, trustTier: TrustTier, requiresHumanReview: bool)

  datatype BuildError = NamespaceRequired | RetrievalNamespaceRequired | NamespaceDiffers | MaxContextTokensInvalid

  // ---- The order handed to the optimizer ----

  function ContextDelta(r: BuildRequest, a: Candidate, b: Candidate): int {
    var preferred := r.preferredTags(b.chunk) as int - r.preferredTags(a.chunk);
    var avoided := r.avoidedTags(a.chunk) as int - r.avoidedTags(b.chunk);
    var trust := TrustRank(a.chunk.trustTier) as int - TrustRank(b.chunk.trustTier);
    var recency := Timestamp(b.chunk) - Timestamp(a.chunk);
    if preferred != 0 then preferred
    else if avoided != 0 then avoided
    else if r.profile.preferTrustedSources && trust != 0 then trust
    else if (r.profile.preferRecentSources || r.freshnessRequested) && recency != 0 then recency
    else a.rank - b.rank
  }

  function Timestamp(chunk: SourceChunk): int {
    if chunk.timestamp.Some? then chunk.timestamp.value else 0
  }

  function ContextOrder(r: BuildRequest): (Candidate, Candidate) -> bool {
    (a: Candidate, b: Candidate) => ContextDelta(r, a, b) <= 0
  }

  function OrderedForContext(r: BuildRequest): (cs: seq<Candidate>)
    ensures multiset(cs) == multiset(r.candidates)
  {
    if !r.profile.preferTrustedSources && !r.profile.preferRecentSources && !r.freshnessRequested && !r.hasTagPolicy
    then r.candidates
    else Sort(ContextOrder(r), r.candidates)
  }

  // ---- Policy checks ----

  predicate HasExactCitation(t: TextRules, chunk: SourceChunk) {
    && chunk.citation.chunkId == chunk.id
    && chunk.citation.sourceId == chunk.sourceId
    && !IsBlank(t, chunk.citation.title)
    && chunk.citation.locator.Some? && !IsBlank(t, chunk.citation.locator.value)
  }

  function StaleCode(r: BuildRequest, chunk: SourceChunk, now: Option<int>): Option<RejectionCode> {
    var p := r.profile;
    if !p.freshnessChecked && !r.freshnessRequested then None
    else if (p.requireCapturedAt || r.freshnessRequested) && !chunk.capturedAtGiven then Some(MissingFreshnessMetadata)
    else if p.maxSourceAge.None? then None
    else if chunk.timestamp.None? || now.None? then Some(MissingFreshnessMetadata)
    else if now.value - chunk.timestamp.value > p.maxSourceAge.value then Some(StaleSource)
    else None
  }

  function PolicyCode(t: TextRules, r: BuildRequest, c: Candidate, now: Option<int>): Option<RejectionCode> {
    var chunk, p := c.chunk, r.profile;
    if chunk.namespaceId != p.namespaceId then Some(NamespaceMismatch)
    else if p.requireExactChunkCitations && !HasExactCitation(t, chunk) then Some(MissingExactCitation)
    else if chunk.sourceKind !in p.allowedSourceKinds then Some(DisallowedSourceKind)
    else if chunk.trustTier !in p.allowedTrustTiers then Some(DisallowedTrustTier)
    else if StaleCode(r, chunk, now).Some? then StaleCode(r, chunk, now)
    else if p.strictInjectionScanning && chunk.possiblePromptInjection then Some(UnsafePromptInjection)
    else if chunk.secretLikeText then Some(UnsafeSecret)
    else None
  }

  // ---- Filling ----

  function EstimateOf(r: BuildRequest, c: Candidate): nat {
    Max(1, (|r.profile.redact(c.chunk.text)| + 3) / 4)
  }

  function BlockOf(r: BuildRequest, c: Candidate, index: nat): ContextBlock {
    ContextBlock(index, c.chunk.id, c.chunk.documentId, r.profile.redact(c.chunk.text), EstimateOf(r, c),
                 c.citation, c.graphEvidence, c.chunk.sourceId, c.chunk.trustTier,
                 c.chunk.trustTier in r.profile.requireHumanReviewFor)
  }

  function TokenLimit(r: BuildRequest): int {
    if r.maxContextTokens.Some? then Min(r.maxContextTokens.value, r.profile.maxContextTokens)
    else r.profile.maxContextTokens
  }

  /** Taken and refused candidates; blocks, ids and the token total are kept beside them. */
  datatype Fill = Fill(taken: seq<Candidate>, refused: seq<Refused>)

  function IdsOf(cs: seq<Candidate>): (ids: set<string>) { set c | c in cs :: c.chunk.id }

  function TokensOf(r: BuildRequest, cs: seq<Candidate>): nat {
    if cs == [] then 0 else TokensOf(r, cs[..|cs| - 1]) + EstimateOf(r, cs[|cs| - 1])
  }

  function BlocksOf(r: BuildRequest, cs: seq<Candidate>): (blocks: seq<ContextBlock>)
    ensures |blocks| == |cs| && forall i :: 0 <= i < |cs| ==> blocks[i] == BlockOf(r, cs[i], i + 1)
  {
    if cs == [] then []
    else BlocksOf(r, cs[..|cs| - 1]) + [BlockOf(r, cs[|cs| - 1], |cs|)]
  }

  /** Why the next candidate is left out, if it is. */
  function FillCode(t: TextRules, r: BuildRequest, taken: seq<Candidate>, c: Candidate, now: Option<int>): Option<RejectionCode> {
    if PolicyCode(t, r, c, now).Some? then PolicyCode(t, r, c, now)
    else if c.chunk.id in IdsOf(taken) then Some(DuplicateChunk)
    else if |taken| >= r.profile.maxContextChunks then Some(ContextChunkLimitExceeded)
    else if TokensOf(r, taken) + EstimateOf(r, c) > TokenLimit(r) then Some(ContextTokenLimitExceeded)
    else None
  }

  function FillStep(t: TextRules, r: BuildRequest, f: Fill, c: Candidate, now: Option<int>): Fill {
    match FillCode(t, r, f.taken, c, now)
    case Some(code) => f.(refused := f.refused + [Refused(c, code)])
    case None => f.(taken := f.taken + [c])
  }

  /** The clock is read once for each candidate, so it is a function of the position. */
  function Filled(t: TextRules, r: BuildRequest, cs: seq<Candidate>, clock: nat -> Option<int>, k: nat): Fill
    requires k <= |cs|
  {
    if k == 0 then Fill([], []) else FillStep(t, r, Filled(t, r, cs, clock, k - 1), cs[k - 1], clock(k - 1))
  }

  method FillContext(t: TextRules, r: BuildRequest, cs: seq<Candidate>, clock: nat -> Option<int>, before: seq<Rejection>)
    returns (blocks: seq<ContextBlock>, rejected: seq<Rejection>, total: nat)
    ensures var f := Filled(t, r, cs, clock, |cs|);
      blocks == BlocksOf(r, f.taken) && rejected == before + RejectionsOf(f.refused) && total == TokensOf(r, f.taken)
  {
    hide PolicyCode, TokenLimit, RejectionsOf, BlockOf, EstimateOf, IdsOf, TokensOf, BlocksOf;
    blocks, rejected, total := [], before, 0;
    var seenChunkIds: set<string> := {};
    ghost var f := Fill([], []);
    NothingFilled(r, before);
    for k := 0 to |cs|
      invariant f == Filled(t, r, cs, clock, k)
      invariant blocks == BlocksOf(r, f.taken) && total == TokensOf(r, f.taken) && seenChunkIds == IdsOf(f.taken)
      invariant rejected == before + RejectionsOf(f.refused)
    {
      var c := cs[k];
      ghost var prev := f;
      f := FillStep(t, r, f, c, clock(k));
      var policy := PolicyCode(t, r, c, clock(k));
      var estimate := EstimateOf(r, c);
      if policy.Some? {
        RefuseOne(before, prev.refused, Refused(c, policy.value));
        rejected := rejected + [RejectionOf(c, policy.value)];
      } else if c.chunk.id in seenChunkIds {
        RefuseOne(before, prev.refused, Refused(c, DuplicateChunk));
        rejected := rejected + [RejectionOf(c, DuplicateChunk)];
      } else if |blocks| >= r.profile.maxContextChunks {
        RefuseOne(before, prev.refused, Refused(c, ContextChunkLimitExceeded));
        rejected := rejected + [RejectionOf(c, ContextChunkLimitExceeded)];
      } else if total + estimate > TokenLimit(r) {
        RefuseOne(before, prev.refused, Refused(c, ContextTokenLimitExceeded));
        rejected := rejected + [RejectionOf(c, ContextTokenLimitExceeded)];
      } else {
        TakeOne(r, prev.taken, c);
        seenChunkIds := seenChunkIds + {c.chunk.id};
        total := total + estimate;
        blocks := blocks + [BlockOf(r, c, |blocks| + 1)];
      }
    }
  }

  lemma NothingFilled(r: BuildRequest, before: seq<Rejection>)
    ensures BlocksOf(r, []) == [] && TokensOf(r, []) == 0 && IdsOf([]) == {} && before + RejectionsOf([]) == before
  {
  }

  lemma RefuseOne(before: seq<Rejection>, refused: seq<Refused>, x: Refused)
    ensures before + RejectionsOf(refused + [x]) == before + RejectionsOf(refused) + [RejectionOf(x.candidate, x.code)]
  {
    RefuseStep(refused, x);
    ConcatAssoc(before, RejectionsOf(refused), [RejectionOf(x.candidate, x.code)]);
  }

  lemma TakeOne(r: BuildRequest, taken: seq<Candidate>, c: Candidate)
    ensures TokensOf(r, taken + [c]) == TokensOf(r, taken) + EstimateOf(r, c)
    ensures IdsOf(taken + [c]) == IdsOf(taken) + {c.chunk.id}
    ensures BlocksOf(r, taken + [c]) == BlocksOf(r, taken) + [BlockOf(r, c, |taken| + 1)]
  {
    hide EstimateOf, BlockOf, IdsOf;
    assert (taken + [c])[..|taken|] == taken;
    TakeId(taken, c);
  }

  lemma TakeId(taken: seq<Candidate>, c: Candidate)
    ensures IdsOf(taken + [c]) == IdsOf(taken) + {c.chunk.id}
  {
    forall id ensures id in IdsOf(taken + [c]) <==> id in IdsOf(taken) + {c.chunk.id} {
      assert c in taken + [c];
    }
  }

  // ---- The evidence verdict ----

  datatype EvidenceStatus = Answerable | NoEvidence | InsufficientCitations | InsufficientTrustedCitations

  datatype EvidenceSummary = EvidenceSummary(
    status: EvidenceStatus, canAttemptAnswer: bool, blockCount: nat, trustedCitationCount: nat, requiresHumanReviewCount: nat)

  predicate IsTrusted(p: Profile, block: ContextBlock) {
    MeetsMinimumTrust(block.trustTier, p.minimumAnswerTrustTier)
  }

  function CountTrusted(p: Profile, blocks: seq<ContextBlock>): nat {
    if blocks == [] then 0
    else CountTrusted(p, blocks[1..]) + if IsTrusted(p, blocks[0]) then 1 else 0
  }

  function CountReview(blocks: seq<ContextBlock>): nat {
    if blocks == [] then 0 else CountReview(blocks[1..]) + if blocks[0].requiresHumanReview then 1 else 0
  }

  function StatusOf(p: Profile, blockCount: nat, trusted: nat): EvidenceStatus {
    if blockCount == 0 && p.refuseWhenNoEvidence then NoEvidence
    else if p.requireCitations && blockCount < p.minimumCitations then InsufficientCitations
    else if p.minimumTrustedCitations > 0 && trusted < p.minimumTrustedCitations then InsufficientTrustedCitations
    else if p.refuseWhenOnlyUntrusted && blockCount > 0 && trusted == 0 then InsufficientTrustedCitations
    else Answerable
  }

  function SummaryOf(p: Profile, blocks: seq<ContextBlock>): EvidenceSummary {
    var trusted := CountTrusted(p, blocks);
    var status := StatusOf(p, |blocks|, trusted);
    EvidenceSummary(status, status == Answerable, |blocks|, trusted, CountReview(blocks))
  }

  // ---- build ----

  datatype Context = Context(
    profileId: string, namespaceId: string, blocks: seq<ContextBlock>, citations: seq<CitationPointer>,
    rejected: seq<Rejection>, evidence: EvidenceSummary, totalTokenEstimate: nat, rejectedCount: nat)

  function RequestError(t: TextRules, r: BuildRequest): Option<BuildError> {
    var own, retrieved := Trim(t, r.profile.namespaceId), Trim(t, r.retrievalNamespace);
    if own == "" then Some(NamespaceRequired)
    else if retrieved == "" then Some(RetrievalNamespaceRequired)
    else if own != retrieved then Some(NamespaceDiffers)
    else if r.maxContextTokens.Some? && r.maxContextTokens.value < 1 then Some(MaxContextTokensInvalid)
    else None
  }

  function Deduped(a: TextAnalysis, r: BuildRequest): Pass {
    var ordered := OrderedCandidates(a, r.profile.preferTrustedSources, OrderedForContext(r));
    Dedupe(a, ordered, |ordered|)
  }

  function CitationsOf(blocks: seq<ContextBlock>): seq<CitationPointer> {
    seq(|blocks|, i requires 0 <= i < |blocks| => blocks[i].citation)
  }

  predicate ShowsRejected(r: BuildRequest) {
    if r.includeRejected.Some? then r.includeRejected.value else r.profile.includeRejected
  }

  function BuiltContext(t: TextRules, a: TextAnalysis, r: BuildRequest, clock: nat -> Option<int>): Context {
    var pass := Deduped(a, r);
    var offered := Diversified(pass.kept);
    var f := Filled(t, r, offered, clock, |offered|);
    var blocks := BlocksOf(r, f.taken);
    var rejected := RejectionsOf(pass.refused) + RejectionsOf(f.refused);
    Context(r.profile.id, r.profile.namespaceId, blocks, CitationsOf(blocks), if ShowsRejected(r) then rejected else [],
            SummaryOf(r.profile, blocks), TokensOf(r, f.taken), |rejected|)
  }

  method Build(t: TextRules, a: TextAnalysis, r: BuildRequest, clock: nat -> Option<int>)
    returns (result: Result<Context, BuildError>)
    ensures result == match RequestError(t, r)
                      case Some(error) => Failure(error)
                      case None => Success(BuiltContext(t, a, r, clock))
  {
    hide RequestError, OrderedForContext, OrderedCandidates, Dedupe, Diversified, Filled, RejectionsOf, SummaryOf;
    var error := RequestError(t, r);
    if error.Some? {
      return Failure(error.value);
    }
    var ordered := OrderedCandidates(a, r.profile.preferTrustedSources, OrderedForContext(r));
    var kept, early, citation, lexical, secondary := RunDedupe(a, ordered);
    var offered := DiversifyBySource(kept);
    var blocks, rejected, total := FillContext(t, r, offered, clock, early);
    result := Success(Context(
      r.profile.id, r.profile.namespaceId, blocks, CitationsOf(blocks), if ShowsRejected(r) then rejected else [],
      SummaryOf(r.profile, blocks), total, |rejected|));
  }
}
