/** What normalization promises, and the whole way from a corpus record to validated chunks. */
module NormalizeProofs {
  import opened Text
  import opened Layout
  import opened LayoutValidator
  import opened LayoutSoundness
  import opened ChunkPolicy
  import opened Chunk
  import opened ChunkValidation
  import opened Chunker
  import opened ChunkerProofs
  import R = Retrieval
  import opened N = Normalize

  // ---- Trust is never raised ----

  function RankOf(tier: Option<R.TrustTier>, fallback: nat): nat {
    if tier.Some? then R.TrustRank(tier.value) else fallback
  }

  /** The effective tier is the least trusted of the declared one, the floor and the override; the
      override counts as an unsafe upgrade exactly when it is more trusted than the other two. */
  lemma LeastTrustedWins(declared: R.TrustTier, floor: Option<R.TrustTier>, override: Option<R.TrustTier>)
    ensures var d, own := TrustDecisionFor(declared, floor, override), R.TrustRank(declared);
      && R.TrustRank(d.tier) == Max(own, Max(RankOf(floor, 0), RankOf(override, 0)))
      && (d.unsafeUpgrade <==> override.Some? && R.TrustRank(override.value) < Max(own, RankOf(floor, 0)))
  {
  }

  // ---- Who is accepted ----

  /** The record may enter this profile for this principal. */
  ghost predicate Admissible(t: TextRules, r: CorpusRecord, c: NormalizationContext) {
    && !IsBlank(t, r.id) && !IsBlank(t, r.title) && !IsBlank(t, r.body)
    && r.sourceKind.KnownKind? && r.knownSensitivity
    && (!IsBlank(t, r.checksum) ==> r.checksum == t.hash(r.body))
    && (r.layout.Some? ==> WellFormed(t, r.layout.value, r.body))
    && !IsBlank(t, r.sourceId) && r.sourceId == c.source.id && SourceDeclared(c)
    && ScopeFits(t, r.accessScope, c)
    && (c.requireCapturedAt ==> !IsBlank(t, r.capturedAt))
    && TrustFits(r.trustTier, c)
  }

  /** The profile's first source of the id is enabled and configured alike. */
  ghost predicate SourceDeclared(c: NormalizationContext) {
    exists i :: FirstSource(c.corpusSources, c.source.id, i) && c.corpusSources[i].enabled && SameConfig(c.corpusSources[i], c.source)
  }

  predicate FirstSource(sources: seq<SourceConfig>, id: string, i: int) {
    0 <= i < |sources| && sources[i].id == id && forall j :: 0 <= j < i ==> sources[j].id != id
  }

  predicate ScopeFits(t: TextRules, scope: Option<AccessScope>, c: NormalizationContext) {
    && scope.Some? && !IsBlank(t, scope.value.tenantId) && !IsBlank(t, scope.value.namespaceId)
    && scope.value.namespaceId == c.namespaceId && scope.value.tenantId == c.requestedBy.tenantId
    && c.namespaceId in c.requestedBy.namespaceIds
  }

  /** A known tier, not upgraded by the source, and allowed once the least trusted tier wins. */
  predicate TrustFits(tier: Option<R.TrustTier>, c: NormalizationContext) {
    && tier.Some?
    && var d := TrustDecisionFor(tier.value, c.source.trustTierFloor, c.source.trustTierOverride);
       !d.unsafeUpgrade && d.tier in c.allowedTrustTiers
  }

  lemma {:induction false} DeclaredSourceIsFirst(sources: seq<SourceConfig>, id: string, i: int)
    requires FirstSource(sources, id, i)
    ensures DeclaredSource(sources, id) == Some(sources[i])
  {
    if i > 0 {
      assert sources[0].id != id;
      assert FirstSource(sources[1..], id, i - 1);
      DeclaredSourceIsFirst(sources[1..], id, i - 1);
    }
  }

  lemma {:induction false} DeclaredSourceFound(sources: seq<SourceConfig>, id: string) returns (i: int)
    requires DeclaredSource(sources, id).Some?
    ensures FirstSource(sources, id, i)
  {
    if sources[0].id == id {
      i := 0;
    } else {
      i := DeclaredSourceFound(sources[1..], id);
      i := i + 1;
      forall j | 0 <= j < i ensures sources[j].id != id {
        if j > 0 { assert sources[j] == sources[1..][j - 1]; }
      }
    }
  }

  lemma SourceMeaning(t: TextRules, r: CorpusRecord, c: NormalizationContext)
    ensures SourceIssues(r, c) == [] <==> SourceDeclared(c) && r.sourceId == c.source.id
  {
    hide DeclaredSource, SameConfig;
    var sources, id := c.corpusSources, c.source.id;
    if SourceDeclared(c) {
      var i :| FirstSource(sources, id, i) && sources[i].enabled && SameConfig(sources[i], c.source);
      DeclaredSourceIsFirst(sources, id, i);
    } else if DeclaredSource(sources, id).Some? {
      var i := DeclaredSourceFound(sources, id);
      DeclaredSourceIsFirst(sources, id, i);
      assert FirstSource(sources, id, i);
    }
  }

  lemma FieldMeaning(t: TextRules, r: CorpusRecord)
    ensures FieldIssues(t, r) == [] <==>
      && !IsBlank(t, r.id) && !IsBlank(t, r.sourceId) && !IsBlank(t, r.title) && !IsBlank(t, r.body)
      && r.sourceKind.KnownKind? && r.knownSensitivity
      && (!IsBlank(t, r.checksum) ==> r.checksum == t.hash(r.body))
  {
    hide IsBlank;
  }

  lemma LayoutMeaning(t: TextRules, r: CorpusRecord)
    ensures LayoutRecordIssues(t, r) == [] <==> (r.layout.Some? ==> WellFormed(t, r.layout.value, r.body))
  {
    hide LayoutIssues, WellFormed;
    if r.layout.Some? {
      LayoutValidIffWellFormed(t, r.layout.value, r.body);
    }
  }

  lemma ScopeMeaning(t: TextRules, r: CorpusRecord, c: NormalizationContext)
    ensures ScopeIssues(t, r, c) == [] <==> ScopeFits(t, r.accessScope, c)
  {
    hide IsBlank;
  }

  lemma TrustMeaning(r: CorpusRecord, c: NormalizationContext)
    ensures TrustIssues(r, c) == [] <==> TrustFits(r.trustTier, c)
  {
    hide TrustDecisionFor;
  }

  /** A record is accepted exactly when it is admissible, and then the document carries its own
      scope, the profile's namespace, and a body that a layout's offsets still fit. */
  lemma AcceptedIffAdmissible(t: TextRules, r: CorpusRecord, c: NormalizationContext)
    ensures NormalizedRecord(t, Some(r), c).document.Some? <==> Admissible(t, r, c)
    ensures NormalizedRecord(t, Some(r), c).document.Some? <==> NormalizedRecord(t, Some(r), c).issues == []
    ensures Admissible(t, r, c) ==> NormalizedRecord(t, Some(r), c).document == Some(DocumentOf(t, r, c))
  {
    FieldMeaning(t, r);
    LayoutMeaning(t, r);
    SourceMeaning(t, r, c);
    ScopeMeaning(t, r, c);
    TrustMeaning(r, c);
    hide FieldIssues, LayoutRecordIssues, SourceIssues, ScopeIssues, TrustIssues, IsBlank, WellFormed, SourceDeclared,
         TrustFits, DocumentOf;
  }

  // ---- End to end ----

  /** No document crosses a boundary: it is in the profile's namespace, of the requester's tenant, its
      trust is allowed and no higher than declared, and the chunker may rely on its layout. */
  lemma AcceptedDocumentIsSafe(t: TextRules, r: CorpusRecord, c: NormalizationContext)
    requires Admissible(t, r, c)
    ensures var document := DocumentOf(t, r, c);
      && AcceptedDocument(t, document)
      && document.namespaceId == document.accessScope.namespaceId == c.namespaceId
      && c.namespaceId in c.requestedBy.namespaceIds
      && document.accessScope.tenantId == c.requestedBy.tenantId
      && document.body != "" && document.id != "" && document.title != ""
      && exists tier :: tier in c.allowedTrustTiers && document.provenance.trustTier == TierName(tier)
                     && R.TrustRank(tier) >= R.TrustRank(r.trustTier.value)
  {
    hide WellFormed, LayoutIssues, SourceDeclared, Trim, TrustDecisionFor;
    TrimEmpty(t, r.id);
    TrimEmpty(t, r.title);
    TrimEmpty(t, r.body);
    assert IsBlank(t, "");
    var tier := DecisionFor(r, c).tier;
    LeastTrustedWins(r.trustTier.value, c.source.trustTierFloor, c.source.trustTierOverride);
    if r.layout.Some? {
      LayoutValidIffWellFormed(t, r.layout.value, r.body);
    }
    hide IsBlank;
    assert tier in c.allowedTrustTiers;
  }

  /** From record to chunks: whatever is accepted and chunked passes the chunk validator, and every
      chunk is in the profile's namespace with the record's own access scope. */
  lemma RecordToChunks(t: TextRules, r: CorpusRecord, c: NormalizationContext, p: ChunkingPolicy, k: nat)
    requires NormalizedRecord(t, Some(r), c).document.Some?
    ensures var document := NormalizedRecord(t, Some(r), c).document.value;
      && AcceptedDocument(t, document)
      && var outcome := ChunkingOutcome(t, p, document);
         (outcome.Chunked? ==>
           && AllChunkIssues(t, outcome.chunks, document, p) == []
           && (k < |outcome.chunks| ==>
                 && outcome.chunks[k].namespaceId == c.namespaceId
                 && Some(outcome.chunks[k].accessScope) == r.accessScope))
  {
    hide NormalizedRecord, WellFormed, SourceDeclared, TrustFits, IsBlank, AcceptedDocument, ChunkingOutcome, AllChunkIssues, DocumentOf;
    AcceptedIffAdmissible(t, r, c);
    AcceptedDocumentIsSafe(t, r, c);
    var document := DocumentOf(t, r, c);
    if ChunkingOutcome(t, p, document).Chunked? {
      ChunksPassValidation(t, p, document);
      ScopeOfDocument(t, r, c);
      if k < |ChunkingOutcome(t, p, document).chunks| {
        ChunksKeepScope(t, p, document, k);
      }
    }
  }

  lemma ScopeOfDocument(t: TextRules, r: CorpusRecord, c: NormalizationContext)
    requires r.accessScope.Some?
    ensures DocumentOf(t, r, c).namespaceId == c.namespaceId && DocumentOf(t, r, c).accessScope == r.accessScope.value
  {
  }

  lemma ChunksKeepScope(t: TextRules, p: ChunkingPolicy, document: RagDocument, k: nat)
    requires AcceptedDocument(t, document) && ChunkingOutcome(t, p, document).Chunked?
    requires k < |ChunkingOutcome(t, p, document).chunks|
    ensures var chunk := ChunkingOutcome(t, p, document).chunks[k];
      chunk.namespaceId == document.namespaceId && chunk.accessScope == document.accessScope
  {
    hide AcceptedDocument, PolicyIssues, FinalWindows, IsBlank;
    if IsBlank(t, document.body) {
      BlankHasNoChunks(t, p, document);
    } else {
      ChunkedShape(t, p, document);
    }
  }

  // ---- Batches ----

  /** Every record is accepted or rejected, once, in order, and the documents are those of the accepted. */
  lemma {:induction false} BatchConserves(t: TextRules, records: seq<Option<CorpusRecord>>, c: NormalizationContext, k: nat)
    requires k <= |records|
    ensures |Documents(t, records, c, k)| + |RejectedIds(t, records, c, k)| == k
    ensures forall document :: document in Documents(t, records, c, k) ==>
      exists i :: 0 <= i < k && NormalizedRecord(t, records[i], c).document == Some(document)
    ensures BatchIssues(t, records, c, k) == [] <==> RejectedIds(t, records, c, k) == []
  {
    hide NormalizedRecord, RecordId;
    if k > 0 {
      BatchConserves(t, records, c, k - 1);
      NoIssuesIffAccepted(t, records[k - 1], c);
    }
  }

  predicate IsAccepted(t: TextRules, record: Option<CorpusRecord>, c: NormalizationContext) {
    NormalizedRecord(t, record, c).document.Some?
  }

  /** The documents are those of the accepted records, one each, in the order of the records. */
  lemma {:induction false} BatchInOrder(t: TextRules, records: seq<Option<CorpusRecord>>, c: NormalizationContext, k: nat)
    returns (at: seq<nat>)
    requires k <= |records|
    ensures |at| == |Documents(t, records, c, k)|
    ensures forall i :: 0 <= i < |at| ==>
      at[i] < k && NormalizedRecord(t, records[at[i]], c).document == Some(Documents(t, records, c, k)[i])
    ensures forall i, j :: 0 <= i < j < |at| ==> at[i] < at[j]
    ensures forall n :: 0 <= n < k && IsAccepted(t, records[n], c) ==> n in at
  {
    hide NormalizedRecord;
    at := [];
    if k > 0 {
      at := BatchInOrder(t, records, c, k - 1);
      if IsAccepted(t, records[k - 1], c) {
        at := at + [k - 1];
      }
    }
  }

  lemma NoIssuesIffAccepted(t: TextRules, record: Option<CorpusRecord>, c: NormalizationContext)
    ensures NormalizedRecord(t, record, c).document.Some? <==> NormalizedRecord(t, record, c).issues == []
  {
    if record.Some? {
      AcceptedIffAdmissible(t, record.value, c);
    }
    hide Admissible, IssuesOf, DocumentOf;
  }
}
