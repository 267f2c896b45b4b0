/** Retrieval candidates and the parts of a profile that select among them. */
module Retrieval {
  import opened Text

  datatype TrustTier = TrustedInternal | VerifiedPartner | UserProvided | GeneratedOrDerived | ExternalUntrusted | UnknownTier

  /** The kinds a source can have. The optimizer's tables also name kinds that no source has
      (database_record, saas_record, chat_transcript); those entries can never match. */
  datatype SourceKind =
    RepoFile | LocalFile | DatabaseRow | SupportTicket | UploadedFile | WebPage | ApiResponse | DerivedSummary

  datatype CitationPointer = CitationPointer(
    sourceId: string, chunkId: string, title: string, locator: Option<string>, visualAssetId: Option<string>)

  datatype Entity = Entity(id: string, name: string)

  datatype PathEdge = PathEdge(
    relationId: string, relationType: string, depth: int, from: Entity, to: Entity, evidenceChunkIds: seq<string>)

  datatype PathEvidence = PathEvidence(seed: Entity, target: Entity, depth: int, edges: seq<PathEdge>)

  /** `captured` and `ingested` are the parsed timestamps, None where parsing fails; `capturedAtGiven`
      says that a non-blank capturedAt is present. */
  datatype SourceChunk = SourceChunk(
    id: string, documentId: string, namespaceId: string, text: string, citation: CitationPointer,
    sourceId: string, sourceKind: SourceKind, trustTier: TrustTier,
    capturedAtGiven: bool, timestamp: Option<int>,
    possiblePromptInjection: bool, secretLikeText: bool)

  datatype Candidate = Candidate(
    chunk: SourceChunk, citation: CitationPointer, score: real, rank: int, graphEvidence: Option<PathEvidence>)

  function TrustRank(tier: TrustTier): nat {
    match tier
    case TrustedInternal => 0
    case VerifiedPartner => 1
    case UserProvided => 2
    case GeneratedOrDerived => 3
    case ExternalUntrusted => 4
    case UnknownTier => 5
  }

  predicate MeetsMinimumTrust(tier: TrustTier, minimum: TrustTier) {
    TrustRank(tier) <= TrustRank(minimum)
  }

  datatype RejectionCode =
    | DuplicateChunk | NamespaceMismatch | MissingExactCitation | DisallowedSourceKind | DisallowedTrustTier
    | MissingFreshnessMetadata | StaleSource | UnsafePromptInjection | UnsafeSecret
    | CitationDuplicate | LexicalDuplicate | SecondarySourceDuplicate
    | ContextChunkLimitExceeded | ContextTokenLimitExceeded

  datatype Rejection = Rejection(code: RejectionCode, chunkId: string, documentId: string)

  function RejectionOf(c: Candidate, code: RejectionCode): Rejection {
    Rejection(code, c.chunk.id, c.chunk.documentId)
  }
}
