/** The chunking policy and the check that guards every run of the chunker. */
module ChunkPolicy {
  import opened Text

  datatype BoundaryStrategy = Paragraph | Line | CharacterWindow | UnknownBoundary(boundaryName: string)

  datatype LocatorStrategy = CharacterRange | LineRange | ParagraphRange | UnknownLocator(locatorName: string)

  datatype ChunkingPolicy = ChunkingPolicy(
    id: string,
    version: Option<string>,
    maxCharacters: int,
    overlapCharacters: int,
    minCharacters: int,
    maxChunksPerDocument: int,
    boundaryStrategy: BoundaryStrategy,
    locatorStrategy: LocatorStrategy,
    preserveWhitespace: bool,
    preserveStructuredLayoutRegions: Option<bool>,
    detectSuspiciousText: bool,
    includeTextHash: bool
  )

  datatype PolicyIssue =
    | IdRequired | VersionBlank | MaxNotPositive | MinNotPositive | MinAboveMax
    | OverlapNegative | OverlapNotBelowMax | MaxChunksNotPositive
    | UnknownBoundaryStrategy | UnknownLocatorStrategy

  /** The issues assertValidChunkingPolicy collects, in its order. */
  function PolicyIssues(t: TextRules, p: ChunkingPolicy): seq<PolicyIssue> {
    When(IsBlank(t, p.id), IdRequired)
    + When(p.version.Some? && IsBlank(t, p.version.value), VersionBlank)
    + When(p.maxCharacters < 1, MaxNotPositive)
    + When(p.minCharacters < 1, MinNotPositive)
    + When(p.minCharacters > p.maxCharacters, MinAboveMax)
    + When(p.overlapCharacters < 0, OverlapNegative)
    + When(p.overlapCharacters >= p.maxCharacters, OverlapNotBelowMax)
    + When(p.maxChunksPerDocument < 1, MaxChunksNotPositive)
    + When(p.boundaryStrategy.UnknownBoundary?, UnknownBoundaryStrategy)
    + When(p.locatorStrategy.UnknownLocator?, UnknownLocatorStrategy)
  }

  /** The arithmetic the windowing code relies on. */
  predicate Sized(p: ChunkingPolicy) {
    1 <= p.minCharacters <= p.maxCharacters && 0 <= p.overlapCharacters < p.maxCharacters
  }

  lemma ValidPolicyIsSized(t: TextRules, p: ChunkingPolicy)
    requires PolicyIssues(t, p) == []
    ensures Sized(p) && 1 <= p.maxChunksPerDocument
    ensures !p.boundaryStrategy.UnknownBoundary? && !p.locatorStrategy.UnknownLocator?
  {
  }
}
