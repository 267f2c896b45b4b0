/** Documents, chunks and citations. */
module Chunk {
  import opened Text
  import opened Layout

  datatype Provenance = Provenance(sourceId: string, trustTier: string)

  datatype AccessScope = AccessScope(tenantId: string, namespaceId: string)

  datatype RagDocument = RagDocument(
    id: string, namespaceId: string, title: string, body: string,
    provenance: Provenance, accessScope: AccessScope, layout: Option<DocumentLayout>)

  /** Optional lists that the chunker leaves out when empty are empty lists here. */
  datatype Citation = Citation(
    sourceId: string, chunkId: string, title: string, locator: string,
    pageNumber: Option<int>, boundingBoxes: seq<LayoutBox>, layoutRegionIds: seq<string>)

  datatype SafetyFlag = PossiblePromptInjection | SecretLikeText | SensitivePersonalData | OversizedChunk

  /** Flags that are not a list are None. */
  datatype RagChunk = RagChunk(
    id: string, documentId: string, namespaceId: string, text: string, index: nat, textHash: string,
    characterStart: int, characterEnd: int, tokenEstimate: nat,
    layoutRegionIds: seq<string>, boundingBoxes: seq<LayoutBox>, safetyFlags: Option<seq<SafetyFlag>>,
    provenance: Provenance, citation: Citation, accessScope: AccessScope)
}
