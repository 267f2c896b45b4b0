# Verified model of the document pipeline

A Dafny model of the stateful core of the repository, with proofs. It follows a document from parsing to a validated
answer:

1. **Parsing.** The PDF and spreadsheet scripts join page or sheet texts into one body and keep running offsets. The
   layout they emit is proved valid for the body they emit, for any pages and any sheets.
2. **Normalization.** Which corpus records become documents, of what trust, and in which namespace.
3. **Chunking.** Windows are cut at separators or in fixed steps around protected ranges, furniture is dropped, short
   neighbours are merged in place and layout evidence is attached by a capped breadth-first search. The result is checked
   against an independent validator: whatever is accepted and chunked passes it (`ChunkerProofs.ChunksPassValidation`,
   `NormalizeProofs.RecordToChunks`), loses no text but short furniture, and never cuts a merged protected
   range that fits.
4. **Loading.** The bounded-concurrency file scheduler as a machine of interleaved steps, the pagination loop of the SaaS
   adapter, and the retry loop of the embedding providers.
5. **Context and answers.** Greedy deduplication, round-robin diversification, the two-budget context, the evidence
   verdict, the grounding gate and the draft validator that must agree with it.
6. **Companies.** The deployment registry with its redundant indexes under partial failure, and the tiled leak detector
   with its sharp detection bound.

## How it is built

One module per component. Loops and updated objects of the source are Dafny methods and classes; each is proved equal
to a specification function on its inputs or its old state, and the properties are lemmas about that function. Pure code
is functions. `TextRules` bundles what the program takes from its platform: which characters are whitespace, the
furniture pattern, the paragraph pattern, the patterns of suspicious text and the hash. Every result holds for all of
them. The parser scripts have their own `Python` bundle (whitespace, line boundaries, upper case).

`dafny verify dfyconfig.toml` checks everything.

Conditions that some results carry, and where the code guarantees them:

- `Chunker.AcceptedDocument`: the layout, if present, passed the layout validator for the body. Normalization guarantees
  it (`src/corpus/normalize.ts:314-338`), proved in `NormalizeProofs.AcceptedDocumentIsSafe`.
- `ChunkPolicy.Sized` follows from the policy guard (`src/chunking/chunker.ts:763-820`).
- `BudgetsOk`: chunk and token limits of a profile are positive, which profile validation enforces
  (`src/profiles/profile-validation.ts:285-304`).
- `GateProofs.CitationPolicyOk`: citations are required and 1 <= minimumTrustedCitations <= minimumCitations, which
  profile validation enforces (`src/profiles/profile-validation.ts:364-402`).
- The scheduler results hold for every concurrency; `load` passes one from 1 to 32
  (`src/corpus/local-files-adapter.ts:1407-1423`).
- The parser results ask that letters (and, for a spreadsheet, the `V` that opens an asset line) are not whitespace; the
  coverage results that carriage return and line feed are, and the empty-workbook result that `#` is not.

## Where the code differs from what one might expect

- **Relationship paths.** An accepted path connects seed and target through its edges, but consecutive edges need only
  share an end point, so the listed edges need not be a walk (`RelationshipPath.AcceptedPathNeedNotBeAWalk`). The walks
  are exactly the paths that can be traced, a fold over the edges (`RelationshipPath.WalkIffTraceable`).
- **Registry.** A registration that gets as far as the indexes, whose first profile id is free but whose ids and
  namespaces are not all free and distinct, leaves index entries of a company that is not registered
  (`RegistryProofs.LeavesBehindIff`, `RegistryProofs.RunSoundIff`, with an example in
  `RegistryProofs.SharedNamespaceLeavesOrphan`). No later call can register that company with the use case of such an
  entry (`RegistryProofs.IndexEntryBlocks`, `RegistryProofs.FailedFillingIsFinal`).
- **Retry traces.** A response that cannot be parsed is never retried, but when the parser's message mentions a timeout
  it is recorded as a retryable timeout (`ProviderRetry.RetryableYetLast`).
- **Source kinds.** The optimizer's tables of primary and secondary kinds also name kinds that no source can have
  (`database_record`, `saas_record`, `chat_transcript`); those entries never match, as in the code.
- **Merged protected ranges.** Ranges that touch are merged before their length is compared with `maxCharacters`
  (`ProtectedRanges.TouchingRangesMerge`), so two regions that fit can together be too long for one window and are then
  cut as one text. A region that fits can be cut this way (`RegionExamples.FittingTableIsCut`), or stay whole because no
  cut falls into it (`RegionExamples.TwoTablesWholeIff`). `ProtectedRegions.RegionIsWholeIff` says exactly when, on the
  stretches its merged range is cut into; `ProtectedRegions.EvenStepsWholeIff` gives the arithmetic for fixed steps. It
  is always whole when its merged range fits (`ProtectedRegions.RegionTextIsWhole`), so in particular when it fits and
  stands alone (`ProtectedRegions.LoneRegionIsWhole`).
- **Errors of the file scheduler.** With several workers the error returned need not be that of the first failing item:
  it can be that of any failing item before which fewer items fail than there are workers
  (`SchedulerErrors.ErrorsReturnedIff`).

## Model

| member | source | states |
|---|---|---|
| Windows.MakeWindow | src/chunking/chunker.ts:487-520 | Cuts one span: trims it unless whitespace is kept, and yields a window only for text that is not blank |
| Windows.WindowOfGood | src/chunking/chunker.ts:487-520 | A span yields at most one window, which records its own text exactly and keeps every visible character of the span |
| Windows.FirstTextIsEarliest | src/chunking/chunker.ts:487-520 | Trimming never moves a window start past the start of a window cut at the same place or later |
| Windows.GoodShift | src/chunking/chunker.ts:374-380 | Windows of a slice, once shifted by its offset, are windows of the whole text: same slices, same order, same cover |
| Windows.ChainGood | src/chunking/chunker.ts:403-485 | Windows cut along any gap-free chain of spans miss no visible character and come in document order |
| Windows.CharacterWindows | src/chunking/chunker.ts:471-485 | The fixed-step loop, with its early exit, yields the windows of the fixed-step spans |
| Windows.CharacterSpansChain | src/chunking/chunker.ts:471-485 | Fixed steps leave no gap up to the end of the text and back up by at most the overlap |
| Windows.CharacterSpansSize | src/chunking/chunker.ts:471-485 | No fixed-step span exceeds maxCharacters, and none but a text within the overlap starts inside the final overlap |
| SeparatorWindows.SplitWithPositions | src/chunking/chunker.ts:446-469 | The splitting loop yields the segments of a text and their positions |
| SeparatorWindows.IndexOfFinds | src/chunking/chunker.ts:446-469 | The search for the separator returns its first occurrence, or none when there is none |
| SeparatorWindows.SegmentsRejoin | src/chunking/chunker.ts:446-469 | Splitting undoes joining: the segments joined by the separator give back the text |
| SeparatorWindows.SegmentsConsecutive | src/chunking/chunker.ts:446-469 | Segments follow one another without overlap and end within the text |
| SeparatorWindows.FlushSpansChain | src/chunking/chunker.ts:403-444 | Flushes leave no gap and overlap by at most overlapCharacters |
| SeparatorWindows.SeparatorSpansChain | src/chunking/chunker.ts:403-444 | The stretches flushed for a whole text form a gap-free chain from its first to its last character |
| SeparatorWindows.FlushedWindows | src/chunking/chunker.ts:403-438 | The loop with currentStart and currentEnd yields exactly the windows of the flushed stretches |
| SeparatorWindows.WindowsFromSeparator | src/chunking/chunker.ts:403-444 | The whole separator cut: flushed windows, then oversized ones cut again by fixed steps |
| WindowProofs.CharacterWindowsGood | src/chunking/chunker.ts:471-485 | Fixed-step windows miss no visible character, are ordered, exact and within maxCharacters |
| WindowProofs.CutOneGood | src/chunking/chunker.ts:440-443 | Cutting an oversized window again loses nothing of it and respects the limit |
| WindowProofs.CutOneEarly | src/chunking/chunker.ts:403-444 | Pieces of a cut window start no later than the next window, so document order survives the second cut |
| WindowProofs.CutChainGood | src/chunking/chunker.ts:403-444 | Cutting again the oversized windows of any gap-free chain keeps cover, order and limit |
| WindowProofs.SeparatorWindowsGood | src/chunking/chunker.ts:403-444 | Separator windows miss no visible character, are ordered, exact and within maxCharacters |
| FixedStep.FixedStepUndo | src/chunking/chunker.ts:471-485 | Removing the overlap from each fixed-step cut but the first and concatenating gives back the text |
| FixedStep.FixedStepOverlap | src/chunking/chunker.ts:471-485 | Consecutive cuts share exactly overlapCharacters, and all but the last are exactly maxCharacters long |
| FixedStep.FixedStepCount | src/chunking/chunker.ts:471-485 | A text of length n over the limit is cut into exactly 1 + ceil((n - max) / (max - overlap)) pieces |
| ProtectedRanges.MergeProtectedRanges | src/chunking/chunker.ts:382-401 | Filter, sort and merge yield the merged ranges |
| ProtectedRanges.MergedRangesCorrect | src/chunking/chunker.ts:382-401 | Merged ranges are in order, neither overlap nor touch, and cover exactly the positions of the valid inputs |
| ProtectedRanges.MergedRangesWithin | src/chunking/chunker.ts:382-401 | Merging stays within any bound the input ranges keep |
| ProtectedRanges.TouchingRangesMerge | src/chunking/chunker.ts:382-401 | Ranges that touch become one, however long |
| TextWindows.CreateUnprotectedTextWindows | src/chunking/chunker.ts:358-372 | The windows of the boundary strategy: paragraph, line or fixed step |
| TextWindows.StrategyWindowsGood | src/chunking/chunker.ts:358-372 | Under each boundary strategy no visible character is missed and no window exceeds the limit |
| TextWindows.ProtectedTextWindows | src/chunking/chunker.ts:342-356 | A range that fits is one window; a longer one is cut like other text; all are marked protected |
| TextWindows.ProtectedWindowsGood | src/chunking/chunker.ts:342-356 | Windows of a protected range keep its text, order and the limit |
| TextWindows.WindowsWithProtectedRanges | src/chunking/chunker.ts:317-340 | The cursor loop yields the windows of gaps and ranges in turn |
| TextWindows.RangedWindowsGood | src/chunking/chunker.ts:317-340 | With any protected ranges no visible character is missed, order and limit hold |
| TextWindows.RangedWindowsRespect | src/chunking/chunker.ts:317-356 | Every raw window holds all of a protected range that fits, or lies wholly outside it |
| SmallWindows.MergeSmallWindows | src/chunking/chunker.ts:573-608 | The loop that overwrites the next pending window or the last result yields the merged windows |
| SmallWindows.DropFurnitureOrdered | src/chunking/chunker.ts:522-537 | Dropping short furniture keeps document order |
| SmallWindowProofs.FinishSound | src/chunking/chunker.ts:573-644 | Merging keeps windows exact, ordered, not blank and within maxCharacters |
| SmallWindowProofs.FinishRespects | src/chunking/chunker.ts:573-632 | Merging never cuts a protected range that its input respected |
| SmallWindowProofs.MergedWindowsAreRuns | src/chunking/chunker.ts:573-644 | Each final window is the hull of a consecutive run of kept windows, with at most one protected window in it and no text but theirs; the runs are all of the input, in order |
| MergeFixpoint.MergedWindowsSettled | src/chunking/chunker.ts:573-632 | No short window that is left can merge with either neighbour |
| MergeFixpoint.MergeIsIdempotent | src/chunking/chunker.ts:573-608 | A second pass changes nothing |
| RelatedRegions.Visit | src/chunking/chunker.ts:209-224 | One region of the queue: its unseen neighbours join the queue, the visited set and the result |
| RelatedRegions.RelatedLayoutRegionIds | src/chunking/chunker.ts:195-227 | The breadth-first search with its cap of 100 ids |
| RelatedRegions.RelatedIdsSound | src/chunking/chunker.ts:195-227 | Only regions reachable from the seeds by undirected relations are returned, none twice, and no seed |
| RelatedRegions.RelatedIdsComplete | src/chunking/chunker.ts:195-227 | When fewer than 100 regions are reachable, seeds and result are all of them |
| RelatedRegions.RelatedIdsCompleteOrCapped | src/chunking/chunker.ts:195-227 | Seeds and result are all reachable regions, or together at least 100 ids |
| LayoutEvidence.LayoutEvidenceForWindow | src/chunking/chunker.ts:152-193 | Evidence of a window: region ids in layout order, their boxes, and its page |
| LayoutEvidence.EvidenceIdsMeaning | src/chunking/chunker.ts:152-255 | A region is cited exactly when it overlaps the window or the search found it |
| LayoutEvidence.EvidenceComplete | src/chunking/chunker.ts:152-255 | Below the cap, exactly the regions reachable from the window's own regions are cited |
| LayoutEvidence.EvidenceBoxesMeaning | src/chunking/chunker.ts:229-247 | The cited boxes are exactly the boxes of the cited regions |
| ChunkPolicy.ValidPolicyIsSized | src/chunking/chunker.ts:763-820 | A policy that passes the guard has a positive limit, an overlap below it and a minimum within it |
| Chunker.CreateTextWindows | src/chunking/chunker.ts:270-291 | Raw windows of a document, around protected ranges when the policy asks for it |
| Chunker.RawWindowsGood | src/chunking/chunker.ts:270-372 | Raw windows of an accepted document miss no visible character, are ordered, exact and within the limit |
| Chunker.NormalizeTextWindows | src/chunking/chunker.ts:522-532 | Furniture dropped, then short neighbours merged |
| Chunker.FinalWindowsSound | src/chunking/chunker.ts:270-644 | Final windows are exact, ordered, not blank and within the limit |
| Chunker.BuildLocator | src/chunking/chunker.ts:650-720 | The locator of a window for each locator strategy |
| Chunker.ChunkDocument | src/chunking/chunker.ts:58-143 | The whole chunker with its error cases: invalid policy, blank body, too many chunks |
| ChunkerProofs.AcceptedBoxPasses | src/chunking/chunk-validation.ts:324-408 | A box that the layout validator accepts passes the chunk validator's separate box check |
| ChunkerProofs.ChunkedShape | src/chunking/chunker.ts:58-143 | Chunks correspond one to one to final windows, with their offsets, numbers and the maxChunksPerDocument bound |
| ChunkerProofs.ChunksPassValidation | src/chunking/chunk-validation.ts:40-218 | End to end: for every policy and accepted document, if chunking succeeds the independent validator finds nothing, so every chunk is sound, and none is flagged as oversized |
| ChunkerProofs.NoTextIsLost | src/chunking/chunker.ts:58-143 | Every visible character of the body is in some chunk, unless its window was dropped as short furniture |
| ChunkerProofs.ProtectedTextIsWhole | src/chunking/chunker.ts:293-401 | A chunk holds all visible text of a merged protected range that fits in one window, or none of it |
| ProtectedRanges.InOneMergedRange | src/chunking/chunker.ts:382-401 | Every valid range lies inside one merged range |
| Stretches.StretchesMakeWindows | src/chunking/chunker.ts:358-485 | Under every boundary strategy, second cuts included, the windows of a part of the body are its list of stretches, trimmed one by one |
| RegionCuts.RawMeeting | src/chunking/chunker.ts:317-356 | The raw windows that meet a merged range are exactly those cut from it, all of them marked as protected |
| RegionCuts.CutSurvives | src/chunking/chunker.ts:573-644 | A range that a kept raw window cuts is cut by a final window too: merging never puts it together again |
| RegionCuts.FinalRespectIff | src/chunking/chunker.ts:293-644 | The final windows leave a range of text in a merged range whole exactly when the kept windows of that merged range do |
| ProtectedRegions.RegionIsWholeIff | src/chunking/chunker.ts:293-644 | For every strategy and document: each chunk holds all visible text of a protected region or none of it exactly when each stretch that its merged range is cut into is blank, is dropped, or does so itself |
| ProtectedRegions.RegionTextIsWhole | src/chunking/chunker.ts:293-401 | So it is when the merged range of the region fits in one window |
| ProtectedRegions.EvenStepsWholeIff | src/chunking/chunker.ts:471-485 | Fixed steps without overlap, merged range too long: the region is whole if it lies in one step counted from the start of the merged range, and only if, when the merged range has no whitespace |
| ProtectedRegions.LoneRegionIsWhole | src/chunking/chunker.ts:293-401 | A fitting protected region that no other one overlaps or touches is never cut |
| RegionExamples.TouchingRegionsAreCut | src/chunking/chunker.ts:342-401 | Fixed steps, a body without whitespace that is two touching regions, the first shorter than a window and both together longer: the first chunk ends inside the second region |
| RegionExamples.FittingTableIsCut | src/chunking/chunker.ts:342-401 | A concrete document: two tables of three characters, windows of four, and the second table is cut |
| RegionExamples.TwoTablesWholeIff | src/chunking/chunker.ts:342-401 | Six characters, windows of four, tables [0, b) and [b, 6): the first is whole exactly when b <= 4, the second exactly when b >= 4, so both are when b is 4 although the merged range is too long |
| RegionExamples.FinalCount | src/chunking/chunker.ts:522-608 | Dropping furniture and merging never add a window |
| ChunkerProofs.ChunksInDocumentOrder | src/chunking/chunker.ts:87-143 | Chunks are numbered from 0 in document order |
| ChunkerProofs.FinalWindowsAreStable | src/chunking/chunker.ts:522-608 | Merging the final windows of a document again changes nothing |
| ChunkerProofs.BlankHasNoChunks | src/chunking/chunker.ts:58-91 | A blank document yields no chunk, and no error but that of an invalid policy |
| ChunkValidation.IssueLog.ValidateOwner | src/chunking/chunk-validation.ts:47-118 | Pushes the document, namespace, scope, provenance and citation issues in order; their meaning is OwnerMeaning |
| ChunkValidation.IssueLog.ValidateText | src/chunking/chunk-validation.ts:120-189 | Pushes the range, slice, size, hash and flag issues in order; their meaning is SliceMeaning |
| ChunkValidation.IssueLog.ValidateBoxes | src/chunking/chunk-validation.ts:324-408 | Box checks against the page table |
| ChunkValidation.IssueLog.ValidateLayoutEvidence | src/chunking/chunk-validation.ts:220-322 | Known regions and pages, and agreement of chunk and citation |
| ChunkValidation.ValidateChunk | src/chunking/chunk-validation.ts:40-201 | All issues of a chunk, in order |
| ChunkValidation.ValidateChunks | src/chunking/chunk-validation.ts:203-218 | The issues of all chunks, in order |
| ChunkValidation.OwnerMeaning | src/chunking/chunk-validation.ts:47-118 | No owner issue exactly when the chunk has its document's id, namespace, scope and provenance and a citation of itself |
| ChunkValidation.SliceMeaning | src/chunking/chunk-validation.ts:120-189 | No text issue exactly when the chunk is a non-blank exact slice of the body within the limit, with its hash and flags |
| ChunkValidation.EvidenceMeaning | src/chunking/chunk-validation.ts:220-408 | No evidence issue exactly when citation and chunk agree, regions and pages exist and boxes lie inside their page |
| ChunkValidation.ChunkValidIffOk | src/chunking/chunk-validation.ts:40-201 | The validator reports nothing exactly when the chunk is sound, stated without its loops and tables |
| LayoutValidator.Validation.RegisterGlobalId | src/documents/layout.ts:694-711 | Reports a blank or repeated id and remembers the others |
| LayoutValidator.Validation.ValidateBox | src/documents/layout.ts:770-836 | Issues of one box against its page |
| LayoutValidator.Validation.ValidateCharacterRange | src/documents/layout.ts:713-768 | Issues of one region's range and text |
| LayoutValidator.Validation.ValidatePages | src/documents/layout.ts:267-333 | Issues of the pages, and the table of pages by number, first one wins |
| LayoutValidator.Validation.ValidateRegions | src/documents/layout.ts:335-399 | Issues of the regions, the ids registered, and the table of regions by id |
| LayoutValidator.Validation.ValidateRegionGraph | src/documents/layout.ts:401-449 | Issues of parents and children |
| LayoutValidator.Validation.ValidateLayoutRelations | src/documents/layout.ts:451-521 | Issues of relations, with their ids registered |
| LayoutValidator.Validation.ValidateTables | src/documents/layout.ts:523-639 | Issues of tables and cells, with their ids registered |
| LayoutValidator.Validation.ValidateVisualAssets | src/documents/layout.ts:641-692 | Issues of visual assets, with their ids registered |
| LayoutValidator.ValidateDocumentLayout | src/documents/layout.ts:208-249 | All issues of a layout that is present, in order |
| LayoutSoundness.PagesIssuesMeaning | src/documents/layout.ts:267-333 | The page loop reports nothing exactly when every page is well formed and numbers are unique |
| LayoutSoundness.AllIdsMeaning | src/documents/layout.ts:694-711 | Four loops sharing one id set report nothing exactly when all ids together are unique and not blank |
| LayoutSoundness.RegionsMeaning | src/documents/layout.ts:335-399 | The region loop is clean exactly when each region has a page, a fitting box and a range that slices the body to its text |
| LayoutSoundness.GraphMeaning | src/documents/layout.ts:401-449 | The graph loop is clean exactly when parents exist and children agree with their parents |
| LayoutSoundness.TablesMeaning | src/documents/layout.ts:523-639 | The table loop is clean exactly when each table stands on a table region and its cells are valid |
| LayoutSoundness.LayoutValidIffWellFormed | src/documents/layout.ts:208-249 | The validator reports nothing exactly when the layout is well formed for the body, stated without loops or tables |
| Scheduler.NextKeepsInv | src/corpus/local-files-adapter.ts:251-289 | Every move of every worker keeps the invariant over claims, workers and results |
| Scheduler.RunIsBounded | src/corpus/local-files-adapter.ts:251-289 | At most `concurrency` items are in flight, no two workers have the same one, and the indices claimed so far are 0, 1, 2, ..., once each |
| Scheduler.FinishedRunClaimsAll | src/corpus/local-files-adapter.ts:251-289 | A finished run without a failure has claimed every index exactly once, in order |
| Scheduler.RunTerminates | src/corpus/local-files-adapter.ts:251-289 | Every run ends within 2n + min(concurrency, n) moves |
| Scheduler.RunProgresses | src/corpus/local-files-adapter.ts:251-289 | No run gets stuck before it is final |
| Scheduler.RunRefinesSequentialMap | src/corpus/local-files-adapter.ts:251-289 | Every finished run returns what the sequential map returns, whatever the interleaving; it fails exactly when some item fails |
| Scheduler.OneWorkerIsSequential | src/corpus/local-files-adapter.ts:251-289 | With one worker the error is that of the first failing item |
| SchedulerErrors.ErrorsReturnedIff | src/corpus/local-files-adapter.ts:251-289 | The errors that some interleaving returns are exactly those of failing items with fewer failing items before them than there are workers |
| SchedulerErrors.OneFailureIsSequential | src/corpus/local-files-adapter.ts:251-289 | When at most one item fails, every finished run returns what the sequential map returns, its error included |
| SchedulerErrors.FirstTwoRace | src/corpus/local-files-adapter.ts:251-289 | With two or more workers the first two failing items race: one run returns the error of the first, another that of the second |
| LocalFiles.Flatten | src/corpus/local-files-adapter.ts:213-248 | Results are flattened into records and warnings in order |
| LocalFiles.LoadIsDeterministic | src/corpus/local-files-adapter.ts:213-289 | Two finished runs over the same files, under any two settings, return the same records and warnings, in file order |
| Optimizer.RunDedupe | src/context/context-optimizer.ts:28-90 | The loop with its counters yields kept and rejected candidates of the pass |
| Optimizer.OrderedCandidatesCorrect | src/context/context-optimizer.ts:28-42 | The pass sees every candidate once, best score first |
| Optimizer.DedupeConserves | src/context/context-optimizer.ts:28-90 | Every candidate is kept or rejected, exactly once |
| Optimizer.KeptPairwiseApart | src/context/context-optimizer.ts:92-120 | Kept candidates meet no citation or lexical duplicate rule against each other, and a kept secondary source copies only kept primary ones that came later |
| Optimizer.DedupeJustifies | src/context/context-optimizer.ts:28-120 | Every rejected candidate duplicates a kept one of no lower optimizer score |
| Optimizer.JaccardSymmetric | src/context/context-optimizer.ts:233-240 | Word overlap does not depend on the order of the two texts |
| Diversify.DiversifyBySource | src/context/context-optimizer.ts:187-211 | The loop that shifts per-source queues yields the rounds |
| Diversify.DiversifiedIsPermutation | src/context/context-optimizer.ts:187-211 | Diversifying loses and invents nothing |
| Diversify.DiversifiedIsStable | src/context/context-optimizer.ts:187-211 | Each source's candidates come out in the order they went in |
| Diversify.DiversifiedTakesTurns | src/context/context-optimizer.ts:187-211 | Every source's k-th candidate comes before any source's (k + 1)-th |
| ContextBuilder.FillContext | src/context/context-builder.ts:60-145 | The greedy loop yields blocks, rejections and the token total |
| ContextBuilder.Build | src/context/context-builder.ts:47-145 | The whole build with its request errors |
| ContextProofs.BuiltContextWithinBudgets | src/context/context-builder.ts:47-145 | Both budgets hold, the token total is the sum over the blocks, chunk ids are distinct, blocks are numbered from 1 |
| ContextProofs.BuiltContextConserves | src/context/context-builder.ts:47-145 | Blocks and all rejections are the retrieved candidates, each once |
| ContextProofs.BuiltContextExplained | src/context/context-builder.ts:218-354 | Every block passed every policy check, and every rejection has a reason that still holds |
| RelationshipPath.IsValidRelationshipPath | src/answer/grounding-gate.ts:509-541 | The loop over the edges with previousEdge decides validity |
| RelationshipPath.AcceptedPathConnects | src/answer/grounding-gate.ts:509-568 | An accepted path connects seed and target through its edges, undirected, in at most depth hops |
| RelationshipPath.GenuineWalkIsAccepted | src/answer/grounding-gate.ts:509-568 | Every genuine walk with named entities and edges numbered from 1 is accepted |
| RelationshipPath.WalkIffTraceable | src/answer/grounding-gate.ts:509-541 | A path is a walk in the order of its edges exactly when it can be traced: leaving each edge by the end not entered at, one meets the next edge and ends at the target; the walk is then the traced one |
| RelationshipPath.AcceptedPathNeedNotBeAWalk | src/answer/grounding-gate.ts:525-541 | Acceptance does not make the edges a walk in their order: two spokes of a hub are accepted |
| GroundingGate.IssueLog.ValidateCitations | src/answer/grounding-gate.ts:333-378 | Citation issues of a draft |
| GroundingGate.IssueLog.ValidateRelationshipPaths | src/answer/grounding-gate.ts:441-497 | Path and edge-evidence issues of the cited blocks |
| GroundingGate.IssueLog.ValidateActions | src/answer/grounding-gate.ts:399-430 | Action issues of a draft |
| GroundingGate.ValidateDraft | src/answer/grounding-gate.ts:84-160 | All issues of a draft; valid exactly when none is an error |
| GateProofs.BuiltContextIsAssessed | src/context/context-builder.ts:392-445 | Every built context carries the verdict on its own blocks, no chunk twice |
| GateProofs.GateFollowsVerdict | src/answer/grounding-gate.ts:52-82 | Generation is allowed exactly when the context is answerable, with exactly its chunk ids to cite |
| GateProofs.UnanswerableNeedsRefusal | src/answer/grounding-gate.ts:102-122 | No draft that does not refuse validates on a context that is not answerable |
| GateProofs.CitedBlocksAreAll | src/answer/grounding-gate.ts:326-331 | Citing exactly the allowed chunks, in any order and however often, resolves to exactly the blocks |
| GateProofs.CitationVerdict | src/answer/grounding-gate.ts:333-378 | Exactly when such a draft gets no citation issue |
| GateProofs.AnswerableMeaning | src/context/context-builder.ts:413-445 | Under a validated citation policy a built verdict is answerable exactly when its blocks reach minimumCitations and its trusted blocks minimumTrustedCitations |
| GateProofs.GateAndValidatorAgree | src/answer/grounding-gate.ts:333-378 | For every profile whose citation policy the code accepts: a draft citing the allowed chunks gets no citation issue exactly when the context is answerable |
| GateProofs.BuiltContextAgrees | src/context/context-builder.ts:392-445 | Builder and draft validator agree on every context the builder can return |
| GateProofs.TooFewBlocksNeverValid | src/answer/grounding-gate.ts:350-359 | Below minimumCitations blocks no draft that does not refuse is ever valid |
| GateProofs.DraftVerdict | src/answer/grounding-gate.ts:84-160 | Exactly when a draft that cites the allowed chunks and does not refuse is valid: the context is answerable, and text, paths and actions pass |
| Normalize.IssueLog.ValidateFields | src/corpus/normalize.ts:85-91 | Issues of the text fields, kind, sensitivity and checksum |
| Normalize.IssueLog.ValidateLayout | src/corpus/normalize.ts:314-333 | One issue per layout error against the normalized body |
| Normalize.IssueLog.ValidateSource | src/corpus/normalize.ts:95-144 | Issues of the source against its declaration |
| Normalize.IssueLog.ValidateAccessScope | src/corpus/normalize.ts:340-400 | Scope issues of a record |
| Normalize.IssueLog.ResolveTrustTier | src/corpus/normalize.ts:402-439 | The effective tier and its issues |
| Normalize.NormalizeCorpusRecord | src/corpus/normalize.ts:67-207 | A document or the issues that kept it out |
| Normalize.NormalizeCorpusRecords | src/corpus/normalize.ts:225-254 | Documents, rejected ids and issues of a batch, in order |
| NormalizeProofs.LeastTrustedWins | src/documents/trust-tier.ts:79-128 | The effective tier is the least trusted of record, floor and override; an override is unsafe exactly when it would raise it |
| NormalizeProofs.AcceptedIffAdmissible | src/corpus/normalize.ts:67-207 | A record is accepted exactly when a list of plain conditions holds, layout well-formedness among them |
| NormalizeProofs.AcceptedDocumentIsSafe | src/corpus/normalize.ts:164-207 | An accepted document is in the profile's namespace and the requester's tenant, of an allowed tier no higher than declared, and its layout fits its body |
| NormalizeProofs.RecordToChunks | src/corpus/normalize.ts:67-207 | From record to chunks: what is accepted and chunked passes the chunk validator in its own scope |
| NormalizeProofs.BatchConserves | src/corpus/normalize.ts:225-254 | Every record of a batch is accepted or rejected, once, and issues appear exactly when something is rejected |
| NormalizeProofs.BatchInOrder | src/corpus/normalize.ts:225-254 | The documents are those of the accepted records, one each, in the order of the records |
| PythonStrings.JoinedAt | scripts/pdf_rag_parser.py:196-204 | Each part of a joined body is found at its running offset |
| PythonStrings.JoinedPosition | scripts/pdf_rag_parser.py:196-204 | Every position of a joined body is in a part or in the separator after it |
| PythonStrings.SplitLinesAt | scripts/pdf_rag_parser.py:206-218 | Lines with their breaks are consecutive slices of the text |
| PythonStrings.SplitLinesCover | scripts/pdf_rag_parser.py:206-218 | No character is outside the lines |
| PdfParser.NonEmptyLines | scripts/pdf_rag_parser.py:206-218 | The loop over raw lines with line_start yields the trimmed lines and their positions |
| PdfParser.LinesExact | scripts/pdf_rag_parser.py:206-218 | Lines of a page are exact slices with no outer whitespace, in order and disjoint |
| PdfParser.LinesCover | scripts/pdf_rag_parser.py:206-218 | Every visible character of a page is in one of its lines |
| PdfParser.BuildBodyAndRegions | scripts/pdf_rag_parser.py:177-203 | The nested loops with offset and region_index yield the joined body and the regions |
| PdfParser.ParsePdf | scripts/pdf_rag_parser.py:31-72 | Body, layout and warnings of a file |
| PdfParser.TextLayerEmptyIff | scripts/pdf_rag_parser.py:57-63 | The warning about a missing text layer is given exactly when the layout has no region |
| PdfParser.RegionsSliceBody | scripts/pdf_rag_parser.py:177-203 | Every region slices the body to exactly its text; regions are ordered, disjoint and numbered on |
| PdfParser.EveryCharacterHasRegion | scripts/pdf_rag_parser.py:177-218 | Every visible character of the body is in a region |
| PdfParser.PdfLayoutWellFormed | scripts/pdf_rag_parser.py:31-56 | The layout is well formed for the body, whatever the pages hold |
| PdfParser.PdfLayoutValid | src/documents/layout.ts:208-249 | The layout validator finds nothing wrong with it |
| PdfParser.PdfChunksPassValidation | src/chunking/chunk-validation.ts:203-218 | Chunks of a parsed file pass their validator |
| SheetRows.MaterializedRows | scripts/openpyxl_rag_parser.py:245-278 | The loops that merge formulas and pop trailing blanks yield the rows and the formula warnings |
| SheetRows.WarningsExact | scripts/openpyxl_rag_parser.py:254-275 | A warning is raised exactly for each formula without a calculated value, once, in sheet order |
| SheetRows.RowsMeaning | scripts/openpyxl_rag_parser.py:270-278 | Rows are those of the sheet without trailing blanks, in sheet order |
| SheetRows.CellsAreKept | scripts/openpyxl_rag_parser.py:254-278 | No cell with a value or a formula is lost: it is in the row of its number, at its column |
| SheetRows.TableCells | scripts/openpyxl_rag_parser.py:281-294 | The nested loops yield the cells |
| SheetRows.CellsExact | scripts/openpyxl_rag_parser.py:281-294 | Cells are those of the rows, each once, row by row, with their source positions |
| SpreadsheetParser.IdInjects | scripts/openpyxl_rag_parser.py:82-152 | Different things have different ids, across sheets and across the lists of the layout |
| SpreadsheetParser.PartAppended | scripts/openpyxl_rag_parser.py:78-148 | Appending a part appends its region at the running offset and moves the offset past it |
| SpreadsheetParser.VisualAssetsForSheet | scripts/openpyxl_rag_parser.py:301-368 | Charts, then images, with their ids |
| SpreadsheetParser.ParseSheet | scripts/openpyxl_rag_parser.py:78-148 | One sheet: its parts, regions and the offset after them |
| SpreadsheetParser.ParseWithOpenpyxl | scripts/openpyxl_rag_parser.py:36-198 | The whole loop with its warnings, and the case of a workbook without content |
| SpreadsheetProofs.EmptyWorkbookIff | scripts/openpyxl_rag_parser.py:152-198 | The workbook is reported as empty exactly when no sheet has rows, charts or images; otherwise all formula warnings are passed on |
| SpreadsheetProofs.RegionSlices | scripts/openpyxl_rag_parser.py:78-148 | Every region slices the joined body to exactly the text of its part |
| SpreadsheetProofs.RegionsSliceBody | scripts/openpyxl_rag_parser.py:36-160 | One exact, non-empty, disjoint region per part of the body, in order |
| SpreadsheetProofs.AllIdsDistinct | scripts/openpyxl_rag_parser.py:82-185 | No id is blank or used twice, in one list or across lists |
| SpreadsheetProofs.TablesPass | scripts/openpyxl_rag_parser.py:117-135 | Every table stands on the table region of its own sheet |
| SpreadsheetProofs.SpreadsheetLayoutValid | scripts/openpyxl_rag_parser.py:160-185 | The layout validator finds nothing wrong with the layout and body, whatever the sheets hold |
| Registry.CompanyDeploymentRegistry.Register | src/company/company-deployment-registry.ts:51-102 | The new state and the error of a call, partial index writes included |
| Registry.CompanyDeploymentRegistry.AddUnique | src/company/company-deployment-registry.ts:372-385 | One resolution in both indexes, or the first of them only |
| Registry.CompanyDeploymentRegistry.ResolveProfile | src/company/company-deployment-registry.ts:116-142 | Profile id first, then company and use case, then namespace |
| RegistryProofs.StepKeepsConsistent | src/company/company-deployment-registry.ts:51-102 | Every call keeps the index invariant, whether it succeeds, fails early or fails halfway |
| RegistryProofs.RegisteredIsFoundThreeWays | src/company/company-deployment-registry.ts:116-142 | After any run each registered use case is found by profile id, namespace, and company with use case, as the same resolution |
| RegistryProofs.FillSucceedsIff | src/company/company-deployment-registry.ts:372-385 | Filling the indexes succeeds exactly when all profile ids and namespaces of the batch are free and pairwise distinct |
| RegistryProofs.LeavesBehindIff | src/company/company-deployment-registry.ts:82-101 | A call fails after writing exactly when it gets as far as filling, its first profile id is free, and not all ids and namespaces are free and distinct: a condition on the indexes before the call |
| RegistryProofs.StepSoundIff | src/company/company-deployment-registry.ts:82-101 | A call on a sound state leaves an orphan index entry exactly under that condition |
| RegistryProofs.OrphansStay | src/company/company-deployment-registry.ts:372-385 | An orphan entry is never adopted by a later call |
| RegistryProofs.RunSoundIff | src/company/company-deployment-registry.ts:51-102 | After a run every index entry belongs to a registered company exactly when no call met that condition on the indexes it found |
| RegistryProofs.SharedNamespaceLeavesOrphan | src/company/company-deployment-registry.ts:82-101 | A concrete run: the second of two companies that share a namespace is not registered, yet its profile id is resolved |
| RegistryProofs.IndexEntryBlocks | src/company/company-deployment-registry.ts:372-385 | However a run goes on, no call registers the company of an index entry, an orphan above all, with the use case of that entry |
| RegistryProofs.FailedFillingIsFinal | src/company/company-deployment-registry.ts:82-101 | After a registration that failed while filling, every later call for that company whose use cases include the first one fails too, after any further calls |
| Pagination.ReadItems | src/corpus/saas-corpus-adapter.ts:187-224 | The loop over a page's items stops at the record limit |
| Pagination.LoadPages | src/corpus/saas-corpus-adapter.ts:143-254 | At most maxPages fetches, no cursor twice, why the run stopped, and every warning in order |
| Pagination.ReadIsTake | src/corpus/saas-corpus-adapter.ts:187-224 | The records are the first maxRecords successful mappings of the fetched items |
| Pagination.OnlyStopTruncates | src/corpus/saas-corpus-adapter.ts:226-235 | Truncation is reported exactly when that is why the run stopped |
| Pagination.Load | src/corpus/saas-corpus-adapter.ts:124-254 | First maxRecords mappings in order; truncation exactly when an item of a fetched page is unread; no fetch without a source config |
| ProviderRetry.Embed | src/embeddings/provider-embedding-adapter.ts:82-194 | The retry loop: at most maxRetries + 1 sends, the outcome of the one it stops at, attempts numbered 1..n; no send without a key |
| ProviderRetry.StopIsUnique | src/embeddings/provider-embedding-adapter.ts:119-177 | There is exactly one send at which the loop may stop |
| ProviderRetry.SuccessIffFirstDecisiveParses | src/embeddings/provider-visual-embedding-adapter.ts:133-209 | Success exactly when the first reply that is not a retryable error comes in time and parses |
| ProviderRetry.ParseFailureEndsRun | src/embeddings/provider-visual-embedding-adapter.ts:245-321 | A response that cannot be parsed is never retried |
| ProviderRetry.RetryableYetLast | src/shared/provider-boundary.ts:195-220 | Earlier attempts are all retryable; a retryable last attempt with sends left is exactly a parse failure that mentions a timeout |
| EmbeddingResponse.NormalizeParsedResponse | src/embeddings/provider-embedding-adapter.ts:264-316 | The embeddings of a response or its first error, and the number of inputs without one |
| EmbeddingResponse.NormalizedMeaning | src/embeddings/provider-embedding-adapter.ts:264-316 | Accepted exactly when ids are known, visible and distinct and vectors are finite and of the configured length |
| EmbeddingResponse.LastInputWins | src/embeddings/provider-embedding-adapter.ts:269-269 | Of inputs with the same id the last one is hashed |
| EmbeddingResponse.MissingIsDifference | src/embeddings/provider-embedding-adapter.ts:305-309 | With distinct input ids the missing count is exact, and without a warning every input has its embedding |
| EmbeddingResponse.NormalizeParsedQueryResponse | src/embeddings/provider-visual-embedding-adapter.ts:514-546 | A query response passes exactly when it has a vector and every vector fits |
| LeakCheck.LeakCheckWindows | src/company/company-connector-contract.ts:602-614 | The tiling loop yields the windows, the last one included |
| LeakCheck.LongRunIsFlagged | src/company/company-connector-contract.ts:584-614 | A message is flagged once it shares as many consecutive characters with a checked body as the bound for its length: the whole body up to 48 characters, one less than the body up to 96, 95 beyond |
| LeakCheck.FlaggedCopies | src/company/company-connector-contract.ts:584-614 | A flagged message shares min(48, body length) consecutive characters with some body of at least 24 |
| LeakCheck.ShortBodyExact | src/company/company-connector-contract.ts:591-606 | A body of 24 to 48 characters is flagged exactly when the message contains all of it |
| LeakCheck.RunBelowBoundUnnoticed | src/company/company-connector-contract.ts:584-614 | For every length of a checked body, sharing one character less goes unnoticed when the characters around the shared run do not occur in it |
| LeakCheck.BoundIsExact | src/company/company-connector-contract.ts:584-614 | For bodies of each length, sharing n consecutive characters is always noticed exactly when n reaches that bound |

## Left out

- Files, subprocesses, OCR, HTTP, databases, the admin site, and HTML or Markdown rendering: input and output.
- Regular expressions (furniture, paragraphs, redaction, injection and secret patterns), hashing and lower-casing: parameters.
- Issue messages and paths: issues keep their code, their order and their number.
- UTF-16 code units and Python code points: one character unit on both sides.
- Floating point: boxes, scores and word overlap are reals; numbers that are not finite and integers that are not whole are outside the types.
- Timestamps are parsed values; request ids, latencies reported to callers, usage counts and traces of the builder and the gate are not modelled.
- The validator's list of cited ids keeps first occurrences in order; the order by locale in which issues about them are worded is not modelled.
- Chunk metadata, boundary labels and the visual asset fields of a citation.
- The Docling parser, company manifests, contract-test plumbing, provider presets and request builders: shape checks with little to prove.
- Vector stores, the sync runner, the ingestion queue, index generations and profile validation: not part of this model.
- Company readiness and adapter-pack coverage are one outcome per registration: the profiles of the deployment, or a rejection.
- The registry's listing methods and map order: the indexes are maps without order.
- Sheet metadata of a spreadsheet; chart titles, anchors and image bytes are inputs.
- Contradiction and evidence clusters of the optimizer result: they do not change which candidates are kept.
- Embedding metadata that is passed through: usage, provider warnings and visual asset ids.
- Chunker.ChunkDocument: leaves out chunk metadata and boundary labels, which nothing downstream in the model reads.
- ContextBuilder.Build: leaves out the trace, redaction counts and source lists, which are derived from the blocks for reporting.
- GroundingGate.ValidateDraft: leaves out the trace and the returned id lists; the issues and the verdict are complete.
- Normalize.NormalizeCorpusRecord: leaves out document metadata and the provenance fields that are copied without a check.
- Normalize.NormalizeCorpusRecords: leaves out the worded reason and the source id of a rejection.
- PdfParser.ParsePdf: leaves out the metadata block; the pages and the warnings of their extraction are inputs.
- SpreadsheetParser.VisualAssetsForSheet: leaves out files, checksums and asset metadata.
- SpreadsheetParser.ParseWithOpenpyxl: leaves out the metadata blocks.
