/** Normalization: which corpus records may become documents, and of what trust. */
module Normalize {
  import opened Text
  import opened Layout
  import opened LayoutValidator
  import opened Chunk
  import opened Retrieval

  datatype DeclaredKind = KnownKind(kind: SourceKind) | OtherSourceKind(kindName: string)

  /** A field that is absent or not a string is the empty string; a trust tier that is not one of the
      known names is None, and so is an access scope that is not an object. */
  datatype CorpusRecord = CorpusRecord(
    id: string, sourceId: string, title: string, body: string, sourceKind: DeclaredKind, knownSensitivity: bool,
    trustTier: Option<TrustTier>, checksum: string, capturedAt: string,
    layout: Option<DocumentLayout>, accessScope: Option<AccessScope>)

  datatype SourceConfig = SourceConfig(
    id: string, adapter: string, enabled: bool, trustTierOverride: Option<TrustTier>, trustTierFloor: Option<TrustTier>)

  datatype Principal = Principal(tenantId: string, namespaceIds: seq<string>)

  datatype NormalizationContext = NormalizationContext(
    namespaceId: string, corpusSources: seq<SourceConfig>, allowedTrustTiers: set<TrustTier>, requireCapturedAt: bool,
    source: SourceConfig, requestedBy: Principal)

  datatype RecordIssue =
    | NullRecord | EmptyRecordField | InvalidSourceKind | InvalidSensitivity | ChecksumMismatch | InvalidLayout
    | SourceNotDeclared | DisabledSource | SourceMismatch | MissingAccessScope | NamespaceBoundaryViolation
    | PrincipalBoundaryViolation | MissingProvenanceField | InvalidTrustTier | UnsafeTrustUpgrade | DisallowedTrustTier

  type RecordIssues = seq<RecordIssue>

  // ---- Trust ----

  predicate IsTrustUpgrade(from: TrustTier, to: TrustTier) { TrustRank(to) < TrustRank(from) }

  function LeastTrusted(a: TrustTier, b: TrustTier): TrustTier { if TrustRank(a) >= TrustRank(b) then a else b }

  datatype TrustDecision = TrustDecision(tier: TrustTier, unsafeUpgrade: bool)

  function TrustDecisionFor(declared: TrustTier, floor: Option<TrustTier>, override: Option<TrustTier>): TrustDecision {
    var floored := if floor.Some? && IsTrustUpgrade(floor.value, declared) then floor.value else declared;
    if override.None? then TrustDecision(floored, false)
    else if IsTrustUpgrade(floored, override.value) then TrustDecision(floored, true)
    else TrustDecision(LeastTrusted(floored, override.value), false)
  }

  function DecisionFor(record: CorpusRecord, c: NormalizationContext): TrustDecision {
    if record.trustTier.None? then TrustDecisionFor(UnknownTier, None, None)
    else TrustDecisionFor(record.trustTier.value, c.source.trustTierFloor, c.source.trustTierOverride)
  }

  function TierName(tier: TrustTier): string {
    match tier
    case TrustedInternal => "trusted_internal"
    case VerifiedPartner => "verified_partner"
    case UserProvided => "user_provided"
    case GeneratedOrDerived => "generated_or_derived"
    case ExternalUntrusted => "external_untrusted"
    case UnknownTier => "unknown"
  }

  // ---- Issues ----

  function NormalizedBody(t: TextRules, record: CorpusRecord): string {
    if record.layout.Some? then record.body else Trim(t, record.body)
  }

  function DeclaredSource(sources: seq<SourceConfig>, id: string): Option<SourceConfig> {
    if sources == [] then None else if sources[0].id == id then Some(sources[0]) else DeclaredSource(sources[1..], id)
  }

  function FieldIssues(t: TextRules, record: CorpusRecord): RecordIssues {
    When(IsBlank(t, record.id), EmptyRecordField)
    + When(IsBlank(t, record.sourceId), EmptyRecordField)
    + When(IsBlank(t, record.title), EmptyRecordField)
    + When(IsBlank(t, record.body), EmptyRecordField)
    + When(record.sourceKind.OtherSourceKind? && IsBlank(t, record.sourceKind.kindName), EmptyRecordField)
    + When(record.sourceKind.OtherSourceKind?, InvalidSourceKind)
    + When(!record.knownSensitivity, InvalidSensitivity)
    + When(!IsBlank(t, record.checksum) && record.checksum != t.hash(record.body), ChecksumMismatch)
  }

  function LayoutRecordIssues(t: TextRules, record: CorpusRecord): RecordIssues {
    if record.layout.None? then []
    else seq(|LayoutIssues(t, record.layout.value, NormalizedBody(t, record))|, _ => InvalidLayout)
  }

  predicate SameConfig(a: SourceConfig, b: SourceConfig) {
    a.adapter == b.adapter && a.enabled == b.enabled
    && a.trustTierOverride == b.trustTierOverride && a.trustTierFloor == b.trustTierFloor
  }

  function SourceIssues(record: CorpusRecord, c: NormalizationContext): RecordIssues {
    (match DeclaredSource(c.corpusSources, c.source.id)
     case None => [SourceNotDeclared]
     case Some(declared) => When(!declared.enabled, DisabledSource) + When(!SameConfig(declared, c.source), SourceMismatch))
    + When(record.sourceId != c.source.id, SourceMismatch)
  }

  function ScopeIssues(t: TextRules, record: CorpusRecord, c: NormalizationContext): RecordIssues {
    if record.accessScope.None? then [MissingAccessScope]
    else
      var scope := record.accessScope.value;
      When(IsBlank(t, scope.tenantId) || IsBlank(t, scope.namespaceId), MissingAccessScope)
      + When(scope.namespaceId != c.namespaceId, NamespaceBoundaryViolation)
      + When(scope.tenantId != c.requestedBy.tenantId, PrincipalBoundaryViolation)
      + When(c.namespaceId !in c.requestedBy.namespaceIds, PrincipalBoundaryViolation)
  }

  function TrustIssues(record: CorpusRecord, c: NormalizationContext): RecordIssues {
    When(record.trustTier.None?, InvalidTrustTier)
    + When(DecisionFor(record, c).unsafeUpgrade, UnsafeTrustUpgrade)
    + When(DecisionFor(record, c).tier !in c.allowedTrustTiers, RecordIssue.DisallowedTrustTier)
  }

  function IssuesOf(t: TextRules, record: CorpusRecord, c: NormalizationContext): RecordIssues {
    FieldIssues(t, record) + LayoutRecordIssues(t, record) + SourceIssues(record, c) + ScopeIssues(t, record, c)
    + When(c.requireCapturedAt && IsBlank(t, record.capturedAt), MissingProvenanceField)
    + TrustIssues(record, c)
  }

  function DocumentOf(t: TextRules, record: CorpusRecord, c: NormalizationContext): RagDocument
    requires record.accessScope.Some?
  {
    RagDocument(Trim(t, record.id), c.namespaceId, Trim(t, record.title), NormalizedBody(t, record),
                Provenance(record.sourceId, TierName(DecisionFor(record, c).tier)),
                record.accessScope.value, record.layout)
  }

  datatype NormalizationResult = NormalizationResult(document: Option<RagDocument>, issues: RecordIssues)

  /** The record is None where the adapter returned null. All issues are errors. */
  function NormalizedRecord(t: TextRules, record: Option<CorpusRecord>, c: NormalizationContext): NormalizationResult {
    if record.None? then NormalizationResult(None, [NullRecord])
    else
      var issues := IssuesOf(t, record.value, c);
      NormalizationResult(
        if issues == [] && record.value.accessScope.Some? then Some(DocumentOf(t, record.value, c)) else None, issues)
  }

  class IssueLog {
    var issues: RecordIssues

    constructor ()
      ensures issues == []
    {
      issues := [];
    }

    method Push(condition: bool, issue: RecordIssue)
      modifies this
      ensures issues == old(issues) + When(condition, issue)
    {
      if condition {
        issues := issues + [issue];
      }
    }

    method ValidateFields(t: TextRules, record: CorpusRecord)
      modifies this
      ensures issues == old(issues) + FieldIssues(t, record)
    {
      hide When, IsBlank;
      var other := record.sourceKind.OtherSourceKind?;
      var blankKind := other && IsBlank(t, record.sourceKind.kindName);
      var badChecksum := !IsBlank(t, record.checksum) && record.checksum != t.hash(record.body);
      Push(IsBlank(t, record.id), EmptyRecordField);
      Push(IsBlank(t, record.sourceId), EmptyRecordField);
      Push(IsBlank(t, record.title), EmptyRecordField);
      Push(IsBlank(t, record.body), EmptyRecordField);
      Append3(old(issues), When(IsBlank(t, record.id), EmptyRecordField), When(IsBlank(t, record.sourceId), EmptyRecordField),
              When(IsBlank(t, record.title), EmptyRecordField));
      ghost var start := When(IsBlank(t, record.id), EmptyRecordField) + When(IsBlank(t, record.sourceId), EmptyRecordField)
                         + When(IsBlank(t, record.title), EmptyRecordField);
      ConcatAssoc(old(issues), start, When(IsBlank(t, record.body), EmptyRecordField));
      ghost var texts := start + When(IsBlank(t, record.body), EmptyRecordField);
      assert issues == old(issues) + texts;
      Push(blankKind, EmptyRecordField);
      Push(other, InvalidSourceKind);
      Push(!record.knownSensitivity, InvalidSensitivity);
      Push(badChecksum, ChecksumMismatch);
      Append5(old(issues), texts, When(blankKind, EmptyRecordField), When(other, InvalidSourceKind),
              When(!record.knownSensitivity, InvalidSensitivity), When(badChecksum, ChecksumMismatch));
    }

    method ValidateLayout(t: TextRules, record: CorpusRecord)
      modifies this
      ensures issues == old(issues) + LayoutRecordIssues(t, record)
    {
      hide LayoutIssues;
      if record.layout.Some? {
        var found := ValidateDocumentLayout(t, record.layout.value, NormalizedBody(t, record));
        for k := 0 to |found|
          invariant issues == old(issues) + LayoutRecordIssues(t, record)[..k]
        {
          issues := issues + [InvalidLayout];
        }
      }
    }

    method ValidateSource(record: CorpusRecord, c: NormalizationContext)
      modifies this
      ensures issues == old(issues) + SourceIssues(record, c)
    {
      hide When, SameConfig, DeclaredSource;
      var declared := DeclaredSource(c.corpusSources, c.source.id);
      if declared.None? {
        issues := issues + [SourceNotDeclared];
        ConcatAssoc(old(issues), [SourceNotDeclared], When(record.sourceId != c.source.id, SourceMismatch));
      } else {
        Push(!declared.value.enabled, DisabledSource);
        Push(!SameConfig(declared.value, c.source), SourceMismatch);
        Append3(old(issues), When(!declared.value.enabled, DisabledSource), When(!SameConfig(declared.value, c.source), SourceMismatch),
                When(record.sourceId != c.source.id, SourceMismatch));
      }
      Push(record.sourceId != c.source.id, SourceMismatch);
    }

    method ValidateAccessScope(t: TextRules, record: CorpusRecord, c: NormalizationContext)
      modifies this
      ensures issues == old(issues) + ScopeIssues(t, record, c)
    {
      hide When, IsBlank;
      if record.accessScope.None? {
        issues := issues + [MissingAccessScope];
        return;
      }
      var scope := record.accessScope.value;
      var blank := IsBlank(t, scope.tenantId) || IsBlank(t, scope.namespaceId);
      Push(blank, MissingAccessScope);
      Push(scope.namespaceId != c.namespaceId, NamespaceBoundaryViolation);
      Push(scope.tenantId != c.requestedBy.tenantId, PrincipalBoundaryViolation);
      Append3(old(issues), When(blank, MissingAccessScope), When(scope.namespaceId != c.namespaceId, NamespaceBoundaryViolation),
              When(scope.tenantId != c.requestedBy.tenantId, PrincipalBoundaryViolation));
      ConcatAssoc(old(issues),
                  When(blank, MissingAccessScope) + When(scope.namespaceId != c.namespaceId, NamespaceBoundaryViolation)
                  + When(scope.tenantId != c.requestedBy.tenantId, PrincipalBoundaryViolation),
                  When(c.namespaceId !in c.requestedBy.namespaceIds, PrincipalBoundaryViolation));
      Push(c.namespaceId !in c.requestedBy.namespaceIds, PrincipalBoundaryViolation);
    }

    method ResolveTrustTier(record: CorpusRecord, c: NormalizationContext) returns (decision: TrustDecision)
      modifies this
      ensures decision == DecisionFor(record, c)
      ensures issues == old(issues) + TrustIssues(record, c)
    {
      hide When, TrustDecisionFor;
      decision := DecisionFor(record, c);
      Push(record.trustTier.None?, InvalidTrustTier);
      Push(decision.unsafeUpgrade, UnsafeTrustUpgrade);
      Push(decision.tier !in c.allowedTrustTiers, RecordIssue.DisallowedTrustTier);
      Append3(old(issues), When(record.trustTier.None?, InvalidTrustTier), When(decision.unsafeUpgrade, UnsafeTrustUpgrade),
              When(decision.tier !in c.allowedTrustTiers, RecordIssue.DisallowedTrustTier));
    }
  }

  method NormalizeCorpusRecord(t: TextRules, record: Option<CorpusRecord>, c: NormalizationContext)
    returns (result: NormalizationResult)
    ensures result == NormalizedRecord(t, record, c)
  {
    hide FieldIssues, LayoutRecordIssues, SourceIssues, ScopeIssues, TrustIssues, When, IsBlank, DecisionFor, DocumentOf;
    if record.None? {
      return NormalizationResult(None, [NullRecord]);
    }
    var r := record.value;
    var log := new IssueLog();
    log.ValidateFields(t, r);
    assert log.issues == FieldIssues(t, r);
    log.ValidateLayout(t, r);
    log.ValidateSource(r, c);
    log.ValidateAccessScope(t, r, c);
    log.Push(c.requireCapturedAt && IsBlank(t, r.capturedAt), MissingProvenanceField);
    var decision := log.ResolveTrustTier(r, c);
    var issues := log.issues;
    if |issues| > 0 || r.accessScope.None? {
      return NormalizationResult(None, issues);
    }
    result := NormalizationResult(Some(DocumentOf(t, r, c)), issues);
  }

  // ---- normalizeCorpusRecords ----

  function Documents(t: TextRules, records: seq<Option<CorpusRecord>>, c: NormalizationContext, k: nat): seq<RagDocument>
    requires k <= |records|
  {
    if k == 0 then []
    else
      var document := NormalizedRecord(t, records[k - 1], c).document;
      Documents(t, records, c, k - 1) + if document.Some? then [document.value] else []
  }

  function RejectedIds(t: TextRules, records: seq<Option<CorpusRecord>>, c: NormalizationContext, k: nat): seq<string>
    requires k <= |records|
  {
    if k == 0 then []
    else
      RejectedIds(t, records, c, k - 1)
      + if NormalizedRecord(t, records[k - 1], c).document.Some? then [] else [RecordId(records[k - 1])]
  }

  function RecordId(record: Option<CorpusRecord>): string {
    if record.None? || record.value.id == "" then "unknown" else record.value.id
  }

  function BatchIssues(t: TextRules, records: seq<Option<CorpusRecord>>, c: NormalizationContext, k: nat): RecordIssues
    requires k <= |records|
  {
    if k == 0 then [] else BatchIssues(t, records, c, k - 1) + NormalizedRecord(t, records[k - 1], c).issues
  }

  method NormalizeCorpusRecords(t: TextRules, records: seq<Option<CorpusRecord>>, c: NormalizationContext)
    returns (documents: seq<RagDocument>, rejected: seq<string>, issues: RecordIssues)
    ensures documents == Documents(t, records, c, |records|)
    ensures rejected == RejectedIds(t, records, c, |records|)
    ensures issues == BatchIssues(t, records, c, |records|)
  {
    hide NormalizedRecord;
    documents, rejected, issues := [], [], [];
    for k := 0 to |records|
      invariant documents == Documents(t, records, c, k)
      invariant rejected == RejectedIds(t, records, c, k)
      invariant issues == BatchIssues(t, records, c, k)
    {
      var result := NormalizeCorpusRecord(t, records[k], c);
      issues := issues + result.issues;
      if result.document.Some? {
        documents := documents + [result.document.value];
      } else {
        rejected := rejected + [RecordId(records[k])];
      }
    }
  }
}
