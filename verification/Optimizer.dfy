/** The context optimizer's greedy deduplication. */
module Optimizer {
  import opened Text
  import opened Sorting
  import opened Retrieval

  /** The text analyses: the lexical signature and the flags that regular expressions compute. */
  datatype TextAnalysis = TextAnalysis(
    signature: string -> set<string>,
    tableAware: SourceChunk -> bool,
    contradictory: string -> bool)

  const LEXICAL_THRESHOLD: real := 0.9
  const SECONDARY_THRESHOLD: real := 0.58

  predicate IsPrimary(kind: SourceKind) { kind == LocalFile }

  predicate IsSecondary(kind: SourceKind) { kind in {ApiResponse, SupportTicket, WebPage} }

  // ---- Scores and order ----

  function TrustScore(tier: TrustTier): real {
    match tier
    case TrustedInternal => 0.3
    case VerifiedPartner => 0.2
    case UserProvided => 0.05
    case _ => 0.0
  }

  function OptimizerScore(a: TextAnalysis, preferTrusted: bool, c: Candidate): real {
    c.score
    + (if preferTrusted then TrustScore(c.chunk.trustTier) else 0.0)
    + (if IsPrimary(c.chunk.sourceKind) then 0.2 else 0.0)
    + (if a.tableAware(c.chunk) then 0.15 else 0.0)
    + (if a.contradictory(c.chunk.text) then 0.05 else 0.0)
  }

  datatype Ranked = Ranked(candidate: Candidate, originalIndex: nat, score: real)

  /** compareRankedCandidates(a, b) <= 0 */
  predicate RankedFirst(a: Ranked, b: Ranked) {
    a.score > b.score || (a.score == b.score && a.originalIndex <= b.originalIndex)
  }

  function RankAll(a: TextAnalysis, preferTrusted: bool, cs: seq<Candidate>): seq<Ranked> {
    seq(|cs|, i requires 0 <= i < |cs| => Ranked(cs[i], i, OptimizerScore(a, preferTrusted, cs[i])))
  }

  function Unranked(rs: seq<Ranked>): (cs: seq<Candidate>)
    ensures |cs| == |rs| && forall i :: 0 <= i < |cs| ==> cs[i] == rs[i].candidate
  {
    if rs == [] then [] else [rs[0].candidate] + Unranked(rs[1..])
  }

  function OrderedCandidates(a: TextAnalysis, preferTrusted: bool, cs: seq<Candidate>): seq<Candidate> {
    Unranked(Sort(RankedFirst, RankAll(a, preferTrusted, cs)))
  }

  // ---- Duplicate rules ----

  function Jaccard(a: set<string>, b: set<string>): real {
    if a == {} && b == {} then 1.0
    else if |a + b| == 0 then 0.0
    else |a * b| as real / |a + b| as real
  }

  /** Equal fields give equal keys; the program joins them with a bar and compares the strings. */
  function CitationKey(c: Candidate): string {
    c.citation.sourceId + "|" + c.citation.chunkId + "|" +
    (if c.citation.locator.Some? then c.citation.locator.value else "") + "|" +
    (if c.citation.visualAssetId.Some? then c.citation.visualAssetId.value else "")
  }

  predicate SameCitation(c: Candidate, existing: Candidate) {
    existing.chunk.id != c.chunk.id && CitationKey(existing) == CitationKey(c)
  }

  predicate SameWords(a: TextAnalysis, c: Candidate, existing: Candidate) {
    && existing.chunk.id != c.chunk.id
    && Jaccard(a.signature(c.chunk.text), a.signature(existing.chunk.text)) >= LEXICAL_THRESHOLD
  }

  predicate SecondaryCopy(a: TextAnalysis, c: Candidate, existing: Candidate) {
    && IsSecondary(c.chunk.sourceKind) && IsPrimary(existing.chunk.sourceKind)
    && Jaccard(a.signature(c.chunk.text), a.signature(existing.chunk.text)) >= SECONDARY_THRESHOLD
  }

  predicate CitesSame(c: Candidate, kept: seq<Candidate>) { exists k :: k in kept && SameCitation(c, k) }

  predicate SaysSame(a: TextAnalysis, c: Candidate, kept: seq<Candidate>) { exists k :: k in kept && SameWords(a, c, k) }

  predicate CopiesPrimary(a: TextAnalysis, c: Candidate, kept: seq<Candidate>) { exists k :: k in kept && SecondaryCopy(a, c, k) }

  /** The first rule that a kept candidate triggers, in the order the rules are tried. */
  function DuplicateRule(a: TextAnalysis, c: Candidate, kept: seq<Candidate>): Option<RejectionCode> {
    if CitesSame(c, kept) then Some(CitationDuplicate)
    else if SaysSame(a, c, kept) then Some(LexicalDuplicate)
    else if CopiesPrimary(a, c, kept) then Some(SecondarySourceDuplicate)
    else None
  }

  /** The rule named by a rejection code relates a candidate to one it duplicates. */
  predicate Duplicates(a: TextAnalysis, code: RejectionCode, c: Candidate, existing: Candidate) {
    match code
    case CitationDuplicate => SameCitation(c, existing)
    case LexicalDuplicate => SameWords(a, c, existing)
    case SecondarySourceDuplicate => SecondaryCopy(a, c, existing)
    case _ => false
  }

  // ---- The greedy pass ----

  datatype Refused = Refused(candidate: Candidate, code: RejectionCode)

  datatype Pass = Pass(kept: seq<Candidate>, refused: seq<Refused>)

  function PassStep(a: TextAnalysis, s: Pass, c: Candidate): Pass {
    match DuplicateRule(a, c, s.kept)
    case Some(code) => s.(refused := s.refused + [Refused(c, code)])
    case None => s.(kept := s.kept + [c])
  }

  function Dedupe(a: TextAnalysis, ordered: seq<Candidate>, k: nat): Pass
    requires k <= |ordered|
  {
    if k == 0 then Pass([], []) else PassStep(a, Dedupe(a, ordered, k - 1), ordered[k - 1])
  }

  function RejectionsOf(refused: seq<Refused>): (r: seq<Rejection>)
    ensures |r| == |refused| && forall i :: 0 <= i < |r| ==> r[i] == RejectionOf(refused[i].candidate, refused[i].code)
  {
    if refused == [] then []
    else RejectionsOf(refused[..|refused| - 1]) + [RejectionOf(refused[|refused| - 1].candidate, refused[|refused| - 1].code)]
  }

  function CountCode(refused: seq<Refused>, code: RejectionCode): nat {
    if refused == [] then 0
    else CountCode(refused[..|refused| - 1], code) + if refused[|refused| - 1].code == code then 1 else 0
  }

  /** The loop of optimize over the ordered candidates, with its three counters. */
  method RunDedupe(a: TextAnalysis, ordered: seq<Candidate>)
    returns (kept: seq<Candidate>, rejected: seq<Rejection>, citation: nat, lexical: nat, secondary: nat)
    ensures var pass := Dedupe(a, ordered, |ordered|);
      && kept == pass.kept && rejected == RejectionsOf(pass.refused)
      && citation == CountCode(pass.refused, CitationDuplicate)
      && lexical == CountCode(pass.refused, LexicalDuplicate)
      && secondary == CountCode(pass.refused, SecondarySourceDuplicate)
  {
    hide CitesSame, SaysSame, CopiesPrimary, RejectionsOf, CountCode;
    kept, rejected, citation, lexical, secondary := [], [], 0, 0, 0;
    NothingRefused();
    ghost var refused: seq<Refused> := [];
    for k := 0 to |ordered|
      invariant Dedupe(a, ordered, k) == Pass(kept, refused)
      invariant rejected == RejectionsOf(refused)
      invariant citation == CountCode(refused, CitationDuplicate)
      invariant lexical == CountCode(refused, LexicalDuplicate)
      invariant secondary == CountCode(refused, SecondarySourceDuplicate)
    {
      var c := ordered[k];
      if CitesSame(c, kept) {
        RefuseStep(refused, Refused(c, CitationDuplicate));
        refused := refused + [Refused(c, CitationDuplicate)];
        citation := citation + 1;
        rejected := rejected + [RejectionOf(c, CitationDuplicate)];
      } else if SaysSame(a, c, kept) {
        RefuseStep(refused, Refused(c, LexicalDuplicate));
        refused := refused + [Refused(c, LexicalDuplicate)];
        lexical := lexical + 1;
        rejected := rejected + [RejectionOf(c, LexicalDuplicate)];
      } else if CopiesPrimary(a, c, kept) {
        RefuseStep(refused, Refused(c, SecondarySourceDuplicate));
        refused := refused + [Refused(c, SecondarySourceDuplicate)];
        secondary := secondary + 1;
        rejected := rejected + [RejectionOf(c, SecondarySourceDuplicate)];
      } else {
        kept := kept + [c];
      }
    }
  }

  lemma NothingRefused()
    ensures RejectionsOf([]) == [] && forall code :: CountCode([], code) == 0
  {
  }

  lemma RefuseStep(refused: seq<Refused>, x: Refused)
    ensures RejectionsOf(refused + [x]) == RejectionsOf(refused) + [RejectionOf(x.candidate, x.code)]
    ensures forall code :: CountCode(refused + [x], code) == CountCode(refused, code) + if x.code == code then 1 else 0
  {
    assert (refused + [x])[..|refused|] == refused;
  }

  // ---- What the pass guarantees ----

  function RefusedCandidates(refused: seq<Refused>): (cs: seq<Candidate>)
    ensures |cs| == |refused| && forall i :: 0 <= i < |cs| ==> cs[i] == refused[i].candidate
  {
    seq(|refused|, i requires 0 <= i < |refused| => refused[i].candidate)
  }

  /** Every candidate is kept or refused, exactly once. */
  lemma {:induction false} DedupeConserves(a: TextAnalysis, ordered: seq<Candidate>, k: nat)
    requires k <= |ordered|
    ensures var pass := Dedupe(a, ordered, k);
      multiset(pass.kept) + multiset(RefusedCandidates(pass.refused)) == multiset(ordered[..k])
  {
    hide DuplicateRule, PassStep;
    if k > 0 {
      DedupeConserves(a, ordered, k - 1);
      assert ordered[..k] == ordered[..k - 1] + [ordered[k - 1]];
      PassStepConserves(a, Dedupe(a, ordered, k - 1), ordered[k - 1]);
    }
  }

  lemma PassStepConserves(a: TextAnalysis, s: Pass, c: Candidate)
    ensures var n := PassStep(a, s, c);
      multiset(n.kept) + multiset(RefusedCandidates(n.refused))
        == multiset(s.kept) + multiset(RefusedCandidates(s.refused)) + multiset([c])
  {
    hide DuplicateRule;
    var n := PassStep(a, s, c);
    if DuplicateRule(a, c, s.kept).Some? {
      assert RefusedCandidates(n.refused) == RefusedCandidates(s.refused) + [c];
    }
  }

  /** No kept candidate duplicates one kept before it. */
  ghost predicate NoDuplicates(a: TextAnalysis, kept: seq<Candidate>) {
    forall i :: 0 <= i < |kept| ==> DuplicateRule(a, kept[i], kept[..i]).None?
  }

  lemma {:induction false} DedupeKeepsApart(a: TextAnalysis, ordered: seq<Candidate>, k: nat)
    requires k <= |ordered|
    ensures NoDuplicates(a, Dedupe(a, ordered, k).kept)
  {
    hide DuplicateRule;
    if k > 0 {
      DedupeKeepsApart(a, ordered, k - 1);
      var before, kept := Dedupe(a, ordered, k - 1).kept, Dedupe(a, ordered, k).kept;
      forall i | 0 <= i < |kept| ensures DuplicateRule(a, kept[i], kept[..i]).None? {
        if i < |before| {
          assert kept[..i] == before[..i];
        } else {
          assert kept[..i] == before;
        }
      }
    }
  }

  lemma JaccardSymmetric(x: set<string>, y: set<string>)
    ensures Jaccard(x, y) == Jaccard(y, x)
  {
    assert x + y == y + x && x * y == y * x;
  }

  /** Kept candidates from different chunks never share a citation or nearly all their words,
      whichever of the two came first; a kept secondary source can copy only a kept primary one that
      came later. */
  lemma KeptPairwiseApart(a: TextAnalysis, ordered: seq<Candidate>, i: nat, j: nat)
    requires var kept := Dedupe(a, ordered, |ordered|).kept;
      i < |kept| && j < |kept| && i != j
    ensures var kept := Dedupe(a, ordered, |ordered|).kept;
      && !SameCitation(kept[i], kept[j]) && !SameWords(a, kept[i], kept[j])
      && (SecondaryCopy(a, kept[i], kept[j]) ==> i < j)
  {
    DedupeKeepsApart(a, ordered, |ordered|);
    var kept := Dedupe(a, ordered, |ordered|).kept;
    hide Dedupe, Jaccard, CitationKey;
    var first, last := Min(i, j), Max(i, j);
    assert DuplicateRule(a, kept[last], kept[..last]).None?;
    assert kept[..last][first] == kept[first] && kept[first] in kept[..last];
    assert !SameCitation(kept[last], kept[first]) && !SameWords(a, kept[last], kept[first]);
    JaccardSymmetric(a.signature(kept[i].chunk.text), a.signature(kept[j].chunk.text));
  }

  ghost predicate Witness(a: TextAnalysis, preferTrusted: bool, r: Refused, kept: seq<Candidate>) {
    exists k :: k in kept && Duplicates(a, r.code, r.candidate, k)
             && OptimizerScore(a, preferTrusted, k) >= OptimizerScore(a, preferTrusted, r.candidate)
  }

  ghost predicate ScoresFall(a: TextAnalysis, preferTrusted: bool, cs: seq<Candidate>) {
    forall i, j :: 0 <= i < j < |cs| ==> OptimizerScore(a, preferTrusted, cs[i]) >= OptimizerScore(a, preferTrusted, cs[j])
  }

  lemma {:induction false} DedupeFromPrefix(a: TextAnalysis, ordered: seq<Candidate>, k: nat)
    requires k <= |ordered|
    ensures forall c :: c in Dedupe(a, ordered, k).kept ==> c in ordered[..k]
  {
    hide DuplicateRule;
    if k > 0 {
      DedupeFromPrefix(a, ordered, k - 1);
      assert ordered[..k] == ordered[..k - 1] + [ordered[k - 1]];
    }
  }

  lemma RuleHasCause(a: TextAnalysis, c: Candidate, kept: seq<Candidate>) returns (k: Candidate)
    requires DuplicateRule(a, c, kept).Some?
    ensures k in kept && Duplicates(a, DuplicateRule(a, c, kept).value, c, k)
  {
    match DuplicateRule(a, c, kept).value
    case CitationDuplicate => k :| k in kept && SameCitation(c, k);
    case LexicalDuplicate => k :| k in kept && SameWords(a, c, k);
    case SecondarySourceDuplicate => k :| k in kept && SecondaryCopy(a, c, k);
  }

  lemma WitnessStays(a: TextAnalysis, preferTrusted: bool, r: Refused, kept: seq<Candidate>, more: seq<Candidate>)
    requires Witness(a, preferTrusted, r, kept) && kept <= more
    ensures Witness(a, preferTrusted, r, more)
  {
    hide Duplicates, OptimizerScore;
    var k :| k in kept && Duplicates(a, r.code, r.candidate, k)
          && OptimizerScore(a, preferTrusted, k) >= OptimizerScore(a, preferTrusted, r.candidate);
    assert k in more;
  }

  lemma NewWitness(a: TextAnalysis, preferTrusted: bool, ordered: seq<Candidate>, k: nat)
    requires 0 < k <= |ordered| && ScoresFall(a, preferTrusted, ordered)
    requires DuplicateRule(a, ordered[k - 1], Dedupe(a, ordered, k - 1).kept).Some?
    ensures var c, kept := ordered[k - 1], Dedupe(a, ordered, k - 1).kept;
      Witness(a, preferTrusted, Refused(c, DuplicateRule(a, c, kept).value), kept)
  {
    hide DuplicateRule, Duplicates, OptimizerScore, Dedupe;
    var c, kept := ordered[k - 1], Dedupe(a, ordered, k - 1).kept;
    var e := RuleHasCause(a, c, kept);
    DedupeFromPrefix(a, ordered, k - 1);
    var j :| 0 <= j < k - 1 && ordered[..k - 1][j] == e;
    assert ordered[j] == e;
  }

  ghost predicate Justified(a: TextAnalysis, preferTrusted: bool, pass: Pass) {
    forall i :: 0 <= i < |pass.refused| ==> Witness(a, preferTrusted, pass.refused[i], pass.kept)
  }

  lemma JustifiedStep(a: TextAnalysis, preferTrusted: bool, s: Pass, c: Candidate)
    requires Justified(a, preferTrusted, s)
    requires DuplicateRule(a, c, s.kept).Some? ==>
      Witness(a, preferTrusted, Refused(c, DuplicateRule(a, c, s.kept).value), s.kept)
    ensures Justified(a, preferTrusted, PassStep(a, s, c))
  {
    hide DuplicateRule, Witness;
    var n := PassStep(a, s, c);
    forall i | 0 <= i < |n.refused| ensures Witness(a, preferTrusted, n.refused[i], n.kept) {
      if i < |s.refused| {
        assert n.refused[i] == s.refused[i];
        WitnessStays(a, preferTrusted, s.refused[i], s.kept, n.kept);
      }
    }
  }

  /** Every refused candidate duplicates a kept one that scores at least as high. */
  lemma {:induction false} DedupeJustifies(a: TextAnalysis, preferTrusted: bool, ordered: seq<Candidate>, k: nat)
    requires k <= |ordered| && ScoresFall(a, preferTrusted, ordered)
    ensures Justified(a, preferTrusted, Dedupe(a, ordered, k))
  {
    hide DuplicateRule, Witness, ScoresFall, PassStep;
    if k > 0 {
      DedupeJustifies(a, preferTrusted, ordered, k - 1);
      var before := Dedupe(a, ordered, k - 1);
      if DuplicateRule(a, ordered[k - 1], before.kept).Some? {
        NewWitness(a, preferTrusted, ordered, k);
      }
      JustifiedStep(a, preferTrusted, before, ordered[k - 1]);
    }
  }

  // ---- The order the pass sees ----

  lemma RankedFirstTotal()
    ensures TotalPreorder(RankedFirst)
  {
  }

  lemma {:induction false} UnrankedInsert(x: Ranked, rs: seq<Ranked>)
    ensures multiset(Unranked(Insert(RankedFirst, x, rs))) == multiset([x.candidate]) + multiset(Unranked(rs))
  {
    hide RankedFirst;
    if rs != [] {
      UnrankedCons(rs[0], rs[1..]);
      assert rs == [rs[0]] + rs[1..];
      if RankedFirst(x, rs[0]) {
        UnrankedCons(x, rs);
      } else {
        UnrankedInsert(x, rs[1..]);
        UnrankedCons(rs[0], Insert(RankedFirst, x, rs[1..]));
      }
    }
  }

  lemma UnrankedCons(x: Ranked, rs: seq<Ranked>)
    ensures Unranked([x] + rs) == [x.candidate] + Unranked(rs)
  {
  }

  lemma {:induction false} UnrankedSort(rs: seq<Ranked>)
    ensures multiset(Unranked(Sort(RankedFirst, rs))) == multiset(Unranked(rs))
  {
    hide RankedFirst, Insert;
    if rs != [] {
      assert rs == [rs[0]] + rs[1..];
      UnrankedSort(rs[1..]);
      UnrankedInsert(rs[0], Sort(RankedFirst, rs[1..]));
      UnrankedCons(rs[0], rs[1..]);
    }
  }

  lemma SortedScoresFall(a: TextAnalysis, preferTrusted: bool, rs: seq<Ranked>)
    requires SortedBy(RankedFirst, rs)
    requires forall r :: r in rs ==> r.score == OptimizerScore(a, preferTrusted, r.candidate)
    ensures ScoresFall(a, preferTrusted, Unranked(rs))
  {
    hide OptimizerScore, Unranked;
    forall i, j | 0 <= i < j < |rs|
      ensures OptimizerScore(a, preferTrusted, rs[i].candidate) >= OptimizerScore(a, preferTrusted, rs[j].candidate)
    {
      assert RankedFirst(rs[i], rs[j]) && rs[i] in rs && rs[j] in rs;
    }
  }

  /** The pass sees every candidate once, best score first. */
  lemma OrderedCandidatesCorrect(a: TextAnalysis, preferTrusted: bool, cs: seq<Candidate>)
    ensures multiset(OrderedCandidates(a, preferTrusted, cs)) == multiset(cs)
    ensures ScoresFall(a, preferTrusted, OrderedCandidates(a, preferTrusted, cs))
  {
    var ranked := RankAll(a, preferTrusted, cs);
    var sorted := Sort(RankedFirst, ranked);
    hide OptimizerScore, Sort, Unranked, RankedFirst, ScoresFall;
    RankedFirstTotal();
    SortSorts(RankedFirst, ranked);
    UnrankedSort(ranked);
    assert Unranked(ranked) == cs;
    SameElements(sorted, ranked);
    hide SortedBy;
    SortedScoresFall(a, preferTrusted, sorted);
  }
}
