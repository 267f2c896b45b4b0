/** Checking a provider's parsed embeddings against the request. */
module EmbeddingResponse {
  import opened Text

  /** The text that is hashed for an input: its own text, or the basis of a visual input. */
  datatype Input = Input(id: string, text: string)

  /** A value that is not a finite number is None. */
  type Vector = seq<Option<real>>

  /** Text embeddings carry one vector, visual ones any number. */
  datatype Given = Given(id: string, vectors: seq<Vector>)

  datatype Embedding = Embedding(id: string, vectors: seq<Vector>, textHash: string)

  datatype ResponseError = BlankId | DuplicateId(id: string) | UnknownId(id: string) | NotFinite | WrongDimensions | NoVectors

  predicate IsFiniteVector(v: Vector) { forall i :: 0 <= i < |v| ==> v[i].Some? }

  function VectorError(v: Vector, dimensions: nat): Option<ResponseError> {
    if !IsFiniteVector(v) then Some(NotFinite)
    else if |v| != dimensions then Some(WrongDimensions)
    else None
  }

  /** The first error among the first k vectors. */
  function VectorsError(vs: seq<Vector>, dimensions: nat, k: nat): Option<ResponseError>
    requires k <= |vs|
  {
    if k == 0 then None
    else
      var before := VectorsError(vs, dimensions, k - 1);
      if before.Some? then before else VectorError(vs[k - 1], dimensions)
  }

  /** Inputs by id; a later input of the same id replaces an earlier one. */
  function InputsById(inputs: seq<Input>, k: nat): map<string, Input>
    requires k <= |inputs|
  {
    if k == 0 then map[] else InputsById(inputs, k - 1)[inputs[k - 1].id := inputs[k - 1]]
  }

  predicate SeenBefore(given: seq<Given>, k: nat)
    requires k < |given|
  {
    exists i :: 0 <= i < k && given[i].id == given[k].id
  }

  function EntryError(t: TextRules, given: seq<Given>, k: nat, inputs: map<string, Input>, dimensions: nat): Option<ResponseError>
    requires k < |given|
  {
    var e := given[k];
    if IsBlank(t, e.id) then Some(BlankId)
    else if SeenBefore(given, k) then Some(DuplicateId(e.id))
    else if e.id !in inputs then Some(UnknownId(e.id))
    else VectorsError(e.vectors, dimensions, |e.vectors|)
  }

  function Normalized(t: TextRules, given: seq<Given>, k: nat, inputs: map<string, Input>, dimensions: nat)
    : (r: Result<seq<Embedding>, ResponseError>)
    requires k <= |given|
  {
    if k == 0 then Success([])
    else match Normalized(t, given, k - 1, inputs, dimensions)
         case Failure(error) => Failure(error)
         case Success(before) =>
           var error := EntryError(t, given, k - 1, inputs, dimensions);
           if error.Some? then Failure(error.value)
           else
             var e := given[k - 1];
             Success(before + [Embedding(e.id, e.vectors, t.hash(if e.id in inputs then inputs[e.id].text else ""))])
  }

  method ValidateVectors(vs: seq<Vector>, dimensions: nat) returns (error: Option<ResponseError>)
    ensures error == VectorsError(vs, dimensions, |vs|)
  {
    hide IsFiniteVector;
    error := None;
    for k := 0 to |vs|
      invariant error == VectorsError(vs, dimensions, k)
    {
      if error.None? {
        error := VectorError(vs[k], dimensions);
      }
    }
  }

  /** `missing` is the number of inputs without an embedding, which the result's warning reports. */
  method NormalizeParsedResponse(t: TextRules, given: seq<Given>, inputs: seq<Input>, dimensions: nat)
    returns (result: Result<seq<Embedding>, ResponseError>, missing: nat)
    ensures result == Normalized(t, given, |given|, InputsById(inputs, |inputs|), dimensions)
    ensures result.Success? ==> missing == MissingCount(given, inputs, |inputs|)
  {
    hide IsBlank, VectorsError, InputsById, MissingCount;
    var byId := CollectInputs(inputs);
    missing := 0;
    var seenIds: set<string> := {};
    var embeddings: seq<Embedding> := [];
    for k := 0 to |given|
      invariant seenIds == set i | 0 <= i < k :: given[i].id
      invariant Normalized(t, given, k, byId, dimensions) == Success(embeddings)
    {
      FailureStays(t, given, k + 1, |given|, byId, dimensions);
      var e := given[k];
      if IsBlank(t, e.id) {
        return Failure(BlankId), 0;
      }
      assert e.id in seenIds <==> SeenBefore(given, k);
      if e.id in seenIds {
        return Failure(DuplicateId(e.id)), 0;
      }
      seenIds := seenIds + {e.id};
      if e.id !in byId {
        return Failure(UnknownId(e.id)), 0;
      }
      var error := ValidateVectors(e.vectors, dimensions);
      if error.Some? {
        return Failure(error.value), 0;
      }
      embeddings := embeddings + [Embedding(e.id, e.vectors, t.hash(byId[e.id].text))];
    }
    missing := CountMissing(given, inputs, seenIds);
    result := Success(embeddings);
  }

  method CollectInputs(inputs: seq<Input>) returns (byId: map<string, Input>)
    ensures byId == InputsById(inputs, |inputs|)
  {
    byId := map[];
    for i := 0 to |inputs|
      invariant byId == InputsById(inputs, i)
    {
      byId := byId[inputs[i].id := inputs[i]];
    }
  }

  method CountMissing(ghost given: seq<Given>, inputs: seq<Input>, seenIds: set<string>) returns (missing: nat)
    requires seenIds == set i | 0 <= i < |given| :: given[i].id
    ensures missing == MissingCount(given, inputs, |inputs|)
  {
    missing := 0;
    for i := 0 to |inputs|
      invariant missing == MissingCount(given, inputs, i)
    {
      if inputs[i].id !in seenIds {
        missing := missing + 1;
      }
    }
  }

  lemma {:induction false} FailureStays(t: TextRules, given: seq<Given>, k: nat, n: nat, inputs: map<string, Input>, dimensions: nat)
    requires k <= n <= |given|
    ensures var early := Normalized(t, given, k, inputs, dimensions);
      early.Failure? ==> Normalized(t, given, n, inputs, dimensions) == early
    decreases n - k
  {
    hide EntryError;
    if k < n {
      FailureStays(t, given, k, n - 1, inputs, dimensions);
    }
  }

  function MissingCount(given: seq<Given>, inputs: seq<Input>, k: nat): nat
    requires k <= |inputs|
  {
    if k == 0 then 0
    else MissingCount(given, inputs, k - 1) + if exists e :: e in given && e.id == inputs[k - 1].id then 0 else 1
  }

  /** A query response must hold at least one vector, and every vector must fit. */
  method NormalizeParsedQueryResponse(vectors: seq<Vector>, dimensions: nat) returns (error: Option<ResponseError>)
    ensures error.None? <==> vectors != [] && forall v :: v in vectors ==> IsFiniteVector(v) && |v| == dimensions
  {
    if vectors == [] {
      return Some(NoVectors);
    }
    VectorsErrorMeaning(vectors, dimensions, |vectors|);
    error := ValidateVectors(vectors, dimensions);
  }

  // ---- What acceptance means ----

  lemma {:induction false} VectorsErrorMeaning(vs: seq<Vector>, dimensions: nat, k: nat)
    requires k <= |vs|
    ensures VectorsError(vs, dimensions, k).None? <==>
      forall i :: 0 <= i < k ==> IsFiniteVector(vs[i]) && |vs[i]| == dimensions
  {
    hide IsFiniteVector;
    if k > 0 { VectorsErrorMeaning(vs, dimensions, k - 1); }
  }

  lemma {:induction false} InputsByIdKeys(inputs: seq<Input>, k: nat)
    requires k <= |inputs|
    ensures forall id :: id in InputsById(inputs, k) <==> exists i :: 0 <= i < k && inputs[i].id == id
  {
    if k > 0 { InputsByIdKeys(inputs, k - 1); }
  }

  /** The hash of an embedding is that of the last input with its id. */
  lemma {:induction false} LastInputWins(inputs: seq<Input>, k: nat, i: nat)
    requires i < k <= |inputs| && forall j :: i < j < k ==> inputs[j].id != inputs[i].id
    ensures inputs[i].id in InputsById(inputs, k) && InputsById(inputs, k)[inputs[i].id] == inputs[i]
  {
    if i < k - 1 { LastInputWins(inputs, k - 1, i); }
  }

  ghost predicate EntryFits(t: TextRules, e: Given, inputs: map<string, Input>, dimensions: nat) {
    !IsBlank(t, e.id) && e.id in inputs && forall v :: v in e.vectors ==> IsFiniteVector(v) && |v| == dimensions
  }

  ghost predicate AllFit(t: TextRules, given: seq<Given>, k: nat, inputs: map<string, Input>, dimensions: nat)
    requires k <= |given|
  {
    && (forall i :: 0 <= i < k ==> EntryFits(t, given[i], inputs, dimensions))
    && (forall i, j :: 0 <= i < j < k ==> given[i].id != given[j].id)
  }

  lemma EntryErrorMeaning(t: TextRules, given: seq<Given>, k: nat, inputs: map<string, Input>, dimensions: nat)
    requires k < |given|
    ensures EntryError(t, given, k, inputs, dimensions).None? <==>
      EntryFits(t, given[k], inputs, dimensions) && forall i :: 0 <= i < k ==> given[i].id != given[k].id
  {
    hide IsFiniteVector, IsBlank;
    var vs := given[k].vectors;
    VectorsErrorMeaning(vs, dimensions, |vs|);
    hide VectorsError;
    assert (forall v :: v in vs ==> IsFiniteVector(v) && |v| == dimensions)
      <==> forall i :: 0 <= i < |vs| ==> IsFiniteVector(vs[i]) && |vs[i]| == dimensions;
  }

  /** A response is accepted exactly when its ids are known, not blank and all different and its
      vectors are finite and of the configured length; the embeddings then follow the response. */
  lemma {:induction false} NormalizedMeaning(t: TextRules, given: seq<Given>, k: nat, inputs: map<string, Input>, dimensions: nat)
    requires k <= |given|
    ensures var r := Normalized(t, given, k, inputs, dimensions);
      && (r.Success? <==> AllFit(t, given, k, inputs, dimensions))
      && (r.Success? ==> |r.value| == k && forall i :: 0 <= i < k ==>
            given[i].id in inputs && r.value[i] == Embedding(given[i].id, given[i].vectors, t.hash(inputs[given[i].id].text)))
  {
    hide EntryError, EntryFits;
    if k > 0 {
      NormalizedMeaning(t, given, k - 1, inputs, dimensions);
      EntryErrorMeaning(t, given, k - 1, inputs, dimensions);
      FitsKnown(t, given[k - 1], inputs, dimensions);
    }
  }

  lemma FitsKnown(t: TextRules, e: Given, inputs: map<string, Input>, dimensions: nat)
    ensures EntryFits(t, e, inputs, dimensions) ==> e.id in inputs
  {
  }

  // ---- Missing embeddings ----

  function GivenIds(given: seq<Given>): set<string> { set e | e in given :: e.id }

  function CoveredIds(given: seq<Given>, inputs: seq<Input>, k: nat): set<string>
    requires k <= |inputs|
  {
    set i | 0 <= i < k && inputs[i].id in GivenIds(given) :: inputs[i].id
  }

  lemma {:induction false} MissingAndCovered(given: seq<Given>, inputs: seq<Input>, k: nat)
    requires k <= |inputs| && forall i, j :: 0 <= i < j < |inputs| ==> inputs[i].id != inputs[j].id
    ensures MissingCount(given, inputs, k) + |CoveredIds(given, inputs, k)| == k
  {
    if k == 0 {
      assert CoveredIds(given, inputs, 0) == {};
    } else {
      MissingAndCovered(given, inputs, k - 1);
      assert inputs[k - 1].id in GivenIds(given) <==> exists e :: e in given && e.id == inputs[k - 1].id;
      CoveredStep(given, inputs, k);
      hide GivenIds, CoveredIds;
    }
  }

  lemma CoveredStep(given: seq<Given>, inputs: seq<Input>, k: nat)
    requires 0 < k <= |inputs| && forall i, j :: 0 <= i < j < |inputs| ==> inputs[i].id != inputs[j].id
    ensures var id, before := inputs[k - 1].id, CoveredIds(given, inputs, k - 1);
      id !in before && CoveredIds(given, inputs, k) == if id in GivenIds(given) then before + {id} else before
  {
    hide GivenIds;
  }

  lemma {:induction false} DistinctIds(given: seq<Given>)
    requires forall i, j :: 0 <= i < j < |given| ==> given[i].id != given[j].id
    ensures |GivenIds(given)| == |given|
  {
    if given == [] {
      assert GivenIds(given) == {};
    } else {
      var before, last := given[..|given| - 1], given[|given| - 1];
      DistinctIds(before);
      assert given == before + [last];
      assert GivenIds(given) == GivenIds(before) + {last.id};
      assert last.id !in GivenIds(before);
    }
  }

  /** When the inputs have different ids, an accepted response leaves out exactly as many of them as
      the warning counts: with no warning every input has its embedding. */
  lemma MissingIsDifference(t: TextRules, given: seq<Given>, inputs: seq<Input>, dimensions: nat)
    requires forall i, j :: 0 <= i < j < |inputs| ==> inputs[i].id != inputs[j].id
    requires Normalized(t, given, |given|, InputsById(inputs, |inputs|), dimensions).Success?
    ensures MissingCount(given, inputs, |inputs|) + |given| == |inputs|
    ensures MissingCount(given, inputs, |inputs|) == 0 ==>
      forall i :: 0 <= i < |inputs| ==> inputs[i].id in GivenIds(given)
  {
    var table := InputsById(inputs, |inputs|);
    NormalizedMeaning(t, given, |given|, table, dimensions);
    InputsByIdKeys(inputs, |inputs|);
    DistinctIds(given);
    MissingAndCovered(given, inputs, |inputs|);
    hide Normalized, InputsById, MissingCount, IsBlank, IsFiniteVector;
    forall id | id in GivenIds(given) ensures id in CoveredIds(given, inputs, |inputs|) {
      var i :| 0 <= i < |given| && given[i].id == id;
      assert EntryFits(t, given[i], table, dimensions);
    }
    assert CoveredIds(given, inputs, |inputs|) == GivenIds(given);
    if MissingCount(given, inputs, |inputs|) == 0 {
      NoneMissing(given, inputs);
    }
  }

  lemma NoneMissing(given: seq<Given>, inputs: seq<Input>)
    requires MissingCount(given, inputs, |inputs|) == 0
    ensures forall i :: 0 <= i < |inputs| ==> inputs[i].id in GivenIds(given)
  {
    forall i | 0 <= i < |inputs| ensures inputs[i].id in GivenIds(given) { CoveredAt(given, inputs, |inputs|, i); }
  }

  lemma {:induction false} CoveredAt(given: seq<Given>, inputs: seq<Input>, k: nat, i: nat)
    requires i < k <= |inputs| && MissingCount(given, inputs, k) == 0
    ensures inputs[i].id in GivenIds(given)
  {
    if i < k - 1 { CoveredAt(given, inputs, k - 1, i); }
  }
}
