/** How the local-files adapter uses the scheduler and flattens its results. */
module LocalFiles {
  import opened Text
  import opened Scheduler

  const DEFAULT_PARSER_CONCURRENCY := 1
  const MAX_PARSER_CONCURRENCY := 32

  /** parserConcurrencyForSource, with Failure for the error it throws. */
  function ParserConcurrency(configured: Option<int>): Result<int, string> {
    if configured.None? then Success(DEFAULT_PARSER_CONCURRENCY)
    else if configured.value < 1 || configured.value > MAX_PARSER_CONCURRENCY then Failure("parserConcurrency")
    else Success(configured.value)
  }

  datatype FileRecordResult<Rec, Warn> = FileRecordResult(record: Option<Rec>, warnings: seq<Warn>)

  function Records<Rec, Warn>(results: seq<FileRecordResult<Rec, Warn>>): seq<Rec> {
    if results == [] then []
    else (if results[0].record.Some? then [results[0].record.value] else []) + Records(results[1..])
  }

  function Warnings<Rec, Warn>(results: seq<FileRecordResult<Rec, Warn>>): seq<Warn> {
    if results == [] then [] else results[0].warnings + Warnings(results[1..])
  }

  lemma FlattenStep<Rec, Warn>(results: seq<FileRecordResult<Rec, Warn>>, k: nat)
    requires k < |results|
    ensures Records(results[k..])
         == (if results[k].record.Some? then [results[k].record.value] else []) + Records(results[k + 1..])
    ensures Warnings(results[k..]) == results[k].warnings + Warnings(results[k + 1..])
  {
    assert results[k..][1..] == results[k + 1..];
  }

  lemma FlattenEnd<Rec, Warn>(results: seq<FileRecordResult<Rec, Warn>>)
    ensures Records(results[|results|..]) == [] && Warnings(results[|results|..]) == []
    ensures results[0..] == results
  {
  }

  method Flatten<Rec, Warn>(results: seq<FileRecordResult<Rec, Warn>>, warnings0: seq<Warn>)
    returns (records: seq<Rec>, warnings: seq<Warn>)
    ensures records == Records(results) && warnings == warnings0 + Warnings(results)
  {
    hide Records, Warnings;
    FlattenEnd(results);
    records, warnings := [], warnings0;
    for k := 0 to |results|
      invariant records + Records(results[k..]) == Records(results)
      invariant warnings + Warnings(results[k..]) == warnings0 + Warnings(results)
    {
      var result := results[k];
      FlattenStep(results, k);
      ConcatAssoc(warnings, result.warnings, Warnings(results[k + 1..]));
      warnings := warnings + result.warnings;
      if result.record.Some? {
        ConcatAssoc(records, [result.record.value], Records(results[k + 1..]));
        records := records + [result.record.value];
      }
    }
  }

  /** What load returns for the files of a source: the flattened results, or the scheduler's error. */
  function Loaded<Rec, Warn, E>(returned: Result<seq<FileRecordResult<Rec, Warn>>, E>): Result<(seq<Rec>, seq<Warn>), E> {
    match returned
    case Success(results) => Success((Records(results), Warnings(results)))
    case Failure(error) => Failure(error)
  }

  /** Records and warnings come in file order whatever the concurrency and the interleaving: two
      finished runs over the same files agree, even under different settings, and agree with reading
      the files one by one. */
  lemma LoadIsDeterministic<F(!new), Rec(!new), Warn(!new), E(!new)>(
      task: Task<F, FileRecordResult<Rec, Warn>, E>, a: Option<int>, b: Option<int>,
      runA: seq<State<FileRecordResult<Rec, Warn>, E>>, runB: seq<State<FileRecordResult<Rec, Warn>, E>>)
    requires ParserConcurrency(a).Success? && ParserConcurrency(b).Success?
    requires Run(task, ParserConcurrency(a).value, runA) && Final(runA[|runA| - 1])
    requires Run(task, ParserConcurrency(b).value, runB) && Final(runB[|runB| - 1])
    ensures var first, second := Loaded(Returned(task, runA[|runA| - 1])), Loaded(Returned(task, runB[|runB| - 1]));
      var expected := Loaded(SequentialMap(task, |task.items|));
      && (first.Success? <==> second.Success?)
      && (first.Success? ==> first.value == second.value && expected == Success(first.value))
  {
    hide Run, Final, Returned, SequentialMap;
    RunRefinesSequentialMap(task, ParserConcurrency(a).value, runA);
    RunRefinesSequentialMap(task, ParserConcurrency(b).value, runB);
  }
}
