/** Which error a run with several workers can end with: a worker that meets a failing item holds it
    until it is stored, so an item's error can come first exactly when the failing items before it do
    not already occupy all workers. */
module SchedulerErrors {
  import opened Text
  import opened Scheduler

  /** The failing items among the first k. */
  function Failing<T, R, E>(task: Task<T, R, E>, k: nat): (items: set<nat>)
    requires k <= |task.items|
    ensures forall i: nat :: i in items <==> i < k && task.Outcome(i).Failure?
  {
    if k == 0 then {}
    else Failing(task, k - 1) + if task.Outcome(k - 1).Failure? then {k - 1} else {}
  }

  /** Item i fails with this error, and fewer items before it fail than there are workers. */
  ghost predicate CanSettle<T, R, E>(task: Task<T, R, E>, workers: nat, i: nat, error: E) {
    i < |task.items| && task.Outcome(i) == Failure(error) && |Failing(task, i)| < workers
  }

  ghost predicate SomeSettles<T, R, E>(task: Task<T, R, E>, workers: nat, error: E) {
    exists i :: CanSettle(task, workers, i, error)
  }

  lemma FailingPrefix<T, R, E>(task: Task<T, R, E>, i: nat, j: nat)
    requires i <= j <= |task.items|
    ensures Failing(task, i) <= Failing(task, j)
  {
  }

  // ---- Only these errors are returned ----

  /** As long as nothing has settled, a failing item that was claimed is still running. */
  lemma FailingStillRuns<T, R, E>(task: Task<T, R, E>, concurrency: int, s: State<R, E>, j: nat)
    requires Inv(task, concurrency, s) && s.settled.None?
    requires j < |s.claims| <= |task.items| && task.Outcome(j).Failure?
    ensures j in InFlight(s)
  {
    assert j !in s.results;
    assert HeldBy(s, j);
  }

  lemma FirstStored<T, R, E>(task: Task<T, R, E>, concurrency: int, s: State<R, E>, w: nat)
    requires Inv(task, concurrency, s) && s.settled.None? && w < |s.workers| && s.workers[w].Running?
    requires s.workers[w].index < |task.items| && task.Outcome(s.workers[w].index).Failure?
    ensures |Failing(task, s.workers[w].index)| < |s.workers|
  {
    var i := s.workers[w].index;
    forall j | j in Failing(task, i) ensures j in InFlight(s) {
      FailingStillRuns(task, concurrency, s, j);
    }
    InFlightBound(s.workers);
    assert Failing(task, i) + {i} <= InFlight(s);
    SmallerSubset(Failing(task, i) + {i}, InFlight(s));
  }

  lemma SmallerSubset(a: set<nat>, b: set<nat>)
    requires a <= b
    ensures |a| <= |b|
  {
    assert b == a + (b - a);
  }

  lemma {:induction false} SettledCanSettle<T(!new), R(!new), E(!new)>(task: Task<T, R, E>, concurrency: int, run: seq<State<R, E>>, k: nat)
    requires Run(task, concurrency, run) && k < |run| && run[k].settled.Some?
    ensures SomeSettles(task, WorkerCount(|task.items|, concurrency), run[k].settled.value)
    decreases k
  {
    hide Inv, Failing, CanSettle;
    if k > 0 {
      var s := run[k - 1];
      assert Next(task, s, run[k - 1 + 1]);
      if s.settled.Some? {
        SettledCanSettle(task, concurrency, run, k - 1);
      } else {
        RunKeepsInv(task, concurrency, run, k - 1);
        var w: nat :| CanMove(s, w) && MoveOf(task, s, w, run[k]);
        MoveSettles(task, concurrency, s, w, run[k]);
      }
    }
  }

  lemma MoveSettles<T(!new), R(!new), E(!new)>(task: Task<T, R, E>, concurrency: int, s: State<R, E>, w: nat, next: State<R, E>)
    requires Inv(task, concurrency, s) && s.settled.None? && CanMove(s, w) && MoveOf(task, s, w, next) && next.settled.Some?
    ensures SomeSettles(task, WorkerCount(|task.items|, concurrency), next.settled.value)
  {
    assert |s.workers| == WorkerCount(|task.items|, concurrency);
    hide Inv, Failing;
    FirstStored(task, concurrency, s, w);
    assert CanSettle(task, |s.workers|, s.workers[w].index, next.settled.value);
  }

  // ---- All of them are ----

  lemma RunExtends<T(!new), R(!new), E(!new)>(task: Task<T, R, E>, concurrency: int, run: seq<State<R, E>>, w: nat, next: State<R, E>)
    requires Run(task, concurrency, run) && CanMove(run[|run| - 1], w) && MoveOf(task, run[|run| - 1], w, next)
    ensures Run(task, concurrency, run + [next])
  {
    assert Next(task, run[|run| - 1], next);
    hide Next, Start;
  }

  /** Every run can be finished, and what has settled stays. */
  lemma {:induction false} RunFinishes<T(!new), R(!new), E(!new)>(task: Task<T, R, E>, concurrency: int, run: seq<State<R, E>>)
    returns (whole: seq<State<R, E>>)
    requires Run(task, concurrency, run)
    ensures Run(task, concurrency, whole) && Final(whole[|whole| - 1])
    ensures run[|run| - 1].settled.Some? ==> whole[|whole| - 1].settled == run[|run| - 1].settled
    decreases Measure(task, run[|run| - 1])
  {
    hide Start, Measure, Final;
    var s := run[|run| - 1];
    if Final(s) {
      whole := run;
    } else {
      var next := RunProgresses(task, concurrency, run);
      assert (run + [next])[|run| - 1] == s && (run + [next])[|run|] == next;
      assert Next(task, s, next);
      NextDecreases(task, s, next);
      SettledStays(task, s, next);
      hide Run, Next;
      whole := RunFinishes(task, concurrency, run + [next]);
    }
  }

  lemma SettledStays<T(!new), R(!new), E(!new)>(task: Task<T, R, E>, s: State<R, E>, next: State<R, E>)
    requires Next(task, s, next)
    ensures s.settled.Some? ==> next.settled == s.settled
  {
  }

  /** The first k items are claimed, those that succeed are stored, and the others are held by the
      first workers. */
  ghost predicate Reached<R, E>(s: State<R, E>, k: nat, held: nat) {
    && s.nextIndex == k && s.settled.None? && held <= |s.workers|
    && (forall w: nat :: w < held ==> s.workers[w].Running?)
    && (forall w: nat :: held <= w < |s.workers| ==> s.workers[w].Idle?)
  }

  lemma FailingStep<T, R, E>(task: Task<T, R, E>, k: nat)
    requires k < |task.items|
    ensures |Failing(task, k + 1)| == |Failing(task, k)| + if task.Outcome(k).Failure? then 1 else 0
  {
  }

  /** The next item is taken by the first worker that is free. */
  lemma ReachedClaim<T, R, E>(task: Task<T, R, E>, s: State<R, E>, k: nat, held: nat)
    requires Reached(s, k, held) && k < |task.items| && held < |s.workers|
    ensures s.workers[held].Idle?
    ensures Claim(task, s, held).workers[held] == Running(k) && |Claim(task, s, held).workers| == |s.workers|
    ensures Reached(Claim(task, s, held), k + 1, held + 1)
  {
  }

  lemma ReachedStore<T, R, E>(task: Task<T, R, E>, s: State<R, E>, k: nat, held: nat)
    requires Reached(s, k + 1, held + 1) && s.workers[held] == Running(k)
    requires k < |task.items| && task.Outcome(k).Success?
    ensures Reached(Store(task, s, held), k + 1, held) && |Store(task, s, held).workers| == |s.workers|
  {
  }

  lemma {:induction false} Reach<T(!new), R(!new), E(!new)>(task: Task<T, R, E>, concurrency: int, k: nat) returns (run: seq<State<R, E>>)
    requires k <= |task.items| && |Failing(task, k)| < WorkerCount(|task.items|, concurrency)
    ensures Run(task, concurrency, run) && run != [] && |run[|run| - 1].workers| == WorkerCount(|task.items|, concurrency)
    ensures Reached(run[|run| - 1], k, |Failing(task, k)|)
    decreases k
  {
    if k == 0 {
      run := [Start(task, concurrency)];
      hide WorkerCount;
    } else {
      hide Run, Failing, WorkerCount, Claim, Store, Reached;
      FailingStep(task, k - 1);
      run := Reach(task, concurrency, k - 1);
      var held := |Failing(task, k - 1)|;
      ReachedClaim(task, run[|run| - 1], k - 1, held);
      run := TakeTurn(task, concurrency, run, held);
      if task.Outcome(k - 1).Success? {
        ReachedStore(task, run[|run| - 1], k - 1, held);
        run := TakeTurn(task, concurrency, run, held);
      }
    }
  }

  /** The run goes on with worker w claiming an item, or storing the one it has. */
  lemma TakeTurn<T(!new), R(!new), E(!new)>(task: Task<T, R, E>, concurrency: int, run: seq<State<R, E>>, w: nat)
    returns (longer: seq<State<R, E>>)
    requires Run(task, concurrency, run) && run != [] && CanMove(run[|run| - 1], w)
    requires run[|run| - 1].workers[w].Running? ==> run[|run| - 1].workers[w].index < |task.items|
    ensures Run(task, concurrency, longer) && longer != []
    ensures var s := run[|run| - 1];
      longer[|longer| - 1] == if s.workers[w].Idle? then Claim(task, s, w) else Store(task, s, w)
  {
    var s := run[|run| - 1];
    var next := if s.workers[w].Idle? then Claim(task, s, w) else Store(task, s, w);
    RunExtends(task, concurrency, run, w, next);
    longer := run + [next];
  }

  /** The error of such an item is what some finished run settles with. */
  lemma SettlesFirst<T(!new), R(!new), E(!new)>(task: Task<T, R, E>, concurrency: int, i: nat, error: E)
    returns (run: seq<State<R, E>>)
    requires CanSettle(task, WorkerCount(|task.items|, concurrency), i, error)
    ensures Run(task, concurrency, run) && Final(run[|run| - 1])
    ensures run[|run| - 1].settled == Some(error)
  {
    hide Run, Failing, Final, WorkerCount;
    run := Reach(task, concurrency, i);
    var w := |Failing(task, i)|;
    ReachedClaim(task, run[|run| - 1], i, w);
    run := TakeTurn(task, concurrency, run, w);
    run := TakeTurn(task, concurrency, run, w);
    run := RunFinishes(task, concurrency, run);
  }

  // ---- The errors that can be returned ----

  ghost predicate Returns<T(!new), R(!new), E(!new)>(task: Task<T, R, E>, concurrency: int, run: seq<State<R, E>>, error: E) {
    && Run(task, concurrency, run) && Final(run[|run| - 1])
    && Returned(task, run[|run| - 1]) == Failure(Rejected(error))
  }

  /** Some interleaving makes the map fail with an error exactly when it is the error of an item that
      has fewer failing items before it than there are workers. */
  lemma ErrorsReturnedIff<T(!new), R(!new), E(!new)>(task: Task<T, R, E>, concurrency: int, error: E)
    ensures (exists run :: Returns(task, concurrency, run, error))
       <==> SomeSettles(task, WorkerCount(|task.items|, concurrency), error)
  {
    hide Run, Final, Failing;
    if run :| Returns(task, concurrency, run, error) {
      assert run != [] by { RunNotEmpty(task, concurrency, run); }
      SettledCanSettle(task, concurrency, run, |run| - 1);
    }
    if i :| CanSettle(task, WorkerCount(|task.items|, concurrency), i, error) {
      var run := SettlesFirst(task, concurrency, i, error);
      assert Returns(task, concurrency, run, error);
    }
  }

  lemma RunNotEmpty<T(!new), R(!new), E(!new)>(task: Task<T, R, E>, concurrency: int, run: seq<State<R, E>>)
    requires Run(task, concurrency, run)
    ensures run != []
  {
  }

  /** When at most one item fails, every finished run returns what the sequential map returns, its
      error included, however many workers there are. */
  lemma OneFailureIsSequential<T(!new), R(!new), E(!new)>(task: Task<T, R, E>, concurrency: int, run: seq<State<R, E>>)
    requires Run(task, concurrency, run) && Final(run[|run| - 1]) && concurrency >= 1
    requires |Failing(task, |task.items|)| <= 1
    ensures var returned, expected := Returned(task, run[|run| - 1]), SequentialMap(task, |task.items|);
      match expected
      case Success(values) => returned == Success(values)
      case Failure(error) => returned == Failure(Rejected(error))
  {
    RunRefinesSequentialMap(task, concurrency, run);
    SequentialMapMeaning(task, |task.items|);
    hide Run, Final, SequentialMap, Returned;
    var returned, expected := Returned(task, run[|run| - 1]), SequentialMap(task, |task.items|);
    if expected.Failure? {
      var i: nat :| i < |task.items| && task.Outcome(i) == Failure(expected.error);
      var j: nat :| j < |task.items| && task.Outcome(j) == Failure(returned.error.error);
      SmallerSubset({i, j}, Failing(task, |task.items|));
    }
  }

  /** With two workers or more, the first two failing items race: one interleaving returns the error
      of the first, another that of the second. */
  lemma FirstTwoRace<T(!new), R(!new), E(!new)>(task: Task<T, R, E>, concurrency: int, i: nat, j: nat)
    returns (first: seq<State<R, E>>, second: seq<State<R, E>>)
    requires concurrency >= 2 && i < j < |task.items| && Failing(task, j) == {i} && task.Outcome(j).Failure?
    ensures task.Outcome(i).Failure?
    ensures Returns(task, concurrency, first, task.Outcome(i).error)
    ensures Returns(task, concurrency, second, task.Outcome(j).error)
  {
    hide Run, Final;
    assert i in Failing(task, j);
    FailingPrefix(task, i, j);
    assert i !in Failing(task, i);
    first := SettlesFirst(task, concurrency, i, task.Outcome(i).error);
    second := SettlesFirst(task, concurrency, j, task.Outcome(j).error);
  }
}
