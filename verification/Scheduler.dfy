/** The bounded-concurrency file scheduler, as a machine whose steps interleave in any order.

    A worker's turn between two awaits is one atomic move: it either claims the next index or stores
    the outcome of the item it was running. The job is an arbitrary function of item and index that
    may fail, as an awaited promise may reject. */
module Scheduler {
  import opened Text

  datatype Worker = Idle | Running(index: nat) | Done | Failed(index: nat)

  /** `settled` is the rejection that the combined promise settles with: the first one to happen.
      `claims` records the indices handed out, in order. */
  datatype State<R, E> = State(
    nextIndex: nat, workers: seq<Worker>, results: map<nat, R>, settled: Option<E>, claims: seq<nat>)

  datatype Task<!T, R, E> = Task(items: seq<T>, job: (T, nat) -> Result<R, E>) {
    function Outcome(i: nat): Result<R, E>
      requires i < |items|
    {
      job(items[i], i)
    }
  }

  function WorkerCount(n: nat, concurrency: int): nat { Max(0, Min(concurrency, n)) }

  function Start<T, R, E>(task: Task<T, R, E>, concurrency: int): State<R, E> {
    State(0, seq(WorkerCount(|task.items|, concurrency), _ => Idle), map[], None, [])
  }

  predicate CanMove<R, E>(s: State<R, E>, w: nat) {
    w < |s.workers| && (s.workers[w].Idle? || s.workers[w].Running?)
  }

  /** The index counter goes up even when there is nothing left to claim. */
  function Claim<T, R, E>(task: Task<T, R, E>, s: State<R, E>, w: nat): State<R, E>
    requires w < |s.workers|
  {
    if s.nextIndex >= |task.items| then
      s.(nextIndex := s.nextIndex + 1, workers := s.workers[w := Done])
    else
      s.(nextIndex := s.nextIndex + 1, workers := s.workers[w := Running(s.nextIndex)], claims := s.claims + [s.nextIndex])
  }

  function Store<T, R, E>(task: Task<T, R, E>, s: State<R, E>, w: nat): State<R, E>
    requires w < |s.workers| && s.workers[w].Running? && s.workers[w].index < |task.items|
  {
    var i := s.workers[w].index;
    match task.Outcome(i)
    case Success(value) => s.(workers := s.workers[w := Idle], results := s.results[i := value])
    case Failure(error) =>
      s.(workers := s.workers[w := Failed(i)], settled := if s.settled.Some? then s.settled else Some(error))
  }

  ghost predicate Next<T(!new), R(!new), E(!new)>(task: Task<T, R, E>, s: State<R, E>, s': State<R, E>) {
    exists w: nat :: CanMove(s, w) && MoveOf(task, s, w, s')
  }

  ghost predicate MoveOf<T, R, E>(task: Task<T, R, E>, s: State<R, E>, w: nat, s': State<R, E>)
    requires CanMove(s, w)
  {
    if s.workers[w].Idle? then s' == Claim(task, s, w)
    else s.workers[w].index < |task.items| && s' == Store(task, s, w)
  }

  predicate Final<R, E>(s: State<R, E>) {
    forall w: nat :: w < |s.workers| ==> s.workers[w].Done? || s.workers[w].Failed?
  }

  /** A run: the states after each move, in any interleaving. */
  ghost predicate Run<T(!new), R(!new), E(!new)>(task: Task<T, R, E>, concurrency: int, run: seq<State<R, E>>) {
    && run != [] && run[0] == Start(task, concurrency)
    && forall k :: 0 <= k < |run| - 1 ==> Next(task, run[k], run[k + 1])
  }

  // ---- The invariant ----

  ghost predicate HeldBy<R, E>(s: State<R, E>, i: nat) {
    exists w: nat :: w < |s.workers| && (s.workers[w] == Running(i) || s.workers[w] == Failed(i))
  }

  ghost predicate ClaimsInv<T, R, E>(task: Task<T, R, E>, s: State<R, E>) {
    && |s.claims| == Min(s.nextIndex, |task.items|)
    && (forall k :: 0 <= k < |s.claims| ==> s.claims[k] == k)
  }

  ghost predicate WorkersInv<T, R, E>(task: Task<T, R, E>, s: State<R, E>) {
    && (forall w: nat :: w < |s.workers| && s.workers[w].Running? ==>
          s.workers[w].index < |s.claims| && s.workers[w].index !in s.results)
    && (forall w: nat :: w < |s.workers| && s.workers[w].Failed? ==>
          s.workers[w].index < |s.claims| <= |task.items| && s.workers[w].index !in s.results
          && task.Outcome(s.workers[w].index).Failure? && s.settled.Some?)
    && (forall v: nat, w: nat :: v < w < |s.workers| && s.workers[v].Running? && s.workers[w].Running? ==>
          s.workers[v].index != s.workers[w].index)
    && (forall v: nat, w: nat :: v < |s.workers| && w < |s.workers| && s.workers[v].Running? && s.workers[w].Failed? ==>
          s.workers[v].index != s.workers[w].index)
    && (forall w: nat :: w < |s.workers| && s.workers[w].Done? ==> |task.items| <= s.nextIndex)
  }

  ghost predicate ResultsInv<T, R, E>(task: Task<T, R, E>, s: State<R, E>) {
    && |s.claims| <= |task.items|
    && (forall i :: i in s.results ==> i < |s.claims| && task.Outcome(i) == Success(s.results[i]))
    && (forall i: nat :: i < |s.claims| ==> i in s.results || HeldBy(s, i))
    && (s.settled.Some? ==> exists w: nat :: FailedWith(task, s, w, s.settled.value))
  }

  ghost predicate FailedWith<T, R, E>(task: Task<T, R, E>, s: State<R, E>, w: nat, error: E) {
    && w < |s.workers| && s.workers[w].Failed? && s.workers[w].index < |task.items|
    && task.Outcome(s.workers[w].index) == Failure(error)
  }

  ghost predicate Inv<T, R, E>(task: Task<T, R, E>, concurrency: int, s: State<R, E>) {
    && |s.workers| == WorkerCount(|task.items|, concurrency)
    && ClaimsInv(task, s) && WorkersInv(task, s) && ResultsInv(task, s)
  }

  lemma StartInv<T, R, E>(task: Task<T, R, E>, concurrency: int)
    ensures Inv(task, concurrency, Start(task, concurrency))
  {
  }

  lemma ClaimWorkersInv<T, R, E>(task: Task<T, R, E>, s: State<R, E>, w: nat)
    requires ClaimsInv(task, s) && WorkersInv(task, s) && ResultsInv(task, s)
    requires w < |s.workers| && s.workers[w].Idle?
    ensures ClaimsInv(task, Claim(task, s, w)) && WorkersInv(task, Claim(task, s, w))
  {
  }

  lemma ClaimResultsInv<T, R, E>(task: Task<T, R, E>, s: State<R, E>, w: nat)
    requires ClaimsInv(task, s) && ResultsInv(task, s)
    requires w < |s.workers| && s.workers[w].Idle?
    ensures ResultsInv(task, Claim(task, s, w))
  {
    var n := Claim(task, s, w);
    forall i: nat | i < |n.claims| ensures i in n.results || HeldBy(n, i) {
      if i < |s.claims| && i !in s.results {
        var v: nat :| v < |s.workers| && (s.workers[v] == Running(i) || s.workers[v] == Failed(i));
        assert n.workers[v] == s.workers[v];
      } else if i == |s.claims| {
        assert n.workers[w] == Running(i);
      }
    }
    if s.settled.Some? {
      var v: nat :| FailedWith(task, s, v, s.settled.value);
      assert FailedWith(task, n, v, s.settled.value);
    }
  }

  lemma StoreWorkersInv<T, R, E>(task: Task<T, R, E>, s: State<R, E>, w: nat)
    requires ClaimsInv(task, s) && WorkersInv(task, s) && ResultsInv(task, s)
    requires w < |s.workers| && s.workers[w].Running?
    ensures s.workers[w].index < |task.items|
    ensures ClaimsInv(task, Store(task, s, w)) && WorkersInv(task, Store(task, s, w))
  {
  }

  lemma StoreResultsInv<T, R, E>(task: Task<T, R, E>, s: State<R, E>, w: nat)
    requires ClaimsInv(task, s) && WorkersInv(task, s) && ResultsInv(task, s)
    requires w < |s.workers| && s.workers[w].Running?
    ensures s.workers[w].index < |task.items| && ResultsInv(task, Store(task, s, w))
  {
    var at := s.workers[w].index;
    var n := Store(task, s, w);
    forall i: nat | i < |n.claims| ensures i in n.results || HeldBy(n, i) {
      if i == at {
        assert i in n.results || n.workers[w] == Failed(i);
      } else if i !in s.results {
        var v: nat :| v < |s.workers| && (s.workers[v] == Running(i) || s.workers[v] == Failed(i));
        assert n.workers[v] == s.workers[v];
      }
    }
    if n.settled.Some? {
      if s.settled.Some? {
        var v: nat :| FailedWith(task, s, v, s.settled.value);
        assert FailedWith(task, n, v, n.settled.value);
      } else {
        assert FailedWith(task, n, w, n.settled.value);
      }
    }
  }

  /** Every move of every worker keeps the invariant. */
  lemma NextKeepsInv<T(!new), R(!new), E(!new)>(task: Task<T, R, E>, concurrency: int, s: State<R, E>, s': State<R, E>)
    requires Inv(task, concurrency, s) && Next(task, s, s')
    ensures Inv(task, concurrency, s')
  {
    hide ClaimsInv, WorkersInv, ResultsInv;
    var w: nat :| CanMove(s, w) && MoveOf(task, s, w, s');
    if s.workers[w].Idle? {
      ClaimWorkersInv(task, s, w);
      ClaimResultsInv(task, s, w);
    } else {
      StoreWorkersInv(task, s, w);
      StoreResultsInv(task, s, w);
    }
  }

  lemma {:induction false} RunKeepsInv<T(!new), R(!new), E(!new)>(task: Task<T, R, E>, concurrency: int, run: seq<State<R, E>>, k: nat)
    requires Run(task, concurrency, run) && k < |run|
    ensures Inv(task, concurrency, run[k])
    decreases k
  {
    hide Inv, Next, Start;
    if k == 0 {
      StartInv(task, concurrency);
    } else {
      RunKeepsInv(task, concurrency, run, k - 1);
      assert Next(task, run[k - 1], run[k - 1 + 1]);
      NextKeepsInv(task, concurrency, run[k - 1], run[k]);
    }
  }

  // ---- Safety ----

  function InFlight<R, E>(s: State<R, E>): set<nat> {
    set w: nat | w < |s.workers| && s.workers[w].Running? :: s.workers[w].index
  }

  lemma {:induction false} InFlightBound(workers: seq<Worker>)
    ensures |set w: nat | w < |workers| && workers[w].Running? :: workers[w].index| <= |workers|
  {
    var indices := set w: nat | w < |workers| && workers[w].Running? :: workers[w].index;
    if workers == [] {
      assert indices == {};
    } else {
      var last := |workers| - 1;
      var rest := workers[..last];
      InFlightBound(rest);
      var before := set w: nat | w < |rest| && rest[w].Running? :: rest[w].index;
      var own := if workers[last].Running? then {workers[last].index} else {};
      forall i | i in indices ensures i in before + own {
        var w: nat :| w < |workers| && workers[w].Running? && workers[w].index == i;
        if w < last {
          assert rest[w] == workers[w];
        }
      }
      SubsetBound(indices, before, own);
    }
  }

  lemma SubsetBound(a: set<nat>, b: set<nat>, c: set<nat>)
    requires a <= b + c && |c| <= 1
    ensures |a| <= |b| + 1
  {
    var both := b + c;
    assert both == b + (c - b);
    assert both == a + (both - a);
    assert c == (c - b) + (c * b);
  }

  /** At every point of every run at most `concurrency` items are being worked on, no two workers have
      the same one, and the indices claimed so far are exactly 0, 1, 2, ... in that order. */
  lemma RunIsBounded<T(!new), R(!new), E(!new)>(task: Task<T, R, E>, concurrency: int, run: seq<State<R, E>>, k: nat)
    requires Run(task, concurrency, run) && k < |run| && concurrency >= 0
    ensures |InFlight(run[k])| <= concurrency
    ensures forall v: nat, w: nat :: v < w < |run[k].workers| && run[k].workers[v].Running? && run[k].workers[w].Running? ==>
      run[k].workers[v].index != run[k].workers[w].index
    ensures forall c :: 0 <= c < |run[k].claims| ==> run[k].claims[c] == c
    ensures |run[k].claims| <= |task.items|
  {
    hide Next, Start, Run;
    RunKeepsInv(task, concurrency, run, k);
    InFlightBound(run[k].workers);
  }

  /** A finished run without a failure has handed out every index, so each exactly once. */
  lemma FinishedRunClaimsAll<T(!new), R(!new), E(!new)>(task: Task<T, R, E>, concurrency: int, run: seq<State<R, E>>)
    requires Run(task, concurrency, run) && concurrency >= 1
    requires Final(run[|run| - 1]) && run[|run| - 1].settled.None?
    ensures run[|run| - 1].claims == seq(|task.items|, i => i)
  {
    assert run != [];
    hide Next, Start, Run;
    var s := run[|run| - 1];
    RunKeepsInv(task, concurrency, run, |run| - 1);
    if task.items != [] {
      assert s.workers[0].Done?;
    }
  }

  // ---- Termination ----

  function Rank(w: Worker): nat { match w case Idle => 1 case Running(_) => 2 case _ => 0 }

  function Ranks(workers: seq<Worker>): nat {
    if workers == [] then 0 else Rank(workers[0]) + Ranks(workers[1..])
  }

  lemma {:induction false} RanksUpdate(workers: seq<Worker>, w: nat, to: Worker)
    requires w < |workers|
    ensures Ranks(workers[w := to]) + Rank(workers[w]) == Ranks(workers) + Rank(to)
  {
    if w == 0 {
      assert workers[0 := to][1..] == workers[1..];
    } else {
      RanksUpdate(workers[1..], w - 1, to);
      assert workers[w := to][1..] == workers[1..][w - 1 := to];
    }
  }

  lemma {:induction false} RanksIdle(workers: seq<Worker>)
    requires forall w: nat :: w < |workers| ==> workers[w].Idle?
    ensures Ranks(workers) == |workers|
  {
    if workers != [] { RanksIdle(workers[1..]); }
  }

  /** Moves still possible at most. */
  function Measure<T, R, E>(task: Task<T, R, E>, s: State<R, E>): nat {
    2 * (|task.items| - Min(s.nextIndex, |task.items|)) + Ranks(s.workers)
  }

  lemma NextDecreases<T(!new), R(!new), E(!new)>(task: Task<T, R, E>, s: State<R, E>, s': State<R, E>)
    requires Next(task, s, s')
    ensures Measure(task, s') < Measure(task, s)
  {
    var w: nat :| CanMove(s, w) && MoveOf(task, s, w, s');
    RanksUpdate(s.workers, w, s'.workers[w]);
  }

  lemma {:induction false} RunLength<T(!new), R(!new), E(!new)>(task: Task<T, R, E>, concurrency: int, run: seq<State<R, E>>, k: nat)
    requires Run(task, concurrency, run) && k < |run|
    ensures k + Measure(task, run[k]) <= Measure(task, run[0])
    decreases k
  {
    hide Next, Start, Measure;
    if k > 0 {
      RunLength(task, concurrency, run, k - 1);
      assert Next(task, run[k - 1], run[k - 1 + 1]);
      NextDecreases(task, run[k - 1], run[k]);
    }
  }

  /** No run goes on for ever: one over n items has at most 2n + min(concurrency, n) moves. */
  lemma RunTerminates<T(!new), R(!new), E(!new)>(task: Task<T, R, E>, concurrency: int, run: seq<State<R, E>>)
    requires Run(task, concurrency, run)
    ensures |run| - 1 <= 2 * |task.items| + WorkerCount(|task.items|, concurrency)
  {
    hide Next;
    RunLength(task, concurrency, run, |run| - 1);
    RanksIdle(run[0].workers);
  }

  /** No run gets stuck: short of a final state some worker can move. */
  lemma RunProgresses<T(!new), R(!new), E(!new)>(task: Task<T, R, E>, concurrency: int, run: seq<State<R, E>>)
    returns (next: State<R, E>)
    requires Run(task, concurrency, run) && !Final(run[|run| - 1])
    ensures Run(task, concurrency, run + [next])
  {
    hide Start;
    var s := run[|run| - 1];
    RunKeepsInv(task, concurrency, run, |run| - 1);
    var w: nat :| w < |s.workers| && !s.workers[w].Done? && !s.workers[w].Failed?;
    next := if s.workers[w].Idle? then Claim(task, s, w) else Store(task, s, w);
    assert CanMove(s, w) && MoveOf(task, s, w, next);
    hide Next;
  }

  // ---- Refinement of the sequential map ----

  /** Running the job on one item after another, stopping at the first failure. */
  function SequentialMap<T, R, E>(task: Task<T, R, E>, k: nat): Result<seq<R>, E>
    requires k <= |task.items|
  {
    if k == 0 then Success([])
    else
      match SequentialMap(task, k - 1)
      case Failure(error) => Failure(error)
      case Success(done) =>
        match task.Outcome(k - 1)
        case Failure(error) => Failure(error)
        case Success(value) => Success(done + [value])
  }

  lemma {:induction false} SequentialMapMeaning<T, R, E>(task: Task<T, R, E>, k: nat)
    requires k <= |task.items|
    ensures var r := SequentialMap(task, k);
      && (r.Success? <==> forall i: nat :: i < k ==> task.Outcome(i).Success?)
      && (r.Success? ==> |r.value| == k && forall i: nat :: i < k ==> task.Outcome(i) == Success(r.value[i]))
      && (r.Failure? ==> exists i: nat :: i < k && task.Outcome(i) == Failure(r.error)
                          && forall j: nat :: j < i ==> task.Outcome(j).Success?)
  {
    if k > 0 { SequentialMapMeaning(task, k - 1); }
  }

  datatype MapError<E> = Rejected(error: E) | MissingResult

  /** What mapWithConcurrency returns once its workers have stopped. An empty list is returned before
      any worker starts. */
  function Returned<T, R, E>(task: Task<T, R, E>, s: State<R, E>): Result<seq<R>, MapError<E>> {
    if |task.items| == 0 then Success([])
    else if s.settled.Some? then Failure(Rejected(s.settled.value))
    else if forall i: nat :: i < |task.items| ==> i in s.results then
      Success(seq(|task.items|, i requires 0 <= i < |task.items| && i in s.results => s.results[i]))
    else Failure(MissingResult)
  }

  ghost predicate SomeItemFails<T, R, E>(task: Task<T, R, E>, error: E) {
    exists i: nat :: i < |task.items| && task.Outcome(i) == Failure(error)
  }

  lemma FinalResults<T, R, E>(task: Task<T, R, E>, concurrency: int, s: State<R, E>)
    requires Inv(task, concurrency, s) && Final(s) && concurrency >= 1 && s.settled.None? && task.items != []
    ensures forall i: nat :: i < |task.items| ==> i in s.results && task.Outcome(i) == Success(s.results[i])
  {
    assert s.workers[0].Done?;
    forall i: nat | i < |task.items| ensures i in s.results {
      assert i in s.results || HeldBy(s, i);
      NothingHeld(s, i);
    }
  }

  lemma NothingHeld<R, E>(s: State<R, E>, i: nat)
    requires forall w: nat :: w < |s.workers| ==> s.workers[w].Done?
    ensures !HeldBy(s, i)
  {
  }

  /** Whatever the interleaving and the concurrency, a finished run returns what the sequential map
      returns; when an item fails it fails too, with the error of some failing item. */
  lemma RunRefinesSequentialMap<T(!new), R(!new), E(!new)>(task: Task<T, R, E>, concurrency: int, run: seq<State<R, E>>)
    requires Run(task, concurrency, run) && Final(run[|run| - 1]) && concurrency >= 1
    ensures var returned, expected := Returned(task, run[|run| - 1]), SequentialMap(task, |task.items|);
      && (returned.Success? <==> expected.Success?)
      && (returned.Success? ==> returned.value == expected.value)
      && (returned.Failure? ==> returned.error.Rejected? && SomeItemFails(task, returned.error.error))
  {
    var s := run[|run| - 1];
    RunKeepsInv(task, concurrency, run, |run| - 1);
    SequentialMapMeaning(task, |task.items|);
    hide Run, SequentialMap;
    if task.items != [] {
      if s.settled.None? {
        FinalResults(task, concurrency, s);
      } else {
        var w: nat :| FailedWith(task, s, w, s.settled.value);
      }
    }
  }

  /** With one worker the run is the sequential map, errors included. */
  lemma OneWorkerIsSequential<T(!new), R(!new), E(!new)>(task: Task<T, R, E>, run: seq<State<R, E>>)
    requires Run(task, 1, run) && Final(run[|run| - 1])
    ensures var returned, expected := Returned(task, run[|run| - 1]), SequentialMap(task, |task.items|);
      match expected
      case Success(values) => returned == Success(values)
      case Failure(error) => returned == Failure(Rejected(error))
  {
    RunRefinesSequentialMap(task, 1, run);
    RunKeepsInv(task, 1, run, |run| - 1);
    SequentialMapMeaning(task, |task.items|);
    var s := run[|run| - 1];
    hide Run, SequentialMap;
    if task.items != [] && s.settled.Some? {
      var w: nat :| FailedWith(task, s, w, s.settled.value);
      assert w == 0;
      forall j: nat | j < s.workers[0].index ensures task.Outcome(j).Success? {
        assert j in s.results || HeldBy(s, j);
      }
    }
  }
}
