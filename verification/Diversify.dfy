/** Round-robin over sources: one candidate of every source in turn. */
module Diversify {
  import opened Text
  import opened Retrieval

  /** The queue of one source, in the insertion order of a Map. */
  datatype Queue = Queue(source: string, items: seq<Candidate>)

  function SourceOf(c: Candidate): string { c.chunk.sourceId }

  // ---- Grouping ----

  /** Appends to the queue of the candidate's source, opening one at the end if there is none. */
  function Enqueue(queues: seq<Queue>, c: Candidate): seq<Queue> {
    if queues == [] then [Queue(SourceOf(c), [c])]
    else if queues[0].source == SourceOf(c) then [queues[0].(items := queues[0].items + [c])] + queues[1..]
    else [queues[0]] + Enqueue(queues[1..], c)
  }

  function Grouped(cs: seq<Candidate>, k: nat): seq<Queue>
    requires k <= |cs|
  {
    if k == 0 then [] else Enqueue(Grouped(cs, k - 1), cs[k - 1])
  }

  // ---- Rounds ----

  function Heads(queues: seq<Queue>): seq<Candidate> {
    if queues == [] then []
    else (if queues[0].items == [] then [] else [queues[0].items[0]]) + Heads(queues[1..])
  }

  function Tails(queues: seq<Queue>): (r: seq<Queue>)
    ensures |r| == |queues|
  {
    if queues == [] then []
    else [queues[0].(items := if queues[0].items == [] then [] else queues[0].items[1..])] + Tails(queues[1..])
  }

  function Remaining(queues: seq<Queue>): nat {
    if queues == [] then 0 else |queues[0].items| + Remaining(queues[1..])
  }

  lemma {:induction false} RoundShrinks(queues: seq<Queue>)
    ensures Remaining(Tails(queues)) + |Heads(queues)| == Remaining(queues)
  {
    if queues != [] { RoundShrinks(queues[1..]); }
  }

  function Rounds(queues: seq<Queue>): seq<Candidate>
    decreases Remaining(queues)
  {
    RoundShrinks(queues);
    if Heads(queues) == [] then [] else Heads(queues) + Rounds(Tails(queues))
  }

  function Diversified(cs: seq<Candidate>): seq<Candidate> {
    Rounds(Grouped(cs, |cs|))
  }

  method DiversifyBySource(cs: seq<Candidate>) returns (output: seq<Candidate>)
    ensures output == Diversified(cs)
  {
    hide Enqueue, Rounds, Heads, Tails, Remaining;
    var queues: seq<Queue> := [];
    for k := 0 to |cs|
      invariant queues == Grouped(cs, k)
    {
      queues := Enqueue(queues, cs[k]);
    }
    output := [];
    var added := true;
    while added
      invariant if added then output + Rounds(queues) == Diversified(cs) else output == Diversified(cs)
      decreases added, Remaining(queues)
    {
      RoundsStep(queues);
      RoundShrinks(queues);
      ghost var start, before := queues, output;
      var shifted: seq<Candidate>;
      queues, shifted := Shift(queues);
      output := output + shifted;
      added := shifted != [];
      ConcatAssoc(before, shifted, Rounds(queues));
    }
  }

  /** One turn of the outer loop: shifts every queue that is not empty. */
  method Shift(queues: seq<Queue>) returns (left: seq<Queue>, shifted: seq<Candidate>)
    ensures left == Tails(queues) && shifted == Heads(queues)
  {
    left, shifted := [], [];
    for k := 0 to |queues|
      invariant left + Tails(queues[k..]) == Tails(queues)
      invariant shifted + Heads(queues[k..]) == Heads(queues)
    {
      var q := queues[k];
      assert queues[k..][1..] == queues[k + 1..];
      ConcatAssoc(shifted, if q.items == [] then [] else [q.items[0]], Heads(queues[k + 1..]));
      if q.items == [] {
        left := left + [q];
      } else {
        left := left + [q.(items := q.items[1..])];
        shifted := shifted + [q.items[0]];
      }
    }
  }

  lemma RoundsStep(queues: seq<Queue>)
    ensures Rounds(queues) == Heads(queues) + if Heads(queues) == [] then [] else Rounds(Tails(queues))
  {
  }

  // ---- Per-source order ----

  function OfSource(cs: seq<Candidate>, source: string): (r: seq<Candidate>)
    ensures forall c :: c in r ==> c in cs
  {
    if cs == [] then []
    else (if SourceOf(cs[0]) == source then [cs[0]] else []) + OfSource(cs[1..], source)
  }

  lemma {:induction false} OfSourceConcat(xs: seq<Candidate>, ys: seq<Candidate>, source: string)
    ensures OfSource(xs + ys, source) == OfSource(xs, source) + OfSource(ys, source)
  {
    if xs == [] {
      assert xs + ys == ys;
    } else {
      hide SourceOf;
      OfSourceConcat(xs[1..], ys, source);
      assert (xs + ys)[1..] == xs[1..] + ys;
      ConcatAssoc(if SourceOf(xs[0]) == source then [xs[0]] else [], OfSource(xs[1..], source), OfSource(ys, source));
    }
  }

  /** Queues hold only their own source's candidates, and no source has two queues. */
  ghost predicate QueuesOk(queues: seq<Queue>) {
    && (forall q, c :: q in queues && c in q.items ==> SourceOf(c) == q.source)
    && (forall i, j :: 0 <= i < j < |queues| ==> queues[i].source != queues[j].source)
  }

  lemma QueuesOkTail(queues: seq<Queue>)
    requires QueuesOk(queues) && queues != []
    ensures QueuesOk(queues[1..])
    ensures forall q :: q in queues[1..] ==> q.source != queues[0].source
    ensures forall c :: c in queues[0].items ==> SourceOf(c) == queues[0].source
  {
    assert queues[0] in queues;
    forall q | q in queues[1..] ensures q.source != queues[0].source {
      var i :| 0 <= i < |queues[1..]| && queues[1..][i] == q;
      assert queues[i + 1] == q;
    }
  }

  /** What the queue of a source holds, or nothing when there is none. */
  function QueueOf(queues: seq<Queue>, source: string): seq<Candidate> {
    if queues == [] then []
    else if queues[0].source == source then queues[0].items
    else QueueOf(queues[1..], source)
  }

  lemma {:induction false} EnqueueKeeps(queues: seq<Queue>, c: Candidate)
    requires QueuesOk(queues)
    ensures QueuesOk(Enqueue(queues, c))
    ensures forall q :: q in Enqueue(queues, c) ==> q.source == SourceOf(c) || exists p :: p in queues && p.source == q.source
    ensures forall s :: QueueOf(Enqueue(queues, c), s) == QueueOf(queues, s) + if s == SourceOf(c) then [c] else []
  {
    if queues != [] {
      QueuesOkTail(queues);
      assert forall q :: q in queues <==> q == queues[0] || q in queues[1..];
      if queues[0].source == SourceOf(c) {
        var grown := queues[0].(items := queues[0].items + [c]);
        QueuesOkCons(grown, queues[1..]);
      } else {
        EnqueueKeeps(queues[1..], c);
        QueuesOkCons(queues[0], Enqueue(queues[1..], c));
      }
    }
  }

  lemma QueuesOkCons(q: Queue, queues: seq<Queue>)
    requires QueuesOk(queues)
    requires forall p :: p in queues ==> p.source != q.source
    requires forall c :: c in q.items ==> SourceOf(c) == q.source
    ensures QueuesOk([q] + queues)
  {
  }

  lemma {:induction false} GroupedKeeps(cs: seq<Candidate>, k: nat)
    requires k <= |cs|
    ensures QueuesOk(Grouped(cs, k))
    ensures forall s :: QueueOf(Grouped(cs, k), s) == OfSource(cs[..k], s)
  {
    hide Enqueue;
    if k > 0 {
      GroupedKeeps(cs, k - 1);
      EnqueueKeeps(Grouped(cs, k - 1), cs[k - 1]);
      assert cs[..k] == cs[..k - 1] + [cs[k - 1]];
      forall s ensures QueueOf(Grouped(cs, k), s) == OfSource(cs[..k], s) {
        OfSourceConcat(cs[..k - 1], [cs[k - 1]], s);
      }
    }
  }

  lemma {:induction false} TailsOk(queues: seq<Queue>)
    requires QueuesOk(queues)
    ensures QueuesOk(Tails(queues))
    ensures forall q :: q in Tails(queues) ==> exists p :: p in queues && p.source == q.source
  {
    if queues != [] {
      QueuesOkTail(queues);
      TailsOk(queues[1..]);
      assert forall q :: q in queues <==> q == queues[0] || q in queues[1..];
      var items := queues[0].items;
      var tail := queues[0].(items := if items == [] then [] else items[1..]);
      assert forall c :: c in tail.items ==> c in items;
      QueuesOkCons(tail, Tails(queues[1..]));
    }
  }

  /** One round takes the first candidate of a source's queue and leaves the others. */
  lemma {:induction false} RoundTakesOne(queues: seq<Queue>, source: string)
    requires QueuesOk(queues)
    ensures var q := QueueOf(queues, source);
      && OfSource(Heads(queues), source) == (if q == [] then [] else [q[0]])
      && QueueOf(Tails(queues), source) == (if q == [] then [] else q[1..])
  {
    if queues != [] {
      QueuesOkTail(queues);
      RoundTakesOne(queues[1..], source);
      var items := queues[0].items;
      var own := if items == [] then [] else [items[0]];
      if queues[0].source == source {
        NoQueue(queues[1..], source);
      }
      OfSourceConcat(own, Heads(queues[1..]), source);
      OfSourceOne(items, queues[0].source, source);
      hide QueuesOk, OfSource;
    }
  }

  lemma OfSourceOne(items: seq<Candidate>, own: string, source: string)
    requires forall c :: c in items ==> SourceOf(c) == own
    ensures OfSource(if items == [] then [] else [items[0]], source)
         == if items == [] || own != source then [] else [items[0]]
  {
    if items != [] {
      assert items[0] in items;
    }
  }

  lemma {:induction false} NoQueue(queues: seq<Queue>, source: string)
    requires forall q :: q in queues ==> q.source != source
    ensures QueueOf(queues, source) == []
  {
    if queues != [] {
      assert queues[0] in queues;
      NoQueue(queues[1..], source);
    }
  }

  lemma {:induction false} RoundsOfSource(queues: seq<Queue>, source: string)
    requires QueuesOk(queues)
    ensures OfSource(Rounds(queues), source) == QueueOf(queues, source)
    decreases Remaining(queues)
  {
    hide Heads, Tails, QueuesOk, Remaining;
    RoundShrinks(queues);
    TailsOk(queues);
    RoundTakesOne(queues, source);
    RoundsStep(queues);
    if Heads(queues) != [] {
      RoundsOfSource(Tails(queues), source);
      OfSourceConcat(Heads(queues), Rounds(Tails(queues)), source);
    }
  }

  /** Each source's candidates come out in the order they went in. */
  lemma DiversifiedIsStable(cs: seq<Candidate>, source: string)
    ensures OfSource(Diversified(cs), source) == OfSource(cs, source)
  {
    hide Rounds, OfSource;
    GroupedKeeps(cs, |cs|);
    RoundsOfSource(Grouped(cs, |cs|), source);
    assert cs[..|cs|] == cs;
  }

  lemma {:induction false} OfSourceMultiset(cs: seq<Candidate>, c: Candidate)
    ensures multiset(OfSource(cs, SourceOf(c)))[c] == multiset(cs)[c]
  {
    if cs != [] {
      OfSourceMultiset(cs[1..], c);
      assert cs == [cs[0]] + cs[1..];
    }
  }

  /** Diversifying loses and invents nothing. */
  lemma DiversifiedIsPermutation(cs: seq<Candidate>)
    ensures multiset(Diversified(cs)) == multiset(cs)
  {
    hide Diversified, OfSource;
    forall c ensures multiset(Diversified(cs))[c] == multiset(cs)[c] {
      DiversifiedIsStable(cs, SourceOf(c));
      OfSourceMultiset(cs, c);
      OfSourceMultiset(Diversified(cs), c);
    }
  }

  // ---- Rounds come in order ----

  /** How many candidates of the same source come before position i: its round, counted from 0. */
  function RoundAt(cs: seq<Candidate>, i: nat): nat
    requires i < |cs|
  {
    |OfSource(cs[..i], SourceOf(cs[i]))|
  }

  lemma SplitAt<T>(xs: seq<T>, i: nat)
    requires i < |xs|
    ensures xs == xs[..i] + ([xs[i]] + xs[i + 1..])
  {
  }

  lemma {:induction false} HeadsOnePerSource(queues: seq<Queue>, i: nat)
    requires QueuesOk(queues) && i < |Heads(queues)|
    ensures OfSource(Heads(queues)[..i], SourceOf(Heads(queues)[i])) == []
  {
    var heads := Heads(queues);
    var source := SourceOf(heads[i]);
    RoundTakesOne(queues, source);
    hide Heads, QueuesOk, QueueOf, Tails, SourceOf;
    SplitAt(heads, i);
    OfSourceConcat(heads[..i], [heads[i]] + heads[i + 1..], source);
    OfSourceConcat([heads[i]], heads[i + 1..], source);
    assert OfSource([heads[i]], source) == [heads[i]];
  }

  lemma {:induction false} OfSourceHas(cs: seq<Candidate>, i: nat)
    requires i < |cs|
    ensures OfSource(cs, SourceOf(cs[i])) != []
  {
    hide SourceOf;
    if i > 0 { OfSourceHas(cs[1..], i - 1); }
  }

  lemma RestHasHead(queues: seq<Queue>, i: nat)
    requires QueuesOk(queues) && i < |Rounds(Tails(queues))|
    ensures |OfSource(Heads(queues), SourceOf(Rounds(Tails(queues))[i]))| == 1
  {
    hide Rounds, Heads, Tails, QueuesOk, OfSource, QueueOf;
    var rest := Rounds(Tails(queues));
    var source := SourceOf(rest[i]);
    TailsOk(queues);
    RoundTakesOne(queues, source);
    RoundsOfSource(Tails(queues), source);
    OfSourceHas(rest, i);
  }

  lemma {:induction false} RoundsInOrder(queues: seq<Queue>, i: nat, j: nat)
    requires QueuesOk(queues) && i < j < |Rounds(queues)|
    ensures RoundAt(Rounds(queues), i) <= RoundAt(Rounds(queues), j)
    decreases Remaining(queues)
  {
    hide Heads, Tails, Remaining, QueuesOk, OfSource, Rounds;
    RoundShrinks(queues);
    RoundsStep(queues);
    var heads, rest, out := Heads(queues), Rounds(Tails(queues)), Rounds(queues);
    if i < |heads| {
      HeadsOnePerSource(queues, i);
      assert out[..i] == heads[..i];
    } else {
      var a, b := i - |heads|, j - |heads|;
      TailsOk(queues);
      RoundsInOrder(Tails(queues), a, b);
      RestHasHead(queues, a);
      RestHasHead(queues, b);
      assert out[..i] == heads + rest[..a] && out[..j] == heads + rest[..b];
      OfSourceConcat(heads, rest[..a], SourceOf(rest[a]));
      OfSourceConcat(heads, rest[..b], SourceOf(rest[b]));
    }
  }

  /** Every source's k-th candidate comes before any source's (k + 1)-th. */
  lemma DiversifiedTakesTurns(cs: seq<Candidate>, i: nat, j: nat)
    requires i < |Diversified(cs)| && j < |Diversified(cs)|
    requires RoundAt(Diversified(cs), i) < RoundAt(Diversified(cs), j)
    ensures i < j
  {
    hide Rounds, RoundAt;
    GroupedKeeps(cs, |cs|);
    if j < i {
      RoundsInOrder(Grouped(cs, |cs|), j, i);
    }
  }
}
